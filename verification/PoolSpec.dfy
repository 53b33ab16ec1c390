/**
 * One lazily grown, bounded pool: the moves that all three transports may make.
 *
 * Members are the connections or sessions a pool owns. Serving members are the ones not
 * retired. One opener at a time may add one member.
 */
module PoolSpec {
  import opened Basics

  datatype Opening = Idle | Dialing | Published

  datatype View = View(limit: nat, members: set<nat>, retired: set<nat>, opening: Opening, closed: bool)

  function Serving(v: View): set<nat> { v.members - v.retired }

  /** Retire or remove members, close, or leave the pool as it is. */
  predicate Shrinks(v: View, w: View) {
    && w.limit == v.limit && w.opening == v.opening
    && w.members <= v.members
    && v.retired * w.members <= w.retired <= w.members
    && (v.closed ==> w.closed)
  }

  predicate BeginsOpen(v: View, w: View) {
    && v.opening.Idle? && !v.closed
    && |Serving(v)| < v.limit && |v.members| <= v.limit
    && w == v.(opening := Dialing)
  }

  /** The new member may have retired before it is published. */
  predicate Publishes(v: View, w: View, id: nat) {
    && v.opening.Dialing? && !v.closed && id !in v.members
    && (|| w == v.(opening := Published, members := v.members + {id})
        || w == v.(opening := Published, members := v.members + {id}, retired := v.retired + {id}))
  }

  predicate EndsOpen(v: View, w: View) {
    !v.opening.Idle? && w == v.(opening := Idle)
  }

  ghost predicate Moves(v: View, w: View) {
    Shrinks(v, w) || BeginsOpen(v, w) || EndsOpen(v, w) || exists id :: Publishes(v, w, id)
  }

  /** Never more serving members than the limit, never more than one draining member beside them. */
  predicate Bounded(v: View) {
    && v.retired <= v.members
    && |Serving(v)| <= v.limit
    && |v.members| <= v.limit + 1
    && (v.opening.Dialing? ==> |Serving(v)| < v.limit && |v.members| <= v.limit)
  }

  // ------------------------------------------------------------------- leases

  /** A request that holds a member. It is released once. */
  datatype Lease = Lease(member: nat, live: bool)

  function LiveLeases(leases: seq<Lease>, id: nat): nat {
    if leases == [] then 0
    else
      var n := |leases| - 1;
      LiveLeases(leases[..n], id) + if leases[n] == Lease(id, true) then 1 else 0
  }

  lemma LeaseAppended(leases: seq<Lease>, l: Lease, id: nat)
    ensures LiveLeases(leases + [l], id) == LiveLeases(leases, id) + if l == Lease(id, true) then 1 else 0
  {
    assert (leases + [l])[..|leases|] == leases;
  }

  lemma {:induction false} LeaseReleased(leases: seq<Lease>, l: nat, id: nat)
    requires l < |leases| && leases[l].live
    ensures LiveLeases(leases[l := leases[l].(live := false)], id)
         == LiveLeases(leases, id) - if leases[l].member == id then 1 else 0
    ensures leases[l].member == id ==> LiveLeases(leases, id) >= 1
  {
    var n := |leases| - 1;
    var updated := leases[l := leases[l].(live := false)];
    if l < n {
      LeaseReleased(leases[..n], l, id);
      assert updated[..n] == leases[..n][l := leases[l].(live := false)];
    } else {
      assert updated[..n] == leases[..n];
    }
  }

  lemma {:induction false} NoLeases(leases: seq<Lease>, id: nat)
    requires forall l :: 0 <= l < |leases| ==> leases[l].member != id || !leases[l].live
    ensures LiveLeases(leases, id) == 0
  {
    if leases != [] {
      NoLeases(leases[..|leases| - 1], id);
    }
  }

  // ----------------------------------------------------------------- counting

  function Ids(list: seq<nat>): set<nat> { set id | id in list }

  predicate Distinct(list: seq<nat>) {
    forall i, j :: 0 <= i < j < |list| ==> list[i] != list[j]
  }

  /** How many entries of a list are among the chosen ones: what a pool's counting loop adds up. */
  function CountIn(chosen: set<nat>, list: seq<nat>): nat {
    if list == [] then 0
    else
      var n := |list| - 1;
      CountIn(chosen, list[..n]) + if list[n] in chosen then 1 else 0
  }

  lemma {:induction false} CountInShrinks(a: set<nat>, b: set<nat>, list: seq<nat>)
    requires b <= a
    ensures CountIn(b, list) <= CountIn(a, list)
  {
    if list != [] {
      CountInShrinks(a, b, list[..|list| - 1]);
    }
  }

  lemma IdsSnoc(list: seq<nat>, id: nat)
    ensures Ids(list + [id]) == Ids(list) + {id}
  {
    assert forall x :: x in list + [id] <==> x in list || x == id;
  }

  lemma AddOne(a: set<nat>, chosen: set<nat>, x: nat)
    requires x !in a
    ensures |a + {x}| == |a| + 1
    ensures |(a + {x}) * chosen| == |a * chosen| + if x in chosen then 1 else 0
  {
    if x in chosen {
      assert (a + {x}) * chosen == a * chosen + {x};
    } else {
      assert (a + {x}) * chosen == a * chosen;
    }
  }

  lemma LastIsNew(list: seq<nat>)
    requires Distinct(list) && list != []
    ensures var n := |list| - 1;
      Distinct(list[..n]) && list[n] !in Ids(list[..n]) && Ids(list) == Ids(list[..n]) + {list[n]}
  {
    var n := |list| - 1;
    assert list == list[..n] + [list[n]];
    IdsSnoc(list[..n], list[n]);
  }

  /** In a list without repetitions the loop's count is the size of the set. */
  lemma {:induction false} CountInDistinct(chosen: set<nat>, list: seq<nat>)
    requires Distinct(list)
    ensures |Ids(list)| == |list| && |Ids(list) * chosen| == CountIn(chosen, list)
  {
    hide Distinct, Ids;
    if list == [] {
      NoIds(chosen);
    } else {
      var n := |list| - 1;
      LastIsNew(list);
      CountInDistinct(chosen, list[..n]);
      AddOne(Ids(list[..n]), chosen, list[n]);
    }
  }

  lemma NoIds(chosen: set<nat>)
    ensures Ids([]) == {} && Ids([]) * chosen == {}
  {
  }

  lemma ShrinkKeepsBounded(v: View, w: View)
    requires Bounded(v) && Shrinks(v, w)
    ensures Bounded(w)
  {
    SubsetSize(w.members, v.members);
    assert Serving(w) <= Serving(v);
    SubsetSize(Serving(w), Serving(v));
  }

  lemma PublishKeepsBounded(v: View, w: View, id: nat)
    requires Bounded(v) && Publishes(v, w, id)
    ensures Bounded(w)
  {
    if id in w.retired {
      assert Serving(w) == Serving(v);
    } else {
      assert Serving(w) == Serving(v) + {id};
    }
  }

  lemma MovesKeepBounded(v: View, w: View)
    requires Bounded(v) && Moves(v, w)
    ensures Bounded(w)
  {
    hide Shrinks, Publishes;
    if Shrinks(v, w) {
      ShrinkKeepsBounded(v, w);
    } else if id :| Publishes(v, w, id) {
      PublishKeepsBounded(v, w, id);
    }
  }
}
