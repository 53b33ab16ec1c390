/**
 * The JavaScript session transport's pool. JavaScript runs each piece of code between two
 * awaits without interruption, so each method here is one such piece.
 */
module JsSessions {
  import PoolSpec

  /** A session record. `frees` counts the calls that freed its Rust core. */
  datatype Owner = Owner(active: nat, retired: bool, frees: nat)

  datatype Opening = NotOpening | Setup | Pushed

  /** The listed sessions' order only decides which is tried first, so a set holds them. */
  datatype State = State(maximum: nat, owners: seq<Owner>, sessions: set<nat>, opening: Opening, closed: bool,
      leases: seq<PoolSpec.Lease>)

  function Retired(s: State): set<nat> {
    set id | id in s.sessions && id < |s.owners| && s.owners[id].retired
  }

  function Abs(s: State): PoolSpec.View {
    PoolSpec.View(s.maximum, s.sessions, Retired(s),
                  match s.opening
                  case NotOpening => PoolSpec.Idle
                  case Setup => PoolSpec.Dialing
                  case Pushed => PoolSpec.Published,
                  s.closed)
  }

  // -------------------------------------------------------------- operations

  function RemoveSpec(s: State, id: nat): State
    requires id < |s.owners|
  {
    if id !in s.sessions then s
    else s.(sessions := s.sessions - {id}, owners := s.owners[id := s.owners[id].(frees := s.owners[id].frees + 1)])
  }

  function RetireSpec(s: State, id: nat): State
    requires id < |s.owners|
  {
    if s.owners[id].retired then s
    else
      var r := s.(owners := s.owners[id := s.owners[id].(retired := true)]);
      if s.owners[id].active == 0 then RemoveSpec(r, id) else r
  }

  function HoldSpec(s: State, id: nat): State
    requires id < |s.owners|
  {
    s.(owners := s.owners[id := s.owners[id].(active := s.owners[id].active + 1)],
      leases := s.leases + [PoolSpec.Lease(id, true)])
  }

  function ReleaseSpec(s: State, l: nat): State
    requires l < |s.leases|
  {
    var id := s.leases[l].member;
    if id >= |s.owners| || s.owners[id].active == 0 then s else
    var r := s.(owners := s.owners[id := s.owners[id].(active := s.owners[id].active - 1)],
      leases := s.leases[l := s.leases[l].(live := false)]);
    if r.owners[id].active == 0 && r.owners[id].retired then RemoveSpec(r, id) else r
  }

  /** Take or lay down the shared setup. */
  lemma OpeningKeeps(s: State, opening: Opening)
    requires Valid(s) && PoolSpec.Bounded(Abs(s.(opening := opening)))
    ensures Valid(s.(opening := opening)) && Retired(s.(opening := opening)) == Retired(s)
  {
    hide PoolSpec.Bounded;
    var r := s.(opening := opening);
    forall i | 0 <= i < |r.owners|
      ensures CoreExact(r, i)
    {
      assert CoreExact(s, i);
    }
  }

  function PublishSpec(s: State): State {
    s.(owners := s.owners + [Owner(0, false, 0)], sessions := s.sessions + {|s.owners|}, opening := Pushed)
  }

  /** A core finished too late is freed at once and never listed. */
  function DiscardSpec(s: State): State {
    s.(owners := s.owners + [Owner(0, true, 1)])
  }

  /** What `close` does to the sessions from `id` on. */
  function RetireFrom(s: State, exchange: nat -> bool, id: nat): State
    decreases |s.owners| - id
  {
    if id >= |s.owners| then s
    else if id !in s.sessions then RetireFrom(s, exchange, id + 1)
    else
      var held := if !s.owners[id].retired && exchange(id) then HoldSpec(s, id) else s;
      RetireFrom(RetireSpec(held, id), exchange, id + 1)
  }

  // --------------------------------------------------------------- invariants

  /** Each core is freed once, exactly when its session is retired and idle. */
  predicate CoreExact(s: State, id: nat)
    requires id < |s.owners|
  {
    && (id in s.sessions <==> !s.owners[id].retired || s.owners[id].active > 0)
    && s.owners[id].frees == (if id in s.sessions then 0 else 1)
  }

  predicate CoresExact(s: State) {
    && (forall id :: id in s.sessions ==> id < |s.owners|)
    && (forall id :: 0 <= id < |s.owners| ==> CoreExact(s, id))
  }

  predicate LeasesExact(s: State) {
    && (forall l :: 0 <= l < |s.leases| ==> s.leases[l].member < |s.owners|)
    && (forall id :: 0 <= id < |s.owners| ==> s.owners[id].active == PoolSpec.LiveLeases(s.leases, id))
  }

  predicate Consistent(s: State) {
    CoresExact(s) && LeasesExact(s) && PoolSpec.Bounded(Abs(s))
  }

  predicate AllRetired(s: State, before: nat) {
    forall id :: 0 <= id < |s.owners| && id < before ==> s.owners[id].retired
  }

  predicate Valid(s: State) {
    Consistent(s) && (s.closed ==> AllRetired(s, |s.owners|))
  }

  lemma RetireKeeps(s: State, id: nat)
    requires Consistent(s) && id < |s.owners|
    ensures var r := RetireSpec(s, id);
      && Consistent(r) && PoolSpec.Shrinks(Abs(s), Abs(r)) && r.owners[id].retired && |r.owners| == |s.owners|
      && (forall n :: AllRetired(s, n) ==> AllRetired(r, n))
  {
    hide PoolSpec.Bounded, PoolSpec.LiveLeases;
    var r := RetireSpec(s, id);
    assert CoreExact(s, id);
    forall i | 0 <= i < |r.owners|
      ensures CoreExact(r, i)
    {
      assert CoreExact(s, i);
    }
    PoolSpec.ShrinkKeepsBounded(Abs(s), Abs(r));
  }

  lemma HoldKeeps(s: State, id: nat)
    requires Consistent(s) && id < |s.owners| && !s.owners[id].retired
    ensures Consistent(HoldSpec(s, id)) && Abs(HoldSpec(s, id)) == Abs(s)
    ensures forall n :: AllRetired(s, n) ==> AllRetired(HoldSpec(s, id), n)
  {
    hide PoolSpec.Bounded, PoolSpec.LiveLeases;
    var r := HoldSpec(s, id);
    forall i | 0 <= i < |r.owners|
      ensures CoreExact(r, i) && r.owners[i].active == PoolSpec.LiveLeases(r.leases, i)
    {
      assert CoreExact(s, i);
      PoolSpec.LeaseAppended(s.leases, PoolSpec.Lease(id, true), i);
    }
    assert Retired(r) == Retired(s);
  }

  lemma ReleaseAllowed(s: State, l: nat)
    requires Consistent(s) && l < |s.leases| && s.leases[l].live
    ensures s.leases[l].member < |s.owners| && s.owners[s.leases[l].member].active > 0
  {
    PoolSpec.LeaseReleased(s.leases, l, s.leases[l].member);
  }

  lemma ReleaseKeeps(s: State, l: nat)
    requires Valid(s) && l < |s.leases| && s.leases[l].live
    ensures Valid(ReleaseSpec(s, l)) && PoolSpec.Shrinks(Abs(s), Abs(ReleaseSpec(s, l)))
  {
    hide PoolSpec.Bounded, PoolSpec.LiveLeases;
    ReleaseAllowed(s, l);
    var r, id := ReleaseSpec(s, l), s.leases[l].member;
    forall i | 0 <= i < |r.owners|
      ensures CoreExact(r, i) && r.owners[i].active == PoolSpec.LiveLeases(r.leases, i)
    {
      assert CoreExact(s, i);
      PoolSpec.LeaseReleased(s.leases, l, i);
    }
    PoolSpec.ShrinkKeepsBounded(Abs(s), Abs(r));
  }

  lemma PublishKeeps(s: State)
    requires Valid(s) && s.opening == Setup && !s.closed
    ensures Valid(PublishSpec(s)) && PoolSpec.Publishes(Abs(s), Abs(PublishSpec(s)), |s.owners|)
  {
    hide PoolSpec.Bounded, PoolSpec.LiveLeases;
    var r, n := PublishSpec(s), |s.owners|;
    PoolSpec.NoLeases(s.leases, n);
    assert n !in s.sessions;
    forall i | 0 <= i < |r.owners|
      ensures CoreExact(r, i) && r.owners[i].active == PoolSpec.LiveLeases(r.leases, i)
    {
      if i < n {
        assert CoreExact(s, i);
      }
    }
    assert Retired(r) == Retired(s);
    PoolSpec.PublishKeepsBounded(Abs(s), Abs(r), n);
  }

  lemma DiscardKeeps(s: State)
    requires Valid(s)
    ensures Valid(DiscardSpec(s)) && Abs(DiscardSpec(s)) == Abs(s)
  {
    hide PoolSpec.Bounded, PoolSpec.LiveLeases;
    var r, n := DiscardSpec(s), |s.owners|;
    PoolSpec.NoLeases(s.leases, n);
    assert n !in s.sessions;
    forall i | 0 <= i < |r.owners|
      ensures CoreExact(r, i) && r.owners[i].active == PoolSpec.LiveLeases(r.leases, i)
    {
      if i < n {
        assert CoreExact(s, i);
      }
    }
    assert Retired(r) == Retired(s);
  }

  lemma ShrinksCompose(u: PoolSpec.View, v: PoolSpec.View, w: PoolSpec.View)
    requires PoolSpec.Shrinks(u, v) && PoolSpec.Shrinks(v, w)
    ensures PoolSpec.Shrinks(u, w)
  {
  }

  /** Closing retires every session, freeing the idle ones at once. */
  lemma {:induction false} CloseKeeps(s: State, exchange: nat -> bool, id: nat)
    requires Consistent(s) && s.closed && AllRetired(s, id)
    ensures var r := RetireFrom(s, exchange, id);
      Valid(r) && r.closed && PoolSpec.Shrinks(Abs(s), Abs(r)) && |r.owners| == |s.owners|
    decreases |s.owners| - id
  {
    hide Consistent, RetireSpec, HoldSpec, Abs, PoolSpec.Shrinks;
    ShrinksSelf(s);
    if id >= |s.owners| {
      return;
    }
    if id !in s.sessions {
      UnlistedIsRetired(s, id);
      CloseKeeps(s, exchange, id + 1);
      return;
    }
    var held := if !s.owners[id].retired && exchange(id) then HoldSpec(s, id) else s;
    if !s.owners[id].retired {
      HoldKeeps(s, id);
      HoldOwners(s, id);
    }
    RetireKeeps(held, id);
    var r := RetireSpec(held, id);
    RetireClosed(held, id);
    assert AllRetired(r, id);
    CloseKeeps(r, exchange, id + 1);
    ShrinksCompose(Abs(s), Abs(r), Abs(RetireFrom(r, exchange, id + 1)));
  }

  lemma ShrinksSelf(s: State)
    requires Consistent(s)
    ensures PoolSpec.Shrinks(Abs(s), Abs(s))
  {
  }

  lemma UnlistedIsRetired(s: State, id: nat)
    requires Consistent(s) && id < |s.owners| && id !in s.sessions
    ensures s.owners[id].retired
  {
    assert CoreExact(s, id);
  }

  lemma HoldOwners(s: State, id: nat)
    requires id < |s.owners|
    ensures |HoldSpec(s, id).owners| == |s.owners| && HoldSpec(s, id).closed == s.closed
  {
  }

  lemma RetireLength(s: State, id: nat)
    requires id < |s.owners|
    ensures |RetireSpec(s, id).owners| == |s.owners|
  {
  }

  lemma RetireClosed(s: State, id: nat)
    requires id < |s.owners|
    ensures RetireSpec(s, id).closed == s.closed
  {
  }

  /**
   * Once closed and with every request released, each core ever made, listed or not, has been
   * freed exactly once.
   */
  lemma EveryCoreFreed(s: State)
    requires Valid(s) && s.closed && forall l :: 0 <= l < |s.leases| ==> !s.leases[l].live
    ensures s.sessions == {} && forall id :: 0 <= id < |s.owners| ==> s.owners[id].frees == 1
  {
    hide PoolSpec.Bounded;
    forall id | 0 <= id < |s.owners|
      ensures id !in s.sessions && s.owners[id].frees == 1
    {
      assert CoreExact(s, id);
      PoolSpec.NoLeases(s.leases, id);
    }
  }

  // ------------------------------------------------------------------- class

  class SessionTransport {
    const maximum: nat
    var owners: seq<Owner>
    var sessions: set<nat>
    var opening: Opening
    var closed: bool
    var leases: seq<PoolSpec.Lease>

    function View(): State
      reads this
    {
      State(maximum, owners, sessions, opening, closed, leases)
    }

    constructor (maxSessions: nat)
      ensures Valid(View()) && View() == State(maxSessions, [], {}, NotOpening, false, [])
    {
      maximum := maxSessions;
      owners, sessions, opening, closed, leases := [], {}, NotOpening, false, [];
    }

    /** `#remove`: drop the session from the list and free its core, if it is still listed. */
    method Remove(id: nat)
      requires id < |owners|
      modifies this`owners, this`sessions
      ensures View() == RemoveSpec(old(View()), id)
    {
      if id !in sessions {
        return;
      }
      sessions := sessions - {id};
      owners := owners[id := owners[id].(frees := owners[id].frees + 1)];
    }

    /** `#retire`. */
    method Retire(id: nat)
      requires Consistent(View()) && id < |owners|
      modifies this`owners, this`sessions
      ensures View() == RetireSpec(old(View()), id)
      ensures Consistent(View()) && PoolSpec.Shrinks(Abs(old(View())), Abs(View()))
      ensures old(Valid(View())) ==> Valid(View())
    {
      RetireKeeps(View(), id);
      if owners[id].retired {
        return;
      }
      owners := owners[id := owners[id].(retired := true)];
      if owners[id].active == 0 {
        Remove(id);
      }
    }

    /** `#release`: called once for each request that held the session. */
    method Release(l: nat)
      requires Valid(View()) && l < |leases| && leases[l].live
      modifies this`owners, this`sessions, this`leases
      ensures View() == ReleaseSpec(old(View()), l)
      ensures Valid(View()) && PoolSpec.Shrinks(Abs(old(View())), Abs(View()))
    {
      ReleaseAllowed(View(), l);
      ReleaseKeeps(View(), l);
      var id := leases[l].member;
      owners := owners[id := owners[id].(active := owners[id].active - 1)];
      leases := leases[l := leases[l].(live := false)];
      if owners[id].active == 0 && owners[id].retired {
        Remove(id);
      }
    }

    /** The end of a selection attempt: the session's core has allocated a request. */
    method Allocate(id: nat) returns (selected: bool)
      requires Valid(View()) && id < |owners|
      modifies this`owners, this`leases
      ensures Valid(View()) && Abs(View()) == Abs(old(View()))
      ensures selected <==> !closed && !old(owners)[id].retired
      ensures View() == if selected then HoldSpec(old(View()), id) else old(View())
    {
      hide Consistent, Abs;
      if closed || owners[id].retired {
        return false;
      }
      HoldKeeps(View(), id);
      owners := owners[id := owners[id].(active := owners[id].active + 1)];
      leases := leases + [PoolSpec.Lease(id, true)];
      selected := true;
    }

    /** The part of `#select` after no session could serve: wait, or begin the one shared setup. */
    method BeginOpen() returns (opens: bool)
      requires Valid(View())
      modifies this`opening
      ensures Valid(View())
      ensures opens <==>
        && !closed && old(opening) == NotOpening
        && |PoolSpec.Serving(Abs(old(View())))| < maximum && |sessions| < maximum + 1
      ensures opens ==> PoolSpec.BeginsOpen(Abs(old(View())), Abs(View()))
      ensures !opens ==> View() == old(View())
    {
      var retired := Retired(View());
      if closed || opening != NotOpening || |sessions - retired| >= maximum || |sessions| >= maximum + 1 {
        return false;
      }
      OpeningKeeps(View(), Setup);
      opening := Setup;
      opens := true;
    }

    /** `#open` finished: list the session, or free its core if the setup was aborted or the transport closed. */
    method Publish(aborted: bool) returns (listed: bool)
      requires Valid(View()) && opening == Setup
      modifies this`owners, this`sessions, this`opening
      ensures Valid(View())
      ensures listed <==> !aborted && !closed
      ensures View() == if listed then PublishSpec(old(View())) else DiscardSpec(old(View()))
      ensures listed ==> PoolSpec.Publishes(Abs(old(View())), Abs(View()), |old(owners)|)
      ensures !listed ==> Abs(View()) == Abs(old(View()))
    {
      if aborted || closed {
        DiscardKeeps(View());
        owners := owners + [Owner(0, true, 1)];
        return false;
      }
      PublishKeeps(View());
      owners, sessions, opening := owners + [Owner(0, false, 0)], sessions + {|owners|}, Pushed;
      return true;
    }

    /** The setup promise's `finally`. */
    method EndOpen()
      requires Valid(View()) && opening != NotOpening
      modifies this`opening
      ensures Valid(View()) && PoolSpec.EndsOpen(Abs(old(View())), Abs(View()))
    {
      OpeningKeeps(View(), NotOpening);
      opening := NotOpening;
    }

    /** One turn of the loop in `close`. */
    method CloseSession(id: nat, exchange: bool)
      requires Consistent(View()) && id < |owners|
      modifies this`owners, this`sessions, this`leases
      ensures Consistent(View()) && |owners| == |old(owners)|
      ensures View() == if id in old(sessions)
        then RetireSpec(if !old(owners)[id].retired && exchange then HoldSpec(old(View()), id) else old(View()), id)
        else old(View())
    {
      hide Consistent, Abs, PoolSpec.Shrinks;
      if id in sessions {
        if !owners[id].retired && exchange {
          HoldKeeps(View(), id);
          owners := owners[id := owners[id].(active := owners[id].active + 1)];
          leases := leases + [PoolSpec.Lease(id, true)];
        }
        RetireLength(View(), id);
        Retire(id);
      }
    }

    /** `close`: each live session may hold one last request, then all are retired. */
    method Close(exchange: nat -> bool)
      requires Valid(View())
      modifies this`owners, this`sessions, this`leases, this`closed
      ensures Valid(View()) && closed && PoolSpec.Shrinks(Abs(old(View())), Abs(View()))
      ensures View() == RetireFrom(old(View()).(closed := true), exchange, 0)
    {
      hide Consistent, RetireSpec, HoldSpec, Abs, PoolSpec.Shrinks;
      closed := true;
      ghost var start := View();
      ClosingStart(old(View()));
      CloseKeeps(start, exchange, 0);
      ShrinksCompose(Abs(old(View())), Abs(start), Abs(RetireFrom(start, exchange, 0)));
      var id := 0;
      while id < |owners|
        invariant 0 <= id && Consistent(View()) && closed
        invariant RetireFrom(View(), exchange, id) == RetireFrom(start, exchange, 0)
      {
        CloseSession(id, exchange(id));
        id := id + 1;
      }
    }
  }

  lemma ClosingStart(s: State)
    requires Consistent(s)
    ensures Consistent(s.(closed := true)) && PoolSpec.Shrinks(Abs(s), Abs(s.(closed := true)))
  {
    hide PoolSpec.Bounded;
    var r := s.(closed := true);
    assert Retired(r) == Retired(s);
    forall i | 0 <= i < |r.owners|
      ensures CoreExact(r, i)
    {
      assert CoreExact(s, i);
    }
    PoolSpec.ShrinkKeepsBounded(Abs(s), Abs(r));
  }
}
