/** Which session an undisturbed native selection gives out, and where every lease comes from. */
module EncryptedSelection {
  import opened EncryptedPool
  import PoolSpec

  // ------------------------------------------------------- an undisturbed selection

  /** What the sessions answer, which of them have idled too long, and which one the sort puts first. */
  datatype World = World(answer: nat -> Offer, expired: set<nat>, pick: seq<nat> -> nat)

  function Turn(s: State, w: World): Label {
    match s.select
    case Free => Begin
    case Retaining(i) => Retain(i < |s.owners| && s.owners[i] in w.expired)
    case Trying(todo) =>
      var choice := if todo == [] then 0 else w.pick(todo);
      Try(choice, if choice < |todo| then w.answer(todo[choice]) else Pending)
    case Counting(_, _) => Count
  }

  function Rank(p: Selecting): nat {
    match p
    case Free => 0
    case Counting(_, _) => 1
    case Trying(_) => 2
    case Retaining(_) => 3
  }

  function Left(s: State): nat {
    match s.select
    case Free => 0
    case Counting(i, _) => if i < |s.owners| then |s.owners| - i else 0
    case Trying(todo) => |todo|
    case Retaining(i) => if i < |s.owners| then |s.owners| - i else 0
  }

  predicate Progress(s: State, s': State) {
    Rank(s'.select) < Rank(s.select) || (Rank(s'.select) == Rank(s.select) && Left(s') < Left(s))
  }

  /** The selection under way, to its end, with nothing in between. */
  function Alone(s: State, w: World): State
    decreases Rank(s.select), Left(s)
  {
    var s' := Step(s, Turn(s, w));
    if !s.select.Free? && Progress(s, s') then Alone(s', w) else s
  }

  lemma AloneStep(s: State, w: World, s': State)
    requires !s.select.Free? && s' == Step(s, Turn(s, w)) && Progress(s, s')
    ensures Alone(s, w) == Alone(s', w)
  {
  }

  lemma AloneEnds(s: State, w: World)
    requires s.select.Free?
    ensures Alone(s, w) == s
  {
  }

  // ------------------------------------------------------------------- the law

  /** A session that the selection asks: listed, neither retired nor expired. */
  predicate Asked(s: State, w: World, id: nat) {
    id in s.owners && id < |s.sessions| && !s.sessions[id].retired && id !in w.expired
  }

  /** The sort puts a least loaded session first. */
  ghost predicate Sorts(s: State, w: World) {
    forall todo: seq<nat> :: todo != [] && AllKnown(s, todo) ==> LeastAt(s, todo, w.pick(todo))
  }

  predicate AllKnown(s: State, todo: seq<nat>) {
    forall id :: id in todo ==> id < |s.sessions|
  }

  predicate LeastAt(s: State, todo: seq<nat>, i: nat)
    requires AllKnown(s, todo)
  {
    && i < |todo| && todo[i] < |s.sessions|
    && forall id :: id in todo ==> s.sessions[todo[i]].active <= s.sessions[id].active
  }

  /** One request more on this session, and a lease for it; everything it was not asked for stays. */
  predicate Leased(s: State, r: State, id: nat)
    requires id < |s.sessions|
  {
    && r.leases == s.leases + [PoolSpec.Lease(id, true)]
    && |r.sessions| == |s.sessions| && r.sessions[id] == s.sessions[id].(active := s.sessions[id].active + 1)
    && r.guards == s.guards && r.opening == s.opening && r.select.Free?
  }

  /** The selection gave out a ready session, and no session that would have answered has less load. */
  predicate Served(s: State, w: World, r: State, id: nat) {
    && Asked(s, w, id) && w.answer(id) == Ready && Leased(s, r, id)
    && forall x :: x in s.owners && Asked(s, w, x) && (w.answer(x) == Ready || w.answer(x) == Failed) ==>
         s.sessions[id].active <= s.sessions[x].active
  }

  /** The selection ended at a session that failed, and no session that would have answered has less load. */
  predicate Failing(s: State, w: World, r: State, id: nat) {
    && Asked(s, w, id) && w.answer(id) == Failed
    && r.leases == s.leases && r.guards == s.guards && r.opening == s.opening && r.select.Free?
    && forall x :: x in s.owners && Asked(s, w, x) && (w.answer(x) == Ready || w.answer(x) == Failed) ==>
         s.sessions[id].active <= s.sessions[x].active
  }

  predicate NoneAnswers(s: State, w: World) {
    forall id :: id in s.owners && Asked(s, w, id) ==> w.answer(id) == Pending || w.answer(id) == Exhausted
  }

  /** The listed sessions that stay: all but the idle ones that are retired or expired. */
  function Stay(s: State, w: World): set<nat> {
    set id | id in s.owners && id < |s.sessions| &&
      !((s.sessions[id].retired || id in w.expired) && s.sessions[id].active == 0)
  }

  /** Of those, the ones that still serve: asked, and not exhausted. */
  function Remain(s: State, w: World): set<nat> {
    set id | id in Stay(s, w) && Asked(s, w, id) && w.answer(id) != Exhausted
  }

  predicate HasRoom(s: State, w: World) {
    !s.opening && |Remain(s, w)| < s.maximum && |Stay(s, w)| <= s.maximum
  }

  /** A listed session that has expired, or that is asked and exhausted. */
  predicate Retires(s: State, w: World, id: nat) {
    id in s.owners && (id in w.expired || (Asked(s, w, id) && w.answer(id) == Exhausted))
  }

  /** Nothing was given out: a guard for a new session was, exactly if there is room. */
  predicate Unserved(s: State, w: World, r: State) {
    && r.leases == s.leases && r.select.Free?
    && r.opening == (s.opening || HasRoom(s, w))
    && r.guards == (if HasRoom(s, w) then s.guards + [Dialing] else s.guards)
    && |r.sessions| == |s.sessions|
    && forall id :: 0 <= id < |s.sessions| ==>
         r.sessions[id] == if Retires(s, w, id) then s.sessions[id].(retired := true) else s.sessions[id]
  }

  // ------------------------------------------------------------------ retaining

  predicate Dropped(s: State, w: World, id: nat) {
    id < |s.sessions| && (s.sessions[id].retired || id in w.expired) && s.sessions[id].active == 0
  }

  /** A session that `retain` has been past and left in the list. */
  predicate Keeps(s: State, w: World, id: nat) {
    id < |s.sessions| && !Dropped(s, w, id) && (id in w.expired ==> s.sessions[id].retired)
  }

  /** The sessions once those among `ids` that have expired are retired. */
  function Lapsed(s: State, w: World, ids: set<nat>): (r: seq<Session>)
    ensures |r| == |s.sessions|
    ensures forall id :: 0 <= id < |r| ==>
      r[id] == if id in ids && id in w.expired then s.sessions[id].(retired := true) else s.sessions[id]
  {
    seq(|s.sessions|, id requires 0 <= id < |s.sessions| =>
      if id in ids && id in w.expired then s.sessions[id].(retired := true) else s.sessions[id])
  }

  /** What `retain` leads to. */
  ghost predicate Kempt(s: State, w: World, r: State) {
    && r == s.(owners := r.owners, sessions := Lapsed(s, w, PoolSpec.Ids(s.owners)), select := Trying(r.owners))
    && Listed(r)
    && forall id :: id in r.owners <==> id in s.owners && !Dropped(s, w, id)
  }

  lemma RetainStep(s: State, w: World, i: nat)
    requires s.select == Retaining(i) && i <= |s.owners| && Listed(s)
    ensures Alone(s, w) == Alone(DoRetain(s, i, i < |s.owners| && s.owners[i] in w.expired), w)
  {
    hide Alone;
    AloneStep(s, w, DoRetain(s, i, i < |s.owners| && s.owners[i] in w.expired));
  }

  /** One listed session is retired if it has expired, and stays. */
  lemma KeptOne(s: State, w: World, i: nat, next: State, r: State)
    requires i < |s.owners| && Listed(s) && !Dropped(s, w, s.owners[i])
    requires var id := s.owners[i]; var c := s.sessions[id];
      next == s.(sessions := s.sessions[id := if id in w.expired then c.(retired := true) else c],
        select := Retaining(i + 1))
    requires Kempt(next, w, r)
    ensures Kempt(s, w, r)
  {
    assert Lapsed(next, w, PoolSpec.Ids(s.owners)) == Lapsed(s, w, PoolSpec.Ids(s.owners));
    forall id
      ensures Dropped(next, w, id) <==> Dropped(s, w, id)
    {
    }
  }

  /** The list without its entry at `i` holds exactly the others. */
  lemma WithoutOne(owners: seq<nat>, i: nat)
    requires i < |owners| && PoolSpec.Distinct(owners)
    ensures var rest := owners[..i] + owners[i + 1..];
      owners[i] !in rest && forall x :: x in owners <==> x in rest || x == owners[i]
  {
    assert owners == owners[..i] + [owners[i]] + owners[i + 1..];
  }

  lemma LapsedCut(s: State, w: World, i: nat, next: State)
    requires i < |s.owners| && Listed(s) && next.owners == s.owners[..i] + s.owners[i + 1..]
    requires var id := s.owners[i]; var c := s.sessions[id];
      next.sessions == s.sessions[id := if id in w.expired then c.(retired := true) else c]
    ensures Lapsed(next, w, PoolSpec.Ids(next.owners)) == Lapsed(s, w, PoolSpec.Ids(s.owners))
    ensures forall x :: Dropped(next, w, x) <==> Dropped(s, w, x)
  {
    hide PoolSpec.Distinct;
    WithoutOne(s.owners, i);
  }

  lemma CutOne(s: State, w: World, i: nat, next: State, r: State)
    requires i < |s.owners| && Listed(s) && Dropped(s, w, s.owners[i])
    requires var id := s.owners[i]; var c := s.sessions[id];
      next == s.(sessions := s.sessions[id := if id in w.expired then c.(retired := true) else c],
        owners := s.owners[..i] + s.owners[i + 1..])
    requires Kempt(next, w, r)
    ensures Kempt(s, w, r)
  {
    LapsedCut(s, w, i, next);
    WithoutOne(s.owners, i);
    hide Lapsed, Dropped, PoolSpec.Distinct;
  }

  lemma {:induction false} Retains(s: State, w: World, i: nat) returns (r: State)
    requires s.select == Retaining(i) && i <= |s.owners| && Listed(s)
    requires forall j :: 0 <= j < i ==> Keeps(s, w, s.owners[j])
    ensures Alone(s, w) == Alone(r, w) && Kempt(s, w, r)
    decreases |s.owners| - i
  {
    hide Alone;
    RetainStep(s, w, i);
    var next := DoRetain(s, i, i < |s.owners| && s.owners[i] in w.expired);
    if i == |s.owners| {
      r := next;
      RetainedAll(s, w, r);
    } else if Dropped(s, w, s.owners[i]) {
      hide Kempt;
      RetainListed(s, i, s.owners[i] in w.expired);
      RetainCut(s, w, i);
      r := Retains(next, w, i);
      CutOne(s, w, i, next, r);
    } else {
      hide Kempt;
      RetainListed(s, i, s.owners[i] in w.expired);
      RetainKeep(s, w, i);
      r := Retains(next, w, i + 1);
      KeptOne(s, w, i, next, r);
    }
  }

  lemma RetainedAll(s: State, w: World, r: State)
    requires Listed(s) && !s.closed && r == s.(select := Trying(s.owners))
    requires forall j :: 0 <= j < |s.owners| ==> Keeps(s, w, s.owners[j])
    ensures Kempt(s, w, r)
  {
    assert Lapsed(s, w, PoolSpec.Ids(s.owners)) == s.sessions;
  }

  lemma RetainCut(s: State, w: World, i: nat)
    requires s.select == Retaining(i) && i < |s.owners| && Listed(s) && Dropped(s, w, s.owners[i])
    requires forall j :: 0 <= j < i ==> Keeps(s, w, s.owners[j])
    ensures var id, next := s.owners[i], DoRetain(s, i, s.owners[i] in w.expired);
      && next == s.(sessions := s.sessions[id := if id in w.expired then s.sessions[id].(retired := true)
           else s.sessions[id]], owners := s.owners[..i] + s.owners[i + 1..])
      && forall j :: 0 <= j < i ==> Keeps(next, w, next.owners[j])
  {
  }

  lemma RetainKeep(s: State, w: World, i: nat)
    requires s.select == Retaining(i) && i < |s.owners| && Listed(s) && !Dropped(s, w, s.owners[i])
    requires forall j :: 0 <= j < i ==> Keeps(s, w, s.owners[j])
    ensures var id, next := s.owners[i], DoRetain(s, i, s.owners[i] in w.expired);
      && next == s.(sessions := s.sessions[id := if id in w.expired then s.sessions[id].(retired := true)
           else s.sessions[id]], select := Retaining(i + 1))
      && forall j :: 0 <= j < i + 1 ==> Keeps(next, w, next.owners[j])
  {
  }

  // --------------------------------------------------------------------- trying

  function Rest(todo: seq<nat>, i: nat): seq<nat>
    requires i < |todo|
  {
    todo[..i] + todo[i + 1..]
  }

  lemma RestMembers(todo: seq<nat>, i: nat)
    requires i < |todo|
    ensures forall id :: id in todo <==> id in Rest(todo, i) || id == todo[i]
  {
    assert todo == todo[..i] + [todo[i]] + todo[i + 1..];
  }

  lemma TryStep(s: State, w: World, todo: seq<nat>)
    requires s.select == Trying(todo) && todo != [] && w.pick(todo) < |todo| && todo[w.pick(todo)] < |s.sessions|
    ensures var i := w.pick(todo); Alone(s, w) == Alone(DoTry(s, todo, i, w.answer(todo[i])), w)
  {
    hide Alone;
    var i := w.pick(todo);
    AloneStep(s, w, DoTry(s, todo, i, w.answer(todo[i])));
  }

  /** A session of the queue that would end the selection: live, and ready or failing. */
  predicate Decides(s: State, w: World, id: nat) {
    id < |s.sessions| && !s.sessions[id].retired && (w.answer(id) == Ready || w.answer(id) == Failed)
  }

  predicate SomeDecides(s: State, w: World, todo: seq<nat>) {
    exists id :: id in todo && Decides(s, w, id)
  }

  lemma SortsStill(s: State, s': State, w: World)
    requires Sorts(s, w) && |s'.sessions| == |s.sessions|
    requires forall i :: 0 <= i < |s.sessions| ==> s'.sessions[i].active == s.sessions[i].active
    ensures Sorts(s', w)
  {
    forall todo: seq<nat> | todo != [] && AllKnown(s', todo)
      ensures LeastAt(s', todo, w.pick(todo))
    {
      assert AllKnown(s, todo) && LeastAt(s, todo, w.pick(todo));
    }
  }

  /** Going past a session that is retired, full or exhausted. */
  function Past(s: State, w: World, id: nat, todo: seq<nat>): State
    requires id < |s.sessions|
  {
    var c := s.sessions[id];
    s.(sessions := s.sessions[id := if !c.retired && w.answer(id) == Exhausted then c.(retired := true) else c],
       select := Trying(todo))
  }

  lemma PastStep(s: State, w: World, todo: seq<nat>)
    requires s.select == Trying(todo) && todo != [] && w.pick(todo) < |todo| && todo[w.pick(todo)] < |s.sessions|
    requires !Decides(s, w, todo[w.pick(todo)])
    ensures var i := w.pick(todo); Alone(s, w) == Alone(Past(s, w, todo[i], Rest(todo, i)), w)
  {
    hide Alone;
    TryStep(s, w, todo);
    var i := w.pick(todo);
    assert DoTry(s, todo, i, w.answer(todo[i])) == Past(s, w, todo[i], Rest(todo, i));
  }

  /** The first session in order that decides gives the result. */
  lemma {:induction false} TriesDeciding(s: State, w: World, todo: seq<nat>) returns (id: nat)
    requires s.select == Trying(todo) && Sorts(s, w) && AllKnown(s, todo) && SomeDecides(s, w, todo)
    ensures id in todo && Decides(s, w, id)
    ensures forall x :: x in todo && Decides(s, w, x) ==> s.sessions[id].active <= s.sessions[x].active
    ensures var r := Alone(s, w);
      if w.answer(id) == Ready then Leased(s, r, id)
      else r.leases == s.leases && r.guards == s.guards && r.opening == s.opening && r.select.Free?
    decreases |todo|
  {
    hide Alone, Sorts;
    Picks(s, w, todo);
    var i := w.pick(todo);
    id := todo[i];
    if Decides(s, w, id) {
      TryStep(s, w, todo);
      AloneEnds(DoTry(s, todo, i, w.answer(id)), w);
    } else {
      var passed := id;
      var next := Past(s, w, passed, Rest(todo, i));
      PastStep(s, w, todo);
      RestMembers(todo, i);
      SortsStill(s, next, w);
      StillDecides(s, w, todo, i);
      id := TriesDeciding(next, w, Rest(todo, i));
    }
  }

  lemma Picks(s: State, w: World, todo: seq<nat>)
    requires Sorts(s, w) && todo != [] && AllKnown(s, todo)
    ensures LeastAt(s, todo, w.pick(todo)) && w.pick(todo) < |todo| && todo[w.pick(todo)] in todo
  {
  }

  lemma StillDecides(s: State, w: World, todo: seq<nat>, i: nat)
    requires SomeDecides(s, w, todo) && i < |todo| && todo[i] < |s.sessions| && !Decides(s, w, todo[i])
    ensures SomeDecides(Past(s, w, todo[i], Rest(todo, i)), w, Rest(todo, i))
  {
    RestMembers(todo, i);
    var id :| id in todo && Decides(s, w, id);
    assert id in Rest(todo, i) && Decides(Past(s, w, todo[i], Rest(todo, i)), w, id);
  }

  /** The sessions once the exhausted ones among `ids` are retired. */
  function Used(s: State, w: World, ids: seq<nat>): (r: seq<Session>)
    ensures |r| == |s.sessions|
    ensures forall id :: 0 <= id < |r| ==>
      r[id] == if id in ids && w.answer(id) == Exhausted then s.sessions[id].(retired := true) else s.sessions[id]
  {
    seq(|s.sessions|, id requires 0 <= id < |s.sessions| =>
      if id in ids && w.answer(id) == Exhausted then s.sessions[id].(retired := true) else s.sessions[id])
  }

  lemma {:induction false} TriesNone(s: State, w: World, todo: seq<nat>)
    requires s.select == Trying(todo) && Sorts(s, w) && AllKnown(s, todo) && !SomeDecides(s, w, todo)
    ensures Alone(s, w) == Alone(s.(sessions := Used(s, w, todo), select := Counting(0, 0)), w)
    decreases |todo|
  {
    hide Alone, Sorts;
    if todo == [] {
      AloneStep(s, w, s.(select := Counting(0, 0)));
      assert Used(s, w, []) == s.sessions;
    } else {
      Picks(s, w, todo);
      var i := w.pick(todo);
      var next := Past(s, w, todo[i], Rest(todo, i));
      PastStep(s, w, todo);
      RestMembers(todo, i);
      SortsStill(s, next, w);
      NoneDecides(s, w, todo, i);
      TriesNone(next, w, Rest(todo, i));
      UsedMore(s, w, todo, i);
      assert next.(sessions := Used(s, w, todo), select := Counting(0, 0))
        == s.(sessions := Used(s, w, todo), select := Counting(0, 0));
    }
  }

  lemma NoneDecides(s: State, w: World, todo: seq<nat>, i: nat)
    requires !SomeDecides(s, w, todo) && i < |todo| && todo[i] < |s.sessions|
    ensures !SomeDecides(Past(s, w, todo[i], Rest(todo, i)), w, Rest(todo, i))
  {
    RestMembers(todo, i);
    var next := Past(s, w, todo[i], Rest(todo, i));
    assert forall id :: Decides(next, w, id) ==> Decides(s, w, id);
  }

  lemma UsedMore(s: State, w: World, todo: seq<nat>, i: nat)
    requires i < |todo| && todo[i] < |s.sessions|
    ensures Used(Past(s, w, todo[i], Rest(todo, i)), w, Rest(todo, i)) == Used(s, w, todo)
  {
    RestMembers(todo, i);
  }

  lemma {:induction false} Counts(s: State, w: World, i: nat, n: nat)
    requires s.select == Counting(i, n) && i <= |s.owners| && Listed(s)
    requires n == ServingIn(s.sessions, s.owners[..i])
    ensures var r := Alone(s, w);
      var opens := !s.opening && ServingIn(s.sessions, s.owners) < s.maximum && |s.owners| <= s.maximum;
      r == s.(opening := s.opening || opens, guards := if opens then s.guards + [Dialing] else s.guards, select := Free)
    decreases |s.owners| - i
  {
    hide Alone;
    var next := DoCount(s, i, n);
    AloneStep(s, w, next);
    if i == |s.owners| {
      assert s.owners[..i] == s.owners;
      AloneEnds(next, w);
    } else {
      assert s.owners[..i + 1][..i] == s.owners[..i];
      Counts(next, w, i + 1, next.select.serving);
    }
  }

  // -------------------------------------------------------------- the whole of it

  /** What the selection asks once it has dropped and retired what it had to. */
  lemma AskedAfter(s: State, w: World, r: State, id: nat)
    requires Listed(s) && Kempt(s, w, r)
    ensures id in r.owners && Decides(r, w, id) <==>
      Asked(s, w, id) && (w.answer(id) == Ready || w.answer(id) == Failed)
    ensures id < |s.sessions| ==> r.sessions[id].active == s.sessions[id].active
    ensures Asked(s, w, id) ==> r.sessions[id] == s.sessions[id] && id in r.owners
  {
  }

  lemma ServesOrFails(s: State, w: World) returns (id: nat)
    requires Listed(s) && s.select.Free? && !s.closed && Sorts(s, w) && !NoneAnswers(s, w)
    ensures var r := Alone(s.(select := Retaining(0)), w); Served(s, w, r, id) || Failing(s, w, r, id)
  {
    hide Alone, Sorts;
    var begun := s.(select := Retaining(0));
    var r := Retains(begun, w, 0);
    SortsStill(s, r, w);
    forall x: nat
      ensures x in r.owners && Decides(r, w, x) <==>
        Asked(s, w, x) && (w.answer(x) == Ready || w.answer(x) == Failed)
    {
      AskedAfter(begun, w, r, x);
    }
    var x :| x in s.owners && Asked(s, w, x) && !(w.answer(x) == Pending || w.answer(x) == Exhausted);
    assert x in r.owners && Decides(r, w, x);
    id := TriesDeciding(r, w, r.owners);
    AskedAfter(begun, w, r, id);
    forall y | y in s.owners && Asked(s, w, y) && (w.answer(y) == Ready || w.answer(y) == Failed)
      ensures s.sessions[id].active <= s.sessions[y].active
    {
      AskedAfter(begun, w, r, y);
    }
  }

  lemma ServesNone(s: State, w: World)
    requires Listed(s) && s.select.Free? && !s.closed && Sorts(s, w) && NoneAnswers(s, w)
    ensures Unserved(s, w, Alone(s.(select := Retaining(0)), w))
  {
    hide Alone, Sorts, HasRoom;
    var begun := s.(select := Retaining(0));
    var r := Retains(begun, w, 0);
    SortsStill(s, r, w);
    forall x: nat
      ensures !(x in r.owners && Decides(r, w, x))
    {
      AskedAfter(begun, w, r, x);
    }
    TriesNone(r, w, r.owners);
    var counting := r.(sessions := Used(r, w, r.owners), select := Counting(0, 0));
    CountsNothing(counting.sessions);
    Counts(counting, w, 0, 0);
    RoomIs(s, w, r, counting);
    UsedIs(s, w, r);
  }

  lemma CountsNothing(sessions: seq<Session>)
    ensures ServingIn(sessions, []) == 0
  {
  }

  lemma UsedIs(s: State, w: World, r: State)
    requires Listed(s) && Kempt(s.(select := Retaining(0)), w, r) && NoneAnswers(s, w)
    ensures |Used(r, w, r.owners)| == |s.sessions|
    ensures forall id :: 0 <= id < |s.sessions| ==>
      Used(r, w, r.owners)[id] == if Retires(s, w, id) then s.sessions[id].(retired := true) else s.sessions[id]
  {
  }

  lemma RoomIs(s: State, w: World, r: State, counting: State)
    requires Listed(s) && Kempt(s.(select := Retaining(0)), w, r) && NoneAnswers(s, w)
    requires counting == r.(sessions := Used(r, w, r.owners), select := Counting(0, 0))
    ensures HasRoom(s, w) <==>
      && !s.opening && ServingIn(counting.sessions, r.owners) < s.maximum && |r.owners| <= s.maximum
  {
    UsedIs(s, w, r);
    var live := Live(counting.sessions);
    PoolSpec.CountInDistinct(live, r.owners);
    assert PoolSpec.Ids(r.owners) == Stay(s, w);
    assert PoolSpec.Ids(r.owners) * live == Remain(s, w);
  }

  /**
   * In every reachable state of an open pool, a selection with nothing in between gives out a
   * least loaded session that is listed, unretired, unexpired and ready, unless a failing one has
   * no more load, at which it ends. If none is ready or failing it hands out a guard for a new
   * session exactly if there is room once the expired and the exhausted ones are retired.
   */
  lemma SelectionExactly(maximum: nat, labels: seq<Label>, w: World)
    requires var s := Run(maximum, labels); s.select.Free? && !s.closed && Sorts(s, w)
    ensures var s := Run(maximum, labels); var r := Alone(Step(s, Begin), w);
      if NoneAnswers(s, w) then Unserved(s, w, r)
      else exists id: nat :: Served(s, w, r, id) || Failing(s, w, r, id)
  {
    hide Run, Alone, Sorts, NoneAnswers, Unserved, Served, Failing, LeasesExact, CountCovers, PoolSpec.Bounded;
    var s := Run(maximum, labels);
    RunInv(maximum, labels);
    if NoneAnswers(s, w) {
      ServesNone(s, w);
    } else {
      var id := ServesOrFails(s, w);
    }
  }

  // ---------------------------------------------------------------- every lease

  /** This step asks a listed session that is not retired, and it is ready. */
  predicate Asks(s: State, l: Label, id: nat) {
    && l.Try? && l.offer == Ready && s.select.Trying? && l.choice < |s.select.todo| && s.select.todo[l.choice] == id
    && id < |s.sessions| && !s.sessions[id].retired
  }

  ghost predicate Granted(maximum: nat, labels: seq<Label>, id: nat) {
    exists i :: 0 <= i < |labels| && Asks(Run(maximum, labels[..i]), labels[i], id)
  }

  lemma StepLeases(s: State, l: Label, k: nat)
    requires k < |Step(s, l).leases|
    ensures var id := Step(s, l).leases[k].member; Asks(s, l, id) || (k < |s.leases| && s.leases[k].member == id)
  {
  }

  /** In every run each lease is on a session that was asked while not retired and was ready. */
  lemma {:induction false} EveryLeaseGranted(maximum: nat, labels: seq<Label>, k: nat)
    requires k < |Run(maximum, labels).leases|
    ensures Granted(maximum, labels, Run(maximum, labels).leases[k].member)
  {
    hide Step, Asks;
    var n := |labels| - 1;
    var before := labels[..n];
    var id := Run(maximum, labels).leases[k].member;
    StepLeases(Run(maximum, before), labels[n], k);
    if Asks(Run(maximum, before), labels[n], id) {
      assert Granted(maximum, labels, id);
    } else {
      EveryLeaseGranted(maximum, before, k);
      var i :| 0 <= i < n && Asks(Run(maximum, before[..i]), before[i], id);
      assert before[..i] == labels[..i];
    }
  }

  // ----------------------------------------------------------------- idle at last

  /** No lease that lives is on a session that the pool has let go of. */
  predicate Holds(s: State) {
    forall k :: 0 <= k < |s.leases| && s.leases[k].live ==> s.leases[k].member in s.owners
  }

  lemma {:induction false} LiveCounts(leases: seq<PoolSpec.Lease>, k: nat)
    requires k < |leases| && leases[k].live
    ensures PoolSpec.LiveLeases(leases, leases[k].member) > 0
  {
    PoolSpec.LeaseReleased(leases, k, leases[k].member);
  }

  /** Only a session without requests leaves the list. */
  lemma LeavesIdle(s: State, l: Label, id: nat)
    requires Listed(s) && id in s.owners && id !in Step(s, l).owners
    ensures s.sessions[id].active == 0 && Step(s, l).leases == s.leases
  {
    if s.select.Retaining? && s.select.next < |s.owners| {
      var i := s.select.next;
      assert s.owners == s.owners[..i] + [s.owners[i]] + s.owners[i + 1..];
    }
  }

  /** A lease that lives was live before, or is on a session that was listed. */
  lemma LivesOn(s: State, l: Label, k: nat)
    requires Queued(s) && k < |Step(s, l).leases| && Step(s, l).leases[k].live
    ensures (k < |s.leases| && Step(s, l).leases[k] == s.leases[k]) || Step(s, l).leases[k].member in Step(s, l).owners
  {
  }

  /** Only listed sessions are asked. */
  predicate Queued(s: State) {
    s.select.Trying? ==> forall i :: 0 <= i < |s.select.todo| ==> s.select.todo[i] in s.owners
  }

  lemma QueuedStep(s: State, l: Label)
    requires Queued(s)
    ensures Queued(Step(s, l))
  {
  }

  lemma HoldsStep(s: State, l: Label)
    requires Listed(s) && LeasesExact(s) && Queued(s) && Holds(s)
    ensures Holds(Step(s, l))
  {
    hide Step, Queued;
    var s' := Step(s, l);
    forall k | 0 <= k < |s'.leases| && s'.leases[k].live
      ensures s'.leases[k].member in s'.owners
    {
      LivesOn(s, l, k);
      var id := s'.leases[k].member;
      if id !in s'.owners {
        LiveCounts(s.leases, k);
        LeavesIdle(s, l, id);
      }
    }
  }

  /** In every run each live lease is on a listed session. */
  lemma {:induction false} LiveLeasesListed(maximum: nat, labels: seq<Label>)
    ensures Holds(Run(maximum, labels)) && Queued(Run(maximum, labels))
  {
    hide Step, Holds, Queued;
    if labels != [] {
      var before := labels[..|labels| - 1];
      LiveLeasesListed(maximum, before);
      RunInv(maximum, before);
      HoldsStep(Run(maximum, before), labels[|labels| - 1]);
      QueuedStep(Run(maximum, before), labels[|labels| - 1]);
    } else {
      HoldsFirst(maximum);
    }
  }

  lemma HoldsFirst(maximum: nat)
    ensures Holds(Initial(maximum)) && Queued(Initial(maximum))
  {
  }

  /** In every run `close` finds the pool idle exactly if it is closed, nothing opens and no request lives. */
  lemma IdleExactly(maximum: nat, labels: seq<Label>)
    ensures var s := Run(maximum, labels);
      Idle(s) <==> s.closed && !s.opening && forall k :: 0 <= k < |s.leases| ==> !s.leases[k].live
  {
    hide Run;
    var s := Run(maximum, labels);
    RunInv(maximum, labels);
    LiveLeasesListed(maximum, labels);
    if Idle(s) {
      forall k | 0 <= k < |s.leases|
        ensures !s.leases[k].live
      {
        if s.leases[k].live {
          LiveCounts(s.leases, k);
        }
      }
    } else if forall k :: 0 <= k < |s.leases| ==> !s.leases[k].live {
      forall id | 0 <= id < |s.sessions|
        ensures s.sessions[id].active == 0
      {
        PoolSpec.NoLeases(s.leases, id);
      }
    }
  }
}
