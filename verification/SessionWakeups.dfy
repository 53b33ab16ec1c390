/** What every interleaving of waiting callers keeps, for the client that wakes all and the one that wakes one. */
module SessionWakeups {
  import opened SessionWaiting
  import PoolSpec

  // ----------------------------------------------------------------- structure

  predicate Looking(p: Phase) {
    p.Enabled? || p.Trying?
  }

  predicate QueueFits(s: State) {
    && (forall i :: 0 <= i < |s.queue| ==> s.queue[i] < |s.callers| && s.callers[s.queue[i]].phase.Waiting?)
    && PoolSpec.Distinct(s.queue)
    && (forall t :: 0 <= t < |s.callers| && s.callers[t].phase.Waiting? ==> t in s.queue)
  }

  predicate SeenFits(s: State) {
    forall t :: 0 <= t < |s.callers| && Looking(s.callers[t].phase) ==> s.callers[t].phase.seen <= s.version
  }

  /** A session that still serves is listed for everyone who may come to it. */
  predicate RestOk(s: State, p: Phase) {
    p.Trying? ==> forall id :: id in p.rest ==> id < |s.sessions| && (!s.sessions[id].retired ==> id in s.listed)
  }

  predicate RestFits(s: State) {
    forall t :: 0 <= t < |s.callers| ==> RestOk(s, s.callers[t].phase)
  }

  predicate ListFits(s: State) {
    forall id :: id in s.listed ==> id < |s.sessions|
  }

  /** No listed session is retired and idle. */
  predicate AllKept(s: State) {
    forall id :: id in s.listed && id < |s.sessions| ==> !Spare(s.sessions[id])
  }

  predicate Shape(s: State) {
    && QueueFits(s) && SeenFits(s) && RestFits(s) && ListFits(s)
    && (!s.all ==> AllKept(s))
  }

  // ------------------------------------------------------------- what was seen

  /** A notification is still to come. */
  predicate Due(s: State) {
    s.owed > 0 || s.setup.Published?
  }

  predicate OfUse(c: Session) {
    !c.retired && !c.offer.Full?
  }

  predicate Saw(s: State, p: Phase) {
    p.Trying? && p.seen == s.version ==>
      && (forall id :: id in s.listed && id < |s.sessions| && OfUse(s.sessions[id]) ==> id in p.rest)
      && (!s.all ==> forall id :: id in p.rest && id < |s.sessions| ==> !s.sessions[id].retired)
      && AllKept(s)
  }

  /** What a selection has passed over is still of no use, as long as nothing was announced. */
  predicate AllSaw(s: State) {
    !Due(s) ==> forall t :: 0 <= t < |s.callers| ==> Saw(s, s.callers[t].phase)
  }

  // ------------------------------------------------------------ the two promises

  ghost predicate SomeoneTries(s: State) {
    exists t :: 0 <= t < |s.callers| && s.callers[t].phase.Trying?
  }

  /** Rust: whoever waits has a reason, unless a selection is under way or a notification is due. */
  ghost predicate AllReasoned(s: State) {
    s.all && s.queue != [] && !Due(s) && !s.closed ==> AllFull(s) && AllKept(s) && (NoRoom(s) || SomeoneTries(s))
  }

  /** A woken caller that will look at the sessions as they are now. */
  predicate Fresh(s: State, c: Caller) {
    c.woken && (c.phase.Signalled? || c.phase.Top? || (Looking(c.phase) && c.phase.seen == s.version))
  }

  ghost predicate SomeoneFresh(s: State) {
    exists t :: 0 <= t < |s.callers| && Fresh(s, s.callers[t])
  }

  /** JavaScript: while someone waits beside what could serve, a woken caller is on its way, unless one was dropped. */
  ghost predicate OneOnTheWay(s: State) {
    !s.all && s.queue != [] && CanServe(s) ==> Due(s) || s.dropped || SomeoneFresh(s)
  }

  ghost predicate WakeInv(s: State) {
    Shape(s) && AllSaw(s) && AllReasoned(s) && OneOnTheWay(s)
  }

  // -------------------------------------------------------------- notifications

  lemma SignalFits(s: State)
    requires Shape(s)
    ensures Shape(Notified(s))
  {
    var s' := Notified(s);
    var n := if s.all || s.queue == [] then |s.queue| else 1;
    assert s.queue == s.queue[..n] + s.queue[n..];
    forall i | 0 <= i < |s'.queue|
      ensures s'.queue[i] < |s'.callers| && s'.callers[s'.queue[i]].phase.Waiting?
    {
      assert s'.queue[i] == s.queue[n + i];
    }
    forall t | 0 <= t < |s'.callers| && s'.callers[t].phase.Waiting?
      ensures t in s'.queue
    {
      assert t in s.queue && t !in s.queue[..n];
    }
    forall t | 0 <= t < |s'.callers|
      ensures RestOk(s', s'.callers[t].phase)
    {
      assert RestOk(s, s.callers[t].phase);
    }
  }

  /** Whatever changed before it, a notification keeps both promises. */
  lemma NotifiedKeeps(s: State)
    requires Shape(s)
    ensures WakeInv(Notified(s))
  {
    var s' := Notified(s);
    SignalFits(s);
    if s.queue != [] {
      var t := s.queue[0];
      assert t in s.queue[..if s.all then |s.queue| else 1];
      assert Fresh(s', s'.callers[t]);
    }
  }

  lemma LoudKeeps(s: State)
    requires Shape(s) && s.owed > 0
    ensures WakeInv(s)
  {
  }

  lemma PaidKeeps(s: State)
    requires Shape(s) && s.owed > 0
    ensures WakeInv(Notified(s).(owed := s.owed - 1))
  {
    hide Notified;
    NotifiedKeeps(s);
    var n := Notified(s);
    var s' := n.(owed := s.owed - 1);
    NotifiedParts(s);
    assert Shape(s') by {
      assert Shape(n);
      forall t | 0 <= t < |s'.callers|
        ensures RestOk(s', s'.callers[t].phase)
      {
        assert RestOk(n, n.callers[t].phase);
      }
    }
    assert SomeoneFresh(n) ==> SomeoneFresh(s');
  }

  lemma NotifiedParts(s: State)
    requires Shape(s)
    ensures var n := Notified(s); n.owed == s.owed && n.setup == s.setup && n.all == s.all
    ensures var n := Notified(s); n.all ==> n.queue == []
    ensures var n := Notified(s); s.queue != [] ==> SomeoneFresh(n)
    ensures var n := Notified(s); n.queue != [] ==> s.queue != []
    ensures var n := Notified(s);
      forall t :: 0 <= t < |n.callers| && n.callers[t].phase.Trying? ==> n.callers[t].phase.seen < n.version
  {
    NotifiedKeeps(s);
    if s.queue != [] {
      var t := s.queue[0];
      assert t in s.queue[..if s.all then |s.queue| else 1];
      assert Fresh(Notified(s), Notified(s).callers[t]);
    }
  }

  // ------------------------------------------------------- structure, step by step

  lemma {:induction false} WithoutMembers(list: seq<nat>, id: nat)
    ensures forall x :: x in Without(list, id) <==> x in list && x != id
    ensures PoolSpec.Distinct(list) ==> PoolSpec.Distinct(Without(list, id))
  {
    if list != [] {
      var n := |list| - 1;
      WithoutMembers(list[..n], id);
      assert list == list[..n] + [list[n]];
      var rest := Without(list[..n], id);
      assert forall i :: 0 <= i < |rest| ==> rest[i] in list[..n];
    }
  }

  lemma {:induction false} PrunedMembers(s: State, list: seq<nat>)
    ensures forall x :: x in Pruned(s, list) <==> x in list && !(x < |s.sessions| && Spare(s.sessions[x]))
  {
    if list != [] {
      var n := |list| - 1;
      PrunedMembers(s, list[..n]);
      assert list == list[..n] + [list[n]];
    }
  }

  /** One caller moves; nobody enters or leaves the queue. */
  lemma ShapeAfterMove(s: State, t: nat, c: Caller)
    requires Shape(s) && t < |s.callers| && !s.callers[t].phase.Waiting? && !c.phase.Waiting?
    requires RestOk(s, c.phase) && (Looking(c.phase) ==> c.phase.seen <= s.version)
    ensures Shape(s.(callers := s.callers[t := c]))
  {
    var s' := s.(callers := s.callers[t := c]);
    forall u | 0 <= u < |s'.callers|
      ensures RestOk(s', s'.callers[u].phase)
    {
      assert u != t ==> RestOk(s, s.callers[u].phase);
    }
  }

  lemma ShapeAfterPark(s: State, t: nat)
    requires Shape(s) && t < |s.callers| && !s.callers[t].phase.Waiting?
    ensures Shape(Leave(s, t, Waiting).(queue := s.queue + [t]))
  {
    var s' := Leave(s, t, Waiting).(queue := s.queue + [t]);
    assert forall i :: 0 <= i < |s.queue| ==> s.queue[i] != t;
    forall u | 0 <= u < |s'.callers|
      ensures RestOk(s', s'.callers[u].phase)
    {
      assert u != t ==> RestOk(s, s.callers[u].phase);
    }
  }

  lemma ShapeAfterUnpark(s: State, t: nat)
    requires Shape(s) && t < |s.callers|
    ensures Shape(Leave(s, t, Gone).(queue := Without(s.queue, t)))
  {
    var s' := Leave(s, t, Gone).(queue := Without(s.queue, t));
    WithoutMembers(s.queue, t);
    forall i | 0 <= i < |s'.queue|
      ensures s'.queue[i] < |s'.callers| && s'.callers[s'.queue[i]].phase.Waiting?
    {
      assert s'.queue[i] in s.queue && s'.queue[i] != t;
    }
    forall u | 0 <= u < |s'.callers|
      ensures RestOk(s', s'.callers[u].phase)
    {
      assert u != t ==> RestOk(s, s.callers[u].phase);
    }
  }

  /** Sessions change or leave the list, but what serves stays listed. */
  predicate PoolMoves(s: State, s': State) {
    && s'.callers == s.callers && s'.queue == s.queue && s'.version == s.version && s'.all == s.all
    && |s.sessions| <= |s'.sessions|
    && (forall id :: 0 <= id < |s.sessions| && s.sessions[id].retired ==> s'.sessions[id].retired)
    && (forall id :: id in s.listed && id < |s.sessions| && !s'.sessions[id].retired ==> id in s'.listed)
    && ListFits(s') && (!s.all ==> AllKept(s'))
  }

  lemma ShapeAfterPool(s: State, s': State)
    requires Shape(s) && PoolMoves(s, s')
    ensures Shape(s')
  {
    forall t | 0 <= t < |s'.callers|
      ensures RestOk(s', s'.callers[t].phase)
    {
      assert RestOk(s, s.callers[t].phase);
    }
  }

  lemma RetiredMoves(s: State, id: nat)
    requires Shape(s) && id < |s.sessions|
    ensures PoolMoves(s, Retired(s, id)) && Shape(Retired(s, id))
  {
    WithoutMembers(s.listed, id);
    ShapeAfterPool(s, Retired(s, id));
  }

  lemma SessionMoves(s: State, id: nat, c: Session)
    requires Shape(s) && id < |s.sessions| && c.retired == s.sessions[id].retired
    requires c.active >= s.sessions[id].active
    ensures PoolMoves(s, SetSession(s, id, c)) && Shape(SetSession(s, id, c))
  {
    ShapeAfterPool(s, SetSession(s, id, c));
  }

  lemma PrunedMoves(s: State)
    requires Shape(s)
    ensures var r := s.(listed := Pruned(s, s.listed)); PoolMoves(s, r) && Shape(r) && AllKept(r)
  {
    PrunedMembers(s, s.listed);
    ShapeAfterPool(s, s.(listed := Pruned(s, s.listed)));
  }

  lemma SetupMoves(s: State, ok: bool)
    requires Shape(s)
    ensures Shape(s.(setup := PoolSpec.Idle, callers := AfterSetup(s.callers, ok)))
  {
    var s' := s.(setup := PoolSpec.Idle, callers := AfterSetup(s.callers, ok));
    forall t | 0 <= t < |s'.callers|
      ensures RestOk(s', s'.callers[t].phase)
    {
      assert RestOk(s, s.callers[t].phase);
    }
  }

  lemma PublishMoves(s: State, offer: Offer)
    requires Shape(s)
    ensures Shape(DoPool(s, Publish(offer)))
  {
    ShapeAfterPool(s, DoPool(s, Publish(offer)));
  }

  lemma ArriveMoves(s: State)
    requires Shape(s)
    ensures Shape(DoPool(s, Arrive))
  {
    var s' := DoPool(s, Arrive);
    forall t | 0 <= t < |s'.callers|
      ensures RestOk(s', s'.callers[t].phase)
    {
      assert t < |s.callers| ==> RestOk(s, s.callers[t].phase);
    }
  }

  // ------------------------------------------------------------ moves of one caller

  /** The caller may stop trying only with no room left, and being fresh only with nothing to serve. */
  ghost predicate Lets(s: State, t: nat, c: Caller)
    requires t < |s.callers|
  {
    && (s.callers[t].phase.Trying? && !c.phase.Trying? && s.all && s.queue != [] && !Due(s) && !s.closed ==> NoRoom(s))
    && (Fresh(s, s.callers[t]) && !Fresh(s, c) && !s.all && !Due(s) && !s.dropped ==> !CanServe(s))
  }

  lemma MoveKeeps(s: State, t: nat, c: Caller)
    requires WakeInv(s) && t < |s.callers| && !s.callers[t].phase.Waiting? && !c.phase.Waiting?
    requires RestOk(s, c.phase) && (Looking(c.phase) ==> c.phase.seen <= s.version)
    requires (!Due(s) ==> Saw(s, c.phase)) && Lets(s, t, c)
    ensures WakeInv(s.(callers := s.callers[t := c]))
  {
    hide NoRoom, AllFull, RestOk;
    var s' := s.(callers := s.callers[t := c]);
    ShapeAfterMove(s, t, c);
    SamePool(s, s');
    forall u | 0 <= u < |s'.callers| && !Due(s')
      ensures Saw(s', s'.callers[u].phase)
    {
      assert Saw(s, s'.callers[u].phase);
    }
    if u :| 0 <= u < |s.callers| && s.callers[u].phase.Trying? {
      assert u != t ==> s'.callers[u].phase.Trying?;
      assert c.phase.Trying? ==> s'.callers[t].phase.Trying?;
    }
    if u :| 0 <= u < |s.callers| && Fresh(s, s.callers[u]) {
      assert u != t ==> Fresh(s', s'.callers[u]);
      assert Fresh(s, c) ==> Fresh(s', s'.callers[t]);
    }
  }

  lemma SamePool(s: State, s': State)
    requires s'.listed == s.listed && s'.sessions == s.sessions && s'.setup == s.setup && s'.maximum == s.maximum
    ensures AllFull(s') == AllFull(s) && NoRoom(s') == NoRoom(s)
  {
  }

  lemma {:induction false} CountAll(chosen: set<nat>, list: seq<nat>)
    requires forall id :: id in list ==> id in chosen
    ensures PoolSpec.CountIn(chosen, list) == |list|
  {
    if list != [] {
      var n := |list| - 1;
      assert list == list[..n] + [list[n]];
      CountAll(chosen, list[..n]);
    }
  }

  lemma KeptIsListed(s: State)
    requires ListFits(s) && AllKept(s)
    ensures KeptIn(s) == |s.listed|
  {
    CountAll(Kept(s.sessions), s.listed);
  }

  lemma {:induction false} PrunedSame(s: State, list: seq<nat>)
    requires forall id :: id in list && id < |s.sessions| ==> !Spare(s.sessions[id])
    ensures Pruned(s, list) == list
  {
    if list != [] {
      var n := |list| - 1;
      assert list == list[..n] + [list[n]];
      PrunedSame(s, list[..n]);
    }
  }

  lemma {:induction false} ServingMembers(s: State, list: seq<nat>)
    ensures forall x :: x in Serving(s, list) <==> x in list && x < |s.sessions| && !s.sessions[x].retired
  {
    if list != [] {
      var n := |list| - 1;
      ServingMembers(s, list[..n]);
      assert list == list[..n] + [list[n]];
    }
  }

  lemma BeginKeeps(s: State, t: nat)
    requires WakeInv(s) && t < |s.callers| && s.callers[t].phase.Enabled?
    ensures WakeInv(DoBegin(s, t, s.callers[t].phase.seen))
  {
    hide NoRoom;
    if s.closed {
      MoveKeeps(s, t, Caller(Gone, false));
      return;
    }
    var list := Pruned(s, s.listed);
    var r := s.(listed := list);
    var c := s.callers[t].(phase := Trying(Serving(s, list), s.callers[t].phase.seen));
    PrunedMembers(s, s.listed);
    ServingMembers(s, list);
    PrunedMoves(s);
    assert RestOk(r, c.phase);
    ShapeAfterMove(r, t, c);
    BeginSees(s, t);
    BeginPromises(s, t);
  }

  lemma BeginSees(s: State, t: nat)
    requires WakeInv(s) && t < |s.callers| && s.callers[t].phase.Enabled? && !s.closed
    ensures AllSaw(DoBegin(s, t, s.callers[t].phase.seen))
  {
    var s' := DoBegin(s, t, s.callers[t].phase.seen);
    PrunedMembers(s, s.listed);
    ServingMembers(s, s'.listed);
    forall u | 0 <= u < |s'.callers| && !Due(s')
      ensures Saw(s', s'.callers[u].phase)
    {
      assert u != t ==> Saw(s, s.callers[u].phase);
    }
  }

  lemma BeginPromises(s: State, t: nat)
    requires WakeInv(s) && t < |s.callers| && s.callers[t].phase.Enabled? && !s.closed
    ensures AllReasoned(DoBegin(s, t, s.callers[t].phase.seen)) && OneOnTheWay(DoBegin(s, t, s.callers[t].phase.seen))
  {
    hide NoRoom;
    var s' := DoBegin(s, t, s.callers[t].phase.seen);
    PrunedMembers(s, s.listed);
    assert s'.callers[t].phase.Trying?;
    if !s.all {
      PrunedSame(s, s.listed);
      SamePool(s, s');
      if u :| 0 <= u < |s.callers| && Fresh(s, s.callers[u]) {
        assert Fresh(s', s'.callers[u]);
      }
    }
  }

  // ------------------------------------------------------------------ looking at one

  lemma LeftFits(rest: seq<nat>, choice: nat)
    requires choice < |rest|
    ensures forall x :: x in rest[..choice] + rest[choice + 1..] ==> x in rest
    ensures forall x :: x in rest && x != rest[choice] ==> x in rest[..choice] + rest[choice + 1..]
  {
  }

  /** Pass over a session that is retired or full. */
  lemma SkipKeeps(s: State, t: nat, rest: seq<nat>, seen: nat, choice: nat)
    requires WakeInv(s) && t < |s.callers| && s.callers[t].phase == Trying(rest, seen) && choice < |rest|
    requires rest[choice] < |s.sessions| && (s.sessions[rest[choice]].retired || s.sessions[rest[choice]].offer.Full?)
    ensures WakeInv(Set(s, t, Trying(rest[..choice] + rest[choice + 1..], seen)))
  {
    hide NoRoom, CanServe;
    var c := s.callers[t].(phase := Trying(rest[..choice] + rest[choice + 1..], seen));
    LeftFits(rest, choice);
    assert RestOk(s, s.callers[t].phase);
    assert RestOk(s, c.phase) by {
      assert forall id :: id in c.phase.rest ==> id in rest;
    }
    assert !Due(s) ==> Saw(s, s.callers[t].phase);
    MoveKeeps(s, t, c);
  }

  /** The JavaScript caller that finds a core freed knows nothing that a later notification has not told. */
  lemma FreedKeeps(s: State, t: nat, rest: seq<nat>, seen: nat, choice: nat)
    requires WakeInv(s) && t < |s.callers| && s.callers[t].phase == Trying(rest, seen) && choice < |rest|
    requires rest[choice] < |s.sessions| && s.sessions[rest[choice]].retired && !s.all
    ensures WakeInv(Leave(s, t, Gone))
  {
    hide NoRoom, CanServe;
    assert !Due(s) ==> Saw(s, s.callers[t].phase);
    assert rest[choice] in rest;
    MoveKeeps(s, t, Caller(Gone, false));
  }

  /** The Rust client retires a session inside its own selection. */
  lemma QuietRetireKeeps(s: State, t: nat, id: nat, p: Phase)
    requires WakeInv(s) && s.all && id < |s.sessions| && t < |s.callers| && s.callers[t].phase.Trying?
    requires p.Trying? && p.seen == s.callers[t].phase.seen
    requires forall x :: x in p.rest ==> x in s.callers[t].phase.rest
    requires forall x :: x in s.callers[t].phase.rest && x != id ==> x in p.rest
    ensures WakeInv(Set(Retired(s, id), t, p))
  {
    hide NoRoom;
    var r := Retired(s, id);
    var s' := Set(r, t, p);
    RetiredMoves(s, id);
    WithoutMembers(s.listed, id);
    assert RestOk(r, r.callers[t].phase);
    ShapeAfterMove(r, t, s'.callers[t]);
    assert s'.callers[t].phase.Trying?;
    forall u | 0 <= u < |s'.callers| && !Due(s')
      ensures Saw(s', s'.callers[u].phase)
    {
      assert Saw(s, s.callers[u].phase);
    }
  }

  lemma TakeShape(s: State, t: nat, id: nat, next: Offer)
    requires Shape(s) && t < |s.callers| && id < |s.sessions| && s.callers[t].phase.Trying?
    ensures Shape(Taken(s, t, id, next))
  {
    var c := s.sessions[id].(active := s.sessions[id].active + 1, offer := next);
    SessionMoves(s, id, c);
    ShapeAfterMove(SetSession(s, id, c), t, Caller(Gone, false));
  }

  function Taken(s: State, t: nat, id: nat, next: Offer): State
    requires t < |s.callers| && id < |s.sessions|
  {
    Leave(SetSession(s, id, s.sessions[id].(active := s.sessions[id].active + 1, offer := next)), t, Gone)
  }

  /** A Rust caller takes a session: then nobody sleeps without being due a notification. */
  lemma QuietTakeKeeps(s: State, t: nat, id: nat, next: Offer)
    requires WakeInv(s) && s.all && t < |s.callers| && id < |s.sessions| && !s.sessions[id].retired
    requires s.callers[t].phase.Trying? && id in s.callers[t].phase.rest && !s.sessions[id].offer.Full?
    ensures WakeInv(Taken(s, t, id, next))
  {
    hide NoRoom;
    var s' := Taken(s, t, id, next);
    TakeShape(s, t, id, next);
    assert RestOk(s, s.callers[t].phase);
    assert id in s.listed;
    forall u | 0 <= u < |s'.callers| && !Due(s')
      ensures Saw(s', s'.callers[u].phase)
    {
      assert Saw(s, s.callers[u].phase);
    }
  }

  lemma QuietLeaveKeeps(s: State, t: nat, id: nat)
    requires WakeInv(s) && s.all && t < |s.callers| && id < |s.sessions| && !s.sessions[id].retired
    requires s.callers[t].phase.Trying? && id in s.callers[t].phase.rest && !s.sessions[id].offer.Full?
    ensures WakeInv(Leave(s, t, Gone))
  {
    hide NoRoom;
    assert RestOk(s, s.callers[t].phase);
    assert id in s.listed;
    MoveKeeps(s, t, Caller(Gone, false));
  }

  lemma LoudRetireKeeps(s: State, t: nat, id: nat, c: Caller)
    requires Shape(s) && id < |s.sessions| && t < |s.callers| && s.callers[t].phase.Trying?
    requires c.phase.Gone? || (c.phase.Trying? && c.phase.seen == s.callers[t].phase.seen)
    requires c.phase.Trying? ==> forall x :: x in c.phase.rest ==> x in s.callers[t].phase.rest
    ensures WakeInv(Notified(Retired(s, id).(callers := s.callers[t := c])))
  {
    hide Notified;
    var r := Retired(s, id);
    RetiredMoves(s, id);
    assert RestOk(r, r.callers[t].phase);
    ShapeAfterMove(r, t, c);
    NotifiedKeeps(r.(callers := s.callers[t := c]));
  }

  lemma TryKeeps(s: State, t: nat, choice: nat, stale: bool, fails: bool, next: Offer)
    requires WakeInv(s) && t < |s.callers| && s.callers[t].phase.Trying?
    ensures var p := s.callers[t].phase; WakeInv(DoTry(s, t, p.rest, p.seen, choice, stale, fails, next))
  {
    hide WakeInv, Retired, Notified;
    var p := s.callers[t].phase;
    if choice >= |p.rest| || p.rest[choice] >= |s.sessions| {
      return;
    }
    InvShape(s);
    var id, left := p.rest[choice], Trying(p.rest[..choice] + p.rest[choice + 1..], p.seen);
    var c := s.sessions[id];
    LeftFits(p.rest, choice);
    if c.retired {
      if s.all || !fails {
        SkipKeeps(s, t, p.rest, p.seen, choice);
      } else {
        FreedKeeps(s, t, p.rest, p.seen, choice);
      }
    } else if !stale && !s.all && fails {
      LoudRetireKeeps(s, t, id, Caller(Gone, false));
      RetiredCallers(s, id);
    } else if stale || c.offer.Spent? {
      RetiredCallers(s, id);
      if s.all {
        QuietRetireKeeps(s, t, id, left);
      } else {
        LoudRetireKeeps(s, t, id, s.callers[t].(phase := left));
        assert Set(Retired(s, id), t, left) == Retired(s, id).(callers := s.callers[t := s.callers[t].(phase := left)]);
      }
    } else if c.offer.Ready? {
      if s.all {
        QuietTakeKeeps(s, t, id, next);
      } else {
        TakeShape(s, t, id, next);
        NotifiedKeeps(Taken(s, t, id, next));
      }
    } else if c.offer.Full? {
      SkipKeeps(s, t, p.rest, p.seen, choice);
    } else if s.all {
      QuietLeaveKeeps(s, t, id);
    } else {
      LoudRetireKeeps(s, t, id, Caller(Gone, false));
      RetiredCallers(s, id);
    }
  }

  lemma InvShape(s: State)
    requires WakeInv(s)
    ensures Shape(s)
  {
  }

  lemma RetiredCallers(s: State, id: nat)
    requires id < |s.sessions|
    ensures Retired(s, id).callers == s.callers && Retired(s, id).all == s.all
  {
  }

  // --------------------------------------------------------------- after the last

  /** What a caller knows that has passed over every session and heard nothing since. */
  lemma SawAll(s: State, t: nat)
    requires WakeInv(s) && !Due(s) && t < |s.callers|
    requires s.callers[t].phase == Trying([], s.version)
    ensures AllFull(s) && AllKept(s) && KeptIn(s) == |s.listed|
  {
    assert Saw(s, s.callers[t].phase);
    KeptIsListed(s);
  }

  /** If the list has no spare session, the test for room is exact. */
  lemma RoomExact(s: State)
    requires ListFits(s) && AllKept(s)
    ensures NoRoom(s) <==> !(s.setup.Idle? && ServingIn(s) < s.maximum && |s.listed| <= s.maximum)
  {
    KeptIsListed(s);
  }

  lemma ParkKeeps(s: State, t: nat)
    requires WakeInv(s) && t < |s.callers| && s.callers[t].phase == Trying([], s.version)
    requires !(s.setup.Idle? && ServingIn(s) < s.maximum && |s.listed| <= s.maximum)
    ensures WakeInv(Leave(s, t, Waiting).(queue := s.queue + [t]))
  {
    hide NoRoom, AllFull;
    var s' := Leave(s, t, Waiting).(queue := s.queue + [t]);
    ShapeAfterPark(s, t);
    SamePool(s, s');
    if !Due(s) {
      SawAll(s, t);
      RoomExact(s);
    }
    forall u | 0 <= u < |s'.callers| && !Due(s')
      ensures Saw(s', s'.callers[u].phase)
    {
      assert u != t ==> Saw(s, s.callers[u].phase);
    }
  }

  lemma OpenKeeps(s: State, t: nat)
    requires WakeInv(s) && t < |s.callers| && s.callers[t].phase.Trying? && s.callers[t].phase.rest == []
    requires s.setup.Idle?
    ensures WakeInv(Leave(s, t, AtSetup).(setup := PoolSpec.Dialing))
  {
    hide AllFull;
    var s' := Leave(s, t, AtSetup).(setup := PoolSpec.Dialing);
    ShapeAfterMove(s, t, Caller(AtSetup, false));
    SameFull(s, s');
    assert NoRoom(s');
    if !Due(s) && s.callers[t].phase.seen == s.version {
      SawAll(s, t);
    }
    forall u | 0 <= u < |s'.callers| && !Due(s')
      ensures Saw(s', s'.callers[u].phase)
    {
      assert u != t ==> Saw(s, s.callers[u].phase);
    }
    forall u | 0 <= u < |s'.callers|
      ensures RestOk(s', s'.callers[u].phase)
    {
      assert u != t ==> RestOk(s, s.callers[u].phase);
    }
    if u :| 0 <= u < |s.callers| && Fresh(s, s.callers[u]) {
      assert u != t ==> Fresh(s', s'.callers[u]);
    }
  }

  lemma SameFull(s: State, s': State)
    requires s'.listed == s.listed && s'.sessions == s.sessions
    ensures AllFull(s') == AllFull(s)
  {
  }

  lemma FinishKeeps(s: State, t: nat)
    requires WakeInv(s) && t < |s.callers| && s.callers[t].phase.Trying? && s.callers[t].phase.rest == []
    ensures WakeInv(DoFinish(s, t, s.callers[t].phase.seen))
  {
    hide WakeInv, NoRoom, AllFull;
    var seen := s.callers[t].phase.seen;
    InvShape(s);
    if s.closed {
      MoveKeeps(s, t, Caller(Gone, false));
    } else if s.setup.Idle? && ServingIn(s) < s.maximum && |s.listed| <= s.maximum {
      OpenKeeps(s, t);
    } else if !s.all && !s.setup.Idle? {
      JoinKeeps(s, t);
    } else if seen != s.version {
      AgainKeeps(s, t);
    } else {
      ParkKeeps(s, t);
    }
  }

  /** Wait for the setup under way. */
  lemma JoinKeeps(s: State, t: nat)
    requires WakeInv(s) && t < |s.callers| && s.callers[t].phase.Trying? && s.callers[t].phase.rest == []
    requires !s.all && !s.setup.Idle?
    ensures WakeInv(Leave(s, t, AtSetup))
  {
    hide AllFull;
    if !Due(s) && s.callers[t].phase.seen == s.version {
      SawAll(s, t);
    }
    MoveKeeps(s, t, Caller(AtSetup, false));
  }

  /** Something was announced meanwhile: look again. */
  lemma AgainKeeps(s: State, t: nat)
    requires WakeInv(s) && t < |s.callers| && s.callers[t].phase.Trying?
    requires s.callers[t].phase.seen != s.version
    requires !(s.setup.Idle? && ServingIn(s) < s.maximum && |s.listed| <= s.maximum)
    ensures WakeInv(Set(s, t, Top))
  {
    hide NoRoom, AllFull;
    if s.all && s.queue != [] && !Due(s) && !s.closed {
      RoomExact(s);
    }
    MoveKeeps(s, t, s.callers[t].(phase := Top));
  }

  // -------------------------------------------------------------------- leaving

  lemma AbortKeeps(s: State, t: nat)
    requires WakeInv(s) && t < |s.callers|
    ensures WakeInv(DoAbort(s, t))
  {
    hide NoRoom, AllFull, Notified;
    var gone := Caller(Gone, false);
    match s.callers[t].phase
    case Waiting =>
      ShapeAfterUnpark(s, t);
      if s.all {
        LeaveQueueKeeps(s, t);
      } else {
        NotifiedKeeps(Leave(s, t, Gone).(queue := Without(s.queue, t)));
      }
    case Signalled =>
      if s.all {
        MoveKeeps(s, t, gone);
      } else {
        ShapeAfterMove(s, t, gone);
        NotifiedKeeps(Leave(s, t, Gone));
      }
    case Top => TopLeaves(s, t);
    case AtSetup => MoveKeeps(s, t, gone);
    case _ =>
  }

  lemma LeaveQueueKeeps(s: State, t: nat)
    requires WakeInv(s) && s.all && t < |s.callers| && s.callers[t].phase.Waiting?
    ensures WakeInv(Leave(s, t, Gone).(queue := Without(s.queue, t)))
  {
    hide NoRoom, AllFull;
    var s' := Leave(s, t, Gone).(queue := Without(s.queue, t));
    ShapeAfterUnpark(s, t);
    WithoutMembers(s.queue, t);
    SamePool(s, s');
    assert s'.queue != [] ==> s'.queue[0] in s.queue;
    forall u | 0 <= u < |s'.callers| && !Due(s')
      ensures Saw(s', s'.callers[u].phase)
    {
      assert u != t ==> Saw(s, s.callers[u].phase);
    }
    if u :| 0 <= u < |s.callers| && s.callers[u].phase.Trying? {
      assert s'.callers[u].phase.Trying?;
    }
  }

  lemma TopLeaves(s: State, t: nat)
    requires WakeInv(s) && t < |s.callers| && s.callers[t].phase.Top?
    ensures WakeInv(DoAbort(s, t))
  {
    hide NoRoom, AllFull;
    var dropped := s.dropped || (!s.all && s.callers[t].woken);
    var d := s.(dropped := dropped);
    DroppedKeeps(s, dropped);
    MoveKeeps(d, t, Caller(Gone, false));
  }

  lemma DroppedKeeps(s: State, dropped: bool)
    requires WakeInv(s) && (s.dropped ==> dropped)
    ensures WakeInv(s.(dropped := dropped))
  {
    var s' := s.(dropped := dropped);
    forall u | 0 <= u < |s'.callers|
      ensures RestOk(s', s'.callers[u].phase)
      ensures !Due(s') ==> Saw(s', s'.callers[u].phase)
    {
      assert RestOk(s, s.callers[u].phase);
      assert !Due(s) ==> Saw(s, s.callers[u].phase);
    }
    if u :| 0 <= u < |s.callers| && Fresh(s, s.callers[u]) {
      assert Fresh(s', s'.callers[u]);
    }
  }

  lemma ArriveKeeps(s: State)
    requires WakeInv(s)
    ensures WakeInv(DoPool(s, Arrive))
  {
    hide NoRoom, AllFull;
    var s' := DoPool(s, Arrive);
    ArriveMoves(s);
    SamePool(s, s');
    forall u | 0 <= u < |s'.callers| && !Due(s')
      ensures Saw(s', s'.callers[u].phase)
    {
      assert u < |s.callers| ==> Saw(s, s.callers[u].phase);
    }
    if u :| 0 <= u < |s.callers| && s.callers[u].phase.Trying? {
      assert s'.callers[u].phase.Trying?;
    }
    if u :| 0 <= u < |s.callers| && Fresh(s, s.callers[u]) {
      assert Fresh(s', s'.callers[u]);
    }
  }

  // ------------------------------------------------------------------- every step

  lemma CallerKeeps(s: State, l: Label, t: nat)
    requires WakeInv(s) && t < |s.callers|
    ensures WakeInv(DoCaller(s, l, t))
  {
    hide WakeInv, DoBegin, DoTry, DoFinish, DoAbort, Retired;
    InvShape(s);
    var c := s.callers[t];
    match l
    case Enable(_) => if c.phase.Top? { EnableKeeps(s, t); }
    case Begin(_) => if c.phase.Enabled? { BeginKeeps(s, t); }
    case Try(_, choice, stale, fails, next) => if c.phase.Trying? { TryKeeps(s, t, choice, stale, fails, next); }
    case Retain(_, id) =>
      if DoCaller(s, l, t) != s {
        QuietRetireKeeps(s, t, id, c.phase);
        RetiredCallers(s, id);
        assert Set(Retired(s, id), t, c.phase) == Retired(s, id);
      }
    case Finish(_) => if c.phase.Trying? && c.phase.rest == [] { FinishKeeps(s, t); }
    case Resume(_) => if c.phase.Signalled? { ResumeKeeps(s, t); }
    case Abort(_) => AbortKeeps(s, t);
    case _ =>
  }

  lemma EnableKeeps(s: State, t: nat)
    requires WakeInv(s) && t < |s.callers| && s.callers[t].phase.Top?
    ensures WakeInv(Set(s, t, Enabled(s.version)))
  {
    MoveKeeps(s, t, s.callers[t].(phase := Enabled(s.version)));
  }

  lemma ResumeKeeps(s: State, t: nat)
    requires WakeInv(s) && t < |s.callers| && s.callers[t].phase.Signalled?
    ensures WakeInv(Set(s, t, Top))
  {
    MoveKeeps(s, t, s.callers[t].(phase := Top));
  }

  lemma AnnouncedKeeps(s: State)
    requires Shape(s)
    ensures WakeInv(Announced(s))
  {
    hide Notified;
    if s.all {
      ShapeAfterPool(s, s.(owed := s.owed + 1));
      LoudKeeps(s.(owed := s.owed + 1));
    } else {
      NotifiedKeeps(s);
    }
  }

  lemma DropLeaseKeeps(s: State, id: nat)
    requires WakeInv(s)
    ensures WakeInv(DoDropLease(s, id))
  {
    hide WakeInv, Announced;
    InvShape(s);
    if id < |s.sessions| && s.sessions[id].active > 0 {
      var c := s.sessions[id].(active := s.sessions[id].active - 1);
      var r := SetSession(s, id, c);
      var x := if !s.all && Spare(c) then r.(listed := Without(s.listed, id)) else r;
      WithoutMembers(s.listed, id);
      ShapeAfterPool(s, x);
      AnnouncedKeeps(x);
    }
  }

  lemma ChangeKeeps(s: State, s': State)
    requires Shape(s) && PoolMoves(s, s') && s'.owed > 0
    ensures WakeInv(s')
  {
    ShapeAfterPool(s, s');
  }

  lemma PublishKeeps(s: State, offer: Offer)
    requires WakeInv(s)
    ensures WakeInv(DoPool(s, Publish(offer)))
  {
    PublishMoves(s, offer);
  }

  lemma RetireSessionKeeps(s: State, id: nat)
    requires WakeInv(s)
    ensures WakeInv(DoPool(s, RetireSession(id)))
  {
    hide WakeInv, Notified, Retired;
    InvShape(s);
    if id < |s.sessions| {
      if s.all {
        ChangeKeeps(s, SetSession(s, id, s.sessions[id].(retired := true)).(owed := s.owed + 1));
      } else if !s.sessions[id].retired {
        RetiredMoves(s, id);
        NotifiedKeeps(Retired(s, id));
      }
    }
  }

  lemma PoolKeeps(s: State, l: Label)
    requires WakeInv(s)
    ensures WakeInv(DoPool(s, l))
  {
    hide WakeInv, DoDropLease, Announced, Notified, Shape;
    InvShape(s);
    match l
    case Arrive => ArriveKeeps(s);
    case Acknowledge(id, offer) =>
      if id < |s.sessions| {
        SessionMoves(s, id, s.sessions[id].(offer := offer));
        ChangeKeeps(s, SetSession(s, id, s.sessions[id].(offer := offer)).(owed := s.owed + 1));
      }
    case DropLease(id) => DropLeaseKeeps(s, id);
    case RetireSession(id) => RetireSessionKeeps(s, id);
    case Publish(offer) => PublishKeeps(s, offer);
    case EndSetup(ok) =>
      if !s.setup.Idle? {
        SetupMoves(s, ok);
        AnnouncedKeeps(s.(setup := PoolSpec.Idle, callers := AfterSetup(s.callers, ok)));
      }
    case Pay => if s.owed > 0 { PaidKeeps(s); }
    case Close => CloseKeeps(s);
    case _ =>
  }

  lemma CloseKeeps(s: State)
    requires Shape(s)
    ensures WakeInv(s.(closed := true, owed := s.owed + 1))
  {
    ChangeKeeps(s, s.(closed := true, owed := s.owed + 1));
  }

  lemma {:induction false} RunKeepsWakes(all: bool, maximum: nat, labels: seq<Label>)
    ensures WakeInv(Run(all, maximum, labels)) && Run(all, maximum, labels).all == all
  {
    hide WakeInv, DoCaller, DoPool;
    if labels == [] {
      InitialWakes(all, maximum);
    } else {
      var n := |labels| - 1;
      var s, l := Run(all, maximum, labels[..n]), labels[n];
      RunKeepsWakes(all, maximum, labels[..n]);
      if OfCaller(l) {
        if l.t < |s.callers| {
          CallerKeeps(s, l, l.t);
        }
      } else {
        PoolKeeps(s, l);
      }
      StepKeepsClient(s, l);
    }
  }

  lemma InitialWakes(all: bool, maximum: nat)
    ensures WakeInv(Initial(all, maximum))
  {
  }

  lemma TryKeepsClient(s: State, t: nat, choice: nat, stale: bool, fails: bool, next: Offer)
    requires t < |s.callers| && s.callers[t].phase.Trying?
    ensures DoTry(s, t, s.callers[t].phase.rest, s.callers[t].phase.seen, choice, stale, fails, next).all == s.all
  {
    hide Retired, Notified;
    var rest := s.callers[t].phase.rest;
    if choice < |rest| && rest[choice] < |s.sessions| {
      RetiredCallers(s, rest[choice]);
      forall x: State
        ensures Notified(x).all == x.all
      {
        NotifiedClient(x);
      }
    }
  }

  lemma NotifiedClient(s: State)
    ensures Notified(s).all == s.all
  {
  }

  lemma StepKeepsClient(s: State, l: Label)
    ensures Step(s, l).all == s.all
  {
    hide DoTry;
    if l.Try? && l.t < |s.callers| && s.callers[l.t].phase.Trying? {
      TryKeepsClient(s, l.t, l.choice, l.stale, l.fails, l.next);
    }
  }
}
