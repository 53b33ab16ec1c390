/** What every interleaving of the HTTP/2 pool keeps: one opener, exact counters, the bounds. */
module Http2Accounting {
  import opened Basics
  import opened Http2Pool
  import PoolSpec

  // ---------------------------------------------------------------- structure

  predicate PhaseFits(list: seq<nat>, p: Phase) {
    match p
    case Retaining(i) => i <= |list|
    case Filtering(i, eligible, _) => i <= |list| && forall j :: 0 <= j < |eligible| ==> eligible[j] in list
    case Trying(queue) => forall j :: 0 <= j < |queue| ==> queue[j] in list
    case Taking(id) => id in list
    case Discarding(id, queue) => id in list && forall j :: 0 <= j < |queue| ==> queue[j] in list
    case Counting(i, n) => i <= |list|
    case _ => true
  }

  predicate ListFits(list: seq<nat>, n: nat) {
    && (forall i :: 0 <= i < |list| ==> list[i] < n)
    && PoolSpec.Distinct(list)
  }

  predicate LeasesFit(leases: seq<PoolSpec.Lease>, n: nat) {
    forall l :: 0 <= l < |leases| ==> leases[l].member < n
  }

  predicate LockFits(s: State) {
    && (s.lock.Some? ==> s.lock.value < |s.tasks| && Locked(s.tasks[s.lock.value].phase) && !s.closed)
    && (forall t :: 0 <= t < |s.tasks| && Locked(s.tasks[t].phase) ==>
      s.lock == Some(t) && PhaseFits(s.list, s.tasks[t].phase))
  }

  /** At most one caller is opening a connection, and the flag says whether one is. */
  ghost predicate OneOpener(s: State) {
    && (forall t, u :: 0 <= t < |s.tasks| && 0 <= u < |s.tasks| ==>
      (Owns(s.tasks[t].phase) && Owns(s.tasks[u].phase) ==> t == u))
    && (s.connecting <==> exists t :: 0 <= t < |s.tasks| && Owns(s.tasks[t].phase))
  }

  ghost predicate Shape(s: State) {
    && ListFits(s.list, |s.channels|)
    && LeasesFit(s.leases, |s.channels|)
    && LockFits(s)
    && OneOpener(s)
  }

  /** One caller moves on; every other caller, the list and the closed flag stay. */
  predicate OneMoves(s: State, s': State, t: nat) {
    && t < |s.tasks| && |s'.tasks| == |s.tasks|
    && (forall u :: 0 <= u < |s.tasks| && u != t ==> s'.tasks[u].phase == s.tasks[u].phase)
    && s'.list == s.list && s'.closed == s.closed
    && s'.lock == (if Locked(s'.tasks[t].phase) then Some(t) else if Locked(s.tasks[t].phase) then None else s.lock)
    && (Locked(s'.tasks[t].phase) && !Locked(s.tasks[t].phase) ==> s.lock.None? && !s.closed)
    && |s'.channels| == |s.channels|
    && LeasesFit(s'.leases, |s'.channels|)
  }

  /** The moved caller may take up or lay down the opener's role. */
  predicate OpenerMoves(s: State, s': State, t: nat)
    requires t < |s.tasks| == |s'.tasks|
  {
    var before, after := Owns(s.tasks[t].phase), Owns(s'.tasks[t].phase);
    if before == after then s'.connecting == s.connecting
    else s'.connecting == after && (after ==> !s.connecting)
  }

  lemma ShapeAfterMove(s: State, s': State, t: nat)
    requires Shape(s) && OneMoves(s, s', t) && OpenerMoves(s, s', t)
    requires PhaseFits(s.list, s'.tasks[t].phase)
    ensures Shape(s')
  {
    if s'.connecting {
      if Owns(s'.tasks[t].phase) {
      } else {
        var u :| 0 <= u < |s.tasks| && Owns(s.tasks[u].phase);
        assert Owns(s'.tasks[u].phase);
      }
    }
  }

  /** Only counters, flags and wake marks change. */
  predicate SamePlaces(s: State, s': State) {
    && s'.list == s.list && |s'.channels| == |s.channels| && s'.lock == s.lock && s'.connecting == s.connecting
    && |s'.tasks| == |s.tasks| && (forall t :: 0 <= t < |s.tasks| ==> s'.tasks[t].phase == s.tasks[t].phase)
    && LeasesFit(s'.leases, |s.channels|)
    && (s'.closed == s.closed || s.lock.None?)
  }

  lemma ShapeAfterSamePlaces(s: State, s': State)
    requires Shape(s) && SamePlaces(s, s')
    ensures Shape(s')
  {
    if s.connecting {
      var u :| 0 <= u < |s.tasks| && Owns(s.tasks[u].phase);
      assert Owns(s'.tasks[u].phase);
    }
  }

  lemma ShapeAfterArrive(s: State, bytes: nat)
    requires Shape(s)
    ensures Shape(DoArrive(s, bytes))
  {
    if s.connecting {
      var u :| 0 <= u < |s.tasks| && Owns(s.tasks[u].phase);
      assert Owns(DoArrive(s, bytes).tasks[u].phase);
    }
  }

  lemma ShapeAfterRetain(s: State, t: nat, i: nat)
    requires Shape(s) && t < |s.tasks| && s.tasks[t].phase == Retaining(i)
    ensures Shape(DoRetain(s, t, i))
  {
    if i < |s.list| && s.channels[s.list[i]].finished {
      assert DoRetain(s, t, i).list == s.list[..i] + s.list[i + 1..];
      assert PhaseFits(s.list, s.tasks[t].phase);
    } else {
      ShapeAfterMove(s, DoRetain(s, t, i), t);
    }
  }

  lemma ShapeAfterFilter(s: State, t: nat, i: nat, eligible: seq<nat>, load: Load)
    requires Shape(s) && t < |s.tasks| && s.tasks[t].phase == Filtering(i, eligible, load)
    ensures Shape(Set(s, t, AfterFilter(s, i, eligible, load)))
  {
    hide OneOpener;
    assert PhaseFits(s.list, Filtering(i, eligible, load));
    ShapeAfterMove(s, Set(s, t, AfterFilter(s, i, eligible, load)), t);
  }

  lemma ShapeAfterTry(s: State, t: nat, queue: seq<nat>, choice: nat)
    requires Shape(s) && t < |s.tasks| && s.tasks[t].phase == Trying(queue)
    ensures Shape(Set(s, t, AfterTry(s, queue, choice)))
  {
    assert PhaseFits(s.list, Trying(queue));
    ShapeAfterMove(s, Set(s, t, AfterTry(s, queue, choice)), t);
  }

  lemma ShapeAfterTake(s: State, t: nat, id: nat)
    requires Shape(s) && t < |s.tasks| && s.tasks[t].phase == Taking(id)
    ensures Shape(DoTake(s, t, id))
  {
    hide OneOpener;
    assert PhaseFits(s.list, Taking(id));
    ShapeAfterMove(s, DoTake(s, t, id), t);
  }

  lemma ShapeAfterDiscard(s: State, t: nat, id: nat, queue: seq<nat>)
    requires Shape(s) && t < |s.tasks| && s.tasks[t].phase == Discarding(id, queue)
    ensures Shape(DoDiscard(s, t, id, queue))
  {
    hide OneOpener;
    assert PhaseFits(s.list, Discarding(id, queue));
    ShapeAfterMove(s, DoDiscard(s, t, id, queue), t);
  }

  lemma ShapeAfterCount(s: State, t: nat, i: nat, n: nat)
    requires Shape(s) && t < |s.tasks| && s.tasks[t].phase == Counting(i, n)
    ensures Shape(DoCount(s, t, i, n))
  {
    ShapeAfterMove(s, DoCount(s, t, i, n), t);
  }

  lemma ShapeAfterEnable(s: State, t: nat)
    requires Shape(s) && t < |s.tasks| && s.tasks[t].phase.Start?
    ensures Shape(DoEnable(s, t))
  {
    ShapeAfterMove(s, DoEnable(s, t), t);
  }

  lemma ShapeAfterLock(s: State, t: nat)
    requires Shape(s) && t < |s.tasks| && s.tasks[t].phase.Enabled?
    ensures Shape(DoLock(s, t))
  {
    if s.lock.None? {
      ShapeAfterMove(s, DoLock(s, t), t);
    }
  }

  lemma ShapeAfterRelease(s: State, t: nat)
    requires Shape(s) && t < |s.tasks| && s.tasks[t].phase.Pushed?
    ensures Shape(DoRelease(s, t))
  {
    if s.lock.None? {
      ShapeAfterMove(s, DoRelease(s, t), t);
    }
  }

  lemma ShapeAfterNotifyOwner(s: State, t: nat, again: bool)
    requires Shape(s) && t < |s.tasks| && s.tasks[t].phase.Unowned?
    ensures Shape(DoNotifyOwner(s, t, again))
  {
    ShapeAfterMove(s, DoNotifyOwner(s, t, again), t);
  }

  lemma ShapeAfterWake(s: State, t: nat)
    requires Shape(s) && t < |s.tasks| && s.tasks[t].phase.Parked?
    ensures Shape(DoWake(s, t))
  {
    ShapeAfterMove(s, DoWake(s, t), t);
  }

  lemma ShapeAfterLeave(s: State, t: nat)
    requires Shape(s) && t < |s.tasks| && s.tasks[t].phase.Leaving?
    ensures Shape(DoLeave(s, t))
  {
    ShapeAfterMove(s, DoLeave(s, t), t);
  }

  lemma LeasesFitIn(s: State)
    requires Shape(s)
    ensures LeasesFit(s.leases, |s.channels|)
    ensures forall t :: 0 <= t < |s.tasks| && Owns(s.tasks[t].phase) ==> s.connecting
  {
  }

  lemma ShapeAfterAdvance(s: State, t: nat, choice: nat)
    requires Shape(s)
    ensures Shape(DoAdvance(s, t, choice))
  {
    hide Shape, DoRetain, AfterFilter, AfterTry, DoTake, DoDiscard, DoCount,
         DoEnable, DoLock, DoLeave, DoRelease, DoNotifyOwner, DoWake;
    if t < |s.tasks| {
      match s.tasks[t].phase
      case Retaining(i) => ShapeAfterRetain(s, t, i);
      case Filtering(i, eligible, load) => ShapeAfterFilter(s, t, i, eligible, load);
      case Trying(queue) => ShapeAfterTry(s, t, queue, choice);
      case Taking(id) => ShapeAfterTake(s, t, id);
      case Discarding(id, queue) => ShapeAfterDiscard(s, t, id, queue);
      case Counting(i, n) => ShapeAfterCount(s, t, i, n);
      case Start => ShapeAfterEnable(s, t);
      case Enabled => ShapeAfterLock(s, t);
      case Pushed => ShapeAfterRelease(s, t);
      case Unowned(again) => ShapeAfterNotifyOwner(s, t, again);
      case Parked => ShapeAfterWake(s, t);
      case Leaving => ShapeAfterLeave(s, t);
      case _ =>
    }
  }

  lemma ShapeAfterConnected(s: State, t: nat, c: Channel)
    requires Shape(s)
    ensures Shape(DoConnected(s, t, c))
  {
    var s' := DoConnected(s, t, c);
    if s' != s {
      assert Owns(s'.tasks[t].phase);
      assert Owns(s.tasks[t].phase);
    }
  }

  lemma ShapeAfterOpener(s: State, l: Label, t: nat)
    requires Shape(s) && (l == Fail(t) || l == GiveUp(t))
    ensures Shape(Step(s, l))
  {
    if Step(s, l) != s {
      assert Owns(s.tasks[t].phase) ==> s.connecting;
      ShapeAfterMove(s, Step(s, l), t);
    }
  }

  lemma ShapeAfterChannelEvent(s: State, l: Label)
    requires Shape(s)
    ensures Shape(DoChannelEvent(s, l))
  {
    hide Shape;
    LeasesFitIn(s);
    ShapeAfterSamePlaces(s, DoChannelEvent(s, l));
  }

  lemma ShapeKept(s: State, l: Label)
    requires Shape(s)
    ensures Shape(Step(s, l))
  {
    hide Shape, DoArrive, DoAdvance, DoConnected, DoChannelEvent;
    LeasesFitIn(s);
    match l
    case Arrive(bytes) => ShapeAfterArrive(s, bytes);
    case Advance(t, choice) => ShapeAfterAdvance(s, t, choice);
    case Connected(t, c) => ShapeAfterConnected(s, t, c);
    case Fail(t) => ShapeAfterOpener(s, l, t);
    case GiveUp(t) => ShapeAfterOpener(s, l, t);
    case DropLease(_) => ShapeAfterSamePlaces(s, Step(s, l));
    case Notify => ShapeAfterSamePlaces(s, Step(s, l));
    case Close => ShapeAfterSamePlaces(s, Step(s, l));
    case _ => ShapeAfterChannelEvent(s, l);
  }
}
