/**
 * No lost wake-up: a parked caller that no notification has reached or will reach would park again.
 *
 * A change and its notification are two steps, and the retirement inside selection has no
 * notification at all. What makes parking safe is that the future was enabled before the
 * lock was taken, so any change after that either woke the caller or still owes a wake-up.
 */
module Http2Wakeups {
  import opened Basics
  import opened Http2Pool
  import opened Http2Accounting
  import opened Http2Counters
  import opened Http2Bounds

  /** A notification is still to come: from a changed atomic, or from an opener's guard. */
  ghost predicate Pending(s: State) {
    s.owed > 0 || exists t :: 0 <= t < |s.tasks| && (s.tasks[t].phase.Pushed? || s.tasks[t].phase.Unowned?)
  }

  /** The channels that `retain` would keep. */
  function Unfinished(channels: seq<Channel>, list: seq<nat>): seq<nat> {
    if list == [] then []
    else
      var n := |list| - 1;
      var rest := Unfinished(channels, list[..n]);
      if list[n] < |channels| && !channels[list[n]].finished then rest + [list[n]] else rest
  }

  predicate NoneEligible(channels: seq<Channel>, list: seq<nat>) {
    forall id :: id in list && id < |channels| && !channels[id].finished ==> !Eligible(channels[id])
  }

  predicate NoRoom(s: State, ids: seq<nat>) {
    s.connecting || ServingIn(s.channels, ids) >= s.limits.connections || |ids| > s.limits.connections
  }

  /** Nothing to take and no room to open a connection. */
  predicate Stuck(s: State) {
    !s.closed && NoneEligible(s.channels, s.list) && NoRoom(s, Unfinished(s.channels, s.list))
  }

  /** Every caller that parked and was not woken still has a reason to wait. */
  ghost predicate ParkedSafely(s: State) {
    forall t :: 0 <= t < |s.tasks| && s.tasks[t].phase.Parked? && !s.tasks[t].woken ==> Pending(s) || Stuck(s)
  }

  /** A notification since the lock was taken has reached its holder and everyone parked. */
  predicate DisturbanceHeard(s: State) {
    s.lock.Some? && s.disturbed ==>
      forall t :: 0 <= t < |s.tasks| && (s.lock == Some(t) || s.tasks[t].phase.Parked?) ==> s.tasks[t].woken
  }

  /** What the holder has seen is still so, as long as nothing was announced meanwhile. */
  predicate Seen(channels: seq<Channel>, list: seq<nat>, p: Phase) {
    match p
    case Retaining(i) => i <= |list| && forall j :: 0 <= j < i && list[j] < |channels| ==> !channels[list[j]].finished
    case Filtering(i, eligible, load) =>
      && i <= |list| && AllUnfinished(channels, list)
      && (forall j :: 0 <= j < i && list[j] < |channels| && Eligible(channels[list[j]]) ==> list[j] in eligible)
      && (forall id :: id in eligible ==> id in list && id < |channels| && Eligible(channels[id]))
      && (i < |list| && list[i] < |channels| ==> Loaded(channels[list[i]], load))
    case Trying(queue) => AllUnfinished(channels, list) && Covered(channels, list, queue) &&
      Listed(channels, list, queue)
    case Discarding(id, queue) =>
      AllUnfinished(channels, list) && Covered(channels, list, [id] + queue) && Listed(channels, list, [id] + queue)
    case Counting(i, n) =>
      i <= |list| && AllUnfinished(channels, list) && NoneEligible(channels, list) &&
        n == ServingIn(channels, list[..i])
    case _ => true
  }

  /** What the filter loaded is what the channel says. */
  predicate Loaded(c: Channel, load: Load) {
    match load
    case Unread => true
    case Unretired => !c.retired
    case Active(active) => !c.retired && active == c.active
  }

  predicate Covered(channels: seq<Channel>, list: seq<nat>, queue: seq<nat>) {
    forall id :: id in list && id < |channels| && Eligible(channels[id]) ==> id in queue
  }

  predicate Listed(channels: seq<Channel>, list: seq<nat>, queue: seq<nat>) {
    forall id :: id in queue ==> id in list && id < |channels| && (Eligible(channels[id]) || channels[id].retired)
  }

  predicate AllUnfinished(channels: seq<Channel>, list: seq<nat>) {
    forall id :: id in list && id < |channels| ==> !channels[id].finished
  }

  predicate HolderSaw(s: State) {
    s.lock.Some? && s.lock.value < |s.tasks| && s.owed == 0 && !s.disturbed ==>
      Seen(s.channels, s.list, s.tasks[s.lock.value].phase)
  }

  ghost predicate WakeInv(s: State) {
    ParkedSafely(s) && DisturbanceHeard(s) && HolderSaw(s)
  }

  // -------------------------------------------------- what selection depends on

  predicate SameFlags(a: seq<Channel>, b: seq<Channel>) {
    |a| == |b| && forall i :: 0 <= i < |a| ==>
      a[i].active == b[i].active && a[i].maximum == b[i].maximum && a[i].retired == b[i].retired &&
        a[i].finished == b[i].finished
  }

  lemma {:induction false} UnfinishedSame(a: seq<Channel>, b: seq<Channel>, list: seq<nat>)
    requires |a| == |b| && forall i :: 0 <= i < |a| ==> a[i].finished == b[i].finished
    ensures Unfinished(a, list) == Unfinished(b, list)
  {
    if list != [] {
      UnfinishedSame(a, b, list[..|list| - 1]);
    }
  }

  lemma {:induction false} UnfinishedAll(channels: seq<Channel>, list: seq<nat>)
    requires AllUnfinished(channels, list) && forall id :: id in list ==> id < |channels|
    ensures Unfinished(channels, list) == list
  {
    if list != [] {
      var n := |list| - 1;
      var rest, last := list[..n], list[n];
      assert list == rest + [last] && last in list;
      assert forall id :: id in rest ==> id in list;
      UnfinishedAll(channels, rest);
    }
  }

  /** Dropping a finished channel from the list changes nothing. */
  lemma {:induction false} UnfinishedRemoved(channels: seq<Channel>, list: seq<nat>, i: nat)
    requires i < |list| && list[i] < |channels| && channels[list[i]].finished
    ensures Unfinished(channels, list[..i] + list[i + 1..]) == Unfinished(channels, list)
  {
    var n := |list| - 1;
    var cut := list[..i] + list[i + 1..];
    if i < n {
      UnfinishedRemoved(channels, list[..n], i);
      assert cut[..|cut| - 1] == list[..n][..i] + list[..n][i + 1..];
      assert cut[|cut| - 1] == list[n];
    } else {
      assert cut == list[..n];
    }
  }

  predicate Still(s: State, s': State) {
    && s'.list == s.list && s'.limits == s.limits && s'.connecting == s.connecting && s'.closed == s.closed
    && s'.owed == s.owed && SameFlags(s.channels, s'.channels)
  }

  lemma StuckSame(s: State, s': State)
    requires Still(s, s')
    ensures Stuck(s) <==> Stuck(s')
  {
    hide ServingIn, Unfinished;
    UnfinishedSame(s.channels, s'.channels, s.list);
    var live := Unfinished(s.channels, s.list);
    ServingShrinks(s.channels, s'.channels, live);
    ServingShrinks(s'.channels, s.channels, live);
  }

  // --------------------------------------------------------------- step classes

  /** Callers other than the holder and the parked ones move; selection's inputs do not. */
  predicate Calm(s: State, s': State) {
    && Still(s, s') && s'.lock == s.lock && s'.disturbed == s.disturbed && |s.tasks| <= |s'.tasks|
    && (forall t :: 0 <= t < |s'.tasks| && (s'.tasks[t].phase.Parked? || s.lock == Some(t)) ==>
          t < |s.tasks| && s'.tasks[t] == s.tasks[t])
    && (forall t :: 0 <= t < |s.tasks| && (s.tasks[t].phase.Pushed? || s.tasks[t].phase.Unowned?) ==>
          s'.tasks[t].phase == s.tasks[t].phase)
  }

  lemma PendingStays(s: State, s': State)
    requires Pending(s) && s'.owed >= s.owed && |s.tasks| <= |s'.tasks|
    requires forall t :: 0 <= t < |s.tasks| && (s.tasks[t].phase.Pushed? || s.tasks[t].phase.Unowned?) ==>
      s'.tasks[t].phase == s.tasks[t].phase
    ensures Pending(s')
  {
    if s.owed == 0 {
      var t :| 0 <= t < |s.tasks| && (s.tasks[t].phase.Pushed? || s.tasks[t].phase.Unowned?);
      assert s'.tasks[t].phase == s.tasks[t].phase;
    }
  }

  lemma SeenSame(a: seq<Channel>, b: seq<Channel>, list: seq<nat>, p: Phase)
    requires SameFlags(a, b) && Seen(a, list, p)
    ensures Seen(b, list, p)
  {
    if p.Counting? {
      ServingShrinks(a, b, list[..p.next]);
      ServingShrinks(b, a, list[..p.next]);
    }
  }

  lemma ParkedAfterCalm(s: State, s': State)
    requires ParkedSafely(s) && Calm(s, s')
    ensures ParkedSafely(s')
  {
    hide Stuck, Pending;
    StuckSame(s, s');
    if Pending(s) {
      PendingStays(s, s');
    }
  }

  lemma CalmKeeps(s: State, s': State)
    requires WakeInv(s) && LockFits(s) && Calm(s, s')
    ensures WakeInv(s')
  {
    ParkedAfterCalm(s, s');
    if s.lock.Some? && s.owed == 0 && !s.disturbed {
      SeenSame(s.channels, s'.channels, s.list, s.tasks[s.lock.value].phase);
    }
  }

  /** A change that still owes its notification. */
  lemma LoudKeeps(s: State, s': State)
    requires WakeInv(s) && s'.owed > 0 && s'.tasks == s.tasks && s'.lock == s.lock && s'.disturbed == s.disturbed
    ensures WakeInv(s')
  {
  }

  /** A notification: everyone is awake. */
  lemma NotifiedKeeps(s: State, s': State)
    requires s'.disturbed && |s'.tasks| == |s.tasks| && s'.lock == s.lock
    requires forall t :: 0 <= t < |s.tasks| ==> s'.tasks[t].woken
    ensures WakeInv(s')
  {
  }

  /** An opener still has to notify, and nobody holds the lock. */
  lemma OpenerKeeps(s': State, t: nat)
    requires s'.lock.None? && t < |s'.tasks| && (s'.tasks[t].phase.Pushed? || s'.tasks[t].phase.Unowned?)
    ensures WakeInv(s')
  {
    assert Pending(s');
  }

  // --------------------------------------------------------------- calm steps

  lemma CalmEnable(s: State, t: nat)
    requires LockFits(s) && t < |s.tasks| && s.tasks[t].phase.Start? ensures Calm(s, DoEnable(s, t)) {}
  lemma CalmWake(s: State, t: nat)
    requires LockFits(s) && t < |s.tasks| && s.tasks[t].phase.Parked? ensures Calm(s, DoWake(s, t)) {}
  lemma CalmLeave(s: State, t: nat)
    requires LockFits(s) && t < |s.tasks| && s.tasks[t].phase.Leaving? ensures Calm(s, DoLeave(s, t)) {}
  lemma CalmArrive(s: State, bytes: nat) requires LockFits(s) ensures Calm(s, DoArrive(s, bytes)) {}
  lemma CalmGiveUp(s: State, t: nat) requires LockFits(s) ensures Calm(s, DoGiveUp(s, t)) {}

  lemma EventKeeps(s: State, l: Label)
    requires WakeInv(s) && LockFits(s)
    ensures WakeInv(DoChannelEvent(s, l))
  {
    hide WakeInv, LockFits;
    var s' := DoChannelEvent(s, l);
    if s'.owed > s.owed {
      LoudKeeps(s, s');
    } else if s' != s {
      assert Calm(s, s') by { assert l.ShutSender?; }
      CalmKeeps(s, s');
    }
  }

  // -------------------------------------------------------------- holder steps

  lemma LockKeeps(s: State, t: nat)
    requires WakeInv(s) && LockFits(s) && t < |s.tasks| && s.tasks[t].phase.Enabled?
    ensures WakeInv(DoLock(s, t))
  {
    hide Stuck, Pending;
    var s' := DoLock(s, t);
    StuckSame(s, s');
    if Pending(s) {
      PendingStays(s, s');
    }
  }

  ghost predicate SomeoneSleeps(s: State) {
    exists u :: 0 <= u < |s.tasks| && s.tasks[u].phase.Parked? && !s.tasks[u].woken
  }

  lemma ParkedAfterHolder(s: State, s': State, t: nat)
    requires ParkedSafely(s) && t < |s.tasks| == |s'.tasks| && Locked(s.tasks[t].phase) && !s'.tasks[t].phase.Parked?
    requires (forall u :: 0 <= u < |s.tasks| && u != t ==> s'.tasks[u] == s.tasks[u]) && s'.owed == s.owed
    requires Stuck(s) && s.owed == 0 && SomeoneSleeps(s) ==> Stuck(s')
    ensures ParkedSafely(s')
  {
    hide Stuck, Pending;
    if Pending(s) {
      PendingStays(s, s');
    }
    if s.owed > 0 {
      OwedIsPending(s');
    }
  }

  lemma OwedIsPending(s: State)
    requires s.owed > 0
    ensures Pending(s)
  {
  }

  lemma RetainKeeps(s: State, t: nat, i: nat)
    requires WakeInv(s) && Shape(s) && t < |s.tasks| && s.tasks[t].phase == Retaining(i)
    ensures WakeInv(DoRetain(s, t, i))
  {
    hide Unfinished, ServingIn, Pending, OneOpener;
    var s' := DoRetain(s, t, i);
    if i < |s.list| && s.channels[s.list[i]].finished {
      UnfinishedRemoved(s.channels, s.list, i);
      assert Stuck(s) ==> Stuck(s');
    } else {
      StuckSame(s, s');
    }
    ParkedAfterHolder(s, s', t);
    RetainSees(s, t, i);
  }

  lemma RetainSees(s: State, t: nat, i: nat)
    requires HolderSaw(s) && LockFits(s) && t < |s.tasks| && s.tasks[t].phase == Retaining(i)
    ensures HolderSaw(DoRetain(s, t, i))
  {
  }

  lemma FilterKeeps(s: State, t: nat, i: nat, e: seq<nat>, load: Load)
    requires WakeInv(s) && LockFits(s) && t < |s.tasks| && s.tasks[t].phase == Filtering(i, e, load)
    ensures WakeInv(Set(s, t, AfterFilter(s, i, e, load)))
  {
    hide Stuck, Pending, HolderSaw, AfterFilter;
    var s' := Set(s, t, AfterFilter(s, i, e, load));
    StuckSame(s, s');
    ParkedAfterHolder(s, s', t);
    FilterSees(s, t, i, e, load);
  }

  lemma FilterSees(s: State, t: nat, i: nat, e: seq<nat>, load: Load)
    requires HolderSaw(s) && LockFits(s) && t < |s.tasks| && s.tasks[t].phase == Filtering(i, e, load)
    ensures HolderSaw(Set(s, t, AfterFilter(s, i, e, load)))
  {
    hide Seen, AfterFilter;
    if s.owed == 0 && !s.disturbed {
      FilterStepSees(s, i, e, load);
    }
  }

  lemma FilterStepSees(s: State, i: nat, e: seq<nat>, load: Load)
    requires Seen(s.channels, s.list, Filtering(i, e, load))
    ensures Seen(s.channels, s.list, AfterFilter(s, i, e, load))
  {
  }

  lemma RemovedOne(queue: seq<nat>, c: nat)
    requires c < |queue|
    ensures forall x :: x in [queue[c]] + (queue[..c] + queue[c + 1..]) <==> x in queue
  {
  }

  lemma TrySees(s: State, t: nat, q: seq<nat>, c: nat)
    requires HolderSaw(s) && LockFits(s) && t < |s.tasks| && s.tasks[t].phase == Trying(q)
    ensures HolderSaw(Set(s, t, AfterTry(s, q, c)))
  {
    hide Seen, AfterTry;
    if s.owed == 0 && !s.disturbed {
      TryStepSees(s, q, c);
    }
  }

  lemma TryStepSees(s: State, q: seq<nat>, c: nat)
    requires Seen(s.channels, s.list, Trying(q))
    ensures Seen(s.channels, s.list, AfterTry(s, q, c))
  {
    if c < |q| {
      var all := [q[c]] + (q[..c] + q[c + 1..]);
      RemovedOne(q, c);
      assert forall id :: id in all ==> id in q;
      assert forall id :: id in q ==> id in all;
      assert Listed(s.channels, s.list, all) && Covered(s.channels, s.list, all);
    }
  }

  lemma TryKeeps(s: State, t: nat, q: seq<nat>, c: nat)
    requires WakeInv(s) && LockFits(s) && t < |s.tasks| && s.tasks[t].phase == Trying(q)
    ensures WakeInv(Set(s, t, AfterTry(s, q, c)))
  {
    hide Stuck, Pending, HolderSaw, AfterTry;
    var s' := Set(s, t, AfterTry(s, q, c));
    StuckSame(s, s');
    ParkedAfterHolder(s, s', t);
    TrySees(s, t, q, c);
  }

  /** One more lease makes no channel eligible. */
  lemma TakeKeepsStuck(s: State, t: nat, id: nat)
    requires Stuck(s) && t < |s.tasks|
    ensures Stuck(DoTake(s, t, id))
  {
    hide ServingIn;
    var s' := DoTake(s, t, id);
    UnfinishedSame(s.channels, s'.channels, s.list);
    ServingShrinks(s'.channels, s.channels, Unfinished(s.channels, s.list));
  }

  lemma TakeKeeps(s: State, t: nat, id: nat)
    requires WakeInv(s) && Shape(s) && t < |s.tasks| && s.tasks[t].phase == Taking(id)
    ensures WakeInv(DoTake(s, t, id))
  {
    hide Stuck, Pending, OneOpener;
    assert PhaseFits(s.list, Taking(id));
    if Stuck(s) {
      TakeKeepsStuck(s, t, id);
    }
    ParkedAfterHolder(s, DoTake(s, t, id), t);
  }

  lemma DiscardSees(s: State, t: nat, id: nat, q: seq<nat>)
    requires HolderSaw(s) && LockFits(s) && t < |s.tasks| && s.tasks[t].phase == Discarding(id, q)
    ensures HolderSaw(DoDiscard(s, t, id, q))
  {
    var s' := DoDiscard(s, t, id, q);
    if s.owed == 0 && !s.disturbed {
      assert Seen(s.channels, s.list, Discarding(id, q));
      assert forall x :: x in q ==> x in [id] + q;
      assert s' == s || Seen(s'.channels, s'.list, Trying(q));
    }
  }

  /** With a caller safely parked, whatever the holder discards is already retired. */
  lemma DiscardKeepsStuck(s: State, t: nat, id: nat, q: seq<nat>)
    requires Stuck(s) && t < |s.tasks| && Seen(s.channels, s.list, Discarding(id, q))
    ensures Stuck(DoDiscard(s, t, id, q))
  {
    hide ServingIn;
    assert id in [id] + q;
    var s' := DoDiscard(s, t, id, q);
    UnfinishedSame(s.channels, s'.channels, s.list);
    ServingShrinks(s'.channels, s.channels, Unfinished(s.channels, s.list));
  }

  lemma DiscardKeeps(s: State, t: nat, id: nat, q: seq<nat>)
    requires WakeInv(s) && LockFits(s) && t < |s.tasks| && s.tasks[t].phase == Discarding(id, q)
    ensures WakeInv(DoDiscard(s, t, id, q))
  {
    hide Stuck, Pending, Seen;
    if Stuck(s) && s.owed == 0 && !s.disturbed {
      DiscardKeepsStuck(s, t, id, q);
    }
    ParkedAfterHolder(s, DoDiscard(s, t, id, q), t);
    DiscardSees(s, t, id, q);
  }

  lemma CountSees(s: State, t: nat, i: nat, n: nat)
    requires HolderSaw(s) && LockFits(s) && t < |s.tasks| && s.tasks[t].phase == Counting(i, n)
    ensures HolderSaw(DoCount(s, t, i, n))
  {
    if i < |s.list| {
      assert s.list[..i + 1][..i] == s.list[..i];
    }
  }

  /** The holder that parks after an undisturbed selection is stuck. */
  lemma ParksStuck(s: State, t: nat, i: nat, n: nat)
    requires Shape(s) && t < |s.tasks| && s.tasks[t].phase == Counting(i, n) && Seen(s.channels, s.list, Counting(i, n))
    requires DoCount(s, t, i, n).tasks[t].phase.Parked?
    ensures Stuck(DoCount(s, t, i, n))
  {
    hide OneOpener;
    assert s.list[..i] == s.list;
    UnfinishedAll(s.channels, s.list);
  }

  lemma CountKeeps(s: State, t: nat, i: nat, n: nat)
    requires WakeInv(s) && Shape(s) && t < |s.tasks| && s.tasks[t].phase == Counting(i, n)
    ensures WakeInv(DoCount(s, t, i, n))
  {
    hide Stuck, Pending, Seen, Shape;
    HolderIs(s, t);
    var s' := DoCount(s, t, i, n);
    CountSees(s, t, i, n);
    if s'.tasks[t].phase.Parked? {
      StuckSame(s, s');
      if Pending(s) {
        PendingStays(s, s');
      }
      if s.owed > 0 {
        OwedIsPending(s');
      } else if !s.disturbed {
        ParksStuck(s, t, i, n);
      }
    } else {
      CountKeepsStuck(s, t, i, n);
      ParkedAfterHolder(s, s', t);
    }
  }

  lemma HolderIs(s: State, t: nat)
    requires Shape(s) && t < |s.tasks| && Locked(s.tasks[t].phase)
    ensures s.lock == Some(t) && LockFits(s)
  {
  }

  lemma CountKeepsStuck(s: State, t: nat, i: nat, n: nat)
    requires t < |s.tasks|
    ensures Stuck(s) ==> Stuck(DoCount(s, t, i, n))
  {
    hide Unfinished, ServingIn;
  }

  // ---------------------------------------------------------------------- runs

  lemma AdvanceKeeps(s: State, t: nat, choice: nat)
    requires WakeInv(s) && Shape(s)
    ensures WakeInv(DoAdvance(s, t, choice))
  {
    hide WakeInv, OneOpener, LockFits, Calm,
         DoRetain, AfterFilter, AfterTry, DoTake, DoDiscard, DoCount, DoEnable, DoLock, DoLeave, DoWake;
    if t >= |s.tasks| {
      return;
    }
    match s.tasks[t].phase
    case Start => CalmEnable(s, t); CalmKeeps(s, DoEnable(s, t));
    case Enabled => LockKeeps(s, t);
    case Retaining(i) => RetainKeeps(s, t, i);
    case Filtering(i, e, load) => FilterKeeps(s, t, i, e, load);
    case Trying(q) => TryKeeps(s, t, q, choice);
    case Taking(id) => TakeKeeps(s, t, id);
    case Discarding(id, q) => DiscardKeeps(s, t, id, q);
    case Counting(i, n) => CountKeeps(s, t, i, n);
    case Pushed => if s.lock.None? { OpenerKeeps(DoRelease(s, t), t); }
    case Unowned(again) => NotifiedKeeps(s, DoNotifyOwner(s, t, again));
    case Parked => CalmWake(s, t); CalmKeeps(s, DoWake(s, t));
    case Leaving => CalmLeave(s, t); CalmKeeps(s, DoLeave(s, t));
    case _ =>
  }

  lemma StepKeepsWakes(s: State, l: Label)
    requires WakeInv(s) && Shape(s)
    ensures WakeInv(Step(s, l))
  {
    hide WakeInv, OneOpener, LockFits, Calm, DoAdvance, DoArrive, DoGiveUp, DoChannelEvent;
    match l
    case Arrive(bytes) => CalmArrive(s, bytes); CalmKeeps(s, DoArrive(s, bytes));
    case Advance(t, choice) => AdvanceKeeps(s, t, choice);
    case Connected(t, c) => if DoConnected(s, t, c) != s { OpenerKeeps(DoConnected(s, t, c), t); }
    case Fail(t) => if DoFail(s, t) != s { OpenerKeeps(DoFail(s, t), t); }
    case GiveUp(t) => CalmGiveUp(s, t); CalmKeeps(s, DoGiveUp(s, t));
    case DropLease(lease) => if DoDropLease(s, lease) != s { LoudKeeps(s, DoDropLease(s, lease)); }
    case Notify => if s.owed > 0 { NotifiedKeeps(s, Step(s, Notify)); }
    case Close => if s.lock.None? { LoudKeeps(s, DoClose(s)); }
    case _ => EventKeeps(s, l);
  }

  lemma {:induction false} RunKeepsWakes(limits: Limits, labels: seq<Label>)
    ensures WakeInv(Run(limits, labels))
  {
    hide WakeInv, Step, Shape;
    if labels == [] {
      InitialWakes(limits);
    } else {
      var n := |labels| - 1;
      RunKeepsWakes(limits, labels[..n]);
      RunCountsExactly(limits, labels[..n]);
      StepKeepsWakes(Run(limits, labels[..n]), labels[n]);
    }
  }

  lemma InitialWakes(limits: Limits)
    ensures WakeInv(Initial(limits))
  {
  }

  // ------------------------------------------------------- running it once more

  function Rank(p: Phase): nat {
    match p
    case Retaining(_) => 4
    case Filtering(_, _, _) => 3
    case Trying(_) => 2
    case Discarding(_, _) => 2
    case Taking(_) => 1
    case Counting(_, _) => 1
    case _ => 0
  }

  function Loads(load: Load): nat {
    match load
    case Unread => 3
    case Unretired => 2
    case Active(_) => 1
  }

  function Remaining(s: State, p: Phase): nat {
    match p
    case Retaining(i) => if i < |s.list| then |s.list| - i else 0
    case Filtering(i, _, load) => if i < |s.list| then 3 * (|s.list| - i) + Loads(load) else 0
    case Trying(queue) => 2 * |queue|
    case Discarding(_, queue) => 2 * |queue| + 1
    case Counting(i, _) => if i < |s.list| then |s.list| - i else 0
    case _ => 0
  }

  predicate Progress(s: State, s': State, t: nat) {
    && t < |s.tasks| && t < |s'.tasks|
    && var p, q := s.tasks[t].phase, s'.tasks[t].phase;
       Rank(q) < Rank(p) || (Rank(q) == Rank(p) && Remaining(s', q) < Remaining(s, p))
  }

  /** Which of the eligible channels the sort puts first. */
  function Choice(p: Phase, pick: seq<nat> -> nat): nat {
    if p.Trying? then pick(p.queue) else 0
  }

  /** The locked part of selection, run by one caller with nothing in between. */
  function Solo(s: State, t: nat, pick: seq<nat> -> nat): State
    requires t < |s.tasks|
    decreases Rank(s.tasks[t].phase), Remaining(s, s.tasks[t].phase)
  {
    var s' := DoAdvance(s, t, Choice(s.tasks[t].phase, pick));
    if Locked(s.tasks[t].phase) && Progress(s, s', t) then Solo(s', t, pick) else s
  }

  predicate EmptyHanded(p: Phase) {
    p.Retaining? || p.Counting? || p == Trying([]) || (p.Filtering? && p.eligible == [])
  }

  /** A selection under way, so far with nothing to take. */
  ghost predicate Barren(s: State, t: nat) {
    && Shape(s) && Stuck(s) && t < |s.tasks| && s.lock == Some(t) && EmptyHanded(s.tasks[t].phase)
    && s.owed == 0 && !s.disturbed && HolderSaw(s)
  }

  lemma BarrenRetain(s: State, t: nat, i: nat)
    requires Barren(s, t) && s.tasks[t].phase == Retaining(i)
    ensures Barren(DoRetain(s, t, i), t) && Progress(s, DoRetain(s, t, i), t)
  {
    hide Shape, HolderSaw, Unfinished;
    HolderIs(s, t);
    var s' := DoRetain(s, t, i);
    if s'.list != s.list {
      UnfinishedRemoved(s.channels, s.list, i);
    }
    ShapeAfterRetain(s, t, i);
    RetainSees(s, t, i);
  }

  lemma BarrenFilter(s: State, t: nat, i: nat, load: Load)
    requires Barren(s, t) && s.tasks[t].phase == Filtering(i, [], load)
    ensures var s' := Set(s, t, AfterFilter(s, i, [], load)); Barren(s', t) && Progress(s, s', t)
  {
    hide Shape, Unfinished;
    HolderIs(s, t);
    ShapeAfterFilter(s, t, i, [], load);
    FilterSees(s, t, i, [], load);
  }

  lemma BarrenTry(s: State, t: nat, choice: nat)
    requires Barren(s, t) && s.tasks[t].phase == Trying([])
    ensures var s' := Set(s, t, AfterTry(s, [], choice)); Barren(s', t) && Progress(s, s', t)
  {
    hide Shape, HolderSaw, Unfinished;
    HolderIs(s, t);
    ShapeAfterTry(s, t, [], choice);
    TrySees(s, t, [], choice);
  }

  lemma BarrenCount(s: State, t: nat, i: nat, n: nat)
    requires Barren(s, t) && s.tasks[t].phase == Counting(i, n)
    ensures var s' := DoCount(s, t, i, n);
      Progress(s, s', t) && (s'.tasks[t].phase.Parked? || Barren(s', t))
  {
    hide OneOpener, LockFits, Unfinished;
    HolderIs(s, t);
    ShapeAfterCount(s, t, i, n);
    CountSees(s, t, i, n);
    if i >= |s.list| {
      assert s.list[..i] == s.list;
      UnfinishedAll(s.channels, s.list);
    }
  }

  lemma BarrenAdvance(s: State, t: nat, choice: nat)
    requires Barren(s, t)
    ensures var s' := DoAdvance(s, t, choice);
      Progress(s, s', t) && (s'.tasks[t].phase.Parked? || Barren(s', t))
  {
    hide Shape, Stuck, HolderSaw, DoRetain, AfterFilter, AfterTry, DoCount, Progress;
    match s.tasks[t].phase
    case Retaining(i) => BarrenRetain(s, t, i); ProgressFits(s, DoRetain(s, t, i), t);
    case Filtering(i, eligible, load) =>
      BarrenFilter(s, t, i, load);
      ProgressFits(s, Set(s, t, AfterFilter(s, i, eligible, load)), t);
    case Trying(queue) => BarrenTry(s, t, choice); ProgressFits(s, Set(s, t, AfterTry(s, queue, choice)), t);
    case Counting(i, n) => BarrenCount(s, t, i, n); ProgressFits(s, DoCount(s, t, i, n), t);
    case _ =>
  }

  lemma ProgressFits(s: State, s': State, t: nat)
    requires Progress(s, s', t)
    ensures t < |s'.tasks|
  {
  }

  lemma {:induction false} BarrenSelectionParks(s: State, t: nat, pick: seq<nat> -> nat)
    requires Barren(s, t)
    ensures |Solo(s, t, pick).tasks| > t && Solo(s, t, pick).tasks[t].phase.Parked?
    decreases Rank(s.tasks[t].phase), Remaining(s, s.tasks[t].phase)
  {
    hide Shape, Stuck, HolderSaw, DoAdvance;
    var choice := Choice(s.tasks[t].phase, pick);
    BarrenAdvance(s, t, choice);
    var s' := DoAdvance(s, t, choice);
    if !s'.tasks[t].phase.Parked? {
      BarrenSelectionParks(s', t, pick);
    }
  }

  /** The caller creates a new future, takes the lock and selects again. */
  function Retry(s: State, t: nat, pick: seq<nat> -> nat): State
    requires t < |s.tasks|
  {
    Solo(DoLock(DoEnable(s, t), t), t, pick)
  }

  lemma RetryIsBarren(s: State, t: nat)
    requires Shape(s) && Stuck(s) && t < |s.tasks| && s.tasks[t].phase.Parked? && s.lock.None? && s.owed == 0
    ensures Barren(DoLock(DoEnable(s, t), t), t)
  {
    hide Shape, Stuck;
    var s1 := DoEnable(s, t);
    ShapeAfterRetryEnable(s, t);
    ShapeAfterLock(s1, t);
    StuckSame(s, s1);
    var s2 := DoLock(s1, t);
    StuckIsOpen(s);
    StuckSame(s1, s2);
  }

  lemma StuckIsOpen(s: State)
    requires Stuck(s)
    ensures !s.closed
  {
  }

  lemma ShapeAfterRetryEnable(s: State, t: nat)
    requires Shape(s) && t < |s.tasks| && s.tasks[t].phase.Parked?
    ensures Shape(DoEnable(s, t))
  {
    ShapeAfterMove(s, DoEnable(s, t), t);
  }

  /**
   * In every reachable state with the lock free, a parked caller that has not been woken and
   * that no pending notification will wake would, if it selected again now, park again.
   */
  lemma NoLostWakeup(limits: Limits, labels: seq<Label>, t: nat, pick: seq<nat> -> nat)
    requires var s := Run(limits, labels);
      t < |s.tasks| && s.tasks[t].phase.Parked? && !s.tasks[t].woken && !Pending(s) && s.lock.None?
    ensures var r := Retry(Run(limits, labels), t, pick); |r.tasks| > t && r.tasks[t].phase.Parked?
  {
    hide Run, Shape, Counters, Stuck;
    var s := Run(limits, labels);
    RunKeepsWakes(limits, labels);
    RunCountsExactly(limits, labels);
    RetryIsBarren(s, t);
    BarrenSelectionParks(DoLock(DoEnable(s, t), t), t, pick);
  }
}
