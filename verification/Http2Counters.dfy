/** The pool's counters are exact: leases behind `active`, guards behind the waiting totals. */
module Http2Counters {
  import opened Http2Pool
  import opened Http2Accounting
  import PoolSpec

  function LiveTasks(tasks: seq<Task>): nat {
    if tasks == [] then 0
    else LiveTasks(tasks[..|tasks| - 1]) + if tasks[|tasks| - 1].phase.Done? then 0 else 1
  }

  function LiveBytes(tasks: seq<Task>): nat {
    if tasks == [] then 0
    else LiveBytes(tasks[..|tasks| - 1]) + if tasks[|tasks| - 1].phase.Done? then 0 else tasks[|tasks| - 1].bytes
  }

  /** Each channel's counter is the number of leases that hold a stream on it. */
  predicate LeasesExact(s: State) {
    forall id :: 0 <= id < |s.channels| ==> s.channels[id].active == PoolSpec.LiveLeases(s.leases, id)
  }

  /** The waiting totals are the guards' sums, within the caller's limits. */
  predicate WaitingExact(s: State) {
    && s.waitingRequests == LiveTasks(s.tasks) && s.waitingRequests <= s.limits.requests
    && s.waitingBytes == LiveBytes(s.tasks) && s.waitingBytes <= s.limits.bytes
  }

  // ------------------------------------------------------------------- leases

  lemma LeasesAfterTake(s: State, t: nat, id: nat)
    requires LeasesExact(s) && t < |s.tasks|
    ensures LeasesExact(DoTake(s, t, id))
  {
    hide PoolSpec.LiveLeases;
    var s' := DoTake(s, t, id);
    if s'.leases != s.leases {
      forall i | 0 <= i < |s'.channels|
        ensures s'.channels[i].active == PoolSpec.LiveLeases(s'.leases, i)
      {
        PoolSpec.LeaseAppended(s.leases, PoolSpec.Lease(id, true), i);
      }
    }
  }

  lemma LeasesAfterDrop(s: State, l: nat)
    requires LeasesExact(s)
    ensures LeasesExact(DoDropLease(s, l))
    ensures l < |s.leases| && s.leases[l].live && s.leases[l].member < |s.channels| ==>
      DoDropLease(s, l).owed == s.owed + 1
  {
    hide PoolSpec.LiveLeases;
    var s' := DoDropLease(s, l);
    if l < |s.leases| && s.leases[l].live && s.leases[l].member < |s.channels| {
      PoolSpec.LeaseReleased(s.leases, l, s.leases[l].member);
      forall i | 0 <= i < |s'.channels|
        ensures s'.channels[i].active == PoolSpec.LiveLeases(s'.leases, i)
      {
        PoolSpec.LeaseReleased(s.leases, l, i);
      }
    }
  }

  lemma LeasesAfterConnected(s: State, t: nat, c: Channel)
    requires LeasesExact(s) && LeasesFit(s.leases, |s.channels|)
    ensures LeasesExact(DoConnected(s, t, c))
  {
    PoolSpec.NoLeases(s.leases, |s.channels|);
  }

  // ------------------------------------------------------------------ waiting

  /** The same guards are alive before and after. */
  predicate SameGuards(s: State, s': State) {
    && s'.limits == s.limits && s'.waitingRequests == s.waitingRequests && s'.waitingBytes == s.waitingBytes
    && |s'.tasks| == |s.tasks|
    && forall t :: 0 <= t < |s.tasks| ==>
         s'.tasks[t].bytes == s.tasks[t].bytes && (s'.tasks[t].phase.Done? <==> s.tasks[t].phase.Done?)
  }

  lemma {:induction false} SumsSame(a: seq<Task>, b: seq<Task>)
    requires |a| == |b|
    requires forall t :: 0 <= t < |a| ==> a[t].bytes == b[t].bytes && (a[t].phase.Done? <==> b[t].phase.Done?)
    ensures LiveTasks(a) == LiveTasks(b) && LiveBytes(a) == LiveBytes(b)
  {
    if a != [] {
      SumsSame(a[..|a| - 1], b[..|b| - 1]);
    }
  }

  lemma {:induction false} SumsAfterDone(tasks: seq<Task>, t: nat)
    requires t < |tasks| && !tasks[t].phase.Done?
    ensures LiveTasks(tasks[t := tasks[t].(phase := Done)]) == LiveTasks(tasks) - 1
    ensures LiveBytes(tasks[t := tasks[t].(phase := Done)]) == LiveBytes(tasks) - tasks[t].bytes
  {
    var n := |tasks| - 1;
    var updated := tasks[t := tasks[t].(phase := Done)];
    if t < n {
      SumsAfterDone(tasks[..n], t);
      assert updated[..n] == tasks[..n][t := tasks[t].(phase := Done)];
    } else {
      assert updated[..n] == tasks[..n];
    }
  }

  lemma WaitingAfterSame(s: State, s': State)
    requires WaitingExact(s) && SameGuards(s, s')
    ensures WaitingExact(s')
  {
    SumsSame(s.tasks, s'.tasks);
  }

  lemma WaitingAfterArrive(s: State, bytes: nat)
    requires WaitingExact(s)
    ensures WaitingExact(DoArrive(s, bytes))
  {
    assert (s.tasks + [Task(bytes, Start, false)])[..|s.tasks|] == s.tasks;
  }

  lemma WaitingAfterLeave(s: State, t: nat)
    requires WaitingExact(s) && t < |s.tasks| && s.tasks[t].phase.Leaving?
    ensures WaitingExact(DoLeave(s, t))
    ensures s.lock.None? ==> DoLeave(s, t).tasks[t].phase.Done?
  {
    SumsAfterDone(s.tasks, t);
  }

  // -------------------------------------------------------------------- steps

  predicate Frames(s: State, s': State) {
    && SameGuards(s, s') && s'.leases == s.leases
    && |s'.channels| == |s.channels| && forall i :: 0 <= i < |s.channels| ==>
      s'.channels[i].active == s.channels[i].active
  }

  lemma FrameEnable(s: State, t: nat)
    requires t < |s.tasks| && s.tasks[t].phase.Start? ensures Frames(s, DoEnable(s, t)) {}
  lemma FrameLock(s: State, t: nat)
    requires t < |s.tasks| && s.tasks[t].phase.Enabled? ensures Frames(s, DoLock(s, t)) {}
  lemma FrameRetain(s: State, t: nat, i: nat)
    requires t < |s.tasks| && s.tasks[t].phase.Retaining? ensures Frames(s, DoRetain(s, t, i)) {}
  lemma FrameSet(s: State, t: nat, p: Phase)
    requires t < |s.tasks| && !s.tasks[t].phase.Done? && !p.Done? ensures Frames(s, Set(s, t, p)) {}
  lemma FrameDiscard(s: State, t: nat, id: nat, queue: seq<nat>)
    requires t < |s.tasks| && s.tasks[t].phase.Discarding? ensures Frames(s, DoDiscard(s, t, id, queue)) {}
  lemma FrameCount(s: State, t: nat, i: nat, n: nat)
    requires t < |s.tasks| && s.tasks[t].phase.Counting? ensures Frames(s, DoCount(s, t, i, n)) {}
  lemma FrameRelease(s: State, t: nat)
    requires t < |s.tasks| && s.tasks[t].phase.Pushed? ensures Frames(s, DoRelease(s, t)) {}
  lemma FrameNotifyOwner(s: State, t: nat, again: bool)
    requires t < |s.tasks| && s.tasks[t].phase.Unowned? ensures Frames(s, DoNotifyOwner(s, t, again)) {}
  lemma FrameWake(s: State, t: nat)
    requires t < |s.tasks| && s.tasks[t].phase.Parked? ensures Frames(s, DoWake(s, t)) {}

  lemma GuardsAfterTake(s: State, t: nat, id: nat)
    requires t < |s.tasks| && s.tasks[t].phase.Taking?
    ensures SameGuards(s, DoTake(s, t, id))
  {
  }

  lemma LeasesAfterLeave(s: State, t: nat)
    requires LeasesExact(s) && t < |s.tasks|
    ensures LeasesExact(DoLeave(s, t))
  {
  }

  predicate Counters(s: State) { LeasesExact(s) && WaitingExact(s) }

  lemma CountersAfterFrames(s: State, s': State)
    requires Counters(s) && Frames(s, s')
    ensures Counters(s')
  {
    WaitingAfterSame(s, s');
  }

  lemma CountersAfterAdvance(s: State, t: nat, choice: nat)
    requires Counters(s)
    ensures Counters(DoAdvance(s, t, choice))
  {
    hide LeasesExact, WaitingExact, DoRetain, AfterFilter, AfterTry, DoTake, DoDiscard, DoCount,
         DoEnable, DoLock, DoLeave, DoRelease, DoNotifyOwner, DoWake;
    if t >= |s.tasks| {
      return;
    }
    match s.tasks[t].phase
    case Start => FrameEnable(s, t); CountersAfterFrames(s, DoEnable(s, t));
    case Enabled => FrameLock(s, t); CountersAfterFrames(s, DoLock(s, t));
    case Retaining(i) => FrameRetain(s, t, i); CountersAfterFrames(s, DoRetain(s, t, i));
    case Filtering(i, e, load) =>
      FrameSet(s, t, AfterFilter(s, i, e, load));
      CountersAfterFrames(s, Set(s, t, AfterFilter(s, i, e, load)));
    case Trying(queue) =>
      FrameSet(s, t, AfterTry(s, queue, choice));
      CountersAfterFrames(s, Set(s, t, AfterTry(s, queue, choice)));
    case Taking(id) =>
      LeasesAfterTake(s, t, id);
      GuardsAfterTake(s, t, id);
      WaitingAfterSame(s, DoTake(s, t, id));
    case Discarding(id, queue) => FrameDiscard(s, t, id, queue); CountersAfterFrames(s, DoDiscard(s, t, id, queue));
    case Counting(i, n) => FrameCount(s, t, i, n); CountersAfterFrames(s, DoCount(s, t, i, n));
    case Pushed => FrameRelease(s, t); CountersAfterFrames(s, DoRelease(s, t));
    case Unowned(again) => FrameNotifyOwner(s, t, again); CountersAfterFrames(s, DoNotifyOwner(s, t, again));
    case Parked => FrameWake(s, t); CountersAfterFrames(s, DoWake(s, t));
    case Leaving => LeasesAfterLeave(s, t); WaitingAfterLeave(s, t);
    case _ =>
  }

  lemma CountersKept(s: State, l: Label)
    requires Shape(s) && Counters(s)
    ensures Counters(Step(s, l))
  {
    hide Shape, LeasesExact, WaitingExact, DoAdvance, DoArrive, DoConnected, DoDropLease, DoChannelEvent, DoClose,
      DoFail, DoGiveUp;
    LeasesFitIn(s);
    var s' := Step(s, l);
    match l
    case Arrive(bytes) => WaitingAfterArrive(s, bytes); LeasesAfterArrive(s, bytes);
    case Advance(t, choice) => CountersAfterAdvance(s, t, choice);
    case Connected(t, c) => LeasesAfterConnected(s, t, c); GuardsAfterConnected(s, t, c); WaitingAfterSame(s, s');
    case DropLease(lease) => LeasesAfterDrop(s, lease); GuardsAfterDrop(s, lease); WaitingAfterSame(s, s');
    case Fail(t) => FrameFail(s, t); CountersAfterFrames(s, s');
    case GiveUp(t) => FrameGiveUp(s, t); CountersAfterFrames(s, s');
    case Notify => CountersAfterFrames(s, s');
    case Close => FrameClose(s); CountersAfterFrames(s, s');
    case _ => FrameEvent(s, l); CountersAfterFrames(s, s');
  }

  lemma FrameFail(s: State, t: nat) ensures Frames(s, DoFail(s, t)) {}
  lemma FrameGiveUp(s: State, t: nat) ensures Frames(s, DoGiveUp(s, t)) {}
  lemma FrameClose(s: State) ensures Frames(s, DoClose(s)) {}
  lemma FrameEvent(s: State, l: Label) ensures Frames(s, DoChannelEvent(s, l)) {}
  lemma LeasesAfterArrive(s: State, bytes: nat) requires LeasesExact(s) ensures LeasesExact(DoArrive(s, bytes)) {}
  lemma GuardsAfterConnected(s: State, t: nat, c: Channel) ensures SameGuards(s, DoConnected(s, t, c)) {}
  lemma GuardsAfterDrop(s: State, l: nat) ensures SameGuards(s, DoDropLease(s, l)) {}

  /** In every interleaving the structure holds and both kinds of counter are exact. */
  lemma {:induction false} RunCountsExactly(limits: Limits, labels: seq<Label>)
    ensures Shape(Run(limits, labels)) && Counters(Run(limits, labels))
  {
    hide Shape, Counters, Step;
    if labels == [] {
      InitialCounts(limits);
    } else {
      var n := |labels| - 1;
      RunCountsExactly(limits, labels[..n]);
      ShapeKept(Run(limits, labels[..n]), labels[n]);
      CountersKept(Run(limits, labels[..n]), labels[n]);
    }
  }

  lemma InitialCounts(limits: Limits)
    ensures Shape(Initial(limits)) && Counters(Initial(limits))
  {
  }

  /**
   * In every reachable state of an open pool with its lock free, a caller is admitted exactly if
   * with it no more requests and no more bytes than the limits allow are waiting.
   */
  lemma AdmittedExactly(limits: Limits, labels: seq<Label>, bytes: nat)
    requires var s := Run(limits, labels); s.lock.None? && !s.closed
    ensures var s, s' := Run(limits, labels), Run(limits, labels + [Arrive(bytes)]);
      if LiveTasks(s.tasks) + 1 <= s.limits.requests && LiveBytes(s.tasks) + bytes <= s.limits.bytes
      then s'.tasks == s.tasks + [Task(bytes, Start, false)] else s' == s
  {
    hide Run, Shape, LeasesExact;
    RunCountsExactly(limits, labels);
    OneStepMore(limits, labels, Arrive(bytes));
  }

  lemma OneStepMore(limits: Limits, labels: seq<Label>, l: Label)
    ensures Run(limits, labels + [l]) == Step(Run(limits, labels), l)
  {
    assert (labels + [l])[..|labels|] == labels;
  }
}
