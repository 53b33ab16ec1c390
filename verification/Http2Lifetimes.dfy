/** The lives of connections and callers: how they end, who is woken and by what, what closing does. */
module Http2Lifetimes {
  import opened Basics
  import opened Http2Pool
  import opened Http2Accounting
  import Http2Bounds
  import Http2Counters
  import PoolSpec

  // ------------------------------------------------------------------ connections

  /** A channel only grows old: what is retired or finished stays so, and a sender that is gone stays gone. */
  predicate Ages(c: Channel, d: Channel) {
    && (c.retired ==> d.retired) && (c.finished ==> d.finished)
    && (c.sender.Taken? ==> d.sender.Taken?) && (d.sender.Open? ==> c.sender.Open?)
  }

  predicate AllAge(s: State, s': State) {
    |s.channels| <= |s'.channels| && forall id :: 0 <= id < |s.channels| ==> Ages(s.channels[id], s'.channels[id])
  }

  /** Only a finished channel leaves the list. */
  predicate DropsFinished(s: State, s': State) {
    forall id :: id in s.list && id !in s'.list ==> id < |s.channels| && s.channels[id].finished
  }

  /** What is new is listed, and nothing comes back. */
  predicate ListsNew(s: State, s': State) {
    && (forall id :: |s.channels| <= id < |s'.channels| ==> id in s'.list && !s.closed)
    && (forall id :: id in s'.list ==> id in s.list || id >= |s.channels|)
  }

  predicate Flows(s: State, s': State) {
    AllAge(s, s') && DropsFinished(s, s') && ListsNew(s, s')
  }

  /** The channels age and the list stays. */
  predicate Steady(s: State, s': State) {
    s'.list == s.list && |s'.channels| == |s.channels| && AllAge(s, s')
  }

  lemma SteadyFlows(s: State, s': State)
    requires Steady(s, s')
    ensures Flows(s, s')
  {
  }

  lemma RetainFlows(s: State, t: nat, i: nat)
    requires t < |s.tasks|
    ensures Flows(s, DoRetain(s, t, i))
  {
    if i < |s.list| {
      assert s.list == s.list[..i] + [s.list[i]] + s.list[i + 1..];
    }
  }

  lemma SetSteady(s: State, t: nat, p: Phase) requires t < |s.tasks| ensures Steady(s, Set(s, t, p)) {}
  lemma EnableSteady(s: State, t: nat) requires t < |s.tasks| ensures Steady(s, DoEnable(s, t)) {}
  lemma LockSteady(s: State, t: nat) requires t < |s.tasks| ensures Steady(s, DoLock(s, t)) {}
  lemma TakeSteady(s: State, t: nat, id: nat) requires t < |s.tasks| ensures Steady(s, DoTake(s, t, id)) {}
  lemma DiscardSteady(s: State, t: nat, id: nat, queue: seq<nat>)
    requires t < |s.tasks| ensures Steady(s, DoDiscard(s, t, id, queue)) {}
  lemma CountSteady(s: State, t: nat, i: nat, n: nat) requires t < |s.tasks| ensures Steady(s, DoCount(s, t, i, n)) {}
  lemma LeaveSteady(s: State, t: nat) requires t < |s.tasks| ensures Steady(s, DoLeave(s, t)) {}
  lemma ReleaseSteady(s: State, t: nat) requires t < |s.tasks| ensures Steady(s, DoRelease(s, t)) {}
  lemma NotifySteady(s: State, t: nat, again: bool)
    requires t < |s.tasks| ensures Steady(s, DoNotifyOwner(s, t, again)) {}
  lemma WakeSteady(s: State, t: nat) requires t < |s.tasks| ensures Steady(s, DoWake(s, t)) {}
  lemma ItselfSteady(s: State) ensures Steady(s, s) {}

  lemma AdvanceFlows(s: State, t: nat, choice: nat)
    ensures Flows(s, DoAdvance(s, t, choice))
  {
    hide Flows, Steady, Set, DoEnable, DoLock, DoRetain, AfterFilter, AfterTry, DoTake, DoDiscard, DoCount, DoLeave,
      DoRelease, DoNotifyOwner, DoWake;
    if t < |s.tasks| && s.tasks[t].phase.Retaining? {
      RetainFlows(s, t, s.tasks[t].phase.next);
    } else {
      if t < |s.tasks| {
        match s.tasks[t].phase
        case Start => EnableSteady(s, t);
        case Enabled => LockSteady(s, t);
        case Filtering(i, eligible, load) => SetSteady(s, t, AfterFilter(s, i, eligible, load));
        case Trying(queue) => SetSteady(s, t, AfterTry(s, queue, choice));
        case Taking(id) => TakeSteady(s, t, id);
        case Discarding(id, queue) => DiscardSteady(s, t, id, queue);
        case Counting(i, serving) => CountSteady(s, t, i, serving);
        case Pushed => ReleaseSteady(s, t);
        case Unowned(again) => NotifySteady(s, t, again);
        case Parked => WakeSteady(s, t);
        case Leaving => LeaveSteady(s, t);
        case _ => ItselfSteady(s);
      } else {
        ItselfSteady(s);
      }
      SteadyFlows(s, DoAdvance(s, t, choice));
    }
  }

  lemma ConnectedFlows(s: State, t: nat, c: Channel)
    ensures Flows(s, DoConnected(s, t, c))
  {
  }

  lemma OtherSteady(s: State, l: Label)
    requires !l.Advance? && !l.Connected?
    ensures Steady(s, Step(s, l))
  {
    hide DoConnected, DoAdvance, DoArrive, DoChannelEvent, DoClose, DoDropLease;
    match l
    case Arrive(bytes) => ArriveSteady(s, bytes);
    case Close => CloseSteady(s);
    case DropLease(lease) => DropSteady(s, lease);
    case _ => EventSteady(s, l);
  }

  lemma EventSteady(s: State, l: Label) ensures Steady(s, DoChannelEvent(s, l)) {}
  lemma CloseSteady(s: State) ensures Steady(s, DoClose(s)) {}
  lemma DropSteady(s: State, l: nat) ensures Steady(s, DoDropLease(s, l)) {}

  lemma ArriveSteady(s: State, bytes: nat) ensures Steady(s, DoArrive(s, bytes)) {}

  lemma StepFlows(s: State, l: Label)
    ensures Flows(s, Step(s, l))
  {
    hide DoAdvance, DoConnected, Flows, Steady;
    match l
    case Advance(t, choice) => AdvanceFlows(s, t, choice);
    case Connected(t, c) => ConnectedFlows(s, t, c);
    case _ =>
      OtherSteady(s, l);
      SteadyFlows(s, Step(s, l));
  }

  lemma {:induction false} RunAges(limits: Limits, labels: seq<Label>, i: nat)
    requires i <= |labels|
    ensures AllAge(Run(limits, labels[..i]), Run(limits, labels))
  {
    hide Step;
    if i == |labels| {
      assert labels[..i] == labels;
    } else {
      var n := |labels| - 1;
      assert labels[..n][..i] == labels[..i];
      RunAges(limits, labels[..n], i);
      StepFlows(Run(limits, labels[..n]), labels[n]);
    }
  }

  /** This event takes a channel out of service. */
  predicate TakesOut(s: State, l: Label, id: nat) {
    && id < |s.channels|
    && match l
       case Retire(x) => x == id
       case ObserveShut(x) => x == id && s.channels[id].sender.Shut?
       case Close => s.lock.None? && id in s.list
       case _ => false
  }

  lemma OutOfService(s: State, l: Label, id: nat)
    requires TakesOut(s, l, id)
    ensures id < |Step(s, l).channels| && Step(s, l).channels[id].retired
  {
  }

  /** In every run, a channel that was retired, observed shut or closed is retired ever after. */
  lemma RetiredForGood(limits: Limits, labels: seq<Label>, i: nat, id: nat)
    requires i < |labels| && TakesOut(Run(limits, labels[..i]), labels[i], id)
    ensures var s := Run(limits, labels); id < |s.channels| && s.channels[id].retired
  {
    hide Step, TakesOut;
    OutOfService(Run(limits, labels[..i]), labels[i], id);
    assert labels[..i + 1][..i] == labels[..i];
    RunAges(limits, labels, i + 1);
  }

  // ----------------------------------------------------------------------- closing

  /** Channels leave the list only when finished, and a closed pool has taken every sender. */
  predicate Ending(s: State) {
    && (forall id :: 0 <= id < |s.channels| ==> id in s.list || s.channels[id].finished)
    && (s.closed ==> s.lock.None?)
    && (s.closed ==> forall id :: id in s.list && id < |s.channels| ==> Withdrawn(s.channels[id]))
  }

  predicate Withdrawn(c: Channel) { c.retired && c.sender.Taken? }

  lemma EndingAfterFlow(s: State, s': State)
    requires Ending(s) && Flows(s, s') && s'.closed == s.closed && (s.closed ==> s'.lock.None?)
    ensures Ending(s')
  {
    forall id | 0 <= id < |s'.channels|
      ensures id in s'.list || s'.channels[id].finished
    {
      if id < |s.channels| {
        assert Ages(s.channels[id], s'.channels[id]);
      }
    }
    if s'.closed {
      forall id | id in s'.list && id < |s'.channels|
        ensures Withdrawn(s'.channels[id])
      {
        assert Ages(s.channels[id], s'.channels[id]);
      }
    }
  }

  lemma AdvanceStaysClosed(s: State, t: nat, choice: nat)
    requires LockFits(s)
    ensures var r := DoAdvance(s, t, choice); r.closed == s.closed && (s.closed && s.lock.None? ==> r.lock.None?)
  {
    hide PhaseFits;
  }

  lemma ClosedStays(s: State, l: Label)
    requires l != Close && LockFits(s)
    ensures Step(s, l).closed == s.closed
    ensures s.closed && s.lock.None? ==> Step(s, l).lock.None?
  {
    hide DoAdvance, LockFits;
    if l.Advance? {
      AdvanceStaysClosed(s, l.task, l.choice);
    }
  }

  lemma EndingAfterClose(s: State)
    requires Ending(s)
    ensures Ending(DoClose(s))
  {
  }

  lemma {:induction false} RunEnds(limits: Limits, labels: seq<Label>)
    ensures Ending(Run(limits, labels))
  {
    hide Step, Ending;
    if labels == [] {
      FirstEnding(limits);
    } else {
      var n := |labels| - 1;
      var s := Run(limits, labels[..n]);
      RunEnds(limits, labels[..n]);
      EndingStep(limits, labels[..n], s, labels[n]);
    }
  }

  lemma FirstEnding(limits: Limits)
    ensures Ending(Initial(limits))
  {
  }

  lemma EndingStep(limits: Limits, labels: seq<Label>, s: State, l: Label)
    requires s == Run(limits, labels) && Ending(s)
    ensures Ending(Step(s, l))
  {
    hide Run, Ending, Flows;
    if l == Close {
      EndingAfterClose(s);
      StepOfClose(s);
    } else {
      RunLocks(limits, labels);
      StepFlows(s, l);
      ClosedStays(s, l);
      ClosedUnlocked(s);
      hide Step;
      EndingAfterFlow(s, Step(s, l));
    }
  }

  lemma StepOfClose(s: State)
    ensures Step(s, Close) == DoClose(s)
  {
  }

  lemma ClosedUnlocked(s: State)
    requires Ending(s)
    ensures s.closed ==> s.lock.None?
  {
  }

  lemma RunLocks(limits: Limits, labels: seq<Label>)
    ensures Shape(Run(limits, labels))
  {
    Http2Bounds.RunInv(limits, labels);
  }

  /**
   * In every run, closing succeeds exactly if the pool is closed, nobody is opening a connection
   * and every connection ever published has finished.
   */
  lemma CloseExactly(limits: Limits, labels: seq<Label>)
    ensures var s := Run(limits, labels);
      CloseSucceeds(s) <==>
        && s.closed && (forall t :: 0 <= t < |s.tasks| ==> !Owns(s.tasks[t].phase))
        && forall id :: 0 <= id < |s.channels| ==> s.channels[id].finished
  {
    hide Run;
    RunEnds(limits, labels);
    RunLocks(limits, labels);
  }

  /** In every run of a closed pool, each connection is finished, or retired with its sender withdrawn. */
  lemma ClosedWithdraws(limits: Limits, labels: seq<Label>, id: nat)
    requires var s := Run(limits, labels); s.closed && id < |s.channels|
    ensures var c := Run(limits, labels).channels[id]; c.finished || Withdrawn(c)
  {
    hide Run;
    RunEnds(limits, labels);
  }

  /** Once the pool is closed no caller is given a connection and none is published, in any continuation. */
  lemma {:induction false} NothingStartsAfterClose(limits: Limits, labels: seq<Label>, more: seq<Label>)
    requires Run(limits, labels).closed
    ensures var s, r := Run(limits, labels), Run(limits, labels + more);
      r.closed && |r.leases| == |s.leases| && |r.channels| == |s.channels|
  {
    hide Step, Shape;
    if more == [] {
      assert labels + more == labels;
    } else {
      var n := |more| - 1;
      var all, before := labels + more, labels + more[..n];
      assert all[..|all| - 1] == before && all[|all| - 1] == more[n];
      NothingStartsAfterClose(limits, labels, more[..n]);
      RunLocks(limits, before);
      RunEnds(limits, before);
      ClosedStep(Run(limits, before), more[n]);
    }
  }

  lemma ClosedStep(s: State, l: Label)
    requires s.closed && Shape(s)
    ensures var r := Step(s, l); r.closed && |r.leases| == |s.leases| && |r.channels| == |s.channels|
  {
    hide OneOpener, ListFits, LeasesFit, PhaseFits;
  }

  // ----------------------------------------------------------------------- callers

  /** This step calls `notify_waiters`. */
  predicate Notifies(s: State, l: Label) {
    || (l.Notify? && s.owed > 0)
    || (l.Advance? && l.task < |s.tasks| && s.tasks[l.task].phase.Unowned?)
  }

  /** The caller has been in the same turn of its loop since step `i`. */
  ghost predicate Since(limits: Limits, labels: seq<Label>, i: nat, t: nat) {
    forall j :: i < j <= |labels| ==> Under(Run(limits, labels[..j]), t)
  }

  predicate Under(s: State, t: nat) {
    t < |s.tasks| && InLoop(s.tasks[t].phase)
  }

  /** Between enabling the future and the end of the turn. */
  predicate InLoop(p: Phase) {
    !p.Start? && !p.Leaving? && !p.Done?
  }

  ghost predicate NotifiedSince(limits: Limits, labels: seq<Label>, t: nat) {
    exists i :: 0 <= i < |labels| && Notifies(Run(limits, labels[..i]), labels[i]) && Since(limits, labels, i, t)
  }

  /** Whoever is woken and under way after was so before. */
  predicate WakesNone(s: State, s': State) {
    forall t :: 0 <= t < |s'.tasks| && s'.tasks[t].woken && InLoop(s'.tasks[t].phase) ==>
      t < |s.tasks| && s.tasks[t].woken && InLoop(s.tasks[t].phase)
  }

  /** This caller alone moves, from within the loop or to its end, and is not woken by that. */
  predicate MovesOn(s: State, s': State, t: nat) {
    && t < |s.tasks| == |s'.tasks|
    && (InLoop(s.tasks[t].phase) || !InLoop(s'.tasks[t].phase))
    && s'.tasks == s.tasks[t := s.tasks[t].(phase := s'.tasks[t].phase)]
  }

  lemma MovesWakesNone(s: State, s': State, t: nat)
    requires MovesOn(s, s', t)
    ensures WakesNone(s, s')
  {
  }

  lemma EnableWakesNone(s: State, t: nat) requires t < |s.tasks| ensures WakesNone(s, DoEnable(s, t)) {}

  lemma SelectMoves(s: State, t: nat, choice: nat)
    requires t < |s.tasks| && Locked(s.tasks[t].phase)
    ensures MovesOn(s, DoAdvance(s, t, choice), t)
  {
    hide AfterFilter, AfterTry;
  }

  lemma OutsideMoves(s: State, t: nat, choice: nat)
    requires t < |s.tasks| && !Locked(s.tasks[t].phase) && !s.tasks[t].phase.Start? && !s.tasks[t].phase.Unowned?
    ensures MovesOn(s, DoAdvance(s, t, choice), t)
  {
  }

  lemma OtherWakesNone(s: State, l: Label)
    requires !l.Advance? && !Notifies(s, l)
    ensures WakesNone(s, Step(s, l))
  {
    hide DoAdvance;
  }

  lemma StepWakesNone(s: State, l: Label)
    requires !Notifies(s, l)
    ensures WakesNone(s, Step(s, l))
  {
    if l.Advance? {
      var t := l.task;
      if t < |s.tasks| {
        if s.tasks[t].phase.Start? {
          EnableWakesNone(s, t);
        } else {
          if Locked(s.tasks[t].phase) {
            SelectMoves(s, t, l.choice);
          } else {
            OutsideMoves(s, t, l.choice);
          }
          hide DoAdvance, MovesOn, WakesNone, Locked;
          MovesWakesNone(s, Step(s, l), t);
        }
      }
    } else {
      OtherWakesNone(s, l);
    }
  }

  lemma WokenStep(s: State, l: Label, t: nat)
    requires var r := Step(s, l); Under(r, t) && r.tasks[t].woken
    ensures Notifies(s, l) || (Under(s, t) && s.tasks[t].woken)
  {
    hide Step, Notifies;
    if !Notifies(s, l) {
      StepWakesNone(s, l);
    }
  }

  /** In every run, a caller that finds itself woken was notified after it last enabled its future. */
  lemma {:induction false} WokenWasNotified(limits: Limits, labels: seq<Label>, t: nat)
    requires var s := Run(limits, labels); Under(s, t) && s.tasks[t].woken
    ensures NotifiedSince(limits, labels, t)
  {
    hide Step, Notifies, Under;
    var n := |labels| - 1;
    NobodyAtFirst(limits, labels, t);
    var before := labels[..n];
    var s := Run(limits, before);
    assert labels[..|labels|] == labels;
    WokenStep(s, labels[n], t);
    if Notifies(s, labels[n]) {
      assert Since(limits, labels, n, t);
    } else {
      WokenWasNotified(limits, before, t);
      var i :| 0 <= i < n && Notifies(Run(limits, before[..i]), before[i]) && Since(limits, before, i, t);
      SinceLonger(limits, labels, i, t);
    }
  }

  lemma NobodyAtFirst(limits: Limits, labels: seq<Label>, t: nat)
    requires Under(Run(limits, labels), t)
    ensures labels != []
  {
  }

  lemma SinceLonger(limits: Limits, labels: seq<Label>, i: nat, t: nat)
    requires i < |labels| - 1
    requires Since(limits, labels[..|labels| - 1], i, t) && Under(Run(limits, labels), t)
    requires var before := labels[..|labels| - 1]; Notifies(Run(limits, before[..i]), before[i])
    ensures NotifiedSince(limits, labels, t)
  {
    hide Run, Notifies, Under;
    var before := labels[..|labels| - 1];
    assert before[..i] == labels[..i];
    forall j | i < j <= |labels|
      ensures Under(Run(limits, labels[..j]), t)
    {
      if j <= |before| {
        assert before[..j] == labels[..j];
      } else {
        assert labels[..j] == labels;
      }
    }
  }

  /** This step changes what waiting callers could use, without notifying them itself. */
  predicate Changes(s: State, l: Label) {
    match l
    case DropLease(k) => k < |s.leases| && s.leases[k].live
    case SetMaximum(id, m) => id < |s.channels| && s.channels[id].maximum != m
    case ObserveShut(id) => id < |s.channels| && s.channels[id].sender.Shut? && !s.channels[id].retired
    case Retire(id) => id < |s.channels|
    case Finish(id) => id < |s.channels|
    case Close => s.lock.None?
    case _ => false
  }

  function ChangesIn(limits: Limits, labels: seq<Label>): nat {
    if labels == [] then 0
    else
      var n := |labels| - 1;
      ChangesIn(limits, labels[..n]) + if Changes(Run(limits, labels[..n]), labels[n]) then 1 else 0
  }

  /** The notifications that followed a change one step later. */
  function CallsIn(limits: Limits, labels: seq<Label>): nat {
    if labels == [] then 0
    else
      var n := |labels| - 1;
      CallsIn(limits, labels[..n]) + if labels[n].Notify? && Run(limits, labels[..n]).owed > 0 then 1 else 0
  }

  lemma OwesOneMore(s: State, l: Label)
    requires LeasesFit(s.leases, |s.channels|)
    requires forall k :: 0 <= k < |s.leases| && s.leases[k].live && s.leases[k].member < |s.channels| ==>
      s.channels[s.leases[k].member].active > 0
    ensures Step(s, l).owed ==
      s.owed + (if Changes(s, l) then 1 else 0) - if l.Notify? && s.owed > 0 then 1 else 0
  {
    hide DoAdvance, DoArrive, DoConnected, DoFail, DoGiveUp, RetireListed;
    match l
    case Advance(t, choice) => AdvanceOwes(s, t, choice);
    case Arrive(bytes) => ArriveOwes(s, bytes);
    case Connected(t, c) => ConnectedOwes(s, t, c);
    case Fail(t) => FailOwes(s, t);
    case GiveUp(t) => GiveUpOwes(s, t);
    case _ =>
  }

  lemma AdvanceOwes(s: State, t: nat, choice: nat)
    ensures DoAdvance(s, t, choice).owed == s.owed
  {
    hide AfterFilter, AfterTry, WakeAll;
  }

  lemma ArriveOwes(s: State, bytes: nat) ensures DoArrive(s, bytes).owed == s.owed {}
  lemma ConnectedOwes(s: State, t: nat, c: Channel) ensures DoConnected(s, t, c).owed == s.owed {}
  lemma FailOwes(s: State, t: nat) ensures DoFail(s, t).owed == s.owed {}
  lemma GiveUpOwes(s: State, t: nat) ensures DoGiveUp(s, t).owed == s.owed {}

  lemma LiveIsCounted(limits: Limits, labels: seq<Label>)
    ensures var s := Run(limits, labels);
      forall k :: 0 <= k < |s.leases| && s.leases[k].live && s.leases[k].member < |s.channels| ==>
        s.channels[s.leases[k].member].active > 0
  {
    hide Run;
    var s := Run(limits, labels);
    Http2Counters.RunCountsExactly(limits, labels);
    forall k | 0 <= k < |s.leases| && s.leases[k].live && s.leases[k].member < |s.channels|
      ensures s.channels[s.leases[k].member].active > 0
    {
      PoolSpec.LeaseReleased(s.leases, k, s.leases[k].member);
    }
  }

  /** In every run each change is announced exactly once: what is owed is the changes less the calls. */
  lemma {:induction false} EachChangeAnnouncedOnce(limits: Limits, labels: seq<Label>)
    ensures Run(limits, labels).owed + CallsIn(limits, labels) == ChangesIn(limits, labels)
  {
    hide Step, Changes;
    if labels != [] {
      var n := |labels| - 1;
      EachChangeAnnouncedOnce(limits, labels[..n]);
      RunLocks(limits, labels[..n]);
      LiveIsCounted(limits, labels[..n]);
      OwesOneMore(Run(limits, labels[..n]), labels[n]);
    }
  }

  /** A number of steps of one caller, with nothing in between. */
  function Steps(s: State, t: nat, n: nat): State
    decreases n
  {
    if n == 0 then s else Steps(DoAdvance(s, t, 0), t, n - 1)
  }

  /**
   * A parked caller stays exactly where it is until it is woken. Once woken it enables a fresh
   * future and then holds the lock at the start of a selection, or leaves if the pool is closed,
   * and nothing else changes.
   */
  lemma WokenSelectsAgain(s: State, t: nat)
    requires t < |s.tasks| && s.tasks[t].phase.Parked? && s.lock.None?
    ensures !s.tasks[t].woken ==> Steps(s, t, 1) == s
    ensures s.tasks[t].woken ==>
      Steps(s, t, 3) == if s.closed then s.(tasks := s.tasks[t := Task(s.tasks[t].bytes, Leaving, false)])
        else s.(tasks := s.tasks[t := Task(s.tasks[t].bytes, Retaining(0), false)], lock := Some(t), disturbed := false)
  {
    if s.tasks[t].woken {
      var one := DoWake(s, t);
      var two := DoEnable(one, t);
      assert Steps(s, t, 3) == Steps(one, t, 2) == Steps(two, t, 1) == Steps(DoLock(two, t), t, 0);
      assert two.tasks == s.tasks[t := Task(s.tasks[t].bytes, Enabled, false)];
      assert DoLock(two, t).tasks == s.tasks[t := DoLock(two, t).tasks[t]];
    }
  }

  /** The callers after a notification that this one has sent itself, before it goes on in `phase`. */
  function AllWoken(s: State, t: nat, phase: Phase): seq<Task>
    requires t < |s.tasks|
  {
    WakeAll(s.tasks)[t := Task(s.tasks[t].bytes, phase, true)]
  }

  /**
   * An opener whose dial succeeds in an open pool lists the new channel last, lays down the
   * flag, wakes everybody and selects again.
   */
  lemma PublisherSelectsAgain(s: State, t: nat, c: Channel)
    requires t < |s.tasks| && s.tasks[t].phase.Establishing? && s.lock.None? && !s.closed && c.active == 0
    ensures Steps(DoConnected(s, t, c), t, 2) ==
      s.(list := s.list + [|s.channels|], channels := s.channels + [c], connecting := false,
         tasks := AllWoken(s, t, Start), disturbed := true)
  {
    var one := DoConnected(s, t, c);
    var two := DoRelease(one, t);
    var three := DoNotifyOwner(two, t, true);
    assert Steps(one, t, 2) == Steps(two, t, 1) == Steps(three, t, 0);
    assert three.tasks == AllWoken(s, t, Start);
  }

  /** An opener that fails lays down the flag, wakes everybody and leaves, and what it held in waiting is given back. */
  lemma FailedOpenerLeaves(s: State, t: nat)
    requires t < |s.tasks| && s.tasks[t].phase.Establishing? && s.lock.None?
    requires s.waitingRequests > 0 && s.waitingBytes >= s.tasks[t].bytes
    ensures Steps(DoFail(s, t), t, 2) ==
      s.(connecting := false, tasks := AllWoken(s, t, Done), disturbed := true,
         waitingRequests := s.waitingRequests - 1, waitingBytes := s.waitingBytes - s.tasks[t].bytes)
  {
    var one := DoFail(s, t);
    var two := DoNotifyOwner(one, t, false);
    var three := DoLeave(two, t);
    assert Steps(one, t, 2) == Steps(two, t, 1) == Steps(three, t, 0);
    assert three.tasks == AllWoken(s, t, Done);
  }
}
