/** Where every lease of the HTTP/2 pool comes from, in every interleaving. */
module Http2Grants {
  import opened Basics
  import opened Http2Pool
  import opened Http2Accounting
  import opened Http2Counters
  import PoolSpec

  // --------------------------------------------------------------- what is seen

  /** The channel that this step of the caller's filter looks at. */
  predicate LooksAt(s: State, l: Label, t: nat, id: nat, load: Load) {
    && l.Advance? && l.task == t && t < |s.tasks|
    && s.tasks[t].phase.Filtering? && s.tasks[t].phase.load == load
    && s.tasks[t].phase.next < |s.list| && s.list[s.tasks[t].phase.next] == id && id < |s.channels|
  }

  /** The caller finds the channel not retired. */
  predicate SeesUnretired(s: State, l: Label, t: nat, id: nat) {
    LooksAt(s, l, t, id, Unread) && !s.channels[id].retired
  }

  /** The caller loads how many requests the channel has. */
  predicate SeesActive(s: State, l: Label, t: nat, id: nat, active: nat) {
    LooksAt(s, l, t, id, Unretired) && s.channels[id].active == active
  }

  /** The caller loads the channel's maximum and finds it larger than what it loaded before. */
  predicate SeesRoom(s: State, l: Label, t: nat, id: nat, active: nat) {
    LooksAt(s, l, t, id, Active(active)) && active < s.channels[id].maximum
  }

  /** The caller looks at the sender of a channel it may take and finds it open. */
  predicate SeesOpen(s: State, l: Label, t: nat, id: nat) {
    && l.Advance? && l.task == t && t < |s.tasks| && s.tasks[t].phase.Trying?
    && l.choice < |s.tasks[t].phase.queue| && s.tasks[t].phase.queue[l.choice] == id
    && id < |s.channels| && s.channels[id].sender == Open
  }

  // ------------------------------------------------------------- over whole runs

  function Before(limits: Limits, labels: seq<Label>, i: nat): State
    requires i < |labels|
  {
    Run(limits, labels[..i])
  }

  ghost predicate FoundUnretired(limits: Limits, labels: seq<Label>, t: nat, id: nat) {
    exists i :: 0 <= i < |labels| && SeesUnretired(Before(limits, labels, i), labels[i], t, id)
  }

  ghost predicate LoadedActive(limits: Limits, labels: seq<Label>, t: nat, id: nat, active: nat) {
    exists j :: 0 <= j < |labels| && SeesActive(Before(limits, labels, j), labels[j], t, id, active) &&
      FoundUnretired(limits, labels[..j], t, id)
  }

  /** The caller found the channel not retired, then loaded its count, then a larger maximum. */
  ghost predicate Vetted(limits: Limits, labels: seq<Label>, t: nat, id: nat) {
    exists k, active :: 0 <= k < |labels| && SeesRoom(Before(limits, labels, k), labels[k], t, id, active) &&
      LoadedActive(limits, labels[..k], t, id, active)
  }

  /** Some caller vetted the channel and then found its sender open. */
  ghost predicate Granted(limits: Limits, labels: seq<Label>, id: nat) {
    exists m, t :: 0 <= m < |labels| && SeesOpen(Before(limits, labels, m), labels[m], t, id) &&
      Vetted(limits, labels[..m], t, id)
  }

  ghost predicate AllVetted(limits: Limits, labels: seq<Label>, t: nat, ids: seq<nat>) {
    forall id :: id in ids ==> Vetted(limits, labels, t, id)
  }

  ghost predicate PhaseVetted(limits: Limits, labels: seq<Label>, list: seq<nat>, t: nat, p: Phase) {
    match p
    case Filtering(n, eligible, load) =>
      && AllVetted(limits, labels, t, eligible)
      && (load.Unretired? ==> n < |list| && FoundUnretired(limits, labels, t, list[n]))
      && (load.Active? ==> n < |list| && LoadedActive(limits, labels, t, list[n], load.active))
    case Trying(queue) => AllVetted(limits, labels, t, queue)
    case Discarding(_, queue) => AllVetted(limits, labels, t, queue)
    case Taking(id) => Granted(limits, labels, id)
    case _ => true
  }

  ghost predicate TasksVetted(limits: Limits, labels: seq<Label>, s: State) {
    forall t :: 0 <= t < |s.tasks| ==> PhaseVetted(limits, labels, s.list, t, s.tasks[t].phase)
  }

  ghost predicate LeasesGranted(limits: Limits, labels: seq<Label>, s: State) {
    forall l :: 0 <= l < |s.leases| ==> Granted(limits, labels, s.leases[l].member)
  }

  // ------------------------------------------------------------ more steps keep it

  lemma FoundStays(limits: Limits, labels: seq<Label>, l: Label, t: nat, id: nat)
    requires FoundUnretired(limits, labels, t, id)
    ensures FoundUnretired(limits, labels + [l], t, id)
  {
    var i :| 0 <= i < |labels| && SeesUnretired(Before(limits, labels, i), labels[i], t, id);
    assert (labels + [l])[..i] == labels[..i] && (labels + [l])[i] == labels[i];
  }

  lemma LoadedStays(limits: Limits, labels: seq<Label>, l: Label, t: nat, id: nat, active: nat)
    requires LoadedActive(limits, labels, t, id, active)
    ensures LoadedActive(limits, labels + [l], t, id, active)
  {
    hide FoundUnretired, SeesActive, Run;
    var j :| 0 <= j < |labels| && SeesActive(Before(limits, labels, j), labels[j], t, id, active) &&
      FoundUnretired(limits, labels[..j], t, id);
    assert (labels + [l])[..j] == labels[..j] && (labels + [l])[j] == labels[j];
  }

  lemma VettedStays(limits: Limits, labels: seq<Label>, l: Label, t: nat, id: nat)
    requires Vetted(limits, labels, t, id)
    ensures Vetted(limits, labels + [l], t, id)
  {
    hide LoadedActive, SeesRoom, Run;
    var k, active :| 0 <= k < |labels| && SeesRoom(Before(limits, labels, k), labels[k], t, id, active) &&
      LoadedActive(limits, labels[..k], t, id, active);
    assert (labels + [l])[..k] == labels[..k] && (labels + [l])[k] == labels[k];
  }

  lemma GrantedStays(limits: Limits, labels: seq<Label>, l: Label, id: nat)
    requires Granted(limits, labels, id)
    ensures Granted(limits, labels + [l], id)
  {
    hide Vetted, SeesOpen, Run;
    var m, t :| 0 <= m < |labels| && SeesOpen(Before(limits, labels, m), labels[m], t, id) &&
      Vetted(limits, labels[..m], t, id);
    assert (labels + [l])[..m] == labels[..m] && (labels + [l])[m] == labels[m];
  }

  lemma AllStay(limits: Limits, labels: seq<Label>, l: Label, t: nat, ids: seq<nat>)
    requires AllVetted(limits, labels, t, ids)
    ensures AllVetted(limits, labels + [l], t, ids)
  {
    forall id | id in ids
      ensures Vetted(limits, labels + [l], t, id)
    {
      VettedStays(limits, labels, l, t, id);
    }
  }

  lemma PhaseStays(limits: Limits, labels: seq<Label>, l: Label, list: seq<nat>, t: nat, p: Phase)
    requires PhaseVetted(limits, labels, list, t, p)
    ensures PhaseVetted(limits, labels + [l], list, t, p)
  {
    hide FoundUnretired, LoadedActive, AllVetted, Granted;
    match p
    case Filtering(n, eligible, load) =>
      AllStay(limits, labels, l, t, eligible);
      match load {
        case Unretired => FoundStays(limits, labels, l, t, list[n]);
        case Active(active) => LoadedStays(limits, labels, l, t, list[n], active);
        case Unread =>
      }
    case Trying(queue) => AllStay(limits, labels, l, t, queue);
    case Discarding(_, queue) => AllStay(limits, labels, l, t, queue);
    case Taking(id) => GrantedStays(limits, labels, l, id);
    case _ =>
  }

  // ---------------------------------------------------------------- one step more

  /** The last step of a run. */
  lemma LastStep(limits: Limits, labels: seq<Label>, l: Label)
    ensures Before(limits, labels + [l], |labels|) == Run(limits, labels) && (labels + [l])[..|labels|] == labels
    ensures Run(limits, labels + [l]) == Step(Run(limits, labels), l)
  {
    assert (labels + [l])[..|labels|] == labels;
  }

  /** What one more load of the filter establishes. */
  lemma FilterVets(limits: Limits, labels: seq<Label>, l: Label, t: nat)
    requires var s := Run(limits, labels); l.Advance? && l.task == t && t < |s.tasks| && s.tasks[t].phase.Filtering?
    requires var s := Run(limits, labels); PhaseVetted(limits, labels, s.list, t, s.tasks[t].phase)
    ensures var s := Run(limits, labels); var p := s.tasks[t].phase;
      PhaseVetted(limits, labels + [l], s.list, t, AfterFilter(s, p.next, p.eligible, p.load))
  {
    hide Run, FoundUnretired, LoadedActive, AllVetted, Vetted;
    var s := Run(limits, labels);
    var p := s.tasks[t].phase;
    PhaseStays(limits, labels, l, s.list, t, p);
    if p.next < |s.list| && s.list[p.next] < |s.channels| {
      var id := s.list[p.next];
      if p.load.Unread? && !s.channels[id].retired {
        VetsUnretired(limits, labels, l, t, id);
      } else if p.load.Unretired? {
        VetsActive(limits, labels, l, t, id, s.channels[id].active);
      } else if p.load.Active? && p.load.active < s.channels[id].maximum {
        VetsRoom(limits, labels, l, t, id, p.load.active);
        AllMore(limits, labels + [l], t, p.eligible, id);
      }
    }
  }

  lemma AllMore(limits: Limits, labels: seq<Label>, t: nat, ids: seq<nat>, id: nat)
    requires AllVetted(limits, labels, t, ids) && Vetted(limits, labels, t, id)
    ensures AllVetted(limits, labels, t, ids + [id])
  {
  }

  lemma VetsUnretired(limits: Limits, labels: seq<Label>, l: Label, t: nat, id: nat)
    requires SeesUnretired(Run(limits, labels), l, t, id)
    ensures FoundUnretired(limits, labels + [l], t, id)
  {
    LastStep(limits, labels, l);
    assert SeesUnretired(Before(limits, labels + [l], |labels|), (labels + [l])[|labels|], t, id);
  }

  lemma VetsActive(limits: Limits, labels: seq<Label>, l: Label, t: nat, id: nat, active: nat)
    requires SeesActive(Run(limits, labels), l, t, id, active) && FoundUnretired(limits, labels, t, id)
    ensures LoadedActive(limits, labels + [l], t, id, active)
  {
    hide FoundUnretired;
    LastStep(limits, labels, l);
    assert SeesActive(Before(limits, labels + [l], |labels|), (labels + [l])[|labels|], t, id, active);
  }

  lemma VetsRoom(limits: Limits, labels: seq<Label>, l: Label, t: nat, id: nat, active: nat)
    requires SeesRoom(Run(limits, labels), l, t, id, active) && LoadedActive(limits, labels, t, id, active)
    ensures Vetted(limits, labels + [l], t, id)
  {
    hide LoadedActive;
    LastStep(limits, labels, l);
    assert SeesRoom(Before(limits, labels + [l], |labels|), (labels + [l])[|labels|], t, id, active);
  }

  lemma VetsOpen(limits: Limits, labels: seq<Label>, l: Label, t: nat, id: nat)
    requires SeesOpen(Run(limits, labels), l, t, id) && Vetted(limits, labels, t, id)
    ensures Granted(limits, labels + [l], id)
  {
    hide Vetted;
    LastStep(limits, labels, l);
    assert SeesOpen(Before(limits, labels + [l], |labels|), (labels + [l])[|labels|], t, id);
  }

  /** What a look at a sender establishes. */
  lemma TryVets(limits: Limits, labels: seq<Label>, l: Label, t: nat)
    requires var s := Run(limits, labels); l.Advance? && l.task == t && t < |s.tasks| && s.tasks[t].phase.Trying?
    requires var s := Run(limits, labels); PhaseVetted(limits, labels, s.list, t, s.tasks[t].phase)
    ensures var s := Run(limits, labels);
      PhaseVetted(limits, labels + [l], s.list, t, AfterTry(s, s.tasks[t].phase.queue, l.choice))
  {
    hide Run, Vetted;
    var s := Run(limits, labels);
    var queue, i := s.tasks[t].phase.queue, l.choice;
    PhaseStays(limits, labels, l, s.list, t, s.tasks[t].phase);
    if i < |queue| && queue[i] < |s.channels| {
      if s.channels[queue[i]].sender.Open? {
        VetsOpen(limits, labels, l, t, queue[i]);
      } else {
        assert forall id :: id in queue[..i] + queue[i + 1..] ==> id in queue;
      }
    }
  }

  // -------------------------------------------------------------------- every step

  /** Phases that a step may leave without more to show. */
  predicate Free(p: Phase) {
    !p.Filtering? && !p.Trying? && !p.Discarding? && !p.Taking?
  }

  predicate Stays(s: State, s': State, u: nat)
    requires u < |s'.tasks|
  {
    || Free(s'.tasks[u].phase)
    || (u < |s.tasks| && s'.tasks[u].phase == s.tasks[u].phase && s'.list == s.list)
  }

  /** While one caller holds the lock, nobody else does. */
  lemma OneHolder(s: State, t: nat, u: nat)
    requires LockFits(s) && t < |s.tasks| && u < |s.tasks| && t != u
    ensures Locked(s.tasks[t].phase) ==> Free(s.tasks[u].phase)
  {
  }

  lemma HolderLocks(s: State, u: nat)
    requires LockFits(s) && u < |s.tasks| && !Free(s.tasks[u].phase)
    ensures s.lock == Some(u)
  {
  }

  /** Everybody else keeps its phase, and the list changes only under `retain`. */
  predicate Apart(s: State, s': State, t: nat)
    requires t < |s.tasks|
  {
    && |s'.tasks| == |s.tasks|
    && (forall u :: 0 <= u < |s.tasks| && u != t ==> s'.tasks[u].phase == s.tasks[u].phase)
    && (s'.list == s.list || s.tasks[t].phase.Retaining?)
  }

  /** The caller ends up with nothing to show for. */
  predicate Lands(s': State, t: nat) {
    t < |s'.tasks| && (Free(s'.tasks[t].phase) || s'.tasks[t].phase == Filtering(0, [], Unread))
  }

  lemma EnableApart(s: State, t: nat)
    requires t < |s.tasks|
    ensures Apart(s, DoEnable(s, t), t) && Lands(DoEnable(s, t), t)
  {
  }

  lemma LockApart(s: State, t: nat)
    requires t < |s.tasks| && Free(s.tasks[t].phase)
    ensures Apart(s, DoLock(s, t), t) && Lands(DoLock(s, t), t)
  {
  }

  lemma RetainApart(s: State, t: nat, i: nat)
    requires t < |s.tasks| && s.tasks[t].phase == Retaining(i)
    ensures Apart(s, DoRetain(s, t, i), t) && Lands(DoRetain(s, t, i), t)
  {
  }

  lemma SetApart(s: State, t: nat, p: Phase)
    requires t < |s.tasks|
    ensures Apart(s, Set(s, t, p), t) && Set(s, t, p).list == s.list && Set(s, t, p).tasks[t].phase == p
  {
  }

  lemma TakeApart(s: State, t: nat, id: nat)
    requires t < |s.tasks|
    ensures Apart(s, DoTake(s, t, id), t) && (DoTake(s, t, id) == s || Lands(DoTake(s, t, id), t))
  {
  }

  lemma DiscardApart(s: State, t: nat, id: nat, queue: seq<nat>)
    requires t < |s.tasks|
    ensures var s' := DoDiscard(s, t, id, queue);
      Apart(s, s', t) && s'.list == s.list && (s' == s || s'.tasks[t].phase == Trying(queue))
  {
  }

  lemma CountApart(s: State, t: nat, i: nat, n: nat)
    requires t < |s.tasks|
    ensures Apart(s, DoCount(s, t, i, n), t) && Lands(DoCount(s, t, i, n), t)
  {
  }

  lemma ReleaseApart(s: State, t: nat)
    requires t < |s.tasks| && Free(s.tasks[t].phase)
    ensures Apart(s, DoRelease(s, t), t) && Lands(DoRelease(s, t), t)
  {
  }

  lemma OwnerApart(s: State, t: nat, again: bool)
    requires t < |s.tasks|
    ensures Apart(s, DoNotifyOwner(s, t, again), t) && Lands(DoNotifyOwner(s, t, again), t)
  {
  }

  lemma WakeApart(s: State, t: nat)
    requires t < |s.tasks| && Free(s.tasks[t].phase)
    ensures Apart(s, DoWake(s, t), t) && Lands(DoWake(s, t), t)
  {
  }

  lemma LeaveApart(s: State, t: nat)
    requires t < |s.tasks| && Free(s.tasks[t].phase)
    ensures Apart(s, DoLeave(s, t), t) && Lands(DoLeave(s, t), t)
  {
  }

  /** Where a step of the caller itself leads. */
  lemma MoverMoves(s: State, t: nat, choice: nat)
    requires t < |s.tasks|
    ensures var s', p := DoAdvance(s, t, choice), s.tasks[t].phase;
      && Apart(s, s', t)
      && (p.Filtering? ==> s'.list == s.list && s'.tasks[t].phase == AfterFilter(s, p.next, p.eligible, p.load))
      && (p.Trying? ==> s'.list == s.list && s'.tasks[t].phase == AfterTry(s, p.queue, choice))
      && (p.Discarding? ==> s' == s || (s'.list == s.list && s'.tasks[t].phase == Trying(p.queue)))
      && (p.Taking? ==> s' == s || Lands(s', t))
      && (Free(p) ==> Lands(s', t))
  {
    hide AfterFilter, AfterTry, Set, Apart, Lands, DoEnable, DoLock, DoRetain, DoTake, DoDiscard, DoCount, DoRelease,
      DoNotifyOwner, DoWake, DoLeave;
    match s.tasks[t].phase
    case Start => EnableApart(s, t);
    case Enabled => LockApart(s, t);
    case Retaining(i) => RetainApart(s, t, i);
    case Filtering(i, eligible, load) => SetApart(s, t, AfterFilter(s, i, eligible, load));
    case Trying(queue) => SetApart(s, t, AfterTry(s, queue, choice));
    case Taking(id) => TakeApart(s, t, id);
    case Discarding(id, queue) => DiscardApart(s, t, id, queue);
    case Counting(i, n) => CountApart(s, t, i, n);
    case Pushed => ReleaseApart(s, t);
    case Unowned(again) => OwnerApart(s, t, again);
    case Parked => WakeApart(s, t);
    case Leaving => LeaveApart(s, t);
    case _ => NothingApart(s, t);
  }

  lemma NothingApart(s: State, t: nat)
    requires t < |s.tasks|
    ensures Apart(s, s, t) && (Free(s.tasks[t].phase) ==> Lands(s, t))
  {
  }

  lemma AdvanceStays(s: State, t: nat, choice: nat, u: nat)
    requires LockFits(s) && t < |s.tasks| && u < |s.tasks| && u != t
    ensures |DoAdvance(s, t, choice).tasks| == |s.tasks| && Stays(s, DoAdvance(s, t, choice), u)
  {
    hide DoAdvance, LockFits, AfterFilter, AfterTry;
    MoverMoves(s, t, choice);
    OneHolder(s, t, u);
  }

  lemma EventStays(s: State, l: Label, u: nat)
    requires LockFits(s) && !l.Advance? && u < |Step(s, l).tasks|
    ensures Stays(s, Step(s, l), u)
  {
    hide DoAdvance, LockFits;
    if u < |s.tasks| && !Free(s.tasks[u].phase) {
      HolderLocks(s, u);
    }
  }

  /** Whoever is not the one that moves keeps its phase and, while it filters, its list. */
  lemma OthersStay(s: State, l: Label, u: nat)
    requires Shape(s) && u < |Step(s, l).tasks| && !(l.Advance? && l.task == u)
    ensures Stays(s, Step(s, l), u)
  {
    hide OneOpener, ListFits, LeasesFit, DoAdvance, Stays;
    if !l.Advance? {
      EventStays(s, l, u);
    } else if l.task < |s.tasks| {
      MoverMoves(s, l.task, l.choice);
      AdvanceStays(s, l.task, l.choice, u);
    } else {
      NoSuchTask(s, l);
      NothingStays(s, u);
    }
  }

  lemma NothingStays(s: State, u: nat)
    requires u < |s.tasks|
    ensures Stays(s, s, u)
  {
  }

  lemma MoverVetted(limits: Limits, labels: seq<Label>, t: nat, choice: nat)
    requires var s := Run(limits, labels); t < |s.tasks| && PhaseVetted(limits, labels, s.list, t, s.tasks[t].phase)
    ensures var s, l := Run(limits, labels), Advance(t, choice); var s' := Step(s, l);
      t < |s'.tasks| && PhaseVetted(limits, labels + [l], s'.list, t, s'.tasks[t].phase)
  {
    hide Run, AllVetted, Granted, FoundUnretired, LoadedActive, AfterFilter, AfterTry, DoAdvance;
    var s, l := Run(limits, labels), Advance(t, choice);
    MoverMoves(s, t, choice);
    match s.tasks[t].phase
    case Filtering(_, _, _) => FilterVets(limits, labels, l, t);
    case Trying(_) => TryVets(limits, labels, l, t);
    case Discarding(_, queue) => AllStay(limits, labels, l, t, queue);
    case Taking(id) =>
      GrantedStays(limits, labels, l, id);
      NothingVetted(limits, labels + [l], t);
    case _ => NothingVetted(limits, labels + [l], t);
  }

  lemma NothingVetted(limits: Limits, labels: seq<Label>, t: nat)
    ensures AllVetted(limits, labels, t, [])
  {
  }

  lemma StepVets(limits: Limits, labels: seq<Label>, l: Label)
    requires var s := Run(limits, labels); Shape(s) && TasksVetted(limits, labels, s)
    ensures TasksVetted(limits, labels + [l], Step(Run(limits, labels), l))
  {
    hide Run, PhaseVetted, Shape;
    var s := Run(limits, labels);
    var s' := Step(s, l);
    forall u | 0 <= u < |s'.tasks|
      ensures PhaseVetted(limits, labels + [l], s'.list, u, s'.tasks[u].phase)
    {
      hide Step;
      if l.Advance? && l.task == u {
        if u < |s.tasks| {
          MoverVetted(limits, labels, u, l.choice);
        } else {
          NoSuchTask(s, l);
        }
      } else {
        OthersStay(s, l, u);
        if Free(s'.tasks[u].phase) {
          FreeVetted(limits, labels + [l], s'.list, u, s'.tasks[u].phase);
        } else {
          PhaseStays(limits, labels, l, s.list, u, s.tasks[u].phase);
        }
      }
    }
  }

  lemma NoSuchTask(s: State, l: Label)
    requires l.Advance? && l.task >= |s.tasks|
    ensures Step(s, l) == s
  {
  }

  lemma FreeVetted(limits: Limits, labels: seq<Label>, list: seq<nat>, t: nat, p: Phase)
    requires Free(p)
    ensures PhaseVetted(limits, labels, list, t, p)
  {
  }

  predicate SameMembers(s: State, s': State) {
    |s'.leases| == |s.leases| && forall i :: 0 <= i < |s.leases| ==> s'.leases[i].member == s.leases[i].member
  }

  predicate OneMore(s: State, l: Label, s': State) {
    && l.Advance? && l.task < |s.tasks| && s.tasks[l.task].phase.Taking?
    && s'.leases == s.leases + [PoolSpec.Lease(s.tasks[l.task].phase.id, true)]
  }

  lemma AdvanceLeases(s: State, t: nat, choice: nat)
    ensures var s' := DoAdvance(s, t, choice); SameMembers(s, s') || OneMore(s, Advance(t, choice), s')
  {
    hide AfterFilter, AfterTry;
  }

  /** A step adds a lease only for a caller that has been granted one. */
  lemma LeasesStay(s: State, l: Label)
    ensures SameMembers(s, Step(s, l)) || OneMore(s, l, Step(s, l))
  {
    hide DoAdvance;
    if l.Advance? {
      AdvanceLeases(s, l.task, l.choice);
    }
  }

  lemma StepGrants(limits: Limits, labels: seq<Label>, l: Label)
    requires var s := Run(limits, labels); TasksVetted(limits, labels, s) && LeasesGranted(limits, labels, s)
    ensures LeasesGranted(limits, labels + [l], Step(Run(limits, labels), l))
  {
    hide Run, Step, Granted;
    var s := Run(limits, labels);
    var s' := Step(s, l);
    LeasesStay(s, l);
    forall i | 0 <= i < |s'.leases|
      ensures Granted(limits, labels + [l], s'.leases[i].member)
    {
      if i < |s.leases| {
        GrantedStays(limits, labels, l, s.leases[i].member);
      } else {
        assert PhaseVetted(limits, labels, s.list, l.task, s.tasks[l.task].phase);
        GrantedStays(limits, labels, l, s.tasks[l.task].phase.id);
      }
    }
  }

  lemma {:induction false} RunVets(limits: Limits, labels: seq<Label>)
    ensures TasksVetted(limits, labels, Run(limits, labels)) && LeasesGranted(limits, labels, Run(limits, labels))
  {
    hide Step, PhaseVetted, Granted, Shape, Counters;
    if labels != [] {
      var before, l := labels[..|labels| - 1], labels[|labels| - 1];
      assert labels == before + [l];
      RunVets(limits, before);
      RunCountsExactly(limits, before);
      StepVets(limits, before, l);
      StepGrants(limits, before, l);
    }
  }

  /**
   * In every run, each lease was granted on a channel that its caller found not retired, whose
   * loaded count it then found below the loaded maximum, and whose sender it then found open.
   */
  lemma EveryLeaseGranted(limits: Limits, labels: seq<Label>, l: nat)
    requires l < |Run(limits, labels).leases|
    ensures Granted(limits, labels, Run(limits, labels).leases[l].member)
  {
    hide Run, Granted, PhaseVetted;
    RunVets(limits, labels);
  }
}
