/** The HTTP/2 pool refines the bounded pool, and with it inherits its bounds and its closing rule. */
module Http2Bounds {
  import opened Http2Pool
  import opened Http2Accounting
  import opened Http2Counters
  import PoolSpec

  function Live(channels: seq<Channel>): set<nat> {
    set id | 0 <= id < |channels| && !channels[id].retired
  }

  /** Channels among `ids` that are not retired. */
  function ServingIn(channels: seq<Channel>, ids: seq<nat>): nat {
    PoolSpec.CountIn(Live(channels), ids)
  }

  function Members(s: State): set<nat> { PoolSpec.Ids(s.list) }

  function RetiredMembers(s: State): set<nat> {
    set id | id in s.list && id < |s.channels| && s.channels[id].retired
  }

  ghost function OpeningOf(s: State): PoolSpec.Opening {
    if exists t :: 0 <= t < |s.tasks| && s.tasks[t].phase.Establishing? then PoolSpec.Dialing
    else if exists t :: 0 <= t < |s.tasks| && s.tasks[t].phase.Pushed? then PoolSpec.Published
    else PoolSpec.Idle
  }

  ghost function Abs(s: State): PoolSpec.View {
    PoolSpec.View(s.limits.connections, Members(s), RetiredMembers(s), OpeningOf(s), s.closed)
  }

  // -------------------------------------------------------------------- sizes

  lemma AbsSizes(s: State)
    requires ListFits(s.list, |s.channels|)
    ensures |Members(s)| == |s.list|
    ensures |Members(s) - RetiredMembers(s)| == ServingIn(s.channels, s.list)
  {
    PoolSpec.CountInDistinct(Live(s.channels), s.list);
    assert Members(s) - RetiredMembers(s) == PoolSpec.Ids(s.list) * Live(s.channels);
  }

  // -------------------------------------------------------------- the counting

  /** A count taken while channels retire can only be too high. */
  predicate CountCovers(s: State) {
    forall t :: 0 <= t < |s.tasks| ==>
      match s.tasks[t].phase
      case Counting(i, n) => i <= |s.list| && n >= ServingIn(s.channels, s.list[..i])
      case _ => true
  }

  predicate RetiredGrows(a: seq<Channel>, b: seq<Channel>) {
    |a| == |b| && forall i :: 0 <= i < |a| && a[i].retired ==> b[i].retired
  }

  lemma ServingShrinks(a: seq<Channel>, b: seq<Channel>, ids: seq<nat>)
    requires RetiredGrows(a, b)
    ensures ServingIn(b, ids) <= ServingIn(a, ids)
  {
    PoolSpec.CountInShrinks(Live(a), Live(b), ids);
  }

  /** The list stays, channels only retire, and no count starts above zero or advances. */
  predicate CountsStay(s: State, s': State) {
    && s'.list == s.list && RetiredGrows(s.channels, s'.channels)
    && forall t :: 0 <= t < |s'.tasks| && s'.tasks[t].phase.Counting? ==>
         (t < |s.tasks| && s'.tasks[t].phase == s.tasks[t].phase) || s'.tasks[t].phase == Counting(0, 0)
  }

  lemma CoversAfterOther(s: State, s': State)
    requires CountCovers(s) && CountsStay(s, s')
    ensures CountCovers(s')
  {
    forall t | 0 <= t < |s'.tasks| && s'.tasks[t].phase.Counting?
      ensures s'.tasks[t].phase.next <= |s'.list|
      ensures s'.tasks[t].phase.serving >= ServingIn(s'.channels, s'.list[..s'.tasks[t].phase.next])
    {
      ServingShrinks(s.channels, s'.channels, s.list[..s'.tasks[t].phase.next]);
    }
  }

  /** Nobody takes up, publishes for or lays down the opener's role. */
  predicate OpenersStay(s: State, s': State) {
    && |s.tasks| <= |s'.tasks|
    && forall t :: 0 <= t < |s'.tasks| ==>
         var before := if t < |s.tasks| then s.tasks[t].phase else Start;
         (s'.tasks[t].phase.Establishing? <==> before.Establishing?) && (s'.tasks[t].phase.Pushed? <==> before.Pushed?)
  }

  lemma OpeningStays(s: State, s': State)
    requires OpenersStay(s, s')
    ensures OpeningOf(s') == OpeningOf(s)
  {
    if t :| 0 <= t < |s.tasks| && s.tasks[t].phase.Establishing? {
      assert s'.tasks[t].phase.Establishing?;
    }
    if t :| 0 <= t < |s.tasks| && s.tasks[t].phase.Pushed? {
      assert s'.tasks[t].phase.Pushed?;
    }
  }

  /** Nothing a bounded pool would notice, except members retiring and the pool closing. */
  predicate Quiet(s: State, s': State) {
    && CountsStay(s, s') && OpenersStay(s, s')
    && s'.limits == s.limits && (s.closed ==> s'.closed)
  }

  lemma QuietRefines(s: State, s': State)
    requires Quiet(s, s')
    ensures PoolSpec.Moves(Abs(s), Abs(s'))
  {
    OpeningStays(s, s');
    assert PoolSpec.Shrinks(Abs(s), Abs(s'));
  }

  lemma QuietEnable(s: State, t: nat)
    requires t < |s.tasks| && s.tasks[t].phase.Start? ensures Quiet(s, DoEnable(s, t)) {}
  lemma QuietLock(s: State, t: nat)
    requires t < |s.tasks| && s.tasks[t].phase.Enabled? ensures Quiet(s, DoLock(s, t)) {}
  lemma QuietSet(s: State, t: nat, p: Phase)
    requires t < |s.tasks| && (s.tasks[t].phase.Filtering? || s.tasks[t].phase.Trying?)
    requires !Owns(p) && (p.Counting? ==> p == Counting(0, 0))
    ensures Quiet(s, Set(s, t, p))
  {
  }
  lemma QuietTake(s: State, t: nat, id: nat)
    requires t < |s.tasks| && s.tasks[t].phase.Taking? ensures Quiet(s, DoTake(s, t, id)) {}
  lemma QuietDiscard(s: State, t: nat, id: nat, q: seq<nat>)
    requires t < |s.tasks| && s.tasks[t].phase.Discarding? ensures Quiet(s, DoDiscard(s, t, id, q)) {}
  lemma QuietNotifyOwner(s: State, t: nat, again: bool)
    requires t < |s.tasks| && s.tasks[t].phase.Unowned? ensures Quiet(s, DoNotifyOwner(s, t, again)) {}
  lemma QuietWake(s: State, t: nat) requires t < |s.tasks| && s.tasks[t].phase.Parked? ensures Quiet(s, DoWake(s, t)) {}
  lemma QuietLeave(s: State, t: nat)
    requires t < |s.tasks| && s.tasks[t].phase.Leaving? ensures Quiet(s, DoLeave(s, t)) {}
  lemma QuietArrive(s: State, bytes: nat) ensures Quiet(s, DoArrive(s, bytes)) {}
  lemma QuietGiveUp(s: State, t: nat) ensures Quiet(s, DoGiveUp(s, t)) {}
  lemma QuietDrop(s: State, l: nat) ensures Quiet(s, DoDropLease(s, l)) {}
  lemma QuietEvent(s: State, l: Label) ensures Quiet(s, DoChannelEvent(s, l)) {}
  lemma QuietNotify(s: State) ensures Quiet(s, Step(s, Notify)) {}
  lemma QuietClose(s: State) ensures Quiet(s, DoClose(s)) {}

  // ------------------------------------------------------------ the loud steps

  lemma CoversAfterCount(s: State, t: nat, i: nat, n: nat)
    requires Shape(s) && CountCovers(s) && t < |s.tasks| && s.tasks[t].phase == Counting(i, n)
    ensures CountCovers(DoCount(s, t, i, n))
  {
    hide Shape;
    assert i <= |s.list| && n >= ServingIn(s.channels, s.list[..i]);
    if i < |s.list| {
      assert s.list[..i + 1][..i] == s.list[..i];
    }
  }

  lemma NoOpener(s: State)
    requires Shape(s) && !s.connecting
    ensures OpeningOf(s) == PoolSpec.Idle
  {
  }

  /** The one opener decides what the pool is doing. */
  lemma OpenerDecides(s: State, t: nat)
    requires Shape(s) && t < |s.tasks| && Owns(s.tasks[t].phase)
    ensures OpeningOf(s) == if s.tasks[t].phase.Establishing? then PoolSpec.Dialing else PoolSpec.Published
  {
    assert forall u :: 0 <= u < |s.tasks| && Owns(s.tasks[u].phase) ==> u == t;
  }

  lemma CountRefines(s: State, t: nat, i: nat, n: nat)
    requires Shape(s) && CountCovers(s) && t < |s.tasks| && s.tasks[t].phase == Counting(i, n)
    ensures PoolSpec.Moves(Abs(s), Abs(DoCount(s, t, i, n)))
  {
    hide OpeningOf, OneOpener;
    var s' := DoCount(s, t, i, n);
    if s'.tasks[t].phase.Establishing? {
      assert s.list[..i] == s.list;
      AbsSizes(s);
      NoOpener(s);
      ShapeAfterCount(s, t, i, n);
      OpenerDecides(s', t);
      assert PoolSpec.BeginsOpen(Abs(s), Abs(s'));
    } else {
      QuietExceptCount(s, s');
    }
  }

  lemma QuietExceptCount(s: State, s': State)
    requires OpenersStay(s, s') && s'.list == s.list && s'.channels == s.channels && s'.limits == s.limits &&
      s'.closed == s.closed
    ensures PoolSpec.Moves(Abs(s), Abs(s'))
  {
    OpeningStays(s, s');
    assert PoolSpec.Shrinks(Abs(s), Abs(s'));
  }

  lemma RetainRefines(s: State, t: nat, i: nat)
    requires t < |s.tasks| && s.tasks[t].phase.Retaining?
    ensures PoolSpec.Moves(Abs(s), Abs(DoRetain(s, t, i)))
  {
    var s' := DoRetain(s, t, i);
    OpeningStays(s, s');
    assert PoolSpec.Shrinks(Abs(s), Abs(s'));
  }

  lemma ConnectedRefines(s: State, t: nat, c: Channel)
    requires Shape(s)
    ensures PoolSpec.Moves(Abs(s), Abs(DoConnected(s, t, c)))
  {
    hide OpeningOf, OneOpener;
    var s' := DoConnected(s, t, c);
    if s' == s {
      QuietExceptCount(s, s);
    } else {
      OpenerDecides(s, t);
      ShapeAfterConnected(s, t, c);
      OpenerDecides(s', t);
      var id := |s.channels|;
      PoolSpec.IdsSnoc(s.list, id);
      assert RetiredMembers(s') == RetiredMembers(s) + if c.retired then {id} else {};
      PublishRefines(Abs(s), Abs(s'), id, c.retired);
    }
  }

  lemma PublishRefines(v: PoolSpec.View, w: PoolSpec.View, id: nat, retired: bool)
    requires v.opening == PoolSpec.Dialing && !v.closed && id !in v.members && id !in v.retired
    requires w == v.(opening := PoolSpec.Published, members := v.members + {id},
                     retired := v.retired + if retired then {id} else {})
    ensures PoolSpec.Moves(v, w)
  {
    assert PoolSpec.Publishes(v, w, id);
  }

  /** The opener lays its role down, with or without a new member. */
  lemma EndRefines(s: State, s': State, t: nat)
    requires Shape(s) && Shape(s') && t < |s.tasks| && Owns(s.tasks[t].phase)
    requires !s'.connecting && s'.list == s.list && s'.channels == s.channels && s'.limits == s.limits &&
      s'.closed == s.closed
    ensures PoolSpec.Moves(Abs(s), Abs(s'))
  {
    OpenerDecides(s, t);
    NoOpener(s');
    assert PoolSpec.EndsOpen(Abs(s), Abs(s'));
  }

  /** Nobody else counts while one caller holds the lock in another phase, or while it is free. */
  lemma NobodyCounts(s: State, t: nat)
    requires Shape(s)
    requires s.lock.None? || (t < |s.tasks| && Locked(s.tasks[t].phase) && !s.tasks[t].phase.Counting?)
    ensures forall u :: 0 <= u < |s.tasks| ==> !s.tasks[u].phase.Counting?
  {
    assert forall u :: 0 <= u < |s.tasks| && s.tasks[u].phase.Counting? ==> Locked(s.tasks[u].phase);
  }

  lemma CoversAfterRetain(s: State, t: nat, i: nat)
    requires Shape(s) && t < |s.tasks| && s.tasks[t].phase.Retaining?
    ensures CountCovers(DoRetain(s, t, i))
  {
    hide Shape;
    NobodyCounts(s, t);
  }

  lemma CoversAfterConnected(s: State, t: nat, c: Channel)
    requires Shape(s) && CountCovers(s)
    ensures CountCovers(DoConnected(s, t, c))
  {
    hide Shape;
    if s.lock.None? {
      NobodyCounts(s, t);
    }
  }

  // ---------------------------------------------------------------- refinement

  ghost predicate Refines(s: State, s': State) {
    CountCovers(s') && PoolSpec.Moves(Abs(s), Abs(s'))
  }

  lemma RefinesWhenQuiet(s: State, s': State)
    requires CountCovers(s) && Quiet(s, s')
    ensures Refines(s, s')
  {
    CoversAfterOther(s, s');
    QuietRefines(s, s');
  }

  lemma ReleaseRefines(s: State, t: nat)
    requires Shape(s) && CountCovers(s) && t < |s.tasks| && s.tasks[t].phase.Pushed?
    ensures Refines(s, DoRelease(s, t))
  {
    hide Shape, CountCovers, Abs, PoolSpec.Moves;
    var s' := DoRelease(s, t);
    if s.lock.None? {
      ShapeAfterRelease(s, t);
      EndRefines(s, s', t);
      CoversAfterOther(s, s');
    } else {
      RefinesWhenQuiet(s, s);
    }
  }

  lemma FailRefines(s: State, t: nat)
    requires Shape(s) && CountCovers(s)
    ensures Refines(s, DoFail(s, t))
  {
    hide Shape, CountCovers, Abs, PoolSpec.Moves;
    var s' := DoFail(s, t);
    if s' == s {
      RefinesWhenQuiet(s, s);
    } else {
      ShapeAfterOpener(s, Fail(t), t);
      EndRefines(s, s', t);
      CoversAfterOther(s, s');
    }
  }

  lemma AdvanceRefines(s: State, t: nat, choice: nat)
    requires Shape(s) && CountCovers(s)
    ensures Refines(s, DoAdvance(s, t, choice))
  {
    hide Shape, CountCovers, Quiet, Abs, PoolSpec.Moves,
         DoRetain, AfterFilter, AfterTry, DoTake, DoDiscard, DoCount, DoEnable, DoLock, DoLeave, DoRelease,
           DoNotifyOwner, DoWake;
    NoChangeIsQuiet(s);
    if t >= |s.tasks| {
      RefinesWhenQuiet(s, s);
      return;
    }
    match s.tasks[t].phase
    case Start => QuietEnable(s, t); RefinesWhenQuiet(s, DoEnable(s, t));
    case Enabled => QuietLock(s, t); RefinesWhenQuiet(s, DoLock(s, t));
    case Retaining(i) => CoversAfterRetain(s, t, i); RetainRefines(s, t, i);
    case Filtering(i, e, load) =>
      QuietSet(s, t, AfterFilter(s, i, e, load));
      RefinesWhenQuiet(s, Set(s, t, AfterFilter(s, i, e, load)));
    case Trying(q) =>
      QuietSet(s, t, AfterTry(s, q, choice));
      RefinesWhenQuiet(s, Set(s, t, AfterTry(s, q, choice)));
    case Taking(id) => QuietTake(s, t, id); RefinesWhenQuiet(s, DoTake(s, t, id));
    case Discarding(id, q) => QuietDiscard(s, t, id, q); RefinesWhenQuiet(s, DoDiscard(s, t, id, q));
    case Counting(i, n) => CoversAfterCount(s, t, i, n); CountRefines(s, t, i, n);
    case Pushed => ReleaseRefines(s, t);
    case Unowned(again) => QuietNotifyOwner(s, t, again); RefinesWhenQuiet(s, DoNotifyOwner(s, t, again));
    case Parked => QuietWake(s, t); RefinesWhenQuiet(s, DoWake(s, t));
    case Leaving => QuietLeave(s, t); RefinesWhenQuiet(s, DoLeave(s, t));
    case _ => RefinesWhenQuiet(s, s);
  }

  lemma NoChangeIsQuiet(s: State)
    ensures Quiet(s, s)
  {
  }

  /** Every step of every interleaving is a move of the bounded pool. */
  lemma StepRefines(s: State, l: Label)
    requires Shape(s) && CountCovers(s)
    ensures Refines(s, Step(s, l))
  {
    hide Shape, CountCovers, Quiet, Abs, PoolSpec.Moves,
         DoAdvance, DoArrive, DoConnected, DoFail, DoGiveUp, DoDropLease, DoChannelEvent, DoClose;
    match l
    case Arrive(bytes) => QuietArrive(s, bytes); RefinesWhenQuiet(s, DoArrive(s, bytes));
    case Advance(t, choice) => AdvanceRefines(s, t, choice);
    case Connected(t, c) => CoversAfterConnected(s, t, c); ConnectedRefines(s, t, c);
    case Fail(t) => FailRefines(s, t);
    case GiveUp(t) => QuietGiveUp(s, t); RefinesWhenQuiet(s, DoGiveUp(s, t));
    case DropLease(lease) => QuietDrop(s, lease); RefinesWhenQuiet(s, DoDropLease(s, lease));
    case Notify => QuietNotify(s); RefinesWhenQuiet(s, Step(s, Notify));
    case Close => QuietClose(s); RefinesWhenQuiet(s, DoClose(s));
    case _ => QuietEvent(s, l); RefinesWhenQuiet(s, DoChannelEvent(s, l));
  }

  // ---------------------------------------------------------------------- runs

  ghost predicate PoolInv(s: State) {
    Shape(s) && Counters(s) && CountCovers(s) && PoolSpec.Bounded(Abs(s))
  }

  lemma InitialInv(limits: Limits)
    ensures PoolInv(Initial(limits))
  {
    assert Members(Initial(limits)) == {};
  }

  lemma {:induction false} RunInv(limits: Limits, labels: seq<Label>)
    ensures PoolInv(Run(limits, labels)) && Run(limits, labels).limits == limits
  {
    hide Shape, Counters, CountCovers, Abs, PoolSpec.Moves, PoolSpec.Bounded, Step;
    if labels == [] {
      InitialInv(limits);
    } else {
      var n := |labels| - 1;
      var s := Run(limits, labels[..n]);
      RunInv(limits, labels[..n]);
      RunCountsExactly(limits, labels);
      StepRefines(s, labels[n]);
      PoolSpec.MovesKeepBounded(Abs(s), Abs(Step(s, labels[n])));
      StepKeepsLimits(s, labels[n]);
    }
  }

  lemma SelectionKeepsLimits(s: State, t: nat, choice: nat)
    requires t < |s.tasks| && Locked(s.tasks[t].phase)
    ensures DoAdvance(s, t, choice).limits == s.limits
  {
    hide AfterFilter, AfterTry;
  }

  lemma AdvanceKeepsLimits(s: State, t: nat, choice: nat)
    ensures DoAdvance(s, t, choice).limits == s.limits
  {
    hide AfterFilter, AfterTry, DoRetain, DoTake, DoDiscard, DoCount;
    if t < |s.tasks| && Locked(s.tasks[t].phase) {
      SelectionKeepsLimits(s, t, choice);
    }
  }

  lemma StepKeepsLimits(s: State, l: Label)
    ensures Step(s, l).limits == s.limits
  {
    hide DoAdvance;
    if l.Advance? {
      AdvanceKeepsLimits(s, l.task, l.choice);
    }
  }

  /**
   * In every interleaving: serving connections never exceed the limit, all connections never
   * exceed it by more than one, and at most one caller is opening a connection.
   */
  lemma ConnectionsBounded(limits: Limits, labels: seq<Label>)
    ensures var s := Run(limits, labels);
      && ServingIn(s.channels, s.list) <= limits.connections
      && |s.list| <= limits.connections + 1
      && OneOpener(s)
  {
    hide Run, Counters, CountCovers;
    RunInv(limits, labels);
    AbsSizes(Run(limits, labels));
  }

  // ------------------------------------------------------------------- closing

  /** What a successful close leaves fixed: no opener, no new member, no new lease. */
  ghost predicate StaysClosed(s: State, s': State) {
    && CloseSucceeds(s')
    && Members(s') <= Members(s)
    && |s'.leases| == |s.leases|
    && forall l :: 0 <= l < |s.leases| && s'.leases[l].live ==> s.leases[l].live
  }

  lemma ClosedAdvance(s: State, t: nat, choice: nat)
    requires Shape(s) && CloseSucceeds(s)
    ensures StaysClosed(s, DoAdvance(s, t, choice))
  {
    assert s.lock.None?;
    assert t < |s.tasks| ==> !Owns(s.tasks[t].phase);
  }

  lemma ClosedStep(s: State, l: Label)
    requires Shape(s) && CloseSucceeds(s)
    ensures StaysClosed(s, Step(s, l))
  {
    hide DoAdvance;
    match l
    case Advance(t, choice) => ClosedAdvance(s, t, choice);
    case Fail(t) => assert t < |s.tasks| ==> !Owns(s.tasks[t].phase);
    case Connected(t, c) => assert t < |s.tasks| ==> !Owns(s.tasks[t].phase);
    case _ =>
  }

  /** After a successful close nothing becomes live again, in any continuation. */
  lemma {:induction false} NothingLivesAfterClose(limits: Limits, labels: seq<Label>, more: seq<Label>)
    requires CloseSucceeds(Run(limits, labels))
    ensures StaysClosed(Run(limits, labels), Run(limits, labels + more))
  {
    hide Shape, Step, CloseSucceeds;
    if more == [] {
      assert labels + more == labels;
    } else {
      var n := |more| - 1;
      var all, before := labels + more, labels + more[..n];
      assert all[..|all| - 1] == before && all[|all| - 1] == more[n];
      NothingLivesAfterClose(limits, labels, more[..n]);
      RunInv(limits, before);
      ClosedStep(Run(limits, before), more[n]);
    }
  }
}
