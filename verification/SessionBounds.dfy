/** The machine of waiting callers keeps the bounds of the pool, for both clients. */
module SessionBounds {
  import opened SessionWaiting
  import SessionWakeups
  import PoolSpec

  function Draining(s: State): set<nat> {
    set id | id in s.listed && id < |s.sessions| && s.sessions[id].retired
  }

  function Abs(s: State): PoolSpec.View {
    PoolSpec.View(s.maximum, PoolSpec.Ids(s.listed), Draining(s), s.setup, s.closed)
  }

  predicate Listed(s: State) {
    SessionWakeups.ListFits(s) && PoolSpec.Distinct(s.listed)
  }

  /** Sessions only retire or leave the list. */
  predicate Lessens(s: State, s': State) {
    && s'.maximum == s.maximum && s'.setup == s.setup && (s.closed ==> s'.closed)
    && |s'.sessions| == |s.sessions|
    && (forall id :: 0 <= id < |s.sessions| && s.sessions[id].retired ==> s'.sessions[id].retired)
    && (forall id :: id in s'.listed ==> id in s.listed)
    && PoolSpec.Distinct(s'.listed)
  }

  lemma LessensMoves(s: State, s': State)
    requires Listed(s) && Lessens(s, s')
    ensures Listed(s') && PoolSpec.Moves(Abs(s), Abs(s'))
  {
    assert PoolSpec.Shrinks(Abs(s), Abs(s'));
  }

  lemma {:induction false} PrunedDistinct(s: State, list: seq<nat>)
    requires PoolSpec.Distinct(list)
    ensures PoolSpec.Distinct(Pruned(s, list))
  {
    if list != [] {
      var n := |list| - 1;
      PrunedDistinct(s, list[..n]);
      SessionWakeups.PrunedMembers(s, list[..n]);
      var rest := Pruned(s, list[..n]);
      assert forall i :: 0 <= i < |rest| ==> rest[i] in list[..n];
    }
  }

  lemma RetiredLessens(s: State, id: nat)
    requires Listed(s) && id < |s.sessions|
    ensures Lessens(s, Retired(s, id))
  {
    SessionWakeups.WithoutMembers(s.listed, id);
  }

  /** A notification concerns callers only. */
  predicate SamePool(s: State, s': State) {
    && s'.maximum == s.maximum && s'.setup == s.setup && s'.closed == s.closed
    && s'.sessions == s.sessions && s'.listed == s.listed
  }

  lemma NotifiedSame(s: State)
    ensures SamePool(s, Notified(s))
  {
  }

  /** Looking at a session leaves it, retires it or takes it. */
  lemma TryPool(s: State, t: nat, rest: seq<nat>, seen: nat, choice: nat, stale: bool, fails: bool, next: Offer)
    requires t < |s.callers| && choice < |rest| && rest[choice] < |s.sessions|
    ensures var s', id := DoTry(s, t, rest, seen, choice, stale, fails, next), rest[choice];
      || SamePool(s, s')
      || SamePool(Retired(s, id), s')
      || SamePool(SetSession(s, id, s.sessions[id].(active := s.sessions[id].active + 1, offer := next)), s')
  {
    hide Retired, Notified;
    SessionWakeups.RetiredCallers(s, rest[choice]);
    forall x: State
      ensures SamePool(x, Notified(x))
    {
      NotifiedSame(x);
    }
  }

  lemma TryLessens(s: State, t: nat, rest: seq<nat>, seen: nat, choice: nat, stale: bool, fails: bool, next: Offer)
    requires Listed(s) && t < |s.callers|
    ensures Lessens(s, DoTry(s, t, rest, seen, choice, stale, fails, next))
  {
    hide Retired;
    if choice < |rest| && rest[choice] < |s.sessions| {
      hide DoTry;
      RetiredLessens(s, rest[choice]);
      TryPool(s, t, rest, seen, choice, stale, fails, next);
    }
  }

  lemma CallerLessens(s: State, l: Label, t: nat)
    requires Listed(s) && t < |s.callers| && !l.Finish?
    ensures Lessens(s, DoCaller(s, l, t))
  {
    hide DoTry, Retired, Notified;
    var p := s.callers[t].phase;
    if l.Try? && p.Trying? {
      TryLessens(s, t, p.rest, p.seen, l.choice, l.stale, l.fails, l.next);
    } else if l.Retain? && l.id < |s.sessions| {
      RetiredLessens(s, l.id);
    } else if l.Begin? {
      SessionWakeups.PrunedMembers(s, s.listed);
      PrunedDistinct(s, s.listed);
    } else if l.Abort? {
      AbortSame(s, t);
    }
  }

  lemma AbortSame(s: State, t: nat)
    requires t < |s.callers|
    ensures SamePool(s, DoAbort(s, t))
  {
    hide Notified;
    forall x: State
      ensures SamePool(x, Notified(x))
    {
      NotifiedSame(x);
    }
  }

  /** The test before a setup is exact, so beginning one is the pool's move. */
  lemma OpenMoves(s: State, s': State)
    requires Listed(s) && SamePool(s.(setup := PoolSpec.Dialing), s') && s.setup.Idle? && !s.closed
    requires ServingIn(s) < s.maximum && |s.listed| <= s.maximum
    ensures Listed(s') && PoolSpec.Moves(Abs(s), Abs(s'))
  {
    PoolSpec.CountInDistinct(Live(s.sessions), s.listed);
    assert PoolSpec.Serving(Abs(s)) == PoolSpec.Ids(s.listed) * Live(s.sessions);
    assert Draining(s') == Draining(s);
    assert PoolSpec.BeginsOpen(Abs(s), Abs(s'));
  }

  lemma FinishMoves(s: State, t: nat, seen: nat)
    requires Listed(s) && t < |s.callers|
    ensures Listed(DoFinish(s, t, seen)) && PoolSpec.Moves(Abs(s), Abs(DoFinish(s, t, seen)))
  {
    hide PoolSpec.Moves, Abs, ServingIn;
    var s' := DoFinish(s, t, seen);
    if s'.setup != s.setup {
      OpenMoves(s, s');
    } else {
      LessensMoves(s, s');
    }
  }

  lemma PublishMoves(s: State, offer: Offer)
    requires Listed(s)
    ensures Listed(DoPool(s, Publish(offer))) && PoolSpec.Moves(Abs(s), Abs(DoPool(s, Publish(offer))))
  {
    var s', id := DoPool(s, Publish(offer)), |s.sessions|;
    if s.setup.Dialing? && !s.closed {
      PoolSpec.IdsSnoc(s.listed, id);
      assert Draining(s') == Draining(s);
      assert PoolSpec.Publishes(Abs(s), Abs(s'), id);
    } else {
      LessensMoves(s, s');
    }
  }

  lemma EndSetupMoves(s: State, ok: bool)
    requires Listed(s)
    ensures Listed(DoPool(s, EndSetup(ok))) && PoolSpec.Moves(Abs(s), Abs(DoPool(s, EndSetup(ok))))
  {
    hide Notified;
    var s' := DoPool(s, EndSetup(ok));
    if s.setup.Idle? {
      LessensMoves(s, s');
    } else {
      NotifiedSame(s.(setup := PoolSpec.Idle, callers := AfterSetup(s.callers, ok)));
      assert Draining(s') == Draining(s);
      assert PoolSpec.EndsOpen(Abs(s), Abs(s'));
    }
  }

  lemma PoolLessens(s: State, l: Label)
    requires Listed(s) && !l.Publish? && !l.EndSetup?
    ensures Lessens(s, DoPool(s, l))
  {
    hide Retired, Notified;
    forall x: State
      ensures SamePool(x, Notified(x))
    {
      NotifiedSame(x);
    }
    if l.RetireSession? && l.id < |s.sessions| {
      RetiredLessens(s, l.id);
    } else if l.DropLease? {
      SessionWakeups.WithoutMembers(s.listed, l.id);
    }
  }

  /** Every step of every interleaving, of either client, is a move of the bounded pool. */
  lemma StepRefines(s: State, l: Label)
    requires Listed(s)
    ensures Listed(Step(s, l)) && PoolSpec.Moves(Abs(s), Abs(Step(s, l)))
  {
    hide Listed, DoFinish, DoPool, DoTry, DoBegin, DoAbort, Abs, PoolSpec.Moves;
    if l.Publish? {
      PublishMoves(s, l.offer);
    } else if l.EndSetup? {
      EndSetupMoves(s, l.ok);
    } else if !OfCaller(l) {
      PoolLessens(s, l);
      LessensMoves(s, DoPool(s, l));
    } else if l.t >= |s.callers| {
      UnchangedMoves(s);
    } else if l.Finish? {
      var p := s.callers[l.t].phase;
      if p.Trying? && p.rest == [] {
        FinishMoves(s, l.t, p.seen);
      } else {
        UnchangedMoves(s);
      }
    } else {
      CallerLessens(s, l, l.t);
      LessensMoves(s, DoCaller(s, l, l.t));
    }
  }

  lemma UnchangedMoves(s: State)
    requires Listed(s)
    ensures PoolSpec.Moves(Abs(s), Abs(s))
  {
    LessensMoves(s, s);
  }

  lemma {:induction false} RunBounded(all: bool, maximum: nat, labels: seq<Label>)
    ensures var s := Run(all, maximum, labels); Listed(s) && PoolSpec.Bounded(Abs(s)) && s.maximum == maximum
  {
    hide Step, Listed, PoolSpec.Moves, PoolSpec.Bounded;
    if labels == [] {
      InitialBounded(all, maximum);
    } else {
      var n := |labels| - 1;
      var s, l := Run(all, maximum, labels[..n]), labels[n];
      RunBounded(all, maximum, labels[..n]);
      StepRefines(s, l);
      PoolSpec.MovesKeepBounded(Abs(s), Abs(Step(s, l)));
      MovesKeepLimit(Abs(s), Abs(Step(s, l)));
    }
  }

  lemma InitialBounded(all: bool, maximum: nat)
    ensures Listed(Initial(all, maximum)) && PoolSpec.Bounded(Abs(Initial(all, maximum)))
  {
    assert PoolSpec.Ids([]) == {};
  }

  lemma MovesKeepLimit(v: PoolSpec.View, w: PoolSpec.View)
    requires PoolSpec.Moves(v, w)
    ensures w.limit == v.limit
  {
  }

  /**
   * However callers arrive, wait, are woken and leave, serving sessions stay within the maximum
   * and listed ones within the maximum plus one.
   */
  lemma WaitersKeepBounds(all: bool, maximum: nat, labels: seq<Label>)
    ensures var s := Run(all, maximum, labels); ServingIn(s) <= maximum && |s.listed| <= maximum + 1
  {
    hide Run;
    RunBounded(all, maximum, labels);
    var s := Run(all, maximum, labels);
    PoolSpec.CountInDistinct(Live(s.sessions), s.listed);
    assert PoolSpec.Serving(Abs(s)) == PoolSpec.Ids(s.listed) * Live(s.sessions);
  }
}
