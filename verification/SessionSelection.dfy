/** Which session an undisturbed caller gets, for both clients: the first in its order that is ready. */
module SessionSelection {
  import opened SessionWaiting
  import opened SessionWakeups
  import opened SessionRetries
  import opened JsWaiting
  import PoolSpec

  /** The caller goes past this session: it is retired, has idled too long, is full or is spent. */
  predicate PassesOver(s: State, id: nat, stale: set<nat>) {
    id < |s.sessions| &&
    (s.sessions[id].retired || id in stale || s.sessions[id].offer == Full || s.sessions[id].offer == Spent)
  }

  /** The sessions that going past them retires. */
  predicate GivesUp(s: State, id: nat, stale: set<nat>) {
    id < |s.sessions| && !s.sessions[id].retired && (id in stale || s.sessions[id].offer == Spent)
  }

  /** The sessions after those that were given up among `ids` are retired. */
  function GivenUp(s: State, ids: seq<nat>, stale: set<nat>): (r: seq<Session>)
    ensures |r| == |s.sessions|
    ensures forall id :: 0 <= id < |r| ==>
      r[id] == if id in ids && GivesUp(s, id, stale) then s.sessions[id].(retired := true) else s.sessions[id]
  {
    seq(|s.sessions|, id requires 0 <= id < |s.sessions| =>
      if id in ids && GivesUp(s, id, stale) then s.sessions[id].(retired := true) else s.sessions[id])
  }

  predicate AllPassed(s: State, ids: seq<nat>, stale: set<nat>) {
    forall i :: 0 <= i < |ids| ==> PassesOver(s, ids[i], stale)
  }

  /** A step of the selection that goes past the first session left. */
  lemma PassStep(s: State, t: nat, stale: set<nat>)
    requires t < |s.callers| && s.callers[t].phase.Trying? && s.callers[t].phase.rest != []
    requires PassesOver(s, s.callers[t].phase.rest[0], stale) && QueueFits(s)
    ensures var p := s.callers[t].phase; var s' := DoTry(s, t, p.rest, p.seen, 0, p.rest[0] in stale, false, Full);
      && t < |s'.callers| && s'.callers[t].phase == Trying(p.rest[1..], p.seen)
      && s'.sessions == GivenUp(s, [p.rest[0]], stale) && QueueFits(s')
      && s'.setup == s.setup && s'.closed == s.closed && s'.maximum == s.maximum && s'.all == s.all
  {
    var p := s.callers[t].phase;
    var id, left := p.rest[0], Trying(p.rest[1..], p.seen);
    assert p.rest[..0] + p.rest[1..] == p.rest[1..];
    var s' := DoTry(s, t, p.rest, p.seen, 0, id in stale, false, Full);
    if GivesUp(s, id, stale) {
      PassRetires(s, t, id, left);
    } else {
      assert s' == Set(s, t, left);
    }
    assert s'.sessions == GivenUp(s, [id], stale);
  }

  lemma PassRetires(s: State, t: nat, id: nat, left: Phase)
    requires t < |s.callers| && s.callers[t].phase.Trying? && left.Trying? && id < |s.sessions| && QueueFits(s)
    ensures var s' := Passed(Set(Retired(s, id), t, left));
      && t < |s'.callers| && s'.callers[t].phase == left && QueueFits(s')
      && s'.sessions == s.sessions[id := s.sessions[id].(retired := true)]
      && s'.setup == s.setup && s'.closed == s.closed && s'.maximum == s.maximum && s'.all == s.all
  {
    var r := Set(Retired(s, id), t, left);
    assert QueueFits(r);
    assert t !in r.queue;
    NotifiedQueue(r);
  }

  lemma NotifiedQueue(s: State)
    requires QueueFits(s)
    ensures QueueFits(Notified(s))
    ensures forall t :: 0 <= t < |s.callers| && t !in s.queue ==> Notified(s).callers[t] == s.callers[t]
  {
    var s' := Notified(s);
    var n := if s.all || s.queue == [] then |s.queue| else 1;
    assert s.queue == s.queue[..n] + s.queue[n..];
    forall i | 0 <= i < |s'.queue|
      ensures s'.queue[i] < |s'.callers| && s'.callers[s'.queue[i]].phase.Waiting?
    {
      assert s'.queue[i] == s.queue[n + i];
    }
    forall t | 0 <= t < |s'.callers| && s'.callers[t].phase.Waiting?
      ensures t in s'.queue
    {
      assert t in s.queue && t !in s.queue[..n];
    }
  }

  lemma AloneStep(s: State, t: nat, stale: set<nat>)
    requires t < |s.callers| && s.callers[t].phase.Trying? && s.callers[t].phase.rest != []
    requires var p := s.callers[t].phase; var s' := DoTry(s, t, p.rest, p.seen, 0, p.rest[0] in stale, false, Full);
      t < |s'.callers| && (s'.callers[t].phase.Trying? ==> |s'.callers[t].phase.rest| < |p.rest|)
    ensures var p := s.callers[t].phase;
      Alone(s, t, stale) == Alone(DoTry(s, t, p.rest, p.seen, 0, p.rest[0] in stale, false, Full), t, stale)
  {
    hide DoTry, DoFinish;
  }

  lemma AloneEnds(s: State, t: nat, stale: set<nat>)
    requires t < |s.callers| && !s.callers[t].phase.Trying?
    ensures Alone(s, t, stale) == s
  {
  }

  /** Going past sessions changes what the caller thinks of none of the others. */
  lemma StillPasses(s: State, s': State, first: nat, id: nat, stale: set<nat>)
    requires s'.sessions == GivenUp(s, [first], stale) && PassesOver(s, first, stale)
    ensures PassesOver(s', id, stale) <==> PassesOver(s, id, stale)
    ensures id != first ==> (GivesUp(s', id, stale) <==> GivesUp(s, id, stale))
    ensures id == first ==> !GivesUp(s', id, stale)
  {
  }

  lemma StillAllPassed(s: State, s': State, first: nat, ids: seq<nat>, stale: set<nat>)
    requires s'.sessions == GivenUp(s, [first], stale) && AllPassed(s, [first] + ids, stale)
    ensures AllPassed(s', ids, stale)
  {
    var all := [first] + ids;
    assert PassesOver(s, all[0], stale);
    forall i | 0 <= i < |ids|
      ensures PassesOver(s', ids[i], stale)
    {
      assert ids[i] == all[i + 1];
      StillPasses(s, s', first, ids[i], stale);
    }
  }

  lemma GivenUpMore(s: State, s': State, first: nat, ids: seq<nat>, stale: set<nat>)
    requires s'.sessions == GivenUp(s, [first], stale) && PassesOver(s, first, stale)
    ensures GivenUp(s', ids, stale) == GivenUp(s, [first] + ids, stale)
  {
    forall id: nat | id < |s.sessions|
      ensures GivenUp(s', ids, stale)[id] == GivenUp(s, [first] + ids, stale)[id]
    {
      StillPasses(s, s', first, id, stale);
    }
  }

  lemma PassesOne(s: State, t: nat, stale: set<nat>) returns (s': State)
    requires t < |s.callers| && s.callers[t].phase.Trying? && s.callers[t].phase.rest != []
    requires PassesOver(s, s.callers[t].phase.rest[0], stale) && QueueFits(s)
    ensures t < |s'.callers| && Alone(s, t, stale) == Alone(s', t, stale)
    ensures var p := s.callers[t].phase; s'.callers[t].phase == Trying(p.rest[1..], p.seen)
    ensures s'.sessions == GivenUp(s, [s.callers[t].phase.rest[0]], stale) && QueueFits(s')
    ensures s'.setup == s.setup && s'.closed == s.closed && s'.maximum == s.maximum && s'.all == s.all
  {
    hide Alone, DoTry, QueueFits, PassesOver;
    var p := s.callers[t].phase;
    PassStep(s, t, stale);
    AloneStep(s, t, stale);
    s' := DoTry(s, t, p.rest, p.seen, 0, p.rest[0] in stale, false, Full);
  }

  lemma NoneGivenUp(s: State, stale: set<nat>)
    ensures GivenUp(s, [], stale) == s.sessions
  {
  }

  lemma FirstPassed(s: State, rest: seq<nat>, k: nat, stale: set<nat>)
    requires 0 < k <= |rest| && AllPassed(s, rest[..k], stale)
    ensures PassesOver(s, rest[0], stale) && rest[..k] == [rest[0]] + rest[1..][..k - 1]
    ensures rest[1..][k - 1..] == rest[k..]
  {
    assert rest[..k][0] == rest[0];
  }

  /** The selection up to its first session that is not passed over. */
  lemma {:induction false} PassesAll(s: State, t: nat, k: nat, stale: set<nat>) returns (s': State)
    requires t < |s.callers| && s.callers[t].phase.Trying? && k <= |s.callers[t].phase.rest| && QueueFits(s)
    requires AllPassed(s, s.callers[t].phase.rest[..k], stale)
    ensures t < |s'.callers| && Alone(s, t, stale) == Alone(s', t, stale)
    ensures var p := s.callers[t].phase; s'.callers[t].phase == Trying(p.rest[k..], p.seen)
    ensures s'.sessions == GivenUp(s, s.callers[t].phase.rest[..k], stale) && QueueFits(s')
    ensures s'.setup == s.setup && s'.closed == s.closed && s'.maximum == s.maximum && s'.all == s.all
    decreases k
  {
    hide Alone, DoTry, QueueFits, AllPassed, PassesOver, GivenUp;
    var p := s.callers[t].phase;
    if k == 0 {
      s' := s;
      assert p.rest[0..] == p.rest && p.rest[..0] == [];
      NoneGivenUp(s, stale);
    } else {
      var id, ids := p.rest[0], p.rest[1..][..k - 1];
      FirstPassed(s, p.rest, k, stale);
      var next := PassesOne(s, t, stale);
      StillAllPassed(s, next, id, ids, stale);
      s' := PassesAll(next, t, k - 1, stale);
      GivenUpMore(s, next, id, ids, stale);
    }
  }

  /**
   * An undisturbed caller takes the first session in its order that it does not go past, if that
   * one is ready: the session has one request more, the spent and the lapsed ones before it are
   * retired, no other session changes and the caller leaves with it.
   */
  lemma TakesFirstReady(s: State, t: nat, k: nat, stale: set<nat>)
    requires Shape(s) && t < |s.callers| && s.callers[t].phase.Trying? && k < |s.callers[t].phase.rest|
    requires var rest := s.callers[t].phase.rest;
      && AllPassed(s, rest[..k], stale) && !PassesOver(s, rest[k], stale)
      && rest[k] < |s.sessions| && s.sessions[rest[k]].offer == Ready
    ensures var rest, r := s.callers[t].phase.rest, Alone(s, t, stale); var c := s.sessions[rest[k]];
      && t < |r.callers| && r.callers[t] == Caller(Gone, false)
      && r.sessions == GivenUp(s, rest[..k], stale)[rest[k] := Session(c.active + 1, false, Full)]
  {
    hide Alone, Shape;
    ShapeQueue(s);
    var rest := s.callers[t].phase.rest;
    var s' := PassesAll(s, t, k, stale);
    assert rest[k..][0] == rest[k];
    TakesNow(s', t, stale);
  }

  lemma ShapeQueue(s: State)
    requires Shape(s)
    ensures QueueFits(s)
  {
  }

  lemma TakenParts(s: State, t: nat, id: nat)
    requires QueueFits(s) && t < |s.callers| && s.callers[t].phase.Trying? && id < |s.sessions|
    ensures var r := Passed(Taken(s, t, id, Full));
      && |r.callers| == |s.callers| && r.callers[t] == Caller(Gone, false)
      && r.sessions == s.sessions[id := Session(s.sessions[id].active + 1, s.sessions[id].retired, Full)]
  {
    hide Notified;
    var r := Taken(s, t, id, Full);
    assert QueueFits(r) && t !in r.queue;
    NotifiedQueue(r);
    NotifiedSessions(r);
    NotifiedLength(r);
  }

  lemma NotifiedLength(s: State)
    ensures |Notified(s).callers| == |s.callers|
  {
  }

  lemma TakesNow(s: State, t: nat, stale: set<nat>)
    requires QueueFits(s) && t < |s.callers| && s.callers[t].phase.Trying? && s.callers[t].phase.rest != []
    requires var id := s.callers[t].phase.rest[0];
      id < |s.sessions| && id !in stale && !s.sessions[id].retired && s.sessions[id].offer == Ready
    ensures var id, r := s.callers[t].phase.rest[0], Alone(s, t, stale);
      && t < |r.callers| && r.callers[t] == Caller(Gone, false)
      && r.sessions == s.sessions[id := Session(s.sessions[id].active + 1, false, Full)]
  {
    hide Alone, Passed, QueueFits;
    var p := s.callers[t].phase;
    TakenParts(s, t, p.rest[0]);
    var r := DoTry(s, t, p.rest, p.seen, 0, false, false, Full);
    assert r == Passed(Taken(s, t, p.rest[0], Full));
    AloneStep(s, t, stale);
    AloneEnds(r, t, stale);
  }

  /** If that one is broken the caller fails, and the JavaScript client retires it. */
  lemma FailsAtBroken(s: State, t: nat, k: nat, stale: set<nat>)
    requires Shape(s) && t < |s.callers| && s.callers[t].phase.Trying? && k < |s.callers[t].phase.rest|
    requires var rest := s.callers[t].phase.rest;
      && AllPassed(s, rest[..k], stale) && !PassesOver(s, rest[k], stale)
      && rest[k] < |s.sessions| && s.sessions[rest[k]].offer == Broken
    ensures var rest, r := s.callers[t].phase.rest, Alone(s, t, stale); var c := s.sessions[rest[k]];
      && t < |r.callers| && r.callers[t] == Caller(Gone, false)
      && r.sessions == GivenUp(s, rest[..k], stale)[rest[k] := c.(retired := !s.all)]
  {
    hide Alone, Shape;
    ShapeQueue(s);
    var rest := s.callers[t].phase.rest;
    var s' := PassesAll(s, t, k, stale);
    assert rest[k..][0] == rest[k];
    FailsNow(s', t, stale);
  }

  lemma FailedParts(s: State, t: nat, id: nat)
    requires QueueFits(s) && t < |s.callers| && s.callers[t].phase.Trying? && id < |s.sessions|
    ensures var r := Notified(Leave(Retired(s, id), t, Gone));
      && |r.callers| == |s.callers| && r.callers[t] == Caller(Gone, false)
      && r.sessions == s.sessions[id := s.sessions[id].(retired := true)]
  {
    hide Notified;
    var r := Leave(Retired(s, id), t, Gone);
    assert QueueFits(r) && t !in r.queue;
    NotifiedQueue(r);
    NotifiedSessions(r);
    NotifiedLength(r);
  }

  lemma FailsNow(s: State, t: nat, stale: set<nat>)
    requires QueueFits(s) && t < |s.callers| && s.callers[t].phase.Trying? && s.callers[t].phase.rest != []
    requires var id := s.callers[t].phase.rest[0];
      id < |s.sessions| && id !in stale && !s.sessions[id].retired && s.sessions[id].offer == Broken
    ensures var id, r := s.callers[t].phase.rest[0], Alone(s, t, stale);
      && t < |r.callers| && r.callers[t] == Caller(Gone, false)
      && r.sessions == s.sessions[id := s.sessions[id].(retired := !s.all)]
  {
    hide Alone, Notified, QueueFits, Retired;
    var p := s.callers[t].phase;
    var id := p.rest[0];
    FailedParts(s, t, id);
    var r := DoTry(s, t, p.rest, p.seen, 0, false, false, Full);
    if s.all {
      assert s.sessions[id := s.sessions[id].(retired := false)] == s.sessions;
    }
    AloneStep(s, t, stale);
    AloneEnds(r, t, stale);
  }

  /**
   * If it goes past them all, the caller opens a session exactly if none is being set up and the
   * sessions then left leave room; it waits for a setup under way in JavaScript, and otherwise
   * looks again or parks.
   */
  lemma GoesPastAll(s: State, t: nat, stale: set<nat>) returns (s': State)
    requires Shape(s) && !s.closed && t < |s.callers| && s.callers[t].phase.Trying?
    requires AllPassed(s, s.callers[t].phase.rest, stale)
    ensures s'.sessions == GivenUp(s, s.callers[t].phase.rest, stale)
    ensures s'.setup == s.setup && s'.maximum == s.maximum
    ensures var r := Alone(s, t, stale); var opens := s.setup.Idle? && ServingIn(s') < s.maximum &&
        |s'.listed| <= s.maximum;
      && t < |r.callers| && r.sessions == s'.sessions
      && (r.setup.Dialing? && s.setup.Idle? <==> opens)
      && (r.callers[t].phase.AtSetup? <==> opens || (!s.all && !s.setup.Idle?))
      && (!r.callers[t].phase.AtSetup? ==> r.callers[t].phase.Top? || r.callers[t].phase.Waiting?)
  {
    hide Alone, Shape, ServingIn;
    ShapeQueue(s);
    var rest := s.callers[t].phase.rest;
    assert rest[..|rest|] == rest && rest[|rest|..] == [];
    s' := PassesAll(s, t, |rest|, stale);
    LastStep(s', t, stale);
  }

  lemma LastStep(s: State, t: nat, stale: set<nat>)
    requires t < |s.callers| && s.callers[t].phase.Trying? && s.callers[t].phase.rest == []
    ensures Alone(s, t, stale) == DoFinish(s, t, s.callers[t].phase.seen)
  {
  }

  // ---------------------------------------------------------------------- order

  /** Whoever in the queue is woken, those before it are woken too or have left. */
  predicate Fair(s: State, s': State) {
    forall i, j :: 0 <= i < j < |s.queue| ==> !Overtakes(s', s.queue[i], s.queue[j])
  }

  predicate Overtakes(s': State, first: nat, second: nat) {
    && first < |s'.callers| && second < |s'.callers|
    && s'.callers[first].phase.Waiting? && s'.callers[second].phase.Signalled?
  }

  /** The queue and those in it are as they were. */
  predicate Queued(s: State, x: State) {
    && x.queue == s.queue && |x.callers| >= |s.callers|
    && forall i :: 0 <= i < |s.queue| && s.queue[i] < |s.callers| ==> x.callers[s.queue[i]] == s.callers[s.queue[i]]
  }

  lemma QueuedFair(s: State, x: State)
    requires QueueFits(s) && Queued(s, x)
    ensures Fair(s, x) && Fair(s, Notified(x))
  {
    var n := if x.all || x.queue == [] then |x.queue| else 1;
    forall i, j | 0 <= i < j < |s.queue|
      ensures !Overtakes(x, s.queue[i], s.queue[j]) && !Overtakes(Notified(x), s.queue[i], s.queue[j])
    {
      if s.queue[j] in x.queue[..n] {
        assert j < n && s.queue[i] == x.queue[..n][i];
      }
    }
  }

  lemma MoveQueued(s: State, t: nat, c: Caller)
    requires QueueFits(s) && t < |s.callers| && !s.callers[t].phase.Waiting?
    ensures Queued(s, s.(callers := s.callers[t := c]))
  {
  }

  lemma TryFair(s: State, t: nat, rest: seq<nat>, seen: nat, choice: nat, stale: bool, fails: bool, next: Offer)
    requires QueueFits(s) && t < |s.callers| && s.callers[t].phase.Trying?
    ensures Fair(s, DoTry(s, t, rest, seen, choice, stale, fails, next))
  {
    hide Notified, QueueFits, Fair, Queued, Retired;
    var same := s.(callers := s.callers[t := s.callers[t]]);
    MoveQueued(s, t, s.callers[t]);
    assert same == s;
    QueuedFair(s, s);
    if choice < |rest| && rest[choice] < |s.sessions| {
      var id, left := rest[choice], Trying(rest[..choice] + rest[choice + 1..], seen);
      RetiredVersion(s, id);
      MovedFair(s, Set(s, t, left), t, s.callers[t].(phase := left));
      MovedFair(s, Leave(s, t, Gone), t, Caller(Gone, false));
      MovedFair(s, Set(Retired(s, id), t, left), t, s.callers[t].(phase := left));
      MovedFair(s, Leave(Retired(s, id), t, Gone), t, Caller(Gone, false));
      MovedFair(s, Taken(s, t, id, next), t, Caller(Gone, false));
    }
  }

  lemma MovedFair(s: State, x: State, t: nat, c: Caller)
    requires QueueFits(s) && t < |s.callers| && s.callers[t].phase.Trying?
    requires x.queue == s.queue && x.callers == s.callers[t := c]
    ensures Fair(s, x) && Fair(s, Notified(x))
  {
    hide Notified;
    MoveQueued(s, t, c);
    QueuedFair(s, x);
  }

  lemma {:induction false} WithoutHead(list: seq<nat>, id: nat)
    requires PoolSpec.Distinct(list) && Without(list, id) != []
    ensures list != []
    ensures Without(list, id)[0] == if list[0] != id then list[0] else if |list| > 1 then list[1] else id
  {
    var n := |list| - 1;
    var front := list[..n];
    assert list == front + [list[n]];
    if Without(front, id) != [] {
      WithoutHead(front, id);
      WithoutMembers(front, id);
    } else {
      WithoutMembers(front, id);
      assert forall i :: 0 <= i < n ==> front[i] == id;
      assert n <= 1;
    }
  }

  lemma AbortFair(s: State, t: nat)
    requires QueueFits(s) && t < |s.callers|
    ensures Fair(s, DoAbort(s, t))
  {
    hide Notified, Fair, Queued;
    ItselfFair(s);
    if s.callers[t].phase.Waiting? {
      UnparkFair(s, t);
    } else {
      hide QueueFits;
      MoveQueued(s, t, Caller(Gone, false));
      var r := Leave(s, t, Gone);
      QueuedFair(s, r);
      DroppedFair(s, r, s.dropped || (!s.all && s.callers[t].woken));
    }
  }

  lemma DroppedFair(s: State, x: State, dropped: bool)
    requires Fair(s, x)
    ensures Fair(s, x.(dropped := dropped))
  {
  }

  lemma UnparkFair(s: State, t: nat)
    requires QueueFits(s) && t < |s.callers| && s.callers[t].phase.Waiting?
    ensures Fair(s, Passed(Leave(s, t, Gone).(queue := Without(s.queue, t))))
  {
    var r := Leave(s, t, Gone).(queue := Without(s.queue, t));
    var s' := Passed(r);
    WithoutMembers(s.queue, t);
    if !s.all && r.queue != [] {
      WithoutHead(s.queue, t);
      forall i, j | 0 <= i < j < |s.queue|
        ensures !Overtakes(s', s.queue[i], s.queue[j])
      {
        if s'.callers[s.queue[j]].phase.Signalled? {
          assert s.queue[j] in r.queue[..1];
          assert s.queue[j] == r.queue[0];
        }
      }
    }
  }

  lemma CallerFair(s: State, l: Label, t: nat)
    requires QueueFits(s) && t < |s.callers|
    ensures Fair(s, DoCaller(s, l, t))
  {
    hide QueueFits, Fair, DoTry, DoAbort, Notified, Retired, DoBegin, DoFinish;
    var p := s.callers[t].phase;
    ItselfFair(s);
    match l
    case Try(_, choice, stale, fails, next) =>
      if p.Trying? {
        TryFair(s, t, p.rest, p.seen, choice, stale, fails, next);
      }
    case Abort(_) => AbortFair(s, t);
    case Retain(_, id) =>
      if id < |s.sessions| {
        RetiredVersion(s, id);
        SameFair(s, Retired(s, id));
      }
    case _ => QuietFair(s, l, t);
  }

  lemma ItselfFair(s: State)
    requires QueueFits(s)
    ensures Fair(s, s)
  {
    QueuedFair(s, s);
  }

  lemma SameFair(s: State, x: State)
    requires QueueFits(s) && x.queue == s.queue && x.callers == s.callers
    ensures Fair(s, x)
  {
    QueuedFair(s, x);
  }

  /** The other steps of a caller wake nobody. */
  lemma QuietFair(s: State, l: Label, t: nat)
    requires QueueFits(s) && t < |s.callers| && !l.Try? && !l.Abort? && !l.Retain?
    ensures Fair(s, DoCaller(s, l, t))
  {
    hide Pruned, Serving, ServingIn;
  }

  lemma PoolFair(s: State, l: Label)
    requires QueueFits(s)
    ensures Fair(s, DoPool(s, l))
  {
    hide Notified, QueueFits, Fair, Queued, Retired;
    ItselfFair(s);
    match l
    case DropLease(id) => DropFair(s, id);
    case RetireSession(id) =>
      if id < |s.sessions| {
        RetiredVersion(s, id);
        NotedFair(s, Retired(s, id));
        NotedFair(s, SetSession(s, id, s.sessions[id].(retired := true)).(owed := s.owed + 1));
      }
    case EndSetup(ok) =>
      if !s.setup.Idle? {
        SetupFair(s, ok);
      }
    case Pay =>
      NotedFair(s, s);
      if s.owed > 0 {
        OwedFair(s);
      }
    case Arrive => ArriveFair(s);
    case _ => OtherFair(s, l);
  }

  lemma NotedFair(s: State, x: State)
    requires QueueFits(s) && x.queue == s.queue && x.callers == s.callers
    ensures Fair(s, x) && Fair(s, Notified(x))
  {
    hide Notified;
    assert Queued(s, x);
    QueuedFair(s, x);
  }

  lemma OwedFair(s: State)
    requires Fair(s, Notified(s)) && s.owed > 0
    ensures Fair(s, Notified(s).(owed := s.owed - 1))
  {
    hide Notified;
  }

  lemma DropFair(s: State, id: nat)
    requires QueueFits(s)
    ensures Fair(s, DoDropLease(s, id))
  {
    hide Notified, QueueFits, Fair;
    ItselfFair(s);
    if id < |s.sessions| && s.sessions[id].active > 0 {
      var c := s.sessions[id].(active := s.sessions[id].active - 1);
      var r := SetSession(s, id, c);
      var x := if !s.all && Spare(c) then r.(listed := Without(s.listed, id)) else r;
      NotedFair(s, x);
      NotedFair(s, x.(owed := s.owed + 1));
    }
  }

  lemma SetupFair(s: State, ok: bool)
    requires QueueFits(s)
    ensures Fair(s, Announced(s.(setup := PoolSpec.Idle, callers := AfterSetup(s.callers, ok))))
  {
    hide Notified;
    var x := s.(setup := PoolSpec.Idle, callers := AfterSetup(s.callers, ok));
    assert Queued(s, x);
    QueuedFair(s, x);
    QueuedFair(s, x.(owed := s.owed + 1));
  }

  lemma ArriveFair(s: State)
    requires QueueFits(s)
    ensures Fair(s, DoPool(s, Arrive))
  {
    QueuedFair(s, DoPool(s, Arrive));
  }

  lemma OtherFair(s: State, l: Label)
    requires QueueFits(s) && (l.Acknowledge? || l.Publish? || l.Close? || OfCaller(l))
    ensures Fair(s, DoPool(s, l))
  {
    SameFair(s, DoPool(s, l));
  }

  /** First come, first woken, in every run of either client and at every step. */
  lemma FirstComeFirstWoken(all: bool, maximum: nat, labels: seq<Label>, l: Label)
    ensures Fair(Run(all, maximum, labels), Step(Run(all, maximum, labels), l))
  {
    hide Run, WakeInv, Fair, DoCaller, DoPool, QueueFits;
    var s := Run(all, maximum, labels);
    RunKeepsWakes(all, maximum, labels);
    InvQueue(s);
    if !OfCaller(l) {
      PoolFair(s, l);
    } else if l.t < |s.callers| {
      CallerFair(s, l, l.t);
    } else {
      ItselfFair(s);
    }
  }

  lemma InvQueue(s: State)
    requires WakeInv(s)
    ensures QueueFits(s)
  {
  }
}
