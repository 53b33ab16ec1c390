/** When a JavaScript caller sleeps beside a session that could serve it: exactly when, over whole runs. */
module JsWaiting {
  import opened SessionWaiting
  import opened SessionWakeups
  import opened SessionRetries
  import PoolSpec

  // --------------------------------------------------------- one caller looks again

  /** Nothing retired comes back. */
  predicate StaysRetired(a: seq<Session>, b: seq<Session>) {
    |a| == |b| && forall id :: 0 <= id < |a| && a[id].retired ==> b[id].retired
  }

  lemma RetiredStays(s: State, id: nat)
    requires id < |s.sessions|
    ensures StaysRetired(s.sessions, Retired(s, id).sessions) && Retired(s, id).sessions[id].retired
    ensures Retired(s, id).callers == s.callers
  {
  }

  lemma NotifiedSessions(s: State)
    ensures Notified(s).sessions == s.sessions && Notified(s).setup == s.setup
  {
  }

  lemma TryRetires(s: State, t: nat, rest: seq<nat>, seen: nat, stale: bool)
    requires t < |s.callers| && rest != []
    ensures StaysRetired(s.sessions, DoTry(s, t, rest, seen, 0, stale, false, Full).sessions)
  {
    hide Retired, Notified;
    if rest[0] < |s.sessions| {
      RetiredStays(s, rest[0]);
      forall x: State
        ensures Notified(x).sessions == x.sessions
      {
        NotifiedSessions(x);
      }
    }
  }

  lemma {:induction false} AloneRetires(s: State, t: nat, stale: set<nat>)
    requires t < |s.callers|
    ensures StaysRetired(s.sessions, Alone(s, t, stale).sessions)
    decreases if s.callers[t].phase.Trying? then |s.callers[t].phase.rest| else 0
  {
    hide DoTry, DoFinish;
    var p := s.callers[t].phase;
    if p.Trying? && p.rest == [] {
      FinishSessions(s, t, p.seen);
    } else if p.Trying? {
      var s' := DoTry(s, t, p.rest, p.seen, 0, p.rest[0] in stale, false, Full);
      TryRetires(s, t, p.rest, p.seen, p.rest[0] in stale);
      if t < |s'.callers| && (s'.callers[t].phase.Trying? ==> |s'.callers[t].phase.rest| < |p.rest|) {
        AloneRetires(s', t, stale);
      }
    }
  }

  lemma FinishSessions(s: State, t: nat, seen: nat)
    requires t < |s.callers|
    ensures DoFinish(s, t, seen).sessions == s.sessions
  {
  }

  /** Every session of use is still to be looked at. */
  predicate Ahead(s: State, t: nat) {
    && t < |s.callers| && s.callers[t].phase.Trying? && s.callers[t].phase.seen == s.version
    && Shape(s) && AllKept(s) && !s.all && !s.closed
    && forall id :: id in s.listed && id < |s.sessions| && !s.sessions[id].retired && !s.sessions[id].offer.Full? ==>
         id in s.callers[t].phase.rest
  }

  /** None of the sessions that the caller still has to look at and that serve has idled too long. */
  predicate NoneLapsed(s: State, t: nat, stale: set<nat>)
    requires t < |s.callers| && s.callers[t].phase.Trying?
  {
    forall id :: id in s.callers[t].phase.rest && id < |s.sessions| && !s.sessions[id].retired ==> id !in stale
  }

  lemma SkipStaysAhead(s: State, t: nat)
    requires Ahead(s, t) && s.callers[t].phase.rest != []
    requires var id := s.callers[t].phase.rest[0];
      id < |s.sessions| && (s.sessions[id].retired || s.sessions[id].offer.Full?)
    ensures var p := s.callers[t].phase; Ahead(Set(s, t, Trying(p.rest[1..], p.seen)), t)
  {
    var p := s.callers[t].phase;
    var c := s.callers[t].(phase := Trying(p.rest[1..], p.seen));
    assert p.rest == [p.rest[0]] + p.rest[1..];
    assert RestOk(s, p);
    assert RestOk(s, c.phase) by {
      assert forall id :: id in p.rest[1..] ==> id in p.rest;
    }
    ShapeAfterMove(s, t, c);
  }

  lemma SkipLapses(s: State, t: nat, stale: set<nat>)
    requires t < |s.callers| && s.callers[t].phase.Trying? && s.callers[t].phase.rest != []
    requires var id := s.callers[t].phase.rest[0]; id < |s.sessions| && (s.sessions[id].retired || id !in stale)
    ensures var p := s.callers[t].phase;
      NoneLapsed(Set(s, t, Trying(p.rest[1..], p.seen)), t, stale) == NoneLapsed(s, t, stale)
  {
    var p := s.callers[t].phase;
    assert p.rest == [p.rest[0]] + p.rest[1..];
  }

  /** A JavaScript selection changes nothing exactly if nothing could serve and nothing has idled too long. */
  lemma {:induction false} AloneFinds(s: State, t: nat, stale: set<nat>)
    requires Ahead(s, t)
    ensures var r := Alone(s, t, stale);
      r.sessions == s.sessions && r.setup == s.setup <==> AllFull(s) && NoRoom(s) && NoneLapsed(s, t, stale)
    decreases |s.callers[t].phase.rest|
  {
    hide NoRoom, Retired, Notified, Shape, AllKept, AllFull, NoneLapsed;
    var p := s.callers[t].phase;
    if p.rest == [] {
      FinishFinds(s, t, stale);
      return;
    }
    var id := p.rest[0];
    AheadFits(s, t);
    assert p.rest[..0] + p.rest[1..] == p.rest[1..];
    if s.sessions[id].retired || (s.sessions[id].offer.Full? && id !in stale) {
      var s' := Set(s, t, Trying(p.rest[1..], p.seen));
      SkipStaysAhead(s, t);
      SkipLapses(s, t, stale);
      AloneFinds(s', t, stale);
      SamePool(s, s');
    } else {
      TryFinds(s, t, stale);
    }
  }

  lemma AheadFits(s: State, t: nat)
    requires Ahead(s, t) && s.callers[t].phase.rest != []
    ensures var id := s.callers[t].phase.rest[0]; id < |s.sessions| && (!s.sessions[id].retired ==> id in s.listed)
  {
    assert RestOk(s, s.callers[t].phase);
    assert s.callers[t].phase.rest[0] in s.callers[t].phase.rest;
  }

  lemma FinishFinds(s: State, t: nat, stale: set<nat>)
    requires Ahead(s, t) && s.callers[t].phase.rest == []
    ensures var r := Alone(s, t, stale);
      r.sessions == s.sessions && r.setup == s.setup <==> AllFull(s) && NoRoom(s) && NoneLapsed(s, t, stale)
  {
    hide PoolSpec.CountIn;
    RoomExact(s);
  }

  /** A session of use is taken or retired, and one that idled too long is retired, which shows for good. */
  lemma TryFinds(s: State, t: nat, stale: set<nat>)
    requires Ahead(s, t) && s.callers[t].phase.rest != []
    requires var id := s.callers[t].phase.rest[0];
      id < |s.sessions| && id in s.listed && !s.sessions[id].retired && (!s.sessions[id].offer.Full? || id in stale)
    ensures Alone(s, t, stale).sessions != s.sessions && !(AllFull(s) && NoneLapsed(s, t, stale))
  {
    hide Shape, Retired, Notified, DoFinish;
    var p := s.callers[t].phase;
    var id := p.rest[0];
    assert id in p.rest;
    var s' := DoTry(s, t, p.rest, p.seen, 0, id in stale, false, Full);
    TryShows(s, t, stale);
    if s'.sessions[id].retired {
      if t < |s'.callers| && (s'.callers[t].phase.Trying? ==> |s'.callers[t].phase.rest| < |p.rest|) {
        AloneRetires(s', t, stale);
      }
    }
  }

  lemma TryShows(s: State, t: nat, stale: set<nat>)
    requires t < |s.callers| && s.callers[t].phase.Trying? && s.callers[t].phase.rest != [] && !s.all
    requires var id := s.callers[t].phase.rest[0];
      id < |s.sessions| && !s.sessions[id].retired && (!s.sessions[id].offer.Full? || id in stale)
    ensures var p := s.callers[t].phase;
      var s' := DoTry(s, t, p.rest, p.seen, 0, p.rest[0] in stale, false, Full);
      && t < |s'.callers| && p.rest[0] < |s'.sessions| == |s.sessions|
      && (|| s'.sessions[p.rest[0]].retired
          || (s'.sessions[p.rest[0]].active > s.sessions[p.rest[0]].active && !s'.callers[t].phase.Trying?))
  {
    hide Retired;
    var p := s.callers[t].phase;
    RetiredStays(s, p.rest[0]);
  }

  lemma RetryAhead(s: State, t: nat)
    requires Shape(s) && t < |s.callers| && s.callers[t].phase.Waiting? && !s.all && !s.closed
    ensures var e := s.(callers := s.callers[t := Caller(Enabled(s.version), true)], queue := Without(s.queue, t));
      var r := DoBegin(e, t, s.version);
      && Ahead(r, t) && r.listed == s.listed && r.sessions == s.sessions && r.setup == s.setup
      && r.maximum == s.maximum
      && (forall id :: id in r.callers[t].phase.rest <==>
            id in s.listed && id < |s.sessions| && !s.sessions[id].retired)
  {
    var e := s.(callers := s.callers[t := Caller(Enabled(s.version), true)], queue := Without(s.queue, t));
    ShapeAfterUnpark(s, t);
    ShapeAfterMove(Leave(s, t, Gone).(queue := Without(s.queue, t)), t, Caller(Enabled(s.version), true));
    assert e == Leave(s, t, Gone).(queue := Without(s.queue, t),
      callers := s.callers[t := Caller(Enabled(s.version), true)]);
    PrunedSame(e, e.listed);
    ServingMembers(e, e.listed);
    ShapeAfterMove(e, t, Caller(Trying(Serving(e, e.listed), s.version), true));
  }

  /** No listed session that serves has idled too long. */
  predicate NoneStale(s: State, stale: set<nat>) {
    forall id :: id in s.listed && id < |s.sessions| && !s.sessions[id].retired ==> id !in stale
  }

  /** What a waiter would find, in any state that keeps the structure. */
  lemma RetryFinds(s: State, t: nat, stale: set<nat>)
    requires Shape(s) && t < |s.callers| && s.callers[t].phase.Waiting? && !s.all && !s.closed
    ensures var r := Retry(s, t, stale);
      r.sessions == s.sessions && r.setup == s.setup <==> !CanServe(s) && NoneStale(s, stale)
  {
    hide NoRoom, AllFull, Alone, DoBegin, Shape;
    RetryAhead(s, t);
    var e := s.(callers := s.callers[t := Caller(Enabled(s.version), true)], queue := Without(s.queue, t));
    var r := DoBegin(e, t, s.version);
    AloneFinds(r, t, stale);
    SamePool(s, r);
  }

  // ------------------------------------------------------------------- sleeping

  /** The caller sleeps or is gone. */
  predicate Rests(p: Phase) {
    p.Waiting? || p.AtSetup? || p.Gone?
  }

  /** Nobody is about to act: every caller sleeps or is gone, and no notification is due. */
  predicate Quiet(s: State) {
    !Due(s) && forall t :: 0 <= t < |s.callers| ==> Rests(s.callers[t].phase)
  }

  /** A JavaScript caller sleeps in the queue beside what could serve it, and nobody is about to act. */
  predicate Stranded(s: State) {
    !s.all && Quiet(s) && s.queue != [] && CanServe(s)
  }

  /** At this point of the run a woken caller leaves before it has looked. */
  predicate LeavesWoken(maximum: nat, labels: seq<Label>, i: nat)
    requires i < |labels|
  {
    var s := Run(false, maximum, labels[..i]);
    labels[i].Abort? && labels[i].t < |s.callers| && s.callers[labels[i].t] == Caller(Top, true)
  }

  /** And no notification has come since. */
  predicate LeftLast(maximum: nat, labels: seq<Label>, i: nat)
    requires i < |labels|
  {
    LeavesWoken(maximum, labels, i) && Run(false, maximum, labels[..i]).version == Run(false, maximum, labels).version
  }

  /**
   * At this point of the run a woken caller leaves what could serve it: a session of use, or room
   * that nobody has taken up since.
   */
  predicate LeavesUnserved(maximum: nat, labels: seq<Label>, i: nat)
    requires i < |labels|
  {
    var s := Run(false, maximum, labels[..i]);
    LeftLast(maximum, labels, i) && CanServe(s) && (AllFull(s) ==> Run(false, maximum, labels).setup.Idle?)
  }

  // ------------------------------------------------- between two notifications

  /** The same sessions; at most a setup has begun. */
  predicate Still(s: State, s': State) {
    && s'.listed == s.listed && s'.sessions == s.sessions && s'.closed == s.closed && s'.maximum == s.maximum
    && (s'.setup == s.setup || (s.setup.Idle? && s'.setup.Dialing?))
  }

  lemma StillServes(s: State, s': State)
    requires Still(s, s')
    ensures CanServe(s') <==> CanServe(s) && (AllFull(s) ==> s'.setup.Idle?)
  {
    hide PoolSpec.CountIn;
  }

  lemma TryStill(s: State, t: nat, rest: seq<nat>, seen: nat, choice: nat, stale: bool, fails: bool, next: Offer)
    requires !s.all && t < |s.callers|
    ensures var s' := DoTry(s, t, rest, seen, choice, stale, fails, next);
      (s'.version > s.version && !s'.dropped) || s' == s.(callers := s'.callers)
  {
    hide Retired;
    if choice < |rest| && rest[choice] < |s.sessions| {
      RetiredVersion(s, rest[choice]);
    }
  }

  lemma RetiredVersion(s: State, id: nat)
    requires id < |s.sessions|
    ensures Retired(s, id).version == s.version && Retired(s, id).all == s.all
    ensures Retired(s, id).callers == s.callers && Retired(s, id).queue == s.queue
  {
  }

  /** A step without a notification leaves the sessions as they were, or a notification is due after it. */
  lemma StillStep(s: State, l: Label)
    requires Shape(s) && !s.all
    ensures var s' := Step(s, l);
      || (s'.version > s.version && !s'.dropped)
      || (s'.version == s.version && ((!Due(s') ==> !Due(s) && Still(s, s'))))
  {
    hide DoTry, ServingIn, Shape;
    if l.Try? && l.t < |s.callers| && s.callers[l.t].phase.Trying? {
      var p := s.callers[l.t].phase;
      TryStill(s, l.t, p.rest, p.seen, l.choice, l.stale, l.fails, l.next);
    } else if l.Begin? {
      NothingPruned(s);
    }
  }

  lemma NothingPruned(s: State)
    requires Shape(s) && !s.all
    ensures Pruned(s, s.listed) == s.listed
  {
    PrunedSame(s, s.listed);
  }

  lemma RunShape(maximum: nat, labels: seq<Label>)
    ensures Shape(Run(false, maximum, labels)) && !Run(false, maximum, labels).all
  {
    RunKeepsWakes(false, maximum, labels);
  }

  lemma {:induction false} VersionGrows(maximum: nat, labels: seq<Label>, i: nat)
    requires i <= |labels|
    ensures Run(false, maximum, labels[..i]).version <= Run(false, maximum, labels).version
  {
    hide Step, Shape;
    if i == |labels| {
      assert labels[..i] == labels;
    } else {
      var n := |labels| - 1;
      VersionGrows(maximum, labels[..n], i);
      assert labels[..n][..i] == labels[..i];
      RunShape(maximum, labels[..n]);
      StillStep(Run(false, maximum, labels[..n]), labels[n]);
    }
  }

  /** Between two notifications nothing changes but that a setup may begin. */
  lemma {:induction false} StillSince(maximum: nat, labels: seq<Label>, i: nat)
    requires i <= |labels| && !Due(Run(false, maximum, labels))
    requires Run(false, maximum, labels[..i]).version == Run(false, maximum, labels).version
    ensures Still(Run(false, maximum, labels[..i]), Run(false, maximum, labels))
  {
    hide Step, Shape, Due;
    if i == |labels| {
      assert labels[..i] == labels;
    } else {
      var n := |labels| - 1;
      assert labels[..n][..i] == labels[..i];
      VersionGrows(maximum, labels[..n], i);
      RunShape(maximum, labels[..n]);
      StillStep(Run(false, maximum, labels[..n]), labels[n]);
      StillSince(maximum, labels[..n], i);
    }
  }

  lemma {:induction false} DroppedMeans(maximum: nat, labels: seq<Label>)
    requires Run(false, maximum, labels).dropped
    ensures exists i :: 0 <= i < |labels| && LeftLast(maximum, labels, i)
  {
    hide Step, Shape, Due, Still;
    var n := |labels| - 1;
    var s := Run(false, maximum, labels[..n]);
    RunShape(maximum, labels[..n]);
    StillStep(s, labels[n]);
    if s.dropped {
      DroppedMeans(maximum, labels[..n]);
      var i :| 0 <= i < n && LeftLast(maximum, labels[..n], i);
      assert labels[..n][..i] == labels[..i];
      assert LeftLast(maximum, labels, i);
    } else {
      StepDrops(s, labels[n]);
      assert LeftLast(maximum, labels, n);
    }
  }

  lemma StepDrops(s: State, l: Label)
    requires !s.dropped && Step(s, l).dropped
    ensures l.Abort? && l.t < |s.callers| && s.callers[l.t] == Caller(Top, true)
  {
  }

  // ------------------------------------------------------------------- theorems

  /**
   * The JavaScript client leaves a caller asleep beside what could serve it, with nobody about to
   * act, exactly if since the last notification a woken caller left without looking while a
   * session of use was there, or room that nobody has taken up.
   */
  lemma StrandedExactly(maximum: nat, labels: seq<Label>)
    requires var s := Run(false, maximum, labels); Quiet(s) && s.queue != []
    ensures Stranded(Run(false, maximum, labels))
      <==> exists i :: 0 <= i < |labels| && LeavesUnserved(maximum, labels, i)
  {
    hide Run, NoRoom, AllFull, LeavesWoken, Still, CanServe;
    var s := Run(false, maximum, labels);
    if Stranded(s) {
      SomeoneLeft(maximum, labels);
      var i :| 0 <= i < |labels| && LeftLast(maximum, labels, i);
      StillSince(maximum, labels, i);
      StillServes(Run(false, maximum, labels[..i]), s);
      assert LeavesUnserved(maximum, labels, i);
    }
    if i :| 0 <= i < |labels| && LeavesUnserved(maximum, labels, i) {
      RunShape(maximum, labels);
      StillSince(maximum, labels, i);
      StillServes(Run(false, maximum, labels[..i]), s);
    }
  }

  lemma SomeoneLeft(maximum: nat, labels: seq<Label>)
    requires Stranded(Run(false, maximum, labels))
    ensures exists i :: 0 <= i < |labels| && LeftLast(maximum, labels, i)
  {
    hide Run, NoRoom, AllFull, LeftLast;
    RunKeepsWakes(false, maximum, labels);
    DroppedMeans(maximum, labels);
  }

  /**
   * A woken caller that leaves before it has looked, and that was the last to act, strands those
   * that still wait exactly if it could have been served.
   */
  lemma DepartureStrands(s: State, t: nat)
    requires !s.all && !Due(s) && s.queue != [] && t < |s.callers| && s.callers[t] == Caller(Top, true)
    requires forall u :: 0 <= u < |s.callers| && u != t ==> Rests(s.callers[u].phase)
    ensures Stranded(Step(s, Abort(t))) <==> CanServe(s)
  {
    hide NoRoom, AllFull;
    SamePool(s, Step(s, Abort(t)));
  }

  /**
   * In every run, a JavaScript caller that waits while nobody is about to act would find something
   * if it looked, to take, to retire or to open, exactly if a woken caller left it unserved or a
   * session has idled too long.
   */
  lemma WaitersMissExactly(maximum: nat, labels: seq<Label>, t: nat, stale: set<nat>)
    requires var s := Run(false, maximum, labels);
      Quiet(s) && !s.closed && t < |s.callers| && s.callers[t].phase.Waiting?
    ensures var s := Run(false, maximum, labels); var r := Retry(s, t, stale);
      r.sessions == s.sessions && r.setup == s.setup
      <==> NoneStale(s, stale) && !exists i :: 0 <= i < |labels| && LeavesUnserved(maximum, labels, i)
  {
    hide Run, NoRoom, AllFull, LeavesUnserved, Shape, Retry;
    var s := Run(false, maximum, labels);
    RunKeepsWakes(false, maximum, labels);
    WaiterIsQueued(s, t);
    StrandedExactly(maximum, labels);
    RetryFinds(s, t, stale);
  }

  lemma WaiterIsQueued(s: State, t: nat)
    requires WakeInv(s) && t < |s.callers| && s.callers[t].phase.Waiting?
    ensures Shape(s) && s.queue != []
  {
    assert t in s.queue;
  }
}
