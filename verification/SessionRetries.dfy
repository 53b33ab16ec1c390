/** A waiter that looks again, and what the invariants of waiting mean for the Rust client. */
module SessionRetries {
  import opened SessionWaiting
  import opened SessionWakeups
  import PoolSpec

  // --------------------------------------------------------------- looking again

  /** The rest of one caller's selection with nothing in between; `stale` names the sessions idle too long. */
  function Alone(s: State, t: nat, stale: set<nat>): State
    requires t < |s.callers|
    decreases if s.callers[t].phase.Trying? then |s.callers[t].phase.rest| else 0
  {
    var p := s.callers[t].phase;
    if !p.Trying? then s
    else if p.rest == [] then DoFinish(s, t, p.seen)
    else
      var s' := DoTry(s, t, p.rest, p.seen, 0, p.rest[0] in stale, false, Full);
      if t < |s'.callers| && (s'.callers[t].phase.Trying? ==> |s'.callers[t].phase.rest| < |p.rest|)
        then Alone(s', t, stale)
      else s'
  }

  /** A waiter leaves the queue, notes the time and selects again. */
  function Retry(s: State, t: nat, stale: set<nat>): State
    requires t < |s.callers|
  {
    var top := s.(callers := s.callers[t := Caller(Enabled(s.version), true)], queue := Without(s.queue, t));
    Alone(DoBegin(top, t, s.version), t, stale)
  }

  /** The sessions after those idle too long are retired. */
  function Lapsed(sessions: seq<Session>, stale: set<nat>): (r: seq<Session>)
    ensures |r| == |sessions|
    ensures forall id :: 0 <= id < |r| ==>
      r[id] == if id in stale then sessions[id].(retired := true) else sessions[id]
  {
    seq(|sessions|, id requires 0 <= id < |sessions| =>
      if id in stale then sessions[id].(retired := true) else sessions[id])
  }

  /** A selection under way that has met nothing of use. */
  predicate Barren(s: State, t: nat) {
    && t < |s.callers| && s.callers[t].phase.Trying? && s.callers[t].phase.seen == s.version
    && Shape(s) && AllFull(s) && AllKept(s) && !s.closed
  }

  /** The pool once the sessions that the caller still has to look at, and that idled too long, are retired. */
  function Settled(s: State, t: nat, stale: set<nat>): State
    requires t < |s.callers| && s.callers[t].phase.Trying?
  {
    s.(sessions := Lapsed(s.sessions, set id | id in stale && id in s.callers[t].phase.rest))
  }

  lemma {:induction false} CountWithout(chosen: set<nat>, list: seq<nat>, id: nat)
    requires id !in chosen
    ensures PoolSpec.CountIn(chosen, Without(list, id)) == PoolSpec.CountIn(chosen, list)
  {
    if list != [] {
      var n := |list| - 1;
      CountWithout(chosen, list[..n], id);
      var rest := Without(list[..n], id);
      assert (rest + [list[n]])[..|rest|] == rest;
    }
  }

  /** Passing over a full session, or one retired meanwhile. */
  lemma BarrenSkip(s: State, t: nat, stale: set<nat>)
    requires Barren(s, t) && s.callers[t].phase.rest != []
    requires var id := s.callers[t].phase.rest[0]; id < |s.sessions| && (id in stale ==> s.sessions[id].retired)
    ensures var p := s.callers[t].phase; var s' := Set(s, t, Trying(p.rest[1..], p.seen));
      Barren(s', t) && NoRoom(Settled(s', t, stale)) == NoRoom(Settled(s, t, stale))
  {
    hide PoolSpec.CountIn;
    var p := s.callers[t].phase;
    var c := s.callers[t].(phase := Trying(p.rest[1..], p.seen));
    var s' := Set(s, t, Trying(p.rest[1..], p.seen));
    assert RestOk(s, p);
    assert RestOk(s, c.phase) by {
      assert forall id :: id in p.rest[1..] ==> id in p.rest;
    }
    ShapeAfterMove(s, t, c);
    assert p.rest == [p.rest[0]] + p.rest[1..];
    assert Settled(s', t, stale).sessions == Settled(s, t, stale).sessions;
  }

  /** The Rust client retires a session idle too long, and drops it if nobody uses it. */
  lemma LapseStaysBarren(s: State, t: nat)
    requires Barren(s, t) && s.callers[t].phase.rest != [] && s.callers[t].phase.rest[0] < |s.sessions|
    ensures var p := s.callers[t].phase; Barren(Set(Retired(s, p.rest[0]), t, Trying(p.rest[1..], p.seen)), t)
  {
    var p := s.callers[t].phase;
    var r := Retired(s, p.rest[0]);
    var c := s.callers[t].(phase := Trying(p.rest[1..], p.seen));
    RetiredMoves(s, p.rest[0]);
    WithoutMembers(s.listed, p.rest[0]);
    assert RestOk(r, r.callers[t].phase);
    assert RestOk(r, c.phase) by {
      assert forall x :: x in p.rest[1..] ==> x in p.rest;
    }
    ShapeAfterMove(r, t, c);
  }

  lemma LapseKeepsRoom(s: State, t: nat, stale: set<nat>)
    requires t < |s.callers| && s.callers[t].phase.Trying? && s.callers[t].phase.rest != []
    requires s.callers[t].phase.rest[0] < |s.sessions| && s.callers[t].phase.rest[0] in stale
    ensures var p := s.callers[t].phase; var s' := Set(Retired(s, p.rest[0]), t, Trying(p.rest[1..], p.seen));
      NoRoom(Settled(s', t, stale)) == NoRoom(Settled(s, t, stale))
  {
    hide PoolSpec.CountIn;
    var p := s.callers[t].phase;
    var id := p.rest[0];
    var s' := Set(Retired(s, id), t, Trying(p.rest[1..], p.seen));
    assert p.rest == [id] + p.rest[1..];
    var before, after := Settled(s, t, stale), Settled(s', t, stale);
    assert after.sessions == before.sessions;
    if s.sessions[id].active == 0 {
      CountWithout(Live(before.sessions), s.listed, id);
      CountWithout(Kept(before.sessions), s.listed, id);
    }
  }

  /** A Rust selection that starts with every session full parks exactly if, after the lapses, there is no room. */
  lemma {:induction false} AloneParks(s: State, t: nat, stale: set<nat>)
    requires Barren(s, t) && s.all
    ensures t < |Alone(s, t, stale).callers|
    ensures Alone(s, t, stale).callers[t].phase.Waiting? <==> NoRoom(Settled(s, t, stale))
    decreases |s.callers[t].phase.rest|
  {
    hide NoRoom, Shape, AllKept, Retired, Settled;
    var p := s.callers[t].phase;
    if p.rest == [] {
      LastParks(s, t, stale);
      return;
    }
    var id := p.rest[0];
    RestListed(s, t);
    RetiredCallers(s, id);
    assert p.rest[..0] + p.rest[1..] == p.rest[1..];
    if !s.sessions[id].retired && id in stale {
      LapseStaysBarren(s, t);
      LapseKeepsRoom(s, t, stale);
      AloneParks(Set(Retired(s, id), t, Trying(p.rest[1..], p.seen)), t, stale);
    } else {
      BarrenSkip(s, t, stale);
      AloneParks(Set(s, t, Trying(p.rest[1..], p.seen)), t, stale);
    }
  }

  lemma RestListed(s: State, t: nat)
    requires Barren(s, t) && s.callers[t].phase.rest != []
    ensures var id := s.callers[t].phase.rest[0];
      id < |s.sessions| && (!s.sessions[id].retired ==> s.sessions[id].offer.Full?)
  {
    assert RestOk(s, s.callers[t].phase);
    assert s.callers[t].phase.rest[0] in s.callers[t].phase.rest;
  }

  lemma LastParks(s: State, t: nat, stale: set<nat>)
    requires Barren(s, t) && s.callers[t].phase.rest == [] && s.all
    ensures t < |Alone(s, t, stale).callers|
    ensures Alone(s, t, stale).callers[t].phase.Waiting? <==> NoRoom(Settled(s, t, stale))
  {
    hide PoolSpec.CountIn;
    assert Settled(s, t, stale).sessions == s.sessions;
    RoomExact(s);
  }

  // -------------------------------------------------------------- the Rust client

  lemma RetryBegins(s: State, t: nat)
    requires Shape(s) && t < |s.callers| && s.callers[t].phase.Waiting? && AllFull(s) && AllKept(s) && !s.closed
    ensures var r := DoBegin(s.(callers := s.callers[t := Caller(Enabled(s.version), true)],
      queue := Without(s.queue, t)), t, s.version);
      && Barren(r, t) && r.callers[t].phase.rest == Serving(s, s.listed)
      && r.listed == s.listed && r.sessions == s.sessions && r.setup == s.setup && r.maximum == s.maximum &&
        r.all == s.all
  {
    var e := s.(callers := s.callers[t := Caller(Enabled(s.version), true)], queue := Without(s.queue, t));
    ShapeAfterUnpark(s, t);
    ShapeAfterMove(Leave(s, t, Gone).(queue := Without(s.queue, t)), t, Caller(Enabled(s.version), true));
    assert e == Leave(s, t, Gone).(queue := Without(s.queue, t),
      callers := s.callers[t := Caller(Enabled(s.version), true)]);
    PrunedSame(e, e.listed);
    ServingSame(s, e, s.listed);
    ServingMembers(e, e.listed);
    ShapeAfterMove(e, t, Caller(Trying(Serving(e, e.listed), s.version), true));
  }

  lemma {:induction false} ServingSame(s: State, r: State, list: seq<nat>)
    requires s.sessions == r.sessions
    ensures Serving(s, list) == Serving(r, list)
  {
    if list != [] {
      ServingSame(s, r, list[..|list| - 1]);
    }
  }

  lemma {:induction false} CountAgrees(a: set<nat>, b: set<nat>, list: seq<nat>)
    requires forall id :: id in list ==> (id in a <==> id in b)
    ensures PoolSpec.CountIn(a, list) == PoolSpec.CountIn(b, list)
  {
    if list != [] {
      var n := |list| - 1;
      assert list == list[..n] + [list[n]];
      CountAgrees(a, b, list[..n]);
    }
  }

  /** Lapses of sessions that are retired or not listed change nothing. */
  lemma LapsesThatCount(s: State, stale: set<nat>, some: set<nat>)
    requires some <= stale
    requires forall id :: id in stale && id in s.listed && id < |s.sessions| && !s.sessions[id].retired ==> id in some
    ensures NoRoom(s.(sessions := Lapsed(s.sessions, some))) == NoRoom(s.(sessions := Lapsed(s.sessions, stale)))
  {
    hide PoolSpec.CountIn;
    var x, y := Lapsed(s.sessions, some), Lapsed(s.sessions, stale);
    CountAgrees(Live(x), Live(y), s.listed);
    CountAgrees(Kept(x), Kept(y), s.listed);
  }

  lemma RetryParks(s: State, t: nat, stale: set<nat>)
    requires Shape(s) && t < |s.callers| && s.callers[t].phase.Waiting? && AllFull(s) && AllKept(s) && !s.closed &&
      s.all
    ensures t < |Retry(s, t, stale).callers|
    ensures Retry(s, t, stale).callers[t].phase.Waiting? <==> NoRoom(s.(sessions := Lapsed(s.sessions, stale)))
  {
    hide NoRoom, Alone, DoBegin, Shape, AllFull, AllKept;
    var e := s.(callers := s.callers[t := Caller(Enabled(s.version), true)], queue := Without(s.queue, t));
    var r := DoBegin(e, t, s.version);
    RetryBegins(s, t);
    AloneParks(r, t, stale);
    var some := set id | id in stale && id in Serving(s, s.listed);
    ServingMembers(s, s.listed);
    LapsesThatCount(s, stale, some);
    assert Settled(r, t, stale) == r.(sessions := Lapsed(s.sessions, some));
    SameRoom(r.(sessions := Lapsed(s.sessions, some)), s.(sessions := Lapsed(s.sessions, some)));
  }

  lemma SameRoom(s: State, r: State)
    requires s.listed == r.listed && s.sessions == r.sessions && s.setup == r.setup && s.maximum == r.maximum
    ensures NoRoom(s) == NoRoom(r)
  {
  }

  /** What the invariant says of a Rust caller that waits in peace. */
  lemma WaitsForReason(s: State, t: nat)
    requires WakeInv(s) && s.all && t < |s.callers| && s.callers[t].phase.Waiting?
    requires !Due(s) && !s.closed && !SomeoneTries(s)
    ensures Shape(s) && AllFull(s) && AllKept(s) && NoRoom(s)
  {
    assert t in s.queue;
  }

  /**
   * A Rust caller that waits, that nobody has woken and whom no notification is due, would wait
   * again. Only the clock can change that: it would go on exactly if retiring the sessions that
   * have been idle too long makes room for another.
   */
  lemma RustNoLostWakeup(maximum: nat, labels: seq<Label>, t: nat, stale: set<nat>)
    requires var s := Run(true, maximum, labels);
      && t < |s.callers| && s.callers[t].phase.Waiting?
      && !Due(s) && !s.closed && !SomeoneTries(s)
    ensures var s := Run(true, maximum, labels);
      && AllFull(s) && NoRoom(s)
      && t < |Retry(s, t, stale).callers|
      && (Retry(s, t, stale).callers[t].phase.Waiting? <==> NoRoom(s.(sessions := Lapsed(s.sessions, stale))))
  {
    hide Run, WakeInv, NoRoom, Retry, Shape, AllFull, AllKept;
    var s := Run(true, maximum, labels);
    RunKeepsWakes(true, maximum, labels);
    WaitsForReason(s, t);
    RetryParks(s, t, stale);
  }
}
