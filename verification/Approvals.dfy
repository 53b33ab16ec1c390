/** Which approval decisions a verifier accepts over its lifetime. */
module Approvals {
  import opened Basics

  // ------------------------------------------------------------------- values

  /** An authenticated root decision: the keys of one generation. */
  datatype Keys = Keys(environment: string, generation: nat, digest: string, signer: string, expiresAt: int)

  /** A verified approval manifest under its keys. */
  datatype Decision = Decision(
    authority: Bytes, keys: Keys, revision: nat, digest: string, hardwareVersion: nat, hardwareDigest: string)

  datatype Error = Authority | Rollback | Equivocation | InactiveKey

  datatype Learned = Learned(keys: Keys, conflicting: bool)

  datatype State = State(authority: Bytes, environment: string, learned: Option<Learned>, accepted: Option<Decision>)

  // ---------------------------------------------------------------- key state

  /** `check`: neither older than what was learned, nor another decision of its generation. */
  function CheckKeys(learned: Option<Learned>, keys: Keys): Option<Error> {
    if learned.None? then None
    else if keys.generation < learned.value.keys.generation then Some(Rollback)
    else if keys.generation > learned.value.keys.generation then None
    else if learned.value.conflicting || keys.digest != learned.value.keys.digest then Some(Equivocation)
    else None
  }

  /** `KeyState::learn`: also remembers that a generation was decided twice. */
  function Learn(learned: Option<Learned>, keys: Keys): (Option<Learned>, Option<Error>) {
    if learned.Some? && keys.generation == learned.value.keys.generation &&
      keys.digest != learned.value.keys.digest then
      (Some(learned.value.(conflicting := true)), Some(Equivocation))
    else if CheckKeys(learned, keys).Some? then (learned, CheckKeys(learned, keys))
    else (Some(Learned(keys, false)), None)
  }

  /** `KeyState::require_current`: whether work under these keys may still start. */
  function RequireCurrent(learned: Option<Learned>, keys: Keys): Option<Error> {
    if learned.None? then Some(InactiveKey)
    else if learned.value.conflicting then Some(Equivocation)
    else
      var current := learned.value.keys;
      if keys.generation == current.generation then None
      else if keys.generation > current.generation || keys.signer != current.signer ||
        keys.expiresAt > current.expiresAt then
        Some(Rollback)
      else None
  }

  // ---------------------------------------------------------------- decisions

  /** `check_update`, in the order of its tests. */
  function CheckUpdate(s: State, c: Decision): Option<Error> {
    if c.authority != s.authority || c.keys.environment != s.environment then Some(Authority)
    else if CheckKeys(s.learned, c.keys).Some? then CheckKeys(s.learned, c.keys)
    else if s.accepted.None? then None
    else Supersedes(s.accepted.value, c)
  }

  function Supersedes(p: Decision, c: Decision): Option<Error> {
    if c.keys.generation < p.keys.generation then Some(Rollback)
    else if c.keys.generation > p.keys.generation then None
    else if c.keys.digest != p.keys.digest then Some(Equivocation)
    else if c.revision < p.revision then Some(Rollback)
    else if c.revision == p.revision && c.digest != p.digest then Some(Equivocation)
    else if c.hardwareVersion < p.hardwareVersion then Some(Rollback)
    else if c.hardwareVersion == p.hardwareVersion && c.hardwareDigest != p.hardwareDigest then Some(Equivocation)
    else None
  }

  /**
   * What the design promises of an earlier and a later decision: generations never go back,
   * and within one generation every number names one thing and none goes back.
   */
  predicate Follows(earlier: Decision, later: Decision) {
    && earlier.authority == later.authority
    && earlier.keys.environment == later.keys.environment
    && earlier.keys.generation <= later.keys.generation
    && (earlier.keys.generation == later.keys.generation ==> SameGeneration(earlier, later))
  }

  predicate SameGeneration(earlier: Decision, later: Decision) {
    && earlier.keys.digest == later.keys.digest
    && earlier.revision <= later.revision
    && (earlier.revision == later.revision ==> earlier.digest == later.digest)
    && earlier.hardwareVersion <= later.hardwareVersion
    && (earlier.hardwareVersion == later.hardwareVersion ==> earlier.hardwareDigest == later.hardwareDigest)
  }

  // --------------------------------------------------------- the running state

  class Authoriser {
    const authority: Bytes
    const environment: string
    var learned: Option<Learned>
    var accepted: Option<Decision>

    function View(): State
      reads this
    {
      State(authority, environment, learned, accepted)
    }

    constructor (authority: Bytes, environment: string)
      ensures View() == State(authority, environment, None, None)
    {
      this.authority := authority;
      this.environment := environment;
      learned := None;
      accepted := None;
    }

    /** The state change of `observe_keys`, once the manifest is authenticated. */
    method Observe(keys: Keys) returns (error: Option<Error>)
      modifies this
      ensures View() == Step(old(View()), Observed(keys)).0
      ensures error == Step(old(View()), Observed(keys)).1
    {
      if learned.Some? {
        var previous := learned.value;
        if keys.generation == previous.keys.generation && keys.digest != previous.keys.digest {
          learned := Some(previous.(conflicting := true));
          return Some(Equivocation);
        }
        if keys.generation < previous.keys.generation {
          return Some(Rollback);
        }
        if keys.generation == previous.keys.generation && previous.conflicting {
          return Some(Equivocation);
        }
      }
      learned := Some(Learned(keys, false));
      return None;
    }

    /** `accept`: re-check, learn, install. */
    method Accept(c: Decision) returns (error: Option<Error>)
      modifies this
      ensures View() == Step(old(View()), Accepted(c)).0
      ensures error == Step(old(View()), Accepted(c)).1
      ensures error.None? <==> CheckUpdate(old(View()), c).None?
      ensures error.Some? ==> View() == old(View())
    {
      error := CheckUpdate(View(), c);
      if error.Some? {
        return;
      }
      error := Observe(c.keys);
      if error.Some? {
        return;
      }
      accepted := Some(c);
    }
  }

  // ---------------------------------------------------------------- whole runs

  /** Keys are observed, candidates verified and accepted, in any order and any number of times. */
  datatype Event = Observed(keys: Keys) | Verified(candidate: Decision) | Accepted(candidate: Decision)

  function Step(s: State, e: Event): (State, Option<Error>) {
    match e
    case Observed(keys) =>
      var l := Learn(s.learned, keys);
      (s.(learned := l.0), l.1)
    case Verified(c) => (s, CheckUpdate(s, c))
    case Accepted(c) =>
      if CheckUpdate(s, c).Some? then (s, CheckUpdate(s, c))
      else
        var l := Learn(s.learned, c.keys);
        if l.1.Some? then (s.(learned := l.0), l.1) else (s.(learned := l.0, accepted := Some(c)), None)
  }

  function Run(s: State, events: seq<Event>): State {
    if events == [] then s else Step(Run(s, events[..|events| - 1]), events[|events| - 1]).0
  }

  /** The decisions accepted so far, oldest first. */
  function History(s: State, events: seq<Event>): seq<Decision> {
    if events == [] then []
    else
      var last := events[|events| - 1];
      var before := events[..|events| - 1];
      if last.Accepted? && Step(Run(s, before), last).1.None? then History(s, before) + [last.candidate]
      else History(s, before)
  }

  /** The keys are newer than anything learned, or are what was learned and never contradicted. */
  predicate KeysStand(learned: Option<Learned>, keys: Keys) {
    learned.None? || learned.value.keys.generation < keys.generation ||
    (learned.value.keys.generation == keys.generation && learned.value.keys.digest == keys.digest &&
      !learned.value.conflicting)
  }

  /** A candidate is accepted exactly if it follows the last decision and its keys stand. */
  lemma AcceptedExactly(s: State, c: Decision)
    requires s.accepted.Some? ==> Recorded(s, s.accepted.value)
    ensures Step(s, Accepted(c)).1.None? <==> Acceptable(s, c)
  {
  }

  predicate Acceptable(s: State, c: Decision) {
    && c.authority == s.authority
    && c.keys.environment == s.environment
    && KeysStand(s.learned, c.keys)
    && (s.accepted.Some? ==> Follows(s.accepted.value, c))
  }

  /** What holds of every earlier decision in a reachable state. */
  predicate Recorded(s: State, d: Decision) {
    && d.authority == s.authority
    && d.keys.environment == s.environment
    && s.accepted.Some?
    && Follows(d, s.accepted.value)
    && s.learned.Some?
    && d.keys.generation <= s.learned.value.keys.generation
    && (d.keys.generation == s.learned.value.keys.generation ==> d.keys.digest == s.learned.value.keys.digest)
  }

  lemma StepKeepsRecord(s: State, e: Event, d: Decision)
    requires Recorded(s, d)
    ensures Recorded(Step(s, e).0, d)
    ensures e.Accepted? && Step(s, e).1.None? ==> Follows(d, e.candidate)
  {
  }

  lemma AcceptRecords(s: State, c: Decision)
    requires Step(s, Accepted(c)).1.None?
    ensures Step(s, Accepted(c)).0.accepted == Some(c) && Recorded(Step(s, Accepted(c)).0, c)
  {
  }

  function Initial(authority: Bytes, environment: string): State {
    State(authority, environment, None, None)
  }

  lemma {:induction false} EveryDecisionRecorded(authority: Bytes, environment: string, events: seq<Event>, i: nat)
    requires i < |History(Initial(authority, environment), events)|
    ensures Recorded(Run(Initial(authority, environment), events), History(Initial(authority, environment), events)[i])
  {
    hide Recorded, Step;
    var start := Initial(authority, environment);
    var before, last := events[..|events| - 1], events[|events| - 1];
    if i < |History(start, before)| {
      EveryDecisionRecorded(authority, environment, before, i);
      StepKeepsRecord(Run(start, before), last, History(start, before)[i]);
    } else {
      AcceptRecords(Run(start, before), last.candidate);
    }
  }

  /** No rollback and no equivocation between any two accepted decisions of any run. */
  lemma {:induction false} DecisionsFollow(authority: Bytes, environment: string, events: seq<Event>, i: nat, j: nat)
    requires i < j < |History(Initial(authority, environment), events)|
    ensures Follows(History(Initial(authority, environment), events)[i],
      History(Initial(authority, environment), events)[j])
  {
    hide Recorded, Step, Follows;
    var start := Initial(authority, environment);
    var before, last := events[..|events| - 1], events[|events| - 1];
    if j < |History(start, before)| {
      DecisionsFollow(authority, environment, before, i, j);
    } else {
      EveryDecisionRecorded(authority, environment, before, i);
      StepKeepsRecord(Run(start, before), last, History(start, before)[i]);
    }
  }

  /** The keys are the newest ones, or older ones renewed by the same signer with no earlier deadline. */
  predicate Renewed(learned: Option<Learned>, keys: Keys) {
    && learned.Some?
    && !learned.value.conflicting
    && var current := learned.value.keys;
       || (keys.generation == current.generation && keys.digest == current.digest)
       || (keys.generation < current.generation && keys.signer == current.signer && keys.expiresAt <= current.expiresAt)
  }

  /** Work may start under an accepted decision exactly while its keys are the newest or renewed unchanged. */
  lemma CurrentExactly(authority: Bytes, environment: string, events: seq<Event>, i: nat)
    requires i < |History(Initial(authority, environment), events)|
    ensures var learned := Run(Initial(authority, environment), events).learned;
            var keys := History(Initial(authority, environment), events)[i].keys;
            RequireCurrent(learned, keys).None? <==> Renewed(learned, keys)
  {
    EveryDecisionRecorded(authority, environment, events, i);
  }

  // ------------------------------------------------------------ what is learned

  /** The event brings these keys, by themselves or with a decision that is accepted. */
  predicate Brings(s: State, e: Event, keys: Keys) {
    || e == Observed(keys)
    || (e.Accepted? && e.candidate.keys == keys && Step(s, e).1.None?)
  }

  /** The keys are the learned ones, older than them, or in conflict with them. */
  predicate Remembered(learned: Option<Learned>, keys: Keys) {
    && learned.Some? && keys.generation <= learned.value.keys.generation
    && (keys.generation == learned.value.keys.generation ==>
          keys.digest == learned.value.keys.digest || learned.value.conflicting)
  }

  lemma StepRemembers(s: State, e: Event, keys: Keys)
    ensures Brings(s, e, keys) ==> Remembered(Step(s, e).0.learned, keys)
    ensures Remembered(s.learned, keys) ==> Remembered(Step(s, e).0.learned, keys)
    ensures var after := Step(s, e).0.learned;
      after.Some? && (s.learned.None? || after.value.keys != s.learned.value.keys) ==>
        Brings(s, e, after.value.keys) && !after.value.conflicting
  {
  }

  /**
   * In every run, no keys that were brought are newer than the learned ones, keys of the same
   * generation agree with them or the conflict is known, and the learned ones were brought.
   */
  lemma {:induction false} LearnedIsNewest(
      authority: Bytes, environment: string, events: seq<Event>, i: nat, keys: Keys)
    requires i < |events| && Brings(Run(Initial(authority, environment), events[..i]), events[i], keys)
    ensures Remembered(Run(Initial(authority, environment), events).learned, keys)
  {
    hide Step, Brings, Remembered;
    var start := Initial(authority, environment);
    var n := |events| - 1;
    var before := events[..n];
    if i < n {
      assert before[..i] == events[..i];
      LearnedIsNewest(authority, environment, before, i, keys);
    }
    StepRemembers(Run(start, before), events[n], keys);
  }

  lemma {:induction false} LearnedWasBrought(authority: Bytes, environment: string, events: seq<Event>) returns (i: nat)
    requires Run(Initial(authority, environment), events).learned.Some?
    ensures i < |events|
    ensures Brings(Run(Initial(authority, environment), events[..i]), events[i],
      Run(Initial(authority, environment), events).learned.value.keys)
  {
    hide Step, Brings, Remembered;
    var start := Initial(authority, environment);
    var n := |events| - 1;
    var before := events[..n];
    var s := Run(start, before);
    var after := Run(start, events).learned.value.keys;
    StepRemembers(s, events[n], after);
    if s.learned.Some? && s.learned.value.keys == after {
      i := LearnedWasBrought(authority, environment, before);
      assert before[..i] == events[..i];
    } else {
      i := n;
    }
  }

  // -------------------------------------------------------- conflicting roots

  /** The generation was decided twice, or has been left behind. */
  predicate Burnt(s: State, generation: nat) {
    s.learned.Some? && (s.learned.value.keys.generation > generation ||
      (s.learned.value.keys.generation == generation && s.learned.value.conflicting))
  }

  lemma ConflictBurns(s: State, keys: Keys)
    requires Step(s, Observed(keys)).1 == Some(Equivocation)
    ensures Burnt(Step(s, Observed(keys)).0, keys.generation)
  {
  }

  lemma BurntStays(s: State, e: Event, generation: nat)
    requires Burnt(s, generation)
    ensures Burnt(Step(s, e).0, generation)
    ensures e.Accepted? && Step(s, e).1.None? ==> e.candidate.keys.generation > generation
  {
  }

  /** Once a generation is seen decided twice, nothing of it, or older, is ever accepted again. */
  lemma {:induction false} ConflictIsFinal(s: State, keys: Keys, events: seq<Event>, c: Decision)
    requires Step(s, Observed(keys)).1 == Some(Equivocation)
    ensures Burnt(Run(Step(s, Observed(keys)).0, events), keys.generation)
    ensures Step(Run(Step(s, Observed(keys)).0, events), Accepted(c)).1.None? ==> c.keys.generation > keys.generation
  {
    hide Burnt, Step;
    var begun := Step(s, Observed(keys)).0;
    if events == [] {
      ConflictBurns(s, keys);
    } else {
      var before := events[..|events| - 1];
      ConflictIsFinal(s, keys, before, c);
      BurntStays(Run(begun, before), events[|events| - 1], keys.generation);
    }
    BurntStays(Run(begun, events), Accepted(c), keys.generation);
  }

  // ----------------------------------------------------------- release order

  predicate AllPositive(sequences: seq<nat>) {
    forall i :: 0 <= i < |sequences| ==> sequences[i] > 0
  }

  predicate StrictlyIncreasing(sequences: seq<nat>) {
    forall i, j :: 0 <= i < j < |sequences| ==> sequences[i] < sequences[j]
  }

  /** `increasing`: the scan with a running previous value. */
  method Increasing(sequences: seq<nat>) returns (ok: bool)
    ensures ok <==> AllPositive(sequences) && StrictlyIncreasing(sequences)
  {
    var previous := 0;
    for i := 0 to |sequences|
      invariant previous == if i == 0 then 0 else sequences[i - 1]
      invariant forall k :: 0 <= k < i ==> 0 < sequences[k] <= previous
      invariant forall j, k :: 0 <= j < k < i ==> sequences[j] < sequences[k]
    {
      if previous >= sequences[i] {
        return false;
      }
      previous := sequences[i];
    }
    return true;
  }
}
