/**
 * Waiting for an encrypted session: callers that select, park and are woken.
 *
 * One machine serves both clients. The Rust client wakes every waiter and does so after each
 * change but its own selections; the JavaScript client wakes one waiter, and selections that
 * change something wake the next. Nothing but the step itself is atomic, so the interleavings
 * include all that the Rust pool's lock and the JavaScript event loop allow.
 */
module SessionWaiting {
  import PoolSpec

  /** What a session's core answers a request: a request, not now, never again, or an error. */
  datatype Offer = Ready | Full | Spent | Broken

  datatype Session = Session(active: nat, retired: bool, offer: Offer)

  /** `seen` is the number of notifications when the caller began to look. */
  datatype Phase =
    | Top
    | Enabled(seen: nat)
    | Trying(rest: seq<nat>, seen: nat)
    | Waiting
    | Signalled
    | AtSetup
    | Gone

  /** `woken` marks a caller that a notification took from the queue and that has not parked since. */
  datatype Caller = Caller(phase: Phase, woken: bool)

  /**
   * `all` tells the Rust client from the JavaScript client. `owed` counts changes whose
   * notification is still to come. `dropped` says that a woken caller has left without looking
   * since the last notification.
   */
  datatype State = State(
    all: bool, maximum: nat, listed: seq<nat>, sessions: seq<Session>, setup: PoolSpec.Opening, closed: bool,
    callers: seq<Caller>, queue: seq<nat>, version: nat, owed: nat, dropped: bool)

  datatype Label =
    | Arrive
    | Enable(t: nat)
    | Begin(t: nat)
    | Try(t: nat, choice: nat, stale: bool, fails: bool, next: Offer)
    | Retain(t: nat, id: nat)
    | Finish(t: nat)
    | Resume(t: nat)
    | Abort(t: nat)
    | Acknowledge(id: nat, offer: Offer)
    | DropLease(id: nat)
    | RetireSession(id: nat)
    | Publish(offer: Offer)
    | EndSetup(ok: bool)
    | Pay
    | Close

  function Initial(all: bool, maximum: nat): State {
    State(all, maximum, [], [], PoolSpec.Idle, false, [], [], 0, 0, false)
  }

  // ------------------------------------------------------------------- the pool

  function Live(sessions: seq<Session>): set<nat> {
    set id | 0 <= id < |sessions| && !sessions[id].retired
  }

  predicate Spare(c: Session) {
    c.retired && c.active == 0
  }

  function Kept(sessions: seq<Session>): set<nat> {
    set id | 0 <= id < |sessions| && !Spare(sessions[id])
  }

  function ServingIn(s: State): nat {
    PoolSpec.CountIn(Live(s.sessions), s.listed)
  }

  function KeptIn(s: State): nat {
    PoolSpec.CountIn(Kept(s.sessions), s.listed)
  }

  /** Every listed session that still serves has to answer: not now. */
  predicate AllFull(s: State) {
    forall id :: id in s.listed && id < |s.sessions| && !s.sessions[id].retired ==> s.sessions[id].offer.Full?
  }

  predicate NoRoom(s: State) {
    !s.setup.Idle? || ServingIn(s) >= s.maximum || KeptIn(s) > s.maximum
  }

  /** A selection now would find a session to use or to retire, or room to open one. */
  predicate CanServe(s: State) {
    !s.closed && !(AllFull(s) && NoRoom(s))
  }

  // -------------------------------------------------------------- notifications

  function Signal(callers: seq<Caller>, ids: seq<nat>): (r: seq<Caller>)
    ensures |r| == |callers|
    ensures forall t :: 0 <= t < |r| ==> r[t] == if t in ids then Caller(Signalled, true) else callers[t]
  {
    seq(|callers|, t requires 0 <= t < |callers| => if t in ids then Caller(Signalled, true) else callers[t])
  }

  /** `notify_waiters`, or the JavaScript `#notify` of the waiter that has waited longest. */
  function Notified(s: State): State {
    var n := if s.all || s.queue == [] then |s.queue| else 1;
    s.(callers := Signal(s.callers, s.queue[..n]), queue := s.queue[n..], version := s.version + 1, dropped := false)
  }

  /** A change of the Rust client that notifies later, and of the JavaScript client that notifies at once. */
  function Announced(s: State): State {
    if s.all then s.(owed := s.owed + 1) else Notified(s)
  }

  /** A change inside a selection: the Rust client stays silent. */
  function Passed(s: State): State {
    if s.all then s else Notified(s)
  }

  // ---------------------------------------------------------------------- steps

  function Set(s: State, t: nat, phase: Phase): State
    requires t < |s.callers|
  {
    s.(callers := s.callers[t := s.callers[t].(phase := phase)])
  }

  function Leave(s: State, t: nat, phase: Phase): State
    requires t < |s.callers|
  {
    s.(callers := s.callers[t := Caller(phase, false)])
  }

  function SetSession(s: State, id: nat, c: Session): State
    requires id < |s.sessions|
  {
    s.(sessions := s.sessions[id := c])
  }

  function Without(list: seq<nat>, id: nat): seq<nat> {
    if list == [] then []
    else
      var n := |list| - 1;
      var rest := Without(list[..n], id);
      if list[n] == id then rest else rest + [list[n]]
  }

  /** Retire a session; an idle one leaves the list at once. */
  function Retired(s: State, id: nat): State
    requires id < |s.sessions|
  {
    var r := SetSession(s, id, s.sessions[id].(retired := true));
    if s.sessions[id].active == 0 then r.(listed := Without(s.listed, id)) else r
  }

  /** The list without the sessions that are retired and idle. */
  function Pruned(s: State, list: seq<nat>): seq<nat> {
    if list == [] then []
    else
      var n := |list| - 1;
      var rest := Pruned(s, list[..n]);
      if list[n] < |s.sessions| && Spare(s.sessions[list[n]]) then rest else rest + [list[n]]
  }

  function Serving(s: State, list: seq<nat>): seq<nat> {
    if list == [] then []
    else
      var n := |list| - 1;
      var rest := Serving(s, list[..n]);
      if list[n] < |s.sessions| && !s.sessions[list[n]].retired then rest + [list[n]] else rest
  }

  function DoBegin(s: State, t: nat, seen: nat): State
    requires t < |s.callers|
  {
    if s.closed then Leave(s, t, Gone)
    else
      var list := Pruned(s, s.listed);
      Set(s, t, Trying(Serving(s, list), seen)).(listed := list)
  }

  /**
   * Look at one session, in whatever order the sort chose. `fails` says that the JavaScript
   * caller's wait for evidence failed or was aborted, whatever the session would have answered.
   */
  function DoTry(s: State, t: nat, rest: seq<nat>, seen: nat, choice: nat, stale: bool, fails: bool, next: Offer): State
    requires t < |s.callers|
  {
    if choice >= |rest| || rest[choice] >= |s.sessions| then s
    else
      var id, left := rest[choice], Trying(rest[..choice] + rest[choice + 1..], seen);
      var c := s.sessions[id];
      if c.retired then
        // A core that was freed while this caller waited for evidence ends the JavaScript call.
        if s.all || !fails then Set(s, t, left) else Leave(s, t, Gone)
      else if stale then Passed(Set(Retired(s, id), t, left))
      else if !s.all && fails then Notified(Leave(Retired(s, id), t, Gone))
      else match c.offer
        case Ready => Passed(Leave(SetSession(s, id, c.(active := c.active + 1, offer := next)), t, Gone))
        case Full => Set(s, t, left)
        case Spent => Passed(Set(Retired(s, id), t, left))
        case Broken => if s.all then Leave(s, t, Gone) else Notified(Leave(Retired(s, id), t, Gone))
  }

  /**
   * After the last session: open one, wait for a setup under way, or park unless something was
   * announced. A close that came meanwhile ends the selection.
   */
  function DoFinish(s: State, t: nat, seen: nat): State
    requires t < |s.callers|
  {
    if s.closed then Leave(s, t, Gone)
    else if s.setup.Idle? && ServingIn(s) < s.maximum && |s.listed| <= s.maximum
      then Leave(s, t, AtSetup).(setup := PoolSpec.Dialing)
    else if !s.all && !s.setup.Idle? then Leave(s, t, AtSetup)
    else if seen != s.version then Set(s, t, Top)
    else Leave(s, t, Waiting).(queue := s.queue + [t])
  }

  function DoAbort(s: State, t: nat): State
    requires t < |s.callers|
  {
    var r := Leave(s, t, Gone);
    match s.callers[t].phase
    case Waiting => Passed(r.(queue := Without(s.queue, t)))
    case Signalled => Passed(r)
    case Top => r.(dropped := s.dropped || (!s.all && s.callers[t].woken))
    case AtSetup => r
    case _ => s
  }

  /** Callers that waited for the setup go on, or fail with it. */
  function AfterSetup(callers: seq<Caller>, ok: bool): (r: seq<Caller>)
    ensures |r| == |callers|
    ensures forall t :: 0 <= t < |r| ==>
      r[t] == if callers[t].phase.AtSetup? then Caller(if ok then Top else Gone, false) else callers[t]
  {
    seq(|callers|, t requires 0 <= t < |callers| =>
      if callers[t].phase.AtSetup? then Caller(if ok then Top else Gone, false) else callers[t])
  }

  function DoDropLease(s: State, id: nat): State {
    if id >= |s.sessions| || s.sessions[id].active == 0 then s
    else
      var c := s.sessions[id].(active := s.sessions[id].active - 1);
      var r := SetSession(s, id, c);
      Announced(if !s.all && Spare(c) then r.(listed := Without(s.listed, id)) else r)
  }

  function DoCaller(s: State, l: Label, t: nat): State
    requires t < |s.callers|
  {
    var phase := s.callers[t].phase;
    match l
    case Enable(_) => if phase.Top? then Set(s, t, Enabled(s.version)) else s
    case Begin(_) => if phase.Enabled? then DoBegin(s, t, phase.seen) else s
    case Try(_, choice, stale, fails, next) =>
      if phase.Trying? then DoTry(s, t, phase.rest, phase.seen, choice, stale, fails, next) else s
    case Retain(_, id) =>
      if phase.Trying? && s.all && id < |s.sessions| && !s.sessions[id].retired then Retired(s, id) else s
    case Finish(_) => if phase.Trying? && phase.rest == [] then DoFinish(s, t, phase.seen) else s
    case Resume(_) => if phase.Signalled? then Set(s, t, Top) else s
    case Abort(_) => DoAbort(s, t)
    case _ => s
  }

  function DoPool(s: State, l: Label): State {
    match l
    case Arrive => s.(callers := s.callers + [Caller(Top, false)])
    case Acknowledge(id, offer) =>
      if id < |s.sessions| then SetSession(s, id, s.sessions[id].(offer := offer)).(owed := s.owed + 1) else s
    case DropLease(id) => DoDropLease(s, id)
    case RetireSession(id) =>
      if id >= |s.sessions| then s
      else if s.all then SetSession(s, id, s.sessions[id].(retired := true)).(owed := s.owed + 1)
      else if s.sessions[id].retired then s else Notified(Retired(s, id))
    case Publish(offer) =>
      if s.setup.Dialing? && !s.closed
      then s.(listed := s.listed + [|s.sessions|], sessions := s.sessions + [Session(0, false, offer)],
        setup := PoolSpec.Published)
      else s
    case EndSetup(ok) =>
      if s.setup.Idle? then s else Announced(s.(setup := PoolSpec.Idle, callers := AfterSetup(s.callers, ok)))
    case Pay => if s.owed == 0 then s else Notified(s).(owed := s.owed - 1)
    case Close => s.(closed := true, owed := s.owed + 1)
    case _ => s
  }

  predicate OfCaller(l: Label) {
    l.Enable? || l.Begin? || l.Try? || l.Retain? || l.Finish? || l.Resume? || l.Abort?
  }

  function Step(s: State, l: Label): State {
    if !OfCaller(l) then DoPool(s, l)
    else if l.t < |s.callers| then DoCaller(s, l, l.t)
    else s
  }

  function Run(all: bool, maximum: nat, labels: seq<Label>): State {
    if labels == [] then Initial(all, maximum)
    else Step(Run(all, maximum, labels[..|labels| - 1]), labels[|labels| - 1])
  }
}
