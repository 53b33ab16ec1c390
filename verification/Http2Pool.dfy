/**
 * The HTTP/2 pool as interleaved steps: acquire callers, lock-free connection events,
 * drop guards, and notifications that follow their change one step later.
 *
 * Each step of the locked part of `acquire` makes one access to shared state: a load of one
 * atomic, a look at one sender, or one store. Connection events can fall between any two.
 */
module Http2Pool {
  import opened Basics
  import PoolSpec

  datatype Sender = Open | Shut | Taken

  datatype Channel = Channel(active: nat, maximum: nat, retired: bool, finished: bool, sender: Sender)

  /** What the filter has loaded of the channel it looks at: nothing, its flag, its flag and count. */
  datatype Load = Unread | Unretired | Active(active: nat)

  /** Where one `acquire` call stands. The phases from `Retaining` to `Counting` hold the state lock. */
  datatype Phase =
    | Start
    | Enabled
    | Retaining(next: nat)
    | Filtering(next: nat, eligible: seq<nat>, load: Load)
    | Trying(queue: seq<nat>)
    | Taking(id: nat)
    | Discarding(id: nat, queue: seq<nat>)
    | Counting(next: nat, serving: nat)
    | Establishing
    | Pushed
    | Unowned(again: bool)
    | Parked
    | Leaving
    | Done

  datatype Task = Task(bytes: nat, phase: Phase, woken: bool)

  datatype Limits = Limits(connections: nat, requests: nat, bytes: nat)

  /**
   * `list` is the pool's channel vector. `owed` counts threads that have changed an atomic
   * and have not yet called `notify_waiters`. `disturbed` records whether a notification
   * has gone out since the state lock was last taken.
   */
  datatype State = State(
    limits: Limits, list: seq<nat>, channels: seq<Channel>, connecting: bool, closed: bool,
    waitingRequests: nat, waitingBytes: nat, tasks: seq<Task>, leases: seq<PoolSpec.Lease>,
    lock: Option<nat>, disturbed: bool, owed: nat)

  datatype Label =
    | Arrive(bytes: nat)
    | Advance(task: nat, choice: nat)
    | Connected(task: nat, channel: Channel)
    | Fail(task: nat)
    | GiveUp(task: nat)
    | DropLease(lease: nat)
    | SetMaximum(id: nat, maximum: nat)
    | ShutSender(id: nat)
    | ObserveShut(id: nat)
    | Retire(id: nat)
    | Finish(id: nat)
    | Notify
    | Close

  function Initial(limits: Limits): State {
    State(limits, [], [], false, false, 0, 0, [], [], None, false, 0)
  }

  predicate Locked(p: Phase) {
    p.Retaining? || p.Filtering? || p.Trying? || p.Taking? || p.Discarding? || p.Counting?
  }

  predicate Owns(p: Phase) {
    p.Establishing? || p.Pushed?
  }

  predicate Eligible(c: Channel) {
    !c.retired && c.active < c.maximum
  }

  // -------------------------------------------------------------------- steps

  function Set(s: State, t: nat, phase: Phase): State
    requires t < |s.tasks|
  {
    s.(tasks := s.tasks[t := s.tasks[t].(phase := phase)])
  }

  function Unlock(s: State, t: nat, phase: Phase): State
    requires t < |s.tasks|
  {
    Set(s, t, phase).(lock := None)
  }

  function SetChannel(s: State, id: nat, c: Channel): State
    requires id < |s.channels|
  {
    s.(channels := s.channels[id := c])
  }

  /** `notify_waiters`: every future created before the call completes. */
  function WakeAll(tasks: seq<Task>): (woken: seq<Task>)
    ensures |woken| == |tasks|
    ensures forall i :: 0 <= i < |tasks| ==> woken[i] == tasks[i].(woken := true)
  {
    seq(|tasks|, i requires 0 <= i < |tasks| => tasks[i].(woken := true))
  }

  function Notified(s: State): State {
    s.(tasks := WakeAll(s.tasks), disturbed := true)
  }

  /** `Waiting::new`. */
  function DoArrive(s: State, bytes: nat): State {
    if s.lock.Some? || s.closed || s.waitingRequests >= s.limits.requests || s.waitingBytes + bytes > s.limits.bytes
      then s
    else s.(waitingRequests := s.waitingRequests + 1, waitingBytes := s.waitingBytes + bytes,
            tasks := s.tasks + [Task(bytes, Start, false)])
  }

  /** Create and enable the notification future. */
  function DoEnable(s: State, t: nat): State
    requires t < |s.tasks|
  {
    s.(tasks := s.tasks[t := s.tasks[t].(phase := Enabled, woken := false)])
  }

  /** Take the state lock; a closed pool ends the call. */
  function DoLock(s: State, t: nat): State
    requires t < |s.tasks|
  {
    if s.lock.Some? then s
    else if s.closed then Set(s, t, Leaving)
    else Set(s, t, Retaining(0)).(lock := Some(t), disturbed := false)
  }

  /** `retain`: one channel's finished flag. */
  function DoRetain(s: State, t: nat, i: nat): State
    requires t < |s.tasks|
  {
    if i >= |s.list| then Set(s, t, Filtering(0, [], Unread))
    else if s.list[i] < |s.channels| && s.channels[s.list[i]].finished then s.(list := s.list[..i] + s.list[i + 1..])
    else Set(s, t, Retaining(i + 1))
  }

  /** The filter: three loads for each channel, none of them repeated. */
  function AfterFilter(s: State, i: nat, eligible: seq<nat>, load: Load): (p: Phase)
    ensures p.Filtering? || p.Trying?
  {
    if i >= |s.list| then Trying(eligible)
    else if s.list[i] >= |s.channels| then Filtering(i + 1, eligible, Unread)
    else
      var c := s.channels[s.list[i]];
      match load
      case Unread => if c.retired then Filtering(i + 1, eligible, Unread) else Filtering(i, eligible, Unretired)
      case Unretired => Filtering(i, eligible, Active(c.active))
      case Active(active) =>
        Filtering(i + 1, if active < c.maximum then eligible + [s.list[i]] else eligible, Unread)
  }

  /** Look at the sender of one eligible channel, in whatever order the sort chose. */
  function AfterTry(s: State, queue: seq<nat>, choice: nat): (p: Phase)
    ensures p == Counting(0, 0) || p == Trying(queue) || p.Taking? || p.Discarding?
  {
    if queue == [] then Counting(0, 0)
    else if choice >= |queue| || queue[choice] >= |s.channels| then Trying(queue)
    else if s.channels[queue[choice]].sender.Open? then Taking(queue[choice])
    else Discarding(queue[choice], queue[..choice] + queue[choice + 1..])
  }

  /** Count the new lease and return it, whatever has become of the sender meanwhile. */
  function DoTake(s: State, t: nat, id: nat): State
    requires t < |s.tasks|
  {
    if id >= |s.channels| then s
    else
      var c := s.channels[id];
      var r := Unlock(SetChannel(s, id, c.(active := c.active + 1)), t, Leaving);
      r.(leases := s.leases + [PoolSpec.Lease(id, true)])
  }

  /** Retire a channel whose sender was found shut. Nobody is notified. */
  function DoDiscard(s: State, t: nat, id: nat, queue: seq<nat>): State
    requires t < |s.tasks|
  {
    if id >= |s.channels| then s
    else Set(SetChannel(s, id, s.channels[id].(retired := true)), t, Trying(queue))
  }

  function DoCount(s: State, t: nat, i: nat, serving: nat): State
    requires t < |s.tasks|
  {
    if i < |s.list| then
      var serves := s.list[i] < |s.channels| && !s.channels[s.list[i]].retired;
      Set(s, t, Counting(i + 1, if serves then serving + 1 else serving))
    else if !s.connecting && serving < s.limits.connections && |s.list| <= s.limits.connections then
      Unlock(s, t, Establishing).(connecting := true)
    else Unlock(s, t, Parked)
  }

  /** `Waiting::drop`. */
  function DoLeave(s: State, t: nat): State
    requires t < |s.tasks|
  {
    if s.lock.Some? || s.waitingRequests == 0 || s.waitingBytes < s.tasks[t].bytes then s
    else Set(s, t, Done).(waitingRequests := s.waitingRequests - 1, waitingBytes := s.waitingBytes - s.tasks[t].bytes)
  }

  /** `Establishment::drop` after a publication, before its notification. */
  function DoRelease(s: State, t: nat): State
    requires t < |s.tasks|
  {
    if s.lock.Some? then s else Set(s, t, Unowned(true)).(connecting := false)
  }

  /** The notification that ends `Establishment::drop`. */
  function DoNotifyOwner(s: State, t: nat, again: bool): State
    requires t < |s.tasks|
  {
    Set(Notified(s), t, if again then Start else Leaving)
  }

  /** A parked caller runs again once its future has completed. */
  function DoWake(s: State, t: nat): State
    requires t < |s.tasks|
  {
    if s.tasks[t].woken then Set(s, t, Start) else s
  }

  function DoAdvance(s: State, t: nat, choice: nat): State {
    if t >= |s.tasks| then s
    else match s.tasks[t].phase
      case Start => DoEnable(s, t)
      case Enabled => DoLock(s, t)
      case Retaining(i) => DoRetain(s, t, i)
      case Filtering(i, eligible, load) => Set(s, t, AfterFilter(s, i, eligible, load))
      case Trying(queue) => Set(s, t, AfterTry(s, queue, choice))
      case Taking(id) => DoTake(s, t, id)
      case Discarding(id, queue) => DoDiscard(s, t, id, queue)
      case Counting(i, serving) => DoCount(s, t, i, serving)
      case Establishing => s
      case Pushed => DoRelease(s, t)
      case Unowned(again) => DoNotifyOwner(s, t, again)
      case Parked => DoWake(s, t)
      case Leaving => DoLeave(s, t)
      case Done => s
  }

  /** The dial succeeded: publish the channel, unless the pool was closed meanwhile. */
  function DoConnected(s: State, t: nat, c: Channel): State {
    if t >= |s.tasks| || !s.tasks[t].phase.Establishing? || s.lock.Some? || s.closed || c.active != 0 then s
    else Set(s, t, Pushed).(list := s.list + [|s.channels|], channels := s.channels + [c])
  }

  /** The dial failed, the pool closed, or the caller went away: the opener's guard drops. */
  function DoFail(s: State, t: nat): State {
    if t >= |s.tasks| || !s.tasks[t].phase.Establishing? || s.lock.Some? then s
    else Set(s, t, Unowned(false)).(connecting := false)
  }

  function DoGiveUp(s: State, t: nat): State {
    if t < |s.tasks| && (s.tasks[t].phase.Start? || s.tasks[t].phase.Enabled? || s.tasks[t].phase.Parked?)
    then Set(s, t, Leaving) else s
  }

  /** `Lease::drop`, before its notification. */
  function DoDropLease(s: State, l: nat): State {
    if l >= |s.leases| || !s.leases[l].live || s.leases[l].member >= |s.channels| then s
    else
      var id := s.leases[l].member;
      var c := s.channels[id];
      if c.active == 0 then s
      else
        var r := SetChannel(s, id, c.(active := c.active - 1));
        r.(leases := s.leases[l := s.leases[l].(live := false)], owed := s.owed + 1)
  }

  /** The lock-free changes to one channel, each before its notification if it has one. */
  function DoChannelEvent(s: State, l: Label): State {
    match l
    case SetMaximum(id, m) =>
      if id < |s.channels| && s.channels[id].maximum != m
      then SetChannel(s, id, s.channels[id].(maximum := m)).(owed := s.owed + 1) else s
    case ShutSender(id) =>
      if id < |s.channels| && s.channels[id].sender.Open?
      then SetChannel(s, id, s.channels[id].(sender := Shut)) else s
    case ObserveShut(id) =>
      if id < |s.channels| && s.channels[id].sender.Shut? && !s.channels[id].retired
      then SetChannel(s, id, s.channels[id].(retired := true)).(owed := s.owed + 1) else s
    case Retire(id) =>
      if id < |s.channels| then SetChannel(s, id, s.channels[id].(retired := true)).(owed := s.owed + 1) else s
    case Finish(id) =>
      if id < |s.channels| then SetChannel(s, id, s.channels[id].(finished := true)).(owed := s.owed + 1) else s
    case _ => s
  }

  function RetireListed(channels: seq<Channel>, list: seq<nat>): (r: seq<Channel>)
    ensures |r| == |channels|
    ensures forall i :: 0 <= i < |r| ==>
      r[i] == if i in list then channels[i].(retired := true, sender := Taken) else channels[i]
  {
    seq(|channels|, i requires 0 <= i < |channels| =>
      if i in list then channels[i].(retired := true, sender := Taken) else channels[i])
  }

  /** The locked part of `close`, before its notification. */
  function DoClose(s: State): State {
    if s.lock.Some? then s
    else s.(closed := true, channels := RetireListed(s.channels, s.list), owed := s.owed + 1)
  }

  function Step(s: State, l: Label): State {
    match l
    case Arrive(bytes) => DoArrive(s, bytes)
    case Advance(t, choice) => DoAdvance(s, t, choice)
    case Connected(t, c) => DoConnected(s, t, c)
    case Fail(t) => DoFail(s, t)
    case GiveUp(t) => DoGiveUp(s, t)
    case DropLease(lease) => DoDropLease(s, lease)
    case Notify => if s.owed == 0 then s else Notified(s).(owed := s.owed - 1)
    case Close => DoClose(s)
    case _ => DoChannelEvent(s, l)
  }

  function Run(limits: Limits, labels: seq<Label>): State {
    if labels == [] then Initial(limits)
    else Step(Run(limits, labels[..|labels| - 1]), labels[|labels| - 1])
  }

  /** The success condition of `close`. */
  predicate CloseSucceeds(s: State) {
    && s.closed && !s.connecting
    && forall i :: 0 <= i < |s.list| && s.list[i] < |s.channels| ==> s.channels[s.list[i]].finished
  }
}
