/**
 * Which channel an undisturbed `acquire` gets: the least loaded one that is open and has room,
 * if there is one; otherwise it opens another if that leaves the pool within its limits.
 */
module Http2Selection {
  import opened Basics
  import opened Http2Pool
  import opened Http2Accounting
  import opened Http2Counters
  import opened Http2Bounds
  import opened Http2Wakeups
  import PoolSpec

  // ----------------------------------------------------------------- the law

  /** A listed channel that a request can be given to. */
  predicate Usable(s: State, id: nat) {
    && id in s.list && id < |s.channels|
    && var c := s.channels[id];
       !c.finished && !c.retired && c.active < c.maximum && c.sender == Open
  }

  /** A listed channel that looks fit but whose sender is shut: a selection that tries it retires it. */
  predicate Dead(s: State, id: nat) {
    && id in s.list && id < |s.channels|
    && var c := s.channels[id];
       !c.finished && !c.retired && c.active < c.maximum && c.sender != Open
  }

  /** The listed channels that are not finished. */
  function Kept(s: State): set<nat> {
    set id | id in s.list && id < |s.channels| && !s.channels[id].finished
  }

  /** Of those, the ones that still serve once the dead ones are retired. */
  function Remains(s: State): set<nat> {
    set id | id in Kept(s) && !s.channels[id].retired && !Dead(s, id)
  }

  predicate HasRoom(s: State) {
    !s.connecting && |Remains(s)| < s.limits.connections && |Kept(s)| <= s.limits.connections
  }

  predicate AllKnown(channels: seq<Channel>, queue: seq<nat>) {
    forall id :: id in queue ==> id < |channels|
  }

  /** No channel of the queue has less load than the one at this place. */
  predicate LeastAt(channels: seq<Channel>, queue: seq<nat>, i: nat)
    requires AllKnown(channels, queue)
  {
    && i < |queue| && queue[i] < |channels|
    && forall id :: id in queue ==> channels[queue[i]].active <= channels[id].active
  }

  /** The sort: of the channels left, one with the least load comes first. */
  ghost predicate Sorts(channels: seq<Channel>, pick: seq<nat> -> nat) {
    forall queue: seq<nat> :: queue != [] && AllKnown(channels, queue) ==> LeastAt(channels, queue, pick(queue))
  }

  /** The caller holds one more lease, on this channel, and its count says so. */
  predicate Leased(s: State, r: State, t: nat, id: nat)
    requires t < |s.tasks| && id < |s.channels|
  {
    && r.leases == s.leases + [PoolSpec.Lease(id, true)]
    && t < |r.tasks| && r.tasks[t].phase.Leaving?
    && |r.channels| == |s.channels| && r.channels[id] == s.channels[id].(active := s.channels[id].active + 1)
    && r.connecting == s.connecting && r.lock.None?
  }

  /** The caller got a usable channel, and none usable has less load. */
  predicate Served(s: State, r: State, t: nat, id: nat)
    requires t < |s.tasks|
  {
    && Usable(s, id) && Leased(s, r, t, id)
    && forall x :: x in s.list && Usable(s, x) ==> s.channels[id].active <= s.channels[x].active
  }

  /** The caller got nothing: it opens if there is room and parks if not, and the dead channels are retired. */
  predicate Unserved(s: State, r: State, t: nat)
    requires t < |s.tasks|
  {
    && t < |r.tasks| && r.leases == s.leases && r.lock.None?
    && r.tasks[t].phase == (if HasRoom(s) then Establishing else Parked)
    && r.connecting == (s.connecting || HasRoom(s))
    && |r.channels| == |s.channels|
    && forall id :: 0 <= id < |s.channels| ==>
         r.channels[id] == if Dead(s, id) then s.channels[id].(retired := true) else s.channels[id]
  }

  predicate NoneUsable(s: State) {
    forall id :: id in s.list ==> !Usable(s, id)
  }

  // ------------------------------------------------------------ phase by phase

  /** One more step of an undisturbed selection. */
  lemma SoloStep(s: State, s': State, t: nat, pick: seq<nat> -> nat)
    requires t < |s.tasks| && Locked(s.tasks[t].phase)
    requires s' == DoAdvance(s, t, Choice(s.tasks[t].phase, pick)) && Progress(s, s', t)
    ensures Solo(s, t, pick) == Solo(s', t, pick)
  {
  }

  lemma RetainStep(s: State, t: nat, i: nat, pick: seq<nat> -> nat)
    requires t < |s.tasks| && s.tasks[t].phase == Retaining(i) && i <= |s.list| && ListFits(s.list, |s.channels|)
    ensures Solo(s, t, pick) == Solo(DoRetain(s, t, i), t, pick)
  {
    hide Solo, ListFits;
    SoloStep(s, DoRetain(s, t, i), t, pick);
  }

  /** What `retain` leaves: the listed channels that are not finished. */
  ghost predicate Kempt(s: State, list: seq<nat>) {
    && ListFits(list, |s.channels|)
    && forall id :: id in list <==> id in s.list && id < |s.channels| && !s.channels[id].finished
  }

  lemma KemptWithout(s: State, i: nat, list: seq<nat>)
    requires ListFits(s.list, |s.channels|) && i < |s.list| && s.channels[s.list[i]].finished
    requires Kempt(s.(list := s.list[..i] + s.list[i + 1..]), list)
    ensures Kempt(s, list)
  {
    var cut := s.list[..i] + s.list[i + 1..];
    assert s.list == s.list[..i] + [s.list[i]] + s.list[i + 1..];
    assert forall id :: id in s.list <==> id in cut || id == s.list[i];
  }

  lemma CutFits(list: seq<nat>, n: nat, i: nat)
    requires ListFits(list, n) && i < |list|
    ensures ListFits(list[..i] + list[i + 1..], n)
  {
  }

  lemma {:induction false} Retains(s: State, t: nat, i: nat, pick: seq<nat> -> nat) returns (s': State)
    requires t < |s.tasks| && s.tasks[t].phase == Retaining(i) && i <= |s.list| && ListFits(s.list, |s.channels|)
    requires forall j :: 0 <= j < i ==> !s.channels[s.list[j]].finished
    ensures t < |s'.tasks| && Solo(s, t, pick) == Solo(s', t, pick)
    ensures s' == Set(s, t, Filtering(0, [], Unread)).(list := s'.list) && Kempt(s, s'.list)
    decreases |s.list| - i
  {
    hide Solo;
    RetainStep(s, t, i, pick);
    var next := DoRetain(s, t, i);
    if i == |s.list| {
      s' := next;
    } else if s.channels[s.list[i]].finished {
      hide Kempt;
      CutFits(s.list, |s.channels|, i);
      s' := Retains(next, t, i, pick);
      assert next == s.(list := s.list[..i] + s.list[i + 1..]);
      KemptWithout(s, i, s'.list);
    } else {
      s' := Retains(next, t, i + 1, pick);
      assert Set(next, t, Filtering(0, [], Unread)) == Set(s, t, Filtering(0, [], Unread));
    }
  }

  lemma FilterStep(s: State, t: nat, i: nat, eligible: seq<nat>, load: Load, pick: seq<nat> -> nat)
    requires t < |s.tasks| && s.tasks[t].phase == Filtering(i, eligible, load)
    requires Progress(s, Set(s, t, AfterFilter(s, i, eligible, load)), t)
    ensures Solo(s, t, pick) == Solo(Set(s, t, AfterFilter(s, i, eligible, load)), t, pick)
  {
    hide Solo, AfterFilter;
    SoloStep(s, Set(s, t, AfterFilter(s, i, eligible, load)), t, pick);
  }

  lemma FiltersOne(s: State, t: nat, i: nat, eligible: seq<nat>, pick: seq<nat> -> nat)
    requires t < |s.tasks| && s.tasks[t].phase == Filtering(i, eligible, Unread) && i < |s.list|
    requires s.list[i] < |s.channels|
    ensures var more := if Eligible(s.channels[s.list[i]]) then eligible + [s.list[i]] else eligible;
      Solo(s, t, pick) == Solo(Set(s, t, Filtering(i + 1, more, Unread)), t, pick)
  {
    hide Solo;
    var c := s.channels[s.list[i]];
    FilterStep(s, t, i, eligible, Unread, pick);
    if !c.retired {
      var s1 := Set(s, t, Filtering(i, eligible, Unretired));
      FilterStep(s1, t, i, eligible, Unretired, pick);
      var s2 := Set(s1, t, Filtering(i, eligible, Active(c.active)));
      FilterStep(s2, t, i, eligible, Active(c.active), pick);
      var more := if c.active < c.maximum then eligible + [s.list[i]] else eligible;
      assert Set(s2, t, Filtering(i + 1, more, Unread)) == Set(s, t, Filtering(i + 1, more, Unread));
    }
  }

  lemma {:induction false} Filters(s: State, t: nat, i: nat, eligible: seq<nat>, pick: seq<nat> -> nat)
      returns (queue: seq<nat>)
    requires t < |s.tasks| && s.tasks[t].phase == Filtering(i, eligible, Unread) && i <= |s.list|
    requires ListFits(s.list, |s.channels|)
    requires forall id :: id in eligible <==> id in s.list[..i] && Eligible(s.channels[id])
    ensures Solo(s, t, pick) == Solo(Set(s, t, Trying(queue)), t, pick)
    ensures forall id :: id in queue <==> id in s.list && Eligible(s.channels[id])
    decreases |s.list| - i
  {
    hide Solo;
    if i == |s.list| {
      queue := eligible;
      assert s.list[..i] == s.list;
      SoloStep(s, Set(s, t, Trying(queue)), t, pick);
    } else {
      var more := if Eligible(s.channels[s.list[i]]) then eligible + [s.list[i]] else eligible;
      FiltersOne(s, t, i, eligible, pick);
      assert s.list[..i + 1] == s.list[..i] + [s.list[i]];
      var next := Set(s, t, Filtering(i + 1, more, Unread));
      queue := Filters(next, t, i + 1, more, pick);
      assert Set(next, t, Trying(queue)) == Set(s, t, Trying(queue));
    }
  }

  /** The channels once some of them are retired. */
  function Retired(channels: seq<Channel>, ids: seq<nat>): (r: seq<Channel>)
    ensures |r| == |channels|
    ensures forall i :: 0 <= i < |r| ==> r[i] == if i in ids then channels[i].(retired := true) else channels[i]
  {
    seq(|channels|, i requires 0 <= i < |channels| =>
      if i in ids then channels[i].(retired := true) else channels[i])
  }

  predicate SomeOpen(channels: seq<Channel>, queue: seq<nat>) {
    exists id :: id in queue && id < |channels| && channels[id].sender.Open?
  }

  lemma TakesPicked(s: State, t: nat, queue: seq<nat>, pick: seq<nat> -> nat)
    requires t < |s.tasks| && s.tasks[t].phase == Trying(queue) && queue != [] && pick(queue) < |queue|
    requires queue[pick(queue)] < |s.channels| && s.channels[queue[pick(queue)]].sender.Open?
    ensures Leased(s, Solo(s, t, pick), t, queue[pick(queue)])
  {
    hide Solo;
    var id := queue[pick(queue)];
    var s1 := Set(s, t, Taking(id));
    SoloStep(s, s1, t, pick);
    SoloStep(s1, DoTake(s1, t, id), t, pick);
    SoloEnds(DoTake(s1, t, id), t, pick);
  }

  lemma SoloEnds(s: State, t: nat, pick: seq<nat> -> nat)
    requires t < |s.tasks| && !Locked(s.tasks[t].phase)
    ensures Solo(s, t, pick) == s
  {
  }

  /** What is left of a queue once the picked channel has been tried. */
  function Rest(queue: seq<nat>, i: nat): seq<nat>
    requires i < |queue|
  {
    queue[..i] + queue[i + 1..]
  }

  lemma RestMembers(queue: seq<nat>, i: nat)
    requires i < |queue|
    ensures forall id :: id in queue <==> id in Rest(queue, i) || id == queue[i]
  {
    assert queue == queue[..i] + [queue[i]] + queue[i + 1..];
  }

  lemma Discards(s: State, t: nat, queue: seq<nat>, pick: seq<nat> -> nat)
    requires t < |s.tasks| && s.tasks[t].phase == Trying(queue) && queue != [] && pick(queue) < |queue|
    requires queue[pick(queue)] < |s.channels| && !s.channels[queue[pick(queue)]].sender.Open?
    ensures var i := pick(queue); var id := queue[i];
      Solo(s, t, pick)
      == Solo(Set(SetChannel(s, id, s.channels[id].(retired := true)), t, Trying(Rest(queue, i))), t, pick)
  {
    hide Solo;
    var i := pick(queue);
    var id := queue[i];
    var s1 := Set(s, t, Discarding(id, Rest(queue, i)));
    SoloStep(s, s1, t, pick);
    var s2 := DoDiscard(s1, t, id, Rest(queue, i));
    SoloStep(s1, s2, t, pick);
    assert s2 == Set(SetChannel(s, id, s.channels[id].(retired := true)), t, Trying(Rest(queue, i)));
  }

  /** The sort does not look at what a selection changes. */
  lemma SortsStill(a: seq<Channel>, b: seq<Channel>, pick: seq<nat> -> nat)
    requires Sorts(a, pick) && |b| == |a| && forall i :: 0 <= i < |a| ==> b[i].active == a[i].active
    ensures Sorts(b, pick)
  {
    forall queue: seq<nat> | queue != [] && AllKnown(b, queue)
      ensures LeastAt(b, queue, pick(queue))
    {
      assert AllKnown(a, queue) && LeastAt(a, queue, pick(queue));
    }
  }

  /** With an open channel in the queue, the caller gets a least loaded open one. */
  lemma {:induction false} TriesOpen(s: State, t: nat, queue: seq<nat>, pick: seq<nat> -> nat) returns (id: nat)
    requires t < |s.tasks| && s.tasks[t].phase == Trying(queue) && Sorts(s.channels, pick)
    requires AllKnown(s.channels, queue) && SomeOpen(s.channels, queue)
    ensures id in queue && id < |s.channels| && s.channels[id].sender.Open? && Leased(s, Solo(s, t, pick), t, id)
    ensures forall x :: x in queue && s.channels[x].sender.Open? ==> s.channels[id].active <= s.channels[x].active
    decreases |queue|
  {
    hide Solo;
    var i := pick(queue);
    assert LeastAt(s.channels, queue, i);
    id := queue[i];
    assert id in queue;
    if s.channels[id].sender.Open? {
      TakesPicked(s, t, queue, pick);
    } else {
      var dead := id;
      var next := Set(SetChannel(s, dead, s.channels[dead].(retired := true)), t, Trying(Rest(queue, i)));
      Discards(s, t, queue, pick);
      RestMembers(queue, i);
      SortsStill(s.channels, next.channels, pick);
      SomeOpenStill(s.channels, queue, i);
      id := TriesOpen(next, t, Rest(queue, i), pick);
      assert id != dead;
    }
  }

  lemma SomeOpenStill(channels: seq<Channel>, queue: seq<nat>, i: nat)
    requires SomeOpen(channels, queue) && i < |queue| && queue[i] < |channels| && !channels[queue[i]].sender.Open?
    ensures SomeOpen(channels[queue[i] := channels[queue[i]].(retired := true)], Rest(queue, i))
  {
    RestMembers(queue, i);
    var id :| id in queue && id < |channels| && channels[id].sender.Open?;
    assert id in Rest(queue, i);
  }

  lemma TriesEmpty(s: State, t: nat, pick: seq<nat> -> nat)
    requires t < |s.tasks| && s.tasks[t].phase == Trying([])
    ensures Solo(s, t, pick) == Solo(Set(s, t, Counting(0, 0)).(channels := Retired(s.channels, [])), t, pick)
  {
    hide Solo;
    SoloStep(s, Set(s, t, Counting(0, 0)), t, pick);
    assert Retired(s.channels, []) == s.channels;
  }

  lemma PicksLeast(s: State, queue: seq<nat>, pick: seq<nat> -> nat)
    requires Sorts(s.channels, pick) && queue != [] && AllKnown(s.channels, queue)
    ensures pick(queue) < |queue| && queue[pick(queue)] in queue && queue[pick(queue)] < |s.channels|
  {
    assert LeastAt(s.channels, queue, pick(queue));
  }

  /** With none, every channel of the queue is retired and the caller goes on to count. */
  lemma {:induction false} TriesNone(s: State, t: nat, queue: seq<nat>, pick: seq<nat> -> nat)
    requires t < |s.tasks| && s.tasks[t].phase == Trying(queue) && Sorts(s.channels, pick)
    requires AllKnown(s.channels, queue) && !SomeOpen(s.channels, queue)
    ensures Solo(s, t, pick) == Solo(Set(s, t, Counting(0, 0)).(channels := Retired(s.channels, queue)), t, pick)
    decreases |queue|
  {
    hide Solo, Sorts;
    if queue == [] {
      TriesEmpty(s, t, pick);
    } else {
      PicksLeast(s, queue, pick);
      var i := pick(queue);
      var id := queue[i];
      var next := Set(SetChannel(s, id, s.channels[id].(retired := true)), t, Trying(Rest(queue, i)));
      Discards(s, t, queue, pick);
      SortsStill(s.channels, next.channels, pick);
      NoneOpenStill(s.channels, queue, i);
      hide Retired, SomeOpen;
      RestMembers(queue, i);
      TriesNone(next, t, Rest(queue, i), pick);
      RetiredMore(s.channels, queue, i);
      assert Set(next, t, Counting(0, 0)).(channels := Retired(s.channels, queue))
        == Set(s, t, Counting(0, 0)).(channels := Retired(s.channels, queue));
    }
  }

  lemma RetiredMore(channels: seq<Channel>, queue: seq<nat>, i: nat)
    requires i < |queue| && queue[i] < |channels|
    ensures Retired(channels[queue[i] := channels[queue[i]].(retired := true)], Rest(queue, i))
      == Retired(channels, queue)
  {
    RestMembers(queue, i);
  }

  lemma NoneOpenStill(channels: seq<Channel>, queue: seq<nat>, i: nat)
    requires !SomeOpen(channels, queue) && i < |queue| && queue[i] < |channels|
    ensures !SomeOpen(channels[queue[i] := channels[queue[i]].(retired := true)], Rest(queue, i))
  {
    RestMembers(queue, i);
  }

  /** The end of a selection that found nothing to take. */
  predicate Ended(s: State, r: State, t: nat, opens: bool)
    requires t < |s.tasks|
  {
    && t < |r.tasks| && r.leases == s.leases && r.channels == s.channels && r.lock.None?
    && r.tasks[t].phase == (if opens then Establishing else Parked)
    && r.connecting == (s.connecting || opens)
  }

  lemma {:induction false} Counts(s: State, t: nat, i: nat, n: nat, pick: seq<nat> -> nat)
    requires t < |s.tasks| && s.tasks[t].phase == Counting(i, n) && i <= |s.list|
    requires n == ServingIn(s.channels, s.list[..i])
    ensures Ended(s, Solo(s, t, pick), t,
      !s.connecting && ServingIn(s.channels, s.list) < s.limits.connections && |s.list| <= s.limits.connections)
    decreases |s.list| - i
  {
    hide Solo;
    var next := DoCount(s, t, i, n);
    SoloStep(s, next, t, pick);
    if i == |s.list| {
      assert s.list[..i] == s.list;
      SoloEnds(next, t, pick);
    } else {
      assert s.list[..i + 1][..i] == s.list[..i];
      Counts(next, t, i + 1, next.tasks[t].phase.serving, pick);
    }
  }

  // -------------------------------------------------------------- the whole of it

  /** The state in which an undisturbed selection tries the eligible channels. */
  lemma ReachesTrying(s: State, t: nat, pick: seq<nat> -> nat) returns (s': State, queue: seq<nat>)
    requires Shape(s) && t < |s.tasks| && s.tasks[t].phase.Enabled? && s.lock.None? && !s.closed
    ensures t < |s'.tasks| && Solo(DoLock(s, t), t, pick) == Solo(s', t, pick)
    ensures s'.tasks[t].phase == Trying(queue) && ListFits(s'.list, |s.channels|)
    ensures s'.channels == s.channels && s'.leases == s.leases && s'.connecting == s.connecting && s'.limits == s.limits
    ensures forall id :: id in s'.list <==> id in Kept(s)
    ensures forall id :: id in queue <==> Usable(s, id) || Dead(s, id)
  {
    hide Solo;
    var locked := DoLock(s, t);
    var filtering := Retains(locked, t, 0, pick);
    queue := Filters(filtering, t, 0, [], pick);
    s' := Set(filtering, t, Trying(queue));
  }

  lemma SizeOfKept(s: State, list: seq<nat>)
    requires ListFits(list, |s.channels|) && forall id :: id in list <==> id in Kept(s)
    ensures |list| == |Kept(s)|
  {
    PoolSpec.CountInDistinct({}, list);
    assert PoolSpec.Ids(list) == Kept(s);
  }

  lemma SizeOfRemains(s: State, list: seq<nat>, queue: seq<nat>)
    requires ListFits(list, |s.channels|) && forall id :: id in list <==> id in Kept(s)
    requires forall id :: id in queue <==> Dead(s, id)
    ensures ServingIn(Retired(s.channels, queue), list) == |Remains(s)|
  {
    var live := Live(Retired(s.channels, queue));
    PoolSpec.CountInDistinct(live, list);
    assert PoolSpec.Ids(list) * live == Remains(s);
  }

  /**
   * In every reachable state with the lock free and the pool open, a caller that selects with
   * nothing in between gets a lease on a usable channel with the least load exactly if there is a
   * usable one. Otherwise it becomes the opener exactly if there is room once the dead channels
   * are retired, and else it parks.
   */
  lemma SelectionExactly(limits: Limits, labels: seq<Label>, t: nat, pick: seq<nat> -> nat)
    requires var s := Run(limits, labels);
      t < |s.tasks| && s.tasks[t].phase.Enabled? && s.lock.None? && !s.closed && Sorts(s.channels, pick)
    ensures var s := Run(limits, labels); var r := Solo(DoLock(s, t), t, pick);
      if NoneUsable(s) then Unserved(s, r, t) else exists id: nat :: Served(s, r, t, id)
  {
    hide Run, Solo, Shape, Counters, Served, Unserved, NoneUsable;
    var s := Run(limits, labels);
    RunCountsExactly(limits, labels);
    if NoneUsable(s) {
      SelectsNothing(s, t, pick);
    } else {
      var id := SelectsUsable(s, t, pick);
    }
  }

  lemma SelectsUsable(s: State, t: nat, pick: seq<nat> -> nat) returns (id: nat)
    requires Shape(s) && t < |s.tasks| && s.tasks[t].phase.Enabled? && s.lock.None? && !s.closed
    requires Sorts(s.channels, pick) && !NoneUsable(s)
    ensures Served(s, Solo(DoLock(s, t), t, pick), t, id)
  {
    hide Solo, Shape;
    var s', queue := ReachesTrying(s, t, pick);
    var x :| x in s.list && Usable(s, x);
    assert x in queue;
    id := TriesOpen(s', t, queue, pick);
    assert Usable(s, id);
  }

  lemma SelectsNothing(s: State, t: nat, pick: seq<nat> -> nat)
    requires Shape(s) && t < |s.tasks| && s.tasks[t].phase.Enabled? && s.lock.None? && !s.closed
    requires Sorts(s.channels, pick) && NoneUsable(s)
    ensures Unserved(s, Solo(DoLock(s, t), t, pick), t)
  {
    hide Solo, Shape, Sorts, ServingIn, HasRoom;
    var s', queue := ReachesTrying(s, t, pick);
    assert forall id :: id in queue <==> Dead(s, id);
    TriesNone(s', t, queue, pick);
    var counting := Set(s', t, Counting(0, 0)).(channels := Retired(s'.channels, queue));
    RoomIs(s, s'.list, queue);
    NothingCounted(counting.channels);
    Counts(counting, t, 0, 0, pick);
  }

  lemma NothingCounted(channels: seq<Channel>)
    ensures ServingIn(channels, []) == 0
  {
  }

  lemma RoomIs(s: State, list: seq<nat>, queue: seq<nat>)
    requires ListFits(list, |s.channels|) && forall id :: id in list <==> id in Kept(s)
    requires forall id :: id in queue <==> Dead(s, id)
    ensures HasRoom(s) <==>
      && !s.connecting && |list| <= s.limits.connections
      && ServingIn(Retired(s.channels, queue), list) < s.limits.connections
  {
    SizeOfKept(s, list);
    SizeOfRemains(s, list, queue);
  }
}
