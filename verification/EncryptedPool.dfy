/**
 * The native pool of encrypted sessions as interleaved steps.
 *
 * Selection holds the pool's lock throughout but takes each session's own lock only for a
 * moment, so leases can drop and sessions can retire between any two of its steps.
 */
module EncryptedPool {
  import PoolSpec

  datatype Session = Session(active: nat, retired: bool)

  datatype Selecting =
    | Free
    | Retaining(next: nat)
    | Trying(todo: seq<nat>)
    | Counting(next: nat, serving: nat)

  /** The guard that one caller holds while it opens a session; dropping it clears the pool's flag. */
  datatype Guard = Dialing | Published | Dropped

  /** `guards` are those ever made, one per setup. */
  datatype State = State(
    maximum: nat, owners: seq<nat>, sessions: seq<Session>, opening: bool, guards: seq<Guard>, closed: bool,
    leases: seq<PoolSpec.Lease>, select: Selecting)

  /** What a session's core answers when asked for a request. */
  datatype Offer = Ready | Pending | Exhausted | Failed

  datatype Label =
    | Begin
    | Retain(expired: bool)
    | Try(choice: nat, offer: Offer)
    | Count
    | Publish(guard: nat)
    | EndOpening(guard: nat)
    | RetireSession(id: nat)
    | DropLease(lease: nat)
    | Close
    | TakeOwners

  function Initial(maximum: nat): State {
    State(maximum, [], [], false, [], false, [], Free)
  }

  function SetSession(s: State, id: nat, c: Session): State
    requires id < |s.sessions|
  {
    s.(sessions := s.sessions[id := c])
  }

  // -------------------------------------------------------------------- steps

  /** `retain`: retire an expired session, drop a retired idle one. */
  function DoRetain(s: State, i: nat, expired: bool): State {
    if i >= |s.owners| then s.(select := Trying(s.owners))
    else if s.owners[i] >= |s.sessions| then s
    else
      var id := s.owners[i];
      var c := if expired then s.sessions[id].(retired := true) else s.sessions[id];
      var r := SetSession(s, id, c);
      if c.retired && c.active == 0 then r.(owners := s.owners[..i] + s.owners[i + 1..])
      else r.(select := Retaining(i + 1))
  }

  /** Ask the next session, in whatever order the sort chose. */
  function DoTry(s: State, todo: seq<nat>, choice: nat, offer: Offer): State {
    if todo == [] then s.(select := Counting(0, 0))
    else if choice >= |todo| || todo[choice] >= |s.sessions| then s
    else
      var id, rest := todo[choice], todo[..choice] + todo[choice + 1..];
      var c := s.sessions[id];
      if c.retired then s.(select := Trying(rest))
      else match offer
        case Ready =>
          var r := SetSession(s, id, c.(active := c.active + 1));
          r.(leases := s.leases + [PoolSpec.Lease(id, true)], select := Free)
        case Pending => s.(select := Trying(rest))
        case Exhausted => SetSession(s, id, c.(retired := true)).(select := Trying(rest))
        case Failed => s.(select := Free)
  }

  function DoCount(s: State, i: nat, n: nat): State {
    if i < |s.owners| then
      s.(select := Counting(i + 1, if s.owners[i] < |s.sessions| && !s.sessions[s.owners[i]].retired then n + 1 else n))
    else if !s.opening && n < s.maximum && |s.owners| <= s.maximum
      then s.(opening := true, guards := s.guards + [Dialing], select := Free)
    else s.(select := Free)
  }

  function DoDropLease(s: State, l: nat): State {
    if l >= |s.leases| || !s.leases[l].live || s.leases[l].member >= |s.sessions| ||
      s.sessions[s.leases[l].member].active == 0 then s
    else
      var id := s.leases[l].member;
      var c := s.sessions[id];
      SetSession(s, id, c.(active := c.active - 1)).(leases := s.leases[l := s.leases[l].(live := false)])
  }

  /** The idle test of `close`. */
  predicate Idle(s: State) {
    && s.closed && !s.opening
    && forall i :: 0 <= i < |s.owners| && s.owners[i] < |s.sessions| ==> s.sessions[s.owners[i]].active == 0
  }

  function Step(s: State, l: Label): State {
    match l
    case Begin => if s.select.Free? && !s.closed then s.(select := Retaining(0)) else s
    case Retain(expired) => if s.select.Retaining? then DoRetain(s, s.select.next, expired) else s
    case Try(choice, offer) => if s.select.Trying? then DoTry(s, s.select.todo, choice, offer) else s
    case Count => if s.select.Counting? then DoCount(s, s.select.next, s.select.serving) else s
    case Publish(g) =>
      if s.select.Free? && g < |s.guards| && s.guards[g].Dialing? && !s.closed
      then s.(owners := s.owners + [|s.sessions|], sessions := s.sessions + [Session(0, false)],
        guards := s.guards[g := Published])
      else s
    case EndOpening(g) =>
      if s.select.Free? && g < |s.guards| && !s.guards[g].Dropped?
      then s.(opening := false, guards := s.guards[g := Dropped])
      else s
    case RetireSession(id) => if id < |s.sessions| then SetSession(s, id, s.sessions[id].(retired := true)) else s
    case DropLease(lease) => DoDropLease(s, lease)
    case Close => if s.select.Free? then s.(closed := true) else s
    case TakeOwners => if s.select.Free? && Idle(s) then s.(owners := []) else s
  }

  function Run(maximum: nat, labels: seq<Label>): State {
    if labels == [] then Initial(maximum)
    else Step(Run(maximum, labels[..|labels| - 1]), labels[|labels| - 1])
  }

  // --------------------------------------------------------------- invariants

  predicate Listed(s: State) {
    && (forall i :: 0 <= i < |s.owners| ==> s.owners[i] < |s.sessions|)
    && PoolSpec.Distinct(s.owners)
    && (s.closed ==> s.select.Free?)
  }

  predicate LeasesExact(s: State) {
    && (forall l :: 0 <= l < |s.leases| ==> s.leases[l].member < |s.sessions|)
    && (forall id :: 0 <= id < |s.sessions| ==> s.sessions[id].active == PoolSpec.LiveLeases(s.leases, id))
  }

  function Live(sessions: seq<Session>): set<nat> {
    set id | 0 <= id < |sessions| && !sessions[id].retired
  }

  function ServingIn(sessions: seq<Session>, ids: seq<nat>): nat {
    PoolSpec.CountIn(Live(sessions), ids)
  }

  predicate CountCovers(s: State) {
    s.select.Counting? ==>
      s.select.next <= |s.owners| && s.select.serving >= ServingIn(s.sessions, s.owners[..s.select.next])
  }

  function Members(s: State): set<nat> { PoolSpec.Ids(s.owners) }

  function Retired(s: State): set<nat> {
    set id | id in s.owners && id < |s.sessions| && s.sessions[id].retired
  }

  /** The flag is set exactly while a guard lives, and then that is the one made last. */
  predicate OneOpener(s: State) {
    && (forall g :: 0 <= g < |s.guards| && !s.guards[g].Dropped? ==> g == |s.guards| - 1)
    && (s.opening <==> s.guards != [] && !s.guards[|s.guards| - 1].Dropped?)
  }

  /** What the guard made last is doing. */
  function OpeningOf(guards: seq<Guard>): PoolSpec.Opening {
    if guards == [] then PoolSpec.Idle
    else match guards[|guards| - 1]
      case Dialing => PoolSpec.Dialing
      case Published => PoolSpec.Published
      case Dropped => PoolSpec.Idle
  }

  function Abs(s: State): PoolSpec.View {
    PoolSpec.View(s.maximum, Members(s), Retired(s), OpeningOf(s.guards), s.closed)
  }

  lemma AbsSizes(s: State)
    requires Listed(s)
    ensures |Members(s)| == |s.owners| && |Members(s) - Retired(s)| == ServingIn(s.sessions, s.owners)
  {
    PoolSpec.CountInDistinct(Live(s.sessions), s.owners);
    assert Members(s) - Retired(s) == PoolSpec.Ids(s.owners) * Live(s.sessions);
  }

  ghost predicate Inv(s: State) {
    Listed(s) && OneOpener(s) && LeasesExact(s) && CountCovers(s) && PoolSpec.Bounded(Abs(s))
  }

  // -------------------------------------------------------------------- proofs

  lemma RetainListed(s: State, i: nat, expired: bool)
    requires Listed(s) && s.select == Retaining(i)
    ensures Listed(DoRetain(s, i, expired))
  {
    var s' := DoRetain(s, i, expired);
    if i < |s.owners| {
      assert s'.owners == s.owners || s'.owners == s.owners[..i] + s.owners[i + 1..];
    }
  }

  lemma ListedKept(s: State, l: Label)
    requires Listed(s)
    ensures Listed(Step(s, l))
  {
    hide DoRetain;
    if l.Retain? && s.select.Retaining? {
      RetainListed(s, s.select.next, l.expired);
    }
  }

  lemma OpenerKept(s: State, l: Label)
    requires OneOpener(s)
    ensures OneOpener(Step(s, l))
  {
  }

  lemma DropKeepsLeases(s: State, l: nat)
    requires LeasesExact(s)
    ensures LeasesExact(DoDropLease(s, l))
  {
    hide PoolSpec.LiveLeases;
    var s' := DoDropLease(s, l);
    if s' != s {
      forall id | 0 <= id < |s'.sessions|
        ensures s'.sessions[id].active == PoolSpec.LiveLeases(s'.leases, id)
      {
        PoolSpec.LeaseReleased(s.leases, l, id);
      }
    }
  }

  lemma TryKeepsLeases(s: State, todo: seq<nat>, choice: nat, offer: Offer)
    requires LeasesExact(s)
    ensures LeasesExact(DoTry(s, todo, choice, offer))
  {
    hide PoolSpec.LiveLeases;
    var s' := DoTry(s, todo, choice, offer);
    if s'.leases != s.leases {
      forall id | 0 <= id < |s'.sessions|
        ensures s'.sessions[id].active == PoolSpec.LiveLeases(s'.leases, id)
      {
        PoolSpec.LeaseAppended(s.leases, PoolSpec.Lease(todo[choice], true), id);
      }
    }
  }

  lemma LeasesKept(s: State, l: Label)
    requires LeasesExact(s)
    ensures LeasesExact(Step(s, l))
  {
    hide PoolSpec.LiveLeases, DoDropLease, DoTry;
    if l.DropLease? {
      DropKeepsLeases(s, l.lease);
    } else if l.Try? && s.select.Trying? {
      TryKeepsLeases(s, s.select.todo, l.choice, l.offer);
    } else if l.Publish? {
      PoolSpec.NoLeases(s.leases, |s.sessions|);
    }
  }

  /** Sessions only retire; the list and any count under way stay. */
  predicate Quiet(s: State, s': State) {
    && s'.maximum == s.maximum && s'.owners == s.owners && s'.guards == s.guards && (s.closed ==> s'.closed)
    && |s'.sessions| == |s.sessions| &&
      (forall i :: 0 <= i < |s.sessions| && s.sessions[i].retired ==> s'.sessions[i].retired)
    && (s'.select.Counting? ==> s'.select == s.select || s'.select == Counting(0, 0))
  }

  ghost predicate Refines(s: State, s': State) {
    CountCovers(s') && PoolSpec.Moves(Abs(s), Abs(s'))
  }

  lemma QuietRefines(s: State, s': State)
    requires CountCovers(s) && Quiet(s, s')
    ensures Refines(s, s')
  {
    if s'.select.Counting? {
      PoolSpec.CountInShrinks(Live(s.sessions), Live(s'.sessions), s.owners[..s'.select.next]);
    }
    assert PoolSpec.Shrinks(Abs(s), Abs(s'));
  }

  lemma RetainRefines(s: State, i: nat, expired: bool)
    requires CountCovers(s) && s.select == Retaining(i)
    ensures Refines(s, DoRetain(s, i, expired))
  {
    assert PoolSpec.Shrinks(Abs(s), Abs(DoRetain(s, i, expired)));
  }

  lemma CountRefines(s: State, i: nat, n: nat)
    requires Listed(s) && OneOpener(s) && CountCovers(s) && s.select == Counting(i, n)
    ensures Refines(s, DoCount(s, i, n))
  {
    hide PoolSpec.Moves, PoolSpec.BeginsOpen, Abs, Listed;
    var s' := DoCount(s, i, n);
    if i < |s.owners| {
      assert s.owners[..i + 1][..i] == s.owners[..i];
    }
    if s'.opening != s.opening {
      assert s.owners[..i] == s.owners;
      SelectingIsOpen(s);
      OpenMoves(s, s');
    } else {
      SameInputs(s, s');
      SameViewMoves(s, s');
    }
  }

  lemma SameViewMoves(s: State, s': State)
    requires Abs(s') == Abs(s)
    ensures PoolSpec.Moves(Abs(s), Abs(s'))
  {
    assert PoolSpec.Shrinks(Abs(s), Abs(s'));
  }

  lemma SelectingIsOpen(s: State)
    requires Listed(s) && !s.select.Free?
    ensures !s.closed
  {
  }

  lemma SameInputs(s: State, s': State)
    requires s' == s.(select := s'.select)
    ensures Abs(s') == Abs(s)
  {
    assert Retired(s') == Retired(s);
  }

  lemma OpenMoves(s: State, s': State)
    requires Listed(s) && OneOpener(s) && !s.opening && !s.closed
    requires ServingIn(s.sessions, s.owners) < s.maximum && |s.owners| <= s.maximum
    requires s' == s.(opening := true, guards := s.guards + [Dialing], select := Free)
    ensures PoolSpec.Moves(Abs(s), Abs(s'))
  {
    AbsSizes(s);
    assert Retired(s') == Retired(s);
    assert PoolSpec.BeginsOpen(Abs(s), Abs(s'));
  }

  lemma PublishRefines(s: State, g: nat)
    requires Listed(s) && OneOpener(s) && s.select.Free?
    ensures Refines(s, Step(s, Publish(g)))
  {
    var s', id := Step(s, Publish(g)), |s.sessions|;
    if s' == s {
      SameViewMoves(s, s);
    } else {
      PoolSpec.IdsSnoc(s.owners, id);
      assert Members(s') == Members(s) + {id} && Retired(s') == Retired(s);
      assert PoolSpec.Publishes(Abs(s), Abs(s'), id);
    }
  }

  /** Every step of every interleaving is a move of the bounded pool. */
  lemma StepRefines(s: State, l: Label)
    requires Listed(s) && OneOpener(s) && CountCovers(s)
    ensures Refines(s, Step(s, l))
  {
    hide Refines, Listed, OneOpener, CountCovers, DoRetain, DoCount;
    var s' := Step(s, l);
    if l.Retain? && s.select.Retaining? {
      RetainRefines(s, s.select.next, l.expired);
    } else if l.Count? && s.select.Counting? {
      CountRefines(s, s.select.next, s.select.serving);
    } else if l.Publish? && s.select.Free? {
      PublishRefines(s, l.guard);
    } else if l.EndOpening? && s' != s {
      EndRefines(s, l.guard);
    } else if l.TakeOwners? && s' != s {
      TakeRefines(s);
    } else {
      QuietRefines(s, s');
    }
  }

  lemma EndRefines(s: State, g: nat)
    requires OneOpener(s) && s.select.Free? && g < |s.guards| && !s.guards[g].Dropped?
    ensures Refines(s, Step(s, EndOpening(g)))
  {
    assert PoolSpec.EndsOpen(Abs(s), Abs(Step(s, EndOpening(g))));
  }

  lemma TakeRefines(s: State)
    requires s.select.Free? && Idle(s)
    ensures Refines(s, Step(s, TakeOwners))
  {
    assert PoolSpec.Shrinks(Abs(s), Abs(Step(s, TakeOwners)));
  }

  lemma {:induction false} RunInv(maximum: nat, labels: seq<Label>)
    ensures Inv(Run(maximum, labels)) && Run(maximum, labels).maximum == maximum
  {
    hide Step, Listed, OneOpener, LeasesExact, CountCovers, PoolSpec.Moves, PoolSpec.Bounded, Abs;
    if labels == [] {
      InitialInv(maximum);
    } else {
      var n := |labels| - 1;
      var s, l := Run(maximum, labels[..n]), labels[n];
      RunInv(maximum, labels[..n]);
      ListedKept(s, l);
      OpenerKept(s, l);
      LeasesKept(s, l);
      StepRefines(s, l);
      PoolSpec.MovesKeepBounded(Abs(s), Abs(Step(s, l)));
      StepKeepsMaximum(s, l);
    }
  }

  lemma InitialInv(maximum: nat)
    ensures Inv(Initial(maximum))
  {
    assert Members(Initial(maximum)) == {};
  }

  lemma StepKeepsMaximum(s: State, l: Label)
    ensures Step(s, l).maximum == s.maximum
  {
  }

  /**
   * In every interleaving serving sessions never exceed the maximum, all sessions never exceed
   * it by more than one, at most one caller is opening, exactly while the flag says so, and each
   * session's counter is the number of its live leases.
   */
  lemma SessionsBounded(maximum: nat, labels: seq<Label>)
    ensures var s := Run(maximum, labels);
      && ServingIn(s.sessions, s.owners) <= maximum
      && |s.owners| <= maximum + 1
      && (forall g, h :: 0 <= g < h < |s.guards| ==> s.guards[g].Dropped? || s.guards[h].Dropped?)
      && (s.opening <==> exists g :: 0 <= g < |s.guards| && !s.guards[g].Dropped?)
      && forall id :: 0 <= id < |s.sessions| ==> s.sessions[id].active == PoolSpec.LiveLeases(s.leases, id)
  {
    hide Run, CountCovers;
    RunInv(maximum, labels);
    var s := Run(maximum, labels);
    AbsSizes(s);
  }

  // ------------------------------------------------------------------- closing

  predicate StaysIdle(s: State, s': State) {
    Idle(s') && Members(s') <= Members(s) && |s'.leases| == |s.leases|
  }

  lemma IdleStep(s: State, l: Label)
    requires Listed(s) && Idle(s)
    ensures StaysIdle(s, Step(s, l))
  {
  }

  /** Once `close` has found the pool idle, no session and no lease appears in any continuation. */
  lemma {:induction false} NothingLivesAfterClose(maximum: nat, labels: seq<Label>, more: seq<Label>)
    requires Idle(Run(maximum, labels))
    ensures StaysIdle(Run(maximum, labels), Run(maximum, labels + more))
  {
    hide Step, Idle;
    if more == [] {
      assert labels + more == labels;
    } else {
      var n := |more| - 1;
      var all, before := labels + more, labels + more[..n];
      assert all[..|all| - 1] == before && all[|all| - 1] == more[n];
      NothingLivesAfterClose(maximum, labels, more[..n]);
      RunInv(maximum, before);
      IdleStep(Run(maximum, before), more[n]);
    }
  }
}
