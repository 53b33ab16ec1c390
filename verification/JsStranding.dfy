/**
 * A run of the JavaScript client in which a caller sleeps beside a session that could serve it.
 *
 * The session's core has the window of the source: it holds as many unanswered requests as the
 * window is long and answers the next one "pending".
 */
module JsStranding {
  import opened SessionWaiting
  import opened JsWaiting
  import PoolSpec

  const WINDOW: nat := 256

  /** What the core answers while `unanswered` requests have begun and none was acknowledged. */
  function Answer(unanswered: nat): Offer {
    if unanswered < WINDOW then Ready else Full
  }

  /** A request taken or acknowledged here leaves the core with the answer of its window. */
  predicate WindowKept(s: State, l: Label) {
    |s.sessions| == 1 ==>
      && (l.Try? && s.sessions[0].offer.Ready? ==> l.next == Answer(s.sessions[0].active + 1))
      && (l.Acknowledge? ==> s.sessions[0].active > 0 && l.offer == Answer(s.sessions[0].active - 1))
  }

  /** A run of one session at most, whose core keeps its window up to the first acknowledgement. */
  predicate Genuine(labels: seq<Label>) {
    forall i :: 0 <= i < |labels| ==> WindowKept(Run(false, 1, labels[..i]), labels[i])
  }

  ghost predicate Reaches(labels: seq<Label>, s: State) {
    Genuine(labels) && Run(false, 1, labels) == s
  }

  /** One more step of a run. */
  lemma Goes(labels: seq<Label>, s: State, l: Label, s': State) returns (more: seq<Label>)
    requires Reaches(labels, s) && WindowKept(s, l) && Step(s, l) == s'
    ensures Reaches(more, s')
  {
    hide Step;
    more := labels + [l];
    assert more[..|labels|] == labels;
    forall i | 0 <= i < |more|
      ensures WindowKept(Run(false, 1, more[..i]), more[i])
    {
      assert i < |labels| ==> more[..i] == labels[..i];
    }
  }

  function Plain(phase: Phase): Caller {
    Caller(phase, false)
  }

  function Departed(n: nat): (r: seq<Caller>)
    ensures |r| == n && forall i :: 0 <= i < n ==> r[i] == Plain(Gone)
  {
    seq(n, _ => Plain(Gone))
  }

  /** A client that may have one session, and has it. */
  function Client(session: Session, callers: seq<Caller>, queue: seq<nat>, version: nat): State {
    State(false, 1, [0], [session], PoolSpec.Idle, false, callers, queue, version, 0, false)
  }

  /** The session with `n` requests under way. */
  function Busy(n: nat): Session {
    Session(n, false, Answer(n))
  }

  // -------------------------------------------------------------------- opening

  function Dialing(setup: PoolSpec.Opening, phase: Phase): State {
    State(false, 1, [], [], setup, false, [Plain(phase)], [], 0, 0, false)
  }

  /** The first caller finds nothing and opens a session. */
  lemma FirstOpens() returns (labels: seq<Label>)
    ensures Reaches(labels, Dialing(PoolSpec.Dialing, AtSetup))
  {
    hide Reaches;
    Starts();
    labels := Goes([], Initial(false, 1), Arrive, Dialing(PoolSpec.Idle, Top));
    labels := Goes(labels, Dialing(PoolSpec.Idle, Top), Enable(0), Dialing(PoolSpec.Idle, Enabled(0)));
    labels := Goes(labels, Dialing(PoolSpec.Idle, Enabled(0)), Begin(0), Dialing(PoolSpec.Idle, Trying([], 0)));
    labels := Goes(labels, Dialing(PoolSpec.Idle, Trying([], 0)), Finish(0), Dialing(PoolSpec.Dialing, AtSetup));
  }

  lemma Starts()
    ensures Reaches([], Initial(false, 1))
  {
  }

  lemma SetupEnds()
    ensures var published := Client(Busy(0), [Plain(AtSetup)], [], 0).(setup := PoolSpec.Published);
      && Step(Dialing(PoolSpec.Dialing, AtSetup), Publish(Ready)) == published
      && Step(published, EndSetup(true)) == Client(Busy(0), [Plain(Top)], [], 1)
  {
    assert AfterSetup([Plain(AtSetup)], true) == [Plain(Top)];
    assert Signal([Plain(Top)], []) == [Plain(Top)];
  }

  /** The session is set up, and the first caller goes on to look. */
  lemma SessionOpens() returns (labels: seq<Label>)
    ensures Reaches(labels, Client(Busy(0), [Plain(Top)], [], 1))
  {
    hide Reaches, Step;
    labels := FirstOpens();
    SetupEnds();
    var published := Client(Busy(0), [Plain(AtSetup)], [], 0).(setup := PoolSpec.Published);
    labels := Goes(labels, Dialing(PoolSpec.Dialing, AtSetup), Publish(Ready), published);
    labels := Goes(labels, published, EndSetup(true), Client(Busy(0), [Plain(Top)], [], 1));
  }

  // ------------------------------------------------------------ filling the window

  lemma LooksAtOne(s: State, session: Session)
    requires s.sessions == [session] && !session.retired
    ensures Pruned(s, [0]) == [0] && Serving(s, [0]) == [0]
  {
    assert [0][..0] == [];
    assert Pruned(s, []) == [] && Serving(s, []) == [];
  }

  lemma Selects(session: Session, callers: seq<Caller>, queue: seq<nat>, version: nat)
    requires !session.retired
    ensures var t := |callers|; var enabled := Client(session, callers + [Plain(Enabled(version))], queue, version);
      && Step(Client(session, callers + [Plain(Top)], queue, version), Enable(t)) == enabled
      && Step(enabled, Begin(t)) == Client(session, callers + [Plain(Trying([0], version))], queue, version)
  {
    LooksAtOne(Client(session, callers + [Plain(Enabled(version))], queue, version), session);
  }

  /** The newest caller begins to look at the one session. */
  lemma NewestLooks(before: seq<Label>, session: Session, callers: seq<Caller>, queue: seq<nat>, version: nat)
      returns (labels: seq<Label>)
    requires !session.retired && Reaches(before, Client(session, callers + [Plain(Top)], queue, version))
    ensures Reaches(labels, Client(session, callers + [Plain(Trying([0], version))], queue, version))
  {
    hide Reaches, Step;
    var t := |callers|;
    var enabled := Client(session, callers + [Plain(Enabled(version))], queue, version);
    Selects(session, callers, queue, version);
    labels := Goes(before, Client(session, callers + [Plain(Top)], queue, version), Enable(t), enabled);
    labels := Goes(labels, enabled, Begin(t), Client(session, callers + [Plain(Trying([0], version))], queue, version));
  }

  lemma Takes(n: nat, version: nat)
    requires n < WINDOW
    ensures Step(Client(Busy(n), Departed(n) + [Plain(Trying([0], version))], [], version),
                 Try(n, 0, false, false, Answer(n + 1)))
      == Client(Busy(n + 1), Departed(n + 1), [], version + 1)
  {
    assert Signal(Departed(n + 1), []) == Departed(n + 1);
    assert (Departed(n) + [Plain(Trying([0], version))])[n := Plain(Gone)] == Departed(n + 1);
  }

  /** Callers come one by one and each takes a place, until `n` are taken. */
  lemma {:induction false} PlacesTaken(n: nat) returns (labels: seq<Label>)
    requires 1 <= n <= WINDOW
    ensures Reaches(labels, Client(Busy(n), Departed(n), [], n + 1))
  {
    hide Reaches, Step;
    var m := n - 1;
    if m == 0 {
      labels := SessionOpens();
      assert Departed(0) + [Plain(Top)] == [Plain(Top)];
    } else {
      labels := PlacesTaken(m);
      Arrives(Busy(m), Departed(m), [], n);
      labels := Goes(labels, Client(Busy(m), Departed(m), [], n), Arrive,
        Client(Busy(m), Departed(m) + [Plain(Top)], [], n));
    }
    labels := NewestLooks(labels, Busy(m), Departed(m), [], n);
    Takes(m, n);
    labels := Goes(labels, Client(Busy(m), Departed(m) + [Plain(Trying([0], n))], [], n),
      Try(m, 0, false, false, Answer(n)), Client(Busy(n), Departed(n), [], n + 1));
  }

  lemma Arrives(session: Session, callers: seq<Caller>, queue: seq<nat>, version: nat)
    ensures Step(Client(session, callers, queue, version), Arrive)
      == Client(session, callers + [Plain(Top)], queue, version)
  {
  }

  // --------------------------------------------------------------------- waiting

  lemma OneServes(session: Session)
    requires !session.retired
    ensures PoolSpec.CountIn(Live([session]), [0]) == 1
  {
    assert [0][..0] == [];
    assert PoolSpec.CountIn(Live([session]), []) == 0;
  }

  lemma Parks(full: Session, callers: seq<Caller>, queue: seq<nat>, version: nat)
    requires full == Busy(WINDOW)
    ensures var t := |callers|; var looked := Client(full, callers + [Plain(Trying([], version))], queue, version);
      && Step(Client(full, callers + [Plain(Trying([0], version))], queue, version), Try(t, 0, false, false, Full))
         == looked
      && Step(looked, Finish(t)) == Client(full, callers + [Plain(Waiting)], queue + [t], version)
  {
    assert [0][..0] + [0][1..] == [];
    OneServes(full);
  }

  /** A caller that comes now waits. */
  lemma NextWaits(before: seq<Label>, callers: seq<Caller>, queue: seq<nat>, version: nat)
      returns (labels: seq<Label>)
    requires Reaches(before, Client(Busy(WINDOW), callers, queue, version))
    ensures Reaches(labels, Client(Busy(WINDOW), callers + [Plain(Waiting)], queue + [|callers|], version))
  {
    hide Reaches, Step;
    var full, t := Busy(WINDOW), |callers|;
    Arrives(full, callers, queue, version);
    labels := Goes(before, Client(full, callers, queue, version), Arrive,
      Client(full, callers + [Plain(Top)], queue, version));
    labels := NewestLooks(labels, full, callers, queue, version);
    Parks(full, callers, queue, version);
    var looked := Client(full, callers + [Plain(Trying([], version))], queue, version);
    labels := Goes(labels, Client(full, callers + [Plain(Trying([0], version))], queue, version),
      Try(t, 0, false, false, Full), looked);
    labels := Goes(labels, looked, Finish(t), Client(full, callers + [Plain(Waiting)], queue + [t], version));
  }

  // ---------------------------------------------------------------- the departure

  /** The two callers behind those that the full window serves. */
  function Pair(first: Caller): seq<Caller> {
    Departed(WINDOW) + [first, Plain(Waiting)]
  }

  lemma FirstIsWoken(free: Session)
    requires free == Session(WINDOW, false, Answer(WINDOW - 1))
    ensures var n, v := WINDOW, WINDOW + 1; var owing := Client(free, Pair(Plain(Waiting)), [n, n + 1], v).(owed := 1);
      && Step(Client(Busy(n), Pair(Plain(Waiting)), [n, n + 1], v), Acknowledge(0, free.offer)) == owing
      && Step(owing, Pay) == Client(free, Pair(Caller(Signalled, true)), [n + 1], v + 1)
  {
    var n := WINDOW;
    assert [n, n + 1][..1] == [n] && [n, n + 1][1..] == [n + 1];
    assert Signal(Pair(Plain(Waiting)), [n]) == Pair(Caller(Signalled, true));
  }

  lemma FirstResumes(free: Session)
    ensures var n, v := WINDOW, WINDOW + 2;
      Step(Client(free, Pair(Caller(Signalled, true)), [n + 1], v), Resume(n))
      == Client(free, Pair(Caller(Top, true)), [n + 1], v)
  {
    assert Pair(Caller(Signalled, true))[WINDOW := Caller(Top, true)] == Pair(Caller(Top, true));
  }

  /** Two callers wait behind a full window, one request is acknowledged and the first waiter is woken. */
  lemma FirstIsAwake() returns (labels: seq<Label>)
    ensures Reaches(labels,
      Client(Session(WINDOW, false, Ready), Pair(Caller(Top, true)), [WINDOW + 1], WINDOW + 2))
  {
    hide Reaches, Step;
    var n, v, free := WINDOW, WINDOW + 1, Session(WINDOW, false, Answer(WINDOW - 1));
    labels := PlacesTaken(n);
    labels := NextWaits(labels, Departed(n), [], v);
    labels := NextWaits(labels, Departed(n) + [Plain(Waiting)], [] + [n], v);
    var waiting := Pair(Plain(Waiting));
    assert Departed(n) + [Plain(Waiting)] + [Plain(Waiting)] == waiting && [] + [n] + [n + 1] == [n, n + 1];
    FirstIsWoken(free);
    FirstResumes(free);
    var owing := Client(free, waiting, [n, n + 1], v).(owed := 1);
    labels := Goes(labels, Client(Busy(n), waiting, [n, n + 1], v), Acknowledge(0, free.offer), owing);
    var signalled := Client(free, Pair(Caller(Signalled, true)), [n + 1], v + 1);
    labels := Goes(labels, owing, Pay, signalled);
    labels := Goes(labels, signalled, Resume(n), Client(free, Pair(Caller(Top, true)), [n + 1], v + 1));
  }

  /**
   * The window is full and two callers wait. A request is acknowledged and the first of the two is
   * woken. It is cancelled before it looks, and the second sleeps on beside the free place.
   */
  lemma WakeupCanBeLost() returns (labels: seq<Label>)
    ensures Genuine(labels) && Stranded(Run(false, 1, labels))
    ensures Run(false, 1, labels).sessions == [Session(WINDOW, false, Ready)]
  {
    hide Run, Step, Genuine;
    labels := FirstIsAwake();
    var free := Session(WINDOW, false, Ready);
    var s := Client(free, Pair(Caller(Top, true)), [WINDOW + 1], WINDOW + 2);
    assert CanServe(s) by {
      assert 0 in s.listed && !AllFull(s);
    }
    DepartureStrands(s, WINDOW);
    AbortKeepsSessions(s, WINDOW);
    labels := Goes(labels, s, Abort(WINDOW), Step(s, Abort(WINDOW)));
  }

  lemma AbortKeepsSessions(s: State, t: nat)
    ensures Step(s, Abort(t)).sessions == s.sessions
  {
  }
}
