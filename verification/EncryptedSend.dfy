/** One client send through an encrypted session, with its single resend, in Rust and in JavaScript. */
module EncryptedSend {
  import opened Basics
  import opened Submissions
  import opened EncryptedReply

  // ------------------------------------------------------------------- errors

  datatype ClientError =
    | Closed
    | StateUnavailable
    | SetupDeadline
    | MetadataHeader
    | Setup
    | Evidence
    | Appraisal
    | SessionRecord
    | Http(http: Error)
    | Receipt

  /** `Failure::encrypted`: the report the proxy attaches to a failed request. */
  function Report(e: ClientError): Submission {
    match e
    case Receipt => ExecutionUnknown
    case Http(DeadlinePassed) => ExecutionUnknown
    case Http(HttpFailed) => ExecutionUnknown
    case Http(NotEncrypted) => ExecutionUnknown
    case Http(MetadataInvalid) => ExecutionUnknown
    case Http(RecordInvalid) => ExecutionUnknown
    case _ => NotSent
  }

  // -------------------------------------------------------------- environment

  /** What became of one submitted request; the client never sees `processed`. */
  datatype Fate =
    | Silence(processed: bool)
    | Broke(processed: bool)
    | Foreign(processed: bool)
    | Answered(chunks: seq<Chunk>, processed: bool)

  /** The authenticated answer says that the gateway refused the request. */
  predicate Refusal(f: Fate) {
    f.Answered? && Outcome(f.chunks).Ok? && Outcome(f.chunks).value.refused
  }

  /** The gateway's promise: a request it refuses is not processed. */
  predicate Honest(f: Fate) {
    Refusal(f) ==> !f.processed
  }

  /** The errors an acquisition ends with, all before anything is submitted. */
  predicate SetupError(e: ClientError) {
    !e.Http? && !e.Receipt? && !e.MetadataHeader?
  }

  datatype Attempt = Attempt(setup: Option<ClientError>, requestInvalid: bool, expired: bool, fate: Fate)

  predicate Possible(a: Attempt) {
    (a.setup.Some? ==> SetupError(a.setup.value)) && Honest(a.fate)
  }

  predicate Submits(a: Attempt) {
    a.setup.None? && !a.requestInvalid && !a.expired
  }

  datatype Plan = Plan(
    metadataValid: bool, receiptAsked: bool, first: Attempt, second: Attempt, refusalReadable: bool,
    receiptVerifies: bool)

  predicate Possibilities(plan: Plan) {
    Possible(plan.first) && Possible(plan.second)
  }

  predicate ReachesSecond(plan: Plan) {
    plan.metadataValid && Submits(plan.first) && Refusal(plan.first.fate)
  }

  /** The attempt whose result the send returns. */
  function Decisive(plan: Plan): Attempt {
    if ReachesSecond(plan) then plan.second else plan.first
  }

  /** The gateway processed the request and answered it with a silent event stream. */
  predicate SilentExecution(a: Attempt) {
    Submits(a) && a.fate.processed && a.fate.Answered? && SilentStream(a.fate.chunks)
  }

  /** What the client learns from a submitted request. */
  function Learned(f: Fate): Result<Head, Error> {
    match f
    case Silence(_) => Err(DeadlinePassed)
    case Broke(_) => Err(HttpFailed)
    case Foreign(_) => Err(NotEncrypted)
    case Answered(chunks, _) => Outcome(chunks)
  }

  /** An answer read to its head never ends in one of the errors of a request not yet sent. */
  lemma {:induction false} ReadErrors(s: State, chunks: seq<Chunk>)
    requires Read(s, chunks).Err?
    ensures Read(s, chunks).error != RequestInvalid && Read(s, chunks).error != NotSentDeadline
    decreases chunks
  {
    if Reading(s) && chunks != [] {
      if chunks[0].Records? && TakeAll(s, chunks[0].records).Err? {
        TakeErrors(s, chunks[0].records);
      }
      if Advance(s, chunks[0]).Ok? {
        ReadErrors(Advance(s, chunks[0]).value, chunks[1..]);
      }
    }
  }

  /** A submitted request is reported as not sent exactly if its answer is a silent event stream. */
  lemma ReportedNotSent(f: Fate)
    ensures Learned(f).Err? && Report(Http(Learned(f).error)) == NotSent <==> f.Answered? && SilentStream(f.chunks)
  {
    if f.Answered? {
      CompletionFailsExactly(f.chunks);
      if Read(START, f.chunks).Err? {
        ReadErrors(START, f.chunks);
      }
    }
  }

  // ------------------------------------------------------------ what is promised

  /** Refused once, and no second session to be had: the refusal itself is the answer. */
  predicate KeepsRefusal(plan: Plan) {
    ReachesSecond(plan) && plan.second.setup.Some? && plan.refusalReadable
  }

  /** A successful answer in one piece, for which a receipt was asked: it is checked before it is returned. */
  predicate NeedsReceipt(plan: Plan, head: Head) {
    plan.receiptAsked && 200 <= head.status <= 299 && !head.eventStream
  }

  predicate Delivers(plan: Plan, a: Attempt) {
    && Submits(a) && Learned(a.fate).Ok?
    && (NeedsReceipt(plan, Learned(a.fate).value) ==> plan.receiptVerifies)
  }

  /** Why an attempt that was not answered in full failed. */
  function Failure(a: Attempt): ClientError {
    if a.setup.Some? then a.setup.value
    else if a.requestInvalid then Http(RequestInvalid)
    else if a.expired then Http(NotSentDeadline)
    else if Learned(a.fate).Err? then Http(Learned(a.fate).error)
    else Receipt
  }

  function LogOf(a: Attempt): Log {
    if Submits(a) then [a.fate.processed] else []
  }

  // -------------------------------------------------------------- Rust client

  class Client {
    var log: Log

    constructor ()
      ensures log == []
    {
      log := [];
    }

    /** `encrypted_http::send` under a lease. */
    method Exchange(a: Attempt) returns (r: Result<Head, ClientError>)
      requires a.setup.None?
      modifies this
      ensures log == old(log) + LogOf(a)
      ensures r == if Submits(a) && Learned(a.fate).Ok? then Ok(Learned(a.fate).value) else Err(Failure(a))
    {
      if a.requestInvalid {
        return Err(Http(RequestInvalid));
      }
      if a.expired {
        return Err(Http(NotSentDeadline));
      }
      log := log + [a.fate.processed];
      match a.fate
      case Silence(_) => return Err(Http(DeadlinePassed));
      case Broke(_) => return Err(Http(HttpFailed));
      case Foreign(_) => return Err(Http(NotEncrypted));
      case Answered(chunks, _) =>
        var incoming := new Incoming();
        var head := incoming.Receive(chunks);
        return if head.Ok? then Ok(head.value) else Err(Http(head.error));
    }

    /** `Client::send`. */
    method Send(plan: Plan) returns (r: Result<Head, ClientError>)
      requires log == [] && Possibilities(plan)
      modifies this
      ensures SentOnce(log)
      ensures log == (if plan.metadataValid then LogOf(plan.first) else []) +
        (if ReachesSecond(plan) then LogOf(plan.second) else [])
      ensures r.Ok? <==> KeepsRefusal(plan) || (plan.metadataValid && Delivers(plan, Decisive(plan)))
      ensures r.Ok? ==> Ok(r.value) == Learned((if KeepsRefusal(plan) then plan.first else Decisive(plan)).fate)
      ensures r.Err? ==> r.error == (if plan.metadataValid then Failure(Decisive(plan)) else MetadataHeader)
      ensures r.Err? && Report(r.error) == ExecutionUnknown ==> Truthful(ExecutionUnknown, log)
      ensures r.Err? && Report(r.error) == NotSent && !Truthful(NotSent, log) <==>
        plan.metadataValid && SilentExecution(Decisive(plan))
      ensures r.Err? && Report(r.error) == NotSent <==>
        !plan.metadataValid || (!KeepsRefusal(plan) && Unsent(Decisive(plan)))
    {
      hide Outcome, SilentStream;
      if !plan.metadataValid {
        return Err(MetadataHeader);
      }
      if plan.first.setup.Some? {
        return Err(plan.first.setup.value);
      }
      ExecutionsOfTwo(plan.first.fate.processed, plan.second.fate.processed);
      var answer := Exchange(plan.first);
      assert log == if Submits(plan.first) then [plan.first.fate.processed] else [];
      if answer.Ok? && answer.value.refused {
        if plan.second.setup.None? {
          answer := Exchange(plan.second);
          assert Submits(plan.second) ==> log == [plan.first.fate.processed, plan.second.fate.processed];
        } else if plan.refusalReadable {
          return answer;
        } else {
          return Err(plan.second.setup.value);
        }
      }
      ReportedNotSent(Decisive(plan).fate);
      if answer.Err? {
        return answer;
      }
      if plan.receiptAsked {
        var success := 200 <= answer.value.status < 300;
        if success && !answer.value.eventStream && !plan.receiptVerifies {
          return Err(Receipt);
        }
      }
      r := answer;
    }
  }

  /** Nothing was submitted, or what was answered is a silent event stream. */
  predicate Unsent(a: Attempt) {
    !Submits(a) || (a.fate.Answered? && SilentStream(a.fate.chunks))
  }

  // -------------------------------------------------------- JavaScript client

  /** A bodyless answer has no receipt, and one in one piece is returned only with it. */
  predicate BrowserDelivers(plan: Plan, a: Attempt) {
    && Submits(a) && Learned(a.fate).Ok?
    && var head := Learned(a.fate).value;
       plan.receiptAsked ==> !Bodyless(head) && (NeedsReceipt(plan, head) ==> plan.receiptVerifies)
  }

  predicate BrowserResends(plan: Plan) {
    plan.first.setup.None? && BrowserDelivers(plan, plan.first) && Learned(plan.first.fate).value.refused
  }

  function BrowserDecisive(plan: Plan): Attempt {
    if BrowserResends(plan) then plan.second else plan.first
  }

  predicate BrowserKeeps(plan: Plan) {
    BrowserResends(plan) && plan.second.setup.Some? && plan.refusalReadable
  }

  /** The browser's errors carry the report with them: whether `fetch` had been called. */
  class BrowserClient {
    var log: Log

    constructor ()
      ensures log == []
    {
      log := [];
    }

    /** `sendSessionRequest`: encode, then mark the request submitted, then fetch and read. */
    method SendSessionRequest(plan: Plan, a: Attempt) returns (r: Result<Head, Submission>)
      requires a.setup.None?
      modifies this
      ensures log == old(log) + LogOf(a)
      ensures r.Ok? <==> BrowserDelivers(plan, a)
      ensures r.Ok? ==> Learned(a.fate) == Ok(r.value)
      ensures r.Err? ==> r.error == if Submits(a) then ExecutionUnknown else NotSent
    {
      var submitted := false;
      if a.requestInvalid || a.expired {
        return Err(if submitted then ExecutionUnknown else NotSent);
      }
      submitted := true;
      log := log + [a.fate.processed];
      if !a.fate.Answered? {
        return Err(ExecutionUnknown);
      }
      var incoming := new Incoming();
      var outcome := incoming.Receive(a.fate.chunks);
      if outcome.Err? {
        return Err(ExecutionUnknown);
      }
      var head := outcome.value;
      if Bodyless(head) {
        return if plan.receiptAsked then Err(ExecutionUnknown) else Ok(head);
      }
      var ok := 200 <= head.status < 300;
      if plan.receiptAsked && ok && !head.eventStream && !plan.receiptVerifies {
        return Err(if submitted then ExecutionUnknown else NotSent);
      }
      return Ok(head);
    }

    /** `SessionTransport.send`: the same resend, and a report that is true for every answer. */
    method Send(plan: Plan) returns (r: Result<Head, Submission>)
      requires log == [] && Possibilities(plan)
      modifies this
      ensures SentOnce(log)
      ensures log == LogOf(plan.first) + (if BrowserResends(plan) then LogOf(plan.second) else [])
      ensures r.Ok? <==> BrowserKeeps(plan) || BrowserDelivers(plan, BrowserDecisive(plan))
      ensures r.Ok? ==> Ok(r.value) == Learned((if BrowserKeeps(plan) then plan.first else BrowserDecisive(plan)).fate)
      ensures r.Err? ==> Truthful(r.error, log)
      ensures r.Err? ==> r.error == if Submits(BrowserDecisive(plan)) then ExecutionUnknown else NotSent
    {
      hide Outcome, SilentStream;
      if plan.first.setup.Some? {
        return Err(NotSent);
      }
      ExecutionsOfTwo(plan.first.fate.processed, plan.second.fate.processed);
      var first := SendSessionRequest(plan, plan.first);
      assert log == if Submits(plan.first) then [plan.first.fate.processed] else [];
      if first.Err? || !first.value.refused {
        return first;
      }
      if plan.second.setup.Some? {
        return if plan.refusalReadable then first else Err(NotSent);
      }
      r := SendSessionRequest(plan, plan.second);
      assert Submits(plan.second) ==> log == [plan.first.fate.processed, plan.second.fate.processed];
    }
  }

  // ------------------------------------------------------------ a false report

  /** A 204 that announces server-sent events, properly closed. */
  function SilentAnswer(): seq<Chunk> {
    [Records([Metadata(true, Head(204, true, false)), Finished]), End(false)]
  }

  lemma SilentAnswerIsSilent()
    ensures SilentStream(SilentAnswer())
  {
    var m := Metadata(true, Head(204, true, false));
    assert [m, Finished][..1] == [m];
    assert Strip([m]) == [m] by {
      assert [m][..0] == [];
    }
    assert Strip([m, Finished]) == [m, Finished];
    var chunks := SilentAnswer();
    assert Gathered(chunks[1..]) == Some([]);
    assert Gathered(chunks) == Some([m, Finished] + []);
    assert [m, Finished] + [] == [m, Finished];
  }

  /** With a processed request and that answer, the proxy reports that nothing was sent. */
  method FalseReport() returns (report: Submission, log: Log)
    ensures report == NotSent && Executions(log) == 1
  {
    SilentAnswerIsSilent();
    var client := new Client();
    var attempt := Attempt(None, false, false, Answered(SilentAnswer(), true));
    ReportedNotSent(attempt.fate);
    var r := client.Send(Plan(true, false, attempt, attempt, false, true));
    return Report(r.error), client.log;
  }
}
