/** One client send over attested TLS: acquire, submit, and the single resend after a refusal. */
module TlsSend {
  import opened Basics
  import opened Submissions

  // ------------------------------------------------------------------- errors

  datatype PoolError =
    | Closed
    | Capacity
    | Deadline
    | ResponseDeadline
    | StateUnavailable
    | Connect
    | Protocol
    | Request(notSent: bool)

  datatype Error =
    | Pool(pool: PoolError)
    | Evidence
    | Recovery
    | Size
    | Metadata
    | Receipt

  /** `Failure::native`: the report the proxy attaches to a failed request. */
  function Report(e: Error): Submission {
    match e
    case Receipt => ExecutionUnknown
    case Pool(ResponseDeadline) => ExecutionUnknown
    case Pool(Request(notSent)) => if notSent then NotSent else ExecutionUnknown
    case _ => NotSent
  }

  // -------------------------------------------------------------- environment

  /** What became of one submitted request. The client observes all of it but `processed`. */
  datatype Fate =
    | TimedOut(processed: bool)
    | Broke(returned: bool, remote: bool, goAway: bool, refusedStream: bool, processed: bool)
    | Answered(status: nat, marked: bool, events: bool, processed: bool)

  /** A 503 answer that carries the gateway's refusal mark. */
  predicate Refusal(f: Fate) {
    f.Answered? && f.status == 503 && f.marked
  }

  /** The request came back unsent, or the peer named it as one it never started. */
  predicate NeverStarted(f: Fate) {
    f.Broke? && (f.returned || (f.remote && (f.goAway || f.refusedStream)))
  }

  /**
   * Section 8.7 of RFC 9113 for a request the peer names as never started, and the gateway's
   * own promise for one it refused.
   */
  predicate Honest(f: Fate) {
    NeverStarted(f) || Refusal(f) ==> !f.processed
  }

  /** The errors an acquisition ends with, all before anything is submitted. */
  predicate SetupError(e: Error) {
    match e
    case Pool(p) => !p.ResponseDeadline? && !p.Request?
    case Evidence => true
    case Recovery => true
    case _ => false
  }

  /** The environment's choices for one attempt: a failed acquisition, or a lease and its use. */
  datatype Attempt = Attempt(setup: Option<Error>, expired: bool, retired: bool, fate: Fate)

  predicate Possible(a: Attempt) {
    (a.setup.Some? ==> SetupError(a.setup.value)) && Honest(a.fate)
  }

  predicate Submits(a: Attempt) {
    a.setup.None? && !a.expired && !a.retired
  }

  /** The request, as far as it matters here, and the environment's choices for one send. */
  datatype Plan = Plan(
    metadataValid: bool, receiptAsked: bool, sizeFits: bool, first: Attempt, second: Attempt, refusalReadable: bool,
    receiptVerifies: bool)

  predicate Possibilities(plan: Plan) {
    Possible(plan.first) && Possible(plan.second)
  }

  /** The first attempt ended in a way that proves the request was not executed. */
  predicate MayResend(a: Attempt) {
    if a.setup.Some? then a.setup.value == Pool(Closed)
    else if a.expired then false
    else a.retired || NeverStarted(a.fate) || Refusal(a.fate)
  }

  // ------------------------------------------------------------ what is promised

  predicate Accepted(plan: Plan) {
    plan.metadataValid && plan.sizeFits
  }

  predicate ReachesSecond(plan: Plan) {
    Accepted(plan) && MayResend(plan.first)
  }

  /** The attempt that decides what the caller gets. */
  function Decisive(plan: Plan): Attempt {
    if MayResend(plan.first) then plan.second else plan.first
  }

  /** Refused once, and no second stream to be had: the refusal itself is the answer. */
  predicate KeepsRefusal(plan: Plan) {
    && Accepted(plan)
    && Submits(plan.first)
    && Refusal(plan.first.fate)
    && plan.second.setup.Some?
    && plan.refusalReadable
  }

  /** A successful answer in one piece, for which a receipt was asked: it is checked before it is returned. */
  predicate NeedsReceipt(plan: Plan, f: Fate) {
    plan.receiptAsked && f.Answered? && 200 <= f.status <= 299 && !f.events
  }

  predicate Delivers(plan: Plan, a: Attempt) {
    Submits(a) && a.fate.Answered? && (NeedsReceipt(plan, a.fate) ==> plan.receiptVerifies)
  }

  /** Why an attempt that was not answered failed. */
  function Failure(a: Attempt): Error {
    if a.setup.Some? then a.setup.value
    else if a.expired then Pool(Deadline)
    else if a.retired then Pool(Closed)
    else if a.fate.TimedOut? then Pool(ResponseDeadline)
    else Pool(Request(NeverStarted(a.fate)))
  }

  function Answer(a: Attempt): Result<Fate, Error> {
    if Submits(a) && a.fate.Answered? then Ok(a.fate) else Err(Failure(a))
  }

  function LogOf(a: Attempt): Log {
    if Submits(a) then [a.fate.processed] else []
  }

  function Logs(plan: Plan): Log {
    if !Accepted(plan) then [] else LogOf(plan.first) + if MayResend(plan.first) then LogOf(plan.second) else []
  }

  /** Why a send fails. An answer that came is withheld for its receipt alone. */
  function Reason(plan: Plan): Error {
    if !plan.metadataValid then Metadata
    else if !plan.sizeFits then Size
    else if Answer(Decisive(plan)).Ok? then Receipt
    else Failure(Decisive(plan))
  }

  /** The client can tell that nothing it submitted was executed. */
  predicate NeverRan(plan: Plan) {
    !Accepted(plan) || !Submits(Decisive(plan)) || NeverStarted(Decisive(plan).fate)
  }

  lemma LogIsTrue(plan: Plan)
    requires Possibilities(plan)
    ensures SentOnce(Logs(plan))
    ensures NeverRan(plan) ==> Executions(Logs(plan)) == 0
    ensures !NeverRan(plan) ==> Logs(plan) != []
  {
    var first, second := plan.first.fate.processed, plan.second.fate.processed;
    ExecutionsOfTwo(first, second);
    ExecutionsOfTwo(second, false);
    assert [first] + [second] == [first, second];
  }

  // ------------------------------------------------------------------- client

  class Client {
    var log: Log

    constructor ()
      ensures log == []
    {
      log := [];
    }

    /** `Permit::send`. */
    method Dispatch(a: Attempt) returns (r: Result<Fate, Error>)
      requires Possible(a) && a.setup.None?
      modifies this
      ensures log == old(log) + LogOf(a)
      ensures r == Answer(a)
      ensures r.Err? && Report(r.error) == NotSent && Submits(a) ==> !a.fate.processed
      ensures r.Err? && Report(r.error) == ExecutionUnknown ==> Submits(a)
      ensures r.Err? ==> ((r.error == Pool(Closed) || r.error == Pool(Request(true))) <==> MayResend(a))
    {
      if a.expired {
        return Err(Pool(Deadline));
      }
      if a.retired {
        return Err(Pool(Closed));
      }
      log := log + [a.fate.processed];
      match a.fate
      case TimedOut(_) =>
        return Err(Pool(ResponseDeadline));
      case Broke(returned, remote, goAway, refusedStream, _) =>
        var goingAway := remote && goAway;
        var notSent := returned || goingAway || (remote && refusedStream);
        return Err(Pool(Request(notSent)));
      case Answered(_, _, _, _) =>
        return Ok(a.fate);
    }

    /** `submit`: acquire a stream, then dispatch. */
    method Submit(a: Attempt) returns (r: Result<Fate, Error>)
      requires Possible(a)
      modifies this
      ensures log == old(log) + LogOf(a)
      ensures r == Answer(a)
      ensures r.Err? && Report(r.error) == NotSent && Submits(a) ==> !a.fate.processed
      ensures r.Err? && Report(r.error) == ExecutionUnknown ==> Submits(a)
      ensures r.Err? ==> ((r.error == Pool(Closed) || r.error == Pool(Request(true))) <==> MayResend(a))
    {
      if a.setup.Some? {
        return Err(a.setup.value);
      }
      r := Dispatch(a);
    }

    /** The submission and the one resend of `Client::send`. */
    method Exchange(plan: Plan) returns (r: Result<Fate, Error>)
      requires Possibilities(plan) && Accepted(plan)
      modifies this
      ensures log == old(log) + LogOf(plan.first) + (if MayResend(plan.first) then LogOf(plan.second) else [])
      ensures r == if KeepsRefusal(plan) then Ok(plan.first.fate) else Answer(Decisive(plan))
    {
      var answer := Submit(plan.first);
      if answer.Err? && (answer.error == Pool(Closed) || answer.error == Pool(Request(true))) {
        answer := Submit(plan.second);
      } else if answer.Ok? && answer.value.status == 503 && answer.value.marked {
        if plan.second.setup.None? {
          answer := Dispatch(plan.second);
        } else if !plan.refusalReadable {
          return Err(plan.second.setup.value);
        }
      }
      r := answer;
    }

    /** `Client::send`. */
    method Send(plan: Plan) returns (r: Result<Fate, Error>)
      requires log == [] && Possibilities(plan)
      modifies this
      ensures SentOnce(log)
      ensures log == Logs(plan)
      ensures r.Ok? <==> KeepsRefusal(plan) || (Accepted(plan) && Delivers(plan, Decisive(plan)))
      ensures r.Ok? ==> r.value == (if KeepsRefusal(plan) then plan.first.fate else Decisive(plan).fate)
      ensures r.Err? ==> r.error == Reason(plan)
      ensures r.Err? ==> Truthful(Report(r.error), log)
      ensures r.Err? ==> (Report(r.error) == NotSent <==> NeverRan(plan))
    {
      if !plan.metadataValid {
        return Err(Metadata);
      }
      if !plan.sizeFits {
        return Err(Size);
      }
      LogIsTrue(plan);
      var answer := Exchange(plan);
      if answer.Err? {
        return answer;
      }
      if plan.receiptAsked {
        var success := 200 <= answer.value.status < 300;
        if success && !answer.value.events && !plan.receiptVerifies {
          return Err(Receipt);
        }
      }
      r := answer;
    }
  }
}
