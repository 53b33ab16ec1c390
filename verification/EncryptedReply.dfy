/** How a client reads the head of an encrypted answer from its authenticated records. */
module EncryptedReply {
  import opened Basics

  // ------------------------------------------------------------------- values

  /** The answer's status, whether it announces server-sent events, and the refusal flag. */
  datatype Head = Head(status: nat, eventStream: bool, refused: bool)

  /**
   * One authenticated record. `valid` says the metadata parses; `framed` that the event
   * guard accepts the bytes; `terminal` that the guard then stands after its terminal event.
   */
  datatype Record =
    | Metadata(valid: bool, head: Head)
    | Data(framed: bool, terminal: bool)
    | Finished
    | Keepalive

  /** What one read of the transport yields. */
  datatype Chunk =
    | Records(records: seq<Record>)
    | Corrupt
    | Broken
    | Late
    | End(partialFrame: bool)

  datatype Error =
    | RequestInvalid
    | NotSentDeadline
    | DeadlinePassed
    | HttpFailed
    | NotEncrypted
    | MetadataInvalid
    | RecordInvalid
    | CompletionFailed

  datatype Phase = AwaitMetadata | Body | Done

  /** `completion` is the event guard: absent, or whether its terminal event has passed. */
  datatype State = State(open: bool, phase: Phase, head: Option<Head>, completion: Option<bool>)

  const START := State(true, AwaitMetadata, None, None)

  predicate Bodyless(head: Head) {
    head.status == 204 || head.status == 205 || head.status == 304
  }

  // ------------------------------------------------------------------ reading

  /** The order `Records::check` allows, then the callback of `Incoming::advance`. */
  function Take(s: State, r: Record): Result<State, Error> {
    if s.phase.Done? then Err(RecordInvalid)
    else
      match r
      case Metadata(valid, head) =>
        if !s.phase.AwaitMetadata? then Err(RecordInvalid)
        else if !valid then Err(MetadataInvalid)
        else Ok(s.(phase := Body, head := Some(head), completion := if head.eventStream then Some(false) else None))
      case Data(framed, terminal) =>
        if s.phase != Body || s.head.None? || Bodyless(s.head.value) then Err(RecordInvalid)
        else if s.completion.None? then Ok(s)
        else if framed then Ok(s.(completion := Some(terminal)))
        else Err(RecordInvalid)
      case Finished => if s.phase.AwaitMetadata? then Err(RecordInvalid) else Ok(s.(phase := Done))
      case Keepalive => Ok(s)
  }

  function TakeAll(s: State, records: seq<Record>): Result<State, Error> {
    if records == [] then Ok(s)
    else
      match TakeAll(s, records[..|records| - 1])
      case Ok(t) => Take(t, records[|records| - 1])
      case Err(e) => Err(e)
  }

  function Advance(s: State, c: Chunk): Result<State, Error> {
    match c
    case Late => Err(DeadlinePassed)
    case Broken => Err(HttpFailed)
    case Corrupt => Err(RecordInvalid)
    case Records(records) => TakeAll(s, records)
    case End(partialFrame) =>
      if partialFrame || !s.phase.Done? then Err(RecordInvalid)
      else if s.completion == Some(false) then Err(CompletionFailed)
      else Ok(s.(open := false, completion := None))
  }

  /** Whether another read is needed before the head can be returned. */
  predicate Reading(s: State) {
    s.open && (s.head.None? || Bodyless(s.head.value))
  }

  /** Read to the state in which the head is known; the deadline ends a stream that stays silent. */
  function Read(s: State, chunks: seq<Chunk>): Result<State, Error>
    decreases chunks
  {
    if !Reading(s) then Ok(s)
    else if chunks == [] then Err(DeadlinePassed)
    else
      match Advance(s, chunks[0])
      case Ok(t) => Read(t, chunks[1..])
      case Err(e) => Err(e)
  }

  function Outcome(chunks: seq<Chunk>): Result<Head, Error> {
    match Read(START, chunks)
    case Err(e) => Err(e)
    case Ok(s) => if s.head.Some? then Ok(s.head.value) else Err(MetadataInvalid)
  }

  // ------------------------------------------------------- the reader's loops

  class Incoming {
    var state: State

    constructor ()
      ensures state == START
    {
      state := START;
    }

    method Next(c: Chunk) returns (error: Option<Error>)
      modifies this
      ensures Advance(old(state), c) == (if error.None? then Ok(state) else Err(error.value))
    {
      match c
      case Late => return Some(DeadlinePassed);
      case Broken => return Some(HttpFailed);
      case Corrupt => return Some(RecordInvalid);
      case End(partialFrame) =>
        if partialFrame || !state.phase.Done? {
          return Some(RecordInvalid);
        }
        if state.completion.Some? {
          if !state.completion.value {
            return Some(CompletionFailed);
          }
        }
        state := state.(open := false, completion := None);
        return None;
      case Records(records) =>
        ghost var begun := state;
        var i := 0;
        while i < |records|
          invariant 0 <= i <= |records|
          invariant TakeAll(begun, records[..i]) == Ok(state)
        {
          var taken := Take(state, records[i]);
          assert records[..i + 1][..i] == records[..i];
          if taken.Err? {
            Poisoned(begun, records, i + 1);
            return Some(taken.error);
          }
          state := taken.value;
          i := i + 1;
        }
        assert records[..i] == records;
        return None;
    }

    /** The two loops of `encrypted_http::send`: to the head, then to the end of a bodyless answer. */
    method Receive(chunks: seq<Chunk>) returns (r: Result<Head, Error>)
      requires state == START
      modifies this
      ensures r == Outcome(chunks)
    {
      var i := 0;
      while state.head.None? && state.open
        invariant 0 <= i <= |chunks|
        invariant Consistent(state) && Read(state, chunks[i..]) == Read(START, chunks)
        decreases |chunks| - i
      {
        if i == |chunks| {
          return Err(DeadlinePassed);
        }
        ghost var before := state;
        var error := Next(chunks[i]);
        if error.Some? {
          return Err(error.value);
        }
        HeadStays(before, chunks[i]);
        assert chunks[i..][1..] == chunks[i + 1..];
        i := i + 1;
      }
      if state.head.None? {
        return Err(MetadataInvalid);
      }
      var head := state.head.value;
      while Bodyless(head) && state.open
        invariant 0 <= i <= |chunks|
        invariant state.head == Some(head)
        invariant Consistent(state) && Read(state, chunks[i..]) == Read(START, chunks)
        decreases |chunks| - i
      {
        if i == |chunks| {
          return Err(DeadlinePassed);
        }
        ghost var before := state;
        var error := Next(chunks[i]);
        if error.Some? {
          return Err(error.value);
        }
        HeadStays(before, chunks[i]);
        assert chunks[i..][1..] == chunks[i + 1..];
        i := i + 1;
      }
      return Ok(head);
    }
  }

  lemma {:induction false} Poisoned(s: State, records: seq<Record>, n: nat)
    requires n <= |records| && TakeAll(s, records[..n]).Err?
    ensures TakeAll(s, records) == TakeAll(s, records[..n])
    decreases |records| - n
  {
    if n < |records| {
      assert records[..n + 1][..n] == records[..n];
      Poisoned(s, records, n + 1);
    } else {
      assert records[..n] == records;
    }
  }

  /** The head is known exactly once the metadata record has passed. */
  predicate Consistent(s: State) {
    s.head.None? <==> s.phase.AwaitMetadata?
  }

  lemma {:induction false} HeadStaysAll(s: State, records: seq<Record>)
    requires Consistent(s) && TakeAll(s, records).Ok?
    ensures Consistent(TakeAll(s, records).value)
    ensures s.head.Some? ==> TakeAll(s, records).value.head == s.head
    ensures TakeAll(s, records).value.open == s.open
  {
    if records != [] {
      HeadStaysAll(s, records[..|records| - 1]);
    }
  }

  lemma HeadStays(s: State, c: Chunk)
    requires Consistent(s) && Advance(s, c).Ok?
    ensures Consistent(Advance(s, c).value)
    ensures s.head.Some? ==> Advance(s, c).value.head == s.head
  {
    if c.Records? {
      HeadStaysAll(s, c.records);
    }
  }

  // ------------------------------------------ when the completion guard fails

  /** The records without the keepalives. */
  function Strip(records: seq<Record>): seq<Record> {
    if records == [] then []
    else
      var rest := Strip(records[..|records| - 1]);
      var last := records[|records| - 1];
      if last == Keepalive then rest else rest + [last]
  }

  /** An answer without a body that nevertheless announces server-sent events. */
  predicate SilentHead(r: Record) {
    r.Metadata? && r.valid && Bodyless(r.head) && r.head.eventStream
  }

  /** Nothing but such a head, then the closing record, with keepalives anywhere before it. */
  predicate Silent(records: seq<Record>) {
    && records != []
    && records[|records| - 1] == Finished
    && |Strip(records)| == 2
    && SilentHead(Strip(records)[0])
  }

  /** The records before a clean end of the transport; none if it does not end cleanly. */
  function Gathered(chunks: seq<Chunk>): Option<seq<Record>> {
    if chunks == [] then None
    else
      match chunks[0]
      case Records(records) =>
        var rest := Gathered(chunks[1..]);
        if rest.Some? then Some(records + rest.value) else None
      case End(partialFrame) => if partialFrame then None else Some([])
      case _ => None
  }

  predicate SilentStream(chunks: seq<Chunk>) {
    Gathered(chunks).Some? && Silent(Gathered(chunks).value)
  }

  lemma {:induction false} TakeAppend(s: State, a: seq<Record>, b: seq<Record>)
    requires TakeAll(s, a).Ok?
    ensures TakeAll(s, a + b) == TakeAll(TakeAll(s, a).value, b)
    decreases b
  {
    if b == [] {
      assert a + b == a;
    } else {
      var n := |b| - 1;
      assert (a + b)[..|a + b| - 1] == a + b[..n];
      TakeAppend(s, a, b[..n]);
    }
  }

  function Opened(head: Head): State {
    State(true, Body, Some(head), if head.eventStream then Some(false) else None)
  }

  /** While only keepalives have passed, the reader still stands at the start. */
  lemma {:induction false} BeforeHead(records: seq<Record>)
    ensures Strip(records) == [] <==> TakeAll(START, records) == Ok(START)
    ensures TakeAll(START, records).Ok? && TakeAll(START, records).value.head.None? ==> Strip(records) == []
  {
    if records != [] {
      var front := records[..|records| - 1];
      BeforeHead(front);
      if TakeAll(START, front).Ok? {
        HeadStaysAll(START, front);
      }
    }
  }

  /** A bodyless head leaves the reader waiting for the closing record alone. */
  lemma {:induction false} HeadOpens(records: seq<Record>, m: Record)
    requires m.Metadata? && m.valid && Strip(records) == [m]
    ensures TakeAll(START, records) == Ok(Opened(m.head))
  {
    var front := records[..|records| - 1];
    if records[|records| - 1] == Keepalive {
      HeadOpens(front, m);
    } else {
      assert Strip(front) == Strip(records)[..|Strip(records)| - 1];
      BeforeHead(front);
    }
  }

  lemma {:induction false} OpenMeansHead(records: seq<Record>, t: State)
    requires TakeAll(START, records) == Ok(t)
    requires t.phase == Body && t.head.Some? && Bodyless(t.head.value)
    ensures Strip(records) == [Metadata(true, t.head.value)] && t == Opened(t.head.value)
  {
    var front := records[..|records| - 1];
    var s := TakeAll(START, front).value;
    if s.phase == Body {
      OpenMeansHead(front, s);
    } else {
      HeadStaysAll(START, front);
      BeforeHead(front);
    }
  }

  lemma SilentCloses(records: seq<Record>)
    requires Silent(records)
    ensures TakeAll(START, records) == Ok(Opened(Strip(records)[0].head).(phase := Done))
  {
    var front := records[..|records| - 1];
    assert Strip(front) == Strip(records)[..1] == [Strip(records)[0]];
    HeadOpens(front, Strip(records)[0]);
  }

  lemma ClosedMeansSilent(records: seq<Record>, t: State)
    requires TakeAll(START, records) == Ok(t)
    requires t.phase == Done && t.head.Some? && Bodyless(t.head.value)
    ensures t == Opened(t.head.value).(phase := Done)
    ensures t.head.value.eventStream <==> Silent(records)
  {
    var front := records[..|records| - 1];
    var s := TakeAll(START, front).value;
    OpenMeansHead(front, s);
  }

  /** A run of records that ends in silence never fails on the way, nor shows a body first. */
  lemma SilentPrefix(past: seq<Record>, rest: seq<Record>)
    requires Silent(past + rest)
    ensures TakeAll(START, past).Ok?
    ensures var s := TakeAll(START, past).value; s.open && (s.head.None? || Bodyless(s.head.value))
  {
    SilentCloses(past + rest);
    assert (past + rest)[..|past|] == past;
    if TakeAll(START, past).Err? {
      Poisoned(START, past + rest, |past|);
    }
    TakeAppend(START, past, rest);
    HeadStaysAll(START, past);
    HeadStaysAll(TakeAll(START, past).value, rest);
  }

  lemma {:induction false} TakeErrors(s: State, records: seq<Record>)
    requires TakeAll(s, records).Err?
    ensures TakeAll(s, records).error == RecordInvalid || TakeAll(s, records).error == MetadataInvalid
  {
    if TakeAll(s, records[..|records| - 1]).Err? {
      TakeErrors(s, records[..|records| - 1]);
    }
  }

  lemma {:induction false} ReadFails(past: seq<Record>, s: State, chunks: seq<Chunk>)
    requires TakeAll(START, past) == Ok(s) && Reading(s)
    ensures Read(s, chunks) == Err(CompletionFailed) <==>
      Gathered(chunks).Some? && Silent(past + Gathered(chunks).value)
    decreases chunks, 1
  {
    hide TakeAll, Silent;
    if chunks == [] {
    } else if chunks[0].Records? {
      BatchThenRest(past, s, chunks);
    } else if chunks[0] == End(false) {
      assert past + [] == past;
      EndFails(past, s);
    }
  }

  lemma {:induction false} BatchThenRest(past: seq<Record>, s: State, chunks: seq<Chunk>)
    requires TakeAll(START, past) == Ok(s) && Reading(s) && chunks != [] && chunks[0].Records?
    ensures Read(s, chunks) == Err(CompletionFailed) <==>
      Gathered(chunks).Some? && Silent(past + Gathered(chunks).value)
    decreases chunks, 0
  {
    hide TakeAll, Silent;
    var records := chunks[0].records;
    if Gathered(chunks).Some? && Silent(past + Gathered(chunks).value) {
      SilentBatch(past, s, chunks);
    }
    var t := TakeAll(s, records);
    if t.Err? {
      TakeErrors(s, records);
    } else if Reading(t.value) {
      TakeAppend(START, past, records);
      ReadFails(past + records, t.value, chunks[1..]);
      if Gathered(chunks[1..]).Some? {
        var g := Gathered(chunks[1..]).value;
        assert past + (records + g) == (past + records) + g;
      }
    }
  }

  /** Every batch of a silent stream is accepted and shows no body. */
  lemma SilentBatch(past: seq<Record>, s: State, chunks: seq<Chunk>)
    requires TakeAll(START, past) == Ok(s) && Reading(s) && chunks != [] && chunks[0].Records?
    requires Gathered(chunks).Some? && Silent(past + Gathered(chunks).value)
    ensures TakeAll(s, chunks[0].records).Ok? && Reading(TakeAll(s, chunks[0].records).value)
  {
    var records := chunks[0].records;
    var g := Gathered(chunks[1..]).value;
    assert past + (records + g) == (past + records) + g;
    SilentPrefix(past + records, g);
    TakeAppend(START, past, records);
  }

  lemma EndFails(past: seq<Record>, s: State)
    requires TakeAll(START, past) == Ok(s) && Reading(s)
    ensures Advance(s, End(false)) == Err(CompletionFailed) <==> Silent(past)
  {
    HeadStaysAll(START, past);
    if s.phase == Done {
      ClosedMeansSilent(past, s);
    }
    if Silent(past) {
      SilentCloses(past);
    }
  }

  /** The completion guard rejects an answer exactly if that answer is a silent event stream. */
  lemma CompletionFailsExactly(chunks: seq<Chunk>)
    ensures Outcome(chunks) == Err(CompletionFailed) <==> SilentStream(chunks)
  {
    assert TakeAll(START, []) == Ok(START);
    ReadFails([], START, chunks);
    if Gathered(chunks).Some? {
      assert [] + Gathered(chunks).value == Gathered(chunks).value;
    }
  }
}
