/** Which answers a client accepts, said of the records they hold. */
module ReplyMeaning {
  import opened Basics
  import opened EncryptedReply

  // ------------------------------------------------------------- record order

  /** Answers of these statuses have no body. */
  predicate NoBody(status: nat) {
    status in {204, 205, 304}
  }

  /** A piece of body that the answer's head allows: events have to be framed. */
  predicate Fits(head: Head, r: Record) {
    r.Data? && !NoBody(head.status) && (head.eventStream ==> r.framed)
  }

  /** Nothing yet; or a valid head, pieces of body it allows, and at most one closing record behind them. */
  predicate InOrder(records: seq<Record>) {
    records == [] || (
      && records[0].Metadata? && records[0].valid
      && forall i :: 1 <= i < |records| ==>
           Fits(records[0].head, records[i]) || (records[i] == Finished && i == |records| - 1))
  }

  predicate ClosedBy(records: seq<Record>) {
    records != [] && records[|records| - 1] == Finished
  }

  /** In order once the keepalives are left out, and nothing at all behind a closing record. */
  predicate Orderly(records: seq<Record>) {
    && InOrder(Strip(records))
    && forall i :: 0 <= i < |records| - 1 ==> records[i] != Finished
  }

  function HeadOf(records: seq<Record>): Option<Head> {
    var kept := Strip(records);
    if kept != [] && kept[0].Metadata? then Some(kept[0].head) else None
  }

  /** The event guard after the records: none, or whether the last piece of body was terminal. */
  function GuardOf(records: seq<Record>): Option<bool> {
    var kept := Strip(records);
    if HeadOf(records).None? || !HeadOf(records).value.eventStream then None
    else
      var body := if ClosedBy(kept) then kept[..|kept| - 1] else kept;
      Some(body != [] && body[|body| - 1].Data? && body[|body| - 1].terminal)
  }

  function Reached(records: seq<Record>): State {
    State(true, if HeadOf(records).None? then AwaitMetadata else if ClosedBy(records) then Done else Body,
          HeadOf(records), GuardOf(records))
  }

  lemma StripSnoc(front: seq<Record>, r: Record)
    ensures Strip(front + [r]) == if r == Keepalive then Strip(front) else Strip(front) + [r]
  {
    assert (front + [r])[..|front|] == front;
  }

  lemma {:induction false} StripKeepsNone(records: seq<Record>)
    ensures forall i :: 0 <= i < |Strip(records)| ==> Strip(records)[i] != Keepalive && Strip(records)[i] in records
  {
    if records != [] {
      StripKeepsNone(records[..|records| - 1]);
    }
  }

  lemma InOrderSnoc(kept: seq<Record>, r: Record)
    requires InOrder(kept) && !ClosedBy(kept) && r != Keepalive
    ensures InOrder(kept + [r]) <==>
      if kept == [] then r.Metadata? && r.valid else Fits(kept[0].head, r) || r == Finished
  {
    var all := kept + [r];
    assert forall i :: 0 <= i < |kept| ==> all[i] == kept[i];
    assert all[|kept|] == r;
  }

  lemma InOrderFront(kept: seq<Record>)
    requires InOrder(kept) && kept != []
    ensures InOrder(kept[..|kept| - 1]) && !ClosedBy(kept[..|kept| - 1])
  {
    var front := kept[..|kept| - 1];
    assert forall i :: 0 <= i < |front| ==> front[i] == kept[i];
  }

  lemma ClosedWasIn(records: seq<Record>)
    ensures ClosedBy(Strip(records)) ==> Finished in records
  {
    StripKeepsNone(records);
  }

  /** Whether a closing record has come is the same with and without the keepalives. */
  lemma ClosedStripped(records: seq<Record>)
    requires Orderly(records)
    ensures ClosedBy(Strip(records)) <==> ClosedBy(records)
  {
    if records != [] {
      var n := |records| - 1;
      ClosedWasIn(records[..n]);
    }
  }

  lemma OrderlyFront(records: seq<Record>)
    requires Orderly(records) && records != []
    ensures Orderly(records[..|records| - 1]) && !ClosedBy(records[..|records| - 1])
  {
    var front, r := records[..|records| - 1], records[|records| - 1];
    assert records == front + [r];
    StripSnoc(front, r);
    if r != Keepalive {
      InOrderFront(Strip(records));
      assert Strip(records)[..|Strip(records)| - 1] == Strip(front);
    }
    assert forall i :: 0 <= i < |front| ==> front[i] == records[i];
  }

  /** One record more: taken exactly if the list stays orderly, and the state says what the list says. */
  lemma TakeExactly(front: seq<Record>, r: Record)
    requires Orderly(front)
    ensures Take(Reached(front), r).Ok? <==> Orderly(front + [r])
    ensures Orderly(front + [r]) ==> Take(Reached(front), r) == Ok(Reached(front + [r]))
  {
    var records := front + [r];
    StripSnoc(front, r);
    ClosedStripped(front);
    NoHeadNothing(front);
    if ClosedBy(front) {
      assert records[|front| - 1] == Finished;
    } else {
      assert forall i :: 0 <= i < |front| ==> records[i] == front[i] && front[i] != Finished;
      if r != Keepalive {
        InOrderSnoc(Strip(front), r);
      }
    }
    if Orderly(records) {
      TakenState(front, r);
    }
  }

  /** Before the head there is nothing but keepalives. */
  lemma NoHeadNothing(records: seq<Record>)
    requires Orderly(records)
    ensures HeadOf(records).None? <==> Strip(records) == []
    ensures HeadOf(records).None? ==> !ClosedBy(records)
  {
    ClosedStripped(records);
  }

  lemma TakenState(front: seq<Record>, r: Record)
    requires Orderly(front) && Orderly(front + [r]) && !ClosedBy(front)
    ensures Take(Reached(front), r) == Ok(Reached(front + [r]))
  {
    var records := front + [r];
    StripSnoc(front, r);
    ClosedStripped(front);
    ClosedStripped(records);
    NoHeadNothing(front);
    var kept := Strip(front);
    if r != Keepalive {
      InOrderSnoc(kept, r);
      assert (kept + [r])[..|kept|] == kept;
      if kept != [] {
        assert (kept + [r])[0] == kept[0];
      }
    }
  }

  lemma {:induction false} TakenExactly(records: seq<Record>)
    ensures TakeAll(START, records).Ok? <==> Orderly(records)
    ensures Orderly(records) ==> TakeAll(START, records) == Ok(Reached(records))
  {
    if records != [] {
      var front, r := records[..|records| - 1], records[|records| - 1];
      assert records == front + [r];
      TakenExactly(front);
      if Orderly(front) {
        TakeExactly(front, r);
      } else if Orderly(records) {
        OrderlyFront(records);
      }
    }
  }

  // ------------------------------------------------------------------ answers

  predicate AllRecords(chunks: seq<Chunk>) {
    forall i :: 0 <= i < |chunks| ==> chunks[i].Records?
  }

  function RecordsIn(chunks: seq<Chunk>): seq<Record> {
    if chunks == [] then [] else (if chunks[0].Records? then chunks[0].records else []) + RecordsIn(chunks[1..])
  }

  /** The head of an answer with a body is returned with the read that brings it. */
  predicate AnsweredAt(seen: seq<Record>, chunks: seq<Chunk>, n: nat, h: Head) {
    && n <= |chunks| && AllRecords(chunks[..n]) && !NoBody(h.status)
    && Orderly(seen + RecordsIn(chunks[..n])) && HeadOf(seen + RecordsIn(chunks[..n])) == Some(h)
    && (n > 0 ==> HeadOf(seen + RecordsIn(chunks[..n - 1])).None?)
  }

  /** The head of an answer without one is returned only once the transport ends cleanly behind a closing record. */
  predicate EndedAt(seen: seq<Record>, chunks: seq<Chunk>, n: nat, h: Head) {
    && n < |chunks| && AllRecords(chunks[..n]) && NoBody(h.status) && !h.eventStream && chunks[n] == End(false)
    && Orderly(seen + RecordsIn(chunks[..n])) && HeadOf(seen + RecordsIn(chunks[..n])) == Some(h)
    && ClosedBy(seen + RecordsIn(chunks[..n]))
  }

  ghost predicate Answers(seen: seq<Record>, chunks: seq<Chunk>, h: Head) {
    (exists n: nat :: AnsweredAt(seen, chunks, n, h)) || exists n: nat :: EndedAt(seen, chunks, n, h)
  }

  /** The state at the end of an answer whose head is `h`. */
  predicate Gives(r: Result<State, Error>, h: Head) {
    r.Ok? && r.value.head == Some(h)
  }

  lemma GuardOfBodyless(records: seq<Record>)
    requires Orderly(records) && HeadOf(records).Some? && NoBody(HeadOf(records).value.status)
    ensures GuardOf(records) == (if HeadOf(records).value.eventStream then Some(false) else None)
  {
    var kept := Strip(records);
    StripKeepsNone(records);
    assert forall i :: 1 <= i < |kept| ==> kept[i] == Finished;
  }

  lemma BodylessIs(h: Head)
    ensures Bodyless(h) <==> NoBody(h.status)
  {
  }

  /** Nothing is left to read: the head is known and has a body. */
  lemma AnsweredNow(seen: seq<Record>, chunks: seq<Chunk>, h: Head)
    requires Orderly(seen) && !Reading(Reached(seen))
    ensures HeadOf(seen).Some? && Gives(Read(Reached(seen), chunks), h) <==> Answers(seen, chunks, h)
  {
    NoHeadNothing(seen);
    BodylessIs(HeadOf(seen).value);
    assert chunks[..0] == [] && seen + RecordsIn(chunks[..0]) == seen;
    if HeadOf(seen) == Some(h) {
      assert AnsweredAt(seen, chunks, 0, h);
    }
    forall n: nat | n <= |chunks| && AllRecords(chunks[..n]) && Orderly(seen + RecordsIn(chunks[..n]))
      ensures HeadOf(seen + RecordsIn(chunks[..n])) == HeadOf(seen)
    {
      HeadStaysFirst(seen, RecordsIn(chunks[..n]));
    }
  }

  lemma {:induction false} HeadStaysFirst(a: seq<Record>, b: seq<Record>)
    requires HeadOf(a).Some?
    ensures HeadOf(a + b) == HeadOf(a)
    decreases b
  {
    if b == [] {
      assert a + b == a;
    } else {
      var front := b[..|b| - 1];
      HeadStaysFirst(a, front);
      assert a + b == (a + front) + [b[|b| - 1]];
      StripSnoc(a + front, b[|b| - 1]);
    }
  }

  lemma {:induction false} OrderlyStart(a: seq<Record>, b: seq<Record>)
    requires Orderly(a + b)
    ensures Orderly(a)
    decreases b
  {
    if b == [] {
      assert a + b == a;
    } else {
      OrderlyFront(a + b);
      assert (a + b)[..|a + b| - 1] == a + b[..|b| - 1];
      OrderlyStart(a, b[..|b| - 1]);
    }
  }

  /** One read more of records: the answers are those of what is left. */
  lemma AnswersShift(seen: seq<Record>, chunks: seq<Chunk>, h: Head)
    requires Orderly(seen) && Reading(Reached(seen)) && chunks != [] && chunks[0].Records?
    ensures Answers(seen, chunks, h) <==>
      Orderly(seen + chunks[0].records) && Answers(seen + chunks[0].records, chunks[1..], h)
  {
    hide Orderly, HeadOf, Reached;
    var more, rest := seen + chunks[0].records, chunks[1..];
    forall n: nat | n < |chunks|
      ensures chunks[..n + 1] == [chunks[0]] + rest[..n]
      ensures seen + RecordsIn(chunks[..n + 1]) == more + RecordsIn(rest[..n])
      ensures AllRecords(chunks[..n + 1]) <==> AllRecords(rest[..n])
    {
      ShiftOne(seen, chunks, n);
    }
    if n: nat :| AnsweredAt(seen, chunks, n, h) {
      FirstIsNotEnough(seen, chunks, n, h);
      OrderlyStart(more, RecordsIn(rest[..n - 1]));
      assert n > 1 ==> seen + RecordsIn(chunks[..n - 1]) == more + RecordsIn(rest[..n - 2]);
      assert AnsweredAt(more, rest, n - 1, h);
    }
    if n: nat :| EndedAt(seen, chunks, n, h) {
      assert n > 0;
      OrderlyStart(more, RecordsIn(rest[..n - 1]));
      assert EndedAt(more, rest, n - 1, h);
    }
    if Orderly(more) {
      if n: nat :| AnsweredAt(more, rest, n, h) {
        AnsweredLater(seen, chunks, n, h);
      }
      if n: nat :| EndedAt(more, rest, n, h) {
        assert EndedAt(seen, chunks, n + 1, h);
      }
    }
  }

  lemma ShiftOne(seen: seq<Record>, chunks: seq<Chunk>, n: nat)
    requires n < |chunks| && chunks[0].Records?
    ensures chunks[..n + 1] == [chunks[0]] + chunks[1..][..n]
    ensures seen + RecordsIn(chunks[..n + 1]) == seen + chunks[0].records + RecordsIn(chunks[1..][..n])
    ensures AllRecords(chunks[..n + 1]) <==> AllRecords(chunks[1..][..n])
  {
    var all := chunks[..n + 1];
    assert all[1..] == chunks[1..][..n];
    assert all == [chunks[0]] + all[1..];
    assert seen + (chunks[0].records + RecordsIn(all[1..])) == seen + chunks[0].records + RecordsIn(all[1..]);
  }

  lemma FirstIsNotEnough(seen: seq<Record>, chunks: seq<Chunk>, n: nat, h: Head)
    requires Orderly(seen) && Reading(Reached(seen)) && AnsweredAt(seen, chunks, n, h)
    ensures n > 0 && HeadOf(seen).None?
  {
    assert chunks[..0] == [] && seen + RecordsIn(chunks[..0]) == seen;
    if HeadOf(seen).Some? {
      BodylessIs(HeadOf(seen).value);
      HeadStaysFirst(seen, RecordsIn(chunks[..n]));
    }
  }

  lemma AnsweredLater(seen: seq<Record>, chunks: seq<Chunk>, n: nat, h: Head)
    requires Orderly(seen) && Reading(Reached(seen)) && chunks != [] && chunks[0].Records?
    requires AnsweredAt(seen + chunks[0].records, chunks[1..], n, h)
    ensures AnsweredAt(seen, chunks, n + 1, h)
  {
    ShiftOne(seen, chunks, n);
    if n > 0 {
      ShiftOne(seen, chunks, n - 1);
    } else {
      assert chunks[..0] == [] && seen + RecordsIn(chunks[..0]) == seen;
      assert chunks[1..][..0] == [] && seen + chunks[0].records + RecordsIn([]) == seen + chunks[0].records;
      if HeadOf(seen).Some? {
        BodylessIs(HeadOf(seen).value);
        HeadStaysFirst(seen, chunks[0].records);
      }
    }
  }

  lemma TakeMore(seen: seq<Record>, records: seq<Record>)
    requires Orderly(seen)
    ensures TakeAll(Reached(seen), records).Ok? <==> Orderly(seen + records)
    ensures Orderly(seen + records) ==> TakeAll(Reached(seen), records) == Ok(Reached(seen + records))
  {
    TakenExactly(seen);
    TakenExactly(seen + records);
    TakeAppend(START, seen, records);
  }

  lemma {:induction false} ReadExactly(seen: seq<Record>, chunks: seq<Chunk>, h: Head)
    requires Orderly(seen)
    ensures Gives(Read(Reached(seen), chunks), h) <==> Answers(seen, chunks, h)
    decreases chunks
  {
    hide Orderly, Reached, Answers, HeadOf;
    if !Reading(Reached(seen)) {
      AnsweredNow(seen, chunks, h);
      KnownHead(seen);
    } else if chunks == [] {
      NothingAnswers(seen, h);
    } else if chunks[0].Records? {
      TakeMore(seen, chunks[0].records);
      AnswersShift(seen, chunks, h);
      if Orderly(seen + chunks[0].records) {
        ReadExactly(seen + chunks[0].records, chunks[1..], h);
      }
    } else {
      EndExactly(seen, chunks, h);
    }
  }

  lemma KnownHead(seen: seq<Record>)
    requires !Reading(Reached(seen))
    ensures HeadOf(seen).Some?
  {
  }

  lemma NothingAnswers(seen: seq<Record>, h: Head)
    requires Orderly(seen) && Reading(Reached(seen))
    ensures !Answers(seen, [], h)
  {
    if n: nat :| AnsweredAt(seen, [], n, h) {
      FirstIsNotEnough(seen, [], n, h);
    }
  }

  /** A read that brings no records ends the reading: well only if it is the clean end of a closed bodyless answer. */
  lemma EndExactly(seen: seq<Record>, chunks: seq<Chunk>, h: Head)
    requires Orderly(seen) && Reading(Reached(seen)) && chunks != [] && !chunks[0].Records?
    ensures Gives(Read(Reached(seen), chunks), h) <==> Answers(seen, chunks, h)
  {
    assert chunks[..0] == [] && seen + RecordsIn(chunks[..0]) == seen;
    forall n: nat | 0 < n <= |chunks|
      ensures !AllRecords(chunks[..n])
    {
      assert chunks[..n][0] == chunks[0];
    }
    if n: nat :| AnsweredAt(seen, chunks, n, h) {
      FirstIsNotEnough(seen, chunks, n, h);
    }
    if n: nat :| EndedAt(seen, chunks, n, h) {
      assert n == 0;
    }
    NoHeadNothing(seen);
    if HeadOf(seen).Some? {
      BodylessIs(HeadOf(seen).value);
      GuardOfBodyless(seen);
      if chunks[0] == End(false) && ClosedBy(seen) && !HeadOf(seen).value.eventStream {
        assert EndedAt(seen, chunks, 0, HeadOf(seen).value);
      }
    }
  }

  /**
   * The client gets a head exactly if the records that came before it are in order, and: it has a
   * body and came with the last of them; or it has none, nothing but the closing record and
   * keepalives came with it, it announces no events, and the transport then ended cleanly.
   */
  lemma OutcomeExactly(chunks: seq<Chunk>, h: Head)
    ensures Outcome(chunks) == Ok(h) <==> Answers([], chunks, h)
  {
    assert Orderly([]) && Reached([]) == START;
    ReadExactly([], chunks, h);
  }
}
