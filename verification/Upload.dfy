/** How a request body becomes records: the browser's streaming re-chunker and the Rust uploader. */
module Upload {
  import opened Basics

  const MAX_RECORD_BYTES: nat := 65_536
  const RECORD_OVERHEAD: nat := 21
  const MAX_RECORD_PLAINTEXT: nat := MAX_RECORD_BYTES - RECORD_OVERHEAD
  const MAX_REQUEST_BYTES: nat := 134_217_728

  /** The plaintext records of one request. */
  datatype Record = Metadata(metadata: Bytes) | Data(data: Bytes) | Finished

  // ----------------------------------------------------------- what is promised

  /** Fixed-size chunking: every chunk is full but the last, and none is empty. */
  function Chunks(body: Bytes): seq<Bytes> {
    if body == [] then []
    else if |body| <= MAX_RECORD_PLAINTEXT then [body]
    else [body[..MAX_RECORD_PLAINTEXT]] + Chunks(body[MAX_RECORD_PLAINTEXT..])
  }

  function AsData(chunks: seq<Bytes>): (r: seq<Record>)
    ensures |r| == |chunks| && forall i :: 0 <= i < |chunks| ==> r[i] == Data(chunks[i])
  {
    seq(|chunks|, i requires 0 <= i < |chunks| => Data(chunks[i]))
  }

  /** The records of a request, whoever uploads it and however its body arrives. */
  function Records(metadata: Bytes, body: Bytes): seq<Record> {
    [Metadata(metadata)] + AsData(Chunks(body)) + [Finished]
  }

  predicate AllFull(chunks: seq<Bytes>) {
    forall i :: 0 <= i < |chunks| ==> |chunks[i]| == MAX_RECORD_PLAINTEXT
  }

  /** Full chunks and a shorter rest are the chunking of their concatenation. */
  lemma {:induction false} ChunksOf(full: seq<Bytes>, rest: Bytes)
    requires AllFull(full) && |rest| < MAX_RECORD_PLAINTEXT
    ensures Chunks(Flatten(full) + rest) == full + (if rest == [] then [] else [rest])
  {
    if full == [] {
      assert Flatten(full) + rest == rest;
    } else {
      var body := Flatten(full) + rest;
      var tail := Flatten(full[1..]) + rest;
      assert body == full[0] + tail;
      ChunksOf(full[1..], rest);
      assert body[..MAX_RECORD_PLAINTEXT] == full[0] && body[MAX_RECORD_PLAINTEXT..] == tail;
      if tail == [] {
        assert body == full[0];
        assert Chunks(tail) == [];
      }
      assert full == [full[0]] + full[1..];
    }
  }

  /** Chunking loses nothing: the chunks concatenate to the body, and only the last may be short. */
  lemma {:induction false} ChunksRestore(body: Bytes)
    ensures Flatten(Chunks(body)) == body
    ensures forall i :: 0 <= i < |Chunks(body)| ==> 0 < |Chunks(body)[i]| <= MAX_RECORD_PLAINTEXT
    ensures forall i :: 0 <= i < |Chunks(body)| - 1 ==> |Chunks(body)[i]| == MAX_RECORD_PLAINTEXT
    ensures |Chunks(body)| == (|body| + MAX_RECORD_PLAINTEXT - 1) / MAX_RECORD_PLAINTEXT
  {
    if body == [] {
    } else if |body| <= MAX_RECORD_PLAINTEXT {
      assert Flatten([body]) == body + Flatten([]);
    } else {
      var rest := body[MAX_RECORD_PLAINTEXT..];
      ChunksRestore(rest);
      assert Chunks(body)[1..] == Chunks(rest);
      assert body == body[..MAX_RECORD_PLAINTEXT] + rest;
    }
  }

  // ------------------------------------------------------------ the re-chunker

  function Total(pieces: seq<Bytes>): nat {
    |Flatten(pieces)|
  }

  lemma TotalGrows(pieces: seq<Bytes>, i: nat)
    requires i < |pieces|
    ensures Flatten(pieces[..i + 1]) == Flatten(pieces[..i]) + pieces[i]
    ensures Total(pieces[..i + 1]) <= Total(pieces)
  {
    assert pieces[..i + 1] == pieces[..i] + [pieces[i]];
    FlattenAppend(pieces[..i], [pieces[i]]);
    assert Flatten([pieces[i]]) == pieces[i] + Flatten([]);
    assert pieces == pieces[..i + 1] + pieces[i + 1..];
    FlattenAppend(pieces[..i + 1], pieces[i + 1..]);
  }

  lemma Rejoined(done: Bytes, value: Bytes, begun: nat, offset: nat)
    requires begun <= offset <= |value|
    ensures done + value[begun..offset] + ([] + value[offset..]) == done + value[begun..]
  {
    assert value[begun..] == value[begun..offset] + value[offset..];
  }

  /** The loop state of `encodeRequest`: sealed records, and a reusable buffer holding what is left. */
  class Chunker {
    var pending: array<byte>
    var filled: nat
    var sealed: seq<Bytes>

    ghost predicate Valid()
      reads this, pending
    {
      pending.Length == MAX_RECORD_PLAINTEXT && filled < MAX_RECORD_PLAINTEXT && AllFull(sealed)
    }

    /** Everything taken so far. */
    ghost function Taken(): Bytes
      reads this, pending
      requires filled <= pending.Length
    {
      Flatten(sealed) + pending[..filled]
    }

    constructor ()
      ensures Valid() && fresh(pending) && Taken() == []
    {
      pending := new byte[MAX_RECORD_PLAINTEXT];
      filled := 0;
      sealed := [];
    }

    method Seal(bytes: Bytes)
      requires |bytes| == MAX_RECORD_PLAINTEXT && AllFull(sealed)
      modifies this`sealed
      ensures AllFull(sealed) && Flatten(sealed) == old(Flatten(sealed)) + bytes
    {
      FlattenAppend(sealed, [bytes]);
      assert Flatten([bytes]) == bytes + Flatten([]);
      sealed := sealed + [bytes];
    }

    /** Copy part of a piece into the buffer, behind what it holds. */
    method Fill(bytes: Bytes)
      requires filled + |bytes| <= pending.Length
      modifies this`filled, pending
      ensures filled == old(filled) + |bytes|
      ensures pending[..filled] == old(pending[..filled]) + bytes
    {
      ghost var kept := pending[..filled];
      forall k | 0 <= k < |bytes| {
        pending[filled + k] := bytes[k];
      }
      filled := filled + |bytes|;
      assert pending[..filled] == kept + bytes;
    }

    /** Complete the buffered record from the front of a piece; says how much of it was used. */
    method TopUp(value: Bytes) returns (offset: nat)
      requires Valid() && filled > 0
      modifies this`filled, this`sealed, pending
      ensures Valid() && offset <= |value| && (filled > 0 ==> offset == |value|)
      ensures Taken() == old(Taken()) + value[..offset]
    {
      hide Flatten;
      ghost var done, held := Flatten(sealed), pending[..filled];
      offset := if MAX_RECORD_PLAINTEXT - filled < |value| then MAX_RECORD_PLAINTEXT - filled else |value|;
      Fill(value[..offset]);
      assert done + (held + value[..offset]) == done + held + value[..offset];
      if filled == MAX_RECORD_PLAINTEXT {
        assert pending[..] == pending[..filled];
        Seal(pending[..]);
        filled := 0;
        assert pending[..0] == [];
      }
    }

    /** Seal every full record of a piece from `start` on; says where the rest begins. */
    method SealFull(value: Bytes, start: nat) returns (offset: nat)
      requires Valid() && filled == 0 && start <= |value|
      modifies this`sealed
      ensures Valid() && start <= offset <= |value| && |value| - offset < MAX_RECORD_PLAINTEXT
      ensures Flatten(sealed) == old(Flatten(sealed)) + value[start..offset]
    {
      hide Flatten;
      ghost var done := Flatten(sealed);
      offset := start;
      while |value| - offset >= MAX_RECORD_PLAINTEXT
        invariant start <= offset <= |value| && filled == 0 && Valid()
        invariant Flatten(sealed) == done + value[start..offset]
      {
        var end := offset + MAX_RECORD_PLAINTEXT;
        Seal(value[offset..end]);
        assert value[start..end] == value[start..offset] + value[offset..end];
        assert done + value[start..end] == done + value[start..offset] + value[offset..end];
        offset := end;
      }
    }

    /** Take the rest of a piece into an empty buffer. */
    method TakeRest(value: Bytes, begun: nat)
      requires Valid() && filled == 0 && begun <= |value|
      modifies this`filled, this`sealed, pending
      ensures Valid() && Taken() == old(Flatten(sealed)) + value[begun..]
    {
      hide Flatten, AllFull;
      ghost var done := Flatten(sealed);
      var offset := SealFull(value, begun);
      ghost var empty := pending[..filled];
      assert empty == [];
      Fill(value[offset..]);
      Rejoined(done, value, begun, offset);
    }

    /** One turn of the read loop. */
    method Take(value: Bytes)
      requires Valid()
      modifies this`filled, this`sealed, pending
      ensures Valid() && Taken() == old(Taken()) + value
    {
      hide Flatten;
      ghost var before := Taken();
      if filled == 0 {
        assert before == Flatten(sealed) && value[0..] == value;
        TakeRest(value, 0);
        return;
      }
      var offset := TopUp(value);
      assert value == value[..offset] + value[offset..];
      if filled == 0 {
        ghost var done := Flatten(sealed);
        assert Taken() == done;
        TakeRest(value, offset);
        assert before + value[..offset] + value[offset..] == before + value;
      }
    }
  }

  /** `encodeRequest`: fails exactly if the body is too long, and otherwise ignores how it was split. */
  method EncodeRequest(metadata: Bytes, pieces: seq<Bytes>) returns (r: Option<seq<Record>>)
    ensures r == if Total(pieces) > MAX_REQUEST_BYTES then None else Some(Records(metadata, Flatten(pieces)))
  {
    var chunker := new Chunker();
    var size: nat := 0;
    for i := 0 to |pieces|
      invariant fresh(chunker) && fresh(chunker.pending) && chunker.Valid()
      invariant chunker.Taken() == Flatten(pieces[..i]) && size == Total(pieces[..i]) <= MAX_REQUEST_BYTES
    {
      TotalGrows(pieces, i);
      if |pieces[i]| > MAX_REQUEST_BYTES - size {
        return None;
      }
      size := size + |pieces[i]|;
      chunker.Take(pieces[i]);
    }
    assert pieces[..|pieces|] == pieces;
    ChunksOf(chunker.sealed, chunker.pending[..chunker.filled]);
    var data := chunker.sealed;
    if chunker.filled > 0 {
      data := data + [chunker.pending[..chunker.filled]];
    }
    assert data == Chunks(Flatten(pieces));
    return Some([Metadata(metadata)] + AsData(data) + [Finished]);
  }

  // --------------------------------------------------------- the Rust uploader

  class Uploader {
    var body: Bytes
    var initial: seq<Record>
    var finished: bool

    constructor (metadata: Bytes, body: Bytes)
      ensures this.body == body && initial == [Metadata(metadata)] && !finished && Left() == Records(metadata, body)
    {
      this.body := body;
      initial := [Metadata(metadata)];
      finished := false;
    }

    /** The records still to come. */
    ghost function Left(): seq<Record>
      reads this
    {
      initial + (if finished then [] else AsData(Chunks(body)) + [Finished])
    }

    /** Everything is sent before the closing record is. */
    ghost predicate Valid()
      reads this
    {
      finished ==> initial == [] && body == []
    }

    /** `Upload::next`, while the upload is neither cancelled nor late. */
    method Next() returns (r: Option<Record>)
      requires Valid()
      modifies this
      ensures Valid()
      ensures r == if old(Left()) == [] then None else Some(old(Left())[0])
      ensures Left() == if old(Left()) == [] then [] else old(Left())[1..]
    {
      ghost var left := Left();
      if initial != [] {
        r := Some(initial[0]);
        initial := initial[1..];
      } else if body != [] {
        var n := if |body| < MAX_RECORD_PLAINTEXT then |body| else MAX_RECORD_PLAINTEXT;
        var bytes := body[..n];
        FirstChunk(body);
        body := body[n..];
        assert AsData(Chunks(body)) == left[1..|left| - 1];
        return Some(Data(bytes));
      } else if finished {
        return None;
      } else {
        finished := true;
        return Some(Finished);
      }
    }
  }

  lemma FirstChunk(body: Bytes)
    requires body != []
    ensures var n := if |body| < MAX_RECORD_PLAINTEXT then |body| else MAX_RECORD_PLAINTEXT;
            Chunks(body) == [body[..n]] + Chunks(body[n..])
  {
    if |body| <= MAX_RECORD_PLAINTEXT {
      assert body[..|body|] == body && body[|body|..] == [];
    }
  }

  /** Draining the uploader gives the records the re-chunker gives for any split of the same body. */
  method UploadAll(metadata: Bytes, body: Bytes) returns (records: seq<Record>)
    ensures records == Records(metadata, body)
  {
    var uploader := new Uploader(metadata, body);
    records := [];
    var more := true;
    while more
      invariant fresh(uploader) && uploader.Valid()
      invariant records + uploader.Left() == Records(metadata, body)
      invariant !more ==> uploader.Left() == []
      decreases |uploader.Left()|, more
    {
      var next := uploader.Next();
      if next.None? {
        more := false;
      } else {
        records := records + [next.value];
      }
    }
  }

  // --------------------------------------------------- what the receiver allows

  const MAX_RECORDS: nat := 0x100_0000
  const MAX_REQUEST_RECORDS: nat := (MAX_REQUEST_BYTES + MAX_RECORD_PLAINTEXT - 1) / MAX_RECORD_PLAINTEXT + 2

  datatype Phase = AwaitMetadata | Body | Tail | Closed

  datatype Receiver = Receiver(phase: Phase, sequence: nat, bodyBytes: nat)

  /** `Records::check` for the request direction. */
  predicate Allows(s: Receiver, r: Record) {
    s.phase != Closed && s.sequence < MAX_RECORDS && (
      match r
      case Metadata(m) => s.phase == AwaitMetadata && 0 < |m| <= MAX_RECORD_PLAINTEXT
      case Data(d) => s.phase == Body && 0 < |d| <= MAX_RECORD_PLAINTEXT && s.bodyBytes + |d| <= MAX_REQUEST_BYTES
      case Finished => s.phase != AwaitMetadata)
  }

  /** `Records::advance` for the request direction: a short record ends the body. */
  function Received(s: Receiver, r: Record): Receiver {
    match r
    case Metadata(_) => Receiver(Body, s.sequence + 1, s.bodyBytes)
    case Data(d) => Receiver(if |d| < MAX_RECORD_PLAINTEXT then Tail else s.phase, s.sequence + 1, s.bodyBytes + |d|)
    case Finished => Receiver(Closed, s.sequence + 1, s.bodyBytes)
  }

  predicate AllowsAll(s: Receiver, records: seq<Record>)
    decreases records
  {
    records == [] || (Allows(s, records[0]) && AllowsAll(Received(s, records[0]), records[1..]))
  }

  function ReceivedAll(s: Receiver, records: seq<Record>): Receiver
    decreases records
  {
    if records == [] then s else ReceivedAll(Received(s, records[0]), records[1..])
  }

  lemma {:induction false} BodyAllowed(s: Receiver, body: Bytes)
    requires s.phase == Body && s.bodyBytes + |body| <= MAX_REQUEST_BYTES
    requires s.sequence + |Chunks(body)| < MAX_RECORDS
    ensures AllowsAll(s, AsData(Chunks(body)) + [Finished])
    ensures ReceivedAll(s, AsData(Chunks(body)) + [Finished])
      == Receiver(Closed, s.sequence + |Chunks(body)| + 1, s.bodyBytes + |body|)
    decreases body
  {
    var records := AsData(Chunks(body)) + [Finished];
    if body == [] {
      assert records == [Finished];
    } else {
      var n := if |body| < MAX_RECORD_PLAINTEXT then |body| else MAX_RECORD_PLAINTEXT;
      FirstChunk(body);
      assert records[1..] == AsData(Chunks(body[n..])) + [Finished];
      if n == MAX_RECORD_PLAINTEXT {
        BodyAllowed(Received(s, records[0]), body[n..]);
      } else {
        assert records[1..] == [Finished];
        OnlyFinish(Received(s, records[0]));
      }
    }
  }

  lemma OnlyFinish(s: Receiver)
    ensures ReceivedAll(s, [Finished]) == Received(s, Finished)
    ensures AllowsAll(s, [Finished]) <==> Allows(s, Finished)
  {
    assert [Finished][1..] == [];
  }

  /** The gateway's record check passes every upload, and the upload stays within its record limit. */
  lemma UploadsAreAllowed(metadata: Bytes, body: Bytes)
    requires 0 < |metadata| <= MAX_RECORD_PLAINTEXT && |body| <= MAX_REQUEST_BYTES
    ensures AllowsAll(Receiver(AwaitMetadata, 0, 0), Records(metadata, body))
    ensures ReceivedAll(Receiver(AwaitMetadata, 0, 0), Records(metadata, body))
      == Receiver(Closed, |Records(metadata, body)|, |body|)
    ensures |Records(metadata, body)| <= MAX_REQUEST_RECORDS
  {
    ChunksRestore(body);
    var s := Received(Receiver(AwaitMetadata, 0, 0), Metadata(metadata));
    assert Records(metadata, body)[1..] == AsData(Chunks(body)) + [Finished];
    BodyAllowed(s, body);
  }

  lemma {:induction false} ChunksOfMore(first: Bytes, rest: Bytes)
    requires |first| == MAX_RECORD_PLAINTEXT
    ensures Chunks(first + rest) == [first] + Chunks(rest)
  {
    var body := first + rest;
    assert body[..MAX_RECORD_PLAINTEXT] == first && body[MAX_RECORD_PLAINTEXT..] == rest;
    if rest == [] {
      assert body == first;
    }
  }

  /** After the metadata the receiver passes to its end exactly the chunks of a body that fits, and their end. */
  lemma {:induction false} BodyAllowedOnly(s: Receiver, records: seq<Record>) returns (body: Bytes)
    requires s.phase == Body && AllowsAll(s, records) && ReceivedAll(s, records).phase == Closed
    requires s.bodyBytes <= MAX_REQUEST_BYTES
    ensures records == AsData(Chunks(body)) + [Finished] && s.bodyBytes + |body| <= MAX_REQUEST_BYTES
    decreases records
  {
    var r, rest := records[0], records[1..];
    assert records == [r] + rest;
    if r.Finished? {
      body := [];
      ClosedStays(Received(s, r), rest);
    } else if |r.data| < MAX_RECORD_PLAINTEXT {
      body := r.data;
      TailAllows(Received(s, r), rest);
    } else {
      var more := BodyAllowedOnly(Received(s, r), rest);
      body := r.data + more;
      ChunksOfMore(r.data, more);
    }
  }

  lemma ClosedStays(s: Receiver, records: seq<Record>)
    requires s.phase == Closed && AllowsAll(s, records)
    ensures records == []
  {
  }

  lemma TailAllows(s: Receiver, records: seq<Record>)
    requires s.phase == Tail && AllowsAll(s, records) && ReceivedAll(s, records).phase == Closed
    ensures records == [Finished]
  {
    var r, rest := records[0], records[1..];
    assert records == [r] + rest;
    ClosedStays(Received(s, r), rest);
  }

  /** Metadata of one record, which holds 65,536 bytes less 21, and a body of at most 128 MiB. */
  predicate IsUpload(records: seq<Record>, metadata: Bytes, body: Bytes) {
    records == Records(metadata, body) && 0 < |metadata| <= 65_515 && |body| <= 134_217_728
  }

  /**
   * The receiver's record check passes a list to its end exactly if it is the upload of some
   * request: metadata that fits one record and a body within the limit, cut as the uploaders cut it.
   */
  lemma AllowedExactly(records: seq<Record>)
    ensures AllowsAll(Receiver(AwaitMetadata, 0, 0), records)
        && ReceivedAll(Receiver(AwaitMetadata, 0, 0), records).phase == Closed
      <==> exists metadata, body :: IsUpload(records, metadata, body)
  {
    var start := Receiver(AwaitMetadata, 0, 0);
    if AllowsAll(start, records) && ReceivedAll(start, records).phase == Closed {
      var r, rest := records[0], records[1..];
      assert records == [r] + rest;
      var body := BodyAllowedOnly(Received(start, r), rest);
      assert IsUpload(records, r.metadata, body);
    }
    if metadata, body :| IsUpload(records, metadata, body) {
      UploadsAreAllowed(metadata, body);
    }
  }
}
