/**
 * Every run of two ratchet peers over a network that loses, delays, replays, reflects,
 * renumbers and injects messages.
 *
 * A receive that panics leaves the state the code leaves and the run goes on, so the
 * runs here include the ones in which the panic is the end.
 */
module RatchetRun {
  import opened Basics
  import opened RatchetPeer
  import opened RatchetKeys
  import opened RatchetSteps

  datatype Event =
    | Send(client: bool, request: nat, seed: nat, randomness: nat)
    | Deliver(client: bool, index: nat, request: nat)
    | Inject(client: bool, request: nat)

  /** A message and the secret its sender derived for it. */
  datatype Sent = Sent(client: bool, sealed: Sealed, secret: Term)

  /** One attempt to deliver message `index` to a peer. No secret means the receive panicked. */
  datatype Delivery = Delivery(client: bool, index: nat, request: nat, secret: Option<Term>)

  datatype World = World(client: State, server: State, sent: seq<Sent>, deliveries: seq<Delivery>, halted: bool)

  const COUNTER_MAX: nat := 0xFFFF_FFFF_FFFF_FFFF

  function PeerOf(w: World, client: bool): State {
    if client then w.client else w.server
  }

  function WithPeer(w: World, client: bool, p: State): World {
    if client then w.(client := p) else w.(server := p)
  }

  function Begin(root: nat, initial: nat): World {
    World(Fresh(root, initial, true), Fresh(root, initial, false), [], [], false)
  }

  function Next(w: World, ev: Event): World {
    if w.halted then w
    else match ev
      case Send(client, request, seed, randomness) =>
        var p := PeerOf(w, client);
        if p.sendChain.Some? && p.sent >= COUNTER_MAX then w.(halted := true)
        else (
          match SendSpec(p, request, seed, randomness)
          case None => w.(halted := true)
          case Some((q, sealed, secret)) => WithPeer(w, client, q).(sent := w.sent + [Sent(client, sealed, secret)]))
      case Deliver(client, index, request) =>
        if index >= |w.sent| then w
        else
          var (q, secret) := ReceiveSpec(PeerOf(w, client), w.sent[index].sealed, request);
          WithPeer(w, client, q).(deliveries := w.deliveries + [Delivery(client, index, request, secret)])
      case Inject(client, request) => WithPeer(w, client, ReceiveSpec(PeerOf(w, client), Garbage, request).0)
  }

  function Run(root: nat, initial: nat, events: seq<Event>): World {
    if events == [] then Begin(root, initial)
    else Next(Run(root, initial, events[..|events| - 1]), events[|events| - 1])
  }

  /** Messages sealed under one header key: the length of one chain. */
  function ChainLength(sent: seq<Sent>, key: Term): nat {
    if sent == [] then 0
    else
      var last := sent[|sent| - 1];
      ChainLength(sent[..|sent| - 1], key) + if last.sealed.Sealed? && last.sealed.key == key then 1 else 0
  }

  // ------------------------------------------------------------------- ledger

  /** Where a message stands in the session. */
  datatype Mark = Mark(turn: nat, number: nat)

  predicate Before(a: Mark, b: Mark) {
    a.turn < b.turn || (a.turn == b.turn && a.number < b.number)
  }

  datatype Ledger = Ledger(keys: Schedule, counts: seq<nat>, marks: seq<Mark>, clientTurn: nat, serverTurn: nat)

  function TurnOf(g: Ledger, client: bool): nat {
    if client then g.clientTurn else g.serverTurn
  }

  function WithTurn(g: Ledger, client: bool, e: nat): Ledger {
    if client then g.(clientTurn := e) else g.(serverTurn := e)
  }

  predicate TurnsInv(g: Ledger) {
    && |g.counts| == |g.keys.turns|
    && |g.keys.turns| == (if g.clientTurn > g.serverTurn then g.clientTurn else g.serverTurn)
    && (|| g.clientTurn == g.serverTurn
        || (g.clientTurn == g.serverTurn + 1 && g.clientTurn % 2 == 1)
        || (g.serverTurn == g.clientTurn + 1 && g.serverTurn % 2 == 0))
    && forall i :: 0 <= i < |g.counts| ==> g.counts[i] >= 1
  }

  predicate PeersInv(w: World, g: Ledger) {
    && OnSchedule(g.keys, g.counts, w.client, true, g.clientTurn)
    && OnSchedule(g.keys, g.counts, w.server, false, g.serverTurn)
  }

  predicate MessageInv(k: Schedule, counts: seq<nat>, m: Sent, mark: Mark)
    requires |counts| == |k.turns|
  {
    && 1 <= mark.turn <= |k.turns|
    && mark.number < Count(counts, mark.turn)
    && m.client == (mark.turn % 2 == 1)
    && m.sealed.Sealed?
    && m.sealed.key == HeaderKey(k, mark.turn)
    && m.sealed.header == ScheduledHeader(k, counts, mark.turn, mark.number)
    && m.secret == MessageSecret(k, mark.turn, mark.number)
  }

  predicate MessagesInv(k: Schedule, counts: seq<nat>, sent: seq<Sent>, marks: seq<Mark>)
    requires |counts| == |k.turns|
  {
    && |marks| == |sent|
    && (forall i :: 0 <= i < |sent| ==> MessageInv(k, counts, sent[i], marks[i]))
    && (forall i, j :: 0 <= i < j < |sent| && sent[i].client == sent[j].client ==> Before(marks[i], marks[j]))
  }

  predicate LengthsInv(k: Schedule, counts: seq<nat>, sent: seq<Sent>, marks: seq<Mark>)
    requires |counts| == |k.turns| && |marks| == |sent|
  {
    && (forall e :: 1 <= e <= |k.turns| ==> ChainLength(sent, HeaderKey(k, e)) == counts[e - 1])
    && (forall i :: 0 <= i < |sent| && sent[i].sealed.Sealed? ==>
          marks[i].number == ChainLength(sent[..i], sent[i].sealed.key))
  }

  /** The receiver has moved past this position. */
  predicate Passed(p: State, client: bool, e: nat, mark: Mark) {
    var r := ReceiveTurn(client, e);
    mark.turn < r || (mark.turn == r && mark.number < p.received)
  }

  /** The delivery came under the request number of its message. */
  predicate Numbered(w: World, d: Delivery) {
    d.index < |w.sent| && w.sent[d.index].sealed.Sealed? && d.request == w.sent[d.index].sealed.request
  }

  predicate DeliveryInv(w: World, g: Ledger, d: Delivery)
    requires |g.marks| == |w.sent|
  {
    && d.index < |w.sent|
    && (d.secret.Some? ==>
          && w.sent[d.index].client != d.client
          && d.secret.value == w.sent[d.index].secret
          && Passed(PeerOf(w, d.client), d.client, TurnOf(g, d.client), g.marks[d.index]))
    && (d.secret.Some? ==> Numbered(w, d))
    && (Numbered(w, d) && w.sent[d.index].client != d.client ==>
          g.marks[d.index].turn <= ReceiveTurn(d.client, TurnOf(g, d.client)))
  }

  predicate DeliveriesInv(w: World, g: Ledger)
    requires |g.marks| == |w.sent|
  {
    && (forall i :: 0 <= i < |w.deliveries| ==> DeliveryInv(w, g, w.deliveries[i]))
    && (forall i, j :: 0 <= i < j < |w.deliveries| && BothReturned(w.deliveries[i], w.deliveries[j]) ==>
          Before(g.marks[w.deliveries[i].index], g.marks[w.deliveries[j].index]))
  }

  predicate BothReturned(a: Delivery, b: Delivery) {
    a.client == b.client && a.secret.Some? && b.secret.Some?
  }

  /** This delivery brought the peer a message of the turn, or returned the message at the mark. */
  predicate Brings(w: World, g: Ledger, d: Delivery, client: bool, mark: Mark, wholeTurn: bool)
    requires |g.marks| == |w.sent|
  {
    && d.client == client && Numbered(w, d) && g.marks[d.index].turn == mark.turn
    && (wholeTurn || (g.marks[d.index].number == mark.number && d.secret.Some?))
  }

  ghost predicate WasOffered(w: World, g: Ledger, client: bool, mark: Mark, wholeTurn: bool)
    requires |g.marks| == |w.sent|
  {
    exists i :: 0 <= i < |w.deliveries| && Brings(w, g, w.deliveries[i], client, mark, wholeTurn)
  }

  /** A receiver stands only where deliveries have brought it. */
  ghost predicate Reached(w: World, g: Ledger, client: bool)
    requires |g.marks| == |w.sent|
  {
    var r := ReceiveTurn(client, TurnOf(g, client));
    && (r >= 1 ==> WasOffered(w, g, client, Mark(r, 0), true))
    && (r >= 1 && PeerOf(w, client).received > 0 ==>
      WasOffered(w, g, client, Mark(r, PeerOf(w, client).received - 1), false))
  }

  ghost predicate Inv(w: World, g: Ledger) {
    && TurnsInv(g)
    && PeersInv(w, g)
    && MessagesInv(g.keys, g.counts, w.sent, g.marks)
    && LengthsInv(g.keys, g.counts, w.sent, g.marks)
    && DeliveriesInv(w, g)
    && Reached(w, g, true)
    && Reached(w, g, false)
  }

  // -------------------------------------------------------------------- sends

  lemma LengthOfAppend(sent: seq<Sent>, m: Sent, key: Term)
    ensures ChainLength(sent + [m], key)
         == ChainLength(sent, key) + if m.sealed.Sealed? && m.sealed.key == key then 1 else 0
  {
    assert (sent + [m])[..|sent|] == sent;
  }

  lemma {:induction false} NoSuchChain(k: Schedule, counts: seq<nat>, sent: seq<Sent>, marks: seq<Mark>, key: Term)
    requires |counts| == |k.turns| && |marks| == |sent|
    requires forall i :: 0 <= i < |sent| ==> MessageInv(k, counts, sent[i], marks[i])
    requires forall e :: 1 <= e <= |k.turns| ==> HeaderKey(k, e) != key
    ensures ChainLength(sent, key) == 0
  {
    if sent != [] {
      NoSuchChain(k, counts, sent[..|sent| - 1], marks[..|sent| - 1], key);
    }
  }

  lemma MessagesAfterBump(k: Schedule, counts: seq<nat>, sent: seq<Sent>, marks: seq<Mark>, e: nat, m: Sent)
    requires |counts| == |k.turns| && MessagesInv(k, counts, sent, marks) && LengthsInv(k, counts, sent, marks)
    requires 1 <= e <= |k.turns| <= e + 1
    requires m.client == (e % 2 == 1) && m.sealed.Sealed? && m.sealed.key == HeaderKey(k, e)
    requires m.sealed.header == ScheduledHeader(k, counts, e, Count(counts, e)) &&
      m.secret == MessageSecret(k, e, Count(counts, e))
    ensures MessagesInv(k, Bump(counts, e), sent + [m], marks + [Mark(e, Count(counts, e))])
    ensures LengthsInv(k, Bump(counts, e), sent + [m], marks + [Mark(e, Count(counts, e))])
  {
    hide HeaderKey, MessageSecret, Seed, TurnCiphertext, ChainLength;
    var counts', sent', marks' := Bump(counts, e), sent + [m], marks + [Mark(e, Count(counts, e))];
    forall i | 0 <= i < |sent'|
      ensures MessageInv(k, counts', sent'[i], marks'[i])
    {
      if i < |sent| {
        assert MessageInv(k, counts, sent[i], marks[i]);
      }
    }
    forall f | 1 <= f <= |k.turns|
      ensures ChainLength(sent', HeaderKey(k, f)) == counts'[f - 1]
    {
      LengthOfAppend(sent, m, HeaderKey(k, f));
      if f != e && HeaderKey(k, f) == HeaderKey(k, e) {
        HeaderKeysDistinct(k, f, e);
      }
    }
    forall i | 0 <= i < |sent'| && sent'[i].sealed.Sealed?
      ensures marks'[i].number == ChainLength(sent'[..i], sent'[i].sealed.key)
    {
      if i < |sent| {
        assert sent'[..i] == sent[..i];
      } else {
        assert sent'[..i] == sent;
      }
    }
  }

  lemma MessagesAfterTurn(k: Schedule, counts: seq<nat>, sent: seq<Sent>, marks: seq<Mark>, t: Turn)
    requires |counts| == |k.turns| && MessagesInv(k, counts, sent, marks) && LengthsInv(k, counts, sent, marks)
    ensures MessagesInv(Extend(k, t), counts + [0], sent, marks)
    ensures LengthsInv(Extend(k, t), counts + [0], sent, marks)
  {
    hide HeaderKey, MessageSecret, Seed, TurnCiphertext, ChainLength;
    var k', counts' := Extend(k, t), counts + [0];
    forall i | 0 <= i < |sent|
      ensures MessageInv(k', counts', sent[i], marks[i])
    {
      assert MessageInv(k, counts, sent[i], marks[i]);
      KeepsMessage(k, t, marks[i].turn, marks[i].number);
    }
    forall f | 1 <= f <= |k'.turns|
      ensures ChainLength(sent, HeaderKey(k', f)) == counts'[f - 1]
    {
      if f <= |k.turns| {
        ExtendKeepsHeader(k, t, f);
      } else {
        forall e | 1 <= e <= |k.turns|
          ensures HeaderKey(k, e) != HeaderKey(k', f)
        {
          ExtendKeepsHeader(k, t, e);
          if HeaderKey(k, e) == HeaderKey(k', f) {
            HeaderKeysDistinct(k', e, f);
          }
        }
        NoSuchChain(k, counts, sent, marks, HeaderKey(k', f));
      }
    }
  }

  lemma KeepsMessage(k: Schedule, t: Turn, e: nat, n: nat)
    requires 1 <= e <= |k.turns|
    ensures HeaderKey(Extend(k, t), e) == HeaderKey(k, e) && Seed(Extend(k, t), e) == Seed(k, e)
    ensures TurnCiphertext(Extend(k, t), e) == TurnCiphertext(k, e)
    ensures MessageSecret(Extend(k, t), e, n) == MessageSecret(k, e, n)
  {
    ExtendKeepsHeader(k, t, e);
    ExtendKeeps(k, t, e);
    ExtendKeepsTurn(k, t, e);
  }

  /** Sending keeps every delivery's place. */
  lemma DeliveriesAfterSend(w: World, g: Ledger, w': World, g': Ledger)
    requires |g.marks| == |w.sent| && DeliveriesInv(w, g) && Reached(w, g, true) && Reached(w, g, false)
    requires |g'.marks| == |w'.sent| && w.sent <= w'.sent && g.marks <= g'.marks && w'.deliveries == w.deliveries
    requires forall c :: PeerOf(w', c).received == PeerOf(w, c).received
    requires forall c :: ReceiveTurn(c, TurnOf(g', c)) == ReceiveTurn(c, TurnOf(g, c))
    ensures DeliveriesInv(w', g') && Reached(w', g', true) && Reached(w', g', false)
  {
    forall i | 0 <= i < |w'.deliveries|
      ensures DeliveryInv(w', g', w'.deliveries[i])
    {
      assert DeliveryInv(w, g, w.deliveries[i]);
    }
    forall c: bool
      ensures Reached(w', g', c)
    {
      assert Reached(w, g, c);
      OfferedAfterSend(w, g, w', g', c);
    }
  }

  lemma OfferedAfterSend(w: World, g: Ledger, w': World, g': Ledger, c: bool)
    requires |g.marks| == |w.sent| && |g'.marks| == |w'.sent|
    requires w.sent <= w'.sent && g.marks <= g'.marks && w.deliveries <= w'.deliveries
    ensures forall mark, whole :: WasOffered(w, g, c, mark, whole) ==> WasOffered(w', g', c, mark, whole)
  {
    forall mark, whole | WasOffered(w, g, c, mark, whole)
      ensures WasOffered(w', g', c, mark, whole)
    {
      var i :| 0 <= i < |w.deliveries| && Brings(w, g, w.deliveries[i], c, mark, whole);
      assert Brings(w', g', w'.deliveries[i], c, mark, whole);
    }
  }

  lemma InvAfterSendOnTurn(w: World, g: Ledger, client: bool, request: nat, seed: nat, randomness: nat)
      returns (g': Ledger)
    requires Inv(w, g)
    requires var e := TurnOf(g, client); SendTurn(client, e) == e && e >= 1
    ensures SendSpec(PeerOf(w, client), request, seed, randomness).Some?
    ensures var (q, sealed, secret) := SendSpec(PeerOf(w, client), request, seed, randomness).value;
      Inv(WithPeer(w, client, q).(sent := w.sent + [Sent(client, sealed, secret)]), g')
  {
    hide OnSchedule, MessagesInv, LengthsInv, DeliveriesInv, Reached, SendSpec, ScheduledHeader, MessageSecret,
      HeaderKey;
    var e, p := TurnOf(g, client), PeerOf(w, client);
    SendOnTurn(g.keys, g.counts, p, client, e, request, seed, randomness);
    SendKeepsReceiver(p, request, seed, randomness);
    var (q, sealed, secret) := SendSpec(p, request, seed, randomness).value;
    var m := Sent(client, sealed, secret);
    g' := g.(counts := Bump(g.counts, e), marks := g.marks + [Mark(e, Count(g.counts, e))]);
    var w' := WithPeer(w, client, q).(sent := w.sent + [m]);
    OtherAfterBump(g.keys, g.counts, PeerOf(w, !client), !client, TurnOf(g, !client), e);
    MessagesAfterBump(g.keys, g.counts, w.sent, g.marks, e, m);
    MarksMatch(g.keys, g.counts, w.sent, g.marks);
    DeliveriesAfterSend(w, g, w', g');
  }

  lemma MarksMatch(k: Schedule, counts: seq<nat>, sent: seq<Sent>, marks: seq<Mark>)
    requires |counts| == |k.turns| && MessagesInv(k, counts, sent, marks)
    ensures |marks| == |sent|
  {
  }

  lemma SendKeepsReceiver(p: State, request: nat, seed: nat, randomness: nat)
    requires SendSpec(p, request, seed, randomness).Some?
    ensures SendSpec(p, request, seed, randomness).value.0.received == p.received
  {
  }

  lemma InvAfterTurn(w: World, g: Ledger, client: bool, request: nat, seed: nat, randomness: nat) returns (g': Ledger)
    requires Inv(w, g) && SendTurn(client, TurnOf(g, client)) != TurnOf(g, client)
    ensures SendSpec(PeerOf(w, client), request, seed, randomness).Some?
    ensures var (q, sealed, secret) := SendSpec(PeerOf(w, client), request, seed, randomness).value;
      Inv(WithPeer(w, client, q).(sent := w.sent + [Sent(client, sealed, secret)]), g')
  {
    hide OnSchedule, MessagesInv, LengthsInv, DeliveriesInv, Reached, SendSpec, MessageSecret, HeaderKey;
    var e, p, t := TurnOf(g, client), PeerOf(w, client), Turn(seed, randomness);
    assert e == |g.keys.turns|;
    SendTakesTurn(g.keys, g.counts, p, client, request, seed, randomness);
    SendKeepsReceiver(p, request, seed, randomness);
    var (q, sealed, secret) := SendSpec(p, request, seed, randomness).value;
    var m := Sent(client, sealed, secret);
    var k', counts0 := Extend(g.keys, t), g.counts + [0];
    assert Bump(counts0, e + 1) == g.counts + [1];
    g' := WithTurn(Ledger(k', g.counts + [1], g.marks + [Mark(e + 1, 0)], g.clientTurn, g.serverTurn), client, e + 1);
    var w' := WithPeer(w, client, q).(sent := w.sent + [m]);
    OtherAfterTurn(g.keys, g.counts, PeerOf(w, !client), !client, TurnOf(g, !client), t);
    MessagesAfterTurn(g.keys, g.counts, w.sent, g.marks, t);
    MessagesAfterBump(k', counts0, w.sent, g.marks, e + 1, m);
    MarksMatch(g.keys, g.counts, w.sent, g.marks);
    DeliveriesAfterSend(w, g, w', g');
  }

  // --------------------------------------------------------------- deliveries

  /** A receive moves one peer forward, and returns only a scheduled secret it had not passed. */
  lemma ReceiveOnSchedule(w: World, g: Ledger, client: bool, index: nat, request: nat) returns (e': nat)
    requires Inv(w, g) && index < |w.sent|
    ensures var (q, secret) := ReceiveSpec(PeerOf(w, client), w.sent[index].sealed, request);
      var p, e, mark := PeerOf(w, client), TurnOf(g, client), g.marks[index];
      var r, r' := ReceiveTurn(client, e), ReceiveTurn(client, e');
      && OnSchedule(g.keys, g.counts, q, client, e')
      && (e' == e || (e' == e + 1 == |g.keys.turns| && SendTurn(client, e) == e && r' == e' == mark.turn))
      && (e' == e && secret.None? ==> q == p)
      && (e' == e + 1 && secret.None? ==> q.received == 0)
      && (secret.Some? ==> mark.turn == r' && q.received == mark.number + 1)
      && (secret.Some? ==> !Passed(p, client, e, mark) && secret.value == w.sent[index].secret)
      && (secret.Some? ==> w.sent[index].client != client)
      && w.sent[index].sealed.Sealed?
      && (secret.Some? || e' != e ==> request == w.sent[index].sealed.request)
      && (request == w.sent[index].sealed.request && w.sent[index].client != client ==> mark.turn <= r')
  {
    hide OnSchedule, LengthsInv, DeliveriesInv, Reached, ReceiveSpec, AcceptTurn, TakeNumber, HeaderKey, MessageSecret,
      ScheduledHeader;
    var p, e, mark, sealed := PeerOf(w, client), TurnOf(g, client), g.marks[index], w.sent[index].sealed;
    assert MessageInv(g.keys, g.counts, w.sent[index], mark);
    var r := ReceiveTurn(client, e);
    e' := e;
    if mark.turn == r {
      ReceiveOnTurn(g.keys, g.counts, p, client, e, mark.number, sealed, request);
      TakeNumberOnSchedule(g.keys, g.counts, p, client, e, mark.number);
    } else if mark.turn == r + 2 {
      assert SendTurn(client, e) == e && mark.turn == e + 1;
      ReceiveNextTurn(g.keys, g.counts, p, client, e, mark.number, sealed, request);
      if sealed.request == request {
        e' := e + 1;
        AcceptTurnOnSchedule(g.keys, g.counts, p, client, e, mark.number);
        TakeNumberOnSchedule(g.keys, g.counts, AcceptTurn(p, sealed.header), client, e + 1, mark.number);
      }
    } else {
      ReceiveElsewhere(g.keys, g.counts, p, client, e, mark.turn, sealed, request);
    }
  }

  lemma InvAfterDeliver(w: World, g: Ledger, client: bool, index: nat, request: nat) returns (g': Ledger)
    requires Inv(w, g) && index < |w.sent|
    ensures var (q, secret) := ReceiveSpec(PeerOf(w, client), w.sent[index].sealed, request);
      Inv(WithPeer(w, client, q).(deliveries := w.deliveries + [Delivery(client, index, request, secret)]), g')
  {
    hide OnSchedule, LengthsInv, MessageInv, ReceiveSpec;
    var e' := ReceiveOnSchedule(w, g, client, index, request);
    var (q, secret) := ReceiveSpec(PeerOf(w, client), w.sent[index].sealed, request);
    g' := WithTurn(g, client, e');
    var d := Delivery(client, index, request, secret);
    var w' := WithPeer(w, client, q).(deliveries := w.deliveries + [d]);
    DeliveriesAfterDeliver(w, g, w', g', d);
    ReachedAfterDeliver(w, g, w', g', d, client);
    ReachedAfterDeliver(w, g, w', g', d, !client);
  }

  lemma DeliveriesAfterDeliver(w: World, g: Ledger, w': World, g': Ledger, d: Delivery)
    requires |g.marks| == |w.sent| && DeliveriesInv(w, g) && g'.marks == g.marks && w'.sent == w.sent
    requires w'.deliveries == w.deliveries + [d] && d.index < |w.sent|
    requires PeerOf(w', !d.client) == PeerOf(w, !d.client) && TurnOf(g', !d.client) == TurnOf(g, !d.client)
    requires var c := d.client; var p, q, e, e' := PeerOf(w, c), PeerOf(w', c), TurnOf(g, c), TurnOf(g', c);
      && (e' == e || ReceiveTurn(c, e') > ReceiveTurn(c, e))
      && (d.secret.None? && e' == e ==> q == p)
      && (d.secret.Some? ==> g.marks[d.index].turn == ReceiveTurn(c, e') && q.received == g.marks[d.index].number + 1)
      && (d.secret.Some? ==> !Passed(p, c, e, g.marks[d.index]) && d.secret.value == w.sent[d.index].secret)
      && (d.secret.Some? ==> w.sent[d.index].client != c && Numbered(w, d))
      && (Numbered(w, d) && w.sent[d.index].client != c ==> g.marks[d.index].turn <= ReceiveTurn(c, e'))
    ensures DeliveriesInv(w', g')
  {
    forall i | 0 <= i < |w'.deliveries|
      ensures DeliveryInv(w', g', w'.deliveries[i])
    {
      if i < |w.deliveries| {
        assert DeliveryInv(w, g, w.deliveries[i]);
      }
    }
    forall i, j | 0 <= i < j < |w'.deliveries| && BothReturned(w'.deliveries[i], w'.deliveries[j])
      ensures Before(g.marks[w'.deliveries[i].index], g.marks[w'.deliveries[j].index])
    {
      assert DeliveryInv(w, g, w.deliveries[i]);
      if j < |w.deliveries| {
        assert BothReturned(w.deliveries[i], w.deliveries[j]);
      }
    }
  }

  lemma ReachedAfterDeliver(w: World, g: Ledger, w': World, g': Ledger, d: Delivery, c: bool)
    requires |g.marks| == |w.sent| && Reached(w, g, c) && g'.marks == g.marks && w'.sent == w.sent
    requires w'.deliveries == w.deliveries + [d] && d.index < |w.sent|
    requires c != d.client ==> PeerOf(w', c) == PeerOf(w, c) && TurnOf(g', c) == TurnOf(g, c)
    requires c == d.client ==>
      var p, q, e, e' := PeerOf(w, c), PeerOf(w', c), TurnOf(g, c), TurnOf(g', c);
      && (d.secret.None? && e' == e ==> q == p)
      && (e' != e ==> ReceiveTurn(c, e') == g.marks[d.index].turn)
      && (e' != e && d.secret.None? ==> q.received == 0)
      && (d.secret.Some? ==> g.marks[d.index].turn == ReceiveTurn(c, e') && q.received == g.marks[d.index].number + 1)
      && (d.secret.Some? || e' != e ==> Numbered(w, d))
    ensures Reached(w', g', c)
  {
    OfferedAfterSend(w, g, w', g', c);
    var r, n := ReceiveTurn(c, TurnOf(g', c)), |w.deliveries|;
    assert w'.deliveries[n] == d;
    if r >= 1 && Brings(w', g', d, c, Mark(r, 0), true) {
      assert Brings(w', g', w'.deliveries[n], c, Mark(r, 0), true);
    }
    if r >= 1 && PeerOf(w', c).received > 0 && Brings(w', g', d, c, Mark(r, PeerOf(w', c).received - 1), false) {
      assert Brings(w', g', w'.deliveries[n], c, Mark(r, PeerOf(w', c).received - 1), false);
    }
  }

  lemma InvAfterInject(w: World, client: bool, request: nat)
    ensures ReceiveSpec(PeerOf(w, client), Garbage, request).0 == PeerOf(w, client)
  {
  }

  // --------------------------------------------------------------------- runs

  lemma InvAfterStep(w: World, g: Ledger, ev: Event) returns (g': Ledger)
    requires Inv(w, g)
    ensures Inv(Next(w, ev), g')
  {
    hide OnSchedule, MessagesInv, LengthsInv, DeliveriesInv, Reached, SendSpec, ReceiveSpec;
    g' := g;
    if w.halted {
      return;
    }
    match ev
    case Send(client, request, seed, randomness) =>
      var e := TurnOf(g, client);
      if SendTurn(client, e) != e {
        g' := InvAfterTurn(w, g, client, request, seed, randomness);
      } else if e >= 1 {
        g' := InvAfterSendOnTurn(w, g, client, request, seed, randomness);
      } else {
        CannotSendYet(w, g, client, request, seed, randomness);
      }
      HaltingKeepsInv(w, g);
      if Next(w, ev).halted {
        g' := g;
      }
    case Deliver(client, index, request) =>
      if index < |w.sent| {
        g' := InvAfterDeliver(w, g, client, index, request);
      }
    case Inject(client, request) =>
      InvAfterInject(w, client, request);
  }

  lemma CannotSendYet(w: World, g: Ledger, client: bool, request: nat, seed: nat, randomness: nat)
    requires Inv(w, g) && TurnOf(g, client) == 0 && SendTurn(client, 0) == 0
    ensures SendSpec(PeerOf(w, client), request, seed, randomness).None?
  {
  }

  lemma HaltingKeepsInv(w: World, g: Ledger)
    requires Inv(w, g)
    ensures Inv(w.(halted := true), g)
  {
    hide OnSchedule, LengthsInv, MessageInv, DeliveriesInv, Reached;
    DeliveriesAfterSend(w, g, w.(halted := true), g);
  }

  lemma BeginInv(root: nat, initial: nat)
    ensures Inv(Begin(root, initial), Ledger(Schedule(root, initial, []), [], [], 0, 0))
  {
    FreshOnSchedule(root, initial, true);
    FreshOnSchedule(root, initial, false);
  }

  /** In every run both peers follow one key schedule. */
  lemma {:induction false} RunFollowsSchedule(root: nat, initial: nat, events: seq<Event>) returns (g: Ledger)
    ensures Inv(Run(root, initial, events), g)
  {
    if events == [] {
      BeginInv(root, initial);
      g := Ledger(Schedule(root, initial, []), [], [], 0, 0);
    } else {
      var n := |events| - 1;
      g := RunFollowsSchedule(root, initial, events[..n]);
      g := InvAfterStep(Run(root, initial, events[..n]), g, events[n]);
    }
  }

  // ----------------------------------------------------------------- theorems

  /** Agreement: a returned secret is the one the other peer sent, whatever was lost before it. */
  lemma Agreement(root: nat, initial: nat, events: seq<Event>)
    ensures var w := Run(root, initial, events);
      forall i :: 0 <= i < |w.deliveries| && w.deliveries[i].secret.Some? ==>
        var d := w.deliveries[i];
        && d.index < |w.sent|
        && w.sent[d.index].client != d.client
        && d.secret.value == w.sent[d.index].secret
  {
    var g := RunFollowsSchedule(root, initial, events);
    var w := Run(root, initial, events);
    forall i | 0 <= i < |w.deliveries|
      ensures DeliveryInv(w, g, w.deliveries[i])
    {
    }
  }

  /** Freshness of sending: no secret is sent twice in a run. */
  lemma NoSecretSentTwice(root: nat, initial: nat, events: seq<Event>)
    ensures var w := Run(root, initial, events);
      forall i, j :: 0 <= i < j < |w.sent| ==> w.sent[i].secret != w.sent[j].secret
  {
    var g := RunFollowsSchedule(root, initial, events);
    var w := Run(root, initial, events);
    forall i, j | 0 <= i < j < |w.sent|
      ensures w.sent[i].secret != w.sent[j].secret
    {
      DistinctMessages(w, g, i, j);
    }
  }

  lemma DistinctMessages(w: World, g: Ledger, i: nat, j: nat)
    requires Inv(w, g) && i < j < |w.sent|
    ensures w.sent[i].secret != w.sent[j].secret && g.marks[i] != g.marks[j]
  {
    hide OnSchedule, LengthsInv, DeliveriesInv, Reached, MessageSecret, HeaderKey, ScheduledHeader;
    assert MessageInv(g.keys, g.counts, w.sent[i], g.marks[i]) && MessageInv(g.keys, g.counts, w.sent[j], g.marks[j]);
    var a, b := g.marks[i], g.marks[j];
    if w.sent[i].secret == w.sent[j].secret {
      SecretsDistinct(g.keys, a.turn, a.number, b.turn, b.number);
    }
  }

  /** Freshness of receiving: no secret is returned twice in a run, to either peer. */
  lemma NoSecretReturnedTwice(root: nat, initial: nat, events: seq<Event>)
    ensures var w := Run(root, initial, events);
      forall i, j :: 0 <= i < j < |w.deliveries| && w.deliveries[i].secret.Some? && w.deliveries[j].secret.Some?
        ==> w.deliveries[i].secret != w.deliveries[j].secret
  {
    hide OnSchedule, LengthsInv, MessageInv, Reached, Run;
    var g := RunFollowsSchedule(root, initial, events);
    var w := Run(root, initial, events);
    forall i, j | 0 <= i < j < |w.deliveries| && w.deliveries[i].secret.Some? && w.deliveries[j].secret.Some?
      ensures w.deliveries[i].secret != w.deliveries[j].secret
    {
      var a, b := w.deliveries[i], w.deliveries[j];
      assert DeliveryInv(w, g, a) && DeliveryInv(w, g, b);
      if a.client == b.client {
        assert BothReturned(a, b);
      }
      if a.index < b.index {
        DistinctMessages(w, g, a.index, b.index);
      } else if b.index < a.index {
        DistinctMessages(w, g, b.index, a.index);
      }
    }
  }

  predicate StepsTo(a: Term, b: Term) {
    b.Kdf? && b.use.RootStep? && b.part == 0 && b.salt == a
  }

  /** The two roots are equal or one root step apart. */
  lemma RootsWithinOneStep(root: nat, initial: nat, events: seq<Event>)
    ensures var w := Run(root, initial, events);
      w.client.root == w.server.root || StepsTo(w.client.root, w.server.root) || StepsTo(w.server.root, w.client.root)
  {
    hide MessagesInv, LengthsInv, DeliveriesInv, Reached, SendSide, ReceiveSide, Run, RootAt;
    var g := RunFollowsSchedule(root, initial, events);
    if g.clientTurn < g.serverTurn {
      ConsecutiveRoots(g.keys, g.clientTurn);
    } else if g.serverTurn < g.clientTurn {
      ConsecutiveRoots(g.keys, g.serverTurn);
    }
  }

  lemma ConsecutiveRoots(k: Schedule, e: nat)
    requires e < |k.turns|
    ensures StepsTo(RootAt(k, e), RootAt(k, e + 1))
  {
  }

  /** Message `j` is the last one of the chain its sender used before the chain of message `i`. */
  predicate EndsPrecedingChain(sent: seq<Sent>, j: nat, i: nat)
    requires j < i < |sent|
  {
    && sent[j].client == sent[i].client
    && sent[j].sealed.Sealed? && sent[i].sealed.Sealed?
    && sent[j].sealed.key != sent[i].sealed.key
    && forall m :: j < m < i && sent[m].client == sent[i].client && sent[m].sealed.Sealed? ==>
      sent[m].sealed.key == sent[i].sealed.key
  }

  /**
   * Header numbers: each header carries its position in its own chain, and in `previous` the
   * length of the chain its sender used before, or zero if there was none.
   */
  lemma HeadersCountChains(root: nat, initial: nat, events: seq<Event>, i: nat)
    requires i < |Run(root, initial, events).sent|
    ensures var sent := Run(root, initial, events).sent; var m := sent[i].sealed;
      && m.Sealed?
      && m.header.number == ChainLength(sent[..i], m.key)
      && (forall j :: 0 <= j < i && EndsPrecedingChain(sent, j, i) ==>
        m.header.previous == ChainLength(sent, sent[j].sealed.key))
      && ((forall j :: 0 <= j < i && sent[j].client == sent[i].client && sent[j].sealed.Sealed? ==>
        sent[j].sealed.key == m.key)
          ==> m.header.previous == 0)
  {
    hide OnSchedule, DeliveriesInv, Reached, Run, ChainLength, HeaderKey, MessageSecret;
    var g := RunFollowsSchedule(root, initial, events);
    var w := Run(root, initial, events);
    var sent, k, e := w.sent, g.keys, g.marks[i].turn;
    assert MessageInv(k, g.counts, sent[i], g.marks[i]);
    if e >= 3 {
      var j := PrecedingMessage(w, g, i);
      assert sent[j].sealed.key != sent[i].sealed.key;
    }
    forall j | 0 <= j < i && EndsPrecedingChain(sent, j, i)
      ensures sent[i].sealed.header.previous == ChainLength(sent, sent[j].sealed.key)
    {
      assert MessageInv(k, g.counts, sent[j], g.marks[j]) && Before(g.marks[j], g.marks[i]);
      assert e >= 3;
      var j' := PrecedingMessage(w, g, i);
      assert MessageInv(k, g.counts, sent[j'], g.marks[j']);
      assert !(j < j' < i);
      assert j' < j ==> Before(g.marks[j'], g.marks[j]);
      assert g.marks[j].turn == e - 2;
    }
  }

  /** A turn that has a successor by the same sender has at least one message, sent before it. */
  lemma PrecedingMessage(w: World, g: Ledger, i: nat) returns (j: nat)
    requires Inv(w, g) && i < |w.sent| && g.marks[i].turn >= 3
    ensures j < i && w.sent[j].client == w.sent[i].client && g.marks[j].turn == g.marks[i].turn - 2
    ensures w.sent[j].sealed.Sealed? && w.sent[i].sealed.Sealed? && w.sent[j].sealed.key != w.sent[i].sealed.key
  {
    hide OnSchedule, DeliveriesInv, Reached, HeaderKey, MessageSecret, ScheduledHeader, ChainLength;
    var k, e := g.keys, g.marks[i].turn;
    assert MessageInv(k, g.counts, w.sent[i], g.marks[i]);
    assert ChainLength(w.sent, HeaderKey(k, e - 2)) == g.counts[e - 3];
    j := NonEmptyChain(w.sent, HeaderKey(k, e - 2));
    assert MessageInv(k, g.counts, w.sent[j], g.marks[j]);
    HeaderKeysDistinct(k, g.marks[j].turn, e - 2);
    if HeaderKey(k, e - 2) == HeaderKey(k, e) {
      HeaderKeysDistinct(k, e - 2, e);
    }
    assert i < j ==> Before(g.marks[i], g.marks[j]);
  }

  lemma {:induction false} NonEmptyChain(sent: seq<Sent>, key: Term) returns (j: nat)
    requires ChainLength(sent, key) > 0
    ensures j < |sent| && sent[j].sealed.Sealed? && sent[j].sealed.key == key
  {
    var n := |sent| - 1;
    if sent[n].sealed.Sealed? && sent[n].sealed.key == key {
      j := n;
    } else {
      j := NonEmptyChain(sent[..n], key);
    }
  }

  /**
   * Replays: once message `later` has returned to a peer, neither it nor any message its
   * sender sent before it, on the same chain or an earlier one, ever returns to that peer.
   */
  lemma ReplaysNeverReturn(root: nat, initial: nat, events: seq<Event>, later: nat, index: nat, request: nat)
    requires var w := Run(root, initial, events); later < |w.deliveries| && w.deliveries[later].secret.Some?
    requires index <= Run(root, initial, events).deliveries[later].index
    ensures var w := Run(root, initial, events); var d := w.deliveries[later];
      && index < |w.sent|
      && ReceiveSpec(PeerOf(w, d.client), w.sent[index].sealed, request).1.None?
  {
    hide OnSchedule, LengthsInv, Reached, Run, ReceiveSpec;
    var g := RunFollowsSchedule(root, initial, events);
    var w := Run(root, initial, events);
    var d := w.deliveries[later];
    assert DeliveryInv(w, g, d);
    var e' := ReceiveOnSchedule(w, g, d.client, index, request);
    if w.sent[index].client == w.sent[d.index].client && index < d.index {
      assert Before(g.marks[index], g.marks[d.index]);
    }
  }

  /**
   * This delivery moved its receiver past message `index`: it returned that message or a later
   * one, or it opened a later message on another chain, whatever came of it.
   */
  predicate MovesPast(w: World, d: Delivery, client: bool, index: nat)
    requires index < |w.sent|
  {
    && d.client == client && Numbered(w, d) && w.sent[d.index].client != client && index <= d.index
    && (d.secret.Some? || (w.sent[index].sealed.Sealed? && w.sent[index].sealed.key != w.sent[d.index].sealed.key))
  }

  ghost predicate WasPassed(w: World, client: bool, index: nat)
    requires index < |w.sent|
  {
    exists i :: 0 <= i < |w.deliveries| && MovesPast(w, w.deliveries[i], client, index)
  }

  /** This delivery returned a message of the same chain, at most the skip bound before message `index`. */
  predicate Near(w: World, d: Delivery, client: bool, index: nat)
    requires index < |w.sent| && w.sent[index].sealed.Sealed?
  {
    && d.client == client && d.secret.Some? && Numbered(w, d)
    && w.sent[d.index].sealed.key == w.sent[index].sealed.key
    && w.sent[index].sealed.header.number - (w.sent[d.index].sealed.header.number + 1) <= 1_048_576
  }

  /** At most the skip bound of messages lie between the start of the chain, or a returned one, and this one. */
  ghost predicate WithinSkip(w: World, client: bool, index: nat)
    requires index < |w.sent| && w.sent[index].sealed.Sealed?
  {
    || w.sent[index].sealed.header.number <= 1_048_576
    || exists i :: 0 <= i < |w.deliveries| && Near(w, w.deliveries[i], client, index)
  }

  /**
   * In every run, every genuine message returns its secret exactly if no earlier delivery moved
   * the receiver past it and no more messages of its chain than the skip bound lie before it.
   */
  lemma MessagesReturnExactly(root: nat, initial: nat, events: seq<Event>, client: bool, index: nat)
    requires var w := Run(root, initial, events); index < |w.sent| && w.sent[index].client != client
    ensures var w := Run(root, initial, events); var m := w.sent[index].sealed;
      && m.Sealed?
      && ReceiveSpec(PeerOf(w, client), m, m.request).1
         == (if !WasPassed(w, client, index) && WithinSkip(w, client, index) then Some(w.sent[index].secret) else None)
  {
    hide OnSchedule, LengthsInv, DeliveriesInv, Reached, Run, ReceiveSpec, WasPassed, WithinSkip, MessageSecret,
      HeaderKey;
    var g := RunFollowsSchedule(root, initial, events);
    var w := Run(root, initial, events);
    assert MessageInv(g.keys, g.counts, w.sent[index], g.marks[index]);
    ReturnsOnSchedule(w, g, client, index);
    PassedExactly(w, g, client, index);
    if !WasPassed(w, client, index) {
      SkipExactly(w, g, client, index);
    }
  }

  /** The number of messages of its chain that the receiver has moved past already. */
  function Base(w: World, g: Ledger, client: bool, mark: Mark): nat {
    if mark.turn == ReceiveTurn(client, TurnOf(g, client)) then PeerOf(w, client).received else 0
  }

  lemma ReturnsOnSchedule(w: World, g: Ledger, client: bool, index: nat)
    requires Inv(w, g) && index < |w.sent| && w.sent[index].client != client
    ensures var m, mark := w.sent[index].sealed, g.marks[index];
      && m.Sealed?
      && ReceiveSpec(PeerOf(w, client), m, m.request).1
         == (if !Passed(PeerOf(w, client), client, TurnOf(g, client), mark)
               && mark.number - Base(w, g, client, mark) <= MAX_SKIP
             then Some(w.sent[index].secret) else None)
  {
    hide OnSchedule, LengthsInv, DeliveriesInv, Reached, ReceiveSpec, TakeNumber, AcceptTurn, HeaderKey, MessageSecret,
      ScheduledHeader;
    var p, e, mark, sealed := PeerOf(w, client), TurnOf(g, client), g.marks[index], w.sent[index].sealed;
    assert MessageInv(g.keys, g.counts, w.sent[index], mark);
    var r := ReceiveTurn(client, e);
    if mark.turn == r {
      ReceiveOnTurn(g.keys, g.counts, p, client, e, mark.number, sealed, sealed.request);
      TakeNumberOnSchedule(g.keys, g.counts, p, client, e, mark.number);
    } else if mark.turn == r + 2 {
      assert SendTurn(client, e) == e && mark.turn == e + 1;
      ReceiveNextTurn(g.keys, g.counts, p, client, e, mark.number, sealed, sealed.request);
      AcceptTurnOnSchedule(g.keys, g.counts, p, client, e, mark.number);
      TakeNumberOnSchedule(g.keys, g.counts, AcceptTurn(p, sealed.header), client, e + 1, mark.number);
    } else {
      ReceiveElsewhere(g.keys, g.counts, p, client, e, mark.turn, sealed, sealed.request);
    }
  }

  /** The receiver has moved past a message exactly if some delivery moved it there. */
  lemma PassedExactly(w: World, g: Ledger, client: bool, index: nat)
    requires Inv(w, g) && index < |w.sent| && w.sent[index].client != client
    ensures WasPassed(w, client, index) <==> Passed(PeerOf(w, client), client, TurnOf(g, client), g.marks[index])
  {
    hide OnSchedule, LengthsInv, DeliveriesInv, Reached, WasOffered, HeaderKey, MessageSecret, ScheduledHeader;
    if i :| 0 <= i < |w.deliveries| && MovesPast(w, w.deliveries[i], client, index) {
      PastIsPassed(w, g, i, client, index);
    }
    if Passed(PeerOf(w, client), client, TurnOf(g, client), g.marks[index]) {
      PassedWasBrought(w, g, client, index);
    }
  }

  lemma PastIsPassed(w: World, g: Ledger, i: nat, client: bool, index: nat)
    requires Inv(w, g) && index < |w.sent| && w.sent[index].client != client
    requires i < |w.deliveries| && MovesPast(w, w.deliveries[i], client, index)
    ensures Passed(PeerOf(w, client), client, TurnOf(g, client), g.marks[index])
  {
    hide OnSchedule, LengthsInv, Reached, HeaderKey, MessageSecret, ScheduledHeader;
    var other := w.deliveries[i].index;
    assert DeliveryInv(w, g, w.deliveries[i]);
    assert MessageInv(g.keys, g.counts, w.sent[index], g.marks[index]);
    assert MessageInv(g.keys, g.counts, w.sent[other], g.marks[other]);
    if index < other {
      assert Before(g.marks[index], g.marks[other]);
    }
  }

  lemma PassedWasBrought(w: World, g: Ledger, client: bool, index: nat)
    requires Inv(w, g) && index < |w.sent| && w.sent[index].client != client
    requires Passed(PeerOf(w, client), client, TurnOf(g, client), g.marks[index])
    ensures WasPassed(w, client, index)
  {
    hide OnSchedule, LengthsInv, DeliveriesInv, HeaderKey, MessageSecret, ScheduledHeader;
    assert Reached(w, g, client);
    assert MessageInv(g.keys, g.counts, w.sent[index], g.marks[index]);
    var r, p := ReceiveTurn(client, TurnOf(g, client)), PeerOf(w, client);
    var whole := g.marks[index].turn < r;
    var mark := if whole then Mark(r, 0) else Mark(r, p.received - 1);
    assert WasOffered(w, g, client, mark, whole);
    var i :| 0 <= i < |w.deliveries| && Brings(w, g, w.deliveries[i], client, mark, whole);
    BroughtMovesPast(w, g, i, client, index, mark, whole);
  }

  lemma BroughtMovesPast(w: World, g: Ledger, i: nat, client: bool, index: nat, mark: Mark, whole: bool)
    requires Inv(w, g) && index < |w.sent| && w.sent[index].client != client
    requires i < |w.deliveries| && Brings(w, g, w.deliveries[i], client, mark, whole)
    requires mark.turn == ReceiveTurn(client, TurnOf(g, client)) && mark.turn >= 1
    requires if whole then g.marks[index].turn < mark.turn
             else g.marks[index].turn == mark.turn && g.marks[index].number <= mark.number
    ensures MovesPast(w, w.deliveries[i], client, index)
  {
    hide OnSchedule, LengthsInv, DeliveriesInv, Reached, HeaderKey, MessageSecret, ScheduledHeader;
    var other := w.deliveries[i].index;
    assert MessageInv(g.keys, g.counts, w.sent[index], g.marks[index]);
    assert MessageInv(g.keys, g.counts, w.sent[other], g.marks[other]);
    assert other < index ==> Before(g.marks[other], g.marks[index]);
    if whole && HeaderKey(g.keys, g.marks[index].turn) == HeaderKey(g.keys, mark.turn) {
      HeaderKeysDistinct(g.keys, g.marks[index].turn, mark.turn);
    }
  }

  lemma SkipExactly(w: World, g: Ledger, client: bool, index: nat)
    requires Inv(w, g) && index < |w.sent| && w.sent[index].client != client && w.sent[index].sealed.Sealed?
    requires !Passed(PeerOf(w, client), client, TurnOf(g, client), g.marks[index])
    ensures WithinSkip(w, client, index) <==> g.marks[index].number - Base(w, g, client, g.marks[index]) <= MAX_SKIP
  {
    hide OnSchedule, LengthsInv, DeliveriesInv, HeaderKey, MessageSecret;
    var mark, p, r := g.marks[index], PeerOf(w, client), ReceiveTurn(client, TurnOf(g, client));
    assert MessageInv(g.keys, g.counts, w.sent[index], mark);
    assert Reached(w, g, client);
    if i :| 0 <= i < |w.deliveries| && Near(w, w.deliveries[i], client, index) {
      NearIsReached(w, g, i, client, index);
    }
    if mark.turn == r && p.received > 0 {
      assert WasOffered(w, g, client, Mark(r, p.received - 1), false);
      var i :| 0 <= i < |w.deliveries| && Brings(w, g, w.deliveries[i], client, Mark(r, p.received - 1), false);
      assert MessageInv(g.keys, g.counts, w.sent[w.deliveries[i].index], g.marks[w.deliveries[i].index]);
      if mark.number - p.received <= MAX_SKIP {
        assert Near(w, w.deliveries[i], client, index);
      }
    }
  }

  lemma NearIsReached(w: World, g: Ledger, i: nat, client: bool, index: nat)
    requires Inv(w, g) && index < |w.sent| && w.sent[index].client != client && w.sent[index].sealed.Sealed?
    requires !Passed(PeerOf(w, client), client, TurnOf(g, client), g.marks[index])
    requires i < |w.deliveries| && Near(w, w.deliveries[i], client, index)
    ensures g.marks[index].number - Base(w, g, client, g.marks[index]) <= MAX_SKIP
  {
    hide OnSchedule, LengthsInv, Reached, HeaderKey, MessageSecret;
    var other := w.deliveries[i].index;
    assert DeliveryInv(w, g, w.deliveries[i]);
    assert MessageInv(g.keys, g.counts, w.sent[index], g.marks[index]);
    assert MessageInv(g.keys, g.counts, w.sent[other], g.marks[other]);
    HeaderKeysDistinct(g.keys, g.marks[index].turn, g.marks[other].turn);
  }
}
