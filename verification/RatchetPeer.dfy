/**
 * One endpoint of the header-encrypted hybrid Double Ratchet, over symbolic keys.
 *
 * A term names a 32-byte value by how it was derived, so two terms are equal exactly
 * when they were derived alike. Sealed headers open only under their own key and nonce.
 */
module RatchetPeer {
  import opened Basics

  datatype Purpose = Initialization | RootStep | ChainStep

  datatype Ciphertext = Ciphertext(key: nat, randomness: nat)

  datatype Term =
    | Empty
    | SetupRoot(id: nat)
    | Kdf(salt: Term, input: Term, use: Purpose, part: nat)
    | Joined(left: Term, right: Term)
    | Agreed(low: nat, high: nat)
    | Encapsulated(key: nat, randomness: nat)
    | Rejected(key: nat, ciphertext: Ciphertext)

  /** X25519 between the key pairs of two seeds. */
  function Agree(local: nat, remote: nat): Term {
    if local <= remote then Agreed(local, remote) else Agreed(remote, local)
  }

  /** ML-KEM: decapsulation under the wrong key rejects implicitly. */
  function Decap(local: nat, c: Ciphertext): Term {
    if c.key == local then Encapsulated(local, c.randomness) else Rejected(local, c)
  }

  function InitialPart(root: nat, part: nat): Term {
    Kdf(Empty, SetupRoot(root), Initialization, part)
  }

  function RootPart(root: Term, dh: Term, kem: Term, part: nat): Term {
    Kdf(root, Joined(dh, kem), RootStep, part)
  }

  function NextChain(chain: Term): Term { Kdf(Empty, chain, ChainStep, 0) }

  function ChainSecret(chain: Term): Term { Kdf(Empty, chain, ChainStep, 1) }

  /** A chain after `n` messages. */
  function Chain(start: Term, n: nat): Term {
    if n == 0 then start else NextChain(Chain(start, n - 1))
  }

  lemma {:induction false} ChainSum(start: Term, m: nat, n: nat)
    ensures Chain(Chain(start, m), n) == Chain(start, m + n)
  {
    if n > 0 {
      ChainSum(start, m, n - 1);
    }
  }

  // ------------------------------------------------------------------ headers

  datatype Header = Header(public: nat, ciphertext: Ciphertext, previous: nat, number: nat)

  /** What a header field on the wire can be. `Garbage` stands for any other bytes. */
  datatype Sealed = Sealed(key: Term, request: nat, header: Header) | Garbage

  function OpenHeader(key: Term, sealed: Sealed, request: nat): Option<Header> {
    if sealed.Sealed? && sealed.key == key && sealed.request == request then Some(sealed.header) else None
  }

  const MAX_SKIP: nat := 0x10_0000

  // -------------------------------------------------------------------- state

  datatype State = State(
    root: Term, sendChain: Option<Term>, receiveChain: Option<Term>,
    sendHeader: Option<Term>, receiveHeader: Option<Term>, nextSend: Term, nextReceive: Term,
    local: Option<nat>, remote: Option<nat>, ciphertext: Option<Ciphertext>,
    sent: nat, previous: nat, received: nat)

  function Fresh(root: nat, initial: nat, client: bool): State {
    var a, b := InitialPart(root, 1), InitialPart(root, 2);
    State(InitialPart(root, 0), None, None, None, None,
          if client then a else b, if client then b else a,
          if client then None else Some(initial), if client then Some(initial) else None, None, 0, 0, 0)
  }

  /** The state in which a send leaves a peer that first has to take its turn. */
  function TakeTurn(p: State, seed: nat, randomness: nat): State
    requires p.remote.Some?
  {
    var remote := p.remote.value;
    var dh, kem := Agree(seed, remote), Encapsulated(remote, randomness);
    p.(local := Some(seed), ciphertext := Some(Ciphertext(remote, randomness)),
       sendHeader := Some(p.nextSend), root := RootPart(p.root, dh, kem, 0),
       sendChain := Some(RootPart(p.root, dh, kem, 1)), nextSend := RootPart(p.root, dh, kem, 2), sent := 0)
  }

  /** The state and the message of a send; nothing if the peer has no remote key or no turn to send on. */
  function SendSpec(p: State, request: nat, seed: nat, randomness: nat): Option<(State, Sealed, Term)> {
    if p.sendChain.None? && p.remote.None? then None
    else
      var q := if p.sendChain.None? then TakeTurn(p, seed, randomness) else p;
      if q.local.None? || q.ciphertext.None? || q.sendHeader.None? then None
      else
        var header := Header(q.local.value, q.ciphertext.value, q.previous, q.sent);
        Some((q.(sendChain := Some(NextChain(q.sendChain.value)), sent := q.sent + 1),
              Sealed(q.sendHeader.value, request, header), ChainSecret(q.sendChain.value)))
  }

  /** The state after a header opened under the next receive key. Without a local key it panics half way. */
  function AcceptTurn(p: State, header: Header): State {
    var q := p.(remote := Some(header.public), receiveHeader := Some(p.nextReceive));
    if p.local.None? then q
    else
      var dh, kem := Agree(p.local.value, header.public), Decap(p.local.value, header.ciphertext);
      q.(root := RootPart(p.root, dh, kem, 0), receiveChain := Some(RootPart(p.root, dh, kem, 1)),
         nextReceive := RootPart(p.root, dh, kem, 2), previous := p.sent, sendChain := None, received := 0)
  }

  /** The counter check, the skip loop and the message secret. */
  function TakeNumber(p: State, number: nat): (State, Option<Term>) {
    if number < p.received || number - p.received > MAX_SKIP || p.receiveChain.None? then (p, None)
    else
      var chain := Chain(p.receiveChain.value, number - p.received);
      (p.(receiveChain := Some(NextChain(chain)), received := number + 1), Some(ChainSecret(chain)))
  }

  function CurrentHeader(p: State, sealed: Sealed, request: nat): Option<Header> {
    if p.receiveHeader.Some? then OpenHeader(p.receiveHeader.value, sealed, request) else None
  }

  /** The state a receive leaves behind and the secret it returns. No secret means it panicked. */
  function ReceiveSpec(p: State, sealed: Sealed, request: nat): (State, Option<Term>) {
    match CurrentHeader(p, sealed, request)
    case Some(header) => TakeNumber(p, header.number)
    case None =>
      match OpenHeader(p.nextReceive, sealed, request)
      case None => (p, None)
      case Some(header) =>
        if p.local.None? then (AcceptTurn(p, header), None)
        else TakeNumber(AcceptTurn(p, header), header.number)
  }

  // --------------------------------------------------------------------- peer

  class Peer {
    var root: Term
    var sendChain: Option<Term>
    var receiveChain: Option<Term>
    var sendHeader: Option<Term>
    var receiveHeader: Option<Term>
    var nextSend: Term
    var nextReceive: Term
    var local: Option<nat>
    var remote: Option<nat>
    var ciphertext: Option<Ciphertext>
    var sent: nat
    var previous: nat
    var received: nat

    function View(): State
      reads this
    {
      State(root, sendChain, receiveChain, sendHeader, receiveHeader, nextSend, nextReceive,
            local, remote, ciphertext, sent, previous, received)
    }

    constructor (setupRoot: nat, initial: nat, client: bool)
      ensures View() == Fresh(setupRoot, initial, client)
    {
      root := InitialPart(setupRoot, 0);
      sendChain, receiveChain, sendHeader, receiveHeader, ciphertext := None, None, None, None, None;
      sent, previous, received := 0, 0, 0;
      if client {
        nextSend, nextReceive := InitialPart(setupRoot, 1), InitialPart(setupRoot, 2);
        local, remote := None, Some(initial);
      } else {
        nextSend, nextReceive := InitialPart(setupRoot, 2), InitialPart(setupRoot, 1);
        local, remote := Some(initial), None;
      }
    }

    /** Move the root forward; the two other slices are the new chain and next header key. */
    method Advance(dh: Term, kem: Term) returns (chain: Term, nextHeader: Term)
      modifies this`root
      ensures root == RootPart(old(root), dh, kem, 0)
      ensures chain == RootPart(old(root), dh, kem, 1) && nextHeader == RootPart(old(root), dh, kem, 2)
    {
      chain, nextHeader := RootPart(root, dh, kem, 1), RootPart(root, dh, kem, 2);
      root := RootPart(root, dh, kem, 0);
    }

    /** The part of a send that runs when this peer has no sending chain. */
    method BeginSending(seed: nat, randomness: nat)
      requires remote.Some?
      modifies this
      ensures View() == TakeTurn(old(View()), seed, randomness)
    {
      local := Some(seed);
      var shared := Encapsulated(remote.value, randomness);
      ciphertext := Some(Ciphertext(remote.value, randomness));
      sendHeader := Some(nextSend);
      var chain, nextHeader := Advance(Agree(seed, remote.value), shared);
      sendChain, nextSend := Some(chain), nextHeader;
      sent := 0;
    }

    /** Seal the next header. A result of nothing is a panic; the peer is then unusable. */
    method Send(request: nat, seed: nat, randomness: nat) returns (m: Option<(Sealed, Term)>)
      modifies this
      ensures m.Some? <==> SendSpec(old(View()), request, seed, randomness).Some?
      ensures m.Some? ==> (View(), m.value.0, m.value.1) == SendSpec(old(View()), request, seed, randomness).value
    {
      if sendChain.None? {
        if remote.None? {
          local := Some(seed);
          return None;
        }
        BeginSending(seed, randomness);
      }
      if local.None? || ciphertext.None? || sendHeader.None? {
        return None;
      }
      var header := Header(local.value, ciphertext.value, previous, sent);
      var secret := ChainSecret(sendChain.value);
      sendChain := Some(NextChain(sendChain.value));
      sent := sent + 1;
      m := Some((Sealed(sendHeader.value, request, header), secret));
    }

    /** The part of a receive that runs when the header opened under the next receive key. */
    method BeginReceiving(header: Header)
      modifies this
      ensures View() == AcceptTurn(old(View()), header)
    {
      remote := Some(header.public);
      receiveHeader := Some(nextReceive);
      if local.None? {
        return;
      }
      var chain, nextHeader := Advance(Agree(local.value, header.public), Decap(local.value, header.ciphertext));
      receiveChain, nextReceive := Some(chain), nextHeader;
      previous := sent;
      sendChain := None;
      received := 0;
    }

    /** The counter check and the skip loop. */
    method TakeMessage(number: nat) returns (secret: Option<Term>)
      modifies this`receiveChain, this`received
      ensures (View(), secret) == TakeNumber(old(View()), number)
    {
      if number < received || number - received > MAX_SKIP || receiveChain.None? {
        return None;
      }
      while received < number
        invariant old(received) <= received <= number
        invariant receiveChain == Some(Chain(old(receiveChain).value, received - old(received)))
      {
        receiveChain := Some(NextChain(receiveChain.value));
        received := received + 1;
      }
      var chain := receiveChain.value;
      receiveChain := Some(NextChain(chain));
      received := received + 1;
      secret := Some(ChainSecret(chain));
    }

    /** Open a header, take the sender's turn if it is new, skip lost messages, return the secret. */
    method Receive(sealed: Sealed, request: nat) returns (secret: Option<Term>)
      modifies this
      ensures (View(), secret) == ReceiveSpec(old(View()), sealed, request)
    {
      var header := None;
      if receiveHeader.Some? {
        header := OpenHeader(receiveHeader.value, sealed, request);
      }
      if header.None? {
        header := OpenHeader(nextReceive, sealed, request);
        if header.None? {
          return None;
        }
        var panics := local.None?;
        BeginReceiving(header.value);
        if panics {
          return None;
        }
      }
      secret := TakeMessage(header.value.number);
    }
  }
}
