/** What one send or one receive does to a peer that follows the key schedule. */
module RatchetSteps {
  import opened Basics
  import opened RatchetPeer
  import opened RatchetKeys

  /** The last turn at or before `e` on which this peer sends. Odd turns are the client's. */
  function SendTurn(client: bool, e: nat): int {
    if (e % 2 == 1) == client then e else e - 1
  }

  function ReceiveTurn(client: bool, e: nat): int {
    if (e % 2 == 1) == client then e - 1 else e
  }

  /** Messages sent so far on a turn. */
  function Count(counts: seq<nat>, e: int): nat
    requires e <= |counts|
  {
    if e < 1 then 0 else counts[e - 1]
  }

  predicate SendSide(k: Schedule, counts: seq<nat>, p: State, client: bool, e: nat)
    requires |counts| == |k.turns| && e <= |k.turns|
  {
    var s := SendTurn(client, e);
    && p.nextSend == HeaderKey(k, s + 2)
    && p.local == (if s >= 0 then Some(Seed(k, s)) else None)
    && p.sent == Count(counts, s)
    && p.previous == Count(counts, if s == e then s - 2 else s)
    && (if s == e && s >= 1
        then p.sendChain == Some(ChainAt(k, s, Count(counts, s))) && p.sendHeader == Some(HeaderKey(k, s))
             && p.ciphertext == Some(TurnCiphertext(k, s))
        else p.sendChain == None)
  }

  predicate ReceiveSide(k: Schedule, counts: seq<nat>, p: State, client: bool, e: nat)
    requires |counts| == |k.turns| && e <= |k.turns|
  {
    var r := ReceiveTurn(client, e);
    && p.nextReceive == HeaderKey(k, r + 2)
    && p.remote == (if r >= 0 then Some(Seed(k, r)) else None)
    && (if r >= 1
        then p.receiveHeader == Some(HeaderKey(k, r)) && p.receiveChain == Some(ChainAt(k, r, p.received))
             && p.received <= Count(counts, r)
        else p.receiveHeader == None && p.received == 0)
  }

  /** A peer that has taken part in `e` turns holds exactly the scheduled keys and counters. */
  predicate OnSchedule(k: Schedule, counts: seq<nat>, p: State, client: bool, e: nat) {
    && |counts| == |k.turns| && e <= |k.turns|
    && p.root == RootAt(k, e)
    && SendSide(k, counts, p, client, e)
    && ReceiveSide(k, counts, p, client, e)
  }

  lemma FreshOnSchedule(root: nat, initial: nat, client: bool)
    ensures OnSchedule(Schedule(root, initial, []), [], Fresh(root, initial, client), client, 0)
  {
  }

  /** The header that message `n` of turn `e` carries. */
  function ScheduledHeader(k: Schedule, counts: seq<nat>, e: nat, n: nat): Header
    requires |counts| == |k.turns| && 1 <= e <= |k.turns|
  {
    Header(Seed(k, e), TurnCiphertext(k, e), Count(counts, e - 2), n)
  }

  function Bump(counts: seq<nat>, e: nat): seq<nat>
    requires 1 <= e <= |counts|
  {
    counts[e - 1 := counts[e - 1] + 1]
  }

  // -------------------------------------------------------------------- sends

  /** A send on a turn already taken. */
  lemma SendOnTurn(k: Schedule, counts: seq<nat>, p: State, client: bool, e: nat, request: nat, seed: nat,
      randomness: nat)
    requires OnSchedule(k, counts, p, client, e) && SendTurn(client, e) == e && e >= 1
    ensures SendSpec(p, request, seed, randomness).Some?
    ensures var (q, sealed, secret) := SendSpec(p, request, seed, randomness).value;
      && OnSchedule(k, Bump(counts, e), q, client, e)
      && sealed == Sealed(HeaderKey(k, e), request, ScheduledHeader(k, counts, e, Count(counts, e)))
      && secret == MessageSecret(k, e, Count(counts, e))
  {
    hide RootAt, TurnPart, HeaderKey, Seed;
  }

  lemma TakeTurnParts(k: Schedule, t: Turn, p: State)
    requires p.root == RootAt(k, |k.turns|) && p.remote == Some(Seed(k, |k.turns|))
    ensures var k', e, q := Extend(k, t), |k.turns| + 1, TakeTurn(p, t.seed, t.randomness);
      && q.root == RootAt(k', e) && q.sendChain == Some(ChainAt(k', e, 0)) && q.nextSend == HeaderKey(k', e + 2)
      && q.local == Some(Seed(k', e)) && q.ciphertext == Some(TurnCiphertext(k', e))
  {
    ExtendKeeps(k, t, |k.turns|);
    assert Seed(Extend(k, t), |k.turns| + 1) == t.seed;
  }

  /** A send that first takes the next turn. */
  lemma SendTakesTurn(k: Schedule, counts: seq<nat>, p: State, client: bool, request: nat, seed: nat, randomness: nat)
    requires OnSchedule(k, counts, p, client, |k.turns|) && SendTurn(client, |k.turns|) != |k.turns|
    ensures SendSpec(p, request, seed, randomness).Some?
    ensures var (q, sealed, secret) := SendSpec(p, request, seed, randomness).value;
      var k', counts', e := Extend(k, Turn(seed, randomness)), counts + [1], |k.turns| + 1;
      && OnSchedule(k', counts', q, client, e)
      && sealed == Sealed(HeaderKey(k', e), request, ScheduledHeader(k', counts', e, 0))
      && secret == MessageSecret(k', e, 0)
  {
    hide RootAt, TurnPart, HeaderKey, TakeTurn, TurnCiphertext;
    var t, n := Turn(seed, randomness), |k.turns|;
    TakeTurnParts(k, t, p);
    TakeTurnKeeps(p, seed, randomness);
    ExtendKeepsHeader(k, t, n + 1);
    ExtendKeepsHeader(k, t, n + 2);
    ExtendKeeps(k, t, n);
    if n >= 1 {
      ExtendKeepsHeader(k, t, n);
      ExtendKeepsTurn(k, t, n);
    }
  }

  lemma TakeTurnKeeps(p: State, seed: nat, randomness: nat)
    requires p.remote.Some?
    ensures var q := TakeTurn(p, seed, randomness);
      && q.sendHeader == Some(p.nextSend) && q.sent == 0 && q.previous == p.previous && q.remote == p.remote
      && q.receiveChain == p.receiveChain && q.receiveHeader == p.receiveHeader
      && q.nextReceive == p.nextReceive && q.received == p.received
  {
  }

  /** One peer's message leaves the other peer on schedule. */
  lemma OtherAfterBump(k: Schedule, counts: seq<nat>, p: State, client: bool, e: nat, t: nat)
    requires OnSchedule(k, counts, p, client, e)
    requires 1 <= t <= |counts| && (t % 2 == 1) != client
    ensures OnSchedule(k, Bump(counts, t), p, client, e)
  {
  }

  lemma OtherAfterTurn(k: Schedule, counts: seq<nat>, p: State, client: bool, e: nat, t: Turn)
    requires OnSchedule(k, counts, p, client, e)
    ensures OnSchedule(Extend(k, t), counts + [1], p, client, e)
  {
    hide RootAt, TurnPart, HeaderKey, TurnCiphertext, ChainAt, Seed;
    ExtendKeeps(k, t, e);
    var s, r := SendTurn(client, e), ReceiveTurn(client, e);
    ExtendKeepsHeader(k, t, s + 2);
    ExtendKeepsHeader(k, t, r + 2);
    if s >= 0 {
      ExtendKeeps(k, t, s);
    }
    if r >= 0 {
      ExtendKeeps(k, t, r);
    }
    if s >= 1 {
      ExtendKeepsHeader(k, t, s);
      ExtendKeepsTurn(k, t, s);
    }
    if r >= 1 {
      ExtendKeepsHeader(k, t, r);
      ExtendKeepsTurn(k, t, r);
    }
  }

  // ----------------------------------------------------------------- receives

  /** A message of a turn that is neither current nor next opens under neither key. */
  lemma ReceiveElsewhere(k: Schedule, counts: seq<nat>, p: State, client: bool, e: nat, m: nat, sealed: Sealed,
      request: nat)
    requires OnSchedule(k, counts, p, client, e) && 1 <= m <= |k.turns|
    requires sealed.Sealed? && sealed.key == HeaderKey(k, m)
    requires m != ReceiveTurn(client, e) && m != ReceiveTurn(client, e) + 2
    ensures ReceiveSpec(p, sealed, request) == (p, None)
  {
    hide RootAt, TurnPart, HeaderKey;
    var r := ReceiveTurn(client, e);
    if HeaderKey(k, m) == HeaderKey(k, r + 2) {
      HeaderKeysDistinct(k, m, r + 2);
    }
    if r >= 1 && HeaderKey(k, m) == HeaderKey(k, r) {
      HeaderKeysDistinct(k, m, r);
    }
  }

  /** The counter check and the skip loop land on the scheduled secret. */
  lemma TakeNumberOnSchedule(k: Schedule, counts: seq<nat>, p: State, client: bool, e: nat, n: nat)
    requires OnSchedule(k, counts, p, client, e) && ReceiveTurn(client, e) >= 1
    requires n < Count(counts, ReceiveTurn(client, e))
    ensures var (q, secret) := TakeNumber(p, n);
      && OnSchedule(k, counts, q, client, e)
      && (secret.Some? <==> p.received <= n <= p.received + MAX_SKIP)
      && (secret.Some? ==> secret == Some(MessageSecret(k, ReceiveTurn(client, e), n)) && q.received == n + 1)
      && (secret.None? ==> q == p)
  {
    hide RootAt, TurnPart, HeaderKey, Seed;
    var r := ReceiveTurn(client, e);
    if p.received <= n {
      ChainSum(TurnPart(k, r, 1), p.received, n - p.received);
    }
  }

  /** A message of the current turn. */
  lemma ReceiveOnTurn(k: Schedule, counts: seq<nat>, p: State, client: bool, e: nat, n: nat, sealed: Sealed,
      request: nat)
    requires OnSchedule(k, counts, p, client, e) && ReceiveTurn(client, e) >= 1
    requires var r := ReceiveTurn(client, e);
      n < Count(counts, r) && sealed.Sealed? && sealed.key == HeaderKey(k, r) &&
        sealed.header == ScheduledHeader(k, counts, r, n)
    ensures ReceiveSpec(p, sealed, request) == if sealed.request == request then TakeNumber(p, n) else (p, None)
  {
    hide RootAt, TurnPart, HeaderKey, Seed, TakeNumber;
    var r := ReceiveTurn(client, e);
    if HeaderKey(k, r) == HeaderKey(k, r + 2) {
      HeaderKeysDistinct(k, r, r + 2);
    }
  }

  lemma AcceptTurnParts(k: Schedule, p: State, e: nat, header: Header)
    requires e < |k.turns| && p.root == RootAt(k, e) && p.local == Some(Seed(k, e))
    requires header.public == Seed(k, e + 1) && header.ciphertext == TurnCiphertext(k, e + 1)
    ensures var q := AcceptTurn(p, header);
      && q.root == RootAt(k, e + 1) && q.receiveChain == Some(ChainAt(k, e + 1, 0)) &&
        q.nextReceive == HeaderKey(k, e + 3)
      && q.remote == Some(Seed(k, e + 1)) && q.receiveHeader == Some(p.nextReceive)
      && q.previous == p.sent && q.sent == p.sent && q.sendChain == None && q.received == 0
      && q.local == p.local && q.nextSend == p.nextSend
  {
    assert Agree(Seed(k, e), Seed(k, e + 1)) == Agree(Seed(k, e + 1), Seed(k, e));
  }

  /** The first message of the next turn that arrives brings the receiver onto that turn. */
  lemma AcceptTurnOnSchedule(k: Schedule, counts: seq<nat>, p: State, client: bool, e: nat, n: nat)
    requires OnSchedule(k, counts, p, client, e) && e < |k.turns| && SendTurn(client, e) == e
    ensures OnSchedule(k, counts, AcceptTurn(p, ScheduledHeader(k, counts, e + 1, n)), client, e + 1)
    ensures AcceptTurn(p, ScheduledHeader(k, counts, e + 1, n)).received == 0
  {
    hide RootAt, TurnPart, HeaderKey, Seed, AcceptTurn, ChainAt, TurnCiphertext;
    AcceptTurnParts(k, p, e, ScheduledHeader(k, counts, e + 1, n));
  }

  lemma ReceiveNextTurn(k: Schedule, counts: seq<nat>, p: State, client: bool, e: nat, n: nat, sealed: Sealed,
      request: nat)
    requires OnSchedule(k, counts, p, client, e) && e < |k.turns| && SendTurn(client, e) == e
    requires sealed.Sealed? && sealed.key == HeaderKey(k, e + 1) &&
      sealed.header == ScheduledHeader(k, counts, e + 1, n)
    ensures ReceiveSpec(p, sealed, request)
         == if sealed.request == request then TakeNumber(AcceptTurn(p, sealed.header), n) else (p, None)
  {
    hide RootAt, TurnPart, HeaderKey, Seed, AcceptTurn, TakeNumber;
    var r := ReceiveTurn(client, e);
    if r >= 1 && HeaderKey(k, e + 1) == HeaderKey(k, r) {
      HeaderKeysDistinct(k, e + 1, r);
    }
  }
}
