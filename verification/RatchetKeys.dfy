/**
 * The key schedule both ratchet peers should follow, written from the list of turns.
 *
 * Turn 1 belongs to the client, turn 2 to the server, and so on. Each turn is one
 * fresh key pair and one encapsulation to the key pair of the turn before.
 */
module RatchetKeys {
  import opened RatchetPeer

  datatype Turn = Turn(seed: nat, randomness: nat)

  datatype Schedule = Schedule(root: nat, initial: nat, turns: seq<Turn>)

  /** The key pair that turn `e` announces. Turn 0 is the responder's setup key. */
  function Seed(k: Schedule, e: nat): nat
    requires e <= |k.turns|
  {
    if e == 0 then k.initial else k.turns[e - 1].seed
  }

  function TurnCiphertext(k: Schedule, e: nat): Ciphertext
    requires 1 <= e <= |k.turns|
  {
    Ciphertext(Seed(k, e - 1), k.turns[e - 1].randomness)
  }

  function RootAt(k: Schedule, e: nat): Term
    requires e <= |k.turns|
  {
    if e == 0 then InitialPart(k.root, 0)
    else RootPart(RootAt(k, e - 1), Agree(Seed(k, e), Seed(k, e - 1)),
      Encapsulated(Seed(k, e - 1), k.turns[e - 1].randomness), 0)
  }

  function TurnPart(k: Schedule, e: nat, part: nat): Term
    requires 1 <= e <= |k.turns|
  {
    RootPart(RootAt(k, e - 1), Agree(Seed(k, e), Seed(k, e - 1)),
      Encapsulated(Seed(k, e - 1), k.turns[e - 1].randomness), part)
  }

  /** The header key of turn `e`, fixed two turns ahead. */
  function HeaderKey(k: Schedule, e: nat): Term
    requires 1 <= e <= |k.turns| + 2
  {
    if e <= 2 then InitialPart(k.root, e) else TurnPart(k, e - 2, 2)
  }

  function ChainAt(k: Schedule, e: nat, n: nat): Term
    requires 1 <= e <= |k.turns|
  {
    Chain(TurnPart(k, e, 1), n)
  }

  function MessageSecret(k: Schedule, e: nat, n: nat): Term
    requires 1 <= e <= |k.turns|
  {
    ChainSecret(ChainAt(k, e, n))
  }

  function Extend(k: Schedule, t: Turn): Schedule {
    k.(turns := k.turns + [t])
  }

  /** A new turn changes no earlier key. */
  lemma {:induction false} ExtendKeeps(k: Schedule, t: Turn, e: nat)
    requires e <= |k.turns|
    ensures RootAt(Extend(k, t), e) == RootAt(k, e)
    ensures Seed(Extend(k, t), e) == Seed(k, e)
  {
    if e > 0 {
      ExtendKeeps(k, t, e - 1);
    }
  }

  lemma ExtendKeepsTurn(k: Schedule, t: Turn, e: nat)
    requires 1 <= e <= |k.turns|
    ensures forall part :: TurnPart(Extend(k, t), e, part) == TurnPart(k, e, part)
    ensures TurnCiphertext(Extend(k, t), e) == TurnCiphertext(k, e)
    ensures forall n :: ChainAt(Extend(k, t), e, n) == ChainAt(k, e, n)
  {
    ExtendKeeps(k, t, e - 1);
    ExtendKeeps(k, t, e);
  }

  lemma ExtendKeepsHeader(k: Schedule, t: Turn, e: nat)
    requires 1 <= e <= |k.turns| + 2
    ensures HeaderKey(Extend(k, t), e) == HeaderKey(k, e)
  {
    if e > 2 {
      ExtendKeepsTurn(k, t, e - 2);
    }
  }

  // ------------------------------------------------------------- distinctness

  /** How many root steps a term was derived through. */
  function RootDepth(t: Term): nat {
    if t.Kdf? && t.use.RootStep? then 1 + RootDepth(t.salt) else 0
  }

  lemma {:induction false} RootDepthAt(k: Schedule, e: nat)
    requires e <= |k.turns|
    ensures RootDepth(RootAt(k, e)) == e
  {
    if e > 0 {
      RootDepthAt(k, e - 1);
    }
  }

  /** No two turns share a header key. */
  lemma HeaderKeysDistinct(k: Schedule, e: nat, f: nat)
    requires 1 <= e <= |k.turns| + 2 && 1 <= f <= |k.turns| + 2
    requires HeaderKey(k, e) == HeaderKey(k, f)
    ensures e == f
  {
    if e > 2 {
      RootDepthAt(k, e - 3);
    }
    if f > 2 {
      RootDepthAt(k, f - 3);
    }
  }

  lemma {:induction false} ChainsDistinct(s: Term, m: nat, t: Term, n: nat)
    requires s.Kdf? && s.use.RootStep? && t.Kdf? && t.use.RootStep?
    requires Chain(s, m) == Chain(t, n)
    ensures s == t && m == n
  {
    if m > 0 && n > 0 {
      ChainsDistinct(s, m - 1, t, n - 1);
    }
  }

  /** No two messages of a session share a secret. */
  lemma SecretsDistinct(k: Schedule, e: nat, m: nat, f: nat, n: nat)
    requires 1 <= e <= |k.turns| && 1 <= f <= |k.turns|
    requires MessageSecret(k, e, m) == MessageSecret(k, f, n)
    ensures e == f && m == n
  {
    ChainsDistinct(TurnPart(k, e, 1), m, TurnPart(k, f, 1), n);
    RootDepthAt(k, e - 1);
    RootDepthAt(k, f - 1);
  }
}
