/** What goes into a ratchet secret: both shares of every turn up to its own, and nothing else can give it. */
module RatchetShares {
  import opened Basics
  import opened RatchetPeer
  import opened RatchetKeys
  import opened RatchetSteps
  import opened RatchetRun

  /** The term is `part` or was derived from it. */
  predicate Uses(t: Term, part: Term) {
    t == part ||
    match t
    case Kdf(salt, input, _, _) => Uses(salt, part) || Uses(input, part)
    case Joined(left, right) => Uses(left, part) || Uses(right, part)
    case _ => false
  }

  /** The X25519 share of a turn: between its own key pair and that of the turn before. */
  function AgreedShare(k: Schedule, f: nat): Term
    requires 1 <= f <= |k.turns|
  {
    var a, b := Seed(k, f), Seed(k, f - 1);
    if a <= b then Agreed(a, b) else Agreed(b, a)
  }

  /** The ML-KEM share of a turn: what was encapsulated to the key pair of the turn before. */
  function KemShare(k: Schedule, f: nat): Term
    requires 1 <= f <= |k.turns|
  {
    Encapsulated(Seed(k, f - 1), k.turns[f - 1].randomness)
  }

  predicate MixesTurn(t: Term, k: Schedule, f: nat)
    requires 1 <= f <= |k.turns|
  {
    Uses(t, AgreedShare(k, f)) && Uses(t, KemShare(k, f))
  }

  lemma PartMixes(k: Schedule, e: nat, part: nat)
    requires 1 <= e <= |k.turns|
    ensures MixesTurn(TurnPart(k, e, part), k, e)
    ensures forall t :: Uses(RootAt(k, e - 1), t) ==> Uses(TurnPart(k, e, part), t)
  {
  }

  lemma {:induction false} RootMixes(k: Schedule, e: nat, f: nat)
    requires 1 <= f <= e <= |k.turns|
    ensures MixesTurn(RootAt(k, e), k, f)
  {
    hide Uses;
    PartMixes(k, e, 0);
    assert RootAt(k, e) == TurnPart(k, e, 0);
    if f < e {
      RootMixes(k, e - 1, f);
    }
  }

  lemma {:induction false} ChainUses(start: Term, n: nat, part: Term)
    requires Uses(start, part)
    ensures Uses(Chain(start, n), part) && Uses(ChainSecret(Chain(start, n)), part)
  {
    if n > 0 {
      ChainUses(start, n - 1, part);
    }
  }

  /** Every turn up to its own goes into a message secret, with both shares. */
  lemma SecretMixes(k: Schedule, e: nat, n: nat, f: nat)
    requires 1 <= f <= e <= |k.turns|
    ensures MixesTurn(MessageSecret(k, e, n), k, f)
  {
    hide Uses;
    PartMixes(k, e, 1);
    if f < e {
      RootMixes(k, e - 1, f);
    }
    ChainUses(TurnPart(k, e, 1), n, AgreedShare(k, f));
    ChainUses(TurnPart(k, e, 1), n, KemShare(k, f));
  }

  /** The shares that a message announces: its sender's new key with the key it answers, and what it encapsulates. */
  predicate MixesHeader(t: Term, h: Header) {
    && Uses(t, Agree(h.public, h.ciphertext.key))
    && Uses(t, Encapsulated(h.ciphertext.key, h.ciphertext.randomness))
  }

  /**
   * In every run, each secret sent holds both shares of every turn up to its own: those its own
   * header announces, those of every earlier message of its sender, and those of every turn
   * between. A returned secret is one that was sent, so the same holds of it.
   */
  lemma SecretsMixEveryTurn(root: nat, initial: nat, events: seq<Event>) returns (g: Ledger)
    ensures var w := Run(root, initial, events); Inv(w, g)
    ensures var w := Run(root, initial, events);
      forall i, f :: 0 <= i < |w.sent| && 1 <= f <= g.marks[i].turn ==> MixesTurn(w.sent[i].secret, g.keys, f)
    ensures var w := Run(root, initial, events);
      forall i, j :: 0 <= j <= i < |w.sent| && w.sent[j].client == w.sent[i].client ==>
        w.sent[j].sealed.Sealed? && MixesHeader(w.sent[i].secret, w.sent[j].sealed.header)
    ensures var w := Run(root, initial, events);
      forall d :: d in w.deliveries && d.secret.Some? ==>
        d.index < |w.sent| && MixesHeader(d.secret.value, w.sent[d.index].sealed.header)
  {
    hide Run, Uses, OnSchedule, LengthsInv, Reached, MessageSecret;
    g := RunFollowsSchedule(root, initial, events);
    var w := Run(root, initial, events);
    forall i, f | 0 <= i < |w.sent| && 1 <= f <= g.marks[i].turn
      ensures MixesTurn(w.sent[i].secret, g.keys, f)
    {
      assert MessageInv(g.keys, g.counts, w.sent[i], g.marks[i]);
      SecretMixes(g.keys, g.marks[i].turn, g.marks[i].number, f);
    }
    forall i, j | 0 <= j <= i < |w.sent| && w.sent[j].client == w.sent[i].client
      ensures w.sent[j].sealed.Sealed? && MixesHeader(w.sent[i].secret, w.sent[j].sealed.header)
    {
      assert MessageInv(g.keys, g.counts, w.sent[j], g.marks[j]);
      assert j < i ==> Before(g.marks[j], g.marks[i]);
      assert MixesTurn(w.sent[i].secret, g.keys, g.marks[j].turn);
    }
    forall d | d in w.deliveries && d.secret.Some?
      ensures d.index < |w.sent| && MixesHeader(d.secret.value, w.sent[d.index].sealed.header)
    {
      var n :| 0 <= n < |w.deliveries| && w.deliveries[n] == d;
      assert DeliveryInv(w, g, w.deliveries[n]);
    }
  }

  // ------------------------------------------------------------- one history only

  lemma SharesFix(k: Schedule, l: Schedule, e: nat)
    requires 1 <= e <= |k.turns| && e <= |l.turns|
    requires Agree(Seed(k, e), Seed(k, e - 1)) == Agree(Seed(l, e), Seed(l, e - 1))
    requires KemShare(k, e) == KemShare(l, e)
    ensures k.turns[e - 1] == l.turns[e - 1] && Seed(k, e - 1) == Seed(l, e - 1)
  {
  }

  /** A root determines the setup and every turn it was reached through. */
  lemma {:induction false} RootFixesHistory(k: Schedule, l: Schedule, e: nat)
    requires e <= |k.turns| && e <= |l.turns| && RootAt(k, e) == RootAt(l, e)
    ensures k.root == l.root && k.turns[..e] == l.turns[..e] && (e > 0 ==> k.initial == l.initial)
  {
    if e > 0 {
      SharesFix(k, l, e);
      RootFixesHistory(k, l, e - 1);
      assert k.turns[..e] == k.turns[..e - 1] + [k.turns[e - 1]];
      assert l.turns[..e] == l.turns[..e - 1] + [l.turns[e - 1]];
    }
  }

  /**
   * Two sessions that share one message secret share their setup and every turn up to that
   * message: one different seed or encapsulation anywhere before it gives a different secret.
   */
  lemma SecretFixesHistory(k: Schedule, e: nat, m: nat, l: Schedule, f: nat, n: nat)
    requires 1 <= e <= |k.turns| && 1 <= f <= |l.turns|
    requires MessageSecret(k, e, m) == MessageSecret(l, f, n)
    ensures e == f && m == n && k.root == l.root && k.initial == l.initial && k.turns[..e] == l.turns[..e]
  {
    ChainsDistinct(TurnPart(k, e, 1), m, TurnPart(l, f, 1), n);
    RootDepthAt(k, e - 1);
    RootDepthAt(l, f - 1);
    SharesFix(k, l, e);
    RootFixesHistory(k, l, e - 1);
    assert k.turns[..e] == k.turns[..e - 1] + [k.turns[e - 1]];
    assert l.turns[..e] == l.turns[..e - 1] + [l.turns[e - 1]];
  }

  // ---------------------------------------------------------- the first exchange

  /**
   * The first messages of either peer, term by term: which slice of which derivation keys a
   * header, starts a chain and gives a secret, and in which order the two shares are joined.
   */
  lemma FirstExchange(root: nat, initial: nat, a: nat, b: nat, r: nat, q: nat, x: nat, y: nat)
    ensures var setup := part => Kdf(Empty, SetupRoot(root), Initialization, part);
      var up := part => Kdf(setup(0), Joined(Agree(a, initial), Encapsulated(initial, r)), RootStep, part);
      var down := part => Kdf(up(0), Joined(Agree(b, a), Encapsulated(a, q)), RootStep, part);
      var w := Run(root, initial, [Send(true, x, a, r), Deliver(false, 0, x), Send(false, y, b, q)]);
      && w.sent == [
           Sent(true, Sealed(setup(1), x, Header(a, Ciphertext(initial, r), 0, 0)), Kdf(Empty, up(1), ChainStep, 1)),
           Sent(false, Sealed(setup(2), y, Header(b, Ciphertext(a, q), 0, 0)), Kdf(Empty, down(1), ChainStep, 1))]
      && w.deliveries == [Delivery(false, 0, x, Some(Kdf(Empty, up(1), ChainStep, 1)))]
      && w.server.sendChain == Some(Kdf(Empty, down(1), ChainStep, 0)) && w.server.root == down(0)
      && w.client.nextSend == up(2) && w.server.nextReceive == up(2) && w.server.nextSend == down(2)
  {
    var events := [Send(true, x, a, r), Deliver(false, 0, x), Send(false, y, b, q)];
    assert events[..2] == [events[0], events[1]] && events[..2][..1] == [events[0]];
    assert [events[0]][..0] == [];
    assert Run(root, initial, []) == Begin(root, initial);
    var first := Run(root, initial, [events[0]]);
    assert first == Next(Begin(root, initial), events[0]);
    var second := Run(root, initial, [events[0], events[1]]);
    assert second == Next(first, events[1]);
    assert Run(root, initial, events) == Next(second, events[2]);
  }
}
