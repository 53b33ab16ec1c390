# Verified model of the Stogas verifier

The Stogas verifier lets a client talk to an AI gateway that runs inside an attested virtual
machine. Before a request leaves the client, the client has checked a hardware quote, a chain of
Sigstore and TUF signatures and an approval decision, and it then keeps pools of attested
connections or end-to-end encrypted sessions, resends what was provably never run, and reports what
it knows about a failed request. This project models the parts of that system whose correctness
spans many functions or whole runs, and proves what the design promises about them.

`dafny verify dfyconfig.toml` checks the whole project.

## How the model is organised

- **Merkle trees and quote batches** (`MerkleTree`, `QuoteBatch`, `QuoteWire`, `Rekor`). One tree
  definition from RFC 9162 serves both the quote batches of the gateway and the inclusion proofs of
  the transparency log. The verifier's short loop, the full loop of section 2.1.3.2 and the recursive
  root are proved equal. Soundness assumes nothing of the hash: a proof that is not genuine comes
  with two computed strings that collide.
- **Double ratchet** (`RatchetPeer`, `RatchetKeys`, `RatchetSteps`, `RatchetRun`, `RatchetShares`). Keys are free terms
  of a symbolic key schedule. A run is any sequence of sends, deliveries (late, repeated, reflected to
  their own sender, to either peer) and injected garbage; whatever is never delivered is lost.
- **Connection and session pools** (`PoolSpec`, `Http2Pool`, `Http2Accounting`, `Http2Counters`,
  `Http2Bounds`, `Http2Wakeups`, `Http2Selection`, `Http2Grants`, `Http2Lifetimes`,
  `EncryptedPool`, `EncryptedSelection`, `JsSessions`). The two Rust pools are machines whose steps are the separate loads, stores and
  notifications of the source, in any interleaving. Both, and the JavaScript pool, refine one bounded
  pool. What an undisturbed selection gives out, and where every lease comes from, is proved exactly.
- **Waiting for a session** (`SessionWaiting`, `SessionBounds`, `SessionWakeups`, `SessionRetries`,
  `SessionSelection`, `JsWaiting`, `JsStranding`). One machine for the Rust client, which wakes every waiter, and the
  JavaScript client, which wakes one. It refines the same bounded pool.
- **Sending** (`Submissions`, `TlsSend`, `EncryptedReply`, `ReplyMeaning`, `EncryptedSend`). One send with its resend,
  against every behaviour of the network and of a gateway that does not process what it refuses.
- **Request upload** (`Upload`). The browser's re-chunker, the Rust uploader and the receiver's check.
- **Sigstore trust** (`CanonicalJson`, `TufRoots`, `TufBinding`, `TufExample`, `TrustUpdate`, `TufMeaning`).
  Canonical JSON, the chain of roots, the key list that a chain authorises, and what each file has to
  say, member by member, to be accepted.
- **Approvals and evidence** (`Approvals`, `VendorCollateral`, `EvidenceCache`, `EvidenceVerdict`). Which
  decisions are accepted over a verifier's lifetime, a snapshot cache, of releases and of the vendor's
  certificate chains, against a verifier that repeats every check, and what a document has to pass.
- **Layouts** (`Layouts`). The bytes that are hashed, signed and sent, field by field and mark by mark.
- **Dollars** (`Dollars`). Exact amounts at the command line.

Hashes, signatures, PEM, times, JSON parsing and the other foreign primitives are parameters. The
clock, the network, the order in which tasks run and every choice of the environment are parameters or
steps that a theorem quantifies over.

## Where the code and its documentation differ

- `crates/sdk/src/encrypted_http.rs:64` says that once HTTP begins, errors are execution-unknown, and
  `crates/sdk/src/proxy.rs:287-310` turns errors into that report. The list there omits the completion
  error, which `encrypted_http::send` itself can return for a response with status 204, 205 or 304 that
  announces `text/event-stream`. `EncryptedSend.FalseReport` is a concrete send whose request was
  processed and is reported as `not_sent`. `EncryptedSend.Client.Send` proves that this family of
  answers is the only one. The TLS client and the JavaScript client have no such case.
- `crates/offline-sigstore/src/tuf.rs:40-41` says that roots at or below the compiled version are
  skipped, so that one list serves verifiers compiled with different roots. `TufRoots.Documented` is
  that promise. `TufRoots.SkippingExactly` proves that the code keeps it exactly for the lists that hold
  nothing to skip. `TufRoots.LaterVerifierRefuses` shows the family of lists it fails on, and
  `TufExample.SkippingFails` a list of two files. The model follows the code.
- `bindings/shared/session-transport.js:280` says that a cancelled waiter must not consume another
  request's wake-up. It does if it is cancelled after its wait has ended and before it looks at the
  sessions again: the check at line 125 then throws without passing the wake-up on.
  `JsWaiting.StrandedExactly` gives the condition over whole runs: callers are left asleep beside what
  could serve them exactly if, since the last notification, a woken caller left without looking while a
  session of use was there, or room that nobody has taken up since. `JsWaiting.DepartureStrands` gives it
  for the departure itself, and `JsStranding.WakeupCanBeLost` is such a run from a full window.

## Model

| member | source | states |
|---|---|---|
| MerkleTree.LengthRulesAgree | crates/offline-sigstore/src/tlog.rs:241-251 | counting a leaf's siblings by top-down splits and by bottom-up ceiling halving gives the same length for every index and tree size |
| MerkleTree.PathLengthBound | crates/verifier/src/attestation.rs:107-117 | a tree of at most 2^j leaves has paths of at most j siblings, and exactly j if it is full |
| MerkleTree.LoopsAgree | crates/offline-sigstore/src/tlog.rs:198-239 | the loop without the inner shift computes the root of the full loop of section 2.1.3.2 of RFC 9162 on every sibling list, of any length |
| MerkleTree.LastIsZero | crates/verifier/src/attestation.rs:145-165 | the loop ends with `last` zero exactly when it was given at least the whole path |
| MerkleTree.ShortLoopIsPathRoot | crates/verifier/src/attestation.rs:145-165 | on a path of the expected length the loop computes the root that the recursive tree definition gives |
| MerkleTree.PathsLeadToRoot | crates/verifier/src/attestation.rs:193-203 | every leaf's own path leads to the root of the tree it is in |
| MerkleTree.RootBindsLeafAndPath | crates/verifier/src/attestation.rs:145-165 | a path of the expected length that leads to a tree's root holds that tree's leaf and siblings, or the lemma's function names two node inputs with one hash |
| Layouts.SmallTrees | crates/verifier/src/attestation.rs:193-203 | trees of up to five leaves and paths in them, written out: full subtrees to the left, a lone leaf joined as it is |
| QuoteBatch.LeafInputInjective | crates/verifier/src/attestation.rs:34-63 | the bytes hashed for a leaf determine the channel binding, across both kinds of channel |
| Layouts.LeafLayout | crates/verifier/src/attestation.rs:34-63 | the bytes hashed for a leaf, at their offsets: zero, the channel's domain, the environment code, and its digests in order |
| Layouts.ParentLayout | crates/verifier/src/attestation.rs:213-219 | a parent hashes the byte 1, the left and then the right digest |
| Layouts.ReportLayout | crates/verifier/src/attestation.rs:205-211 | the report data hashes its domain, the leaf count in two bytes with the high one first, and the root |
| QuoteBatch.VerifyLeaf | crates/verifier/src/attestation.rs:145-165 | the verification loop accepts exactly the proofs the specification accepts, for every sibling list |
| QuoteBatch.AcceptsMeaning | crates/verifier/src/attestation.rs:145-165 | a well-formed proof is accepted exactly if the report data commits its count and the recursive root of its path |
| QuoteBatch.VerifiedProofIsGenuine | crates/verifier/src/attestation.rs:145-211 | a proof accepted against the report of a list of bindings names that list's length, the binding at its index and that leaf's real path, or two distinct strings with one digest are computed |
| QuoteBatch.PushSibling | crates/verifier/src/attestation.rs:193-203 | appends one sibling to each path of one half and changes no other path |
| QuoteBatch.Subtree | crates/verifier/src/attestation.rs:193-203 | the recursive builder returns the tree's root and appends to each leaf's path exactly its siblings, touching nothing else |
| QuoteBatch.BuildBatch | crates/verifier/src/gateway.rs:267-280 | succeeds exactly for 1 to 1024 leaves, with the report data of their tree and each leaf's own proof |
| QuoteBatch.BuiltProofsVerify | crates/verifier/src/gateway.rs:267-280 | every proof the builder makes verifies at its own index against the built report data |
| QuoteWire.ToBytes | crates/verifier/src/attestation.rs:179-187 | writes the encoding of a proof |
| QuoteWire.ProofDepth | crates/verifier/src/attestation.rs:107-117 | the depth loop computes the path length of the index in a tree of that many leaves |
| QuoteWire.FromBytes | crates/verifier/src/attestation.rs:95-134 | decodes exactly the encodings of well-formed proofs: a success re-encodes to the input, a failure means no well-formed proof encodes to it |
| QuoteWire.EncodeInjective | crates/verifier/src/attestation.rs:179-187 | no two proofs share an encoding |
| Layouts.ProofLayout | crates/verifier/src/attestation.rs:179-187 | an encoded proof holds count and index in two bytes each, the high one first, and sibling i at offset 4 + 64 i |
| Layouts.FrameLayout | crates/ffi/src/gateway.rs:493-502 | a frame holds each part behind its length in two bytes, the high one first |
| QuoteWire.BatchPathsAreShort | crates/verifier/src/attestation.rs:107-120 | no path in a batch of at most 1024 leaves has more than ten siblings |
| QuoteWire.FrameParts | crates/ffi/src/gateway.rs:493-502 | frames a list of proofs exactly if each fits its 16-bit length |
| QuoteWire.Deframe | go/quote.go:52-64 | accepts exactly the frames of that many parts with nothing left over, and returns the parts in order |
| QuoteWire.FramePrefix | go/quote.go:52-64 | parts already taken from a frame are its first parts, and the rest frames the others |
| QuoteWire.FrameInjective | crates/ffi/src/gateway.rs:493-502 | a frame of a known number of parts can be read in one way only |
| QuoteWire.GoQuoteBatch | go/quote.go:42-65 | through Rust framing and Go deframing, every leaf gets the encoding of its own proof, which verifies |
| Rekor.ExpectedProofLength | crates/offline-sigstore/src/tlog.rs:241-251 | the ceiling-halving loop computes the top-down path length |
| Rekor.ProofLengthBound | crates/offline-sigstore/src/tlog.rs:198-215 | no 64-bit tree size needs more than 64 siblings |
| Rekor.FoldSiblings | crates/offline-sigstore/src/tlog.rs:218-234 | the hashing loop computes the root of the full RFC 9162 loop |
| Rekor.VerifyMerkle | crates/offline-sigstore/src/tlog.rs:198-239 | each error and the success each occur exactly under the stated condition, success being the recursive root |
| Rekor.IncludedBodyIsLogged | crates/offline-sigstore/src/tlog.rs:198-239 | a body included under the root of a log is the log's entry at that index, or two distinct strings with one digest are computed |
| Rekor.LoggedBodyPasses | crates/offline-sigstore/src/tlog.rs:198-239 | every entry of a log passes with its own path |
| Layouts.LogOfTwo | crates/offline-sigstore/src/tlog.rs:198-239 | the root of a log of two entries is the digest of 1 and the digests of 0 with each body, as RFC 9162 writes it |
| RatchetPeer.Peer.constructor | go/reference/reference.go:109-119 | the two roles start from one root with mirrored header keys |
| RatchetPeer.Peer.Advance | go/reference/reference.go:120-124 | moves the root forward and returns the new chain and next header key |
| RatchetPeer.Peer.BeginSending | go/reference/reference.go:130-137 | takes the next turn: new local key, encapsulation, root step and a counter at zero |
| RatchetPeer.Peer.Send | go/reference/reference.go:129-146 | the in-place send reaches the state, header and secret of its specification, or panics as it does |
| RatchetPeer.Peer.BeginReceiving | go/reference/reference.go:164-169 | accepts the sender's turn in place |
| RatchetPeer.Peer.TakeMessage | go/reference/reference.go:171-182 | the skip loop lands on the chain key after that many steps, within the skip bound |
| RatchetPeer.Peer.Receive | go/reference/reference.go:153-183 | the in-place receive reaches the state and secret of its specification for every sealed header |
| RatchetKeys.HeaderKeysDistinct | go/reference/reference.go:120-124 | no two turns of a session share a header key |
| RatchetKeys.SecretsDistinct | go/reference/reference.go:125-128 | no two messages of a session share a secret |
| RatchetRun.RunFollowsSchedule | go/reference/reference.go:109-183 | in every run, both peers follow one key schedule, message by message |
| RatchetRun.Agreement | go/reference/reference.go:129-183 | in every run, a returned secret is the one the other peer sent with that message, whatever was lost, delayed, repeated or reflected before |
| RatchetRun.NoSecretSentTwice | go/reference/reference.go:129-146 | in every run no secret is sent twice, by either peer |
| RatchetRun.NoSecretReturnedTwice | go/reference/reference.go:153-183 | in every run no secret is returned twice, to either peer |
| RatchetRun.ReplaysNeverReturn | go/reference/reference.go:153-183 | once a message has returned, neither it nor any earlier message of its sender ever returns, on the same chain or an earlier one |
| RatchetRun.MessagesReturnExactly | go/reference/reference.go:153-183 | in every run, every genuine message offered under its own request number returns its secret exactly if no earlier delivery returned it or a later one or opened a later chain, and at most 2^20 messages of its chain lie between it and the chain's start or one that returned |
| RatchetRun.RootsWithinOneStep | go/reference/reference.go:120-183 | in every run the two roots are equal or one root step apart |
| RatchetRun.HeadersCountChains | go/reference/reference.go:138-145 | each header carries its position in its own chain and the length of its sender's preceding chain |
| RatchetShares.SecretsMixEveryTurn | go/reference/reference.go:120-146 | in every run, each secret sent or returned is derived from both the X25519 and the ML-KEM share of every turn up to its own |
| RatchetShares.SecretFixesHistory | go/reference/reference.go:120-128 | two sessions that share one message secret have the same setup and the same seed and encapsulation in every turn up to that message |
| RatchetShares.FirstExchange | go/reference/reference.go:109-146 | the first messages of both peers, term by term: which slice keys the header, starts the chain and gives the secret, and how the two shares are joined |
| PoolSpec.MovesKeepBounded | crates/sdk/src/http2_pool.rs:157-252 | every move of the bounded pool keeps serving members within the limit and all members within limit plus one |
| Http2Accounting.ShapeKept | crates/sdk/src/http2_pool.rs:157-294 | every step of every interleaving keeps the pool's structure: one lock holder, one opener, distinct listed channels, leases on known channels |
| Http2Counters.RunCountsExactly | crates/sdk/src/http2_pool.rs:445-500 | in every interleaving each channel's active count is its number of live leases, and the waiting counts and bytes are the sums over live guards, within limits |
| Http2Counters.AdmittedExactly | crates/sdk/src/http2_pool.rs:449-471 | in every reachable state of an open pool with its lock free, a caller is admitted exactly if with it the waiting requests and bytes are within the limits |
| Http2Bounds.StepRefines | crates/sdk/src/http2_pool.rs:157-294 | every step of every interleaving is a move of the bounded pool |
| Http2Bounds.ConnectionsBounded | crates/sdk/src/http2_pool.rs:157-252 | in every interleaving serving connections stay within the limit, all connections within limit plus one, and at most one caller is opening, exactly while the flag says so |
| Http2Bounds.NothingLivesAfterClose | crates/sdk/src/http2_pool.rs:253-294 | after a successful close no connection and no lease appears in any continuation |
| Http2Wakeups.NoLostWakeup | crates/sdk/src/http2_pool.rs:157-252 | in every reachable state in which nobody holds the pool's lock, a parked caller that is neither woken nor about to be would park again if it selected now |
| Http2Selection.SelectionExactly | crates/sdk/src/http2_pool.rs:174-242 | in every reachable state of an open pool with its lock free, an undisturbed caller gets a lease on a least loaded channel that is listed, unfinished, unretired, below its maximum and open, exactly if there is one; otherwise it opens exactly if there is room once the dead channels are retired, and else parks |
| Http2Grants.EveryLeaseGranted | crates/sdk/src/http2_pool.rs:181-206 | in every interleaving, each lease is on a channel that its caller found unretired, whose loaded count it then found below the loaded maximum, and whose sender it then found open |
| Http2Lifetimes.RetiredForGood | crates/sdk/src/http2_pool.rs:330-348 | in every run a connection that was retired, observed shut or closed is retired ever after |
| Http2Lifetimes.CloseExactly | crates/sdk/src/http2_pool.rs:253-283 | in every run closing succeeds exactly if the pool is closed, nobody is opening and every connection ever published has finished |
| Http2Lifetimes.ClosedWithdraws | crates/sdk/src/http2_pool.rs:254-261 | in every run of a closed pool each connection has finished, or is retired with its sender withdrawn |
| Http2Lifetimes.NothingStartsAfterClose | crates/sdk/src/http2_pool.rs:174-178 | once the pool is closed no lease is given and no connection published in any continuation |
| Http2Lifetimes.WokenWasNotified | crates/sdk/src/http2_pool.rs:168-173 | in every run a caller that is woken was notified in the same turn of its loop |
| Http2Lifetimes.EachChangeAnnouncedOnce | crates/sdk/src/http2_pool.rs:330-397 | in every run the changes that waiting callers could use are as many as the notifications sent for them and still owed |
| Http2Lifetimes.WokenSelectsAgain | crates/sdk/src/http2_pool.rs:168-178 | a parked caller stays until it is woken, and then begins a selection with a fresh future, or leaves a closed pool, and nothing else changes |
| Http2Lifetimes.PublisherSelectsAgain | crates/sdk/src/http2_pool.rs:223-243 | an opener whose dial succeeds lists its connection, lays down the flag, wakes everybody and selects again |
| Http2Lifetimes.FailedOpenerLeaves | crates/sdk/src/http2_pool.rs:472-490 | an opener that fails lays down the flag, wakes everybody, leaves, and gives back what it held in waiting |
| EncryptedPool.StepRefines | crates/sdk/src/encrypted_client.rs:315-438 | every step of the interleaved session selection is a move of the bounded pool |
| EncryptedPool.SessionsBounded | crates/sdk/src/encrypted_client.rs:357-438 | in every interleaving serving sessions stay within the maximum, all sessions within maximum plus one, at most one caller holds the opening guard, exactly while the flag says so, and each session's count is its number of live leases |
| EncryptedPool.NothingLivesAfterClose | crates/sdk/src/encrypted_client.rs:444-472 | once close has found the pool idle, no session and no lease appears in any continuation |
| EncryptedSelection.SelectionExactly | crates/sdk/src/encrypted_client.rs:357-438 | in every reachable state of an open pool, an undisturbed selection leases a least loaded session that is listed, unretired, unexpired and ready, unless a failing one has no more load, at which it ends; if none is ready or failing it hands out an opening guard exactly if there is room once the expired and the exhausted ones are retired |
| EncryptedSelection.EveryLeaseGranted | crates/sdk/src/encrypted_client.rs:386-413 | in every interleaving each lease is on a session that was asked while not retired and was ready |
| EncryptedSelection.LiveLeasesListed | crates/sdk/src/encrypted_client.rs:362-378 | in every interleaving each live lease is on a listed session, so none is let go of while a request runs on it |
| EncryptedSelection.IdleExactly | crates/sdk/src/encrypted_client.rs:458-467 | close finds the pool idle exactly if it is closed, nothing opens and no lease lives |
| JsSessions.SessionTransport.constructor | bindings/shared/session-transport.js:30-41 | a new transport has no sessions and satisfies the invariant |
| JsSessions.SessionTransport.Remove | bindings/shared/session-transport.js:249-253 | frees a core only if the session is still listed |
| JsSessions.SessionTransport.Retire | bindings/shared/session-transport.js:242-247 | retires a session, frees its core at once only if it is idle, and keeps the invariant |
| JsSessions.SessionTransport.Release | bindings/shared/session-transport.js:255-259 | the last release of a retired session frees its core; the pool only shrinks |
| JsSessions.SessionTransport.Allocate | bindings/shared/session-transport.js:130-165 | a request is held exactly on a live session of an open transport |
| JsSessions.SessionTransport.BeginOpen | bindings/shared/session-transport.js:166-185 | setup begins exactly if none runs and both bounds leave room |
| JsSessions.SessionTransport.Publish | bindings/shared/session-transport.js:230-236 | a finished setup lists its session, within the bounds, exactly if it was not aborted and the transport is still open; otherwise its core is freed at once |
| JsSessions.SessionTransport.EndOpen | bindings/shared/session-transport.js:180-184 | the setup slot is laid down whatever the setup's outcome |
| JsSessions.SessionTransport.CloseSession | bindings/shared/session-transport.js:297-325 | one turn of the closing loop retires the session, holding it first if a last request was allocated |
| JsSessions.SessionTransport.Close | bindings/shared/session-transport.js:291-328 | closing retires every session, frees exactly the idle ones at once and keeps the invariant |
| JsSessions.EveryCoreFreed | bindings/shared/session-transport.js:242-259 | once closed and with every request released, every core ever made, listed or not, has been freed exactly once |
| SessionBounds.StepRefines | bindings/shared/session-transport.js:117-191 | every step of the waiting machine, for either client, is a move of the bounded pool |
| SessionBounds.WaitersKeepBounds | crates/sdk/src/encrypted_client.rs:315-438 | however callers arrive, wait, are woken, fail and leave, serving sessions stay within the maximum and listed ones within the maximum plus one |
| SessionWakeups.RunKeepsWakes | bindings/shared/session-transport.js:117-191 | in every interleaving, for both clients: whoever waits has a reason or a notification due (Rust), or a woken caller is on its way to look (JavaScript), and what a selection passed over stays of no use until something is announced |
| SessionRetries.RustNoLostWakeup | crates/sdk/src/encrypted_client.rs:315-438 | in every run, a waiting caller that is neither woken nor about to be finds every session full and no room; it would go on exactly if retiring the sessions that idled too long makes room |
| SessionSelection.TakesFirstReady | bindings/shared/session-transport.js:130-158 | an undisturbed caller takes the first session in its order that it does not go past, if that one is ready, for both clients: that session has one request more, those before it that are stale or used up are retired, and no other session changes |
| SessionSelection.FailsAtBroken | bindings/shared/session-transport.js:159-165 | if that session is broken instead the caller fails, and exactly the JavaScript client retires the session |
| SessionSelection.GoesPastAll | bindings/shared/session-transport.js:166-187 | if every session is passed over, exactly the stale and the used up ones are given up, and the caller opens a session exactly if none is being set up and what is left leaves room; in JavaScript it waits for a setup under way, and otherwise it looks again or parks |
| SessionSelection.FirstComeFirstWoken | bindings/shared/session-transport.js:261-287 | in every run of either client and at every step, whoever in the queue is woken, those before it are woken too or have left |
| JsWaiting.StrandedExactly | bindings/shared/session-transport.js:261-287 | in every run, when nobody is about to act, callers in the queue sleep beside what could serve them exactly if since the last notification a woken caller left without looking while a session of use was there, or room that nobody has taken up since |
| JsWaiting.DepartureStrands | bindings/shared/session-transport.js:123-126 | a woken caller that leaves before looking, as the last to act, strands those still waiting exactly if it could have been served |
| JsWaiting.WaitersMissExactly | bindings/shared/session-transport.js:117-191 | in every run, a waiting caller that looked again while nobody is about to act would change nothing exactly if no such departure happened and no listed session has idled too long |
| JsStranding.WakeupCanBeLost | bindings/shared/session-transport.js:123-126 | a run with one session whose window of 256 requests is full: two callers wait, one request is acknowledged, the woken caller is cancelled and the other sleeps beside the free place |
| TlsSend.Client.Dispatch | crates/sdk/src/http2_pool.rs:520-566 | submits exactly if the lease is in time and not retired, returns the answer or the error of its outcome, and a not-sent error after submission means the request was not processed |
| TlsSend.Client.Submit | crates/sdk/src/native_http.rs:177-184 | acquisition errors submit nothing; otherwise as the dispatch |
| TlsSend.Client.Exchange | crates/sdk/src/native_http.rs:151-165 | submits once more exactly after proof that the first submission did not run, and keeps a refusal when no second connection is to be had |
| TlsSend.Client.Send | crates/sdk/src/native_http.rs:127-175 | at most one execution for every environment; an answer is returned exactly if the refusal is kept or the decisive attempt was answered and, where a receipt is due, it verifies; every failure has its cause and a report that is true and says not sent exactly if nothing can have run |
| EncryptedReply.Incoming.Next | crates/sdk/src/encrypted_http.rs:275-355 | one read of the transport changes the reader as the record order and the event guard prescribe |
| EncryptedReply.Incoming.Receive | crates/sdk/src/encrypted_http.rs:140-159 | the two loops return the head, or the error, that the answer's records determine |
| ReplyMeaning.TakenExactly | crates/sdk/src/encrypted_http.rs:296-342 | a list of records is taken exactly if, keepalives aside, it is a valid head, pieces of body that the head allows and at most a closing record at the very end |
| ReplyMeaning.OutcomeExactly | crates/sdk/src/encrypted_http.rs:140-159 | the client gets a head exactly if the records before it are in order and it has a body and came with the last read, or has none, announces no events and was closed and cleanly ended |
| EncryptedReply.CompletionFailsExactly | crates/sdk/src/encrypted_http.rs:140-159 | the completion error ends the reading of an answer exactly if its records are a bodyless head that announces events and the closing record, with keepalives before it, then a clean end |
| EncryptedSend.ReportedNotSent | crates/sdk/src/proxy.rs:287-310 | of all submitted requests, exactly those answered by a bodyless event stream are reported as not sent |
| EncryptedSend.Client.Exchange | crates/sdk/src/encrypted_http.rs:66-167 | submits exactly if the request is valid and in time, and returns the head or the error that the answer determines |
| EncryptedSend.Client.Send | crates/sdk/src/encrypted_client.rs:233-272 | at most one execution for every environment; an answer is returned exactly if the refusal is kept or the decisive attempt was answered and, where a receipt is due, it verifies; a failure is reported as not sent exactly if nothing was submitted or the answer is a bodyless event stream, which is false exactly if that request was processed |
| EncryptedSend.FalseReport | crates/sdk/src/proxy.rs:287-310 | a concrete send that executes its request once and is reported as not sent |
| EncryptedSend.BrowserClient.SendSessionRequest | bindings/shared/channel-http.js:131-326 | an answer is returned exactly if it was read to its head and, where a receipt was asked, it has a body and its receipt verifies where one is due; an error is execution-unknown exactly if the fetch had begun |
| EncryptedSend.BrowserClient.Send | bindings/shared/session-transport.js:45-71 | at most one execution; an answer is returned exactly if the refusal is kept or the decisive attempt delivers one; every failure is reported truly, silent event streams included |
| Upload.ChunksRestore | crates/sdk/src/encrypted_http.rs:231-254 | chunks concatenate to the body, all but the last are full, none is empty, and their number is the rounded-up quotient |
| Upload.Chunker.constructor | bindings/shared/channel-http.js:50-51 | a new chunker has taken nothing |
| Upload.Chunker.Seal | bindings/shared/channel-http.js:46-49 | appends one full record |
| Upload.Chunker.Fill | bindings/shared/channel-http.js:63-79 | appends bytes to the buffer behind what it holds |
| Upload.Chunker.TopUp | bindings/shared/channel-http.js:64-71 | completes the buffered record and seals it as soon as it is full, losing no byte |
| Upload.Chunker.SealFull | bindings/shared/channel-http.js:72-74 | seals every full record of a piece and leaves less than one |
| Upload.Chunker.Take | bindings/shared/channel-http.js:56-80 | one turn of the read loop adds exactly its piece, whatever the buffer held |
| Upload.EncodeRequest | bindings/shared/channel-http.js:31-90 | fails exactly if the body exceeds its limit, and otherwise yields the same metadata, fixed-size data and single finish records for every split of the body, empty pieces included |
| Upload.Uploader.constructor | crates/sdk/src/encrypted_http.rs:88-95 | the upload owes the records of its request |
| Upload.Uploader.Next | crates/sdk/src/encrypted_http.rs:231-254 | each call hands out the next owed record and nothing after the finish record |
| Upload.UploadAll | crates/sdk/src/encrypted_http.rs:231-254 | the Rust uploader yields the records the browser yields for any split of the same body |
| Upload.UploadsAreAllowed | crates/verifier/src/channel/record.rs:240-287 | the receiver's record check passes every such upload to its end, within the record limit for requests |
| Upload.AllowedExactly | crates/verifier/src/channel/record.rs:240-287 | the receiver's record check passes a list to its end exactly if it is the upload of some request within the limits |
| CanonicalJson.WriteString | crates/offline-sigstore/src/tuf.rs:412-421 | appends the quoted text with exactly quotation marks and backslashes escaped |
| CanonicalJson.WriteCanonical | crates/offline-sigstore/src/tuf.rs:375-410 | fails exactly on a document with a fraction, and otherwise appends its canonical bytes |
| CanonicalJson.WriteItems | crates/offline-sigstore/src/tuf.rs:384-393 | the array loop appends the array's canonical bytes, or fails with one of its items |
| CanonicalJson.WriteMembers | crates/offline-sigstore/src/tuf.rs:394-407 | the object loop appends the members in byte order of their keys, or fails with one of them |
| CanonicalJson.FlatUnique | crates/offline-sigstore/src/tuf.rs:375-410 | a value's bytes followed by a delimiter can be read back in one way only |
| CanonicalJson.CanonicalIdentifies | crates/offline-sigstore/src/tuf.rs:375-421 | two documents without repeated keys or fractions have the same canonical bytes exactly if they are equal up to the order of members, at any depth and for any text |
| Layouts.KeywordsWritten | crates/offline-sigstore/src/tuf.rs:377-378 | null, true and false as they are spelled |
| Layouts.IntegerWritten | crates/offline-sigstore/src/tuf.rs:379-381 | an integer is its decimal digits without leading zeros, after a minus sign if it is negative |
| Layouts.TextWritten | crates/offline-sigstore/src/tuf.rs:412-421 | a text is its bytes in quotation marks, with a backslash before quotation marks and backslashes only |
| Layouts.ArrayWritten | crates/offline-sigstore/src/tuf.rs:384-393 | an array is its items in order, separated by commas, in brackets |
| Layouts.ObjectWritten | crates/offline-sigstore/src/tuf.rs:394-407 | an object is its members, each a quoted key, a colon and a value, separated by commas, in braces |
| Layouts.KeysAscend | crates/offline-sigstore/src/tuf.rs:395-396 | in canonical form the keys of an object ascend in byte order |
| Layouts.OrderIsBytes | crates/offline-sigstore/src/tuf.rs:395-396 | the key order is decided by the first byte that differs, or else by length |
| TufRoots.Verify | crates/offline-sigstore/src/tuf.rs:348-370 | accepts exactly if a threshold of the role's distinct public keys, not key identifiers, signed the metadata |
| TufRoots.AuthorisedExactly | crates/offline-sigstore/src/tuf.rs:348-370 | metadata is authorised exactly if some set of the role's public keys, as large as the threshold, each has a valid signature on it |
| TufMeaning.MetadataParsedExactly | crates/offline-sigstore/src/tuf.rs:231-282 | a metadata file is read exactly as its members say: type, specification, positive version, expiry, canonical bytes and one well-formed signature per key identifier |
| TufMeaning.RootParsedExactly | crates/offline-sigstore/src/tuf.rs:300-345 | a root is read exactly as its members say: each of the four roles from the member of its own name, each supported key from its own PEM text, the signed version and expiry |
| TufMeaning.AuthorisedByName | crates/offline-sigstore/src/tuf.rs:348-370 | a file counts as signed exactly if as many distinct keys as the role of the file's own name demands, in the root's own listing, have valid signatures on it |
| TufMeaning.NextExactly | crates/offline-sigstore/src/tuf.rs:147-160 | a file follows a root exactly if it is the next version and thresholds of the keys of both roots signed it |
| TufRoots.NewestRoot | crates/offline-sigstore/src/tuf.rs:147-160 | the loop returns the root that following the files one by one reaches, or fails as that does |
| TufRoots.FollowSplits | crates/offline-sigstore/src/tuf.rs:147-160 | verifying a concatenation of root lists equals verifying its parts in turn |
| TufRoots.FollowCounts | crates/offline-sigstore/src/tuf.rs:147-160 | n accepted roots end at the trusted version plus n |
| TufRoots.EveryHopEndorsed | crates/offline-sigstore/src/tuf.rs:147-160 | every file of an accepted list is the next version, signed by a threshold of distinct public keys of the root before it and of the root it declares |
| TufRoots.SkippingExactly | crates/offline-sigstore/src/tuf.rs:40-41 | the code accepts a list exactly if the documented skipping accepts it and has nothing to skip, and the two differ exactly on lists that start with an old root and that the documentation accepts |
| TufRoots.LaterVerifierRefuses | crates/offline-sigstore/src/tuf.rs:147-160 | a list that brings one verifier to a later root and on serves, by the documentation, a verifier compiled with that root; the code refuses it there |
| TufExample.SkippingFails | crates/offline-sigstore/src/tuf.rs:147-160 | a concrete repository of two files with four different roles, whose signatures and expiry are checked, that the code follows from version 1 and refuses from version 2 |
| TufRoots.OneListOneVersion | crates/offline-sigstore/src/tuf.rs:151-153 | two verifiers that accept one non-empty list have the same compiled version and end at the same root |
| TufBinding.SignedBytesFixRoot | crates/offline-sigstore/src/tuf.rs:230-345 | files with the same signed bytes give the same version, expiry, keys, roles and thresholds |
| TrustUpdate.PublishedIsAccepted | crates/offline-sigstore/src/tuf.rs:46-133 | what a publisher accepts at any time, every client with the same compiled root accepts with the same result |
| TrustUpdate.PublishedExactly | crates/offline-sigstore/src/tuf.rs:87-133 | a publisher accepts exactly what a client accepts under timestamp and snapshot files signed by their roles, each file being the version the newer one lists and nothing being expired at that millisecond |
| TrustUpdate.AcceptedFileIsListed | crates/offline-sigstore/src/tuf.rs:162-220 | an accepted key list has the length and SHA-256 that the authorised targets file lists for it |
| TufMeaning.UpdateExactly | crates/offline-sigstore/src/tuf.rs:46-60 | a client accepts an update exactly if the roots lead to a newest one whose targets role signed the targets file, that file gives the key list's length, SHA-256 and no digest that differs, and the key list is complete; the result names those versions and that list |
| TufMeaning.ListedExactly | crates/offline-sigstore/src/tuf.rs:186-220 | newer metadata lists a file under a version exactly if the length and the digests it gives, if any, are the file's |
| TufMeaning.HexWritten | crates/offline-sigstore/src/tuf.rs:210-217 | a digest is compared as two lower-case hexadecimal digits for each byte, the high one first |
| TrustUpdate.TargetsFixTrustedRoot | crates/offline-sigstore/src/tuf.rs:162-183 | two key lists accepted under one targets file have one length and one SHA-256 |
| Approvals.Authoriser.constructor | crates/verifier/src/approvals.rs:434-444 | a new authoriser has learned and accepted nothing |
| Approvals.Authoriser.Observe | crates/verifier/src/approvals/keys.rs:21-38 | learns newer keys, and marks a generation that is decided twice as conflicting |
| Approvals.Authoriser.Accept | crates/verifier/src/approvals.rs:524-532 | accepts exactly what the update check allows, and a rejected candidate changes nothing |
| Approvals.AcceptedExactly | crates/verifier/src/approvals.rs:539-577 | a candidate is accepted exactly if it is for this authority, its keys stand, and it follows the last decision |
| Approvals.DecisionsFollow | crates/verifier/src/approvals.rs:499-577 | for any two accepted decisions of any run, generations never decrease, and within a generation revisions and hardware versions never decrease and equal numbers mean equal digests |
| Approvals.CurrentExactly | crates/verifier/src/approvals/keys.rs:47-67 | in every run, work may start under an accepted decision exactly while no conflict is known and its keys are the newest, or older ones whose newest renewal has the same signer and no earlier deadline |
| Approvals.LearnedIsNewest | crates/verifier/src/approvals/keys.rs:21-38 | in every run no keys that were brought are newer than the learned ones, and those of the same generation agree with them or the conflict is known |
| Approvals.LearnedWasBrought | crates/verifier/src/approvals/keys.rs:21-38 | in every run the learned keys were observed or came with an accepted decision |
| Approvals.ConflictIsFinal | crates/verifier/src/approvals/keys.rs:21-38 | once a generation is seen decided twice, nothing of that generation or an older one is accepted in any continuation |
| Approvals.Increasing | crates/verifier/src/approvals.rs:644-647 | holds exactly for positive, strictly increasing sequences |
| EvidenceCache.VerifyTimestamps | crates/offline-sigstore/src/tsa.rs:96-117 | accepts exactly if no token is more than a minute ahead of the clock, and returns the earliest |
| EvidenceCache.TimesKeepHolding | crates/offline-sigstore/src/sigstore.rs:193-222 | times accepted at one clock reading are accepted at every later one |
| EvidenceVerdict.TimesMean | crates/offline-sigstore/src/sigstore.rs:193-222 | the times of a release hold exactly if no token and not the log is more than 60,000 milliseconds ahead of the clock, and the log's time and the earliest token lie in the certificate's window |
| EvidenceCache.VerifyReleases | crates/verifier/src/evidence.rs:410-433 | the loop fills the map that checking the releases in order gives, or fails with one of them |
| EvidenceCache.Verifier.constructor | crates/verifier/src/evidence.rs:302-308 | a new verifier has no snapshot, no revocation and no decision |
| EvidenceCache.Verifier.Refresh | crates/verifier/src/evidence.rs:335-395 | the in-place refresh reaches the specified state: keys and revocations learned even on failure, snapshot and decision installed together or not at all |
| EvidenceCache.Verifier.VerifySnapshot | crates/verifier/src/evidence.rs:397-455 | builds the specified snapshot, reusing release results under the same Sigstore keys only and verified certificate chains under any |
| EvidenceCache.RevocationsRetained | crates/verifier/src/evidence.rs:361-371 | in every run the known revocations are those of all documents that parsed, whatever else failed |
| VendorCollateral.VerifyStore | crates/verifier/src/evidence/amd.rs:352-393 | the loop fills the store that checking the listings in order gives, or fails with one of them |
| VendorCollateral.StoreAgrees | crates/verifier/src/evidence/amd.rs:352-393 | a store that reuses chains by digest holds the platforms of one that verifies every chain, without a digest collision |
| EvidenceCache.CheckAgrees | crates/verifier/src/evidence.rs:493-512 | a reused entry is what the full check gives at this clock reading, or its digest collides |
| EvidenceCache.RefreshAgrees | crates/verifier/src/evidence.rs:335-470 | one refresh with reuse has the verdict, the approvals, the revocations and the contents of one that repeats every check |
| EvidenceCache.CacheNeverShows | crates/verifier/src/evidence.rs:335-470 | after any sequence of successful, failing and clock-reversing refreshes without a digest collision, approvals, revocations and snapshot contents equal those of a verifier that repeats every check |
| EvidenceCache.SameVerdict | crates/verifier/src/evidence.rs:335-470 | after any such sequence the next document is installed exactly if full verification would install it |
| EvidenceVerdict.RepeatExactly | crates/verifier/src/evidence.rs:335-455 | a document is installed by full verification exactly if it parses, its Sigstore files, keys, revocations and manifest verify, its keys stand, its decision is acceptable, every listed proof holds with its times, the hardware policy holds and every vendor chain verifies; the snapshot then holds exactly what it lists, each with its own proof's value |
| EvidenceVerdict.InstalledExactly | crates/verifier/src/evidence.rs:335-455 | the same of the verifier with its cache, after any run without a digest collision |
| EvidenceCache.KnownIsReused | crates/verifier/src/evidence.rs:493-512 | under unchanged Sigstore files, releases that are known are not checked again: the new snapshot holds the old entries |
| EvidenceCache.InstalledIsAccepted | crates/verifier/src/evidence.rs:391-394 | in every run the installed snapshot's decision is the accepted one |
| EvidenceCache.CompatibleCatalog | crates/verifier/src/evidence.rs:213-224 | for an approved gateway under current keys finds a compatible catalog of the highest sequence, if there is one, and otherwise none |
| Dollars.ParseKeepsValue | crates/cli/src/topup.rs:487-508 | what is left of an entry without its dollar sign is accepted exactly if it is a decimal above zero, and the result denotes the same amount |
| Dollars.EntryKeepsValue | crates/cli/src/topup.rs:487-508 | with or without one dollar sign before it, exactly the decimals above zero are accepted, with their value |
| Dollars.OneStringPerAmount | crates/cli/src/topup.rs:487-508 | two accepted entries give the same string exactly if they denote the same amount |
| Dollars.ParsedIsFixed | crates/cli/src/topup.rs:487-508 | what parsing returns, parsing leaves alone |
| Dollars.CentsAreHalfUp | crates/cli/src/topup.rs:459-476 | `cents` is the amount rounded half up for exactly the decimals whose cents fit 128 bits |
| Dollars.DollarsReadBack | crates/cli/src/topup.rs:452-457 | the two-digit form shown for an amount in cents denotes exactly those cents and is read back as them |
| Dollars.DollarsShowHalfUp | crates/cli/src/topup.rs:452-476 | every decimal that fits is shown as its value rounded half up to cents, and what is shown is shown again as the same |
| Dollars.EnteredIsShown | crates/cli/src/topup.rs:452-508 | an entered amount, parsed and then shown, denotes its own value rounded half up |

## Left out

- Cryptographic primitives, X.509, CMS, SCT and RFC 3161 parsing: signature and proof validity are parameters.
- Ratchet: Diffie-Hellman, encapsulation and key derivation are free terms; a forged header that opens is excluded, as authenticated encryption promises. The record key chain after a message secret is not modelled.
- RatchetRun: a receive that panics does not end a run, so the theorems cover more runs than the Go program has.
- The production Rust and WebAssembly channel, which keeps skipped keys, is not modelled; the Go reference peer is.
- RatchetRun: a run halts when a counter would reach 2^64, where Go's would wrap.
- Http2Pool: the pool is a machine over values whose steps are the source's single loads, stores and notifications, not a class. The stores of `close`, made under the lock, are one step. The order in which eligible channels are tried is a free choice, and wake-ups by the idle timer are not used.
- EncryptedPool: as Http2Pool; waiting and waking are in SessionWaiting.
- SessionWaiting: no lock is modelled, so more interleavings are covered than the Rust pool has. The JavaScript promise steps between a wake-up and the next look are one. A selection that finds the client closed ends; the doomed setup that the JavaScript client could still begin there is not modelled.
- JsStranding: the core's window is modelled up to the first acknowledgement, which is all the run needs.
- JsSessions: promises and evidence waits inside the selection are not modelled here; its effects on the session list are.
- TlsSend: request and response bodies, the reading of a refusal's body beyond whether it succeeds, and the receipt of a streamed answer, which is checked while it streams, are parameters or left out.
- EncryptedReply: the bytes of a record and its decryption are abstracted to authenticated records; the event guard is reduced to whether it accepts a piece and stands after its terminal event.
- Upload: cancellation and deadlines of an upload, the sealing of records and the early refusal of a declared length over the limit are not modelled.
- EvidenceCache: release verification, the hardware policy check and the learning of one document's revocations are parameters of their inputs.
- VendorCollateral: how rows expand to complete listings, how one certificate chain is verified and how revocation lists are authenticated and ordered are parameters; appraising a platform at a clock reading is not modelled.
- EvidenceCache.CompatibleCatalog: which of two catalogs with one sequence is chosen is left open; approved sequences are unique.
- Approvals: checking the signatures, schemas and log proofs of key and approval manifests is left to parameters.
- TufRoots: error texts are not distinguished; a rejection is a rejection.
- Dollars: how an amount that is not a decimal is made printable is a parameter.
- FFI pointers, the Python, Ruby and .NET bindings, the command line's account, keychain and payment code, release scripts and the fuzz targets: input, output and orchestration.
