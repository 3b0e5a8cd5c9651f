# OpenLV, verified

OpenLV connects a dApp (the host) and a wallet (the client) that share one
`openlv://` URL. The two find each other over a public topic, agree on keys with
a handshake of four messages, choose a transport, and then exchange requests and
responses over a data channel. This project models the Rust implementation of
that protocol and proves what it promises: that at most one wallet is ever
paired and the two ends agree, exactly when a handshake can recover from losses,
that closing a session is final, that an answer is the answer to the request
asked, and that what is printed or sealed can be parsed or opened again.

`dafny verify dfyconfig.toml` checks everything.

## How it is organised

| file | models |
|---|---|
| `Signaling.dfy` | one end of the handshake as functions on values, and what holds over all its runs |
| `SignalingLayer.dfy` | the same machine as the object it is, each method proved against those functions |
| `FineGrain.dfy` | one host, any number of clients and an outsider on a lossy topic, every handler split at each lock release and await |
| `LateWrites.dfy` | exactly when split handlers let an end fall back or get on |
| `LateRepeats.dfy`, `RepeatingSlot.dfy` | exactly when a repeating task starts late, and when one is out of reach |
| `SplitHandlers.dfy` | runs in which a delayed handler takes the host back and a delayed deadline fails a client, and what follows |
| `Grains.dfy` | a split handler that nothing interrupts is the atomic one |
| `Recovery.dfy` | one host and one client after losses |
| `SessionControl.dfy` | spawning, admission and shutdown: specification and locked object |
| `Lifetime.dfy` | every interleaving of operations, handlers, tasks and closers |
| `LinkLoops.dfy` | the event loops that write a session's status, over any log of signaling states |
| `LinkStatus.dfy`, `SplitStatus.dfy` | these loops over an end with atomic and with split handlers |
| `LinkWaiters.dfy` | exactly when a caller that waits for the link can be told |
| `Session.dfy` | what one frame, signaling state or transport state does to a session, and the session object |
| `PeerClose.dfy` | the peer's close against transport failures handled at the same time |
| `NegotiationRelay.dfy` | how transport negotiation is told apart from session messages over signaling |
| `Exchange.dfy` | concurrent requests in both directions |
| `Response.dfy` | the two-phase deadline loop against a one-pass verdict |
| `Requests.dfy` | the foreign-function request broker, as object and over all interleavings |
| `Candidates.dfy` | ICE candidate buffering |
| `ConnectionUrl.dfy`, `QueryCodec.dfy`, `HandshakeKey.dfy` | the connection URL, its query codec (sections 5.1 and 5.2 of the WHATWG URL Standard) and the hexadecimal key |
| `PeerCrypto.dfy`, `Wire.dfy` | payload and frame layouts |
| `TransportChoice.dfy` | which transport two ends settle on |
| `Runs.dfy`, `Common.dfy` | runs of a transition system; shared types |

A protocol is a set of steps, with the environment's choices as the steps'
arguments. A run is any sequence of worlds joined by steps, and the main results
quantify over all runs and all moments in them. Where the program changes an object
in place there is a class whose methods are proved equal to a function on the
object's value, and the results are proved about that function. For the main
operations two kinds of result go together: what never happens in any run, and that
each effect happens exactly when it should, with a schedule that brings it about.

Two grains are used for the handshake. With atomic handlers the states of one
end only climb. With handlers split at every lock release and await that is not
so: a delayed flash handler can write `Handshake` over `HandshakePartial`, after
which the host never completes (`DelayedFlashStrandsHost`), and a deadline can
write `Error` over `Encrypted` (`DeadlineFailsEncrypted`). `LateWrites` proves that
these two late writes are the only ways down from a state other than `Error`, and
exactly when each is possible; `SplitStatus` proves what that means for a session: a
client's never falls back from `Connected`, and exactly which of a host's can.
Pairing, agreement and write-once claims hold at the
fine grain too, and are proved there.

## Assumptions

- Cryptographic primitives are functions with stated laws: Diffie-Hellman
  symmetry, a cipher that opens what it sealed and nothing under another key, key
  derivation that separates contexts, and base64 that can be undone. Text
  functions of the standard library have laws too. In each case a lemma shows
  that the laws can be met. In the handshake models sealing is symbolic: a sealed
  payload names the key it opens under, which is what `PeerCrypto` proves of the
  byte layout.
- The digest is an arbitrary function. `OneUrlMakesValid` says exactly what has
  to be true of it: distinct keys, and no client key with the host's digest.
- Random values and message ids are parameters. Message ids are never reused.
- The topic may lose, repeat and reorder frames. At the fine grain an outsider may
  publish too: it has no end's shared secret, and it knows an end's key only from
  the clear prefix of that end's peer payloads. The other handshake models have the
  frames of the ends only. The data channel is reliable and ordered.
- `setup` runs once, as `connect` enforces by taking the transport events. The
  first `close` future runs to completion.
- Locks are never poisoned, the 64-bit id counter does not wrap, and computing
  takes no time beside the timers.

## Where code and documentation differ

- The crate's README names XSalsa20-Poly1305 for peer payloads; the code uses AES-256-GCM
  with a key derived by HKDF. The model follows the code's layout: 32 bytes of key,
  12 of nonce.
- `subscribe_requests` is documented to show accepted payloads. The code shows a
  payload after admission and before the spawn, so a payload whose spawn a close
  then refuses is shown too: `ObservedPayloads` says exactly when, and
  `RefusedPayloadIsShown` gives an instance.
- A transport failure after the peer's close is meant not to be reported. The code
  reads the flag and writes the error in two steps, so a failure handled at the same
  time as the close can stay reported: `ErrorLeftExactly` says exactly when, and
  `ErrorCanStay` gives the order.
- `receive_response` takes a ready message before it looks at the timer, so an
  unrelated message at the very deadline can turn a success into a timeout.
  `DeadlineLoopExact` says exactly when, and `TieIsObservable` gives an instance.
- `wait_for_link` waits for the transport only: it can end exactly when the transport
  has become connected or failed (`WaitEndsExactly`). The status also becomes
  `Disconnected` when signaling fails, when there is no common transport, and when the
  transport's setup fails. A caller already waiting is not told of any of the three
  (`DisconnectedLeavesWaiter`) and, but for a transport that fails after its setup
  did, waits until the session is closed, while later callers get the error at once.
- Writing `Encrypted` is meant to stop the repeating task. A send that is suspended at
  that moment starts one afterwards (`RepeatsAfterEncrypted`); `RepeatsLateExactly`
  says exactly when that can still happen. And where two sends overlap, the second
  overwrites the first one's `JoinHandle` without aborting its task, which then runs
  on, detached, out of reach of every later stop (`DetachedExactly`).
- Resending is meant to ride out lost messages, but each message is resent only
  after its first send was accepted. `EveryFirstSendMatters` shows that a refused
  publish of any of the four first messages stalls the pair for good, and
  `RecoveryIsExact` that nothing else does: a live pair can complete if and only if
  both ends still resend.

## Model

| member | source | states |
|---|---|---|
| `Signaling.SignalStateOrder` | crates/openlv/src/signaling/layer/mod.rs:195-204 | In every run of one end with atomic handlers, whatever frames arrive: the state's rank never falls, `Encrypted` and `Error` are final, the history of broadcast states is strictly rising and holds at most 5 states |
| `Signaling.StateFixesRepeatedMessage` | crates/openlv/src/signaling/layer/mod.rs:260-313 | An end resends at most the one message of its current handshake state, and nothing outside `Handshake` and `HandshakePartial` |
| `Signaling.HandshakeEndsAtDeadline` | crates/openlv/src/signaling/layer/mod.rs:237-258 | While a handshake is under way and the layer was not torn down, its deadline is armed; when an armed deadline elapses the end was in a handshake and fails, and repeats nothing; without one nothing changes |
| `Signaling.PayloadsOnlyWhenEncrypted` | crates/openlv/src/signaling/layer/mod.rs:492-499 | Only an encrypted end passes payloads on, and an encrypted end has a peer key and the peer's capabilities |
| `Signaling.EventEvolves` | crates/openlv/src/signaling/layer/mod.rs:509-529 | Every event of one end leaves a stored key and stored capabilities as they are and only extends the broadcast history |
| `Signaling.NodeInvPreserved` | crates/openlv/src/signaling/layer/mod.rs:350-507 | Every event, with any frame and any publish outcome, keeps the joint invariant of state, history, stored values, repeating task and deadline |
| `Signaling.FrameDeliversExactly` | crates/openlv/src/signaling/layer/mod.rs:492-499 | A received frame delivers a payload if and only if the end is encrypted and hears one under the peer's key, after those before it |
| `Signaling.FrameFailsExactly` | crates/openlv/src/signaling/layer/mod.rs:398-411 | A received frame makes an end fail if and only if it is a client in its handshake that hears, under the shared secret, a key that does not hash to `h` |
| `Signaling.FrameStoresKeyExactly` | crates/openlv/src/signaling/layer/mod.rs:404-453 | A received frame makes an end store a key if and only if it is in its handshake and hears that key: a client one that hashes to `h`, a host one that its sender sealed itself |
| `Signaling.FrameStartsExactly` | crates/openlv/src/signaling/layer/mod.rs:385-396 | A received frame starts a handshake if and only if a ready host hears a flash |
| `Signaling.FrameCompletesExactly` | crates/openlv/src/signaling/layer/mod.rs:455-474 | A received frame completes a handshake if and only if a partial end hears capabilities, which it then has unless it had some |
| `Signaling.FrameIsAnsweredExactly` | crates/openlv/src/signaling/layer/mod.rs:385-490 | Which frame a received frame is answered with, and when with none |
| `Signaling.FrameIsRefusedExactly` | crates/openlv/src/signaling/layer/mod.rs:350-382 | With accepted publishes, handling a frame is an error if and only if it is for the end and does not open, is no message, or announces a malformed key |
| `Signaling.PayloadIsSentExactly` | crates/openlv/src/signaling/layer/mod.rs:165-184 | A payload is published if and only if a key is stored and the channel accepts, for that key and the other role; the end is unchanged |
| `Signaling.SetupEndsExactly` | crates/openlv/src/signaling/layer/mod.rs:134-153 | Where `setup` leaves a host and a client, what it publishes, and when it fails |
| `Signaling.ResendRepeats` | crates/openlv/src/signaling/layer/mod.rs:271-284 | A resend publishes what repeats and changes nothing |
| `SignalingLayer.SignalingInner.SetState` | crates/openlv/src/signaling/layer/mod.rs:195-204 | Writes the state, drops both tasks on `Encrypted` and `Error`, then broadcasts; nothing else changes |
| `SignalingLayer.SignalingInner.StopHandshakeTasks` | crates/openlv/src/signaling/layer/mod.rs:292-313 | Empties both task slots and changes nothing else |
| `SignalingLayer.SignalingInner.Teardown` | crates/openlv/src/signaling/layer/mod.rs:158-162 | Stops both tasks and changes neither the state nor anything else |
| `SignalingLayer.SignalingInner.StartHandshakeDeadline` | crates/openlv/src/signaling/layer/mod.rs:237-258 | Afterwards exactly the deadline is armed, whether it was before or not |
| `SignalingLayer.SignalingInner.SendMessage` | crates/openlv/src/signaling/layer/mod.rs:316-348 | Publishes the sealed frame exactly when the key it needs is there and the channel accepts; otherwise publishes nothing and returns the error |
| `SignalingLayer.SignalingInner.SendRepeating` | crates/openlv/src/signaling/layer/mod.rs:260-290 | The old repeating task is gone in any case; the new one is installed only if its first send succeeded |
| `SignalingLayer.SignalingInner.StoreRelyingKey` | crates/openlv/src/signaling/layer/mod.rs:509-519 | Stores the key only if none was stored, and says whether it did |
| `SignalingLayer.SignalingInner.StorePeerCapabilities` | crates/openlv/src/signaling/layer/mod.rs:521-529 | Stores the capabilities only if none were stored |
| `SignalingLayer.SignalingInner.Setup` | crates/openlv/src/signaling/layer/mod.rs:114-156 | `Connecting`, then on a working channel the branch by `can_encrypt` and role, with the client's deadline and repeated flash; on a failed channel nothing after `Connecting` |
| `SignalingLayer.SignalingInner.HandleReceive` | crates/openlv/src/signaling/layer/mod.rs:350-507 | The whole effect of one received frame on every field, the frame it publishes and its result, in each combination of prefix, message, state and role |
| `SignalingLayer.SignalingInner.OnHostKey` | crates/openlv/src/signaling/layer/mod.rs:398-422 | The client's branch for the host key: parse error, hash mismatch to `Error`, key already stored, or stored, announced and repeated |
| `SignalingLayer.SignalingInner.OnClientKey` | crates/openlv/src/signaling/layer/mod.rs:425-453 | The host's branch for a client key: parse error, sender mismatch, key already stored, or stored and answered with repeated capabilities |
| `SignalingLayer.SignalingInner.Tick` | crates/openlv/src/signaling/layer/mod.rs:271-284 | One resend changes no field, and a failed one is ignored |
| `SignalingLayer.SignalingInner.DeadlineFires` | crates/openlv/src/signaling/layer/mod.rs:248-253 | Fails the end unless it is encrypted |
| `SignalingLayer.SignalingInner.Send` | crates/openlv/src/signaling/layer/mod.rs:165-184 | Refuses before a key is stored, else publishes one data frame to the other role |
| `FineGrain.UniquePairing` | crates/openlv/src/signaling/layer/mod.rs:350-519 | With handlers split at every lock release and await, one host, any number of clients and an outsider without the shared secret who publishes what it likes, any loss, duplication and reordering: two clients that are encrypted at any two moments of a run are the same client, whose key the host stored |
| `FineGrain.EncryptedClientIsPaired` | crates/openlv/src/signaling/layer/mod.rs:424-474 | At the fine grain, an encrypted client is the one whose key the host holds |
| `FineGrain.CompletionAgreement` | crates/openlv/src/signaling/layer/mod.rs:424-490 | At the fine grain, once the host is encrypted some client was encrypted before it, and from then on each holds the other's real key and own capabilities and both select the same transport |
| `FineGrain.KeySafety` | crates/openlv/src/signaling/layer/mod.rs:404-529 | At the fine grain, a stored key and stored capabilities never change, a client's stored key is the host's and hashes to `h`, and `Encrypted` implies that both are stored |
| `FineGrain.StepKeepsInv` | crates/openlv/src/signaling/layer/mod.rs:350-507 | Every fine-grained step (delivery, task action, cancellation, send call, a forged frame) keeps the provenance invariant of frames, fields and every task's remaining actions |
| `FineGrain.InjectKeepsInv` | crates/openlv/src/encryption/asymmetric/mod.rs:157-189 | A frame that the outsider redirects, relabels, or seals with keys of its own changes nothing that any end relies on: it opens for no end, or only comes after that end stored its peer's key |
| `FineGrain.DecryptSafe` | crates/openlv/src/encryption/asymmetric/mod.rs:157-189 | Whatever an end can open says only what its real peer may have said to it, also when no peer key is stored yet |
| `FineGrain.OneUrlMakesValid` | crates/openlv/src/encryption/hash/mod.rs:37-46 | An end that creates a session, with any initial digest or none, and ends that connect to its URL form a valid system exactly when the creator was given no other digest than its own, keys differ and no client's key hashes to the URL's digest |
| `SplitHandlers.DelayedFlashStrandsHost` | crates/openlv/src/signaling/layer/mod.rs:383-396 | For every host and client, with split handlers there is a run in which a second flash, read in `Ready` and resumed late, takes the host from `HandshakePartial` back to `Handshake`; in every continuation the host is never encrypted |
| `SplitHandlers.StrandedForever` | crates/openlv/src/signaling/layer/mod.rs:424-464 | A host with a stored key in `Handshake`, whose tasks cannot write a later state, stays so in every continuation: a stored key stops every key handler |
| `SplitHandlers.DeadlineFailsEncrypted` | crates/openlv/src/signaling/layer/mod.rs:248-253 | For every host and client, with split handlers there is a run in which the client's deadline reads the state before `Encrypted` is written and writes `Error` after it |
| `SplitHandlers.RepeatsAfterEncrypted` | crates/openlv/src/signaling/layer/mod.rs:267-288 | For every host and client, with split handlers there is a run in which the client writes `Encrypted`, which stops its tasks, and then a suspended send starts a repeating task |
| `LateRepeats.RepeatsLateExactly` | crates/openlv/src/signaling/layer/mod.rs:260-290 | At the fine grain, in every reachable world: an end that has its peer's key, as every encrypted end has, can start a repeating task in some continuation if and only if what is left of `setup` or of some handler leads to it through sends that can be sealed |
| `RepeatingSlot.DetachedExactly` | crates/openlv/src/signaling/layer/mod.rs:285-302 | The slot for the repeating task is overwritten without aborting what it held: a running task is out of reach of every stop if and only if two sends overlapped between their stop and their install |
| `RepeatingSlot.DetachedStays` | crates/openlv/src/signaling/layer/mod.rs:292-302 | What is out of reach stays so, whatever is stopped or installed later |
| `SplitHandlers.EncryptedWithLateFlash` | crates/openlv/src/signaling/layer/mod.rs:383-396 | For every host and client there is a run to an encrypted host one of whose flash handlers has still `Handshake` to write |
| `LateWrites.HandshakeReturnsExactly` | crates/openlv/src/signaling/layer/mod.rs:383-396 | At the fine grain, in every reachable world: an end in `HandshakePartial` can return to `Handshake` in some continuation if and only if a flash handler is past its state read and before its write |
| `LateWrites.EncryptedIsLostExactly` | crates/openlv/src/signaling/layer/mod.rs:248-253 | At the fine grain, in every reachable world: an encrypted end can leave `Encrypted` in some continuation, and can fail, if and only if a write of `Handshake` or `Error` is pending; otherwise it stays encrypted |
| `LateWrites.OnlyLateWritesFallBack` | crates/openlv/src/signaling/layer/mod.rs:195-204 | At the fine grain, in every run: a step that lowers an end's state or takes it out of `Encrypted` comes from `Error` or is one of these two late writes |
| `LateWrites.AdvancesExactly` | crates/openlv/src/signaling/layer/mod.rs:424-474 | At the fine grain, in every reachable world: an end that stored its peer's key but is in `Handshake` or failed can reach `HandshakePartial` or `Encrypted` if and only if the handler that stored the key has still to write its state or a capabilities handler to complete |
| `LateWrites.StepKeepsOrder` | crates/openlv/src/signaling/layer/mod.rs:350-507 | Every fine-grained step keeps the shape of every task and the one key writer: until it has written the state, nobody is past `Handshake` |
| `Grains.UninterruptedHandlerIsAtomic` | crates/openlv/src/signaling/layer/mod.rs:350-507 | A split handler that nothing interrupts has the fields, the published frame and the repeating task of the atomic handler; where it starts none, the atomic end has none or keeps its old one |
| `Grains.BranchAlone` | crates/openlv/src/signaling/layer/mod.rs:383-504 | The same for every branch taken after the state is read |
| `Grains.UninterruptedSetupIsAtomic` | crates/openlv/src/signaling/layer/mod.rs:134-153 | The same for the tail of `setup` |
| `Grains.UninterruptedDeadlineIsAtomic` | crates/openlv/src/signaling/layer/mod.rs:248-253 | The same for a deadline |
| `Recovery.RecoveryFromLoss` | crates/openlv/src/signaling/layer/mod.rs:260-313 | One host and one client, any frames lost and any publishes refused so far: from every reachable state after both setups with neither end failed and both still resending, at most 11 resends and deliveries, each possible when its turn comes, bring both to `Encrypted` |
| `Recovery.RecoveryIsExact` | crates/openlv/src/signaling/layer/mod.rs:260-290 | In every such reachable state, under any publish outcomes, some steps complete the handshake if and only if both ends still have their repeating tasks |
| `Recovery.OnlyTheDeadlineFails` | crates/openlv/src/signaling/layer/mod.rs:383-490 | No step but a deadline makes an end fail, and no step at all, with its publish accepted or refused, undoes handshake progress |
| `Recovery.ResendingLasts` | crates/openlv/src/signaling/layer/mod.rs:271-284 | An end that resends goes on resending while its state is the same, whatever it sends or receives |
| `Recovery.PayloadArrives` | crates/openlv/src/signaling/layer/mod.rs:165-184 | In every reachable complete pair, in both directions: what a send publishes makes the other end deliver exactly that payload, last, and changes nothing else at either end |
| `Recovery.PayloadsArriveInOrder` | crates/openlv/src/signaling/layer/mod.rs:492-499 | Any payloads that are sent one after the other and delivered in that order arrive in that order |
| `Recovery.DeliveredWasPublished` | crates/openlv/src/signaling/layer/mod.rs:492-499 | In every run, each delivered payload was published by the peer for that end |
| `Recovery.RoundBeforeClient` | crates/openlv/src/signaling/layer/mod.rs:385-453 | Before the client is encrypted, one resend of the end the states determine moves the other end up |
| `Recovery.RoundAfterClient` | crates/openlv/src/signaling/layer/mod.rs:476-490 | When only the client's last packet was lost, the host's resend, the client's echo and its delivery complete the host |
| `Recovery.StepKeepsInv` | crates/openlv/src/signaling/layer/mod.rs:383-490 | Every step keeps the invariant that ties each published frame and each state to the other end's state and to its running resend |
| `Recovery.EveryFirstSendMatters` | crates/openlv/src/signaling/layer/mod.rs:266-268 | For every host and client and each of the four first sends (flash, host key, client key, host capabilities) a run in which that publish is refused, neither end fails, and the handshake can never complete |
| `Recovery.StalledStays` | crates/openlv/src/signaling/layer/mod.rs:266-268 | A pair stalled by any of the four sends stays stalled under every step, whatever is published from then on |
| `TransportChoice.SelectTransportId` | crates/openlv/src/session/mod.rs:796-814 | The first transport in the host's list that the client supports, from either end's point of view; none exactly when the lists are disjoint |
| `SessionLock.SessionControl.Spawn` | crates/openlv/src/session/control/mod.rs:74-92 | Refused after close with nothing changed; else every finished task is joined and the new one added under a fresh handle |
| `SessionLock.SessionControl.Close` | crates/openlv/src/session/control/mod.rs:94-102 | The first close sets the flag, aborts every task and signals shutdown; later ones change nothing |
| `SessionLock.SessionControl.WaitForTasks` | crates/openlv/src/session/control/mod.rs:105-108 | Takes the task set and joins every task in it |
| `SessionLock.SessionControl.AdmitHandler` | crates/openlv/src/session/control/mod.rs:117-129 | Refused after close or at 256 active handlers with nothing changed; else counts one more |
| `SessionLock.SessionControl.DropPermit` | crates/openlv/src/session/control/mod.rs:150-154 | Counts one handler less and changes nothing else |
| `Admission.SpawnKeepsLiveTasks` | crates/openlv/src/session/control/mod.rs:74-92 | A spawn is refused exactly after close, with nothing changed; else the tasks are every live one as it was, none that has ended, and the new one |
| `Admission.AdmitsExactly` | crates/openlv/src/session/control/mod.rs:117-129 | A handler is admitted exactly before close and below 256 active ones, and a refusal says which of the two it was |
| `Admission.CloseReachesEveryTask` | crates/openlv/src/session/control/mod.rs:94-102 | A close marks every task as aborted, keeps all, and closing again changes nothing |
| `Lifetime.NoTaskIsForgotten` | crates/openlv/src/session/control/mod.rs:59-115 | In every run, a task is live and known from the moment its spawn returned until its future is gone; at the moment `close` resolves, and after, every task ever started has ended |
| `Lifetime.CloseIsFinal` | crates/openlv/src/session/mod.rs:347-368 | From the moment `close` resolves, in every continuation: no task is live, each teardown ran exactly once, the status is `Disconnected`, and every spawn and admission is refused |
| `Lifetime.CloseCanResolve` | crates/openlv/src/session/mod.rs:347-368 | In every reachable state after a `close`, at most seven steps and two for each task left resolve it |
| `Lifetime.ClosedAdmitsNothing` | crates/openlv/src/session/control/mod.rs:59-115 | From the first `close` on nothing new starts, and every task still to be joined was aborted |
| `Lifetime.PermitConservation` | crates/openlv/src/session/control/mod.rs:117-154 | In every reachable state the counter is the number of permits in existence and at most 256, and a permit that can still be dropped keeps it positive |
| `Lifetime.EveryEndReleasesOnce` | crates/openlv/src/session/control/mod.rs:150-154 | Completion, panic and destruction after an abort all are the one step that destroys a task's future and with it its permit, if it still holds one; that step lowers the counter by exactly that and touches no other task |
| `Lifetime.StepKeepsInv` | crates/openlv/src/session/control/mod.rs:59-154 | Every step of operations, admissions, tasks and closers keeps the invariant of tasks, permits and shutdown |
| `LinkLoops.ConnectedRegressesExactly` | crates/openlv/src/session/mod.rs:592-664 | Whatever signaling broadcasts: a connected session has handled an `Encrypted`, and its status later leaves `Connected` and `Disconnected` if and only if the signal loop handles a `Ready`, `Handshake` or `HandshakePartial` after it |
| `LinkLoops.LateHandshakeUnlinks` | crates/openlv/src/session/mod.rs:592-618 | A run of the loops in which `Handshake` follows `Encrypted` and the status goes from `Connected` back to `Linking` |
| `LinkLoops.HandledStateShows` | crates/openlv/src/session/mod.rs:592-618 | The status that each handled signaling state leaves, and when the transport's setup is entered |
| `LinkLoops.TransportStateShows` | crates/openlv/src/session/mod.rs:592-664 | The status that each transport state, a failed setup, `connect`, waiters and closers leave, and when the transport loop ends |
| `LinkLoops.StatusShowsWhatHappened` | crates/openlv/src/session/mod.rs:324-342 | In every run, a status is only there after what it shows: ready and linking after such a state was handled, connected after the transport was, signaling after `connect` |
| `LinkLoops.ReceiversReadInOrder` | crates/openlv/src/session/mod.rs:592-664 | A loop reads what is broadcast after it subscribed, one by one |
| `SplitStatus.FallsBackExactly` | crates/openlv/src/session/mod.rs:592-664 | The loops over an end with split handlers: a connected session falls back if and only if its loop handles a handshake state afterwards, which is then a late `Handshake`, and the end the host |
| `SplitStatus.ClientNeverFallsBack` | crates/openlv/src/session/mod.rs:592-664 | With split handlers, a client's connected session never falls back |
| `SplitStatus.CanFallBackExactly` | crates/openlv/src/session/mod.rs:592-664 | With split handlers, in every reachable world: a connected session can fall back in some continuation if and only if a flash handler is past its state read and before its write, or the loop has a handshake state still to handle |
| `SplitStatus.HostCanFallBack` | crates/openlv/src/session/mod.rs:592-664 | For every host and client there is a run to a connected host session that can fall back |
| `LinkStatus.ConnectedNeverRegresses` | crates/openlv/src/session/mod.rs:592-664 | Over atomic handlers, once the status is `Connected` it is only ever `Connected` or `Disconnected`, and signaling is `Encrypted` |
| `LinkStatus.RunProjects` | crates/openlv/src/session/mod.rs:592-618 | Every run of the loops over an end with atomic handlers is a run of the loops over an arbitrary log |
| `LinkStatus.SignalLoopNeverLags` | crates/openlv/src/session/mod.rs:592-618 | The signal state loop is never more than 5 states behind, so its 32-slot receiver does not lag |
| `LinkStatus.FailedSignalingLeavesTransportIdle` | crates/openlv/src/session/mod.rs:592-618 | After signaling failed, or ended without a common transport, at any later moment of any run, the transport has shown no state but `Standby` |
| `LinkStatus.DisconnectsUnshown` | crates/openlv/src/session/mod.rs:592-618 | For every client and each of three causes (signaling fails, no common transport, the transport's setup fails) a run from `Linking` to `Disconnected` with the transport log empty or `Connecting` |
| `LinkStatus.HandlingKeepsInv` | crates/openlv/src/session/mod.rs:596-616 | Handling a signal state sets the transport up only when `Encrypted` was consumed and no signal state can follow |
| `SessionSteps.RefusedFrameTakesNoPermit` | crates/openlv/src/session/mod.rs:705-742 | A frame is refused exactly when it is a request after close, at the limit, or with a close between admission and spawn; then no permit is kept, no task added and nothing but the observers' log changed, else exactly one handler is |
| `SessionSteps.ObservedPayloads` | crates/openlv/src/session/mod.rs:728-748 | A payload is shown to observers if and only if its request was admitted, and it is shown and refused if and only if in addition a close comes before the spawn |
| `SessionSteps.RefusedPayloadIsShown` | crates/openlv/src/session/mod.rs:728-748 | An instance: a request admitted to a fresh control and then overtaken by a close is shown and refused |
| `SessionSteps.FrameMatchesExchange` | crates/openlv/src/session/mod.rs:705-742 | What a frame spreads to open calls, and when it gets a handler, is what the request model says of an admitted frame: a handler exactly when a task with a permit was spawned |
| `SessionSteps.SignalMatchesStatusModel` | crates/openlv/src/session/mod.rs:592-618 | The status written for a signal state is the one of the status model |
| `SessionSteps.TransportMatchesStatusModel` | crates/openlv/src/session/mod.rs:653-664 | The statuses written for transport states, by waiters and for the peer's close are those of the status model |
| `SessionSteps.EveryStatusIsBroadcast` | crates/openlv/src/session/mod.rs:576-590 | Every reaction to a frame or a signaling state broadcasts the status it leaves |
| `SessionSteps.EveryLinkIsBroadcast` | crates/openlv/src/session/mod.rs:576-590 | So does every reaction to a transport state, and every wait |
| `SessionSteps.DisconnectionTellsWhy` | crates/openlv/src/session/mod.rs:592-664 | A disconnection leaves an error that names its cause: failed signaling, no common transport, a failed setup or a failed transport |
| `SessionSteps.PeerCloseIsSeen` | crates/openlv/src/session/mod.rs:713-718 | The peer's close sets the flag, clears the error, is spread to calls, and is observed as a disconnection |
| `SessionSteps.PeerCloseIsNoError` | crates/openlv/src/session/mod.rs:565-569 | Corollary for handling that starts after the peer's close: no sequence of frames and transport failures is then reported as an error; what starts before is in `PeerClose` |
| `PeerClose.ErrorLeftExactly` | crates/openlv/src/session/mod.rs:565-569 | With flag read, error write, flag store and error clear as steps of different tasks, in every order: an error is left if and only if some failure handler read the flag before it was first stored and wrote after the last clear |
| `PeerClose.ErrorCanStay` | crates/openlv/src/session/mod.rs:713-718 | An instance: a transport error that stays reported after the peer's close |
| `PeerClose.SessionMatchesRace` | crates/openlv/src/session/mod.rs:565-569 | The session's own failure handling, with or without a close in between, is an order of those steps |
| `SessionObject.SessionInner.DispatchRequest` | crates/openlv/src/session/mod.rs:728-742 | Admission, observation and spawn in order, also when a close comes in between; the permit is given back if the spawn is refused |
| `SessionObject.SessionInner.HandleSessionFrame` | crates/openlv/src/session/mod.rs:705-726 | The effect of each kind of session message on every field and on the control |
| `SessionObject.SessionInner.OnSignalState` | crates/openlv/src/session/mod.rs:596-616 | Status and error for each signal state, transport selection and setup outcome |
| `SessionObject.SessionInner.OnTransportState` | crates/openlv/src/session/mod.rs:653-663 | Status and error for each transport state, and when the loop ends |
| `SessionObject.SessionInner.SetTransportError` | crates/openlv/src/session/mod.rs:565-569 | Reads the flag, then writes the error if it was not set, also when another task handles the peer's close in between |
| `SessionObject.SessionInner.OnPeerClose` | crates/openlv/src/session/mod.rs:713-718 | Stores the flag, clears the error, spreads the close and sets the status, in that order |
| `LinkWaiters.WaitEndsExactly` | crates/openlv/src/session/mod.rs:479-535 | In every run, whatever signaling broadcasts: a waiter that subscribed, found the status undecided and looked at the transport can have been told by a given moment if and only if the transport was connected at that look, or its log since the subscription holds a connection or a failure |
| `LinkWaiters.ReturnsExactly` | crates/openlv/src/session/mod.rs:479-535 | In every run: a waiter that found the status undecided can return `Ok` if and only if the transport was connected at its look or has been since its subscription, and an error if and only if it was not connected at its look and has failed since |
| `LinkWaiters.FailedSignalingWakesNoWaiter` | crates/openlv/src/session/mod.rs:479-535 | In every run, once signaling has failed or ended without a common transport no waiter is ever told, whenever it subscribed; a caller that finds the status `Disconnected` gets the error at once |
| `LinkWaiters.DisconnectedLeavesWaiter` | crates/openlv/src/session/mod.rs:592-618 | For every client and each of three causes of `Disconnected` a run after which a waiter that was there before cannot have been told; for two of them not in any continuation either |
| `SessionSteps.WaitTellsStatus` | crates/openlv/src/session/mod.rs:479-535 | Whenever the call returns, it does so with `Ok` if and only if the status it leaves is `Connected`; while it waits it changes nothing |
| `SessionSteps.WaitTellsFirstEnd` | crates/openlv/src/session/mod.rs:496-534 | The first item that ends the wait says which: a connection `Ok`, a failure an error with `Disconnected`, the end of the channel an error with nothing changed |
| `SessionObject.SessionInner.WaitForLink` | crates/openlv/src/session/mod.rs:479-535 | The loop ends at the first item that shows a connection, a failure or the end of the channel, with the status, error and result of that item; before it, nothing changes |
| `NegotiationRelay.RelayedNegotiationArrives` | crates/openlv/src/session/mod.rs:620-651 | A negotiation message, wrapped in a request or not, is routed to the transport as it was sent and reaches no open call |
| `NegotiationRelay.RequestsAreNotSpread` | crates/openlv/src/session/mod.rs:634-645 | No request over signaling reaches an open call; one with a text payload is taken for a negotiation |
| `NegotiationRelay.SpreadExactly` | crates/openlv/src/session/mod.rs:626-645 | A session message over signaling is spread to open calls if and only if it is no request and no response with a text payload, which is taken for a negotiation |
| `NegotiationRelay.SessionRoundTrip` | crates/openlv/src/transport/message/mod.rs:14-43 | Every session message is read back from its own JSON |
| `SessionObject.SessionInner.Close` | crates/openlv/src/session/mod.rs:347-368 | With nothing beside it, the first call sends the close message, joins every task, tears both layers down once, sets `Disconnected` and keeps the result, a transport error first; later calls return it and change nothing more |
| `Exchange.RequestsAreAnsweredTruly` | crates/openlv/src/session/mod.rs:415-447 | Any number of concurrent requests both ways: a call that returned `Ok(v)` had the peer's handler run on exactly its payload and return `Ok(v)`; one that returned `RequestFailed` had it return an error |
| `Exchange.EveryRequestCanBeAnswered` | crates/openlv/src/session/mod.rs:415-447 | In every reachable world, for any fresh id, payload and outcome of the peer's callback: a schedule of steps makes the call return just that outcome, an error as `RequestFailed`, unless a close of the peer is unread |
| `Exchange.HeardAnswerIsReturned` | crates/openlv/src/session/response/mod.rs:38-46 | In every run, a call that hears the answer to its own request returns what the peer's callback returned for it |
| `Exchange.HearExactly` | crates/openlv/src/session/response/mod.rs:32-50 | Which message decides an open call, and with what: its own response and failure, and a close |
| `Exchange.HeardIsWhatWasRead` | crates/openlv/src/session/mod.rs:705-726 | In every run, what an end has spread to its calls is every message it read but requests and unknown ones, in order |
| `Exchange.CallbackRunsOnce` | crates/openlv/src/session/mod.rs:751-777 | An admitted request keeps one handler, and its callback runs at most once |
| `Exchange.WireTracePerRequest` | crates/openlv/src/session/mod.rs:728-777 | The frames sent for one request are an optional ack and then at most one answer, the callback's own; a refused request sends none |
| `Exchange.StepKeepsInv` | crates/openlv/src/session/mod.rs:415-447 | Every step of calls, deliveries, handlers, aborts and closes keeps the invariant of wires, handlers and answers |
| `Exchange.HeardAnswerIsTrue` | crates/openlv/src/transport/message/mod.rs:45-53 | An answer on a wire is the reply to what that end's callback returned for the same id |
| `Response.ReceiveResponse` | crates/openlv/src/session/response/mod.rs:8-52 | The loop returns the result and the instant of the recursive wait, with its deadline reset at the first ack |
| `Response.ResultExactly` | crates/openlv/src/session/response/mod.rs:14-52 | Which result the wait returns, item by item: a response, failure, close or channel error if and only if one in time is the first to settle; a timeout, telling whether there was an ack, if and only if none is; an invalid timeout if and only if a deadline cannot be represented |
| `Response.SettledByDecides` | crates/openlv/src/session/response/mod.rs:28-50 | The settling item's result is returned at the instant of its arrival |
| `Response.DeadlineLoopExact` | crates/openlv/src/session/response/mod.rs:22-51 | The result equals the verdict on the trace without unrelated messages and repeated acks if and only if no unrelated arrival at the very deadline is ahead of one that matters |
| `Response.NoArrivalAtDeadline` | crates/openlv/src/session/response/mod.rs:28-50 | Hence it always does when nothing arrives exactly at a deadline |
| `Response.TieIsObservable` | crates/openlv/src/session/response/mod.rs:28-33 | A tie is real: one unrelated message at the deadline turns a success into a timeout |
| `Response.ReceiveIsBounded` | crates/openlv/src/session/response/mod.rs:14-50 | The wait ends within the two timeouts together |
| `Broker.Requests.Handle` | crates/openlv-ffi/src/lib.rs:169-190 | Draws an id, and registers and enqueues the request exactly when not stopped |
| `Broker.Requests.Next` | crates/openlv-ffi/src/lib.rs:195-214 | Yields the first queued request that is still pending and drops exactly those before it; nothing once stopped; otherwise drains the queue and waits |
| `Broker.Requests.Stop` | crates/openlv-ffi/src/lib.rs:216-220 | Sets the flag and forgets every pending request |
| `Broker.Requests.TakeSender` | crates/openlv-ffi/src/lib.rs:222-227 | A reply finds the sender only while the request is pending, and takes it out |
| `Broker.Requests.DropPending` | crates/openlv-ffi/src/lib.rs:150-154 | A dropped handler's request is pending no more |
| `BrokerRuns.EachIdAnsweredOnce` | crates/openlv-ffi/src/lib.rs:169-231 | At most one reply succeeds per id; a handle that returns got exactly that answer, or `SessionClosed` only after `stop` and only without one |
| `BrokerRuns.SentAnswerIsReceived` | crates/openlv-ffi/src/lib.rs:190-192 | A reply that succeeded for a handle still waiting is what that handle returns |
| `BrokerRuns.EveryRequestCanBeAnswered` | crates/openlv-ffi/src/lib.rs:169-231 | In every reachable world before `stop`, a new request is admitted, yielded with its own text, and a reply makes its handle return just that answer |
| `BrokerRuns.NextYieldsFirstPending` | crates/openlv-ffi/src/lib.rs:195-214 | A call of `next` is a sequence of pops that yields the first request still pending and no other |
| `BrokerRuns.StopIsFinal` | crates/openlv-ffi/src/lib.rs:195-220 | After `stop` nothing is ever pending, admitted or yielded again |
| `BrokerRuns.DeliveryOrder` | crates/openlv-ffi/src/lib.rs:195-214 | What `next` yields is a subsequence of what was enqueued, each request at most once; what it skipped is not pending; the queue is the rest in order |
| `BrokerRuns.SkippedIsGone` | crates/openlv-ffi/src/lib.rs:205-211 | A request that `next` skipped is not pending then or at any later moment, so no reply takes its sender |
| `IceNegotiation.CandidateBuffering` | crates/openlv/src/transport/webrtc.rs:238-315 | For all messages to one peer connection: applied then buffered candidates are those received, in order, if and only if no add was refused; none is applied before the remote description and none is buffered after it |
| `IceNegotiation.NothingLostExactly` | crates/openlv/src/transport/webrtc.rs:238-315 | Over all messages before and after the layer's setup: applied then buffered candidates are everything sent, in order, if and only if none was sent before the setup and no add was refused |
| `IceNegotiation.DescriptionTakesEffect` | crates/openlv/src/transport/webrtc.rs:245-283 | An offer or answer is taken if and only if it parses and the connection sets it; then the description is set, the buffer is empty and what was in it applied up to the first refused one; when it returns `Ok`, exactly |
| `IceNegotiation.CandidateTakesEffect` | crates/openlv/src/transport/webrtc.rs:284-300 | A candidate is refused without a connection, buffered before the description, applied or refused after it |
| `IceNegotiation.RemoteIsSetExactly` | crates/openlv/src/transport/webrtc.rs:248-283 | Over every history of one connection, the remote description is set if and only if some description was accepted, and then nothing is buffered |
| `IceNegotiation.AcceptedIsPrefix` | crates/openlv/src/transport/webrtc.rs:303-315 | What a flush applies is a prefix of the buffer in which every add succeeded, and the next add was refused |
| `IceNegotiation.SetUpStartsAfresh` | crates/openlv/src/transport/webrtc.rs:124-200 | A new connection has no description and no candidates, whatever came before; the buffer is kept |
| `TransportLayer.TransportLayer.SetUp` | crates/openlv/src/transport/webrtc.rs:124-200 | A new peer connection has no remote description and no candidates; the buffer is kept; on failure nothing changes |
| `TransportLayer.TransportLayer.Handle` | crates/openlv/src/transport/webrtc.rs:238-301 | The effect of each negotiation message on every field, for every outcome of the peer connection's calls |
| `TransportLayer.TransportLayer.FlushPendingCandidates` | crates/openlv/src/transport/webrtc.rs:303-315 | The buffer is emptied; the candidates before the first refused one are applied, in order |
| `QueryCodec.DecodeEncode` | crates/openlv/src/url/v1.rs:72-75 | Decoding a query value undoes encoding it, for every byte string |
| `QueryCodec.ParseWritten` | crates/openlv/src/url/v1.rs:113-119 | Parsing a written query gives back its pairs in order, for any names and values |
| `QueryCodec.EncodesExactly` | crates/openlv/src/url/v1.rs:113-119 | Which bytes the query writes as they are, which as a plus, and the others as a percent sign and two upper-case digits |
| `QueryCodec.DecodesAny` | crates/openlv/src/url/v1.rs:72-75 | Reading a plus, an escape in either case, and a percent sign that no two digits follow |
| `QueryCodec.QueryIsReadByParts` | crates/openlv/src/url/v1.rs:72-75 | Empty parts stand for nothing, a part is cut at its first equals sign, one without has an empty value |
| `ConnectionUrl.RoundTripExact` | crates/openlv/src/url/v1.rs:32-125 | Printing then parsing a value gives it back if and only if it is well-formed: checked id, hash and key, normalised protocol, any server text |
| `ConnectionUrl.ReparseIsStable` | crates/openlv/src/url/v1.rs:32-125 | For every accepted URL, printing the result and parsing it again changes nothing |
| `ConnectionUrl.AcceptedIsWellFormed` | crates/openlv/src/url/v1.rs:32-111 | Parsing accepts only well-formed values |
| `ConnectionUrl.VersionDecides` | crates/openlv/src/url/v1.rs:55-65 | Only version one is accepted, with any zeros in front; any other number makes an otherwise valid URL an invalid one |
| `ConnectionUrl.AcceptedForm` | crates/openlv/src/url/v1.rs:32-66 | Every accepted URL is the prefix, sixteen id characters, an at sign, the version one, a question mark and a query |
| `ConnectionUrl.QueryDecides` | crates/openlv/src/url/v1.rs:71-111 | For any pairs in any order: accepted if and only if the last `h` and `k` are there and well-formed; the last of a repeated name counts, a missing protocol is mqtt, a missing server empty |
| `ConnectionUrl.PrintedForm` | crates/openlv/src/url/v1.rs:113-125 | The printed URL, character by character |
| `ConnectionUrl.HeadOfPrinted` | crates/openlv/src/url/v1.rs:14-16 | A printed URL matches the pattern with its own id, version and query |
| `HandshakeKeys.ReadHex` | crates/openlv/src/encryption/handshake/mod.rs:39-61 | The loop over two-digit chunks gives the key bytes and the lower-case text, and refuses anything but 32 hex digits |
| `HandshakeKeys.GeneratedKeyRoundTrip` | crates/openlv/src/encryption/handshake/mod.rs:63-71 | Reading the text of generated key bytes gives back the bytes and the same text |
| `HandshakeKeys.EqualTextsEqualKeys` | crates/openlv/src/encryption/handshake/mod.rs:32-36 | Keys compare equal by text exactly when their bytes are equal |
| `PeerCrypto.EncryptPayload` | crates/openlv/src/encryption/asymmetric/mod.rs:137-155 | Builds the payload as 32-byte key, 12-byte nonce and ciphertext in that order, or returns the cipher's error |
| `PeerCrypto.PayloadOpensForAddresseeOnly` | crates/openlv/src/encryption/asymmetric/mod.rs:117-189 | A payload opens for exactly the holders of the addressee's key that expect its sender or nobody in particular, so not when reflected; its sender can be read off |
| `PeerCrypto.PayloadLayout` | crates/openlv/src/encryption/asymmetric/mod.rs:137-155 | A payload is key, nonce and ciphertext in that order, under a key derived for `openlv/1 peer-key`, sender and receiver in that order |
| `PeerCrypto.EncryptSucceedsExactly` | crates/openlv/src/encryption/asymmetric/mod.rs:117-155 | Encrypting succeeds if and only if the peer's key has 32 bytes and can be shared |
| `PeerCrypto.MalformedIsRefused` | crates/openlv/src/encryption/asymmetric/mod.rs:157-189 | What is never opened: no base64, at most 44 bytes, another sender than expected, a key that cannot be shared, no text |
| `PeerCrypto.FrameReachesAddressee` | crates/openlv/src/signaling/wire/mod.rs:46-92 | Composed into a frame, parsed, filtered by role and opened, the message arrives for the right role and expected peer only |
| `PeerCrypto.InfoIsInjective` | crates/openlv/src/encryption/asymmetric/mod.rs:138-141 | The key-derivation context determines sender and receiver, in that order |
| `Wire.FrameRoundTrip` | crates/openlv/src/signaling/wire/mod.rs:46-88 | A payload parses to a frame if and only if it is that frame's composition |
| `Wire.HeaderOf` | crates/openlv/src/signaling/wire/mod.rs:10-44 | The two header characters of each prefix and recipient |
| `Wire.ExactlyOneRoleReads` | crates/openlv/src/signaling/wire/mod.rs:90-92 | Every composed frame is for exactly one of the two roles |

## Left out

- Signaling.SignalStateOrder: stated for atomic handlers; with split handlers it does not hold, and `LateWrites` states what does.
- Signaling.StateFixesRepeatedMessage: stated for atomic handlers; with split handlers it does not hold (`SplitHandlers.RepeatsAfterEncrypted`), and `LateRepeats` states what does.
- LinkStatus.ConnectedNeverRegresses: stated over atomic signaling handlers; `SplitStatus` has the exact statement for split ones.
- Recovery.RecoveryIsExact: one host, one client and atomic handlers; with split handlers a delayed flash can strand the host (`SplitHandlers.DelayedFlashStrandsHost`).
- At the fine grain, stopping a task is a cancellation that may hit any task at any time, which covers every real stop; the two task slots and the passing on of payloads are kept at the atomic grain only.
- Response.ReceiveResponse: the receiver's trace is given with its arrival times; a receiver that lags is one error item in it.
- SessionObject.SessionInner.WaitForLink: while it waits, nothing but the peer's close between its check and its write changes the session; the other writers are in `LinkStatus`.
- LinkWaiters.WaitEndsExactly: the 32 slots of a waiter's receiver are not counted; a waiter that lags past an ending state may miss it.
- Whether an end that gets to `HandshakePartial` late goes on to `Encrypted`: that depends on its peer too, and only the first step is characterised (`LateWrites.AdvancesExactly`).
- SessionSteps.ObservedPayloads: the log of shown payloads is kept whether or not anybody is subscribed at the moment.
- SessionObject.SessionInner.Close: the object's method has nothing running beside it; every interleaving is in `Lifetime`.
- SessionLock.SessionControl.WaitForTasks: joining is instant there; that tasks end before they are joined is in `Lifetime`.
- What a session task computes: in `SessionControl` and `Lifetime` it is what it does to its permit, its liveness and the status.
- Broker.Requests.Next: the wait for a notification is the result that asks the caller to call again.
- The `session not ready` refusal of `send_with_timeouts` before a call begins: it puts nothing on the wire.
- Session messages other than requests over signaling: no end of this program sends them, and `Exchange` has none.
- JSON arrays in place of objects, which the decoder also takes for a negotiation message.
- The error of a reply to a handle that is gone, and the error texts everywhere: only the kinds of errors are kept.
- Length checks of peer information, capabilities and base64 keys: one branch each; a message that fails them is `Invalid`.
- JSON text: messages are datatypes, and `NegotiationRelay` starts from parsed values.
- `parse_frame` on a first character of more than one byte: payloads are ASCII.
- Version digits beyond ASCII, and versions too long for the machine integer: both are refused like any version but 1.
- The ntfy and MQTT channels, WebSocket and HTTP, and the ntfy server URL pattern: network libraries.
- The WebRTC stack, its data channel and its teardown: the transport is what it answers; a transport set up again after its teardown is not modelled.
- The foreign-function glue around the broker, builders, wallet providers and examples: thin wrappers.
