# The session executor, modelled

A Dafny model of the part of the system that moves envelopes: the session executor with its
write-ahead causal log, its bounded indexes, its human gates, its effect checkpoint, its
speculation and its restart from the log; and four neighbours with a hard claim of their own:
the policy engine and its rate limiter, the out-of-band approval queue, the federation
bridge's cancel race, and the streaming sentence chunker.

`dafny verify dfyconfig.toml` checks everything.

## How it is built

- `Kernel.dfy` says what one arriving envelope and one restart do to a session, as functions on
  a state: volatile indexes, durable log and ledger, and a history of what was sent. A run is any
  sequence of arrivals and crashes. Whatever the outside decides (clock readings, whether the
  limiter admits, whether a seal, a send or a re-read succeeds, what an attestation hashes to, the
  roster in force) is a parameter of the step, asked by the number of the id being minted.
- `Session.dfy` is the executor in its own form: an object whose fields and indexes are edited in
  place. Each method is proved to compute the kernel's function on the object's whole state, so
  the run theorems below are about this code.
- `Indexes.dfy`, `Speculation.dfy`, `Budget.dfy`, `RateLimit.dfy`, `Approver.dfy`: the mutable
  parts, each a class against a value-level function; `BoundedFifo.dfy` is the bounded map they share.
- `Books.dfy`, `SeqNumbers.dfy`, `Effects.dfy`, `Gates.dfy`, `Chains.dfy`, `Resume.dfy`,
  `Restart.dfy`, `Answers.dfy`, `Cancel.dfy`, `Hops.dfy`, `Context.dfy`, `Deliveries.dfy`,
  `SpeculativeEdge.dfy`:
  one invariant each, kept by every function of the kernel, and what follows for whole runs.
- `LongChains.dfy`, `LongLogs.dfy`, `LongNumbers.dfy`, `LongCancels.dfy`, `LongRestarts.dfy`: the
  same runs with logs of any length, of which a restart reads only the first 1000 events: exactly
  which gates, hop numbers, suppressed chains, keys, chain roots and hops come through.
  `OncePerKey.dfy` and `OutOfReach.dfy`: what that does to at-most-once delivery and to cancels.
- `LateGates.dfy`: what still goes out for a cancelled chain. `Sends.dfy`: what one forward hands to
  the transport. `Attestations.dfy`: what a sealed effect cites.
- `Aims.dfy`, `Misreadings.dfy`, `RestartLimits.dfy`: where a restart reads the log otherwise than
  the session lived it, each with its condition and a run; `PlainSteps.dfy` helps follow such runs.
- `Signatures.dfy`: when one signature can be sealed twice. `Streams.dfy`: speculation over a whole
  session instance, and when two speculating edges share one stream.
- `Policy.dfy`, `Graph.dfy`, `Wiring.dfy`: authorization, the graph document, and the edges a
  session is wired with.
- `Why.dfy`, `ApprovalQueue.dfy`, `Relay.dfy`, `Chunker.dfy`: the neighbours.

## What the theorems ask of the outside

- Envelope ids are unique and a client or skill never picks one of the kernel's. Clients send what
  they like; a skill may emit anything, any number of times, but cites only work it was handed or a
  cancel it was passed (`Chains.Honest`).
- Restart theorems: no confirm_request comes from outside, no two edges join the same endpoints,
  and the log has at most 1000 events at each crash. `Misreadings.WaitedForIff` says what happens
  without the first, `LongRestarts.WhatARestartKeeps` exactly what survives without the last.
  Cancelled chains survive when cancels name the client's own messages or deliveries to skills
  (`Aims.CancelReadAlikeIff` is exact) and no edge speculates (`Misreadings.AbandonReadBackIff`).
- Chain theorems: the causal index, the cancelled set and, for the hops, the in-flight index have
  not filled up. For the hops, and for what a cancel is taken to name, no effect is refused for want
  of a seal.
- Speculation over an instance: the index of streams is not full when a message arrives, and every
  destination is filed under its source, as wiring does.
- Signatures spent once, and deliveries made once: every data envelope carries an idempotency key,
  and for the first a schema, as ingress demands (`kernel/internal/channel/envelope.go:103-126`),
  and the dedup window has room for the key.
- A manifest's type is motor exactly when its capability is in the `motor` tree.

Where the code and its comments part, the model follows the code. `resumeFromLog` is described as
restoring what the live run held, and asks the store without a limit, which returns the oldest
1000 events (`kernel/internal/store/store.go:761-764`, `kernel/internal/seglog/seglog.go:791-793`).
A gate on a speculating edge is never asked (`kernel/internal/executor/session.go:561-568`).
`specIndex` keys a stream by root and source without the destination
(`kernel/internal/executor/session.go:587`), so two speculating edges of one endpoint share it.
An approval binds the held envelope and not the gate (`kernel/internal/approver/approver.go:147-179`),
so one signature can open two. `specIndex.resolve` forgets a stream only if something was guessed on it
(`kernel/internal/executor/speculation.go:163-165`).

## Model

| member | source | states |
|---|---|---|
| `Restarts.RestartForgetsNothing` | kernel/internal/executor/resume.go:21-139 | over every honest run whose log can still be read whole, the session rebuilt from the log has exactly the pending gates of the one that crashed, refuses every idempotency key it refused, suppresses every chain it suppressed, indexes every skill delivery under its true root, and gives whatever arrives next the same root |
| `LongRestarts.WhatARestartKeeps` | kernel/internal/executor/resume.go:21-139 | over every honest run, whatever the length of its log and of the logs it crashed on, a restart keeps exactly: the gates asked among the first 1000 events and not answered there, the keys data there carries, the chains a cancel there names, the chain of each delivery there and of no later one, and as work in flight the places data there went |
| `LongRestarts.KeyForgottenIff` | kernel/internal/executor/resume.go:100-103 | over every run a key refused now is on record, and is accepted again after a restart iff every data entry carrying it lies past the first 1000 events |
| `LongRestarts.ResentIff` | kernel/internal/executor/session.go:520-522 | a message sent again after a restart is dropped as a duplicate iff data with its key is among the first 1000 events |
| `OutOfReach.OneEffectTwice` | kernel/internal/store/store.go:761-764 | a run in which a message logged past the first 1000 events is sent again after a crash and its one ungated effect is sealed twice and sent twice |
| `OncePerKey.DeliveredTwiceOnlyOutOfReach` | kernel/internal/executor/session.go:520-522 | over every honest run with keys on its data and room in the dedup window, crashes on logs of any length included, data that needs no gate reaches one place twice for one message only if the log has more than 1000 events and none of the first 1000 carries the message's key |
| `LongRestarts.WorkReadBack` | kernel/internal/executor/resume.go:45-63 | after a restart a skill delivery has its chain's root iff it is among the first 1000 events, and no root otherwise |
| `LongRestarts.LateCancelReachesIff` | kernel/internal/executor/session.go:667-689 | a cancel of R after a restart asks exactly the places R's data went among the first 1000 events, and silences what a skill then says on a delivery of R's chain iff that delivery is among them |
| `OutOfReach.CancelMissesTheChain` | kernel/internal/executor/session.go:526-537 | a run in which a chain is cancelled after a crash and a skill's answer on work handed out past the first 1000 events is delivered all the same |
| `LongRestarts.LoggedButNeverDelivered` | kernel/internal/executor/session.go:512-522 | a crash right after an arrival is logged costs its deliveries for good: its key is refused from then on |
| `LongChains.TruthfulInEveryRun` | kernel/internal/executor/session.go:512-571 | over every honest run, crashes on logs of any length included, the log stays honest: an id stands for one thing, and what belongs to a chain cites something of it |
| `Restarts.GatesAreLinear` | kernel/internal/executor/session.go:840-932 | at every boundary of every honest run, crashes included, no gate was opened twice or answered twice, and gates opened = pending + released + refused |
| `Deliveries.DeliveredAsEmitted` | kernel/internal/executor/session.go:693-731 | in every run each delivery, released by a gate or not, carries an envelope on record: its kind, schema and, off speculating edges, its content, the key derived from its key, and a deadline no later than its own |
| `Answers.AnswerWorthOneDelivery` | kernel/internal/executor/session.go:883-932 | a gate is worth at most one delivery and one ledger entry however often it is answered or the session restarted, a delivery only if it was released, and a refused gate is never released |
| `Effects.NoUnauthorizedEffect` | kernel/internal/executor/session.go:149-200 | in every run, data sent to a motor skill was not denied by the first matching rule and went either over an edge of the graph that policy turned into this very destination and that the node itself left ungated (allowed, or waived by a graph it lets waive, unpublished), or because an approving answer released exactly that held envelope to exactly that destination |
| `Effects.SealBeforeSend` | kernel/internal/executor/session.go:767-804 | under on_seal_failure: refuse every effect sent carries the receipt of an entry sealed for it alone, marked gated iff its edge is and waived iff the waiver is why it is not; distinct sends carry distinct receipts |
| `Effects.SignedApprovalIntegrity` | kernel/internal/executor/session.go:883-1028 | where policy requires signatures, every gated, delivered entry carries the approval of the answer that released that effect: it says approve, binds the held envelope, covers every required label, and its operator was enrolled under that key and unrevoked when it was answered |
| `Effects.SealedButDropped` | kernel/internal/executor/session.go:767-808 | the converse of seal-before-send fails: an effect is recorded as delivered and received by nobody iff its deadline had passed or the transport refused it; in the first case nothing is tried, in the second the client is told |
| `Effects.WhatApproves` | kernel/internal/executor/session.go:951-994 | a gate opens on an answer iff it says approve and is either unsigned under a policy that allows that, or signed by someone enrolled, over this envelope, with every required label, saying approve |
| `Effects.SealCarriesItsOwnAnswer` | kernel/internal/executor/session.go:1016-1028 | a release is sealed with its own answer's approval iff that answer was signed or no earlier signature for the same held envelope is still parked |
| `Effects.ApprovalOutlivesItsRelease` | kernel/internal/executor/session.go:905-911 | a signed release leaves its signature parked iff there is no ledger, the delivery is no effect, or the rate limiter or the context budget refuses it |
| `Signatures.OneSignatureTwoGatesIff` | kernel/internal/approver/approver.go:147-179 | a signed answer that opens one gate opens another iff both hold the same envelope: a signature binds neither gate nor destination |
| `Signatures.OneSignatureSealsTwo` | kernel/internal/executor/session.go:883-932 | a run in which one signature, given to both gates an envelope waits at, is sealed in two delivered entries |
| `Signatures.SignaturesSpentOnce` | kernel/internal/executor/session.go:883-1028 | where signatures are required and no endpoint has two gated destinations that act on the world, no two gated, delivered entries of an orderly run, crashes included, share their approval or the envelope they release |
| `Signatures.SpentOnceIff` | kernel/internal/executor/session.go:883-1028 | with a ledger and someone able to sign, an absent payload having no bytes: every orderly run seals each signature at most once iff no endpoint has two gated destinations that act on the world |
| `Books.RecordIsOrdered` | kernel/internal/executor/session.go:512-516 | in every run each kernel-written log entry cites an earlier entry, and every envelope sent was logged first |
| `SeqNumbers.HopNumbersRise` | kernel/internal/executor/resume.go:65-109 | over any number of crashes and resumes the numbers sent on a hop strictly increase, although refused deliveries consume numbers that are never logged |
| `Chains.RootIsTrue` | kernel/internal/executor/session.go:360-368 | while the causal index has room, the root the kernel looks up for anything that arrived is the client message found by following cause ids back through the log |
| `Chains.RouteTraced` | kernel/internal/executor/session.go:745-751 | routing any honest envelope keeps the causal index equal to the log's chains |
| `Cancels.CancelReachesTheChain` | kernel/internal/executor/session.go:526-537 | once a cancel naming client message R, or a delivery made for it, is handled, nothing but an answered gate is delivered for R's chain and no gate is opened on it for the rest of the run, through every crash, even if R arrives only afterwards |
| `LateGates.OnlyOldGatesRelease` | kernel/internal/executor/session.go:883-932 | the rest, exactly: after that cancel, through every crash, an arrival sends a delivery for R's chain iff it approves a gate that held something of the chain when the cancel came and holds it still, and neither rate limit, budget, sealing policy nor deadline stops it |
| `LateGates.AnswerSendsIff` | kernel/internal/executor/session.go:883-932 | an answer sends a delivery iff it approves a waiting gate and nothing stops the forward, whatever is cancelled, and then the held one to the held destination |
| `LateGates.ApprovedAfterTheCancel` | kernel/internal/executor/session.go:883-932 | an honest run in which a delivery of a cancelled chain goes out because its gate is approved after the cancel |
| `Cancels.RouteSilent` | kernel/internal/executor/session.go:512-571 | one more arrival of any kind sends nothing and writes no delivery for a suppressed chain, apart from what a gate answer releases |
| `Hops.CancelAsksEveryHop` | kernel/internal/executor/session.go:667-689 | a cancel asks each skill the chain was handed to since it was last cancelled exactly once, under the cause of the latest delivery made to it, and nobody else; a session rebuilt since that cancel counts, of what it read back, everyone the chain's data was ever handed to |
| `Hops.RebuiltHops` | kernel/internal/executor/resume.go:65-81 | the in-flight index rebuilt from a log holds, per chain, exactly the destinations its data is on record for from the first event on, each with the latest cause, cancelled chains included |
| `Hops.SecondCancelAsksNobody` | kernel/internal/executor/session.go:667-689 | naming the same chain again asks nobody unless a gate was answered in between |
| `Hops.HopsAreTheLatest` | kernel/internal/executor/causal.go:72-137 | a place is among a chain's hops iff work of the chain was delivered there since, with the cause of the latest such delivery |
| `Hops.TrackedInEveryRun` | kernel/internal/executor/causal.go:96-137 | over every honest run, crashes included, the in-flight index equals, for every chain, what the log says was delivered since its last cancel or, rebuilt after it, what was read back and delivered since |
| `ContextRuns.BudgetHolds` | kernel/internal/executor/budget.go:67-105 | a session instance never hands skills more than a positive context_budget, summing floor(bytes/4) over every data delivery |
| `ContextRuns.RefusalIsPermanent` | kernel/internal/executor/budget.go:77-105 | once the counter has passed the budget no data reaches any skill until the session is rebuilt |
| `SpeculativeEdges.PartialOnTheEdge` | kernel/internal/executor/session.go:587-600 | a partial makes one forward, of the stream's newest guess, and leaves the index as the stream model does |
| `SpeculativeEdges.FinalOnTheEdge` | kernel/internal/executor/session.go:602-620 | a final forwards nothing when the guess stands; otherwise it abandons exactly the stale guesses and forwards the whole |
| `LongLogs.GatesAtARestart` | kernel/internal/store/store.go:761-764 | in every run of any length, whatever logs it crashed on: a pending gate is pending after the next restart, on the same held delivery, iff its question is among the first 1000 events; an answered gate is pending again iff its question is and its first answer is not |
| `LongLogs.PendingReturnsIff` | kernel/internal/executor/resume.go:111-136 | the first half, for any state such a run reaches |
| `LongLogs.AnsweredReturnsIff` | kernel/internal/executor/resume.go:96-98 | the second half, for any state such a run reaches |
| `LongLogs.SecondReleaseIff` | kernel/internal/executor/session.go:883-932 | after a restart one approving answer releases an answered gate a second time iff its question is among the first 1000 events and its first answer is not; otherwise no gate moves |
| `LongLogs.AnsweredTwiceOnlyOutOfReach` | kernel/internal/store/store.go:761-764 | over every run no gate is carried out twice but one whose question is among the first 1000 events and whose first answer is not |
| `LongNumbers.NumberRepeatsIff` | kernel/internal/executor/resume.go:65-109 | over every run, whatever logs it crashed on, the number a restarted session next stamps on a hop is not above one already sent iff something numbered was sent on the hop past the first 1000 events |
| `LongNumbers.NextNumberRisesIff` | kernel/internal/executor/resume.go:105-109 | a restart numbers on from the highest number it reads for the hop, above all the hop was sent iff none of those is higher |
| `LongNumbers.NumbersRiseWhileCovered` | kernel/internal/executor/resume.go:65-109 | however long the logs crashed on, the numbers sent on a hop strictly increase so long as at each crash every number sent could be read back |
| `LongCancels.SuppressedAfterRestart` | kernel/internal/executor/resume.go:82-94 | whatever the length of the log, a restart suppresses exactly the chains that a cancel among the first 1000 events names when read back |
| `LongCancels.RevivedIff` | kernel/internal/store/store.go:761-764 | over every honest run, whatever logs it crashed on, a restart revives a chain suppressed live iff every cancel on record that names it lies past the first 1000 events |
| `LongCancels.SuppressedIsNamed` | kernel/internal/executor/resume.go:82-94 | while cancels are well aimed, no edge speculates and each crash read the whole log, a suppressed chain is named by a cancel on record |
| `RestartLimits.AnsweredTwice` | kernel/internal/store/store.go:761-764 | such a double release exists: a run with the question as event 1000, a crash after its answer, and the same held delivery released again |
| `Misreadings.WaitedForIff` | kernel/internal/executor/resume.go:96-136 | what any restart waits for, whoever asked: exactly the questions among the first 1000 events, not answered among them, that cite an entry among them whose source has the gated destination they name |
| `Misreadings.ForgedQuestionBecomesAGate` | kernel/internal/executor/resume.go:96-136 | a run in which an outside confirm_request opens no gate live and is a second pending gate for the held delivery after a crash |
| `Aims.CancelReadAlikeIff` | kernel/internal/executor/resume.go:82-94 | over every honest run with room in the causal index, crashes included, the live session takes a cancel to name the chain it will name when read back iff it does not name, among what was logged since the last rebuild and belongs to a chain, a reply delivered to the client, something a skill emitted, or a note that a guess was superseded |
| `Aims.KeyedInEveryRun` | kernel/internal/executor/session.go:745-751 | the live causal index gives each id exactly the root a restart would for what was logged before the last rebuild, and since then the chain root of numbered deliveries and nothing else |
| `Misreadings.CancelOfAReplyIsLost` | kernel/internal/executor/resume.go:82-94 | an honest run in which a cancel naming a reply suppresses its chain while the session lives and no longer after a crash |
| `Misreadings.AbandonReadBackIff` | kernel/internal/executor/session.go:629-649 | giving up a guess suppresses live only what was done on it; read back it suppresses the chain R iff the guess went to a skill and belongs to R |
| `Misreadings.WrongGuessSilencesTheChain` | kernel/internal/executor/session.go:602-620 | an honest run in which a wrong guess leaves its chain alive, and a crash then suppresses it |
| `RestartLimits.SpeculationSkipsTheGate` | kernel/internal/executor/session.go:561-568 | an edge with a human gate holds its delivery iff it does not speculate |
| `RestartLimits.WiredToSkip` | kernel/internal/executor/session.go:149-200 | wiring produces such an edge iff policy allows speculation, a gate is wanted by policy or the graph, and the skill is not motor |
| `Resumes.ReplayRebuilds` | kernel/internal/executor/resume.go:45-63 | replaying a log gives everything that arrived and every skill delivery its root in the log |
| `Resumes.MirroredIsPending` | kernel/internal/executor/resume.go:111-136 | the questions left open in the log lead back to exactly the deliveries that were held |
| `Resumes.ReplayedWindow` | kernel/internal/executor/resume.go:100-103 | the rebuilt dedup window refuses exactly the keys of the data in the log: those processed, and also the kernel's own hop keys |
| `Resumes.CancelAims` | kernel/internal/executor/session.go:667-674 | the live session resolves a cancel to the chain the log says it names |
| `Resumes.ReplayedCancel` | kernel/internal/executor/resume.go:82-94 | so does the replay |
| `Resumes.RebuiltCancelled` | kernel/internal/executor/resume.go:82-94 | a log read whole suppresses a chain iff some cancel in it names that chain when read back |
| `Resumes.NamesBack` | kernel/internal/executor/resume.go:82-94 | a cancel of a client message or of a skill delivery names, read back, the chain it named live |
| `Restarts.SameRoots` | kernel/internal/executor/resume.go:52-63 | a restart looks up the same root for whatever arrives next |
| `Sessions.Session.constructor` | kernel/internal/executor/session.go:215-265 | a new session has every index empty at its bound and its durable state from the store |
| `Sessions.Session.Route` | kernel/internal/executor/session.go:512-571 | the step-by-step code computes the kernel's routing step on the whole state |
| `Sessions.Session.Propagate` | kernel/internal/executor/session.go:527-571 | suppression, attestation and the loop over destinations, in order |
| `Sessions.Session.Forward` | kernel/internal/executor/session.go:693-808 | rate check, number, budget, tracking, seal, expiry, log and send compute the kernel's forward |
| `Sessions.Session.Stamp` | kernel/internal/executor/session.go:714-731 | the hop's next number, a new id, the hop key and the inherited deadline |
| `Sessions.Session.Track` | kernel/internal/executor/session.go:743-751 | the causal and in-flight indexes learn the delivery under the source's root |
| `Sessions.Session.ChargeContext` | kernel/internal/executor/budget.go:92-105 | only data into a skill is charged |
| `Sessions.Session.SealEffect` | kernel/internal/executor/session.go:1078-1118 | an effect is sealed with the chain's attestations and the parked approval, which is consumed either way |
| `Sessions.Session.TakeApproval` | kernel/internal/executor/session.go:1016-1028 | hands back the approval once |
| `Sessions.Session.Deliver` | kernel/internal/executor/session.go:782-808 | expired data is logged without payload and not sent; everything else is logged, then sent, and a failed send is reported |
| `Sessions.Session.EmitError` | kernel/internal/executor/session.go:1169-1181 | an error is minted, logged and sent to the client |
| `Sessions.Session.FindRoot` | kernel/internal/executor/session.go:360-368 | a client message is its own root; anything else inherits its cause's |
| `Sessions.Session.HoldForApproval` | kernel/internal/executor/session.go:840-881 | the delivery is parked under the id of the question that is logged and sent |
| `Sessions.Session.Judge` | kernel/internal/executor/session.go:951-994 | the verdict on an answer |
| `Sessions.Session.ResolveGate` | kernel/internal/executor/session.go:883-932 | a pending gate is taken, its answer logged, and the verdict carried out; an answer to anything else is ignored |
| `Sessions.Session.SealDenial` | kernel/internal/executor/session.go:1130-1155 | a refused effect is recorded with the refusal's approval |
| `Sessions.Session.AbandonSpeculation` | kernel/internal/executor/session.go:629-649 | the guess is marked cancelled and its skill told |
| `Sessions.Session.ForwardSpeculatively` | kernel/internal/executor/session.go:579-621 | fold, guess or resolve, computing the kernel's step |
| `Sessions.Session.HandleCancel` | kernel/internal/executor/session.go:667-689 | the chain is resolved, marked, and its hops taken and asked |
| `Sessions.Session.AskHops` | kernel/internal/executor/session.go:679-688 | one cancel per hop whatever order the map yields |
| `Sessions.Session.RecordAttestation` | kernel/internal/executor/session.go:1047-1063 | a well-formed, stored attestation is bound to the chain |
| `Sessions.Session.ResumeFromLog` | kernel/internal/executor/resume.go:21-139 | the replay loop and the rebuilding of the pending gates compute the kernel's resume |
| `Sessions.Session.FindGate` | kernel/internal/executor/resume.go:129-136 | the first gated destination with the recorded name |
| `BoundedFifo.AgreesUntilEviction` | kernel/internal/executor/causal.go:34-258 | under any puts and removals an index keeps its order list duplicate-free, equal to its key set and within its bound, never invents an entry, and is the plain map until that map outgrew the bound |
| `BoundedFifo.WindowIsLastRecorded` | kernel/internal/channel/envelope.go:150-179 | after any calls the window holds exactly the last max keys recorded as fresh, in order |
| `BoundedFifo.NotForgottenEarly` | kernel/internal/channel/envelope.go:150-179 | a recorded key is refused until max newer ones have been recorded |
| `Indexes.Dedup.Seen` | kernel/internal/channel/envelope.go:162-179 | reports whether the key is in the window, recording it and evicting the oldest; the empty key is never seen |
| `Indexes.CausalIndex.Set` | kernel/internal/executor/causal.go:45-60 | records or updates a root, evicting the oldest when full |
| `Indexes.CausalIndex.Lookup` | kernel/internal/executor/causal.go:62-70 | the recorded root |
| `Indexes.InFlightIndex.Record` | kernel/internal/executor/causal.go:96-114 | the latest delivery per destination of a chain; the client is never recorded |
| `Indexes.InFlightIndex.Take` | kernel/internal/executor/causal.go:118-137 | hands back a chain's hops and forgets them |
| `Indexes.CancelledSet.Add` | kernel/internal/executor/causal.go:232-248 | adds a root once, evicting the oldest when full |
| `Indexes.CancelledSet.Has` | kernel/internal/executor/causal.go:250-258 | membership; the empty root is never cancelled |
| `Indexes.AttestIndex.Add` | kernel/internal/executor/causal.go:177-203 | adds a distinct hash to a chain up to the cap, marking truncation when one is dropped |
| `Indexes.AttestIndex.Cited` | kernel/internal/executor/causal.go:207-218 | a chain's hashes and whether any was dropped |
| `Indexes.AttestationsComplete` | kernel/internal/executor/causal.go:139-218 | a chain cites all distinct hashes added, or the first maxPerRoot of them with truncated true iff one was dropped |
| `Attestations.SealedCitesItsInstance` | kernel/internal/executor/session.go:1047-1118 | while the index has room, what a forward seals for a chain cites all the distinct hashes attested for the chain since the session was started or rebuilt, or the first 16 |
| `Attestations.RestartForgetsAttestations` | kernel/internal/executor/resume.go:21-139 | what is sealed right after a restart cites no attestation, whatever its chain had |
| `Indexes.AttestStep` | kernel/internal/executor/causal.go:177-203 | adding to one chain changes that chain as one addition and no other chain that stays tracked |
| `Policies.WildcardIsSegmentPrefix` | kernel/internal/executor/policy.go:416-429 | a pattern prefix.* covers exactly the capabilities whose dotted segments begin with the prefix's |
| `Policies.FirstMatchWins` | kernel/internal/executor/policy.go:392-406 | the first matching rule decides; with none, effects get the default and the rest are allowed |
| `Policies.NeverLaxer` | kernel/internal/executor/policy.go:467-500 | combining with the graph's gate never yields less than the node's own decision, save by the waiver it grants |
| `Policies.MotorIsEffect` | kernel/internal/executor/policy.go:408-414 | for a manifest whose type is its capability's tree, acting on the world by type and by capability are one test |
| `RateLimits.RateLimiter.CheckRate` | kernel/internal/executor/policy.go:509-519 | only a capability with a positive limit is counted |
| `RateLimits.RateLimiter.AllowRate` | kernel/internal/executor/policy.go:529-552 | one call against the fixed-window counters |
| `RateLimits.RateBound` | kernel/internal/executor/policy.go:509-552 | with a clock that never steps back and at most 1025 limited capabilities, an interval admits at most per_minute for each minute begun plus per_minute, hence at most 2 * per_minute in any minute |
| `RateLimits.LimitForgottenIff` | kernel/internal/executor/policy.go:529-552 | a capability over its limit is admitted again after another's call iff its minute is over or that call cleared a full map |
| `Wiring.WireSession` | kernel/internal/executor/session.go:266-299 | the wiring loop builds the routes, stopping at the first refused edge |
| `Wiring.WiredIsAuthorized` | kernel/internal/executor/session.go:266-299 | every wired destination is what policy made of an edge of the graph, filed under its source |
| `Wiring.MotorDestination` | kernel/internal/executor/session.go:149-200 | a wired motor destination never speculates, is not denied, and is gated or ungated by the node's own right |
| `Graphs.ParseGraph` | kernel/internal/executor/ir.go:101-162 | accepts exactly the well-formed documents |
| `Graphs.AcceptedEndpoint` | kernel/internal/executor/ir.go:98-143 | an accepted endpoint splits at its only dot into a ref and a port without separators |
| `Graphs.EndpointKeyInjective` | kernel/internal/executor/session.go:714-714 | ref.port names one endpoint, since a ref has no dot |
| `Graphs.PathKeyInjective` | kernel/internal/executor/session.go:720-723 | for accepted endpoints, equal-length hop paths have the same idempotency key iff the origin key and every ref and port agree |
| `Graphs.UnequalLengthsCollide` | kernel/internal/executor/session.go:720-723 | the equal-length condition is needed: a path and a longer one can share a key |
| `Approvers.Registry.Enroll` | kernel/internal/approver/approver.go:75-103 | a valid, unclaimed key is stored under the name and the cache reloaded |
| `Approvers.Registry.Revoke` | kernel/internal/approver/approver.go:107-113 | an enrolled operator is marked revoked in the store and the cache reloaded |
| `Approvers.Registry.Reload` | kernel/internal/approver/approver.go:59-72 | the cache becomes what is stored, if it can be read |
| `Approvers.KeysStayUnique` | kernel/internal/approver/approver.go:75-103 | while re-reads succeed, no two unrevoked operators ever share a key |
| `Approvers.StaysUniqueIff` | kernel/internal/approver/approver.go:75-103 | from stored rows with unique keys, one step leaves them unique iff it enrolls nobody (refused, or not saved) or no other unrevoked stored row holds the key |
| `Approvers.AlwaysUniqueIff` | kernel/internal/approver/approver.go:75-113 | over any run, whatever saves and re-reads fail, stored keys stay unique throughout iff every step was of that kind when taken |
| `Approvers.StaleCacheSharesAKey` | kernel/internal/approver/approver.go:86-102 | a run that breaks it: after a failed re-read two operators are enrolled under one key |
| `Budgets.ChainDeadlineIsLeast` | kernel/internal/executor/budget.go:27-42 | along any chain the deadline is the least one declared, and none iff none was |
| `Budgets.ContextLedger.Charge` | kernel/internal/executor/budget.go:77-85 | charges floor(bytes/4) against a positive budget and reports an excess |
| `Speculation.SpecIndex.Fold` | kernel/internal/executor/speculation.go:137-143 | folds one payload into the stream |
| `Speculation.SpecIndex.Speculate` | kernel/internal/executor/speculation.go:147-154 | notes what was guessed and which delivery guessed it |
| `Speculation.SpecIndex.Resolve` | kernel/internal/executor/speculation.go:159-175 | a hit iff something was guessed with the final's content; on a miss the stale deliveries |
| `Speculation.FoldIsConcat` | kernel/internal/executor/speculation.go:203-221 | std/text@1 partials fold to the concatenation of their deltas |
| `Speculation.FoldIsLast` | kernel/internal/executor/speculation.go:203-221 | any other schema folds to its last value |
| `Speculation.SpeculationPreservesMeaning` | kernel/internal/executor/speculation.go:137-301 | one turn on a fresh key, each message folded once: hit or miss, the last payload handed on has the content of the whole fold; a hit iff the last guess already had it; on a miss the stale list is exactly the guesses made |
| `Streams.EdgeMoves` | kernel/internal/executor/session.go:579-621 | what the kernel forwards and gives up on a speculating edge for one message is exactly what the stream hands on and finds stale |
| `Streams.MeaningKept` | kernel/internal/executor/session.go:539-621 | in any session instance, other streams interleaved, on the one speculating destination of an endpoint: after a turn the last payload handed to forward has the content of all the producer said for the chain; one forward per partial and one more iff the guess missed; on a miss exactly the guesses made are given up |
| `Streams.WiredMeaningKept` | kernel/internal/executor/session.go:215-299 | the same for any graph as wired and any session instance, new or rebuilt after any run |
| `Streams.RouteSends` | kernel/internal/executor/session.go:539-571 | routing one message hands the transport at most one delivery per destination, of exactly what that destination's stream hands on, or of the message itself off a stream |
| `Streams.EdgeSentIff` | kernel/internal/executor/session.go:539-621 | on a speculating edge nothing stands in the way of, a delivery is recorded as sent iff the stream hands something on, and it carries that |
| `Streams.MeaningKeptIff` | kernel/internal/executor/session.go:587-587 | from any state in which the endpoint can speak for a chain on a fresh stream: every later turn keeps its meaning on every speculating destination iff the endpoint has at most one |
| `Streams.TwoEdgesPartial` | kernel/internal/executor/session.go:587-600 | with two, a first partial t reaches the second edge as t+t |
| `Streams.TwoEdgesWhole` | kernel/internal/executor/session.go:602-620 | with two, a whole message u reaches the second edge as u+u, kept iff u is empty |
| `Streams.TwoEdgesFinal` | kernel/internal/executor/speculation.go:163-186 | with two, the first edge forgets the stream at a final and the second is handed the last delta alone |
| `Speculation.WhatATurnLeaves` | kernel/internal/executor/speculation.go:159-186 | a turn leaves the key fresh iff something was guessed in it |
| `Speculation.SecondWholeMessage` | kernel/internal/executor/speculation.go:159-165 | a second whole message on a key nothing was guessed on is folded onto the first; it is handed on unchanged iff that fold changes nothing |
| `Why.Focus` | kernel/cmd/aura/why.go:57-68 | the last error, or the last event when there is none |
| `Why.Walk` | kernel/cmd/aura/why.go:52-80 | on a causally ordered log the walk ends; it shows a chain of events each caused by the one before, from one with no recorded cause to the focus |
| `Why.WalkEndsOnSessionLogs` | kernel/cmd/aura/why.go:70-80 | the log of every honest run of any length in which arrivals cite only what is on record is causally ordered, and so is as much of it as is handed out |
| `Why.FocusReadIff` | kernel/internal/gateway/gateway.go:468-478 | only the first 1000 events are handed out, so the event explained is the log's last error, or its last event when there is none, iff the log has no more, or its last error is among them |
| `Why.WalkShowsTheRoot` | kernel/cmd/aura/why.go:70-80 | the chain shown passes through the client message the work belongs to |
| `Why.SelfCitationLoops` | kernel/cmd/aura/why.go:70-80 | an envelope citing itself keeps the walk going forever |
| `Why.WalkEndsIff` | kernel/cmd/aura/why.go:70-80 | for any events the walk ends iff it never comes back to an event it has shown |
| `Why.WalkEndsWithoutRing` | kernel/cmd/aura/why.go:70-80 | for any events the walk from the focus ends iff no ring of cause links is reachable from it in the log |
| `ApprovalQueue.Registry.Park` | kernel/internal/approvals/approvals.go:136-150 | a question is stamped and waits under its id, as the interleaved step does |
| `ApprovalQueue.Registry.Take` | kernel/internal/approvals/approvals.go:164-173 | whoever finds the question takes it away, as the interleaved step does |
| `ApprovalQueue.Registry.Drop` | kernel/internal/approvals/approvals.go:155-160 | a release removes the question, as the interleaved step does |
| `ApprovalQueue.Registry.List` | kernel/internal/approvals/approvals.go:180-193 | a permutation of the waiting questions, oldest first |
| `ApprovalQueue.Registry.Get` | kernel/internal/approvals/approvals.go:196-204 | the waiting question under an id |
| `ApprovalQueue.SortByRequest` | kernel/internal/approvals/approvals.go:187-191 | the in-place insertion sort permutes and orders by the time of asking |
| `ApprovalQueue.OneAnswerEach` | kernel/internal/approvals/approvals.go:136-177 | under every interleaving a channel carries at most one answer, is closed at most once and not before it, and an approving answer was an explicit resolve |
| `ApprovalQueue.ReleaseWins` | kernel/internal/approvals/approvals.go:155-177 | a release that finds its question waiting wins for good: nothing is ever delivered to it |
| `ApprovalQueue.SecondResolveIsNoOp` | kernel/internal/approvals/approvals.go:162-177 | a resolve changes nothing iff the question was already taken or given up |
| `Relays.RelayState.Track` | kernel/internal/fed/bridge.go:288-295 | a relay is tracked afresh; the empty id never is |
| `Relays.RelayState.SetRemote` | kernel/internal/fed/bridge.go:297-310 | the remote id is recorded and a cancel owed iff one came first |
| `Relays.RelayState.Cancel` | kernel/internal/fed/bridge.go:322-339 | the relay is marked and a cancel owed iff its remote id is known |
| `Relays.RelayState.Done` | kernel/internal/fed/bridge.go:312-316 | the relay is forgotten |
| `Relays.CancelsWritten` | kernel/internal/fed/bridge.go:272-345 | under every interleaving the wire cancels, written or owed, are one for all cancels before the remote id was learnt plus one per later cancel, and none if it never was |
| `Relays.OneCancelEach` | kernel/internal/fed/bridge.go:272-345 | cancelled once while tracked and learning its remote id, a relay emits exactly one wire cancel; uncancelled, none |
| `Relays.CancelAgain` | kernel/internal/fed/bridge.go:322-345 | repeating a cancel repeats the wire cancel iff the remote id is known |
| `Chunker.SplitPoint` | skills/sentence-chunker/main.py:64-79 | the first usable boundary from the floor on, or the last, or -1 iff there is none |
| `Chunker.RFindSpace` | skills/sentence-chunker/main.py:96-97 | the last space from a position on |
| `Chunker.Buffer.Ready` | skills/sentence-chunker/main.py:82-106 | nothing of a blank buffer; a boundary cut when there is one; something whenever the buffer is full or its producer quiet |
| `Chunker.Buffer.Cut` | skills/sentence-chunker/main.py:140-141 | takes a clause off the front, losing only whitespace |
| `Chunker.Skill.Flush` | skills/sentence-chunker/main.py:138-146 | the flush loop ends; what was emitted plus what is held is what was held, up to whitespace, and afterwards the buffer is blank or shorter than max_chars |
| `Chunker.Skill.Handle` | skills/sentence-chunker/main.py:109-146 | one message: conserved up to whitespace, final passed on exactly once; other producers keep their text, except those a final sweeps as stale, whose buffers go with what they hold |
| `Chunker.Skill.Drive` | skills/sentence-chunker/main.py:109-146 | any messages of any producers in turn leave a trace of such steps |
| `Chunker.ConservedIffNeverSwept` | skills/sentence-chunker/main.py:109-146 | over any interleaving of producers, everything passed on for one of them plus what is held for it is everything it sent, up to whitespace and in order, iff no sweep found it holding more than whitespace |

## Left out

- Cancels.CancelReachesTheChain: leaves out deliveries that a gate answer releases; `LateGates.OnlyOldGatesRelease` says exactly which those are.
- A crash in the middle of one routed envelope: a step is atomic. `LongRestarts.LoggedButNeverDelivered` says what the crash between the log entry and the deliveries costs.
- Why.WalkEndsOnSessionLogs: asks that arrivals cite only what is on record, because a client may cite anything and a self-citing envelope is enough to keep the walk from ending.
- Pins (`SetPins`, `answerFromPin`): a development affordance that re-enters routing and need not terminate.
- Validation of undo graphs, schema compatibility of edges and resolution of nodes to skills.
- The Merkle tree, receipts' contents, audits, witnesses and key succession: sealing is an append that succeeds or fails and yields the entry's position.
- Signatures: an arbitrary predicate on approvals. Hashes of attestations: an arbitrary function of their text.
- Failing log appends: the code logs the failure and goes on; here every append succeeds.
- Corrupt log rows and decoding: the log holds envelopes.
- Concurrency inside a session: each routed envelope is one step, as it is when one goroutine feeds a session. The queue and the bridge are modelled interleaved.
- JSON beyond what is inspected: control payloads have their own shape, and field names are matched exactly, not case-insensitively.
- Sixty-four-bit wrap-around of sequence numbers, token counts and deadlines.
- Effects of an abandoned guess downstream: which deliveries are named stale is proved, not that their descendants fall silent.
- A skill that cites the notice that its guess was superseded: such an envelope belongs to no chain here.
- The lane an envelope rides on (`qos`), except that a realtime payload is not logged.
- Chunker cancellation mid-flush, its clock (whether the producer is quiet is asked at each look) and Unicode: what counts as whitespace and where no cut may fall are parameters.
- Relays of the bridge beyond the cancel race: sockets, pooling, reply demultiplexing, and a local id tracked twice.
- Re-opening an approval question under an id already in use.
- HTTP surfaces, CLI output, projections, memory, planners, connectors and skills other than the chunker.
