# Colloq: verified model

Colloq is a small session-type compiler with a runtime. A global two-role
conversation graph is checked, projected into two endpoint machines, compiled to a
plan with a dense transition dictionary, and run by two asynchronous endpoints over
FIFO channels. This project models that chain in Dafny 4.11 and proves what the
documentation promises about it, over every conversation, every run and every
schedule. `dafny verify dfyconfig.toml` checks the whole project.

## Layout

| file | part of the system |
|---|---|
| `Basics.dfy`, `Order.dfy` | Option and Result; lexicographic orders |
| `Conversation.dfy`, `Acceptance.dfy`, `Validation.dfy` | the conversation graph, the diagnostics as conditions and as defects, the checker and its worklist search |
| `Trace.dfy` | frames, JSON payloads, the reference semantics of a trace |
| `Projection.dfy`, `Machine.dfy`, `Session.dfy` | projection, the endpoint machine, `send_and_record` and `receive_and_record` |
| `System.dfy`, `Agreement.dfy`, `Realisation.dfy` | two endpoints over the in-memory transport, with faults, and the theorems about every run |
| `WireTable.dfy`, `Plan.dfy`, `Codec.dfy` | the transition dictionary, compiled plans, the two wire codecs |
| `Transport.dfy`, `Simulation.dfy` | the memory transport and the fault injector as mutable objects, and the proof that machine and transport objects simulate the two-endpoint model |
| `Handshake.dfy` | the session preface exchange |
| `ClientServer.dfy` | what the two pairs of application loops share |
| `GenerateLoops.dfy`, `GenerateRuns.dfy`, `GenerateTheorems.dfy`, `GenerateTraces.dfy`, `GenerateForm.dfy`, `GenerateFaults.dfy` | the Generate client and server, their traces frame by frame, without and with faults |
| `Example.dfy`, `ExampleTable.dfy` | the example conversation and its transition dictionary |
| `DraftLoops.dfy`, `DraftRuns.dfy`, `DraftTheorems.dfy`, `DraftExample.dfy`, `Hex.dfy` | draft synchronisation |
| `Pointer.dfy` | JSON pointers |
| `SelfLoop.dfy` | a conversation in which a refused send is counted twice |

## How the pieces fit

`Machines.Machine` is the value an endpoint object holds; `Emit`, `Accept` and
`ObserveAt` say what one call does, and the class `EndpointMachine` is proved against
them. `Sessions.Perform` is one application call with whatever the transport answers.
`Systems.Step` computes that answer from two queues and two ends that may be closed,
and lets any call meet an injected failure, a renamed channel error or the size limit;
`Simulation` shows that machine objects over transport objects, wrapped by the fault
injector or bare, make exactly these steps.
The invariant `Systems.Inv` says that one side leads: its trace without the final
fault is the other side's trace followed by what is queued for it, the queue being a
path of the graph with one author and consecutive numbers. Everything about runs
follows from it, including the Generate and draft-sync results, where each loop only
adds what it keeps on its own. Those results end at what the loop methods return:
each side of a run is shown to be its loop, run against the answers its calls met.

Points where the code says less, or other, than one might expect:

- The traces of the two sides agree as read back from the wire. A payload of JSON
  null is sent as present and read as absent, so the traces are literally equal
  exactly when no null payload was sent (`Agreement.AgreementIsExactWithoutNull`,
  `Realisation.Realisability`, and the concrete `Example.NullPromptIsNotRealised`).
- A call that returns an error may have emitted before: the machine then stands one
  step of its own past its trace, and the equality of states and counters holds for
  endpoints whose calls have not returned an error (`Agreement.CommunicationSafety`,
  `Agreement.AgreementUnderFaults`, and the concrete `DraftExample.RefusedChoiceOverruns`).
- An envelope over 16 MiB is refused with an error that no conversation declares. On a
  reliable channel both pairs of loops reach their full result if and only if every
  envelope they send is within the limit (`GenerateForm.GenerateClosedForm`,
  `DraftTheorems.DraftSyncConserves`), and a session is established only with prefaces
  within 64 KiB (`Handshake.UnbrokenSessions`).
- A refused send on a state whose edge leads back to itself counts its step twice
  (`Sessions.SequenceCountsFrames`, and the concrete `SelfLoop.RefusedPingCountsTwice`).
- The hexadecimal decoder takes upper case and a leading plus sign, so encoding undoes
  decoding only on lower-case digits (`Hex.EncodeAfterDecode`).
- Parsing a built pointer path fails for the single empty name, because the path `/`
  is refused (`Pointers.ParseAfterBuild`).
- The checker asks that some terminal is reachable from the initial state, not from
  every state; deadlock freedom therefore promises a next step, not an end.

## Model

| member | source | states |
|---|---|---|
| Validation.Validate | src/lib.rs:203-368 | the checker reports exactly the codes whose conditions hold, which are exactly the defects of the conversation; the reachability codes only when nothing else is wrong; it accepts exactly the valid conversations |
| Acceptance.RaisedExactly | src/lib.rs:203-368 | each code is raised exactly by its defect, read off the format, roles, types, failures and states directly |
| Acceptance.ValidMeans | src/lib.rs:203-368 | an accepted conversation declares every message type and failure it uses, has no empty scope or label, and only known parties and targets |
| Validation.UniqueIds | src/lib.rs:370-393 | collects the non-empty ids and reports, in order, one diagnostic for every empty id and for every id listed before, and nothing else |
| Validation.ValidateFailureEdges | src/lib.rs:441-479 | reports undeclared failures, missing targets and edges that do not end in the terminal state of their failure, and exactly at the edges at fault |
| Validation.Search | src/lib.rs:486-501 | the worklist terminates with exactly the ids that some path of successors reaches, and knows whether one of them is terminal |
| Validation.ValidateReachability | src/lib.rs:481-521 | one CLQ0017, in order, for exactly the states that no path from the initial one reaches, then CLQ0018 exactly when no terminal has one |
| Validation.ClosedSetHoldsPaths | src/lib.rs:490-501 | a set closed under successors that holds the start holds every id a path reaches |
| Conversations.ValidIsSound | src/lib.rs:203-368 | what acceptance gives execution: two distinct roles, unique states, existing targets, failure edges into the terminal state of their failure |
| Traces.VerifyTrace | src/lib.rs:782-871 | accepts exactly the valid conversations and permitted traces, reports the state reached and its outcome, and otherwise names the first frame that is not permitted and the state it met |
| Traces.RunNormal | src/lib.rs:804-855 | payloads do not matter to the reference semantics: a trace read back from the wire means the same |
| Traces.FaultsAreObserved | src/lib.rs:803-804 | every fault in an accepted trace was observed by one of the roles |
| Projection.ProjectValidated | src/lib.rs:627-645 | one projection per role in the order of the roles |
| Projection.FindProjected | src/lib.rs:647-736 | looking up an id in a projection is projecting the state the global index holds for it, for every id |
| Projection.ProjectionIsClosed | src/lib.rs:429-435 | every edge of a projected endpoint leads to one of its own states, so the lookup that may not fail never fails |
| Machines.EndpointMachine.EmitData | src/runtime.rs:325-340 | sends only from a send state, stamps the envelope with the state and number it leaves and moves on; otherwise an error and no change |
| Machines.EndpointMachine.EmitSelect | src/runtime.rs:342-364 | the same for selections, for declared labels only |
| Machines.EndpointMachine.EmitCancel | src/runtime.rs:366-382 | the same for cancellations |
| Machines.EndpointMachine.AcceptEnvelope | src/runtime.rs:384-427 | moves on exactly when the envelope fields and the frame fit the current state, and is unchanged on every error |
| Machines.EndpointMachine.ObserveFailureAt | src/runtime.rs:299-323 | takes the declared failure edge of the named state and counts the step only if the machine still stands there |
| Machines.EmitIsStep | src/runtime.rs:325-382 | whatever a projected machine emits is a step of the global graph by its own role |
| Machines.AcceptIsStep | src/runtime.rs:384-427 | whatever it accepts is a step of the global graph by the other role |
| Machines.StepIsAccepted | src/runtime.rs:384-427 | conversely every correctly stamped step of the other role is accepted |
| Machines.StepIsEmitted | src/runtime.rs:325-382 | and every step of its own role with a payload can be emitted as that very frame |
| Machines.AcceptsExactly | src/runtime.rs:384-427 | an envelope is accepted if and only if version, conversation, identity, state and number agree and its frame is a step of the graph by the other role |
| Machines.AcceptErrors | src/runtime.rs:451-487 | the first field that disagrees names the error |
| Machines.EmitErrors | src/runtime.rs:325-382 | a call emits if and only if some frame of that kind and label is a step of the graph by the own role; otherwise it says which call was refused at which state |
| Sessions.SendAndRecord | src/runtime.rs:2123-2144 | records the sent frame, or aborts and records the declared fault at the state the envelope left, or fails with the trace untouched |
| Sessions.ReceiveAndRecord | src/runtime.rs:2146-2167 | records the accepted frame, or aborts and records the declared fault, or fails with the trace untouched |
| Sessions.ReceiveErrorBecomes | src/runtime.rs:201-217 | each kind of transport error on a receive is recorded as the failure it stands for, along the edge of the current state |
| Sessions.SendErrorBecomes | src/runtime.rs:201-217 | the same for a send, along the edge of the state that the envelope left |
| Sessions.OtherErrorsEnd | src/runtime.rs:201-217 | every other error is returned with nothing recorded |
| Sessions.PerformIsStep | src/runtime.rs:2123-2167 | every call that returns Ok keeps machine and trace in step with the graph, records one frame, and never follows a fault |
| Sessions.SessionsRefineConversation | src/runtime.rs:294-427 | for every transport behaviour, a trace recorded through Ok results is accepted by the reference semantics with the machine's final state, completeness, success and failure, and has at most one fault, at its end |
| Sessions.SequenceCountsFrames | src/runtime.rs:299-323 | the counter equals the number of recorded frames, plus one exactly after a refused send on an edge back to its own state |
| Systems.ReachableInv | src/runtime.rs:788-819 | in every run, with any faults, one side leads and the queue is what the other side has yet to read; each machine stands where its trace leads, or has stopped one step of its own further |
| Systems.FollowerReceives | src/runtime.rs:384-427 | a side with mail stands where the other role sends: it accepts the head and can emit nothing |
| Agreement.CommunicationSafety | src/runtime.rs:325-487 | at most one queue holds anything, its contents are the numbered path from the reader's state to where the writer stands, and accepting the head never fails; with empty queues both stand at the same state and number; a writer whose call returned an error may stand one own step further |
| Agreement.AgreementUnderFaults | src/runtime.rs:2123-2167 | under aborts, drops and injected failures each trace has at most one fault, at its end; without it one trace is a prefix of the other as read from the wire, the excess authored by its own side; each trace is accepted and its machine stands where it leads, or has stopped one own step further |
| Agreement.AgreementIsExactWithoutNull | src/runtime.rs:1605-1624 | the common part of both traces is literally equal if and only if none of its frames carries a null payload |
| Agreement.DeadlockFreedom | src/runtime.rs:276-427 | a reached configuration without faults is finished, at one terminal state with empty queues, exactly when no call can succeed |
| Realisation.Realisability | src/lib.rs:782-855 | a fault-free trace is recorded identically on both sides by some run if and only if the reference semantics accepts it and its data frames carry a payload other than null |
| WireTables.Insert | src/plan.rs:249-311 | insertion into the ordered set of transitions keeps it strictly sorted and adds just that element |
| WireTables.DeriveWirePlan | src/plan.rs:248-342 | lists exactly the transitions of the endpoints, ascending by state, variant and fields, character by character, numbered from 1, and fails exactly above 65535 of them |
| WireTables.TableIsAscending | src/plan.rs:317-341 | a table is exactly a listing of its transitions in that order |
| Orders.StrLessIsBefore | src/plan.rs:249 | the order of strings: a proper prefix, or the smaller character at the first difference |
| WireTables.TableUnique | src/plan.rs:317-341 | a transition set has only one such table |
| WireTables.EachEndpointContributesAll | src/plan.rs:252-312 | for a valid conversation each endpoint alone contributes the whole transition set |
| WireTables.CountsTransitions | src/plan.rs:252-312 | the set has as many elements as there are sends, cancellations and branch labels |
| Plans.CompiledTableIsCanonical | src/plan.rs:99-118 | two compiled conversations that list the same states in any order get the same table, as long as the count of sends, cancellations and labels |
| Plans.VerifyEndpoint | src/plan.rs:356-432 | accepts exactly the endpoints with the right format and conversation, valid and unique ids, existing targets and known peers |
| Plans.EndpointOkMeans | src/plan.rs:356-432 | an endpoint is accepted exactly when its format, names, unique states, targets and the roles its states face are in order |
| Plans.ValidIdMeans | src/plan.rs:490-500 | an identifier is a lower-case letter followed by lower-case letters, digits, underscores, dots and hyphens |
| Plans.ValidSha256Means | src/plan.rs:502-508 | a digest is its prefix and 64 lower-case hexadecimal digits |
| Plans.Verify | src/plan.rs:120-168 | accepts exactly the well-formed plans that carry their own digest and, if any, the canonical table; says exactly when the version or the digest is at fault |
| Plans.PlanOkMeans | src/plan.rs:120-168 | a plan is accepted exactly when each of its parts is, the table being the ascending listing of its transitions |
| Plans.Prepare | src/plan.rs:174-190 | succeeds exactly for verified plans whose table exists or can be derived, and always yields the canonical table |
| Plans.PlanOkIffIdsValid | src/plan.rs:356-432 | for a valid conversation only the identifiers decide whether its finished plan verifies |
| Plans.Compile | src/plan.rs:99-118 | succeeds exactly for valid conversations with valid identifiers and at most 65535 transitions, and returns the two projections in role order in a plan that verifies; otherwise reports exactly the raised diagnostics, or an invalid plan |
| Plans.VerifiedIsClosed | src/plan.rs:400-417 | the endpoints of a verified plan are closed, so machines over it never lose their state |
| Plans.CompiledEndpoint | src/plan.rs:170-172 | in a compiled plan each role finds its own projection and other roles find nothing |
| Plans.CompiledRoleOrder | src/plan.rs:102-103 | the endpoints of a compiled plan are ordered by role, character by character |
| Plans.MachineFor | src/runtime.rs:237-250 | a machine starts at the initial state of the endpoint of its role with counter zero, or the role is unknown |
| Codecs.CompactAcceptsExactly | src/runtime.rs:1439-1484 | the compact encoder accepts exactly the envelopes of its conversation whose state and operation are in the table, size limit aside |
| Codecs.CompactRefuses | src/runtime.rs:1439-1484 | what it refuses is a wrong version, an envelope it is not prepared for, or one over 16 MiB, in this order |
| Codecs.DecodesExactly | src/runtime.rs:1486-1533 | the compact decoder takes exactly the texts of at most 16 MiB with a known number and a payload only for data, and gives the envelope of that number |
| Codecs.CompactRefinesReference | src/runtime.rs:1486-1533 | what is encoded in either codec decodes to the same envelope, a null payload becoming none |
| Codecs.EncodeAfterDecode | src/runtime.rs:1486-1533 | encoding what was decoded gives the compact text back, up to a null payload and the size limit |
| Codecs.IndexAgreesWithSearch | src/runtime.rs:1494-1501 | the direct lookup at id minus one agrees with a search by id, for every id |
| Codecs.WireDeliversNormal | src/runtime.rs:1422-1436 | over either codec of a compiled plan every envelope a machine emits arrives in normal form or is over the size limit |
| Transports.MemoryTransport.Send | src/runtime.rs:796-803 | queues the encoded envelope while both ends are held, and otherwise reports the channel closed with the queue untouched |
| Transports.MemoryTransport.Receive | src/runtime.rs:805-813 | takes the oldest envelope even after the sender is gone, blocks on an empty live channel, and fails on an empty orphaned one |
| Transports.MemoryTransport.Abort | src/runtime.rs:815-818 | drops both ends and leaves what is queued |
| Simulation.FreshWire | src/runtime.rs:771-786 | a fresh memory pair stands for every system with both ends open and nothing in flight |
| Simulation.EmitThrough | src/runtime.rs:2123-2144 | emitting and sending through a fault injector over memory makes exactly the step of the two-endpoint model, in the weather of the injector's ruling and the size limit, and the objects stand for the new system |
| Simulation.EmitOver | src/runtime.rs:796-803 | the same over a bare memory transport |
| Simulation.AcceptThrough | src/runtime.rs:2146-2167 | receiving and recording through a fault injector makes exactly the step of the model, and blocks exactly when the model has none |
| Simulation.AcceptOver | src/runtime.rs:805-813 | the same over a bare memory transport |
| Transports.FaultInjectingTransport.Send | src/runtime.rs:635-642 | counts the call, injects and aborts when it is the planned one, and otherwise passes or renames the inner answer |
| Transports.FaultInjectingTransport.Receive | src/runtime.rs:644-651 | the same for receives; a receive that blocks is counted once |
| Transports.InjectionIsExact | src/runtime.rs:575-629 | in every interleaving of calls made and returned on two wrappers with one flag, the fault is raised at the planned role's call number `occurrence` of the planned kind and nowhere else, and only transport errors that return to the other side after it are renamed |
| Handshake.SessionAgreement | src/runtime.rs:864-921 | if either side establishes the session, whatever breaks, both agree on conversation, identities and encoding, their roles are distinct and complementary, and their compact codecs were prepared for their plans |
| Handshake.PeerErrorMeans | src/runtime.rs:679-734 | what is wrong with the preface of a peer, field by field |
| Handshake.UnbrokenSessions | src/runtime.rs:864-921 | without breakage one side establishing leads the other to establish too, and at rest both have established exactly when their setups are compatible and their prefaces within the size limit, and both have failed otherwise |
| GenerateLoops.RunGenerateClientPlan | src/runtime.rs:1668-1729 | the client loop, for every script of transport answers, ends as its control function says: report, error or still waiting |
| GenerateLoops.RunGenerateServerPlan | src/runtime.rs:1740-1804 | the same for the server loop |
| GenerateLoops.ServerRefusesBadPrompt | src/runtime.rs:2106-2121 | a server whose first frame is no prompt with a text returns an error |
| GenerateLoops.ClientRefusesBadToken | src/runtime.rs:2092-2104 | a client that gets a frame without a 64-bit token id returns an error |
| GenerateRuns.ClientKeeps | src/runtime.rs:1686-1723 | under any transport the client's tokens are the ids of the token frames in its trace, and its state, frame count and tokens match its place in the loop |
| GenerateRuns.ServerKeeps | src/runtime.rs:1754-1798 | the server's tokens are 1, 2, 3, ..., as in its trace, and a token frame is followed only by a frame of the client |
| GenerateRuns.RunIsLoops | src/runtime.rs:1668-1804 | in every run of the two-endpoint model each side is its loop, run against the answers its calls have met |
| GenerateTheorems.TokenLossBound | src/runtime.rs:1875-1944 | under any injected failures and drops, if both methods return reports, the server reports 1 to m and the client 1 to m' with m - 1 <= m' <= m |
| GenerateTraces.PromptIsDelivered | src/runtime.rs:1681 | in every run, under any injected failures, the first frame of each report that is not a fault is the prompt with the text that was given |
| GenerateFaults.FaultyRunsReport | src/runtime.rs:1875-1944 | with any number of declared failures injected anywhere, and no envelope over the size limit, every schedule is finite and ends with both methods returning reports, each naming success or the failure its trace ends with, at most one token apart |
| GenerateForm.GenerateClosedForm | src/runtime.rs:1668-1804 | over a reliable channel every schedule of envelopes within the size limit is finite; when nothing more can happen, all envelopes were within the limit if and only if both methods return the same report of success, with the tokens 1 to min(n, k), 3 min(n, k) + 2 frames and a trace given frame by frame |
| Example.GenerateIsValid | examples/generate.colloqconv.json:75-183 | the example conversation passes the checker and is the protocol the Generate loops are written for |
| ExampleTable.TableOfExample | docs/wire.md:22-32 | the dictionary of the example entry by entry; the prompt has the number 7 |
| ExampleTable.PromptOnTheWire | src/runtime.rs:2285-2301 | on the compact wire the prompt is the number 7, the counter and its payload |
| Example.ExampleRuns | src/runtime.rs:1816-1862 | both Generate results on the example conversation: step bounds, full reports on a reliable channel, and two reports under any declared failures |
| Example.NullPromptIsNotRealised | src/runtime.rs:2134-2137 | a null prompt is permitted by the reference semantics but no run records it identically on both sides; some run leaves two one-frame traces that differ in it |
| SelfLoop.RefusedPingCountsTwice | src/runtime.rs:314-317 | on a concrete valid conversation one refused send records one frame and leaves the counter at two |
| DraftLoops.PayloadRoundTrip | src/draft_exchange.rs:135-148 | the message put into a sync payload is the one read from it |
| DraftLoops.MessageMeans | src/draft_exchange.rs:135-163 | a frame carries a message exactly when it is sync data whose payload is an object with the message in hexadecimal |
| DraftLoops.RunDraftSyncClient | src/draft_exchange.rs:38-77 | the client loop, for every oracle and script of transport answers, ends as its control function says |
| DraftLoops.RunDraftSyncServer | src/draft_exchange.rs:79-122 | the same for the server loop |
| DraftRuns.RunIsLoop | src/draft_exchange.rs:38-122 | in every run each side is its loop, run against the answers its calls have met |
| DraftTheorems.LimitIsLast | src/draft_exchange.rs:47-76 | nothing is in flight towards a loop that has used up its rounds |
| DraftTheorems.DraftSyncConserves | src/draft_exchange.rs:38-122 | for all oracles and schedules on a reliable channel: with all envelopes within the size limit the exchange ends; when nothing more can happen, all were within it if and only if either both methods hit the limit of 1024 rounds, or they report r and s messages, each received in order, both counting 3r + s + 1 frames, the data frames carrying nothing but the messages |
| DraftExample.DraftSyncIsValid | examples/draft-sync.colloqconv.json:34-74 | the draft-sync conversation passes the checker and is the protocol its loops are written for |
| DraftExample.RefusedChoiceOverruns | src/runtime.rs:437-449 | on the draft-sync conversation a choice towards a closed channel leaves the client at its next state with counter one and an empty trace |
| Hex.EncodeHex | src/draft_exchange.rs:187-194 | two lower-case digits per byte, the high one first |
| Hex.DecodeAfterEncode | src/draft_exchange.rs:196-216 | decoding undoes encoding for all byte strings |
| Hex.DecodesTo | src/draft_exchange.rs:196-216 | a text decodes to these bytes exactly when it is a pair of characters for each of them |
| Hex.EncodeAfterDecode | src/draft_exchange.rs:196-216 | encoding undoes decoding if and only if the text has lower-case digits only |
| Pointers.PushPointerSegment | src/graph.rs:383-386 | the two replacements append a slash and the segment escaped character by character |
| Pointers.EscapeOfBoth | src/graph.rs:383-386 | the escape works character by character |
| Pointers.DecodePointerSegment | src/graph.rs:276-291 | the loop decodes the segment, or fails on a tilde not followed by 0 or 1 |
| Pointers.ParseAfterBuild | src/graph.rs:263-274 | parsing a built path returns the segments if and only if they are neither none nor the single empty name |
| Pointers.BuildAfterParse | src/graph.rs:263-274 | re-escaping any accepted path gives it back |
| Pointers.DecodeIsTwoPass | src/graph.rs:276-291 | on all it accepts the single-pass decoder is the two-pass substitution of section 4 of RFC 6901 |

## Left out

- Validation.Validate: which codes are reported is exact, as are the unreachable states, the ids and the failure edges at fault; the number and order of the diagnostics of the other checks, and all paths and texts, are not modelled.
- Plans.Verify: nothing is claimed about duality of the endpoints of a plan that was not compiled here; the code does not establish it.
- Transports.MemoryTransport.Receive: a blocking receive answers that it is blocked; threads are the interleavings of `Systems.Step`.
- Handshake.SessionAgreement: the optional endpoint identity and channel binding of the Iroh transport are not part of the preface.
- Emitting and sending are one step of the two-endpoint model: an emit touches only the local machine, so no other endpoint can tell the difference.
- An endpoint one of whose calls returned an error makes no further calls, as in the source's loops; its transport is closed. Its machine is kept as the failed call left it, moved if it had emitted.
- TCP, QUIC and Iroh streams, TLS, certificates, timeouts and close draining are foreign I/O; `finish` does nothing over memory.
- JSON text and SHA-256: documents stand for texts with an arbitrary length, digests are arbitrary functions with the published format, and no collision claim is made.
- Numbers in payloads are integers; the sequence counter is unbounded.
- Deadlines, placement, capabilities, annotations, schemas of payload types and the schema path, which no modelled code reads.
- Automerge documents, merging and conflicts; the oracle also stands for errors of the draft, which are assumed absent.
- The demo drivers that start threads and compare two reports, the fault-plan precondition checks among them; threads are the interleavings of steps.
- The node, deployment, job-evidence and benchmark modules and the command line.
