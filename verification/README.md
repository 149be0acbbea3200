# Request paths and lifecycles, verified

A Dafny model of the parts of runtime-rs that it writes by hand over tonic, axum and rmcp: how a
call passes through interceptors, how servers start and stop, how tool calls are hosted, and
what telemetry, retries, headers and paths come to. `dafny verify dfyconfig.toml` checks all of
it.

| file | what it models |
|---|---|
| `GrpcStatus`, `Oneshot`, `WatchedBody` | statuses and trailers, the one-shot channel, the response body of an intercepted stream |
| `StreamProtocol` | one intercepted streaming call as a transition system: the caller, the chain's task, the body and the service, each free to be dropped or to die at any point |
| `Chains` | interceptor chains in the four forms they are written in, as one right fold |
| `Framing`, `UnaryIntercept` | the gRPC length prefix, and the chain around a unary call |
| `Addresses`, `Grouping`, `AgentRuntime` | grouping agent services by address; binding, mounting, serving, shutting down |
| `HybridLifecycle` | start, stop and restart of the hybrid server |
| `Hosted`, `Handshake` | one dispatch of a hosted tool call, and the input-required handshake run for a legacy client |
| `Combine` | several MCP services as one: inventory, clashes, routing, lists |
| `Pump` | the in-process server stream and the pump that fills it |
| `OperationTelemetry`, `RpcTelemetry` | operation guards, the gRPC telemetry layer, the call observer |
| `Retry` | retried cache operations and their delays |
| `HeaderOverlay` | a caller's headers into metadata and onward |
| `BasePath` | cleaning a base path and resolving a server's configuration |

Concurrent parties are modelled as labelled steps in any order (`StreamProtocol`, `Pump`), or
as methods whose outside world is an arbitrary choice at every await (`AgentRuntime`,
`HybridLifecycle`). What a class did is kept in a ghost trace, and the contracts speak of the
trace. Interceptors, services, clients and handlers are arbitrary functions.

What is taken from elsewhere as given: an interceptor calls its continuation at most once (it is
consumed by the call); a status survives being written to a header map and read back; a body
stops being polled once it has ended; a task that is aborted stops; a service that dropped its
`Ready` without reporting comes to an end (`agents::Runtime::start` waits for it with no bound,
agents/src/start.rs:86: one that ignores its token would hold the start, and its ports, for
good); and, where a lemma says so, a result survives being written as JSON (`Hosted.RoundTrips`) and quoting a string loses nothing (`Combine.Faithful`).

## What the code does not promise after all

Where the documentation promises more than the code does, the model follows the code and says
exactly when the promise holds.

- `settle` keeps the service's trailers when the chain leaves the outcome alone, except that an
  error carrying the success code replaces them although no code changed
  (`GrpcStatus.TrailersSurviveExactly`, `GrpcStatus.SuccessCodedErrorRewrites`).
- A combined server's lists are its members' first pages end to end, while its inventory reads
  every page: a member that pages its list is routed in full and listed in part
  (`Combine.EverythingIsListedExactly`, `Combine.LaterPagesAreLost`).
- Cancelling a pumped stream lets the pump stop but does not make it. In its select it may take
  the next item instead, and in a send that a full queue holds up it has no step at all
  (`InProcessStream.CancelledPumpMayGoOn`, `InProcessStream.CancelledPumpIsHeldUpExactly`,
  `InProcessStream.CancelCanBeIgnored`).
- A resolved configuration advertises what it did before and where it mounts, unless the last
  segment cleaning leaves of the configured path ends in white space, which the next reading
  trims (`BasePath.AdvertisedStaysExactly`, `BasePath.CleaningCanExposeSpace`).
- The telemetry layer records the code that closes the stream the caller reads exactly when the
  head carries no status and what closes the stream states one, or when the head carries that
  very code. A stream that closes without a status is read as success and recorded as UNKNOWN;
  and a head that says OK is recorded as OK although the chain may go on to refuse the call
  (`RpcTelemetry.RecordedAsReadExactly`, `RpcTelemetry.UnstatedEndsDiffer`,
  `RpcTelemetry.StatedHeadsDiffer`).
- `agents::Runtime::shutdown` is said to stop every service (agents/src/lifecycle.rs:23). It
  tells each to stop, waits for a bounded time, and lets go: what goes on running is exactly the
  listeners that are stuck and the services that were late, and a late service is no error
  (`AgentRuntime.Runtime.Shutdown`, `AgentRuntime.LateServicesAreNotReported`).
- `HybridServer::stop` is said to cut off what still runs when its time is up
  (grpc/src/lifecycle.rs:152). It aborts its serving tasks and cuts gRPC's connections, and never
  its agent runtime: that is gone after a stop, in time or not, failed or not, exactly if its
  shutdown returned in time with nothing left
  (`HybridLifecycle.HybridServer.Stop`, `HybridLifecycle.StopsCanLeaveAgents`).
- A logged row count is the count while it fits in 63 bits, and negative after that
  (`OperationTelemetry.LoggedCountExactly`, `OperationTelemetry.LogTooManyRows`).

## Model

| member | source | states |
|---|---|---|
| `GrpcStatus.TrailerOutcomeCode` | grpc/src/stream_intercept.rs:473-479 | reading trailers as an outcome keeps the code, missing trailers reading as success, and never yields an error with the success code |
| `GrpcStatus.SettledCode` | grpc/src/stream_intercept.rs:481-496 | the code the caller reads off settled trailers is the verdict's, or the service's own when no verdict came |
| `GrpcStatus.RewrittenTrailersStandAlone` | grpc/src/stream_intercept.rs:489-495 | rewritten trailers always carry the verdict's code and none of the headers the transport owns |
| `GrpcStatus.TrailersSurviveExactly` | grpc/src/stream_intercept.rs:481-496 | exactly when the caller receives the service's own trailers: no verdict; or equal codes, and not a success replaced by an error carrying the success code; or rewritten trailers that are the very ones given |
| `GrpcStatus.OwnOrRewritten` | grpc/src/stream_intercept.rs:489-495 | and otherwise it receives the verdict's own |
| `GrpcStatus.SuccessCodedErrorRewrites` | grpc/src/stream_intercept.rs:484-491 | equal codes do not suffice: an input on which trailers are replaced although no code changed |
| `OneshotChannel.Oneshot.Send` | grpc/src/stream_intercept.rs:254-254 | a send is delivered exactly when the receiver is still there, and happens once |
| `OneshotChannel.Oneshot.Poll` | grpc/src/stream_intercept.rs:433-433 | a poll resolves with the value or with the sender's loss, and a resolved receiver is never polled again |
| `WatchedBody.TrailersWaitForTheVerdict` | grpc/src/stream_intercept.rs:431-445 | no trailers and no first end reach the caller before the verdict has resolved |
| `WatchedBody.EndIsAnnouncedBeforeWaiting` | grpc/src/stream_intercept.rs:408-416 | the poll that learns of the stream's end announces it in the same step that begins to hold |
| `WatchedBody.Watched.Announce` | grpc/src/stream_intercept.rs:411-413 | the end is sent on its channel if nothing was sent yet, and never twice |
| `WatchedBody.Watched.EndWith` | grpc/src/stream_intercept.rs:408-416 | ending announces what the trailers say and then holds them |
| `WatchedBody.Watched.PollFrame` | grpc/src/stream_intercept.rs:422-462 | the loop is one step of the poll function: new fields, what was announced, and what the caller gets |
| `WatchedBody.Watched.Drop` | grpc/src/stream_intercept.rs:465-471 | a body dropped before it ended announces a cancellation |
| `StreamProtocol.StepKeepsInv` | grpc/src/stream_intercept.rs:254-389 | every step of every party, drops and deaths included, keeps the protocol's invariant |
| `StreamProtocol.ReachedIsSound` | grpc/src/stream_intercept.rs:254-389 | the invariant holds in every state of every run |
| `StreamProtocol.RunsOnlyAdd` | grpc/src/stream_intercept.rs:266-331 | over any stretch of a run answers, verdicts and histories are never taken back |
| `StreamProtocol.OneAnswerPerCall` | grpc/src/stream_intercept.rs:266-331 | the reply slot is taken at most once; a finished chain delivered one thing, to the body iff `forward` took the slot; the caller's answer is the head, the chain's outcome, or the fallback for a dead chain |
| `StreamProtocol.EndIsAnnouncedOnce` | grpc/src/stream_intercept.rs:374-389 | the chain hears exactly one ending per body, the one its closing item announced or a cancellation |
| `StreamProtocol.NeverWaitForEachOther` | grpc/src/stream_intercept.rs:388-445 | the chain never waits for the end while the body waits for the verdict |
| `StreamProtocol.NoDeadlock` | grpc/src/stream_intercept.rs:254-462 | until the caller is answered, the chain over and the body ended, somebody can move |
| `StreamProtocol.EveryMoveCounts` | grpc/src/stream_intercept.rs:254-462 | every step that is not an idle poll uses the run up |
| `StreamProtocol.CallsAreBounded` | grpc/src/stream_intercept.rs:254-462 | a call takes at most ten steps beyond the service's data frames, whatever the interleaving |
| `StreamProtocol.EveryCallCanComplete` | grpc/src/stream_intercept.rs:254-462 | from every reachable state co-operating parties bring the call to its end |
| `StreamProtocol.CallerReadsTheServicesData` | grpc/src/stream_intercept.rs:422-462 | the caller reads the service's data frames whole and in order, then at most one closing item, then only ends; errors pass unchanged |
| `StreamProtocol.ClosingCodeIsTheVerdicts` | grpc/src/stream_intercept.rs:431-445 | the closing item of a stream that ended without a body error carries the chain's code, or the service's own when the chain died, and is not read before; of the head, which may have said OK by then, nothing is said |
| `StreamProtocol.HeadsCanSayOtherwise` | grpc/src/stream_intercept.rs:364-381 | for any head that says OK, a run in which it reaches the caller and the stream then closes with the chain's refusal |
| `StreamProtocol.FaithfulChainIsInvisible` | grpc/src/stream_intercept.rs:481-491 | interceptors that return what they were told leave the service's closing item untouched, even if the chain dies |
| `Chains.RunIsFold` | grpc/src/intercept.rs:228-243 | recursion on the rest of the chain is the right fold |
| `Chains.InvokeIsFold` | agents/src/mcp/interceptor.rs:75-101 | recursion on an index is the same fold |
| `Chains.ConcatComposes` | agents/src/mcp/interceptor.rs:59-64 | extending a chain with another nests the second inside the first |
| `Chains.PassThroughIsNeutral` | grpc/src/stream_intercept.rs:147-162 | an interceptor that passes everything through changes no answer, wherever it stands |
| `Chains.PathOfExactly` | grpc/src/stream_intercept.rs:147-162 | every request has exactly one path down every chain |
| `Chains.RunsAreBracketed` | grpc/src/stream_intercept.rs:147-162 | interceptors are entered in order and left in reverse; after one that answers nothing is entered and the service does not run |
| `Chains.ServedAtMostOnce` | grpc/src/intercept.rs:228-243 | the service runs once, on what the last interceptor passed on, or not at all |
| `Chains.TransparentChain` | grpc/src/intercept.rs:228-243 | a chain of watchers answers as the service does, on the request as it came |
| `Chains.Chain` | grpc/src/validation.rs:261-270 | the loop that threads a request through metadata interceptors is the fold, stopping at the first refusal |
| `Chains.Layer` | grpc/src/layer.rs:54-59 | the reversed fold of layers puts the first layer outermost |
| `Chains.LayersCompose` | grpc/src/layer.rs:54-59 | layering two lists end to end is layering one inside the other |
| `Chains.LayersAreFold` | grpc/src/layer.rs:54-59 | a chain installed one layer at a time is the same fold |
| `Chains.ExactlyOneChainRuns` | grpc/src/stream_intercept.rs:237-248 | with both chains installed each call runs exactly one of them, an unknown method the stream chain |
| `Framing.Frame` | grpc/src/intercept.rs:463-469 | the buffer holds the flag, the big-endian length, capped, and the payload |
| `Framing.Unframe` | grpc/src/intercept.rs:472-484 | yields a message iff the bytes are exactly its frame and its length fits the prefix |
| `Framing.ParsedExactly` | grpc/src/intercept.rs:463-484 | unframing and framing are inverse on every message that fits |
| `Framing.RoundTripExactly` | grpc/src/intercept.rs:466-466 | a message comes back exactly when its length fits 32 bits, and is nothing otherwise |
| `UnaryIntercept.ServiceIsCalledAtMostOnce` | grpc/src/intercept.rs:351-410 | for every chain and every body the service gets at most one request: the body as sent when it is not one message, else the frame of what reached the chain's end |
| `UnaryIntercept.TransparentChainForwardsBytes` | grpc/src/intercept.rs:351-410 | a chain of watchers hands the service byte-identical input, malformed bodies included |
| `UnaryIntercept.TransparentChainReturnsTheReply` | grpc/src/intercept.rs:357-366 | and the caller the service's code, and on success its headers and bytes; a success without one message is an internal error, and a body that is not one message is answered as the service answers it |
| `UnaryIntercept.RefusalReachesTheCaller` | grpc/src/intercept.rs:381-391 | a refusal by the first interceptor is the response, and the service is not called |
| `Addresses.Sort` | agents/src/placement.rs:83-83 | distinct addresses come out strictly increasing, none lost or added |
| `Addresses.OnlyPortZeroIsRewritten` | agents/src/placement.rs:174-183 | only a port 0 is replaced, and the host stays as configured |
| `Grouping.GroupServices` | agents/src/placement.rs:50-88 | the groups are strictly increasing by address, each exactly the services of its address in registration order, `http` their disjunction, unowned iff on the host's router at the shared address |
| `Grouping.JoinKeepsBuilt` | agents/src/placement.rs:56-81 | one more service joins its own group and changes no other |
| `Grouping.EachServiceHasOneGroup` | agents/src/placement.rs:56-80 | every service is in exactly one group, at its own address or the shared one |
| `AgentRuntime.Runtime.Bind` | agents/src/placement.rs:100-121 | a listener for exactly the groups that own one and need it, each told the address it got; a refusal frees every port bound before |
| `AgentRuntime.ToldExactly` | agents/src/placement.rs:112-114 | binding changes nothing of a group but where it listens, and that only by its own listener's port |
| `AgentRuntime.Runtime.Mount` | agents/src/start.rs:61-106 | a service either reports, in its place, or the start is cleaned up after: nothing bound, nothing running |
| `AgentRuntime.Runtime.GiveUp` | agents/src/start.rs:83-105 | the cleanup of a service that will not mount: cancelled, and aborted or, when it dropped its sender, awaited to the end it is taken to come to; every listener let go |
| `AgentRuntime.Runtime.MountAll` | agents/src/start.rs:56-108 | endpoints are the reports end to end in group order, one task a service |
| `AgentRuntime.Runtime.ServeGroups` | agents/src/placement.rs:124-171 | every bound listener accepts, and none before all services have mounted |
| `AgentRuntime.BindsFirstExactly` | agents/src/start.rs:50-74 | what the order of binding and starting means over a whole trace |
| `AgentRuntime.Runtime.Unroutable` | agents/src/start.rs:44-48 | the first service that needs gRPC routes, exactly when there are none and some service does |
| `AgentRuntime.Runtime.Start` | agents/src/start.rs:30-120 | at most one start succeeds; a success has bound every listener before starting any service, told each service the address its listener got, mounted everything before anything accepts, and published the reports in order; a failure leaves nothing bound, accepting, running or published |
| `AgentRuntime.Runtime.DrainListeners` | agents/src/lifecycle.rs:46-61 | the listeners are waited for in order, and the errors are exactly those that crashed or are stuck, in order |
| `AgentRuntime.Runtime.AwaitTasks` | agents/src/lifecycle.rs:63-69 | the tasks held are waited for in their order, each ending in time or not |
| `AgentRuntime.Runtime.Shutdown` | agents/src/lifecycle.rs:28-76 | all is told to stop before anything is awaited, listeners and then tasks in order; `Ok` iff every listener closed; what is left held and running is exactly the stuck listeners and the late services, nothing iff there is neither; what the runtime held is let go of once, and a second shutdown does nothing |
| `AgentRuntime.LeftByShutdown` | agents/src/lifecycle.rs:48-69 | what letting go of the handles leaves of a started runtime: the stuck listeners and the late tasks, and no others |
| `AgentRuntime.LateServicesAreNotReported` | agents/src/lifecycle.rs:63-75 | for any runtime whose listeners close: with a late service the shutdown is `Ok` and the service still runs |
| `AgentRuntime.BoundAddrFindsTheGroup` | agents/src/runtime.rs:115-123 | `bound_addr` answers an address with where its group was told it listens, and one with no listener not at all |
| `HybridLifecycle.NothingIsTakenTwice` | grpc/src/lifecycle.rs:161-176 | over any run of starts and stops no task, token or runtime is taken by two stops |
| `HybridLifecycle.EverythingIsInOnePlace` | grpc/src/lifecycle.rs:163-176 | however what a start records and the two locks of overlapping stops interleave, every id recorded is in exactly one place: what the server holds, or one taking |
| `HybridLifecycle.NothingIsLostExactly` | grpc/src/agent_runtime.rs:68-72 | and that holds iff everything recorded found its place empty; what is written over is in no place again |
| `HybridLifecycle.HeldIsDistinct` | grpc/src/hybrid.rs:21-50 | no id is ever held in two places |
| `HybridLifecycle.HybridServer.TakeServers` | grpc/src/lifecycle.rs:163-176 | the first lock takes everything but the agents; each id held before is held after or taken, and, held once, not both |
| `HybridLifecycle.HybridServer.TakeAgents` | grpc/src/agent_runtime.rs:87-91 | the second takes the agents and leaves the servers, losing and doubling as little |
| `HybridLifecycle.HybridServer.Await` | grpc/src/lifecycle.rs:193-197 | in time, every task has ended and the agents' shutdown has returned, the gRPC task after all of them; the clock may run out anywhere, and the agents are gone exactly if their shutdown returned with nothing left |
| `HybridLifecycle.HybridServer.Stop` | grpc/src/lifecycle.rs:161-214 | everything is told to stop before it is awaited; a stop out of time aborts every task taken and cuts the connections; either way the server is empty after and no serving task it took runs, and its agent runtime counts as still running iff its shutdown did not return in time with nothing left, whatever the result |
| `HybridLifecycle.StopsCanLeaveAgents` | grpc/src/lifecycle.rs:193-201 | a stop in time, without an error, that leaves its agent runtime running |
| `HybridLifecycle.HybridServer.CutOff` | grpc/src/lifecycle.rs:202-211 | every HTTP and gRPC task taken is aborted, and the gRPC connections are cut |
| `HybridLifecycle.HybridServer.StartAgents` | grpc/src/agent_runtime.rs:27-73 | a runtime and its token are held together, or nothing is |
| `HybridLifecycle.HybridServer.StartGrpc` | grpc/src/server.rs:31-149 | agents before the serving task; nothing is recorded as serving unless all of it is up |
| `HybridLifecycle.HybridServer.StartHttp` | grpc/src/lifecycle.rs:282-307 | a failure to bind changes nothing; a success adds one task, its token and the address |
| `HybridLifecycle.HybridServer.StartHttp3` | grpc/src/lifecycle.rs:310-328 | the same for HTTP/3, which records no address |
| `HybridLifecycle.HybridServer.StartComponents` | grpc/src/lifecycle.rs:120-134 | what came up came up in order, and what is running is exactly what is held, also when a later part fails |
| `HybridLifecycle.HybridServer.Start` | grpc/src/lifecycle.rs:28-52 | a success serves everything asked for; a failure is reported as itself, after a stop of exactly what had come up; then nothing is held, no serving task runs, and of what came up just the agent runtime counts as still running, iff its shutdown did not return in time with nothing left |
| `HybridLifecycle.HybridServer.Restart` | grpc/src/lifecycle.rs:232-236 | a stop, then a start if the stop went well; a success serves everything, with the old agent runtime still running iff it did not end clean; after a failure nothing is held, and nothing runs but agent runtimes told to stop that did not |
| `Hosted.ExtractExtras` | agents/src/mcp/extras.rs:72-89 | arguments split in two with nothing lost: the declared extras, and the rest |
| `Hosted.SlotFollowsThePath` | agents/src/mcp/hosted.rs:162-185 | for every chain, the response slot is filled exactly when the chain reached the handler and it answered |
| `Hosted.KeyedExactly` | agents/src/mcp/hosted.rs:140-150 | each extra the call carried is stored under its own key, the later of two that share one |
| `Hosted.WhatComesOut` | agents/src/mcp/hosted.rs:181-195 | the chain's error; or its JSON read back in place of the handler's result where it can be, the handler's own where it cannot; and an answer without the handler wrapped |
| `Hosted.InputRequiredSurvives` | agents/src/mcp/hosted.rs:181-195 | an input request passes any chain unchanged, unless the chain ends in an error |
| `Hosted.OnlyTheHandlerAsks` | agents/src/mcp/hosted.rs:185-195 | a dispatch asks for input exactly when the handler does and the chain does not fail |
| `Hosted.WatchersChangeNothing` | agents/src/mcp/hosted.rs:129-196 | interceptors that only look dispatch as no interceptors would, given that results survive JSON |
| `Handshakes.Fulfil` | agents/src/mcp/hosted.rs:93-116 | every request answered under its id, or the trouble with the first that is not, and nobody asked after it |
| `Handshakes.CallTool` | agents/src/mcp/hosted.rs:298-330 | a modern client gets its one dispatch; for a legacy one the call is the handshake, request by request, at most eight dispatches with the same name and arguments, and never ends in an input request |
| `Handshakes.ResentMore` | agents/src/mcp/hosted.rs:313-316 | the next request merges the new answers over the old and carries the latest state |
| `Handshakes.AnswersAreKept` | agents/src/mcp/hosted.rs:313-315 | every answer given is still sent, the last one under each id |
| `Handshakes.HandshakesAgree` | agents/src/mcp/hosted.rs:307-329 | the conversation and its end are fixed by tool and client: the legacy call goes as the handshake of a client that speaks it, which has no limit, for up to eight rounds; it ends the same when that took fewer than eight, and else in having been asked too often |
| `Handshakes.StallingToolsAnswer` | agents/src/mcp/hosted.rs:303-329 | a tool that asks eight times or more answers a client that speaks the handshake, and not a legacy one |
| `Handshakes.RoundsAreTheHandlers` | agents/src/mcp/hosted.rs:185-195 | with a hosted tool, interceptors and all, every round of the call was asked for by the handler on that round's request |
| `Handshakes.CallsEndInADispatch` | agents/src/mcp/hosted.rs:298-330 | a hosted call ends in the dispatch of its last request, unless the handler asked again and the client could not be got to answer |
| `Combine.ListAll` | agents/src/mcp/combine.rs:158-182 | every page in order, or the first that fails |
| `Combine.TakeInventory` | agents/src/mcp/combine.rs:184-219 | what is read is what each advertised list holds on all its pages |
| `Combine.LabelsAreDistinct` | agents/src/mcp/combine.rs:53-66 | labels of different kinds or names never coincide |
| `Combine.CheckCollisions` | agents/src/mcp/combine.rs:223-243 | the loop reports the clashes of the declarations in order |
| `Combine.AcceptedExactly` | agents/src/mcp/combine.rs:238-242 | nothing is reported iff all labels are distinct |
| `Combine.AcceptedByKindAndName` | agents/src/mcp/combine.rs:223-243 | services combine iff no name of one kind is declared twice, within a service or across two |
| `Combine.ClashesAreCounted` | agents/src/mcp/combine.rs:226-236 | as many clashes as declarations beyond the distinct ones |
| `Combine.ClashesAreNamed` | agents/src/mcp/combine.rs:228-233 | a clash names the label, its first owner and the later one |
| `Combine.FillTable` | agents/src/mcp/combine.rs:310-320 | with names unshared, a table sends a name to `i` iff service `i` declared it |
| `Combine.New` | agents/src/mcp/combine.rs:276-330 | built iff every service is built and read and nothing clashes, with exact routing tables; otherwise the first bad service, or all the clashes |
| `Combine.CombinedAdvertises` | agents/src/mcp/combine.rs:369-385 | a kind is advertised iff some member advertises it |
| `Combine.List` | agents/src/mcp/combine.rs:539-551 | the members' first pages end to end, in member order; fails iff one of them does |
| `Combine.ListedIsServed` | agents/src/mcp/combine.rs:402-412 | every listed tool, prompt or resource is routed to, and answered by, the member that listed it |
| `Combine.EverythingIsListedExactly` | agents/src/mcp/combine.rs:455-551 | what the list holds of a member is all it declared iff it does not go on past its first page |
| `Combine.LaterPagesAreLost` | agents/src/mcp/combine.rs:539-551 | a member whose second tool is declared and never listed |
| `Combine.ReadResource` | agents/src/mcp/combine.rs:509-526 | a declared URI goes to its member; otherwise the first member to answer, or the last error |
| `Combine.Complete` | agents/src/mcp/combine.rs:423-442 | the first member with anything to say, or else the first error, or else nothing |
| `InProcessStream.ServerStream.PollSend` | agents/src/mcp/stream.rs:51-64 | enqueues iff open, not cancelled and with room; a send begun after cancellation never does |
| `InProcessStream.ServerStream.PollRecv` | agents/src/mcp/stream.rs:67-69 | messages in the order taken in; the end only once the stream is closed, every handle is gone and the queue is drained |
| `InProcessStream.ServerStream.DropSender` | agents/src/mcp/stream.rs:40-44 | a producer's handle goes, and with the last of them the stream can end |
| `InProcessStream.CutExactly` | agents/src/mcp/stream.rs:84-84 | the cut source is a prefix that ends at the first error, if there is one |
| `InProcessStream.StepKeepsInv` | agents/src/mcp/stream.rs:95-109 | every step of pump, reader, canceller and drop keeps the invariant |
| `InProcessStream.AlwaysAPrefix` | agents/src/mcp/stream.rs:86-111 | in every reachable state received, queued and in flight begin the cut source; at most sixteen wait; an error is last |
| `InProcessStream.ReadToTheEnd` | agents/src/mcp/stream.rs:86-111 | an uncancelled stream read to its end delivered exactly the cut source |
| `InProcessStream.NeverStuck` | agents/src/mcp/stream.rs:95-109 | while it is kept there is a step to take until it is read to its end |
| `InProcessStream.RunsAreBounded` | agents/src/mcp/stream.rs:95-109 | no run is longer than three steps an item and three more |
| `InProcessStream.CanBeReadToTheEnd` | agents/src/mcp/stream.rs:86-111 | whatever has happened, a kept stream can be read to its end |
| `InProcessStream.CancelledPumpMayGoOn` | agents/src/mcp/stream.rs:99-102 | a cancelled pump in its select may stop, or take and deliver the next item |
| `InProcessStream.CancelledPumpIsHeldUpExactly` | agents/src/mcp/stream.rs:99-107 | a cancelled pump has no step iff it is in a send and the queue is full |
| `InProcessStream.CancelCanBeIgnored` | agents/src/mcp/stream.rs:84-85 | a run in which a cancelled pump makes no step |
| `OperationTelemetry.GaugeIsLive` | telemetry/src/observer.rs:78-80 | the gauge of a label set is the number of operations in flight under it |
| `OperationTelemetry.StartsAreConserved` | telemetry/src/operation.rs:46-58 | what began is in flight or counted once under one outcome |
| `OperationTelemetry.CompletedOnce` | telemetry/src/operation.rs:39-43 | no operation completes twice |
| `OperationTelemetry.OthersAreUntouched` | telemetry/src/operation.rs:39-58 | what becomes of one operation is nothing to another |
| `OperationTelemetry.Metrics.Start` | telemetry/src/observer.rs:78-80 | the gauge goes up by one under the operation's labels |
| `OperationTelemetry.Metrics.Complete` | telemetry/src/operation.rs:46-51 | the gauge goes down under the same labels and the outcome is counted |
| `OperationTelemetry.Operation.ReadRows` | telemetry/src/operation.rs:27-29 | rows read are the true sum, or the largest count when that is smaller |
| `OperationTelemetry.Operation.WrittenRows` | telemetry/src/operation.rs:31-33 | the same for rows written |
| `OperationTelemetry.Operation.Complete` | telemetry/src/operation.rs:39-90 | the first report counts, with the rows so far, and no other does |
| `OperationTelemetry.Operation.Drop` | telemetry/src/operation.rs:92-100 | an unfinished operation is reported as cancelled, or as a panic while unwinding |
| `OperationTelemetry.Operation.Finish` | telemetry/src/operation.rs:35-37 | finishing reports once, though it also drops |
| `OperationTelemetry.LoggedCountExactly` | telemetry/src/operation.rs:62-63 | the logged count is the count iff it fits in 63 bits, and negative otherwise |
| `OperationTelemetry.LogTooManyRows` | telemetry/src/operation.rs:62-62 | an operation that is logged with a negative count |
| `RpcTelemetry.RecordedExactly` | grpc/src/otel.rs:320-335 | what is recorded is the first ending, with the bytes passed before it |
| `RpcTelemetry.EveryCallIsRecordedOnce` | grpc/src/otel.rs:350-354 | every call, however polled, is recorded exactly once |
| `RpcTelemetry.CountedRequest.PollFrame` | grpc/src/otel.rs:366-379 | the frame passes unchanged and its bytes are counted |
| `RpcTelemetry.ReadRequest` | grpc/src/otel.rs:268-291 | reading the request moves the byte count the call shares and nothing else of the call |
| `RpcTelemetry.Call.Finish` | grpc/src/otel.rs:321-347 | only the first finish says anything |
| `RpcTelemetry.Call.Respond` | grpc/src/otel.rs:297-304 | a head that carries a status ends the call there; any other is measured |
| `RpcTelemetry.Call.PollFrame` | grpc/src/otel.rs:400-421 | the frame passes unchanged; data is counted, and trailers, an error or a bare end finish the call |
| `RpcTelemetry.Call.Drop` | grpc/src/otel.rs:350-354 | a call nobody finished was cancelled |
| `RpcTelemetry.RecordedAsReadExactly` | grpc/src/otel.rs:297-304 | of a whole call, one record, with the code that closes the stream iff the head has no status and the closing item states one, or the head carries that code |
| `RpcTelemetry.SettledIsRecordedExactly` | grpc/src/otel.rs:410-418 | the same in what service and chain said: with a head without status, iff the service's trailers carry one or the chain failed the call |
| `RpcTelemetry.StreamsAreRecordedAsReadExactly` | grpc/src/otel.rs:297-354 | the same over every run of an intercepted call |
| `RpcTelemetry.UnstatedEndsDiffer` | grpc/src/otel.rs:410-414 | a stream read as a success and recorded as UNKNOWN |
| `RpcTelemetry.StatedHeadsDiffer` | grpc/src/otel.rs:299-302 | a run read as a refusal and recorded as OK |
| `RpcTelemetry.Observer.RecordCall` | grpc/src/observe.rs:188-198 | one request under the method, and one error iff it was a server fault |
| `RpcTelemetry.Observer.Traced` | grpc/src/observe.rs:144-185 | a call counts once, whether it ended or was dropped first |
| `RpcTelemetry.Observer.DropPending` | grpc/src/observe.rs:209-216 | an armed guard counts the call as it is dropped, a disarmed one nothing |
| `RpcTelemetry.FaultsAreRequests` | grpc/src/observe.rs:188-198 | every error is a request, and a dropped call is never an error |
| `Retry.RetryLoop` | cache/src/retry.rs:61-96 | the loop's result and state are those of the specification, and its delays double from the backoff up to the longest duration |
| `Retry.TriedExactly` | cache/src/retry.rs:56-76 | the first settled result or else the last error, after at most the given tries and at least one |
| `Retry.NestedRetriesMultiply` | cache/src/retry.rs:61-75 | retrying what is retried makes the same calls, with the same result, as one retry of the product |
| `Retry.RetriedDocumentsCollapse` | cache/src/retry.rs:138-151 | the same for a whole document wrapped twice |
| `Retry.WritesGoOnce` | cache/src/retry.rs:80-101 | create and update reach the backend once, however wrapped |
| `Retry.RetrySchedule.AfterFailure` | cache/src/retry.rs:44-53 | no next try after `NotFound` or the last one; otherwise the wait, doubled for next time |
| `Retry.DelaysAddUp` | cache/src/retry.rs:50-52 | the delays add up to one short of the next doubling iff none was capped |
| `Retry.SleepOfACall` | cache/src/retry.rs:50-52 | before saturation the sleep of a call is backoff times two to the calls less one, less one |
| `HeaderOverlay.IncomingHeaders` | agents/src/shared/incoming.rs:51-76 | each usable mapped key holds the convertible values of the last mapping naming it, every other key is unchanged |
| `HeaderOverlay.ConvertedInOrder` | agents/src/shared/incoming.rs:69-73 | each value converts or is left out on its own, and the order is kept |
| `HeaderOverlay.OverlayIsIdempotent` | agents/src/shared/incoming.rs:51-76 | doing it again changes nothing |
| `HeaderOverlay.NothingIsLeftBehind` | agents/src/shared/incoming.rs:65-65 | no earlier value survives under a mapped key: two pasts differ after iff they differ under an unmapped key |
| `HeaderOverlay.Apply` | agents/src/shared/mod.rs:76-89 | the last usable header forwarded under a key replaces what was there |
| `HeaderOverlay.ForwardMetadata` | agents/src/shared/incoming.rs:84-106 | nothing of the transport's passes, forwarded headers win, and `None` says there was nothing |
| `HeaderOverlay.ApplyCallContext` | agents/src/shared/incoming.rs:113-128 | exactly the keys sent onward are replaced |
| `HeaderOverlay.CallerCannotBeShadowed` | agents/src/shared/incoming.rs:108-128 | from the caller's headers to the request made on its behalf: a mapped key the caller sent something for carries that and nothing else, one it sent nothing for keeps what the code between put there, a header forwarded directly wins over both, and the transport's keys are untouched |
| `BasePath.CleanRooted` | agents/src/a2a/endpoint.rs:135-147 | the loop over a stack of segments is the walk the lemmas are about |
| `BasePath.CleanMeans` | agents/src/a2a/endpoint.rs:138-144 | a name is added, `..` takes the last one back and stops at the root, empty and `.` vanish |
| `BasePath.CleanLeavesNames` | agents/src/a2a/endpoint.rs:135-147 | no empty, `.` or `..` segment is left, and the segments read back |
| `BasePath.CleanIsIdempotent` | agents/src/a2a/endpoint.rs:133-147 | cleaning twice is cleaning once |
| `BasePath.CleanThenJoin` | agents/src/a2a/endpoint.rs:122-124 | cleaning a join is cleaning the join onto the cleaned |
| `BasePath.CleanTellsSegmentsApart` | agents/src/a2a/endpoint.rs:135-147 | two paths clean alike iff the same segments are left of them |
| `BasePath.NormalizeSettlesExactly` | agents/src/a2a/endpoint.rs:125-131 | normalizing again changes nothing iff trimming leaves nothing of the path, or the last segment left of it does not end in white space |
| `BasePath.SettlesWithoutSpace` | agents/src/a2a/endpoint.rs:125-131 | a path with no white space inside it settles at once |
| `BasePath.CleaningCanExposeSpace` | agents/src/a2a/endpoint.rs:125-131 | a path on which it does not |
| `BasePath.ResolvedInOrder` | agents/src/a2a/endpoint.rs:157-167 | the generated default wins over the generated path and that over the configured one, blank ones never |
| `BasePath.Resolve` | agents/src/a2a/serve.rs:70-82 | the configuration a server runs with |
| `BasePath.ResolvingAgain` | agents/src/a2a/endpoint.rs:157-167 | resolving a resolved configuration normalizes its path again |
| `BasePath.AdvertisedStaysExactly` | agents/src/a2a/endpoint.rs:37-48 | the endpoints advertised are the same before and after iff the configured path settles or no transport uses it |
| `BasePath.AdvertisedIsMountedExactly` | agents/src/a2a/config.rs:184-186 | the advertised path is the mounted one iff the configured path settles |
| `BasePath.AdvertisedWithoutSpace` | agents/src/a2a/serve.rs:70-82 | a server configured with no white space inside its path advertises one thing throughout, and mounts there |

## Left out

- Sockets, TLS, HTTP/3, signals and time: whether a bind, a handshake or a timer succeeds or fires is an arbitrary choice.
- tonic, axum, rmcp, serde and OpenTelemetry internals: their encodings are the assumptions named above.
- An interceptor that starts the rest of its chain and abandons it half way: in `StreamProtocol` it may, in `Chains` and `Hosted` it either passes a request on or answers alone.
- `agents::Runtime::start` racing with `shutdown`, and a second `HybridServer::start` while one runs: neither promises a clean outcome; what the second writes over is lost (`HybridLifecycle.NothingIsLostExactly`).
- Connections: what runs is told in serving tasks, listeners and agent runtimes. An aborted HTTP serving task leaves its open connections to tasks of their own, which are not part of this model.
- `agents::Runtime::serve` and `HybridServer::serve`: a start, a wait and a stop.
- `drain_bounded`: the bound on the gRPC drain is one of the ways its task ends.
- `Ready::ready`: a report is sent at most once because its sender is taken out of an option; the runtime's side of it is a choice among the four answers of `wait_ready`.
- `UnaryCall` and `UnaryReply` decoding and `set_message`: conversions at the message's type.
- Metadata that cannot be a header, and header values outside ASCII: `HeaderOverlay` takes which names and values convert as a parameter.
- Cache hints, tool schemas with extras, resource overrides and the call context of a hosted handler: each is one lookup or one stamp.
- `HybridServer::stop` as one interleaved with itself: overlapping stops are modelled in what they take (`HybridLifecycle.EverythingIsInOnePlace`, on what the server holds and the parts the two locks take), not in what they wait for.
- The dispatch slot of a hosted call as a shared cell: `Hosted` says what it holds once the chain has run, from what the chain's run reached.
- `Combine` sessions: a member is what its factory builds, taken to list what it was inventoried with.
- How an address becomes a URL: `BasePath.Urls` is any such reading of the public URL and the listen address.
- `queue_delta`, histograms, spans and log levels: one call each to an instrument.
- The buffered and mirrored databases and the cache strategies: the workers and drivers under them are not part of this model.
- HybridLifecycle.HybridServer.StartGrpc: routes, reflection and health registration are not modelled, because they hold nothing a stop gives back.
