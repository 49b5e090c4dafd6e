# Integrator lifecycle model

A Dafny model of the trading-session orchestrator in `integrator/integrator.go`.
The orchestrator is the `Integrator` object. It owns a map of venue connectors
(the exchanges) and a one-shot finish channel for the arbitrage loop. It
drives two collaborators:

- the robot, which creates, updates and destroys the per-context trade
  algorithms and the arbitrage algorithm;
- the exchange connectors, which open and close one stream per trade context.

The model is a class, `Orchestrator.Integrator`, whose methods follow the Go
methods statement by statement. The nested venue/cursor loops of
`startStreaming` and `stopStreaming` keep their shape; so do the
early-return rollback and the registration loop of `Initialize`.

The collaborators are abstracted:

- Every call to them goes through `Integrator.Issue`. It appends the call to a
  ghost `trace` and applies its effect to ghost collaborator state (`created`,
  `streaming`, `arbitrageCreated`).
- Which calls return an error is an oracle argument `fails: set<Call>` of each
  operation.
- A failing call changes nothing. A stop or destroy of something absent is a
  no-op.

Each method's `ensures` ties its trace and new state to specification
functions. These are:

- `Calls.StartStreamingCalls`, `Calls.StartStreamingError` and
  `Calls.StopCalls`, for the calls made and the error returned;
- `Calls.Run`, for what those calls do;
- `Registry.Register`, for the registration loop.

The properties are lemmas about those functions.

The exchanges map is a sequence of venues in one fixed, arbitrary order.
`Registry.Put` gives it map semantics: an entry with the same name is
replaced in place, otherwise the venue is appended. A trade context is
identified by its position `Key(venue, ctx)`, where `ctx` is the context's
index in the cursor walk. Both loops re-walk every cursor from its start.

Three behaviours of the code that a reader might not expect:

- `initHttpServer`'s error is passed to `errors.Errorf` and the resulting
  error value is never returned (integrator/integrator.go:90-93). A failed
  bind therefore does not stop the registration loop, and `Initialize` can
  still return nil.
- A failed venue construction calls `Finalize` and returns
  (integrator/integrator.go:116-118). Venues recorded earlier stay in the
  exchanges map; nothing destroys them.
- For each context the trade algorithms are created before the stream is
  started (integrator/integrator.go:143-149). When the start fails, that
  context has trade algorithms and no open stream until the rollback runs.

## Model

| member | source | states |
|---|---|---|
| Venues.Walk | integrator/integrator.go:134-140 | the contexts the nested venue/cursor loops visit are exactly the contexts of the venues |
| Venues.WalkSorted | integrator/integrator.go:134-140 | the walk visits contexts in strictly increasing (venue, cursor position) order |
| Venues.WalkCount | integrator/integrator.go:134-140 | the walk has one entry per context and visits each context exactly once |
| Calls.FirstFailure | integrator/integrator.go:143-153 | no index exactly when no call fails; otherwise the index of a failing call with no failing call before it |
| Calls.StartVisitsEachContextOnce | integrator/integrator.go:133-157 | a fault-free startStreaming creates each context's algorithms exactly once and starts its stream exactly once, the create immediately before the start, and touches no other key |
| Calls.SuccessfulStartOpensEverything | integrator/integrator.go:133-157 | when no create or start fails, startStreaming makes exactly those calls and afterwards every context has trade algorithms and an open stream; nothing else is added and the arbitrage algorithm is untouched |
| Calls.FailedStartAttemptsNothingLater | integrator/integrator.go:143-153 | after a failure, no create or start is issued for any context after the failing one in walk order; when the create failed, that context's stream is not started |
| Calls.StartFailsFirst | integrator/integrator.go:143-153 | when every call before context (vi, ci) succeeded and its create or start fails, that call is the first failure of the walk |
| Calls.StartFailsAt | integrator/integrator.go:143-153 | in that case startStreaming reports that venue's name and the failed step, and its calls are those before the context, the attempted create (and start), then all of stopStreaming |
| Calls.RollbackClearsEverything | integrator/integrator.go:143-180 | after a failed startStreaming, algorithms remain only on unwalked contexts that had them before or on contexts whose destroy failed (likewise streams and stop); so with no failing destroy and only walked contexts created before, none remain |
| Calls.StopVisitsEveryContext | integrator/integrator.go:160-183 | stopStreaming stops and then destroys every context of every venue exactly once, stop immediately before destroy, and touches no other key |
| Calls.StopStreamingEffect | integrator/integrator.go:160-183 | after stopStreaming a context keeps its algorithms only if it is not walked or its destroy failed, and its stream only if it is not walked or its stop failed; the arbitrage algorithm is untouched |
| Calls.CallCounts | integrator/integrator.go:133-183 | a fault-free startStreaming makes as many creates and as many starts as there are contexts, and stopStreaming as many stops and destroys |
| Registry.Put | integrator/integrator.go:122 | recording a venue under its name keeps names distinct, holds the venue, keeps every entry of another name in its place, and drops only the old entry of the same name |
| Registry.RegisterOnlyEligible | integrator/integrator.go:94-123 | only venues whose configuration is present and whose constructor is non-nil are constructed and recorded; names stay distinct |
| Registry.RegisterAddsEach | integrator/integrator.go:111-122 | when no eligible construction fails, no error is returned, every eligible venue is recorded under its name, and earlier entries of other names stay |
| Registry.RegisterStopsAtFailure | integrator/integrator.go:115-119 | the first failed construction ends the loop with that venue's name as the error, and the map holds exactly what the earlier registrations put there |
| ControlPlane.FinalizeAsWritten | integrator/integrator.go:128-131 | Finalize as written fails (nil dereference) exactly when no server was made |
| ControlPlane.FinalizeWithoutAddressPanics | integrator/integrator.go:128-131 | with an empty server address, Finalize as written panics |
| ControlPlane.FailedInitializeFinalizes | integrator/integrator.go:89-131 | on Initialize's failure path (initHttpServer, then Finalize), the code as written panics exactly when the address is empty on an integrator that never made a server; the corrected Finalize leaves no server open and closes the one made for a non-empty address |
| ControlPlane.FinalizeServer | integrator/integrator.go:128-131 | corrected Finalize: never leaves a server open, is a no-op without one, and agrees with the code wherever the code does not panic |
| Orchestrator.Integrator.constructor | integrator/integrator.go:262-268 | a new integrator has an empty exchanges map, an unused finish channel and no server |
| Orchestrator.Integrator.StreamingCallback | integrator/integrator.go:79-87 | issues one update to the context's trade algorithms and returns nil even when the update fails |
| Orchestrator.Integrator.StopContext | integrator/integrator.go:169-179 | one pass of stopStreaming's loop: a stop, then a destroy, on the context, whatever either returns |
| Orchestrator.Integrator.StopStreaming | integrator/integrator.go:160-183 | returns nil; its calls are exactly StopCalls and the collaborators end in their effect |
| Orchestrator.Integrator.StartContext | integrator/integrator.go:141-153 | one pass of startStreaming's loop: a create, then a start only if the create succeeded, with both outcomes reported |
| Orchestrator.Integrator.StartStreaming | integrator/integrator.go:133-158 | the error is StartStreamingError, the calls are exactly StartStreamingCalls (rollback included), and the collaborators end in their effect |
| Orchestrator.Integrator.StartArbitrage | integrator/integrator.go:199-206 | one create of the arbitrage algorithm; on error returns it and launches no loop, otherwise the loop runs (unless the channel is already closed) |
| Orchestrator.Integrator.StopArbitrageTrade | integrator/integrator.go:208-215 | requires the finish channel still open, since a second close panics; closes it, issues one destroy of the arbitrage algorithm, returns nil |
| Orchestrator.Integrator.Start | integrator/integrator.go:217-227 | a streaming error is returned and arbitrage is never attempted; otherwise the arbitrage result is returned and every context stays created and streaming; a failed start leaves no trade algorithms behind, given no failing destroy |
| Orchestrator.Integrator.Stop | integrator/integrator.go:229-239 | stops arbitrage before streaming, makes exactly those calls and returns nil; the arbitrage algorithm is gone unless its destroy failed |
| Orchestrator.Integrator.InitHttpServer | integrator/integrator.go:50-77 | no server and no error for an empty address; otherwise a server, and an error exactly when the bind fails |
| Orchestrator.Integrator.Finalize | integrator/integrator.go:128-131 | closes the server if there is one (corrected; see Findings) and returns nil |
| Orchestrator.Integrator.Initialize | integrator/integrator.go:89-126 | the exchanges map and error are those of the registration loop; the server is the one made by initHttpServer, finalized when a construction failed; the HTTP error does not stop the loop |

## Left out

- The HTTP control-plane server (integrator/integrator.go:24-77): gin routing, the listener goroutine, the one-second bind window and the blocking drain of `BlockingClose`. All are I/O and concurrency. The server is reduced to NoServer / Opened / Closed, and the bind outcome is the parameter `bindFails`.
- `ArbitrageLoop` (integrator/integrator.go:185-197): its goroutine, its 500 ms timer and the `UpdateArbitrageTradeAlgorithms` calls it makes. These are concurrency and timing. Only the NotStarted / Running / Stopped flag of the finish channel is modelled.
- Orchestrator.Integrator.StartArbitrage: calling Start twice launches a second loop goroutine. The model keeps a single Running flag.
- The reflection lookup of configuration fields (integrator/integrator.go:95-110) is replaced by the set `configured` of names with a non-nil configuration section. The non-nil constructor check is the flag `hasConstructor`.
- Go map iteration order (integrator/integrator.go:94, 134, 162) is modelled as one arbitrary but fixed order. Both loops use it.
- Trade IDs are not modelled. A context is identified by its position in its venue's cursor walk, so distinct contexts are assumed to have distinct IDs.
- A collaborator call that returns an error is modelled as changing nothing. A failing stop or destroy therefore leaves its entry in place.
- Orchestrator.Integrator.Start: the rollback postcondition `created == {}` holds only when no destroy fails and only walked contexts had trade algorithms before. Without those hypotheses, the robot's bookkeeping is not determined by the code.
- The internals of the robot, the notifier and the exchange connectors are not modelled. `ex.Initialize(streamingCallback)` is only a comment in the model. `NewIntegrator`'s calls to the notifier and robot constructors (integrator/integrator.go:253-261) are left out too: they are foreign code.
- algorithm/algorithm.go declares interfaces only and is not part of this model.
- Calls.StartStreamingError: the error names the venue by its registry key, the `name` under which Initialize recorded it (integrator/integrator.go:122). The code's messages use `ex.GetName()` (integrator/integrator.go:146, 152). The model assumes a connector's `GetName()` returns its registry name.
- Orchestrator.Integrator.StreamingCallback: the callback is handed to each connector (integrator/integrator.go:120) and called from the connector's own delivery task, concurrently with start and stop. The model makes it a sequential method, so it does not capture interleavings with the streaming loops.
- Error messages and wrapping (`errors.Wrap` text) become the constructors of `Error` and `StreamingFailure`, which keep the venue name and the failed step.

## Findings

| source | as written | input that shows it | evidently intended | confidence | as-written member | corrected member |
|---|---|---|---|---|---|---|
| integrator/integrator.go:128-131 | `Finalize` calls `i.gracefulServer.server.BlockingClose()` unconditionally. `gracefulServer` is nil when `initHttpServer` returned early for an empty address (lines 51-53). `Initialize` calls `Finalize` when a venue constructor fails (line 117). | server `AddrPort == ""` and one configured venue whose constructor returns an error: `Initialize` panics with a nil dereference instead of returning the construction error | close the server only if one was made; otherwise do nothing and return nil | not executed; high | ControlPlane.FinalizeAsWritten, ControlPlane.FinalizeWithoutAddressPanics | ControlPlane.FinalizeServer, Orchestrator.Integrator.Finalize |
