# Verified model of the cursor-controller

A Dafny model of a controller that turns requests of a fleet API into workers, and
of everything it depends on for that:

- **The fleet server** (`Fleet`, `FleetServer`, `FleetInvariant`, `FleetLedger`, `FleetLaws`): requests, workers,
  agents and an append-only event log, each handler one critical section. `Fleet` says
  what each handler does as a function of the state, `FleetServer.Server` does it in
  place, `FleetInvariant` proves what every run keeps, and `FleetLaws` says what each
  handler means for those who list and watch, on the stored fields alone.
- **Listing, watching, routing** (`Paging`, `Watch`, `Stream`, `StreamText`, `Sse`,
  `SseRoundTrip`, `SseLines`, `Routing`, `StreamRouting`, `FetchAndWatch`): the paged
  listing, the event stream with its notify channel, its text and the parser that reads it
  back, and the controller's filters.
- **The controller** (`ClaimHandlers`, `WakeLoop`, `ControllerConfig`, `Warm`, `Gc`,
  `GcRuns`, `GcReports`): concurrent claim-and-spawn handlers as small programs, the wake retry loop
  on a clock, the warm-capacity loop, and garbage collection with its latch.
- **The Kubernetes backend** (`KubeStore`, `ClusterApi` in Cluster.dfy, `KubeBackend`,
  `KubeLifecycle`, `KubeDispose`, `KubeRuns`, `KubeDriver`, `KubeInterleaving`, `KubeListing`, `KubeFacts`,
  `KubeStartup`, `KubeReport`, `KubeDisposed`, `KubeRequest`, `KubeNaming`, `Snapshots`,
  `Sorting`): a store of pods and persistent volume claims behind an API in which the
  rest of the world acts before every call and any call may be refused or lose its reply.
- **The hook backend** (`Hook`, `HookBackend`): record map, durable file and script,
  with operations on different workers interleaved at lock boundaries.
- **Recovery** (`Onward`, `Recovery`): server, retrying handlers and backend together.

How the pieces are stated:

- Objects that the program updates in place are classes whose methods are proved against
  functions or predicates on their state; lemmas about those carry the results to whole
  runs. `hide` keeps the proofs of single methods small.
- What an operation means is stated on fields, logs and texts, not through the functions
  that compute it: `FleetLaws`, `KubeStartup`, `GcRuns.MadeExactly`, `SseLines` and the like
  pin those functions down.
- Whatever lies outside is a parameter that may behave in any way: clocks, random
  suffixes and ids, the order in which maps and listings are walked, script exits, file
  writes, call failures, other actors. A Kubernetes operation on worker `w` assumes of the
  others (`KubeStore.Rely`) that they add no pod for `w`, take no pod name of `w`, never
  revive a terminal pod and keep labels fixed per uid, and starts from a store in which
  pods labelled for a worker bear names minted for it. `KubeStore.OwnWriteIsOutside` shows
  that operations on other workers respect this. "Undisturbed" (`Quiet`) means nobody else
  acts and no call fails.
- Times are whole numbers of milliseconds, with 0 for the zero time.

Where the code and its comments differ, the model follows the code:

- Wake is documented as nil for a worker that is already live; with retained claims the
  code reports a missing workspace when the claim is gone, live pod or not
  (`KubeBackend.Wake` gives the exact condition, `KubeBackend.LiveButMissing` a case).
- The listing of "every pending request" stops at 10000 (`Paging.ListAllPendingRequests`), so
  a request beyond that may reach no handler (`FetchAndWatch.MissedExactlyBeyondBound`).
- Counting starting workers prevents over-spawning in ticks shortly after each other
  (`Warm.WarmPool.Loop`), but not when the listing fails or the pool row misses an older
  worker (`Warm.WarmPool.OvershootsExactlyWhen`, with a failing run of each kind).
- A line of the event stream loses up to two trailing CRs, one to the scanner and one to
  the loop, so the round trip needs lines not ending in CR (`SseRoundTrip.RoundTrip`).
- Which request ListWorkers names can depend on the listing order
  (`KubeReport.RequestDependsOnOrder`; `KubeNaming.NamedExactlyWhen` says exactly when).
- A sleeper that is late at its select may take a timer that fired after the deadline, so
  one wake attempt more may be made than the intervals begun in the window
  (`WakeLoop.LateSleeper`).
- Two pointers to zero-size claim tokens may compare equal, so the recent-claim marks are
  not assumed to tell handlers apart (`ClaimHandlers.NoMarkLeaks` holds either way).

`dafny verify dfyconfig.toml` checks the whole project.

## Model

| member | source | states |
|---|---|---|
| `FleetServer.Server.CreateAgent` | internal/fakeapi/server.go:527-583 | A new agent and its pending request appear together, announced by one `created` event, in the pool asked for: the body's own, else that of a pool environment, else the default; a taken id is a conflict that changes nothing but the id counter. Keeps the invariant. |
| `FleetServer.Server.Claim` | internal/fakeapi/server.go:368-400 | Claiming succeeds exactly on a pending request; it then stores the worker (making an offline one if unknown), logs the claim and emits `claimed`; every other case answers bad request, not found or conflict and changes nothing. Keeps the invariant. |
| `FleetServer.Server.Release` | internal/fakeapi/server.go:402-419 | Releasing a claimed request requeues, logs and announces it; anything else is not found and changes nothing. Keeps the invariant. |
| `FleetServer.Server.Followup` | internal/fakeapi/server.go:616-650 | A follow-up requeues an unclaimed request, marks a connected worker active, or awaits the wake of an offline one and announces that with the wake window; archived agents refuse it. Keeps the invariant. |
| `FleetServer.Server.DeleteAgent` | internal/fakeapi/server.go:598-611 | Deleting an agent expires its request silently; an unknown agent is not found. Keeps the invariant. |
| `FleetServer.Server.ArchiveAgent` | internal/fakeapi/server.go:585-596 | Archiving only changes the agent. Keeps the invariant. |
| `FleetServer.Server.ExpireRequest` | internal/fakeapi/server.go:654-666 | Expiring ends any awaited wake and emits `expired`. Keeps the invariant. |
| `FleetServer.Server.RegisterPool` | internal/fakeapi/server.go:449-462 | Registers or replaces a pool by name, scope team by default; a missing name is refused. Keeps the invariant. |
| `Stream.EmitWakes` | internal/fakeapi/server.go:248-254 | An event wakes every stream that is up to date and asleep, gets a number above all earlier ones, and is then exactly what the stream collects. |
| `FleetServer.Server.ConnectWorker` | internal/fakeapi/server.go:668-710 | A connecting worker ends the wakes of all requests it holds, resumes their agents, and is marked active with one of them, for any order in which the request map is walked. Keeps the invariant. |
| `FleetServer.Server.DisconnectWorker` | internal/fakeapi/server.go:712-729 | A disconnecting worker loses its active mark and idles the agent it was active with. Keeps the invariant. |
| `FleetServer.Server.ListPending` | internal/fakeapi/server.go:269-299 | One page of the pending requests of a pool, in order, with the next page's token and a cursor for the current event number; a token past the end aborts before anything changes. Keeps the invariant. |
| `FleetLaws.CreatedWhereAsked` | internal/fakeapi/server.go:549-583 | A creation is accepted exactly if its id is free; the new request, with the fields and labels given, is then listed and announced to the watchers of the pool asked for and of all pools, and of no other. |
| `FleetLaws.GeneratedIds` | internal/fakeapi/server.go:561-565 | Generated ids have the API's shape and are never the same twice. |
| `FleetLaws.ListingExactly` | internal/fakeapi/server.go:263-286 | A listing has precisely the requests of its pool that wait for a claim or a wake, each as it stands: labels and fields, and for an awaited wake the worker and its pool's window in milliseconds. |
| `FleetLaws.ListingInOrder` | internal/fakeapi/server.go:279-286 | And in the order of creation. |
| `FleetLaws.PageExactly` | internal/fakeapi/server.go:269-299 | A page holds the limit asked for, if between 1 and 100, else 50 requests from the token's place on; there is a next token exactly if there is more; a token past the end changes nothing. |
| `FleetLaws.ClaimedAndGone` | internal/fakeapi/server.go:368-400 | An accepted claim takes the request out of every listing and gives it to the worker, an unknown worker joining as offline; a refused one changes nothing. |
| `FleetLaws.ReleaseUndoesClaim` | internal/fakeapi/server.go:377-419 | Claiming and releasing restores the requests, and announces and lists the request again in its pool. |
| `FleetLaws.EndedIsOver` | internal/fakeapi/server.go:598-666 | After expiry, or deletion of its agent, a request is in no listing and can be neither claimed nor released; only expiry is announced. |
| `FleetLaws.FollowedUp` | internal/fakeapi/server.go:616-650 | A follow-up for an active agent: with its worker connected the worker takes it up and nothing is announced; offline, the wake is awaited, listed and announced with the pool's window; unclaimed, the request waits, listed and announced. |
| `FleetLaws.NotFollowedUp` | internal/fakeapi/server.go:616-628 | Archived and unknown agents take no follow-up: a conflict or not found, and nothing changes. |
| `FleetLaws.ArchivedIsClosed` | internal/fakeapi/server.go:585-628 | Archiving closes precisely the agent named: its follow-ups conflict. |
| `FleetLaws.ConnectedTakesOver` | internal/fakeapi/server.go:668-710 | A connecting worker ends the waits of precisely the requests it holds, which leave every listing, and resumes their agents; it is active with one of them if it holds any; other requests and agents stay. |
| `FleetLaws.DisconnectedIsOffline` | internal/fakeapi/server.go:712-729 | A disconnecting worker is offline and idles precisely the active agent it served; the requests stay. |
| `FleetLaws.RegisteredWindow` | internal/fakeapi/server.go:449-462 | A registered pool's ready timeout becomes the wake window of its follow-ups; the scope is team unless given. |
| `FleetLaws.OpensWhileYoung` | internal/fakeapi/server.go:301-316 | A cursor opens a stream exactly while it is known and no older than its life, and then right after its number. |
| `FleetInvariant.InvHoldsAlways` | internal/fakeapi/server.go:368-729 | Over every run: pending means no claimed worker and no awaited wake; claimed means a stored worker that exists; claimed and awaiting means that worker is offline; an active mark means connected; every request starts with a non-empty pool label; events are numbered without gaps; issued cursors name existing numbers. |
| `FleetInvariant.ReachableInv` | internal/fakeapi/server.go:164-174 | So this holds of every state a new server can reach. |
| `FleetInvariant.DeletedStaysExpired` | internal/fakeapi/server.go:598-614 | A request whose agent was deleted is expired in every later state. |
| `FleetInvariant.ClaimLedger` | internal/fakeapi/server.go:377-419 | Conservation over every run: claims of a request = its releases + its claims ended by expiry or deletion + 1 if claimed now. |
| `FleetLedger.EveryClaimIsTold` | internal/fakeapi/server.go:391-398 | Over every run as many `claimed` events name a request as claims of it were made: each claim is told exactly once. |
| `Watch.ListThenWatch` | internal/fakeapi/server.go:269-366 | List-then-watch loses nothing: in every state reached after a listing, a pending request of the pool was listed just as it is now, or a newer event that passes the pool filter announces it with its current worker and labels, and no later event contradicts it. |
| `Watch.PoolRulesAgree` | internal/cursorapi/types.go:49-56 | The server's and the client's pool rules agree on every request that keeps the invariant. |
| `CursorTypes.RoutedPool` | internal/cursorapi/types.go:38-54 | A request is routed to the value of its first pool label, or to default when there is none or it is empty. |
| `Stream.DeliveredExactly` | internal/fakeapi/server.go:329-355 | Under every interleaving of emits and the stream loop, what was written is exactly the matching events between the opening number and the loop's position. |
| `Stream.OutInOrder` | internal/fakeapi/server.go:329-346 | Written numbers strictly increase, so nothing is delivered twice. |
| `Stream.NoLostWakeup` | internal/fakeapi/server.go:248-254 | A loop asleep on a channel that is still open has nothing undelivered: the notify channel is read in the same critical section as the events. |
| `Stream.ServerRunsOn` | internal/fakeapi/server.go:329-355 | Whatever the interleaving, the server's state is what its handlers alone make of it. |
| `Stream.CatchesUp` | internal/fakeapi/server.go:329-355 | From wherever it is the loop can catch up by its own steps: it then sleeps with every matching event written. |
| `Stream.OpenedAtListing` | internal/fakeapi/server.go:290-314 | The cursor a listing hands out, used at any time within its life and whatever the server did in between, opens the stream right after the events the listing reflects. |
| `Stream.StreamLoop.Collect` | internal/fakeapi/server.go:330-338 | Keeps the loop's invariant: collects precisely the events after the position, and reads the channel that the next event will close, in one critical section. |
| `Stream.StreamLoop.WriteOne` | internal/fakeapi/server.go:339-345 | Keeps the loop's invariant: the position moves to the next number, and what was written is then exactly the matching events up to it. |
| `Stream.StreamLoop.Heartbeat` | internal/fakeapi/server.go:347-353 | Keeps the loop's invariant: a heartbeat carries the position and delivers no event. |
| `Stream.WatcherMissesNothing` | internal/fakeapi/server.go:269-355 | End to end: list, open the stream at the listing's cursor at any later time, interleave; whenever the loop sleeps on an open channel every pending request of the pool was listed as it is or delivered. |
| `StreamText.ClientReads` | internal/fakeapi/server.go:324-352 | Writer and reader agree on every byte: parsing what the stream handler wrote, opening comment and heartbeats included, gives its frames, one event each. |
| `StreamText.WireFrame` | internal/cursorapi/types.go:142-148 | Each frame bears the API's name for its event, its number as a cursor, and its payload. |
| `StreamRouting.TextRoutesAlike` | internal/controller/controller.go:310-357 | A parsed event, dispatched on its name and decoded payload, leads to the handler the server's event calls for; a heartbeat leads to none. |
| `StreamRouting.ServedFromTheBytes` | internal/controller/controller.go:232-361 | End to end through the bytes: whenever the stream is drained, every pending request of a served pool was listed, or is announced by an event parsed from the bytes written, and routed to the handler that fits. |
| `Routing.EverythingServedIsHandled` | internal/controller/controller.go:232-361 | Composition with the controller's filters, for no, one or several configured pools: every request of a served pool that is pending when the stream is drained was routed to the handler that fits its present state (wake its worker, or claim it). |
| `Routing.OnlyServedPools` | internal/controller/controller.go:324-327 | When the controller filters pools itself, no event of a pool it does not serve leads to a claim or a wake. |
| `Routing.ListedExactlyServed` | internal/controller/controller.go:254-258 | The list pass passes over precisely the requests of pools not served; a pool watched alone by name is not filtered again. |
| `Routing.ClaimsTraced` | internal/controller/controller.go:333-350 | A claim made here a moment ago needs nothing, any other is traced to its worker. |
| `FetchAndWatch.ServedIsHandledWhenFetched` | internal/cursorapi/client.go:207-227 | Up to 10000 pending requests, what the paged client really fetches with the stream opened at its cursor routes every pending request of a served pool to the handler that fits it. |
| `FetchAndWatch.MissedExactlyBeyondBound` | internal/cursorapi/client.go:207-227 | In any state, list and then watch while nothing happens: some pending request reaches no handler if and only if more than 10000 are pending. |
| `FetchAndWatch.OneTooMany` | internal/cursorapi/client.go:207-227 | A new server with 10001 agents created is such a state: one request is neither fetched nor announced. |
| `Sse.ParseSSE` | internal/cursorapi/sse.go:12-59 | The scan loop reports exactly the events of a block-by-block reference reading, up to the first the callback rejects. |
| `SseRoundTrip.RoundTrip` | internal/cursorapi/sse.go:12-59 | Printed events are read back unchanged if and only if type and id have no line feed and no type, id or data line ends in CR. |
| `SseRoundTrip.ParseConcat` | internal/cursorapi/sse.go:12-59 | parse(a + b) = parse(a) + parse(b) when a is empty or ends with a blank line. |
| `SseRoundTrip.InsertedLineChangesNothing` | internal/cursorapi/sse.go:32-52 | A comment, retry or unknown-field line inserted anywhere between lines changes no event. |
| `SseRoundTrip.CommentsAndUnknownFields` | internal/cursorapi/sse.go:32-52 | The same in the text's own terms: a line that starts with a colon, or whose name is not event, id or data (retry among them). |
| `SseLines.CrLf` | internal/cursorapi/sse.go:32 | A line may end in CRLF as well as in LF, whatever stands around it. |
| `SseLines.SpaceIsOptional` | internal/cursorapi/sse.go:42-43 | One space after the colon is no part of the value and need not be there. |
| `SseLines.BareField` | internal/cursorapi/sse.go:42-43 | A field without a colon has an empty value. |
| `SseLines.LaterFieldWins` | internal/cursorapi/sse.go:45-48 | Of two types, or two ids, in an event the later counts. |
| `SseLines.WithoutData` | internal/cursorapi/sse.go:20-30 | An event with a type or an id and no data is told with empty data. |
| `Paging.ListAllPendingRequests` | internal/cursorapi/client.go:207-227 | Against a server nobody else changes: the first min(n, 10000) pending requests in order, and the first page's cursor; so every pending request, as the comment there says, exactly up to 10000. |
| `Paging.ListedDistinct` | internal/fakeapi/server.go:279-286 | The full listing has no request twice. |
| `Paging.ListAllWorkers` | internal/cursorapi/client.go:368-385 | On any paged source: the full concatenation when a page without a next token comes among the first hundred, an error otherwise, never a truncated list. |
| `ClaimHandlers.OneHandlerPerRequest` | internal/controller/controller.go:414-420 | Over all interleavings of any handlers, timers and server steps, at most one handler per request is past the in-flight guard. |
| `ClaimHandlers.TurnedAwayExactlyWhen` | internal/controller/controller.go:417-420 | A handler is turned away exactly when another one for its request is past the guard. |
| `ClaimHandlers.OwnReleaseMayBeTurnedAway` | internal/controller/controller.go:417-420 | When a routed request is dropped: a handler that comes for the announcement of a release, while the releasing handler still holds the guard, is turned away, and the request stays pending with nobody at it until a later listing or event. |
| `ClaimHandlers.LeftPending` | internal/controller/controller.go:417-458 | Such a run from a new server with one agent: its request ends pending, both handlers are done, and neither serves it. |
| `ClaimHandlers.ClaimCompensated` | internal/controller/controller.go:428-462 | Over all interleavings, a handler that has finished called Spawn exactly once per acknowledged claim and ReleaseClaim exactly if that spawn failed, and neither without an acknowledgement; every spawn is for a request and worker that the server stored together. |
| `ClaimHandlers.SpawnWasAcked` | internal/controller/controller.go:422-453 | Every spawn call answers a claim acknowledged to the same handler, for the same request and worker. |
| `ClaimHandlers.NoMarkLeaks` | internal/controller/controller.go:422-447 | Every recent-claim mark belongs to a handler still at it or to an armed timer, whether or not two tokens compare equal. |
| `ClaimHandlers.OwnClaimIsKnown` | internal/controller/controller.go:422-447 | While no timer takes another token for its own, a handler's acknowledged claim is marked as made here, so the event of its own claim is recognised. |
| `ControllerConfig.Defaults` | internal/controller/controller.go:83-109 | Positive intervals keep their values and others get the documented ones; the pools are each kept once, in order of first occurrence. |
| `WakeLoop.Controller.Retry` | internal/controller/controller.go:490-500 | At most ceil(T / I) + 1 attempts in a window T, one without a window; all but the last were transient failures, and an answer that is not transient is the last; it gives up on a transient failure only once the window is over. |
| `WakeLoop.LateSleeper` | internal/controller/controller.go:215-226 | The bound is reached: a handler held before its last select until timer and deadline have both passed makes one attempt more than the intervals begun. |
| `WakeLoop.Controller.Sleep` | internal/controller/controller.go:215-226 | Without a duration, whether the context is still open; otherwise, however late the sleeper is at its select or resumed, it wakes no earlier than asked and gives up no earlier than the deadline, and when both channels are ready either may win. |
| `WakeLoop.Controller.Wake` | internal/controller/controller.go:464-532 | One release exactly when the last answer is a missing workspace or an unknown worker, none otherwise; foreign and busy workers are left alone; the guard is given back. At most ceil(T / I) + 1 attempts for the request's wake timeout T, and for the time left to the handler; it gives up on a transient failure only when one of the two is over. |
| `KubeBackend.Wake` | internal/backend/kube/kube.go:184-229 | With the world acting before every call and any call failing: all writes are legal for this worker, a nil return saw a live pod, an unknown worker had no pod at some moment of the call, and a gone claim never gives nil. Undisturbed: exactly which error, the claim stamped and otherwise the same, a live pod reused or exactly one pod built with the recorded seed and the old ones cleared, everything of others untouched. The interface comment calls Wake nil for every live worker; the code asks for the claim first, and the contract gives the exact condition. |
| `KubeBackend.CheckWorkspace` | internal/backend/kube/kube.go:190-206 | Missing exactly for an absent or terminating claim, an error for a foreign one, else the claim is stamped and otherwise unchanged. |
| `KubeBackend.RetainedExactly` | internal/backend/kube/kube.go:190-200 | A claim is a named worker's if it is under its name, labelled for it and not terminating; one without a worker label is nobody's. |
| `KubeBackend.LiveButMissing` | internal/backend/kube/kube.go:190-200 | A worker with a live pod whose claim somebody removed: Wake reports its workspace missing. |
| `KubeBackend.Replace` | internal/backend/kube/kube.go:219-229 | One pod built for the spawn; then the delete of each terminal one is tried, whatever becomes of the others. |
| `KubeBackend.DeleteListed` | internal/backend/kube/kube.go:335-339 | Deletes precisely the listed pods; Dispose stops at the first failure, Wake goes on. |
| `KubeLifecycle.Spawn` | internal/backend/kube/kube.go:171-181 | A nil return leaves a live pod and saw the workspace; undisturbed, exactly the claim made or stamped and one pod built for the request are new. The id is not checked: the worker has one live pod afterwards exactly if none was live before. |
| `KubeLifecycle.EnsurePvc` | internal/backend/kube/kube.go:366-415 | A retained claim is reused without choosing a seed again; an absent one is built, with the newest usable snapshot as seed when one is asked for; a terminating or foreign one is an error that changes nothing. When no call fails, it fails only over a claim that was there and could not be used at some moment since, or for want of a seed: losing a creation race takes the other's claim over. |
| `KubeLifecycle.ChooseSeed` | internal/backend/kube/kube.go:394-398 | The template's annotations, with the newest usable snapshot as seed when one is asked for; no usable snapshot is an error. |
| `KubeLifecycle.Reuse` | internal/backend/kube/kube.go:371-379 | An existing claim is taken over exactly if it is the worker's and not terminating. |
| `KubeBackend.CreatePod` | internal/backend/kube/kube.go:440-457 | The pod created is pending, labelled for the worker and its pool, named for it, stamped with kind, time and request over the template, without a startup marker; it carries the seed recorded on the claim, or the template's when none is recorded. |
| `KubeDispose.RecordClaim` | internal/backend/kube/kube.go:232-250 | However the world interferes, after success every pod live at the listing carried the request then or later, and so did the claim unless it was not there. Undisturbed, every live pod and the claim carry the request afterwards, only live pods that did not carry it are touched, and nothing else changes; a missing claim is no error. |
| `KubeDispose.Dispose` | internal/backend/kube/kube.go:329-364 | However the world interferes: a claim is touched only after every pod the call listed, terminal ones included, was deleted, ended only while no pod of the worker is live, and only if labelled for it; after nil no pod is live and the claim is absent or terminating. Undisturbed it succeeds exactly when the claim is not somebody else's, records the reason, and touches nothing of others. |
| `KubeDispose.DisposePvc` | internal/backend/kube/kube.go:342-363 | The claim read by Get is deleted by uid, so an object that took its name in between is not. |
| `KubeDispose.NeverEndsForeign` | internal/backend/kube/kube.go:351-353 | No write of an operation on a worker ends a claim that is not labelled for that worker. |
| `KubeDispose.DisposeThenWake` | internal/backend/kube/kube.go:190-200 | After a nil Dispose the next Wake reports the workspace missing, unless a call of its own fails; it never succeeds. |
| `KubeDispose.DisposeTwice` | internal/backend/kube/kube.go:329-364 | Disposal is idempotent. |
| `KubeRuns.OneLivePodAlways` | internal/backend/kube/kube.go:171-229 | In every run in which operations on one worker do not overlap, Spawn uses ids without a live pod, and the rest of the world adds no pod for a worker, takes none of its pod names, revives no terminal pod and keeps labels fixed, no worker ever has two live pods. |
| `KubeRuns.SamePodLater` | internal/backend/kube/kube.go:569-578 | A pod seen again later has the same labels and seed, keeps a startup marker, and is not live again once it was not. |
| `KubeRuns.SeedNeverChanges` | internal/backend/kube/kube.go:366-428 | The seed recorded on a claim never changes while that claim exists. |
| `KubeRuns.PodsShareTheSeed` | internal/backend/kube/kube.go:440-449 | In every run a pod that appeared with its claim's recorded seed carries the recorded seed for as long as both exist; when none is recorded, the template's. |
| `KubeDriver.PodsCarryTheirSeed` | internal/backend/kube/kube.go:440-449 | In the history of any sequence of operations, every pod of a worker that appears while its claim is there carries the seed the claim records for as long as both exist, or the template's when it records none, as `KubeDriver.Drive` ensures of its whole history. |
| `KubeRuns.NewPodsAreUnmarked` | internal/backend/kube/kube.go:460-469 | A pod of a worker that appears in a run is new and carries no startup marker, so its predecessor's startup does not vouch for it. |
| `KubeRuns.LogIsRun` | internal/backend/kube/kube.go:171-364 | What the modelled cluster records of backend writes and the world's moves is such a run, so the run theorems apply to it at every moment. |
| `KubeDriver.Drive` | internal/backend/kube/kube.go:171-364 | Any sequence of Spawn, Wake, RecordClaim, Dispose and ListWorkers, with new ids for Spawn, any outcome of any call, and a world that respects every worker: the whole history is such a run, and if nobody else makes claims every pod added carries its claim's seed. |
| `KubeInterleaving.Live` | internal/backend/kube/kube.go:171-364 | A worker's life, from Spawn under a new id through any calls for it, while steps of other workers' operations and of outsiders come between any two requests to the cluster: taken apart into all these steps, the history is a run, and if nobody else makes the worker's claim every pod its operations add carries the claim's seed. |
| `KubeInterleaving.OthersRespect` | internal/backend/kube/kube.go:171-364 | Any number of such steps gives what an operation on the worker assumes of the world. |
| `KubeReport.ListWorkers` | internal/backend/kube/kube.go:253-326 | A result is the order-independent aggregate of what was listed: one record per non-empty id, strictly sorted; live iff a pod is up and has started or is within the startup timeout; timed out iff not live and one is up, not started and past it; earliest creation, latest activity; a request named iff some object names one, and then one of those. Which request and pool are chosen is the fold of the worker's objects in the order listed. Its only writes are startup markers, on listed live pods that have started and carried none, and after a result every such pod has carried one. Undisturbed there is always a result. |
| `KubeStartup.StartedExactly` | internal/backend/kube/kube.go:597-616 | Started means: the startup marker, the Ready condition, or the worker's container (the first of the configured name, else the first) being ready, or past a startup probe it has. |
| `KubeStartup.LiveExactly` | internal/backend/kube/kube.go:569-592 | Live and timed out, as reported, in terms of phase, deletion mark, age and evidence of the listed pods. |
| `KubeStartup.YoungIsLive` | internal/backend/kube/kube.go:588-591 | A pod that is up and younger than the timeout, or without a creation time, or without a timeout, makes every report call its worker live and not timed out. |
| `KubeStartup.OverdueIsTimedOut` | internal/backend/kube/kube.go:588-592 | A worker whose pods that are up have all not started and are past the timeout is reported not live and timed out. |
| `KubeStartup.ReportedExactly` | internal/backend/kube/kube.go:257-325 | A worker is reported exactly if it has a pod, or a claim that is not terminating. |
| `KubeStartup.SummaryExactly` | internal/backend/kube/kube.go:269-311 | Creation is the earliest known creation time, activity the latest creation, claim, container finish or deletion time, of the worker's pods and claims; request and pool are on one of them. |
| `KubeStartup.PoolNamed` | internal/backend/kube/kube.go:269-297 | The pool a record names, in the order listed: that of the worker's last claim that is not terminating, or else of its first pod that names one. |
| `KubeListing.PvcStep` | internal/backend/kube/kube.go:269-279 | Merging one claim keeps the record a summary of everything met so far. |
| `KubeListing.PodStep` | internal/backend/kube/kube.go:294-311 | Merging one pod keeps the record a summary of everything met so far: liveness, timeout, times and names. |
| `KubeListing.Collect` | internal/backend/kube/kube.go:313-325 | The records of non-empty ids, liveness known, strictly sorted, from a map walked in any order. |
| `KubeListing.Latest` | internal/backend/kube/kube.go:642-650 | The maximum, zero for none. |
| `KubeReport.DisposedIsNotReported` | internal/backend/kube/kube.go:269-272 | Terminating claims are ignored: a worker with no claim but terminating ones and no pod among the objects listed is in no report. |
| `KubeReport.OnlyThroughPods` | internal/backend/kube/kube.go:269-311 | A reported worker whose claims are all terminating is reported through one of its pods, and as live only through a live one. |
| `KubeDisposed.DisposeThenList` | internal/backend/kube/kube.go:269-364 | With retained claims, each under its worker's name, and nobody else making this worker's: Dispose, then list, the world acting in between; after nil a report names the worker only while one of its pods is still there, terminal or terminating, and then not as live. |
| `KubeReport.OrderDoesNotMatter` | internal/backend/kube/kube.go:257-325 | Two reports on the same objects, listed in any two orders, have the same workers in the same places and agree on all but which request and pool they name. |
| `KubeNaming.RecordNames` | internal/backend/kube/kube.go:274-300 | The request of a record is the one this order of claims and pods leaves. |
| `KubeNaming.NamedExactlyWhen` | internal/backend/kube/kube.go:274-300 | Every order of the claims and pods names the same request if and only if, after any request the claims may leave, it is unanimous among the pods that could take over, or there is a moment since which every active pod was claimed for it. |
| `KubeRequest.EveryOrderExactlyWhen` | internal/backend/kube/kube.go:298-302 | The same for the pods alone, from any record in the making. |
| `KubeNaming.LatestClaimNames` | internal/backend/kube/kube.go:298-302 | A pod claimed after all activity of the worker's other objects names the request in every order. |
| `KubeNaming.TwoPodsExactlyWhen` | internal/backend/kube/kube.go:298-302 | For two pods that name different requests: the orders agree exactly when one was claimed after all activity of the other. |
| `KubeReport.RequestDependsOnOrder` | internal/backend/kube/kube.go:298-300 | The request may depend on the order: a pod that ended the moment its successor was woken for another request. |
| `KubeReport.StartupIsALatch` | internal/backend/kube/kube.go:288-293 | A live pod that an error-free pass saw started is never again judged timed out, at any later moment, with any options. |
| `KubeReport.ReportedLive` | internal/backend/kube/kube.go:303-311 | While such a pod lives, every later report calls its worker live and not timed out. |
| `Snapshots.SelectSnapshot` | internal/backend/kube/snapshots.go:18-44 | None exactly when no snapshot is ready and not being deleted, else the newest usable one, ties broken by the greatest name. |
| `Snapshots.ChoiceIsUnique` | internal/backend/kube/snapshots.go:34-40 | The choice does not depend on the order of the list. |
| `Hook.InvAlways` | internal/backend/hook/hook.go:87-205 | In every interleaving at lock boundaries, even with failing saves: a start script runs only while memory and file hold its record, and a started worker stays in memory and on file until it is removed. |
| `Hook.SurvivesRestarts` | internal/backend/hook/hook.go:271-290 | A started worker is in memory and on file until it is removed, whenever and however often the process stops between two sections and loads its file again. |
| `Hook.FailedStartRestores` | internal/backend/hook/hook.go:106-150 | A failed Spawn or Wake puts back exactly its worker's previous record, whatever operations on other workers did meanwhile. |
| `Hook.StartSucceeds` | internal/backend/hook/hook.go:87-154 | A start runs its script exactly if its record could be written and, for a Wake, the worker is known; when the script succeeds, whatever other workers' operations did, the worker is started with the record asked for: a Wake keeps pool and creation time and takes a new request. |
| `Hook.DisposalForgets` | internal/backend/hook/hook.go:179-205 | After a successful disposal the worker is out of memory, and out of the file if that could be written; after a failed one its record is as it was. |
| `Hook.RestartLoads` | internal/backend/hook/hook.go:271-290 | A restart leaves in memory just what the file holds. |
| `Hook.TouchesOnlyItsWorker` | internal/backend/hook/hook.go:87-205 | No section changes another worker's record in memory, nor on file except to what memory holds. |
| `HookBackend.HookBackend.RunsRespectWorker` | internal/backend/hook/hook.go:104-107 | What the class assumes of the world while a script runs follows from any run of other workers' operations. |
| `Hook.FileIsMemory` | internal/backend/hook/hook.go:292-310 | While saves succeed the file equals memory after every section. |
| `Hook.PartsExactlyWhen` | internal/backend/hook/hook.go:156-205 | File and memory part exactly when a save fails in RecordClaim, in the last section of Dispose, or in a rollback, and the section changed something. |
| `HookBackend.HookBackend.SaveLocked` | internal/backend/hook/hook.go:292-310 | All or nothing: the file becomes the records sorted by id, and loading them gives memory back. |
| `HookBackend.HookBackend.constructor` | internal/backend/hook/hook.go:271-290 | A new backend holds what its file holds. |
| `HookBackend.HookBackend.RecordClaim` | internal/backend/hook/hook.go:156-166 | Stamps request and time on a known record and changes no other; a failing save leaves the change in memory only. |
| `HookBackend.HookBackend.ListWorkers` | internal/backend/hook/hook.go:168-177 | Every record once, strictly sorted by id, each with its own pool, request and times, and unknown liveness. |
| `HookBackend.HookBackend.Spawn` | internal/backend/hook/hook.go:87-118 | The script starts exactly if the save succeeded, with its record on file; exit 0 keeps the record in memory and on file, anything else puts the previous one back. |
| `HookBackend.HookBackend.Wake` | internal/backend/hook/hook.go:120-154 | Unknown exactly when there is no record; otherwise as Spawn, keeping pool and creation time and taking the request unless it is empty; exit 66 is a missing workspace. |
| `HookBackend.HookBackend.Dispose` | internal/backend/hook/hook.go:179-205 | A failing script keeps the record; otherwise it goes, and a failing save does not bring it back. |
| `Warm.WarmPool.Reconcile` | internal/controller/controller.go:549-592 | Exactly max(0, wanted - idle - starting) spawns when spawns succeed; when the row's idle workers are the settled spare ones the pool is filled up exactly; no overshoot beyond the larger of what there was and what is wanted when the listing succeeded and the pool row covers the workers no longer young; and, undisturbed, an overshoot exactly when something is asked for although spare workers were missed. |
| `Warm.WarmPool.CountStarting` | internal/controller/controller.go:566-572 | Counts the live unclaimed workers of the pool younger than five minutes. |
| `Warm.SparesAre` | internal/controller/controller.go:566-572 | Spare workers are the live ones of the pool that serve no request, each counted once. |
| `Warm.StartingAre` | internal/controller/controller.go:566-572 | Starting ones are those of them younger than five minutes when looked at. |
| `CursorTypes.PoolRow.IdleWorkerCount` | internal/cursorapi/types.go:89-94 | Connected minus in use, never negative. |
| `Warm.WarmPool.Loop` | internal/controller/controller.go:537-545 | The same over any number of ticks, with the world only taking spare workers away. Over any stretch shorter than five minutes it is enough that listings succeed and the rows cover the spare workers that were there before it: those the loop spawned are stamped with their creation and counted as starting, so back-to-back ticks do not over-spawn. |
| `Warm.WarmPool.OvershootsExactlyWhen` | internal/controller/controller.go:566-591 | The exact condition on a tick: something is asked for, and the row's idle workers are fewer than the spare workers no longer young, or, when the listing fails, than all spare workers. |
| `Warm.FailedListingOvershoots` | internal/controller/controller.go:566-591 | A tick with a failing listing that doubles a full pool. |
| `Warm.MissedWorkerOvershoots` | internal/controller/controller.go:566-591 | A tick with a successful listing that does, because the pool row misses a worker older than five minutes. |
| `Gc.Collector.RunGC` | internal/controller/controller.go:634-688 | A pass attempts to dispose of precisely the listed workers that are owned, known to be offline and due under the five-way policy, each for its one reason, in order; it releases exactly the requests of successful startup-timeout disposals; a failed listing changes nothing. |
| `Gc.Collector.Liveness` | internal/controller/controller.go:692-708 | The backend's word if it has one; else connected is live, not found is offline, any other answer unknown. |
| `Gc.Collector.DisposeReason` | internal/controller/controller.go:710-764 | Answers a reason exactly when its condition of the policy holds; sets the latch exactly when the agent API, asked, refuses the key. |
| `GcRuns.GcLoop` | internal/controller/controller.go:612-622 | Any number of passes form a run in which each is exact and hands its latch to the next. |
| `GcRuns.MadeExactly` | internal/controller/controller.go:644-764 | A pass disposes of a listed worker for a reason exactly if it is owned, known offline, and due for that reason, spelled out on the record's times and request, the limits, the clock and the agent's state. |
| `GcRuns.LatchedExactly` | internal/controller/controller.go:731-764 | The latch is set exactly if it was before, or the agent API was asked for an earlier worker and refused the key. |
| `GcRuns.ReleasedExactly` | internal/controller/controller.go:672-688 | A pass releases precisely the requests of the workers it successfully disposed of after a startup timeout. |
| `Backend.OwnedExactly` | internal/backend/backend.go:117-119 | A worker is owned exactly if its id is the prefix, a dash and something more, as every minted id is. |
| `GcReports.StartedIsSpared` | internal/controller/controller.go:644-664 | End to end with the Kubernetes backend: while a pod that an error-free report saw started lives, no pass over a later report disposes of its worker, whatever the policy, the clock and the agent API say. |
| `GcReports.YoungIsSpared` | internal/controller/controller.go:644-664 | No pass over a report disposes of a worker one of whose listed pods was up and within the startup timeout, whatever the policy, the clock and the agent API say. |
| `GcReports.OverdueIsDisposed` | internal/controller/controller.go:644-664 | A pass over a report disposes, for a startup timeout, of every owned worker whose pods that are up have all not started and are past it. |
| `GcRuns.NoAgentReasonAfterRefusal` | internal/controller/controller.go:731-764 | After the agent API refused the key once, no later disposal is for an archived or deleted agent. |
| `GcRuns.ExpiresAtFirstPass` | internal/controller/controller.go:714-724 | With a hard limit, an unchanged offline record is disposed of as expired in the first pass in which its idle time reaches it and in none before, whatever the agent API answers. |
| `Recovery.Controller.FollowupRecovers` | internal/controller/controller.go:406-532 | From any state where a claimed request's owned worker is offline and its agent not archived, through follow-up, the wake handler with all its retries and, if that released, claim-and-spawn: if things are calm from the last wake attempt on, whatever failed or interfered before, the request ends claimed by a worker with a live pod: the same one on the same claim if that attempt found it retained, a new one after exactly one release if it found it gone. In every case a request that is not served is still pending, so the next listing shows it. |
| `Recovery.Controller.Wake` | internal/controller/controller.go:464-532 | The wake handler on the real server and backend models: transient failures only are retried, inside the request's window; one release only when the claim is gone or, without claims, no pod was there, else none; when no call works it fails at the end of the window and releases nothing; the last attempt, if calm from its start, wakes the worker whose workspace it found and releases the one whose workspace it found gone. |
| `Recovery.Controller.Attempts` | internal/controller/controller.go:490-500 | The real attempts' answers are those of the wake loop in a world that answers so. |
| `Recovery.Controller.ClaimAndSpawn` | internal/controller/controller.go:414-462 | Against the real server and backend models, under the request's guard: a won claim ends with a live pod, built for this claim when undisturbed, or with the request requeued. |
| `Recovery.SameAsHandlerAlone` | internal/controller/controller.go:414-462 | The interleaved handler, run without anybody in between, leaves the server just as this does. |

## Left out

- HTTP, authentication, TLS, request timeouts, JSON text, metrics, tracing, logging, flags and the command-line programs: no properties of interest. Payloads of events and files are values; the JSON encoder is any function to one-line text.
- The server's reset, its read-only views (pools, workers, worker summary, single agent or worker) and page tokens past a list that shrank between pages, beyond the fact that such a token aborts its handler.
- Listing while requests change between pages: `Paging.ListAllPendingRequests` assumes an unchanging server.
- The scanner's limit of 8 MB per line, and reading errors in the middle of a stream.
- The watch loop's back-off, resync timer and reconnects: each round is covered by the theorems about one listing and one stream.
- Mapping an id-only claimed event to a warm worker (resolveClaim, syncWorkerClaims): a best-effort search over listed workers; in the warm loop it is one of the world's moves.
- Workers' recorded active request after a release: the server does not clear it, and no result relies on it.
- Requests, workers and agents are map values rather than shared heap records; no two tables of the source share one.
- Sorting is an insertion sort on sequences; results only rely on its order and on its being a permutation.
- BuildPod's environment, volumes and container edits, name-length and prefix checks, template validation: easy members.
- Kubernetes: phases, deletion mark, labels, the annotations that are read, the Ready condition and container statuses only. The API's own consistency, finalizers and garbage collection are the world's moves.
- KubeDispose.Dispose: the reason annotation is patched by name without a uid, so a claim that replaced the one read may receive it; the model keeps that, and the contract promises the reason only undisturbed.
- KubeReport.ListWorkers: the pool chosen is given for the order listed (`KubeStartup.PoolNamed`); when all orders agree on it is not characterized, unlike for the request.
- WakeLoop.Controller.Retry: the context's deadline is taken to fire on time; a runtime that is late with that has no bound.
- KubeRuns.OneLivePodAlways: Spawn and Wake of one worker may overlap in the controller, whose guards use different keys; the theorem assumes they do not.
- Hook.InvAlways: likewise for operations on one worker; RecordClaim during a running script would be undone by a rollback.
- Recovery.Controller.FollowupRecovers: the server does nothing else between the attempts of the wake handler; other handlers' steps at that time are those of `ClaimHandlers` and `Stream`.
- KubeInterleaving.Live: methods run one at a time, so only one worker's real operations are interleaved; those of the others appear as the steps they are proved to make.
- Liveness under scheduling fairness: recovery and garbage collection are proved step by step and pass by pass instead.
- Overflow of 64-bit durations and counters: numbers are unbounded.
