# Verification of the Windows tunnel client

A Dafny model of the parts of the VEIL Windows client whose correctness rests on an argument rather
than on a system call, and proofs of the properties those parts are for. The model has two forms of
most components: a *step system*, in which every interleaving of threads and every outcome of an
outside call is an action, for the claims about concurrency; and *classes and methods* that update
their state in place as the Go code does, proved against specification functions. Whatever the
operating system, the driver, the engine or the clock may say is a parameter, an action, or a
nondeterministic choice, so every theorem holds for all of it.

`dafny verify dfyconfig.toml` checks the whole project.

| Files | Component |
|---|---|
| `TunnelSteps`, `TunnelProtocol`, `Tunnel` | the tunnel controller: its steps, the step system, the methods in place |
| `TunnelInvariant`, `TunnelSafety`, `TunnelProgress`, `TunnelFailure`, `TunnelCompletion` | what every run keeps, what never happens, what always happens, what an engine error does, and why a call fails |
| `CallbackTable`, `RegistryProtocol`, `RegistryProgress`, `RegistryCompletion`, `ChangeHandler` | the change-callback registry (three identical copies in the source, for interfaces, routes and unicast addresses) |
| `Rings`, `DeviceShutdown`, `DeviceIO` | the TUN device: the Close handshake, and what Read and Write move |
| `Forwarding`, `Routing` | longest-prefix match, and the routes a tunnel installs and removes |
| `LogBuffer`, `LogPolling` | the log ring, the line splitter, and the polling cursor |
| `Sockaddr` | the sockaddr and prefix codec |
| `Framing`, `ControlServer`, `ClientPairing` | newline framing, the request loop, request and reply pairing |
| `Runs`, `Wrappers`, `Octets` | runs of a step system, invariants; Option and Result; bytes |

## What the main results say

**Tunnel controller.** An attempt is what one adapter creation starts; its *word* is everything done
to its resources, in order. In every reachable state the word is a beginning of
"adapter, socket, routes, engine, run, engine close, routes, socket, adapter, engine wait, done", or
of one of the three that a failing Connect leaves (`StopOrder`). Whenever the mutex is free,
everything acquired has been released exactly once, except by the current session, which holds it all
(`NothingLeaks`). A call has achieved what it answers when it gives the lock back, Disconnect that nothing
is up, Connect that its own session is (`CallsAnswerTruly`); it fails only if something was refused to it
(`RefusedForAReason`), and from every state of every run it can be made and carried through
(`CallCanComplete`). A watcher that runs the stop acts on the session whose error it received, however
long it waited (`WatcherStopsItsOwnSession`); a stale one does nothing (`StaleWatcherIsHarmless`).
No engine loop of an earlier session runs when an adapter is created (`SessionsNeverOverlap`). The
lock is released after at most 63 steps of its holder and of the loops it waits for, one of which is
always possible (`LockIsReleasedInTime`), and a watcher of a stopped session has gone after at most
five steps of its own (`StoppedWatcherExitsInTime`). A session whose first report is fatal is down after
at most twelve steps of its watcher, one of which is always possible or waits for a lock holder that can
move (`FatalErrorTearsDown`). Only the first report counts (`OnlyFirstReportCounts`): after a nil one the
watcher has gone, and there is a run in which both loops then end, the second with a fatal error that
nobody reads, under a session that stays the current one (`NilReportLosesTheNext`). The engine is not
part of the repository: it is assumed to run two loops, each of which reports at most one error and exits
after reporting or once engine, socket and adapter are closed.

**Callback registry.** The wait count of a callback is the number of its goroutines
(`WaitCountsGoroutines`), so that once Unregister has returned none is running and none is ever started
(`QuietAfterUnregister`). A non-empty map means a live subscription whenever the inner mutex is free,
and a subscription is cancelled only while the map is empty (`SubscriptionFollowsCallbacks`). A
registered callback is in the map until an Unregister for it comes to its deletion
(`RegisteredStaysInMap`), what the calls report is so (`ResultsAreTrue`), and an error has its reason
(`ErrorForAReason`). A notification starts exactly one goroutine for each callback in the map
(`NotificationReachesEach`). Something under way can always move, even if cancelling waits for running
notifications (`NoDeadlock`), and while nothing new is begun everything under way has ended after a
bounded number of steps (`EverythingReturns`), given that callbacks do not register or unregister
themselves.

**TUN device.** For every interleaving of one reader, one writer and any number of Close calls: no
ring call and no wait on the event after the session has ended (`NoSessionUseAfterEnd`), no wake-up is
lost (`NoLostWakeUp`), and Close completes within a bounded number of steps if nobody who has been told
ErrClosed calls again (`CloseCompletes`); callers that do can keep it waiting for ever
(`RepeatedCallsCanStarveClose`). Over any sequence of Read calls the packets delivered are those the ring
yielded, in order, each released once and clipped to its slot (`Read`); delivery is exact just when each
packet fitted (`ExactDelivery`).

**Routing.** Splitting the default route preserves the meaning of the table at a destination if and
only if no off-tunnel /1 row would have decided it (`SplitPreservesMeaning`, with a table on which it
fails in `SplitCanChangeMeaning`). With the exception in place, added or there before, the endpoint
bypasses the tunnel if and only if no other host route for it leads elsewhere (`EndpointBypassesTunnel`),
and no other destination notices (`ExceptionChangesNothingElse`). Cleaning up gives the off-tunnel table
back, metrics included, for every outcome of configuring, if and only if the table before had no least
default route on LUID 0 by which the endpoint lacks a host route (`CleanupAlwaysRestores`); a table that
has one is in `CleanupCanFail`. When deletes fail, what is left is what the system refused to delete
(`FlushRoutes`, `RunCleanup`). LUID 0 is the system's value for "unspecified", which no row is expected
to carry, and without such rows restoration is unconditional (`CleanupRestoresSpecified`).

**Log.** The ring holds the last lines of an unbounded history (`LogBuffer.Append`, `Since`); a
polling front-end never sees a line twice, out of order or altered (`RunIsSound`), misses exactly the
oldest max(0, k - capacity) of k new lines (`PollReply`), and has a complete record if and only if it
always polled within capacity lines (`CompleteIffKeepsUp`). Writing `p`, a newline and `q` at once
stores what writing `p` and then `q` stores (`WriteSplits`), and a single line is stored less the carriage
returns at its end (`WrittenLine`).

**Codec and control channel.** Whatever the 28 bytes held before, what is set is read back, the zone in
canonical form (`RoundTrip`), and exactly so if and only if the zone survives (`ExactRoundTrip`). The
request loop answers exactly the complete lines before the first malformed one, one reply each, for
any chunking of the input (`ServeIO`), each by asking the handler what the command means
(`HandlerIsAsked`, `ConversionIsAsked`); reading back written messages returns them (`ReadBack`); and
concurrent callers of one client each get the reply to their own request, whatever fails, provided that
nothing is read from a connection on which a caller has gone without its reply (`EachGetsItsOwnReply`);
otherwise the next caller can get the late one (`LateReplyIsMispaired`).

Where the code and its comments disagree, the model follows the code:

- `control/proto.go:35-36` promises a status on every successful reply; the two commands that convert
  configurations succeed without one (`StatusOnSuccess` says which replies have it).
- `winipcfg/types.go:755` says that all other members are set to zero; setting an IPv4 address leaves
  bytes 16 to 27 as they were (`Layout`).
- `wintunnel/tunnel.go:30` says that the generation is bumped by each start; each stop bumps it too.
- `windev/routing.go:24-26` says that the cleanup function reverses the changes; it leaves the interface
  address and MTU as they were set (`windev/routing.go:28-41`), rows of the tunnel that setting the address
  replaced do not come back (`CleanupRestores` speaks of the table off the tunnel), and an exception
  route on LUID 0 would stay (`CleanupCanFail`).
- `wintunnel/tunnel.go:126-127` says that a fatal engine loop error tears the session down; it does if it
  is the first report (`FatalErrorTearsDown`, `OnlyFirstReportCounts`).

## Model

| member | source | states |
|---|---|---|
| TunnelInvariant.StepInv | wintunnel/tunnel.go:74-192 | every step of every Connect, Disconnect, Status, watcher and engine loop keeps the invariant: lock ownership, the fields naming one session, the word of each attempt, loops, distinct generations, watchers, and what each call is about to answer |
| TunnelInvariant.Reachable | wintunnel/tunnel.go:74-227 | the invariant holds in every state of every run |
| TunnelSafety.WatcherStopsItsOwnSession | wintunnel/tunnel.go:131-145 | over every run, each stop step of a watcher acts on the session whose error it received and changes no other attempt |
| TunnelSafety.StaleWatcherIsHarmless | wintunnel/tunnel.go:120-140 | a watcher with the lock decides to stop if and only if its own session is the current one |
| TunnelSafety.NothingLeaks | wintunnel/tunnel.go:86-113 | whenever the mutex is free, whichever steps failed: everything acquired has been released exactly once and done closed just when the engine ran, except for the current session, which holds everything |
| TunnelSafety.StopOrder | wintunnel/tunnel.go:170-187 | in every state the word of an attempt is a beginning of up-then-down, or of the undoing of a failed attempt, in that order |
| TunnelSafety.SessionsNeverOverlap | wintunnel/tunnel.go:77-89 | when an adapter is created, the engine loops of every earlier attempt have exited and the attempt is over |
| TunnelSafety.StatusIsConsistent | wintunnel/tunnel.go:195-202 | Status under the lock sees a session that is wholly up, or none and every attempt over |
| TunnelSafety.CallsAnswerTruly | wintunnel/tunnel.go:74-157 | over every run, when a call gives the lock back: Disconnect leaves no session up and every attempt over; Connect without an error leaves the attempt it built wholly up under the name asked for, with an error none; Status says whether one is up; a watcher has seen its session stopped |
| TunnelProgress.AwaitIsServed | wintunnel/tunnel.go:163-184 | a stop waiting for the engine never waits in vain: a loop can exit or the wait is over |
| TunnelProgress.LockHolderMoves | wintunnel/tunnel.go:74-192 | whoever holds the lock can move, whether the outside grants or refuses, or waits for a loop that can |
| TunnelProgress.LockIsReleased | wintunnel/tunnel.go:74-192 | each step of the holder or of a loop it waits for brings the release closer, and no other step delays it or takes the lock away |
| TunnelProgress.LockIsReleasedInTime | wintunnel/tunnel.go:74-192 | in any stretch of any run with the lock held, at most 63 such steps are taken, and one is always enabled |
| TunnelProgress.StoppedWatcherMoves | wintunnel/tunnel.go:131-145 | a watcher of a stopped session always has a step of its own unless it wants a held lock |
| TunnelProgress.StoppedWatcherExits | wintunnel/tunnel.go:131-145 | each own step brings such a watcher closer to its exit, and nobody else's step moves it or revives its session |
| TunnelProgress.StoppedWatcherExitsInTime | wintunnel/tunnel.go:126-145 | over every run, such a watcher takes at most five more steps and has returned when none is left |
| TunnelFailure.ReportIsNeverBlocked | wintunnel/tunnel.go:115 | the capacity of the error channel never keeps a loop that has not reported from reporting |
| TunnelFailure.FatalErrorTearsDown | wintunnel/tunnel.go:126-145 | over every run: from where the first report of a published session is fatal, the session is down once its watcher has taken the at most twelve steps it has left, and until then it can take one or waits for a lock holder that can move |
| TunnelFailure.OnlyFirstReportCounts | wintunnel/tunnel.go:131-145 | over every run a watcher goes for the lock only if the first report of its session is fatal, and receives no second one |
| TunnelFailure.NilReportLosesTheNext | wintunnel/tunnel.go:133-136 | a run in which a nil report comes first: both loops have ended, the second's fatal error is never read, and the session is still the current one |
| TunnelCompletion.RefusedForAReason | wintunnel/tunnel.go:81-113 | over every run a call returns with an error if and only if the outside has refused it something: the configuration, the adapter, the socket, the routes or the engine |
| TunnelCompletion.CallCanComplete | wintunnel/tunnel.go:74-157 | every run can go on to the return of a new Disconnect, with nothing up; of a new Connect, with its own session up; and of a new Status; if nothing is refused to it |
| TunnelSteps.StopClearsFields | wintunnel/tunnel.go:159-191 | the eight steps of the protocol's stop leave the fields cleared with the generation bumped once |
| TunnelSteps.StopDoesDown | wintunnel/tunnel.go:170-187 | those steps close the engine, undo the routing, close socket and adapter, await the engine and close done, in that order, all of the session named by the fields |
| TunnelSteps.SettledIsConserved | wintunnel/tunnel.go:93-113 | an attempt that is over, by whichever failure or stop, has released each acquired resource exactly once and nothing else |
| TunnelSteps.UpIsAllHeld | wintunnel/tunnel.go:86-124 | an attempt that is up has acquired each resource once and released none |
| Tunnel.AttemptDoesAsTold | wintunnel/tunnel.go:86-113 | an attempt acquires exactly the resources that are granted up to the first refusal, and is up if nothing is refused, over if something is |
| Tunnel.Controller.CloseAll | wintunnel/tunnel.go:170-187 | in place: the record of the running session goes from up to up-then-down, no other record changes |
| Tunnel.Controller.StopLocked | wintunnel/tunnel.go:159-192 | in place: nothing if not running; otherwise the session is taken down, the fields are cleared, the generation is bumped once |
| Tunnel.Controller.BringUp | wintunnel/tunnel.go:93-124 | in place: for every failing step, the attempt's record is the undone one and the fields are as before; without failure it is up and published under the next generation |
| Tunnel.Controller.Connect | wintunnel/tunnel.go:74-149 | whatever fails, the old session is down and nothing of the new attempt is left; otherwise the new one is up under the name asked for on veil0, all fields naming it, under the next generation, which its watcher has |
| Tunnel.Controller.Disconnect | wintunnel/tunnel.go:152-157 | the session, if any, is down; safe when already disconnected |
| Tunnel.Controller.EngineFailed | wintunnel/tunnel.go:137-142 | the watcher of a session stops it if it is the current one, otherwise nothing changes |
| Tunnel.Controller.Status | wintunnel/tunnel.go:195-227 | disconnected just when not running; otherwise one entry per peer in the engine's order, field by field, absent times as 0, and connected just when one of them is |
| RegistryProtocol.StepInv | winipcfg/interface_change_handler.go:32-90 | every step keeps the invariant: lock ownership, calls and their callbacks, the map with everything registered and not unregistered, the wait counts, the subscription, the decision to cancel it |
| RegistryProtocol.Reachable | winipcfg/route_change_handler.go:32-90 | the invariant holds in every state of every run |
| RegistryProtocol.WaitCountsGoroutines | winipcfg/interface_change_handler.go:81-87 | over every run the wait count of a callback is the number of goroutines in flight for it |
| RegistryProtocol.ReturnedForGood | winipcfg/interface_change_handler.go:32-76 | a call that has returned stays as it is for the rest of the run |
| RegistryProtocol.RegisteredStaysInMap | winipcfg/interface_change_handler.go:32-63 | over every run a registered callback is in the map, to be notified, if and only if no Unregister call for it has come past its deletion |
| RegistryProtocol.ResultsAreTrue | winipcfg/interface_change_handler.go:32-76 | over every run, when a call returns: Register without an error means that its callback is in the map under a live subscription, with an error that it is not; Unregister means that it is not in the map, and an error that no callback is left and the subscription is |
| RegistryProtocol.QuietAfterUnregister | winipcfg/interface_change_handler.go:56-90 | once Unregister of a callback has returned, no goroutine for it is running, it is not in the map, and none is ever started again |
| RegistryProtocol.SubscriptionFollowsCallbacks | winipcfg/unicast_address_change_handler.go:32-76 | with the inner mutex free a non-empty map means a live subscription; never more than one; a cancel is under way only with the map empty |
| RegistryProtocol.NotificationReachesEach | winipcfg/interface_change_handler.go:78-90 | between taking and releasing the mutex a notification starts exactly one goroutine for each callback that was in the map and none for any other |
| RegistryProgress.HolderOfOuterMoves | winipcfg/interface_change_handler.go:56-76 | the holder of the add/remove mutex can move, whatever the system answers, or a goroutine it waits for can finish |
| RegistryProgress.NeverStuck | winipcfg/interface_change_handler.go:32-90 | in every state satisfying the invariant with something under way, something under way can move, whatever the system answers, even if cancelling waits for notifications |
| RegistryProgress.NoDeadlock | winipcfg/interface_change_handler.go:32-90 | the same for every state of every run |
| RegistryProgress.InternalStepLessens | winipcfg/interface_change_handler.go:32-90 | every step that finishes something under way lessens a measure of all that is under way, notifications and the goroutines they will start included |
| RegistryProgress.EverythingReturns | winipcfg/interface_change_handler.go:32-90 | over every run, while nothing new is begun, at most that many steps are taken, one is enabled until everything has returned, and after that many everything has |
| RegistryCompletion.ErrorForAReason | winipcfg/interface_change_handler.go:43-73 | over every run a call has returned an error if and only if the system refused it the subscription, or the cancellation |
| RegistryCompletion.RegisterCanComplete | winipcfg/interface_change_handler.go:32-53 | every run can go on to the return of a new Register, its callback in the map under a live subscription, if the system grants what it is asked |
| RegistryCompletion.UnregisterCanComplete | winipcfg/interface_change_handler.go:56-76 | every run with a registered callback can go on to the return of an Unregister of it, out of the map and with no goroutine |
| ChangeHandler.Handler.Register | winipcfg/interface_change_handler.go:32-53 | in place: the callback is added to the map if there is a subscription or the system grants one, and nothing changes otherwise; the handle changes only from none to the one granted |
| ChangeHandler.Handler.Unregister | winipcfg/interface_change_handler.go:56-76 | in place: the callback is gone from the map; the subscription goes with the last callback unless the OS refuses, which is the only error |
| ChangeHandler.Handler.Changed | winipcfg/interface_change_handler.go:78-90 | one goroutine per registered callback, whatever the order of the map, and exactly their wait counts go up by one |
| DeviceShutdown.StepInv | veiltun/device.go:100-202 | every step of reader, writer, closers and driver keeps the handshake invariant |
| DeviceShutdown.Reachable | veiltun/device.go:100-202 | the invariant holds in every state of every run |
| DeviceShutdown.NoSessionUseAfterEnd | veiltun/device.go:192-202 | over every run, after the session has been ended no ring call is made and no wait on its event ends |
| DeviceShutdown.ReturnedCloseMeansClosed | veiltun/device.go:192-202 | when any Close has returned, the session was ended once, the adapter closed once, and no Read or Write is past its closed check |
| DeviceShutdown.NoLostWakeUp | veiltun/device.go:125-139 | a parked reader with a packet queued, or with Close past its signal, can wake |
| DeviceShutdown.WorkDecreases | veiltun/device.go:100-202 | after closed is set every step of reader, writer and once-body uses up work, and no other step adds any |
| DeviceShutdown.CloseNotStuck | veiltun/device.go:192-202 | inside the once-body Close or a call it waits for can move, whatever the rings answer |
| DeviceShutdown.CloseCompletes | veiltun/device.go:192-202 | over every run without new calls by callers told ErrClosed, Close has finished once the bounded work is done, and until then a step of that work is enabled |
| DeviceShutdown.RepeatedCallsCanStarveClose | veiltun/device.go:100-107 | for every bound a run in which callers told ErrClosed call again, take more steps than that, and Close still waits |
| DeviceIO.NativeTun.NextPacket | veiltun/device.go:113-154 | the polls for one slot: the next packet of the ring, or how the batch ends; a slot is re-polled only while the batch is empty |
| DeviceIO.NativeTun.FillBatch | veiltun/device.go:109-156 | in place: slot i holds the i-th packet of the batch, nothing else changes, and the status is right for what the ring said |
| DeviceIO.NativeTun.Read | veiltun/device.go:100-157 | over any sequence of calls: delivered is what the ring yielded, in order, each packet released once and clipped to its slot, however batches end; ErrClosed just for a reason, closed seen or the end of the ring |
| DeviceIO.PacketAt | veiltun/device.go:113-124 | packet number j taken is the j-th that the ring yields, whatever it answers in between |
| DeviceIO.FilledSlot | veiltun/device.go:119-124 | after a batch slot j holds packet j at the offset, clipped, with its size, and the bytes around it are untouched |
| DeviceIO.ClipIsWhatFits | veiltun/device.go:122 | what is delivered of a packet is its beginning, as long as fits the room of the slot |
| DeviceIO.BatchDelivered | veiltun/device.go:109-156 | the filled slots are the packets taken, in order |
| DeviceIO.DeliveredSoFar | veiltun/device.go:109-156 | a batch extends the account of everything delivered by exactly its packets |
| DeviceIO.ExactDelivery | veiltun/device.go:97-99 | delivery is exact if and only if every packet fitted the room of its slot |
| DeviceIO.NativeTun.Write | veiltun/device.go:162-188 | exactly the granted eligible payloads are sent, in order; a full ring drops one; only a terminating or failing ring stops the batch, at the index returned |
| DeviceIO.GrantedAt | veiltun/device.go:169-178 | a payload is offered to the ring just when it has 1 to 65535 bytes, and each that is granted is sent whole, at its place in the order |
| Forwarding.SplitPreservesMeaning | windev/routing.go:135-158 | at each destination the table with the default split forwards as the one with the default taken over outright, if and only if no off-tunnel /1 row wins it there |
| Forwarding.SplitPreservesMeaningEverywhere | windev/routing.go:135-158 | hence at every destination when no off-tunnel /1 row exists |
| Forwarding.SplitCanChangeMeaning | windev/routing.go:151-155 | a table on which splitting changes the meaning |
| Forwarding.CoversByBits | windev/routing.go:135-137 | a prefix matches the destinations that agree with it in each of its first bits |
| Forwarding.HostRouteDecides | windev/routing.go:47-54 | a host route decides its address: the matching rows of greatest length there are the host routes for it |
| Forwarding.EndpointAvoidsTunnel | windev/routing.go:47-54 | with a host route in the table its address leaves by that interface if and only if all host routes for it do |
| Forwarding.ExceptionIsLocal | windev/routing.go:47-54 | adding a host route changes no other destination |
| Routing.AddRoute | winipcfg/luid.go:218-232 | creates one row; fails, without effect, only if it is there or the system refuses |
| Routing.DeleteRoute | winipcfg/luid.go:276-294 | deletes one row; fails, without effect, only if it is not there or the system refuses |
| Routing.FlushRoutes | winipcfg/luid.go:297-314 | goes on after failures: what is left of the interface is what the system refused to delete, unless it refused the listing; an error just if something is left or the listing was refused; no other row changes |
| Routing.DefaultRoute | windev/routing.go:111-132 | an off-tunnel default route of least metric in the table, the first such in the listing; none only if the table has none or the listing is refused |
| Routing.AddTunnelRoutes | windev/routing.go:138-158 | for any peers, order and duplicates: the rows for the split AllowedIPs are there, except those the system refused, and nothing else changes |
| Routing.PeerPrefixesAre | windev/routing.go:145-157 | the prefixes installed are exactly the well-formed IPv4 AllowedIPs of all peers, wherever they stand |
| Routing.PinEndpoint | windev/routing.go:43-59 | the exception by the first least default route, added unless it is there or refused, none only without endpoint, default or listing; and what the cleanup captures of it |
| Routing.ConfigureRouting | windev/routing.go:27-85 | the whole effect on the table, with nothing missing but what was refused, or an error, just if the address cannot be set, and an unchanged off-tunnel table |
| Routing.ConfiguredRows | windev/routing.go:27-85 | row by row: what is in the table afterwards, and why; rows that were there keep their metric, new ones have 0 |
| Routing.RunCleanup | windev/routing.go:77-83 | whatever fails it goes on: what is left of the tunnel's rows and of the captured exception is what the system refused to delete, unless it refused the listing; no other row changes; without errors the whole table is given |
| Routing.OffTunnelAfter | windev/routing.go:27-85 | off the tunnel configuring adds the exception, if it was not there, and nothing else |
| Routing.CleanupRestores | windev/routing.go:77-83 | of one outcome of configuring: cleaning up restores the off-tunnel table, metrics included, if and only if no exception was added on LUID 0, and leaves nothing on the tunnel |
| Routing.CleanupAlwaysRestores | windev/routing.go:43-83 | of a table and a configuration: every outcome is restored if and only if no least off-tunnel default has LUID 0 with the endpoint's host route by it missing |
| Routing.CleanupRestoresSpecified | windev/routing.go:43-83 | hence every outcome is restored when no off-tunnel default has LUID 0 |
| Routing.CleanupCanFail | windev/routing.go:80-82 | a table with one default, on LUID 0, and an outcome in which the exception outlives the cleanup |
| Routing.EndpointBypassesTunnel | windev/routing.go:47-61 | with the exception in place, added or there before, by an off-tunnel default route of least metric, the endpoint leaves by its interface if and only if the AllowedIPs do not take it in and no host route leads elsewhere; by the exception alone if it is the only host route |
| Routing.ExceptionChangesNothingElse | windev/routing.go:47-61 | every other destination is forwarded as without the exception |
| Routing.ConfiguredMeaning | windev/routing.go:135-158 | the configured table means, at a destination, the one with prior defaults removed and AllowedIPs verbatim, if and only if no off-tunnel /1 row wins there |
| Routing.ConfiguredMeaningEverywhere | windev/routing.go:135-158 | hence everywhere when no off-tunnel /1 row was there before |
| LogBuffer.LogBuffer.constructor | control/logbuf.go:42-47 | an empty buffer, with the default capacity if none is asked for |
| LogBuffer.LogBuffer.Append | control/logbuf.go:70-87 | in place: the history grows by the line; the ring stays its last min(capacity, total) lines, evicted and retained adding up |
| LogBuffer.LogBuffer.Write | control/logbuf.go:53-63 | exactly the lines of p are appended, in order (which they are, WrittenLine and WriteSplits say), and all of p is reported written |
| LogBuffer.LogBuffer.Since | control/logbuf.go:92-106 | the scan returns exactly the retained lines numbered above the cursor |
| LogBuffer.ReplyIsHistorySuffix | control/logbuf.go:89-105 | that filter is a suffix of the history: everything after the cursor less what has been evicted |
| LogBuffer.JoinSplit | control/logbuf.go:55 | splitting loses nothing: the pieces joined by newlines are the text |
| LogBuffer.TrimIsImmaterial | control/logbuf.go:55 | trimming trailing newlines does not change the lines stored |
| LogBuffer.WriteSplits | control/logbuf.go:49-63 | writing p, a newline and q in one call stores the lines of p and then of q |
| LogBuffer.WrittenLine | control/logbuf.go:55-61 | a line without newline is stored as it is, less the carriage returns at its end, and not at all if nothing is left; with WriteSplits this determines what is stored for every text |
| LogBuffer.StoredLinesAreClean | control/logbuf.go:55-60 | no stored line is empty, holds a newline or ends in a carriage return |
| LogPolling.RunIsSound | control/client.go:49-61 | over every run of appends and polls the front-end sees lines of the history, unaltered, each once and in order |
| LogPolling.CompleteIffKeepsUp | control/logbuf.go:10-14 | its record is complete up to its cursor if and only if each poll came within capacity lines of the one before |
| LogPolling.PollReply | control/client.go:49-61 | a poll after k appends is answered with all but the oldest max(0, k - capacity) of them, and moves the cursor to the end |
| Sockaddr.HtonsInverse | winipcfg/types.go:744-752 | the two conversions undo each other |
| Sockaddr.ZonesThatSurvive | winipcfg/types.go:772-778 | a zone survives if and only if it is empty or a decimal from 1 to 2^32-1 without leading zeros; canonicalising is idempotent |
| Sockaddr.ZoneValue | winipcfg/types.go:772-778 | the zone kept is the decimal number it is, if that is from 1 to 2^32-1, and none for every other zone |
| Sockaddr.Layout | winipcfg/types.go:756-779 | the bytes themselves: family 2 or 23 little-endian, port big-endian, the address, zeros, the scope, and for IPv4 the bytes from 16 on as they were |
| Sockaddr.RoundTrip | winipcfg/types.go:756-820 | for every prior content of the 28 bytes, what is set is read back, the zone in canonical form |
| Sockaddr.ExactRoundTrip | winipcfg/types.go:756-820 | exactly so if and only if the zone survives |
| Sockaddr.RawSockaddrInet.SetAddrPort | winipcfg/types.go:756-782 | in place: the 28 bytes are the encoding over the prior ones; an error, without effect, just for an invalid address |
| Sockaddr.RawSockaddrInet.SetAddr | winipcfg/types.go:786-788 | the same with port 0 |
| Sockaddr.IPAddressPrefix.SetPrefix | winipcfg/types.go:901-919 | setting a prefix and reading it back is the identity for every valid address, invalid length included; otherwise an error without effect |
| Sockaddr.PrefixRoundTrip | winipcfg/types.go:901-919 | the same on values, for every prior content |
| Sockaddr.OtherFamilies | winipcfg/types.go:796-820 | bytes of any family but the two hold no address, no port and no prefix |
| Framing.BufferedReader.ReadLine | control/proto.go:134-140 | for any chunking: the next line and the stream after it; at the end an unterminated rest is not a line |
| Framing.ReadMessage | control/proto.go:134-140 | the next of the messages that the stream holds before its first malformed line, and the rest of them left; none just when there is none |
| Framing.WriteMessage | control/proto.go:123-131 | in place: the message and its newline are appended; a failed write may have appended a beginning of them, and is recorded |
| Framing.ReadBack | control/proto.go:122-140 | reading back a list of written messages, followed by an incomplete or malformed line, returns the list |
| ControlServer.StatusOnSuccess | control/server.go:77-114 | only the six commands succeed; which of them carry a status, and that it is the one after the command; a failed reply carries nothing but its error; only two commands change the tunnel |
| ControlServer.HandlerIsAsked | control/server.go:77-114 | for each command about the tunnel: which handler function is called with which fields, the state left, and the whole reply to its answer |
| ControlServer.ConversionIsAsked | control/server.go:94-111 | the same for the two conversions, a missing configuration, and any other command, which fails without effect |
| ControlServer.ReplyIsDispatched | control/server.go:64-75 | reply number k is the answer to request number k in the state that the first k requests have left |
| ControlServer.ServeIO | control/server.go:64-75 | one reply per complete line before the first malformed one, in order, for any chunking, and the handler's state after them; it stops short only at a failing write, one request later in its state, with what got through a beginning of the replies |
| ControlServer.ServedEndToEnd | control/server.go:64-75 | a peer that writes any list of requests reads back exactly the replies to them, given that the codecs invert the messages in question |
| ClientPairing.StepInv | control/client.go:25-36 | every step, failing ones included, keeps the lock, the writers and the replies in order, and the wire while no caller has gone without its reply |
| ClientPairing.EachGetsItsOwnReply | control/client.go:25-36 | over every run each caller of Do that gets a reply gets the server's answer to its own request, and nobody else gets it, whatever fails, if nothing is read after a caller has gone without its reply |
| ClientPairing.SomebodyMoves | control/client.go:25-36 | as long as a call has not returned, and no caller has gone without its reply, a step is enabled that is no failure |
| ClientPairing.LateReplyIsMispaired | control/client.go:28-34 | without that proviso a run in which a caller returns with the answer to another's request |

## Left out

- The engine: its loops, statistics and configuration parser live in another repository; what is assumed of them is stated in `TunnelProtocol` and taken as parameters elsewhere.
- Generations, sequence numbers and the overflow counter are unbounded; fewer than 2^64 starts, stops and lines are assumed (`wintunnel/tunnel.go:30`, `control/logbuf.go:36-37`).
- TunnelProgress.LockIsReleasedInTime: does not say that waiting threads get the lock in turn, because Go's mutex is not part of this model; it says that the lock is always released.
- DeviceShutdown.CloseCompletes: assumes that a caller told ErrClosed does not call again; RepeatedCallsCanStarveClose shows that it must.
- `NativeTun.LUID`: it is not counted in the wait group, so it may run while the adapter is being closed; the shutdown claims are about Read and Write.
- The memory model: atomic operations, mutexes, channels and wait groups are sequentially consistent steps; a notification's map iteration is a set from which callbacks are taken in any order.
- Tunnel.Controller.Connect: runs with the lock held throughout, and starting a watcher records its generation; the interleavings and what watchers do are in TunnelProtocol, over the same steps.
- ChangeHandler.Handler.AwaitCallbacks: the wait is one step after which the count is zero; what happens meanwhile is in RegistryProtocol.
- Callbacks that register or unregister from inside a callback: the source would deadlock on its own mutex, and NoDeadlock assumes that they do not.
- The spin budget and the clock: a poll that finds the ring empty chooses freely between polling again and parking; log lines carry an arbitrary time.
- DeviceIO.NativeTun.Read: the driver's answers are a finite sequence of any length, and a call they do not suffice for ends as Pending; the error texts are not modelled.
- The driver DLL, the generated system calls and structure layouts (`veiltun/veiltun.go`, `veiltun/session.go`, `winipcfg/zwinipcfg_windows.go`): only their contracts as ring and table operations.
- Routing.ConfigureRouting: MTU and DNS settings and log messages have no effect on the table; the endpoint address is an input, since it comes from a name lookup.
- Routing.FlushRoutes: which calls the system refuses is a record of the model, kept by its table; in the source it shows in the errors.
- Framing.WriteMessage: of a failed write the model knows only that a beginning of the message, possibly empty, got through.
- TunnelCompletion.CallCanComplete: says that a call can be carried through, not that a scheduler lets it; LockIsReleasedInTime bounds the steps needed.
- Routing.AddTunnelRoutes: IPv6 AllowedIPs add no row to the IPv4 table and are skipped; text parsing of prefixes is an input.
- LogBuffer.LogBuffer.Write: takes the mutex once per line (`control/logbuf.go:55-61,70-72`), so lines of concurrent writers can interleave; the contract is that of one writer, and LogPolling's appends come in any order.
- Routing.CleanupRestores: assumes that every delete succeeds and that nobody else edits the table meanwhile.
- Forwarding: metrics do not enter the forwarding function; among rows of equal length the system's choice by metric is not modelled.
- ControlServer.ServeIO: one connection; other connections may change the handler's state between two requests, and are not modelled. JSON is an encoder and a decoder, with a law only for the messages that are sent.
- ClientPairing.EachGetsItsOwnReply: a request that is written in part only, and so spoils the framing of the next, is not modelled.
- Endpoint lookup, UDP binding and socket tuning, the service and registry code, and the command-line programs: system plumbing without state worth proving.
- The other row operations of `winipcfg/luid.go` (adding several addresses or routes, DNS): loops over the operations modelled here.
