# sshpiper in Dafny

A model of the concurrent and protocol logic of sshpiper, an SSH reverse proxy, with
proofs about every run of it:

- the reverse-tunnel plugin: a shared tunnel registry, the handler of each registrar
  connection, the connect side with its throttled activity touches, and the idle sweeper;
- the daemon's packet hooks: the forwarding filter that keeps global-request replies in
  request order while making some of them itself, the env injector, and the hook chain;
- live-session streaming: packets to frames, frames to bounded subscribers with header
  replay, frames to an asciicast v2 recording;
- the admin aggregator's refresh, the keyboard-interactive exchange between daemon and
  plugin, and the quote-aware argument splitter.

Each component has up to three layers. Spec functions on values say what one operation
does to the whole state. Classes with the source's fields, loops and in-place updates
are proved against those functions. State machines let the goroutines interleave, one
step per region protected by a mutex (or per channel operation); their theorems
quantify over every sequence of steps from a start state.

`dafny verify dfyconfig.toml` checks everything. Files by component:

| component | files |
|---|---|
| sequence, set and map facts; slice filter in place | Seqs |
| tunnel registry | Registry, RegistryLaws, RegistryObject |
| bind addresses, forward tables, ports | HostPort, Tables, Ports |
| registrar connections | Server, ServerInv, ServerSteps, ServerSafety, ServerTheorems, ServerProgress, ServerExamples, HandlerObject |
| connect side and sweeper | Connect, ConnectErasure, ConnectExamples, ConnectObject |
| packet hooks | Wire, Forwarding, ReplyOrder, HookChain, EnvInject, Pipeline |
| streaming | Broadcast, BroadcastLaws, BroadcasterObject, StreamHook, StreamHookObject, StreamHeader, Streaming, Asciicast, ViewerRecording |
| the rest | Aggregator, Keyboard, SplitArgs |

## Where the code falls short of a promise

Each of these has a lemma with the failing input or run, and the condition under which
the promise holds.

- A connection can have one live tunnel more than its quota while its session is between
  unlisting and deleting a registration whose overrides failed
  (`QuotaExceededDuringRevocation`; otherwise `QuotasHold`).
- The notification queue can overflow under a cap when a queued tunnel was cancelled
  before the session read its notification (`QueueOverflowsAfterCancel`; otherwise
  `QueueHasRoom`).
- A cancel without a port misses forwards bound to an address with brackets, and a cancel
  of `x` hits the forward bound to `[x]` (`ZeroPortCancelExact`,
  `ZeroPortCancelOfOwnAddress`).
- A port-zero forward can be refused although a pseudo-port is free, exactly when the
  scan crosses the wrap-around of the 32-bit counter (`ReliableExactly`).
- A sweep between the two halves of a touch evicts a tunnel with fresh traffic
  (`UndeliveredTouchFromStart`; otherwise `BusyTunnelSurvives`).
- A connect attempt that never starts changes a sweep when it displaces the waiting pipe
  of its UniqueID (`DisplacingAttemptChangesTheSweep`); one event commutes with the
  erasure exactly when it does not do that and does not start an erased pipe
  (`HideCommutesExactly`, `FailedAttemptsNeverMatter`).
- Output of a new channel handled between the marking of the channel and the publication
  of its header reaches viewers before the header (`OutputCanOvertakeItsHeader`,
  `HeadersComeFirstExactly`).
- The size and environment in a header are those last asked for in the whole session, not
  on the channel that starts (`HeaderTakesAnotherChannelsSize`); they are the channel's
  own exactly when the last requests came on it (`OwnHeaderExactly`).
- An endpoint listed twice by discovery conflicts with itself
  (`DuplicateEndpointConflictsWithItself`); a conflict means two endpoints exactly when no
  endpoint is queried twice (`ConflictsMeanTwoEndpointsExactly`).

## Model

| member | source | states |
|---|---|---|
| RegistryLaws.ApplyKeepsInv | plugin/revtunnel/registry.go:66-375 | every registry operation, whichever store calls fail, keeps: tracked channels belong to live tunnels only and no tracked set is empty, each live record equals its stored record up to a newer activity time, the global cap |
| RegistryLaws.EveryRunKeepsInv | plugin/revtunnel/registry.go:66-375 | the same in every state that any sequence of operations reaches from a start with any store contents |
| RegistryLaws.RemoveUndoesPut | plugin/revtunnel/registry.go:122-301 | removing a tunnel right after registering it restores live entries, channels and, if the deletion succeeds, the store |
| RegistryLaws.SweepSparesLiveTunnels | plugin/revtunnel/registry.go:305-375 | the persisted sweep never deletes the record of a live, non-idle tunnel because of its stale stored timestamp; it deletes exactly the expired ones |
| RegistryLaws.RemoveAllConns | plugin/revtunnel/registry.go:275-301 | a series of removals closes a connection exactly when it removed one of its tunnels and left it none, and then exactly one removal closes it |
| RegistryLaws.EvictAgreesWithRemovals | plugin/revtunnel/registry.go:275-375 | one sweep equals removing the idle tunnels one by one in any order, whichever deletions the store refuses: same remaining entries, channels closed, connections closed, each once, and the same store up to the expired records |
| RegistryObject.MemoryStore.Put | plugin/revtunnel/store_memory.go:18-23 | the record is stored under its GUID, the rest unchanged |
| RegistryObject.MemoryStore.Delete | plugin/revtunnel/store_memory.go:32-37 | exactly that record goes |
| RegistryObject.MemoryStore.List | plugin/revtunnel/store_memory.go:39-47 | every stored record once |
| RegistryObject.TunnelRegistry.TrackChannel | plugin/revtunnel/registry.go:66-77 | refuses dead tunnels, otherwise adds the channel |
| RegistryObject.TunnelRegistry.UntrackChannel | plugin/revtunnel/registry.go:79-86 | removes the channel and an emptied set |
| RegistryObject.TunnelRegistry.TakeChannels | plugin/revtunnel/registry.go:88-96 | returns and forgets the tunnel's channels |
| RegistryObject.TunnelRegistry.Put | plugin/revtunnel/registry.go:122-141 | cap, then duplicate, then store, then live entry with the current time; on any error nothing changes |
| RegistryObject.TunnelRegistry.LookupPersisted | plugin/revtunnel/registry.go:162-173 | the stored record, with or without a live tunnel |
| RegistryObject.TunnelRegistry.Touch | plugin/revtunnel/registry.go:178-187 | only the live activity time moves |
| RegistryObject.TunnelRegistry.UpdateConnectorKey | plugin/revtunnel/registry.go:225-244 | store first, live record only after the store accepted |
| RegistryObject.TunnelRegistry.UpdateAllowPassword | plugin/revtunnel/registry.go:249-269 | the same for the password flag; no store call when unchanged |
| RegistryObject.TunnelRegistry.Remove | plugin/revtunnel/registry.go:275-301 | the scan for other users of the connection agrees with its set-based definition; entry, channels and record go |
| RegistryObject.TunnelRegistry.ConnsToClose | plugin/revtunnel/registry.go:327-343 | each connection of an evicted entry that no remaining entry uses |
| RegistryObject.TunnelRegistry.EvictLive | plugin/revtunnel/registry.go:312-322 | the first pass removes exactly the idle tunnels and lists each once |
| RegistryObject.TunnelRegistry.ExpirePersisted | plugin/revtunnel/registry.go:347-365 | the second pass deletes exactly the expired records without a live tunnel |
| RegistryObject.TunnelRegistry.EvictIdle | plugin/revtunnel/registry.go:305-375 | the loops compute the one-step sweep |
| HostPort.SplitUndoesJoin | plugin/revtunnel/server.go:660-717 | splitting a joined key gives the pair back exactly when the address has no brackets; the only other success is `[x]` read as `x` |
| HostPort.JoinInjective | plugin/revtunnel/server.go:660-662 | different address and port pairs never share a key, brackets or not |
| Tables.ForwardsOneToOne | plugin/revtunnel/server.go:626-662 | a GUID sits under one key, and two keys never have the same address and port |
| Tables.DroppedKeepsInv | plugin/revtunnel/server.go:440-456 | dropping a GUID keeps the tables consistent |
| Tables.PrunedKeepsInv | plugin/revtunnel/server.go:472-489 | pruning dead GUIDs and forwards keeps the tables consistent |
| Tables.RecordedKeepsInv | plugin/revtunnel/server.go:626-629 | recording a new forward keeps the tables consistent |
| Tables.SpecificCancelExact | plugin/revtunnel/server.go:686-730 | a cancel with a port hits exactly the forward bound to that address and port |
| Tables.ZeroPortCancelExact | plugin/revtunnel/server.go:686-730 | a cancel without a port hits exactly the forwards on that address, or on it in brackets |
| Tables.ZeroPortCancelOfOwnAddress | plugin/revtunnel/server.go:686-730 | a zero-port cancel of the bound address works exactly when that address has no brackets |
| Tables.CancelledExact | plugin/revtunnel/server.go:686-730 | a cancel removes the named forwards and their GUIDs and nothing else |
| Ports.ReserveIsFree | plugin/revtunnel/server.go:750-768 | a reserved port is free and not zero; a drawn one lies in 40000 to 59999; a fixed one is taken exactly when free |
| Ports.ReserveServesFreePorts | plugin/revtunnel/server.go:736-768 | away from the wrap-around, port zero is served exactly when some pseudo-port is free |
| Ports.WrappingScanMissesAFreePort | plugin/revtunnel/server.go:736-768 | every scan that crosses the wrap-around refuses a table that the handler can hold and that has a free pseudo-port |
| Ports.ReliableExactly | plugin/revtunnel/server.go:736-768 | port zero is served for every consistent table with a free pseudo-port if and only if the scan does not cross the wrap-around |
| Server.QueueCapacity | plugin/revtunnel/server.go:259-276 | the queue is as long as the smaller configured cap, or 1024 without one |
| ServerSafety.ReachableInv | plugin/revtunnel/server.go:222-730 | every state that any interleaving of all connections, the sweeper and the store's failures reaches has the invariant |
| ServerTheorems.NoTunnelOutlivesItsConnection | plugin/revtunnel/server.go:222-465 | once a connection's clean-up has finished and no revocation of its session is in flight, no live tunnel refers to it |
| ServerTheorems.QuotasHold | plugin/revtunnel/server.go:472-629 | the global cap and the listed quota hold in every reachable state; live tunnels exceed the quota by at most the one being revoked |
| ServerTheorems.ForwardTableAgrees | plugin/revtunnel/server.go:440-662 | forward tables name listed GUIDs and agree with the live records in every reachable state |
| ServerTheorems.CancelledTunnelsAreGone | plugin/revtunnel/server.go:667-730 | after a cancel has been answered none of the tunnels it named is live |
| ServerTheorems.AcceptedMeansQueuedOnce | plugin/revtunnel/server.go:324-656 | forwards answered with success are those put on the queue, in order, each once; the queue is the unread end of that list |
| ServerTheorems.QueueHasRoom | plugin/revtunnel/server.go:259-331 | with a cap, a new live tunnel finds room if the queued ones are still live |
| ServerTheorems.HandledMeansOverridesApplied | plugin/revtunnel/server.go:391-436 | a registration the session has dealt with is gone, or has the requested key and password setting in the live and the stored record |
| ServerProgress.ForwardIsServed | plugin/revtunnel/server.go:520-656 | an uninterrupted forward request within both caps, with a default key, a port to be had, room in the queue and a fresh GUID ends live, stored, listed under its address and port, queued and answered with success |
| ServerExamples.ForwardSucceeds | plugin/revtunnel/server.go:520-629 | the instance that the next runs use: quota one, no store, empty tables |
| ServerExamples.QuotaExceededDuringRevocation | plugin/revtunnel/server.go:419-456 | a run with more live tunnels than the quota |
| ServerExamples.QueueOverflowsAfterCancel | plugin/revtunnel/server.go:259-331 | a run in which the queue overflows under a cap |
| ServerExamples.OneTunnelIsReachable | plugin/revtunnel/server.go:520-656 | the states these runs start from are reachable |
| HandlerObject.PortCounter.AllocPseudoPort | plugin/revtunnel/server.go:738-743 | one draw from the wrapping counter |
| HandlerObject.ConnHandler.CountLiveForwards | plugin/revtunnel/server.go:472-489 | the in-place loops prune exactly the dead GUIDs and forwards and count the rest |
| HandlerObject.ConnHandler.PerConnLimitReached | plugin/revtunnel/server.go:491-496 | the quota test after pruning |
| HandlerObject.ConnHandler.ReserveForwardPort | plugin/revtunnel/server.go:750-768 | the retry loop is the first free draw |
| HandlerObject.ConnHandler.EnqueueRegistration | plugin/revtunnel/server.go:324-331 | queued at the end unless full |
| HandlerObject.ConnHandler.RevokeGuid | plugin/revtunnel/server.go:440-456 | the GUID leaves both lists and the registry |
| HandlerObject.ConnHandler.RevokeForward | plugin/revtunnel/server.go:686-730 | exactly the cancelled forwards leave the tables and the registry |
| HandlerObject.ConnHandler.Cleanup | plugin/revtunnel/server.go:458-465 | every listed tunnel leaves the registry |
| HandlerObject.OverriddenMeans | plugin/revtunnel/server.go:391-413 | overrides change only the tunnel's own record, and when none fails it carries exactly what was asked for |
| HandlerObject.OverriddenMirrors | plugin/revtunnel/server.go:391-413 | whether or not an override fails, live and stored records stay in step |
| HandlerObject.ConnHandler.ApplyEnvOverrides | plugin/revtunnel/server.go:391-413 | key and password overrides applied in turn, stopping at the first failure; on success both the live and the stored record have them |
| HandlerObject.ConnHandler.HandleRegistration | plugin/revtunnel/server.go:419-436 | the overrides are applied to the live and the stored record, or the tunnel is revoked from lists and registry |
| HandlerObject.ConnHandler.Register | plugin/revtunnel/server.go:619-656 | registered, listed and queued, or nothing is left of it |
| HandlerObject.ConnHandler.HandleTcpipForward | plugin/revtunnel/server.go:520-656 | an undisturbed forward request registers the tunnel completely or changes nothing but the pruning |
| Connect.BusyTunnelSurvives | plugin/revtunnel/plugin_config.go:237-263 | in every run from a start a tunnel with authenticated traffic within the idle time minus 30 seconds survives the sweep if no touch of its pipe is on its way |
| Connect.UndeliveredTouchDoesNotProtect | plugin/revtunnel/plugin_config.go:237-247 | between noting the time and telling the registry a sweep evicts a tunnel with fresh traffic, whatever else the state is |
| ConnectExamples.UndeliveredTouchFromStart | plugin/revtunnel/plugin_config.go:133-263 | a run from an empty start that gets there |
| ConnectErasure.HideCommutesExactly | plugin/revtunnel/plugin_config.go:104-288 | an event does the same with and without the erased attempts, and leaves them unauthenticated, if and only if it neither starts an erased pipe nor lets one displace a visible pipe |
| ConnectErasure.FailedAttemptsChangeNoSweep | plugin/revtunnel/plugin_config.go:104-139 | erasing any attempts whose pipes never start, with all their traffic, changes no sweep outcome, also when a retry under the same UniqueID does start |
| ConnectErasure.FailedAttemptsNeverMatter | plugin/revtunnel/plugin_config.go:36-139 | the same from any start, for live tunnels and stored records too |
| ConnectExamples.DisplacedPipeMissesItsStart | plugin/revtunnel/plugin_config.go:115-139 | an attempt that displaces the waiting pipe of its UniqueID and is closed takes the start away from that pipe |
| ConnectExamples.DisplacingAttemptChangesTheSweep | plugin/revtunnel/plugin_config.go:115-139 | a run in which such an attempt gets the tunnel evicted, and the same run without it, in which the tunnel stays |
| ConnectObject.ChannelConn.Touch | plugin/revtunnel/plugin_config.go:237-247 | an undisturbed touch is the throttled step followed by its delivery |
| ConnectObject.ChannelConn.Transferred | plugin/revtunnel/plugin_config.go:249-263 | a transfer touches the registry exactly when bytes moved, the pipe is authenticated and its last touch is 30 seconds old; otherwise nothing changes |
| ConnectObject.PipeTable.Store | plugin/revtunnel/plugin_config.go:104-131 | the newest pipe of a UniqueID replaces the older one |
| ConnectObject.PipeTable.PipeStart | plugin/revtunnel/plugin_config.go:133-139 | the newest pipe of the UniqueID, and only that one, becomes authenticated and counts as activity |
| ConnectObject.PipeTable.CleanupPendingPipe | plugin/revtunnel/plugin_config.go:280-288 | closing a pipe never drops the entry of a newer pipe |
| Forwarding.ForwardingFilter.Enter | cmd/sshpiperd/forwarding.go:110-174 | every want-reply request takes the next number; blocked ones have to wait with it |
| Forwarding.ForwardingFilter.TryRelease | cmd/sshpiperd/forwarding.go:122-156 | the local failure goes out exactly when all earlier requests are answered |
| Forwarding.ForwardingFilter.Up | cmd/sshpiperd/forwarding.go:186-195 | each upstream reply is passed on and counted |
| ReplyOrder.RepliesInRequestOrder | cmd/sshpiperd/forwarding.go:110-195 | in every interleaving the k-th reply released answers the k-th want-reply request, made locally exactly if blocked; the counters' difference is the unanswered requests plus the waiting one |
| ReplyOrder.NoWaitWithoutUp | cmd/sshpiperd/daemon.go:627-637 | where `up` is not installed `down` never waits |
| ReplyOrder.WaitsForUpstreamOnly | cmd/sshpiperd/forwarding.go:122-156 | a waiting `down` waits for exactly the earlier requests the upstream owes |
| ReplyOrder.DistanceFallsWithEachReply | cmd/sshpiperd/forwarding.go:122-195 | each upstream reply brings the release one closer and nothing moves it away |
| ReplyOrder.WaitEnds | cmd/sshpiperd/forwarding.go:122-156 | once the upstream has answered, the wait ends with the local reply |
| HookChain.ChainComposes | cmd/sshpiperd/hook.go:16-36 | a longer chain is its first part followed, unless that stopped, by its second |
| HookChain.InspectorsDoNotMatter | cmd/sshpiperd/hook.go:16-36 | hooks that only look can be left out |
| HookChain.Hooks.Append | cmd/sshpiperd/hook.go:10-14 | hooks run in the order of installation; nil hooks are skipped |
| HookChain.Hooks.Call | cmd/sshpiperd/hook.go:16-36 | the loop is the fold that stops at an error or a reply |
| EnvInject.TriggersMeansSessionRequest | cmd/sshpiperd/envinject.go:42-72 | the byte-level framing check accepts exactly the well-formed shell, exec and subsystem requests |
| EnvInject.EnvPacketReadsBack | cmd/sshpiperd/envinject.go:74-83 | a server reads channel, name and value back from an injected packet |
| EnvInject.InjectedEntriesAreTheEnvironment | cmd/sshpiperd/envinject.go:42-83 | in whatever map order, the packets say exactly the configured entries, each once |
| EnvInject.WriteAll | cmd/sshpiperd/envinject.go:42-72 | the loop writes one packet per entry and stops at the first failing write |
| EnvInject.Down | cmd/sshpiperd/envinject.go:42-72 | the packet is passed on after its env packets, if any |
| Pipeline.PumpSendsExpected | cmd/sshpiperd/hook.go:16-36 | for every packet stream the chain of inspectors, filter and injector sends exactly the reference stream |
| Pipeline.NothingElseIsTouched | cmd/sshpiperd/forwarding.go:110-174 | without the injected packets the output is the input without exactly the blocked packets, unchanged and in order |
| Pipeline.SessionRequestsFollowTheirEnvironment | cmd/sshpiperd/envinject.go:42-72 | every session request that reaches the upstream is directly preceded by one env packet per entry for its channel |
| BroadcastLaws.HistoryIsLastHeaders | cmd/sshpiperd/internal/admin/broadcaster.go:95-119 | after every run the history is the last header of each channel, ordered by last publish |
| BroadcastLaws.SubscribersGetTheirFrames | cmd/sshpiperd/internal/admin/broadcaster.go:52-141 | each subscriber gets a subsequence of its replay and the publishes of its subscription, short by exactly its drops; all of it if nothing was dropped, which holds for up to 256 frames |
| BroadcastLaws.NoPanicAndClosedOnce | cmd/sshpiperd/internal/admin/broadcaster.go:83-141 | no channel is closed twice or sent to after its close, and a closed broadcaster leaves none open |
| BroadcasterObject.ReplayFillsBuffer | cmd/sshpiperd/internal/admin/broadcaster.go:61-69 | the replay loop of the value model keeps the oldest 256 headers, as the method does |
| BroadcasterObject.Broadcaster.Subscribe | cmd/sshpiperd/internal/admin/broadcaster.go:52-72 | a fresh channel with the replayed headers, closed at once on a closed broadcaster |
| BroadcasterObject.Broadcaster.Unsubscribe | cmd/sshpiperd/internal/admin/broadcaster.go:83-90 | closes a subscribed channel; again, or after Close, nothing |
| BroadcasterObject.Broadcaster.Publish | cmd/sshpiperd/internal/admin/broadcaster.go:95-119 | filters the header slice in place and offers the frame to every subscriber, whose channels are all open |
| BroadcasterObject.Broadcaster.Close | cmd/sshpiperd/internal/admin/broadcaster.go:130-141 | closes every subscribed channel once |
| StreamHook.DownReadsRequest | cmd/sshpiperd/internal/admin/streamhook.go:112-208 | the packet parser does to every encoded channel request what the request says |
| StreamHook.UpReadsPackets | cmd/sshpiperd/internal/admin/streamhook.go:65-107 | channel data becomes an output frame with exactly its payload on started channels only; a confirmation records the pair of ids |
| StreamHeader.PacketActsAsSeen | cmd/sshpiperd/internal/admin/streamhook.go:65-208 | every packet of either direction, well-formed or not, acts as the request or confirmation that the hook sees in it |
| StreamHeader.HeaderReportsTheSession | cmd/sshpiperd/internal/admin/streamhook.go:123-189 | a header reports the last pty size and terminal and the last value of each variable since the previous header, on whichever channel, whatever else was sent in between |
| StreamHeader.HeaderReportsThePackets | cmd/sshpiperd/internal/admin/streamhook.go:65-192 | the same for arbitrary bytes in both directions |
| StreamHeader.OwnHeaderExactly | cmd/sshpiperd/internal/admin/streamhook.go:38-46 | a header is the channel's own, for all sizes and values, if and only if the last pty request and the last request for each variable came on that channel |
| StreamHeader.OwnHeaderOfPackets | cmd/sshpiperd/internal/admin/streamhook.go:65-192 | the same for arbitrary packets on the wire |
| StreamHeader.HeaderTakesAnotherChannelsSize | cmd/sshpiperd/internal/admin/streamhook.go:124-189 | two channels: a pty request on one gives the header of the other its size |
| StreamHookObject.PacketReader.ReadWord | cmd/sshpiperd/internal/admin/streamhook.go:127-146 | a short read consumes the rest and yields zero |
| StreamHookObject.PacketReader.ReadString | cmd/sshpiperd/internal/admin/streamhook.go:195-208 | a length-prefixed string, empty when cut short, and the cursor behind it |
| StreamHookObject.Inspector.Up | cmd/sshpiperd/internal/admin/streamhook.go:65-107 | the packet passes unchanged; the output frame is published if somebody watches |
| StreamHookObject.Inspector.StartChannel | cmd/sshpiperd/internal/admin/streamhook.go:160-190 | the channel is marked, the collected state goes into the header and is reset |
| StreamHookObject.Inspector.Down | cmd/sshpiperd/internal/admin/streamhook.go:112-192 | the packet passes unchanged; the cursor-based parser updates the fields and publishes as the function on bytes says |
| Streaming.HeadersComeFirstExactly | cmd/sshpiperd/internal/admin/streamhook.go:65-192 | in every run each published output frame follows a header of its channel if and only if no output overtook the channel's first header between marking and publication |
| Streaming.ReplayingViewerCanRender | cmd/sshpiperd/internal/admin/broadcaster.go:52-119 | then a replaying viewer that lost nothing sees a header before the output of each channel, also when it joined late |
| Streaming.OutputCanOvertakeItsHeader | cmd/sshpiperd/internal/admin/streamhook.go:179-189 | a run in which output reaches viewers before the header |
| Asciicast.AsciicastHandler.OnFrame | cmd/sshpiperd-admin/main.go:446-483 | one frame through the closure and its captured variables |
| Asciicast.HandlerWritesRecording | cmd/sshpiperd-admin/main.go:433-483 | for every frame sequence the handler writes nothing, or the first header and then the later frames of its channel, in order |
| Asciicast.RecordingIsWellFormed | cmd/sshpiperd-admin/main.go:433-483 | a recording is empty exactly without headers, and otherwise one header line followed by event lines |
| Asciicast.RecordingKeepsOutput | cmd/sshpiperd-admin/main.go:446-483 | when headers come first the recording holds all output of its channel in order and no other |
| Asciicast.ViewerRecordsAllOutput | cmd/sshpiperd/internal/admin/server.go:96-168 | in every run a replaying viewer that lost nothing records all output delivered to it for the channel it locked onto |
| ViewerRecording.ViewerRecordsThePackets | cmd/sshpiperd/internal/admin/streamhook.go:65-107 | that output is exactly the payloads of the data packets the upstream sent on the channel since the subscription, in order |
| Aggregator.MergeResolvesEveryId | libadmin/aggregator.go:128-163 | for every reply order an id is resolved exactly when one query reported it and a conflict with all its addresses exactly when several did |
| Aggregator.OrderDoesNotMatter | libadmin/aggregator.go:128-163 | two arrival orders of the same replies give the same answer |
| Aggregator.ConflictsMeanTwoEndpointsExactly | libadmin/aggregator.go:148-160 | whatever the endpoints answer, an id reported twice was reported by two of them, if and only if no endpoint is queried twice |
| Aggregator.DuplicateEndpointConflictsWithItself | libadmin/aggregator.go:112-180 | an endpoint listed twice makes its own id a conflict without a client |
| Aggregator.Dedupe | libadmin/aggregator.go:165-175 | each conflicting address once |
| Aggregator.Collect | libadmin/aggregator.go:135-163 | the collector computes the merge of the replies and keeps every failed query |
| Aggregator.Conflicts | libadmin/aggregator.go:165-180 | one conflict per duplicated id, with each of its addresses once |
| Aggregator.Aggregator.Redial | libadmin/aggregator.go:95-125 | clients of gone endpoints go, known ones stay, new ones are dialled; queries and dial errors follow the endpoint order |
| Aggregator.Aggregator.Refresh | libadmin/aggregator.go:89-190 | an id is resolved exactly when one query reported it, a conflict with each reporter's address once exactly when several did, and that is two endpoints if none is queried twice; errors list failed dials and queries |
| Aggregator.RefreshThenRoute | libadmin/aggregator.go:89-214 | after a refresh an id has a client exactly when one query reported it, and it is that reporter's |
| Keyboard.NeverBothWait | libplugin/pluginbase.go:394-471 | in every run of the two loops they never both wait for a message that is not coming |
| Keyboard.AnswersReachTheirQuestions | cmd/sshpiperd/internal/plugin/grpc.go:503-567 | each question gets exactly one response, delivered to the call that asked it; prompts without a question get none; prompts reach the client in call order |
| Keyboard.OutcomeIsTheCallbacks | cmd/sshpiperd/internal/plugin/grpc.go:512-566 | an accepted upstream is the callback's, after all its prompts were shown; the daemon never returns without upstream and error |
| Keyboard.SplitQuestions | cmd/sshpiperd/internal/plugin/grpc.go:523-529 | texts and echo flags in step with the questions |
| SplitArgs.SplitArgs | cmd/sshpiperd-admin/ssh_server.go:644-706 | the loop with its mutable locals computes the state-machine specification |
| SplitArgs.SplitFollowsGrammar | cmd/sshpiperd-admin/ssh_server.go:644-706 | however an input is read as quoted and plain pieces, the result is their words, or the error that names what is open |
| SplitArgs.EveryInputParses | cmd/sshpiperd-admin/ssh_server.go:644-706 | every input has such a reading, so the splitter fails exactly when the input ends inside a quote or after an unconsumed backslash |
| SplitArgs.QuotingRoundTrip | cmd/sshpiperd-admin/ssh_server.go:644-706 | quoting every word of any list and joining with spaces is undone by the splitter |

## Left out

- ServerTheorems.QueueHasRoom: one direction only; a queued tunnel that is no longer live need not make the queue overflow, so there is no converse.
- Server, Connect: GUIDs are issued once, the clock does not go back, and a failing store call leaves the store as it was.
- Connect: the load and the store of a pipe's last-touch time are one step; the call into the registry is a separate one.
- ReplyOrder: releasing a reply is one step; the socket write happens in the SSH library, and the upstream answers each forwarded request once and in order.
- Forwarding, EnvInject: packets are shorter than 4 GiB, and a nil packet is not written to the upstream.
- ViewerRecording.ViewerRecordsThePackets: stated for a viewer that is still subscribed; frames buffered when it leaves are a matter of `SubscribersGetTheirFrames`.
- Streaming: header frames carry no timestamps, and a 32-bit size wraps to a signed one in the message as in the code.
- Keyboard: a broken stream (an error of the transport in the middle of the exchange) is not modelled.
- Aggregator: one refresh at a time; list, kill and stream calls that race with it, and the early deletion from the cached infos of gone endpoints, which the same refresh overwrites.
- SSH handshake, key generation, certificates and TLS: library code; keys are opaque values.
- The packet pump of the SSH library: only what hooks return and when they step.
- The session's text protocol (registration block, environment parsing) beyond the two overrides it yields.
- The raw mode of the stream client and JSON encoding: one-line filters and library code.
- Screen recorders, the Lua plugin, failtoban and metrics: file formats and third-party state.
- The file-based session store, YAML, docker and kubernetes configuration, command line, HTTP API and browser UI: input and output plumbing.
- The choice of a plugin in a chain and of a route in a plugin: linear searches for the first match.
