# Hand-off protocol: a verified model

A keyboard and mouse move between computers. Each computer runs a state machine
(Idle, Controlling a peer, BeingControlled by a peer) and a pass-through switch that
says whether local input reaches local applications. Crossing a linked screen edge
sends EdgeEnter; the peer takes the hand-off up or refuses it with EdgeEnterRejected;
control comes back with EdgeRelease. This project models that protocol for any number
of devices, the arrangement of screens it consults, the byte stream and the handshake it
rests on, and the stream arithmetic beside it, and proves what holds in every run.

Check it with `dafny verify dfyconfig.toml`.

## How it is built

| file | what it holds |
|---|---|
| Messages | identities, edges, the wire message type |
| Layout | `ScreenLayout`: the edge list, its operations, `resolve` |
| EdgeMachine | `EdgeStateMachine`: the transition table as a function, and the class that implements it |
| Network, Service, Capture | routing and session life, carrying out actions, the held-key set |
| Handoff | the N-device system: one FIFO channel per ordered pair, and its steps |
| Ledger, Conservation | tokens: what every step does to them, over whole runs |
| Stalls, Orphans | controllers left without a token, controlled devices left without a controller, and what ends that |
| Channels | what every step does to links and channels |
| Sessions, Reentry | what is injected against what was forwarded, session by session |
| Drain | deliveries run out, and then both ends agree |
| Switches | pass-through, single consumer, emergency chord; a device of the system is a service |
| Crossing, Journey | a hand-off there and back, step by step and on a busy connection |
| Screen, Trip | entry points, warps and re-detection, down to pixels |
| Failures | concrete runs in which the code does not keep what it keeps otherwise |
| Coalescer, Dedup | the mouse-move coalescer and the sequence guard |
| Framing, Handshake | length-prefixed frames, the two pumps, the Hello/HelloAck exchange |

A class is proved against a function on values (`Transition`, `LinkEdges`, `PushOf`,
`ReadOne`, `Judge`, ...); the theorems are about those functions. `DeviceIsService`
closes the gap between the N-device system and `CoreService`.

A run is any sequence of steps: a touch of an edge, a local input, a key event, delivery
of the head of a channel, loss or set-up of a connection, background traffic. A touch
carries the arrangement it is resolved in, so arrangements may differ between devices and
change at any time. Session numbers and the logs of forwarded and injected inputs only
observe; no step reads them.

Conventions: `real` for f64 and f32 (the conversion of a position to f32 is the identity,
there is no NaN); u32 as integers modulo 2^32; `sqrt(x) >= t` compared as squares; UUIDs
and keys as numbers of which only equality matters. Whether `screen_bounds` succeeds, and
its answer, is a parameter; whether an injector call succeeds is never looked at, as in
the source. The version a build expects is a parameter of the handshake, so that two
builds can differ. A connection is lost atomically: both ends are told and both
channels are emptied. A chord with no keys fires on every press, as `Iterator::all` has it.

## Where the code does not do what one might expect

The code is modelled as it is. Each point names the theorems it rests on.

- Crossing to a linked device with which there is no session leaves the crossing device
  Controlling, local input off, with nothing on its way to end it: `CrossingToNobodyStalls`.
  `TokenConservation` and `NoSilentStall` hold exactly without such steps. What gets it out
  is its own chord, the loss of a connection made meanwhile, or the other device's chord
  while that one believes to control it: `StallLasts`, `PeerCanFree`.
- The emergency chord on a controlled device sends nothing, so its controller is left the
  same way: `EmergencyStrandsController`. The wire protocol document (under "Heartbeats &
  reconnection") and the comment at crates/ms-input-core/src/state_machine.rs:223-226 speak
  of one release path for emergency and loss; in the code `on_connection_lost` does not call
  `force_release`, and only a loss reaches both ends.
- A controlled device ignores EdgeRelease. After an emergency on its controller it stays
  controlled (`EmergencyLeavesOrphan`), and an EdgeEnter still on its way is even taken up
  afterwards (`CancelledIsTakenUp`). `NoOrphans` has the exact condition. Such a device
  refuses everybody until its own chord, a touch that leads back, or a loss: `ControlLasts`,
  `ControlledRefuses`.
- If its controller then crosses to it again, it refuses that too, but injects what is
  forwarded until the refusal is known: `EmergencyLeaksRefusedInput`. `NoStragglers` has the
  exact condition.
- The wire protocol document (under "Mouse-move coalescing") bounds the coalescer at about
  125 messages a second. Movement beyond the threshold is sent whatever the interval
  (`SwipeSendsAll`), and so is a flush (`FlushOverfills`). The interval is a bound exactly as
  long as neither happens early: `CappedExactly`; with every flush counted, the bound that
  always holds is `RateBound`.
- The sequence guard accepts numbers a second time in two ways: multiples of 2^32 pass as
  the reserved zero, and a number far enough behind looks ahead and sets the guard back:
  `ReplayRefusedExactly`, `ReplayComesAround`.
- The message catalogue of the wire protocol document has MouseWarp sent once per hand-off.
  It is never sent: `NoWarpIsSent`. The cursor is placed by the receiver of EdgeEnter, and if
  the platform reports that warp to the capture hook, it can by itself hand control straight
  back: `WarpReturnsExactly`.

## Model

| member | source | states |
|---|---|---|
| Conservation.TokenConservation | crates/ms-input-core/src/state_machine.rs:114-221 | for any number of devices and any interleaving, at every point of a run each Controlling device has exactly one token (EdgeEnter on its way, peer under its control, release or rejection on its way back) and there is no other, if and only if no step crosses to a peer without a session or fires the emergency chord on a device that is not Idle |
| Conservation.ConservationStep | crates/ms-input-core/src/state_machine.rs:86-242 | one step keeps exactly one token per controller if and only if it neither crosses to a peer without a session nor fires the chord on a device that is not Idle |
| Conservation.NoSilentStall | crates/ms-input-core/src/state_machine.rs:164-242 | with losses and emergencies allowed, at every point of a run every Controlling device has something that can end it, if and only if no step crosses to nobody or is an emergency on a controlled device holding its controller's last token |
| Conservation.NoStallStep | crates/ms-input-core/src/state_machine.rs:192-242 | the same for one step, from any state without a stall |
| Stalls.StallLasts | crates/ms-input-core/src/state_machine.rs:114-242 | a device Controlling without a token stays so through any continuation, if and only if it never has its own chord pressed, nor loses that peer, nor has the peer's chord pressed while the peer controls it |
| Stalls.StuckStep | crates/ms-input-core/src/state_machine.rs:182-242 | the same for one step |
| Stalls.StepRole | crates/ms-input-core/src/state_machine.rs:114-242 | the role of every device after every step, read off the roles, links and head message before it |
| Orphans.NoOrphans | crates/ms-input-core/src/state_machine.rs:164-242 | at every point of a run every controlled device has a controller that controls it, if and only if no step is a chord on a controller its target has taken up, an EdgeEnter taken up after its sender has stopped controlling, or a return that ends the control of a sender still controlled |
| Orphans.MatchedStep | crates/ms-input-core/src/state_machine.rs:164-242 | the same for one step, from any state where that holds |
| Orphans.ControlLasts | crates/ms-input-core/src/state_machine.rs:136-242 | a controlled device, orphaned or not, stays so through any continuation, if and only if it never loses that peer, never has its own chord pressed and never touches an edge that leads to that peer |
| Orphans.ControlledRefuses | crates/ms-input-core/src/state_machine.rs:164-175 | and it refuses whoever asks meanwhile |
| Orphans.ConservedIsMatched | crates/ms-input-core/src/state_machine.rs:114-221 | where hand-offs are conserved there are no orphans |
| Conservation.RunWired | crates/ms-daemon/src/network.rs:121-229 | in every run links are symmetric, and without a link nothing is in flight and nobody is controlled |
| Channels.ChannelsExactly | crates/ms-input-core/src/state_machine.rs:107-242 | what every step does to every channel: only a delivered head leaves it, and exactly the stated messages join it at the end |
| Channels.LinksExactly | crates/ms-daemon/src/network.rs:121-229 | links come with a set-up and go with a loss, and not otherwise |
| Conservation.ReturnMeetsController | crates/ms-input-core/src/state_machine.rs:182-200 | while hand-offs are conserved the stale-release and stale-rejection branches are never taken |
| Ledger.StepLedger | crates/ms-input-core/src/state_machine.rs:107-242 | the exact change every kind of step makes to tokens minus controllers, for every ordered pair |
| Ledger.DropLedger | crates/ms-input-core/src/state_machine.rs:209-221 | a lost connection balances its pair and leaves every other pair as it was |
| Sessions.PrefixExact | crates/ms-input-core/src/state_machine.rs:202-207 | in every run at all: what was injected in a session is a prefix of what was forwarded in it exactly if nothing else was injected in it; what carries its stamp always is such a prefix; a session refused or not taken up injects nothing |
| Sessions.StepSound | crates/ms-input-core/src/state_machine.rs:86-242 | every step, emergencies included, keeps the account of each session: injected of it, plus in flight of it, is all that was forwarded in it |
| Reentry.NoStragglers | crates/ms-input-core/src/state_machine.rs:164-207 | at every point of a run, emergencies, losses and dropped sends included, each session injects a prefix of what was forwarded in it, if and only if no input is delivered to a device whose latest EdgeEnter from that sender found it already controlled by that sender; conserving runs, and all runs without such a second EdgeEnter, are of that kind |
| Reentry.PrefixExactly | crates/ms-daemon/src/network.rs:177-197 | a step towards it: all sessions inject prefixes exactly if no delivery hands over an input of another session |
| Reentry.StrayIsReentry | crates/ms-input-core/src/state_machine.rs:164-207 | after any run, a delivery injects an input of another session exactly if its receiver is controlled by the sender and the sender's latest EdgeEnter found it so |
| Reentry.NextInputStrays | crates/ms-input-core/src/state_machine.rs:107-112 | after any run, with two devices in session and nothing on its way, forwarding and delivering any one input breaks the prefix property exactly if the controlled one was asked to enter again |
| Reentry.StepInStep | crates/ms-input-core/src/state_machine.rs:114-207 | every step keeps each channel framed (inputs belong to the session opened by the latest EdgeEnter before them), and a controlled device is in the session of the latest EdgeEnter that reached it exactly if that one was not a re-entry |
| Reentry.BenignForbidsReentry | crates/ms-input-core/src/state_machine.rs:164-175 | while hand-offs are conserved no device receives an EdgeEnter from its own controller |
| Drain.DrainAgreement | crates/ms-input-core/src/state_machine.rs:164-200 | after any run at all, deliveries in any order are at most as many as messages plus EdgeEnters in flight; after a conserving run, simultaneous crossings included, once nothing is in flight A controls B exactly when B is controlled by A, sessions share no device, and all that was forwarded in them has been injected |
| Drain.DeliverLightens | crates/ms-input-core/src/state_machine.rs:164-175 | every delivery makes messages plus EdgeEnters in flight fewer, replies included |
| Drain.DrainReachesQuiescence | crates/ms-daemon/src/network.rs:177-222 | from any state a run can reach, stalls and refused hand-offs included, some order of deliveries empties every channel |
| Switches.PassThroughEverywhere | crates/ms-core-service/src/service.rs:73-92 | in every state of every run pass-through is on exactly on devices that are not Controlling |
| Switches.SingleConsumer | crates/ms-input-core/src/state_machine.rs:107-162 | in every run a local input is either let through and sent nowhere, or withheld and sent to the one target; if it completes the chord a release goes instead of it |
| Switches.EmergencyExact | crates/ms-input-core/src/state_machine.rs:151-162 | after any interleaving, a press that leaves every chord key last pressed ends Idle with pass-through on; any other key event changes no role and no switch anywhere |
| Switches.HeldIsHistory | crates/ms-daemon/src/input.rs:37-48 | the held set is exactly the keys whose latest captured event was a press |
| Switches.NoWarpIsSent | crates/ms-core-service/src/service.rs:101-106 | no run ever has a MouseWarp in any channel |
| Switches.DeviceIsService | crates/ms-core-service/src/service.rs:73-92 | one event in the N-device system does to a device's role, switch and outbound queues what `CoreService` does |
| Crossing.RoundTrip | crates/ms-input-core/src/state_machine.rs:114-200 | crossing, taking up, touching the entered edge anywhere live, delivering: both Idle, both switches on, every channel and other device as before |
| Journey.BusyRoundTrip | crates/ms-input-core/src/state_machine.rs:114-200 | the same in a busy system: anything but a disconnect queued before; inputs and other messages forwarded, queued and delivered in any order in between, and any steps of other devices that do not take over an idle one of the two; as soon as nothing is in flight towards the controller both are Idle with their switches on |
| Journey.TrafficAt | crates/ms-input-core/src/state_machine.rs:107-207 | such traffic moves a hand-off on exactly when its own EdgeEnter or its release is delivered, and keeps roles, switches and tokens of the pair otherwise |
| Failures.CrossingToNobodyStalls | crates/ms-daemon/src/network.rs:43-49 | a concrete run from the start that leaves a device Controlling, local input off, with no token left, nothing in flight anywhere |
| Failures.PeerCanFree | crates/ms-input-core/src/state_machine.rs:227-235 | after that run a new connection and a crossing by the other device leave the first stuck, the other's emergency chord does not |
| Failures.EmergencyStrandsController | crates/ms-input-core/src/state_machine.rs:236-239 | a concrete run from the start: the chord on the controlled device leaves its controller the same way |
| Failures.EmergencyLeaksRefusedInput | crates/ms-input-core/src/state_machine.rs:192-199 | a concrete run from the start that breaks the prefix property: input of a refused session is injected in an older one after an emergency |
| Failures.EmergencyLeavesOrphan | crates/ms-input-core/src/state_machine.rs:192-235 | a concrete run from the start: the chord on the controller leaves its target controlled by an Idle device, nothing in flight |
| Failures.CancelledIsTakenUp | crates/ms-input-core/src/state_machine.rs:164-199 | the same with the chord pressed while the EdgeEnter is on its way: it is taken up, the release behind it ignored |
| Trip.InputArrives | crates/ms-core-service/src/service.rs:94-123 | captured, forwarded, routed, injected: exactly one injector call with the captured values, save for the press that completes the chord |
| Trip.StepCallsExactly | crates/ms-core-service/src/service.rs:73-123 | the same for every step of the N-device system, by the message that step hands to the device |
| Trip.UnaskedStaysStill | crates/ms-input-core/src/state_machine.rs:164-207 | over whole runs, a device that was handed no EdgeEnter while Idle and no input while its sender controlled it never called its injector |
| Trip.HandlesRight | crates/ms-core-service/src/service.rs:73-78 | the event a device is said to handle in a step is the one the system has it handle |
| Trip.EntryWarp | crates/ms-core-service/src/service.rs:86-90 | an EdgeEnter that arrives at an Idle device, routed and handled, makes one injector call, and what that makes the edge detector see is the re-detection of the entry point |
| Trip.WarpReturnsExactly | crates/ms-input-core/src/state_machine.rs:136-180 | the touch caused by the warp of an accepted EdgeEnter hands control back, both Idle, if and only if a link leads back from the edge and position it is seen at; seen at the entered edge, if and only if the position still reads as live; otherwise the session goes on |
| Trip.WarpAloneReturns | crates/ms-input-core/src/state_machine.rs:136-180 | a case of it, from the injector call on: with a position the rounding error inside the boundary and the entered edge seen, the warp made for the EdgeEnter hands control back |
| Layout.HistoryWellFormed | crates/ms-config/src/layout.rs:76-162 | after any operations from an empty layout: known endpoints, no self-link, one link per device edge, a mirror with the same boundary for each |
| Layout.ResolveInvolution | crates/ms-config/src/layout.rs:164-179 | what `resolve` crosses, it crosses back, at any position live on that boundary |
| Layout.HistoryResolveInvolution | crates/ms-config/src/layout.rs:110-179 | the same after any history of edits |
| Layout.ResolveIsLookup | crates/ms-config/src/layout.rs:168-179 | `resolve` answers a link exactly if it is the entry of that edge, both ends are known and enabled and the position is on the live part, ends included |
| Layout.UnlinkUndoesLink | crates/ms-config/src/layout.rs:138-162 | unlinking a fresh link from either end restores the previous layout, order included |
| Layout.UnlinkDropsOnePair | crates/ms-config/src/layout.rs:152-162 | unlinking drops one link and its mirror and nothing else |
| Layout.RemoveFrame | crates/ms-config/src/layout.rs:80-83 | removing a device leaves every answer between two others as it was, and none for it |
| Layout.UnlinkFrame | crates/ms-config/src/layout.rs:150-162 | unlinking silences the two edges it joined and leaves every other answer as it was |
| Layout.ScreenLayout.LinkAsymmetric | crates/ms-config/src/layout.rs:110-148 | refuses in the source's order or appends link and mirror; keeps the invariant |
| Layout.ScreenLayout.Link | crates/ms-config/src/layout.rs:52-103 | succeeds exactly for two distinct known devices whose facing edges are free (Right and Left, Top and Bottom); then, both enabled, each leads to the other at every position |
| Layout.LinkDecision | crates/ms-config/src/layout.rs:110-136 | exactly which links are accepted, and which error is given for the others; a refused link changes nothing |
| Layout.LinkEntries | crates/ms-config/src/layout.rs:138-147 | an accepted link adds itself and its mirror over the same boundary and nothing else |
| Layout.LinkJoins | crates/ms-config/src/layout.rs:110-179 | an accepted link between enabled devices leads there and back on its live part, nowhere off it, and leaves every other edge's answer |
| Layout.AddAnswers | crates/ms-config/src/layout.rs:76-78 | adding a device leaves the links; an answer is then an entry whose ends are enabled, the added device by the flag it came with |
| Layout.AddFrame | crates/ms-config/src/layout.rs:76-78 | adding a device leaves every answer between two others |
| Layout.EnableAnswers | crates/ms-config/src/layout.rs:85-91 | after enabling or disabling, the device answers and is answered by the new flag; nothing else changes; an unknown device is named |
| Layout.RemoveForgets | crates/ms-config/src/layout.rs:80-83 | a removed device is unknown, its links are gone, no other device or link is, and linking it is refused as unknown |
| Layout.ScreenLayout.Unlink | crates/ms-config/src/layout.rs:152-162 | removes the link and its mirror; keeps the invariant |
| Layout.ScreenLayout.Remove | crates/ms-config/src/layout.rs:80-83 | removes the node and every link at it; keeps the invariant |
| Layout.ScreenLayout.Enable | crates/ms-config/src/layout.rs:85-91 | sets the flag of a known device, names an unknown one |
| Layout.ScreenLayout.Add | crates/ms-config/src/layout.rs:76-78 | inserts or replaces a node; keeps the invariant |
| EdgeMachine.EdgeStateMachine.Handle | crates/ms-input-core/src/state_machine.rs:86-105 | new state and actions are those of the transition table |
| EdgeMachine.EdgeStateMachine.LocalCursorAtEdge | crates/ms-input-core/src/state_machine.rs:114-149 | the touch handler |
| EdgeMachine.EdgeStateMachine.PeerEdgeEnter | crates/ms-input-core/src/state_machine.rs:164-180 | the hand-off is taken up when Idle and refused otherwise |
| EdgeMachine.EdgeStateMachine.PeerReturn | crates/ms-input-core/src/state_machine.rs:182-200 | release and rejection end exactly the role of controlling the sender |
| EdgeMachine.EdgeStateMachine.ConnectionLost | crates/ms-input-core/src/state_machine.rs:209-221 | ends exactly the role played with the lost device |
| EdgeMachine.EdgeStateMachine.Release | crates/ms-input-core/src/state_machine.rs:227-242 | the emergency release, silent on a controlled device |
| EdgeMachine.PassThroughFollowsRole | crates/ms-input-core/src/state_machine.rs:86-242 | the actions of every transition leave pass-through on exactly outside of Controlling |
| EdgeMachine.ResponseShape | crates/ms-input-core/src/state_machine.rs:86-242 | every transition sends and injects at most one message, and which |
| Service.CoreService.Handle | crates/ms-core-service/src/service.rs:73-92 | every action is carried out in order: role, switch, queues and injector calls; the switch follows the role; the injector is called only for an EdgeEnter at an Idle device, to put the cursor on the entered edge, and for an input from the controller, to reproduce it |
| Service.CallsExactly | crates/ms-input-core/src/state_machine.rs:86-259 | for every state and event: the injector calls made are one warp to the entered edge, given edge by edge, for an EdgeEnter at an Idle device with a known screen; those that reproduce the input, for an input from the controller; otherwise none |
| Service.CoreService.Execute | crates/ms-core-service/src/service.rs:80-92 | one action against the collaborator it is for |
| Service.CoreService.Inject | crates/ms-core-service/src/service.rs:94-123 | one injected message becomes one injector call, none for a warp without bounds |
| Service.PerformedPeers | crates/ms-core-service/src/service.rs:73-92 | the actions together queue the messages they send, in order |
| Service.PerformedCalls | crates/ms-core-service/src/service.rs:73-92 | the actions together make their injector calls, in order |
| Network.RunSession | crates/ms-daemon/src/network.rs:121-230 | whatever arrives is routed in order up to a disconnect; whatever other tasks send to the peer meanwhile is handed to its writer, all of it and in order; then the session is unregistered and the loss reported once and last; other sessions' queues only grow by what is for them |
| Network.Route | crates/ms-daemon/src/network.rs:177-222 | what each kind of message becomes: the three hand-off messages and inputs their events, a disconnect the end, everything else nothing |
| Network.SendAllExactly | crates/ms-daemon/src/network.rs:42-50 | every live session's queue grows by what is for its peer, in order; sends create no session |
| Network.ChannelNetworkSender.Send | crates/ms-daemon/src/network.rs:42-50 | queues for a live session, drops otherwise |
| Network.ChannelNetworkSender.Register | crates/ms-daemon/src/network.rs:26-28 | a live session with an empty queue |
| Network.ChannelNetworkSender.Unregister | crates/ms-daemon/src/network.rs:30-32 | the session and its queue are gone |
| Capture.CaptureAdapter.OnKeyEvent | crates/ms-daemon/src/input.rs:37-48 | a key is held exactly if pressed, other keys unchanged; the event carries the set after it |
| Coalescer.MovementConserved | crates/ms-protocol/src/coalesce.rs:43-74 | after any calls, emitted plus pending movement is what was pushed |
| Coalescer.EmissionsNumbered | crates/ms-protocol/src/coalesce.rs:63-74 | the k-th message carries k modulo 2^32 |
| Coalescer.RateBound | crates/ms-protocol/src/coalesce.rs:43-74 | with a clock that does not go back, at most one message, plus one per elapsed interval, plus one per threshold of movement, plus one per flush |
| Coalescer.CappedExactly | crates/ms-protocol/src/coalesce.rs:43-74 | with a clock that does not go back: in every window of pushes and flushes at most one message plus one per interval, if and only if no call with movement to send is a flush, or reaches the threshold, less than an interval after the last message |
| Coalescer.SwipeSendsAll | crates/ms-protocol/src/coalesce.rs:51-54 | samples of a full threshold are all sent, any number at one instant |
| Coalescer.FlushOverfills | crates/ms-protocol/src/coalesce.rs:60-74 | a concrete run over the cap in which no push is early: a flush sends the second of two samples at one instant |
| Coalescer.MouseMoveCoalescer.Push | crates/ms-protocol/src/coalesce.rs:43-58 | folds the sample or sends everything pending, as `PushExactly` says |
| Coalescer.PushExactly | crates/ms-protocol/src/coalesce.rs:43-58 | a push with movement to send sends all of it if and only if nothing was sent before, the interval since the last message is over, or the movement reaches the threshold; otherwise it keeps all of it |
| Coalescer.FlushExactly | crates/ms-protocol/src/coalesce.rs:63-74 | a flush sends all that is pending, whatever the clock says, and nothing if nothing is |
| Coalescer.PendingIsRecentAndSmall | crates/ms-protocol/src/coalesce.rs:43-74 | after any calls that leave movement pending, the last was a push less than an interval after the last message, and the movement is below the threshold |
| Coalescer.MouseMoveCoalescer.Flush | crates/ms-protocol/src/coalesce.rs:63-74 | sends what is pending, if anything |
| Dedup.GuardRefinesUnbounded | crates/ms-core-service/src/dedup.rs:32-47 | over a whole session with numbers within 2^31 of the last accepted, the wrapping guard answers as one with unbounded numbers |
| Dedup.AcceptRefines | crates/ms-core-service/src/dedup.rs:39-46 | within 2^31 of the last accepted number, one answer and the number kept are those of the unbounded guard |
| Dedup.AcceptExactly | crates/ms-core-service/src/dedup.rs:32-47 | for any two numbers: zero passes and is not kept, any other is accepted and kept exactly if it is ahead by less than 2^31 modulo 2^32 |
| Dedup.AgreesExactly | crates/ms-core-service/src/dedup.rs:32-47 | one answer is that of the unbounded guard if and only if the number is a multiple of 2^32 or is ahead modulo 2^32 exactly when it is ahead |
| Dedup.ReplayRefusedExactly | crates/ms-core-service/src/dedup.rs:36-46 | a number not ahead of the last accepted one is accepted again if and only if it is a multiple of 2^32, which leaves no mark, or lies more than 2^31 behind modulo 2^32, which sets the guard back to it; otherwise it is refused and leaves no mark |
| Dedup.ReplayInWindow | crates/ms-core-service/src/dedup.rs:36-46 | at most 2^31 behind, only multiples of 2^32 are accepted again, and nothing leaves a mark |
| Dedup.ReplayComesAround | crates/ms-core-service/src/dedup.rs:39-46 | a concrete session, each number within 2^31 of the last, after which its first number is accepted a second time |
| Dedup.SupersededRefused | crates/ms-core-service/src/dedup.rs:33-35 | once another session is active nothing of the former is accepted |
| Dedup.RefusedOutside | crates/ms-core-service/src/dedup.rs:33-35 | before any session is started, and outside of the one started last, everything is refused and nothing noted |
| Dedup.CoalescedStreamAccepted | crates/ms-protocol/src/coalesce.rs:72-73 | every message of the coalescer is accepted, across every wrap |
| Dedup.SequenceGuard.Accept | crates/ms-core-service/src/dedup.rs:32-47 | answer and state of the guard |
| Dedup.SequenceGuard.StartSession | crates/ms-core-service/src/dedup.rs:22-25 | the new session, nothing accepted yet |
| Screen.PositionDrift | crates/ms-input-windows/src/inject.rs:53-61 | scaled, rounded and read back, a position moves by at most 1.5 / (extent - 1) |
| Screen.RoundExactly | crates/ms-input-windows/src/inject.rs:59-59 | rounding is to the nearest integer, halfway the one further from zero |
| Screen.DetectExactly | crates/ms-input-windows/src/screen.rs:48-66 | for every pixel of every screen of two or more each way: no edge exactly if two pixels or more inside on every side; otherwise which edge, sides before caps, and at which position |
| Screen.SideRedetected | crates/ms-input-windows/src/screen.rs:48-58 | an entry on Left is seen as Left, one on Right as Right exactly on screens wide enough |
| Screen.CapRedetected | crates/ms-input-windows/src/screen.rs:48-66 | an entry on Top or Bottom is seen as such exactly if it lands outside both side margins (and the bottom outside the top margin) |
| Screen.EntrySeen | crates/ms-input-windows/src/screen.rs:48-66 | every entry is seen, and at which edge and position, for all four edges, corners included |
| Screen.EntryDrift | crates/ms-input-core/src/state_machine.rs:245-259 | where the entered edge is seen, it is seen within the drift of the sent position |
| Screen.EntryResolvesBack | crates/ms-config/src/layout.rs:168-179 | an entry the drift inside the boundary resolves back to where it came from |
| Framing.StreamRoundTrip | crates/ms-protocol/src/framing.rs:24-68 | messages within the limit come back as encoded and then a clean end; with lengths a header can hold, or a codec in which no other body decodes to a message, only if all are; before the first that is not everything comes back, then the error naming its length modulo 2^32, or what that much of its body decodes to |
| Framing.Truncation | crates/ms-protocol/src/framing.rs:52-68 | any byte prefix yields the messages that arrived whole, silence if cut between frames or inside a header, an error inside a body |
| Framing.WholeFramesMaximal | crates/ms-protocol/src/framing.rs:24-30 | the messages counted as whole are as many as fit in the bytes |
| Framing.HeaderRoundTrip | crates/ms-protocol/src/framing.rs:27-61 | the length header reads back as the length modulo 2^32 |
| Framing.HeaderWrites | crates/ms-protocol/src/framing.rs:27-27 | the four bytes of the header, the least significant first |
| Framing.HeaderReads | crates/ms-protocol/src/framing.rs:61-61 | the number four bytes stand for |
| Framing.ReadExactly | crates/ms-protocol/src/framing.rs:52-68 | for any input: nothing of less than a header, an error above 16 MiB or when the body is short or does not decode, otherwise the message, and what is left |
| Framing.EncodeMessage | crates/ms-protocol/src/framing.rs:24-30 | header and body |
| Framing.ReadMessage | crates/ms-protocol/src/framing.rs:52-68 | what a reader finds at the head of its input and what it leaves |
| Framing.ReadLoop | crates/ms-core-service/src/session.rs:85-96 | hands on every message, in order, until the stream ends |
| Framing.WriteLoop | crates/ms-core-service/src/session.rs:101-108 | what gets through is the wire form of all messages, cut where the stream broke |
| Framing.PumpIsFifo | crates/ms-core-service/src/session.rs:81-108 | both pumps over a stream that breaks anywhere hand on a prefix of what was sent, and lose only what did not arrive whole |
| Handshake.Handshake | crates/ms-core-service/src/session.rs:25-57 | the verdict on what arrived, what was written for it, and in which order writes and reads were made |
| Handshake.JudgeExactly | crates/ms-core-service/src/session.rs:31-56 | an end agrees if and only if a Hello of its version came first and an accepting HelloAck next; otherwise which error |
| Handshake.ScriptExactly | crates/ms-core-service/src/session.rs:29-43 | what is written: the own Hello, and to a Hello an answer that accepts exactly the expected version |
| Handshake.DecimalReadsBack | crates/ms-core-service/src/session.rs:41-41 | the version in the reason reads back as the number |
| Handshake.HandshakeAgreement | crates/ms-core-service/src/session.rs:19-57 | in every interleaving without cuts: both agree on each other's Hello if each announces the version the other expects, both refuse if not |
| Handshake.AgreementMeansCompatible | crates/ms-core-service/src/session.rs:25-57 | with cuts anywhere, an end that agrees has the other's Hello, and both versions match |
| Handshake.NoDeadlock | crates/ms-core-service/src/session.rs:25-57 | while an end is unfinished some step makes progress |
| Handshake.StepsCount | crates/ms-core-service/src/session.rs:25-57 | every step changes nothing or leaves less to do |
| Handshake.EndsJudge | crates/ms-core-service/src/session.rs:25-57 | in every interleaving each end decides as the sequential procedure does on what it received |

## Left out

- Operating system hooks, input synthesis and permissions: foreign calls; of the injector only the rounding of a warp is kept.
- The hook thread reading pass-through while events wait in the queue: one event is handled atomically.
- TLS, certificates, pairing, keyring, discovery, configuration files, user interface: libraries and I/O.
- Duplicate sessions to one peer, mesh dialing, and the heartbeat watchdog firing while its read loop goes on: one session per pair with atomic loss.
- Heartbeat comparison, reconnect backoff, clipboard gate, key maps: short members with easy properties.
- The macOS edge detector and injector: the Windows ones are modelled.
- 32-bit overflow of screen coordinates and the cast of a warp to i32: screens are taken to be far smaller.
- Floating-point rounding, NaN and infinities: arithmetic is over reals.
- Serialization failure: the body codec is a parameter that encodes everything and decodes what it encodes.
- Framing.StreamRoundTrip: the converse is stated for strict codecs or bodies shorter than 2^32 bytes; other codecs may decode the front of a longer body to the very message it encodes.
- Journey.BusyRoundTrip: a third device that takes over an idle one of the two ends the trip; what then holds is said by the conservation theorems.
- Whether the platform reports a cursor set by the injector to the capture hook: a foreign matter; `WarpReturnsExactly` says what follows if it does.
- Screen.PositionDrift: positions are within 0 and 1, as the detector produces them, and extents at least 2.
