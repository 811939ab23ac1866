# The capsudo session stack, verified

capsudo runs a program for a client that holds a capability. Locally the
client's descriptors travel as they are; over any other byte channel they are
imitated: every delegated descriptor becomes a logical stream, multiplexed with
the control messages over one ordered channel, and held to a credit window. This
project models that transport, the session protocol above it and the two wire
formats below it, and proves what the program's comments and documentation
promise of them, for every run.

Where the code and its comments disagree, the model follows the code. Six such
places are listed under "What the comments promise and the code does not".

## How it is built

- `bytes.dfy`, `proto.dfy`, `wire.dfy`: integers, messages and mux frames as
  printers and parsers that undo each other, and the reading loops over a source
  that returns short reads. `figures.dfy`: what they agree on byte for byte, the
  limits in figures, and what the world outside may always do.
- `credit.dfy`: the arithmetic of the windows. It is shared by the objects and by
  the machine below.
- `endpoint.dfy`: one end of the mux as a state machine. A step is what happens
  between two points at which another task may run; the frames an end receives
  are part of the step's label, so a run of one end is a run against any peer.
  `endpoint_laws.dfy`, `unwindowed.dfy`: what one end keeps whatever its peer sends,
  and towards a peer that never said Hello.
- `flow.dfy`: the counters and maps of the mux as the objects that hold them,
  updated in place. Each method is proved to be one step of the machine.
- `system.dfy`, `system_laws.dfy`: two ends joined by their channel. Either end may
  be the dialer, so a statement about streams from the first end to the second is
  one about both directions (`ReachableBothWays`).
- `pipe.dfy`, `pipe_laws.dfy`: one stream as if nothing shared its channel.
  `refinement.dfy`: every step of a session is, for each stream, one step of that
  machine or none.
- `handoff.dfy`, `handoff_laws.dfy`, `spill.dfy`: which end has opened which
  descriptor when its data arrives, and why data is ever thrown away.
- `control.dfy`: the messages that share the channel with the streams, in order,
  and a client and a daemon that talk over them.
- `settle.dfy`, `rest.dfy`: a measure on a whole session that falls with every
  step the two programs take of themselves, and what they have done when none is
  left to take: the windows are back, the barriers have ended, and whatever was
  written has been delivered.
- `abandon.dfy`: what an abandoned sink does to the credit, against any peer.
- `theorems.dfy`: the main results, in the terms of the session.
  `counterexamples.dfy`, `deadlock.dfy`: three complete runs of conforming ends
  that show where a promise stops.
- `wakeups.dfy`: the three register-check-sleep loops at the grain of single
  loads, stores and notifications.
- `handshake.dfy`: the client's script, the daemon's reading of it, and the
  outcome. `unix.dfy`: the local transport with short reads and writes.

Fields and parameters called history, and `Frame.after`, record what the
statements speak about; no step looks at them.

Counting a frame and sending it to its queue are two steps, as are the three
actions of `abandon`, so the interleavings between them are covered.

## What the comments promise and the code does not

- An abandoned stream's credit is granted again beyond "what the pump wrote and
  has not granted, and what is still queued": every frame counted before the
  counter is read, and refused after, is granted by `abandon` and owed as well.
  The overcount is not one frame: `TwoFramesGrantedTwice` is a run with two of
  the largest. A run has an overcount exactly if it caught a frame so
  (`TwiceExactlyIfCaught`), and `CreditIsConserved` gives the exact equation and
  its bound, one queue limit.
- `close` releases "every sender waiting for credit" only if the map still holds
  it. A wakeup is missed exactly when another stream has taken the sleeper's id
  and the transport is closed (`NoLostWakeups`); such a sender sleeps for good
  (`LostForGood`), and there is such a run from every new stream
  (`DisplacedSenderIsLost`).
- Data can reach an end before it has opened a write-direction stream of its own,
  since its sink opens after the Fds frame is queued (`EarlyUseLosesData`). Data is
  refused on arrival exactly for an own stream not started yet, or for a pump that
  is gone (`DataIsRefusedExactly`). The first does not happen once the other end
  uses descriptors only after a later message of the owner
  (`NothingArrivesUnannounced`), as the daemon does, which goes on after `End`
  (`ConfiguredMayUse`).
- A session in which nothing moves is at rest, with every window back where it
  belongs, exactly if its two readers do not wait for each other
  (`SettledIsAtRest`). They never do if the streams of one direction were opened
  after the other end's Hello; senders that start before it, in both directions,
  can bring it about (`EarlySendersDeadlock`), although an empty queue takes a
  frame of any size.
- `abandon`'s grant is exact on every run for exactly the windows up to
  3,435,960,723 bytes (`AbandonIsExactUpTo`). Above that a peer that sends without
  regard to its window, as one does before Hello, can fill the counters beyond
  what a grant can carry. For a stream opened after Hello it is exact for every
  window, unless a frame was caught as above (`CreditIsConserved`).
- The local transport says it receives at most three descriptors with a message;
  `send` accepts any number. The room asked for is rounded up to whole words, so
  where a word is 8 bytes, as `unix.dfy` takes it, a fourth arrives too. The round
  trip holds exactly up to four (`SessionArrives`).

## Model

| member | source | states |
|---|---|---|
| Proto.HeaderRoundTrip | crates/capsudo-proto/src/lib.rs:149-168 | a header decodes to itself, except that a length over the limit is refused with that length |
| Proto.MessageRoundTrip | crates/capsudo-transport/src/mux.rs:1241-1255 | an encoded message decodes to itself exactly when its payload is within the limit, and to nothing otherwise, past the 4 GiB wrap of the length too |
| Proto.DecodedReencodes | crates/capsudo-transport/src/mux.rs:1241-1255 | a buffer that decodes is the encoding of what it decodes to, so no two buffers mean the same message |
| Proto.AccessorsInvertConstructors | crates/capsudo-proto/src/lib.rs:225-335 | every typed accessor gives back what its constructor was given |
| Credit.HelloIsTaken | crates/capsudo-transport/src/mux.rs:200-236 | for every window a transport can have, the other end takes its Hello as exactly that window, with any fields appended, and the advertised limit is not truncated |
| Credit.HelloMeans | crates/capsudo-transport/src/mux.rs:217-242 | what every Hello means by the fields it holds, in figures: the window of old, its own window, refusal or nothing |
| Credit.ClampIsTight | crates/capsudo-transport/src/mux.rs:71-73 | the clamp leaves a usable window, and one byte more would advertise a limit that the other end refuses |
| Credit.ConsumeConserves | crates/capsudo-transport/src/mux.rs:445-459 | consuming a frame neither makes nor loses credit, its cast never truncates, an empty queue leaves nothing ungranted, and the rest stays below a quarter window |
| Credit.Forgone | crates/capsudo-transport/src/mux.rs:280-289 | what one debt drops: nothing unless 64 other streams owe already or the sum passes a u32; other streams' debts stand, and the map does not grow past 64 |
| Wire.FdsRoundTrip | crates/capsudo-transport/src/mux.rs:1197-1223 | the descriptors of an Fds frame come back in order, five bytes each |
| Wire.FrameRoundTrip | crates/capsudo-transport/src/mux.rs:1257-1298 | a written frame is read back, what follows it untouched, exactly when its payload fits |
| Wire.ChannelRoundTrip | crates/capsudo-transport/src/mux.rs:1257-1298 | any list of frames is read back with a clean end, exactly when every one fits |
| Wire.CutChannel | crates/capsudo-transport/src/mux.rs:1273-1298 | a channel cut anywhere yields a prefix of the frames written, never another frame |
| Wire.ChannelCarriesFrames | crates/capsudo-transport/src/mux.rs:755-823 | whatever frames an end writes, the other reads and understands the same way, so a channel of frames stands for the channel of bytes |
| Wire.ByteSource.NextFrame | crates/capsudo-transport/src/mux.rs:1273-1298 | however the reads are split, one call reads exactly the next frame or reports the end of the channel |
| Wire.ByteSource.Drain | crates/capsudo-transport/src/mux.rs:755-760 | the reader's loop sees the frames in the channel in order, whatever the sizes of its reads |
| EndpointLaws.StepOk | crates/capsudo-transport/src/mux.rs:148-510 | every step of an end, whatever it receives, keeps its queues counted and bounded, its maps exact, its live streams counted and its barriers true |
| EndpointLaws.BoundedBacklog | crates/capsudo-transport/src/mux.rs:794-847 | against any peer: a live stream's counter is exactly what waits for its pump, never underflows when a frame is consumed and never passes the queue limit; at most 64 streams owe credit |
| EndpointLaws.QueuesAreBounded | crates/capsudo-transport/src/mux.rs:556-566 | against any peer: at most 64 frames wait for the writer and at most 64 items for the owner |
| EndpointLaws.MapsHoldTheNewest | crates/capsudo-transport/src/mux.rs:384-399 | against any peer: each map holds, for every id, the stream opened last under it, and exactly until that one is dropped or closed |
| EndpointLaws.LiveStreamsCounted | crates/capsudo-transport/src/mux.rs:495-508 | against any peer: the live count is the number of delegated streams with a pump running, and at most 8 |
| EndpointLaws.OvershootBounded | crates/capsudo-transport/src/mux.rs:345-365 | against any peer: a sender opened after the peer's Hello overshoots its credit by less than one frame |
| EndpointLaws.BarrierPromises | crates/capsudo-transport/src/mux.rs:305-332 | against any peer: when a message is queued and the flow is open, every byte written into a registered socket stream before the barrier began is in an earlier frame |
| Unwindowed.NothingGrantedBeforeHello | crates/capsudo-transport/src/mux.rs:345-360 | a peer that never said Hello is granted nothing and owed nothing, and no sender waits for its credit |
| Flows.Flow.constructor | crates/capsudo-transport/src/mux.rs:182-192 | a new flow has the clamped window and stands for a new machine |
| Flows.Flow.TakeHello | crates/capsudo-transport/src/mux.rs:217-242 | only the first sensible Hello counts, adds its window to what every registered stream has left, and notifies each |
| Flows.Flow.Open | crates/capsudo-transport/src/mux.rs:244-267 | a stream starts with the peer's window or nothing, and displaces whatever had its id |
| Flows.Flow.Grant | crates/capsudo-transport/src/mux.rs:269-277 | a grant reaches and wakes the registered stream, saturating, and no other |
| Flows.Flow.Owe | crates/capsudo-transport/src/mux.rs:280-289 | a debt is added, saturating, and the writer told of it, unless it is one stream too many |
| Flows.Flow.TakeOwed | crates/capsudo-transport/src/mux.rs:709-711 | the writer, told of them, takes all debts at once and leaves none |
| Flows.Flow.Close | crates/capsudo-transport/src/mux.rs:292-298 | closing marks the flow, notifies both waits of every registered stream once, and changes nothing else |
| Flows.Outbound.ReadAndDebit | crates/capsudo-transport/src/mux.rs:363-373 | reading counts what was taken and charges the frame with its header |
| Flows.Outbound.Queued | crates/capsudo-transport/src/mux.rs:376-381 | a queued frame is counted for the barrier, which is notified |
| Flows.Outbound.Drop | crates/capsudo-transport/src/mux.rs:384-399 | dropping unregisters this stream and never a newer one under its id, and notifies its barriers |
| Flows.Inbound.HasRoomFor | crates/capsudo-transport/src/mux.rs:835-847 | there is room in an empty queue, within the limit, or once the pump is gone |
| Flows.Inbound.Count | crates/capsudo-transport/src/mux.rs:803 | the frame is counted before it is sent |
| Flows.Inbound.Send | crates/capsudo-transport/src/mux.rs:804 | sending succeeds exactly while the pump holds its queue, and queues the frame last |
| Flows.StreamMap.Close | crates/capsudo-transport/src/mux.rs:813-818 | a close takes the stream out of the map and tells its pump after all its data |
| Flows.StreamSink.Open | crates/capsudo-transport/src/mux.rs:414-440 | a new sink is registered under its id in place of any other |
| Flows.StreamSink.Consumed | crates/capsudo-transport/src/mux.rs:445-459 | the counter falls by the frame's cost, the reader is notified, and a grant is due at a quarter window or when idle |
| Flows.StreamSink.LetGo | crates/capsudo-transport/src/mux.rs:465-468 | abandoning lets go of the queue and what is in it, and leaves the counter |
| Flows.StreamSink.LoadHeld | crates/capsudo-transport/src/mux.rs:469-470 | then it reads the counter, whatever the reader has counted since, and the grant saturates |
| Flows.StreamSink.Retire | crates/capsudo-transport/src/mux.rs:471-473 | then it is dropped, and the grant goes to a windowed peer |
| Flows.StreamSink.Abandon | crates/capsudo-transport/src/mux.rs:465-474 | the three in turn, when nothing comes between them |
| Flows.StreamSink.Drop | crates/capsudo-transport/src/mux.rs:477-491 | dropping unregisters this sink and never a newer one under its id, and tells a waiting reader |
| Flows.StreamIds.Alloc | crates/capsudo-transport/src/mux.rs:593-597 | ids count up by two in the side's parity and wrap |
| Flows.StreamIds.AllocAll | crates/capsudo-transport/src/mux.rs:636-639 | one send plans consecutive ids for its descriptors, in order |
| Flows.WriteAll | crates/capsudo-transport/src/mux.rs:1126-1139 | whatever pieces the descriptor takes, the whole frame is written in order, or a prefix of it and the pump stops |
| Abandoning.TwiceExactlyIfCaught | crates/capsudo-transport/src/mux.rs:799-811 | against any peer: credit is granted twice on a run exactly if a frame counted before the abandoning load was refused after it |
| Abandoning.ExcessRises | crates/capsudo-transport/src/mux.rs:803-811 | against any peer: a step grants twice exactly the cost of such a frame, and no other step does |
| Abandoning.AbandonLosesCredit | crates/capsudo-transport/src/mux.rs:465-474 | for every larger window, a run in which the abandoning grant is too small by as much as the counters allow |
| Abandoning.AbandonIsExactUpTo | crates/capsudo-transport/src/mux.rs:465-474 | the abandoning grant is exact on every run, against every peer, for exactly the windows up to a given size |
| Session.ReachableBothWays | crates/capsudo-transport/src/mux.rs:576-597 | which end is the dialer makes no difference: every reachable session is reachable with its ends exchanged |
| SessionLaws.NextKeepsSound | crates/capsudo-transport/src/mux.rs:694-823 | every step of two conforming ends keeps Hello first and once, and every frame one the other end takes |
| PipeLaws.PipeStepKeeps | crates/capsudo-transport/src/mux.rs:148-474 | every step of a single stream keeps its credit ledger, the order of its bytes, the place of its close and the marks of the barriers |
| PipeLaws.NoLateLossKept | crates/capsudo-transport/src/mux.rs:465-474 | a stream opened after Hello loses no credit when it is abandoned, whatever the window, unless a frame was granted twice |
| PipeLaws.ArrivalsKept | crates/capsudo-transport/src/mux.rs:799-818 | credit is dropped only with data, and a close that was queued is on its way or has been told to the pump, unless it came before the sink was open |
| PipeLaws.LateFramesFindRoom | crates/capsudo-transport/src/mux.rs:194-202 | a frame of a stream opened after Hello always fits its live queue |
| Refinement.SenderRefines | crates/capsudo-transport/src/mux.rs:1060-1101 | every step of the sending end is one step of a stream's own pipe, or none, whatever the other streams do |
| Refinement.ReceiverRefines | crates/capsudo-transport/src/mux.rs:745-823 | every step of the receiving end is one step of a stream's own pipe, or none |
| Theorems.RunsRefinePipes | crates/capsudo-transport/src/mux.rs:26-31 | every run of a session is, for each stream of either direction, a run of an independent pipe |
| Theorems.CreditIsConserved | crates/capsudo-transport/src/mux.rs:217-289 | on every run the credit of a stream, of either direction, wherever it is, adds up to nothing before Hello and to exactly the window after, but for what was dropped and for the overcount of an abandoned sink, which is bounded; when the abandoning grant loses nothing |
| Theorems.StreamsArePipes | crates/capsudo-transport/src/mux.rs:904-1157 | on every run what was received, what is on its way and what the pump holds is what was read, in order, unless data was thrown away |
| Theorems.ClosesComeLast | crates/capsudo-transport/src/mux.rs:1144-1151 | a pump acts on a close only after it has written the whole source |
| Theorems.ControlFollowsData | crates/capsudo-transport/src/mux.rs:300-332 | when a control message of either end is acted on, the other has handled all the bytes its barrier waited for |
| Theorems.NothingArrivesUnannounced | crates/capsudo-transport/src/mux.rs:599-651 | data for a stream never opened arrives, at either end, only for one's own streams, and never if descriptors are used in order |
| Theorems.DataIsRefusedExactly | crates/capsudo-transport/src/mux.rs:786-811 | data is thrown away on arrival exactly for an own stream not started yet, or for a pump that is gone |
| Theorems.StreamsAreDelivered | crates/capsudo-core/src/daemon.rs:112-144 | a stream whose holder stays is a pipe from end to end while the reader runs, if its sender allocated it or descriptors are used in order |
| Theorems.SocketsAreThePeers | crates/capsudo-transport/src/mux.rs:852-893 | barriers wait for the streams the other end delegated, whose sockets the mux made, and never for a caller's own descriptors |
| Theorems.NamesAreFree | crates/capsudo-transport/src/mux.rs:593-597 | the next stream to open, on either end, has an id that no stream has there |
| Theorems.NoHeadOfLineBlocking | crates/capsudo-transport/src/mux.rs:26-31 | the reader never waits for room on behalf of a stream opened after Hello, unless that stream's own pump is about to make way |
| Theorems.NoEndStopsTheOther | crates/capsudo-transport/src/mux.rs:755-823 | a conforming end's frames never stop the other's reader, but for a ninth live stream |
| Handoff.IdsAreDistinct | crates/capsudo-transport/src/mux.rs:576-597 | the two sides' ids never meet, each side's first 2^31 are distinct, and then they repeat |
| HandoffLaws.NextHands | crates/capsudo-transport/src/mux.rs:599-651 | every step keeps descriptors handed over in order: named in turn, opened before their data, released after their pumps have started |
| HandoffLaws.TrafficFits | crates/capsudo-transport/src/mux.rs:628-651 | an end has data to send only on streams the other has been told of or has itself started |
| Spills.SpilledByStep | crates/capsudo-transport/src/mux.rs:799-811 | data is thrown away only for a stream never opened, for an abandoned sink, or by a reader that stops |
| Settling.MovementEnds | crates/capsudo-transport/src/mux.rs:694-847 | however the tasks are scheduled, the two programs, left to themselves, can take no more steps of any kind than a bound read off the state |
| AtRestLaws.SettledIsAtRest | crates/capsudo-transport/src/mux.rs:835-847 | when nothing can move, both queues, channels, readers and sinks are empty exactly if the readers do not wait for each other, and then each waits on behalf of a stream opened before Hello |
| AtRestLaws.BarriersEnd | crates/capsudo-transport/src/mux.rs:305-332 | in every settled session, even one whose readers wait for each other, a message not yet queued waits for bytes no frame holds, for a full queue, or for ids |
| AtRestLaws.BarriersWaitForCredit | crates/capsudo-transport/src/mux.rs:305-332 | at rest a barrier waits only for a sender that is out of credit |
| AtRestLaws.EverythingIsDelivered | crates/capsudo-transport/src/mux.rs:1060-1157 | at rest every byte written into a stream of either end whose holder stays has been read and written out at the other end, and every end of file has arrived |
| AtRestLaws.StoppedEndsWindDown | crates/capsudo-transport/src/mux.rs:292-298 | when its reader has stopped and nothing moves, an end's pumps have ended or wait for their holders, and no message waits at a barrier |
| AtRestLaws.LateStreamsComeToRest | crates/capsudo-transport/src/mux.rs:835-847 | so they are empty if either end opened its streams after the other's Hello |
| AtRestLaws.RestRestoresEveryWindow | crates/capsudo-transport/src/mux.rs:442-459 | and then every sender of either end has its whole window to spend, but for credit the receiver dropped; exactly when one may send |
| Deadlock.EarlySendersDeadlock | crates/capsudo-transport/src/mux.rs:831-847 | a run in which both ends send before Hello, after which nothing can move and both senders wait for credit |
| Counterexamples.EarlyUseLosesData | crates/capsudo-transport/src/mux.rs:599-651 | a run in which a descriptor is used at once and its data is dropped by an end that has not opened the stream |
| Counterexamples.TwoFramesGrantedTwice | crates/capsudo-transport/src/mux.rs:461-474 | a run in which an abandoned sink grants two whole frames twice |
| Wakeups.NoLostWakeups | crates/capsudo-transport/src/mux.rs:292-360 | under every interleaving a sender or a barrier misses its wakeup exactly when its id was used again and the transport was closed, with nothing else on its way to wake it |
| Wakeups.LooksDecide | crates/capsudo-transport/src/mux.rs:314-360 | a waiter that looks at its values undisturbed sleeps exactly if it may not go on |
| Wakeups.GrantersTell | crates/capsudo-transport/src/mux.rs:217-277 | whoever has credit to announce can take the step that wakes the sender |
| Wakeups.PumpsTell | crates/capsudo-transport/src/mux.rs:292-399 | so can whoever has framed bytes, dropped the stream or closed the transport |
| Wakeups.DisplacedSenderIsLost | crates/capsudo-transport/src/mux.rs:292-298 | from every stream opened with credit, a run in which the sender spends it, loses its id and sleeps on after the transport is closed |
| Wakeups.LostForGood | crates/capsudo-transport/src/mux.rs:292-298 | and no run of any tasks ever wakes it, or a barrier that waits for it |
| Wakeups.ReaderIsWoken | crates/capsudo-transport/src/mux.rs:835-847 | a reader that sleeps although there is room, or although the pump is gone, is about to be told |
| ControlLaws.ControlIsHeardInOrder | crates/capsudo-transport/src/mux.rs:616-670 | on every run what one owner has received is a first part of what the other's have sent, in order, and the rest is on its way while the reader runs |
| ControlLaws.SaidAsRequested | crates/capsudo-transport/src/mux.rs:616-642 | on every run what is sent is what the owners asked for: messages as they are, and the side's next ids for each list of descriptors |
| ControlLaws.ScriptIsSaid | crates/capsudo-transport/src/mux.rs:652-665 | the requests of a client come out of `recv` as its script, with the three descriptors it handed over |
| ControlLaws.ServedOverTheMux | crates/capsudo-core/src/client.rs:153-191 | a client that asked its transport for its script, among any streams, has exactly the session it asked for at the daemon, which may use its three descriptors |
| ControlLaws.AllIsHeardAtRest | crates/capsudo-transport/src/mux.rs:616-670 | when nothing moves any more, each owner has received all that the other's sent |
| ControlLaws.ConfiguredMayUse | crates/capsudo-core/src/daemon.rs:102-163 | a daemon that has its configuration has received the owner's message after which the descriptors may be used |
| Handshake.SendConfiguration | crates/capsudo-core/src/client.rs:156-191 | the client sends exactly its script, in order |
| Handshake.ScriptInOrder | crates/capsudo-core/src/client.rs:153-191 | what the script holds, place by place, and that only the descriptors' message carries any |
| Handshake.SecretIsSaid | crates/capsudo-core/src/client.rs:162-164 | the secret is sent once, as it was given, before anything else, and only if there is one |
| Handshake.ReceiveConfiguration | crates/capsudo-core/src/daemon.rs:102-163 | the daemon's loop computes the fold over what it receives, errors included |
| Handshake.ConfigurationMeans | crates/capsudo-core/src/daemon.rs:102-163 | a client is served exactly when all before its End is well formed and three descriptors came, and gets what the whole list says after the fixed part |
| Handshake.FirstFaultDecides | crates/capsudo-core/src/daemon.rs:113-153 | why a client is refused: the first message that is not well formed, then a missing End, then missing descriptors |
| Handshake.LastOnesStand | crates/capsudo-core/src/daemon.rs:117-141 | of several descriptors, session types or sizes the last count, and of arguments and entries all do |
| Handshake.Defaults | crates/capsudo-core/src/daemon.rs:20-153 | what a client that sends only descriptors gets: a shell, no terminal, 24 by 80 |
| Handshake.AttenuationHolds | crates/capsudo-core/src/daemon.rs:29-42 | whatever a client sends, the command line under -f and the environment under -E are the daemon's own, and the fixed parts always come first |
| Handshake.ClientIsServed | crates/capsudo-core/src/client.rs:153-191 | a client's script configures exactly the session it asked for, within policy |
| Handshake.AwaitOutcome | crates/capsudo-core/src/client.rs:117-152 | the first exit or challenge decides, and the first error before it says why |
| Handshake.ChallengeIsReported | crates/capsudo-core/src/client.rs:132-135 | a challenge reaches the client in the daemon's words or as the default prompt |
| Handshake.ExitIsReported | crates/capsudo-core/src/client.rs:125-131 | an exit without an error is the program's own, and one without a number an error |
| Handshake.FirstErrorIsReported | crates/capsudo-core/src/client.rs:136-147 | of the errors before an exit the first is the reason |
| Handshake.OutcomeIsReported | crates/capsudo-core/src/daemon.rs:84-93 | the daemon's words for a refusal reach the client with exit code 1 |
| Handshake.BuildEnvironment | crates/capsudo-core/src/daemon.rs:52-61 | the program's environment holds, for each key, the last entry given |
| Handshake.EntrySets | crates/capsudo-core/src/daemon.rs:56-60 | an entry sets the key before its first `=` to all that follows it, in place of any earlier value, and an entry without `=` sets nothing |
| Handshake.ClientEntriesWin | crates/capsudo-core/src/daemon.rs:34-36 | the daemon's entries come first, so the client's replace them where policy lets them in |
| UnixSockets.Socket.Send | crates/capsudo-transport/src/unix.rs:112-149 | whatever the sizes of its writes, the message is whole in the socket with its descriptors on its first byte |
| UnixSockets.Socket.RecvHeader | crates/capsudo-transport/src/unix.rs:62-107 | whatever the sizes of its reads, exactly the header is read with the descriptors on it, and a clean end is told from a cut one |
| UnixSockets.Socket.Recv | crates/capsudo-transport/src/unix.rs:151-172 | one call receives exactly the next message |
| UnixSockets.MessageArrives | crates/capsudo-transport/src/unix.rs:112-172 | a message arrives as sent with exactly its own descriptors, exactly when it is within the limits |
| UnixSockets.ThreeArrive | crates/capsudo-transport/src/unix.rs:25-27 | a session's three descriptors arrive with their message, so would a fourth, and a fifth does not |
| UnixSockets.SessionArrives | crates/capsudo-transport/src/unix.rs:112-172 | so does any list of messages, followed by a clean end |
| UnixSockets.CutSession | crates/capsudo-transport/src/unix.rs:85-90 | a socket cut anywhere yields the messages before the cut, and a clean end only between two messages |
| Figures.LittleEndian | crates/capsudo-proto/src/lib.rs:23-28 | integers are little-endian and two's complement, byte by byte |
| Figures.TextIsUtf8 | crates/capsudo-proto/src/lib.rs:277-284 | text is exactly what sequences of code points encode to |
| Figures.KindsInFigures | crates/capsudo-proto/src/lib.rs:46-131 | every message's bytes on the wire |
| Figures.HeadersTaken | crates/capsudo-proto/src/lib.rs:157-168 | a header is taken exactly if it names one of the ten kinds and at most 16 MiB |
| Figures.AccessorsRefuse | crates/capsudo-proto/src/lib.rs:265-335 | what each typed accessor refuses, and with which error |
| Figures.FramesInFigures | crates/capsudo-transport/src/mux.rs:52-57 | every frame's bytes on the wire |
| Figures.HelloInFigures | crates/capsudo-transport/src/mux.rs:205-210 | the first 21 bytes of every channel with the default window |
| Figures.OthersIgnored | crates/capsudo-transport/src/mux.rs:763-825 | which frames the reader leaves alone |
| Figures.ChannelEnds | crates/capsudo-transport/src/mux.rs:1273-1298 | when a channel ends cleanly, breaks, or yields a frame |
| Figures.DescriptorsInFigures | crates/capsudo-transport/src/mux.rs:1197-1223 | five bytes a descriptor, the other way round at the other end, and what is skipped |
| Figures.EightStreams | crates/capsudo-transport/src/mux.rs:771-774 | an end takes descriptors up to eight running streams |
| Figures.WhatStopsTheReader | crates/capsudo-transport/src/mux.rs:755-830 | exactly which frames stop a reader, which then closes the flow |
| Figures.RoomInFigures | crates/capsudo-transport/src/mux.rs:794-847 | which data frames are taken, and when the reader waits for room |
| Figures.CreditInFigures | crates/capsudo-transport/src/mux.rs:59-91 | the widest window, the saturating sums and the 64 streams that may owe |
| Figures.WorldIsFree | crates/capsudo-transport/src/mux.rs:904-1157 | a holder may always write or close, a transport be dropped, a channel go away, and an idle reader takes any frame |
| Figures.OwnerMayAsk | crates/capsudo-transport/src/mux.rs:305-313 | an owner may always ask, and its barrier waits for exactly the registered sockets of the mux |

## Left out

- Descriptors, sockets and processes: a stream's source is the bytes offered to
  it so far and whether it has ended; a sink's descriptor takes its bytes in
  pieces. Terminals, signals, pty sessions, process spawning and SELinux contexts
  are not modelled.
- I/O errors other than a hangup, and a writer that dies: a channel only ends. A
  pump that stops at a read error, without a close, is not modelled.
- Scheduling: a step is atomic, any enabled step may come next, and fairness is
  not assumed. `Settling.MovementEnds` needs none. A descriptor whose holder has
  stopped reading is a schedule in which its pump does not write; such a session
  is not at rest.
- Memory orderings: the loads and stores of `wakeups.dfy` are sequentially
  consistent, and what runs under the stream map's lock is one step there.
- One delegated stream is opened in one step, and its place among the live
  streams is freed when its last pump stops, not when the pump's task is dropped.
- Two ends name a stream by its id, which holds for the 2^31 streams a side can
  delegate before its ids repeat (`Theorems.NamesAreFree`). One end against any
  peer, in `endpoint_laws.dfy`, and `wakeups.dfy` cover reuse.
- Flows.Flow.TakeHello: does not model the overflow of an i64 when a window is
  added to what a stream was charged, which takes 2^63 bytes sent before Hello.
- AtRestLaws.RestRestoresEveryWindow: asks that the two readers do not wait for
  each other, because it fails without (Deadlock.EarlySendersDeadlock).
- Theorems.StreamsAreDelivered: asks, for a stream that its receiver allocated,
  that descriptors are used in order, because it fails without
  (Counterexamples.EarlyUseLosesData).
- `sent` is counted for every stream. The program counts it only where a barrier
  looks, for the sockets it made itself.
- The counter of a live place and the pending-descriptor lists are values in the
  machine; `flow.dfy` has the objects whose updates carry the credit.
- Closing the transport and stopping its reader are separate steps of any end.
- The TCP stand-in transport, option parsing, password checks and accept loops.
- Exit status mapping, and the retry with a secret in `run_session`.
