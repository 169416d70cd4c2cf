# MiniTCP, verified in Dafny

A model of the user-space TCP stack's connection engine (`src/tcp.rs`), of its
Internet checksum and packet formats (`src/ip.rs`, `src/tcp.rs`, the decoding in
`src/stack.rs`), and proofs about them. `dafny verify dfyconfig.toml` checks
everything.

## How it is built

* `Connection.dfy` gives every function of the engine as a function on a value
  `Conn`, a snapshot of the connection record. Sequence numbers are 32-bit and
  wrap; the comparisons are the plain ones of the source. Beside the record sits
  a `History` that nothing depends on: segments sent, bytes accepted, cut into
  segments, gone from the queue, handed to the application, FINs queued and taken;
  a queued segment remembers when it was sent.
* `TcpConnection.dfy` is the same engine in place: a class with the source's
  fields, whose methods (with the source's loops) are proved to have exactly the
  effect of those functions.
* `TwoEndpoints.dfy` joins two endpoints. The link is the log of everything the
  peer ever sent: any segment may arrive at any time, any number of times, or
  never. Each step may read any clock value. An endpoint is listening, alive or
  reaped; a segment for an endpoint that is gone is answered with an RST.
* `Invariants.dfy`, `Pairs.dfy`, `Sender.dfy`, `Receiver.dfy`, `Steps.dfy` hold
  the invariant and its preservation by every operation. It compares sequence
  numbers by their distance from the initial one, so it assumes only that one
  direction uses fewer than 2^32 sequence numbers in all (`Fits`), not that the
  counters do not wrap.
* `Safety.dfy` draws the consequences for every run. `NoLoss.dfy`, `Ahead.dfy`,
  `Recovery.dfy` add what holds when the counters do not wrap (`NoWrap`), which
  the plain comparisons need. `Copies.dfy` counts how often a segment is sent.
* `Scripts.dfy` speaks of how a run may go on: a script names the events and the
  clock readings. A result that says "the run can go on so that" gives a script
  whose clock starts at any given reading and only moves forward; a result that
  says "in every run" holds for any clock readings at all. `Progress.dfy` delivers
  accepted bytes with new segments alone, `Exhausted.dfy` shows when that is
  impossible, and `Arrival.dfy` puts the two together.
* `FlowControl.dfy` follows what a receiver has promised and what a sender makes
  of it, each direction on its own; `Logs.dfy` says what a step adds to the link.
  `FlowRuns.dfy` gives the condition under which the receive caps hold in every
  run, `FifoRuns.dfy` shows that a link that does not reorder meets it,
  `Overflow.dfy` that the condition is exact, and `OverflowRuns.dfy` two short runs
  in which it fails and a cap is broken.
* `Transitions.dfy` gives the next state for every state, segment, timer and call
  as a table, and proves the engine to follow it; `Answers.dfy` says exactly which
  segments are answered and with what, and follows the FIN to its acknowledgement
  and back. `Adverts.dfy` relates, in every run, each window on the link to the
  room behind it and each window in use to the link; `Shapes.dfy` lists the forms
  a segment can have.
* `Timers.dfy`, `Window.dfy`, and most of `StateMachine.dfy` hold for one endpoint
  against arbitrary segments. `Schedule.dfy` follows such an endpoint through its
  life with a record, kept outside the engine, of when the persist timer was armed
  and when each segment went out, and proves both schedules against it.
  `Reassembly.dfy` and `Slices.dfy` look at the receiver alone.
* `Checksum.dfy` and `Wire.dfy` are the byte level. They justify speaking of
  whole segments above: what is sent is what arrives, and a damaged packet is dropped.

The names that start with `Do` are methods; without the prefix is the function
each one is proved against.

## What the source does that one might not expect

* In-order data is taken without looking at the receive cap
  (src/tcp.rs:437-440), although the comment at src/tcp.rs:246-249 speaks of the
  cap as a bound. `CapHonouredIff` says exactly when a single receiver stays
  within its cap after one segment.
* `process_ack` takes the window also from an acknowledgement that is older than
  `snd_una` (src/tcp.rs:366-370). The sender's limit is then `snd_una` plus a window
  that was meant to count from an earlier place. `LateAckOverflows` is a run of ten
  steps in which one such acknowledgement makes a receiver exceed its cap.
  `AckIsSafeIff` gives the exact condition, which a caller could check before the
  acknowledgement is processed: the new limit is within the furthest right edge the
  peer has advertised. While it is met, `BuffersNeverOverflow` shows that no receiver
  exceeds its cap, however the link drops, duplicates and reorders.
* The receive cap can be lowered after a larger window was advertised:
  `accept` applies the listener's buffer size to a connection whose SYN,ACK has
  already promised 65535 bytes (src/stack.rs:279-281). `LoweredCapOverflows` is a
  run in which the new cap is exceeded. The caps that are safe to set are those
  that cover the largest right edge already advertised (`Covers`): with them
  `BuffersNeverOverflow` holds, and any other cap `UncoveredCapOverflows` shows how
  to exceed, if need be with a late acknowledgement that still carries the promise.
* A segment is sent seven times at most, and the next expiry closes the connection
  (src/tcp.rs:803-811). `ExhaustedNeverArrives` shows that once the seventh copy is
  lost no further byte of that side arrives; `CanArriveIff` says exactly when all
  accepted bytes still can.
* `process_ack` does not compare the acknowledgement with `snd_nxt`
  (src/tcp.rs:366). `AcksNeverRunAhead` shows that it does not need to when the
  peer is this same engine.
* A repeated FIN is not acknowledged again in CLOSE_WAIT, CLOSING or LAST_ACK
  (src/tcp.rs:721-737). `AnsweredIff` says for every state and segment whether it is
  answered; `DuplicateAnsweredIff` gives the exact states in which a duplicate is.
* The state diagram in docs/state_machine.md has one transition per event; the
  code can take two with one segment: SYN_RCVD to CLOSE_WAIT when the last
  acknowledgement of the handshake carries a FIN (src/tcp.rs:684-689), and
  ESTABLISHED to LAST_ACK when a FIN meets a deferred close (src/tcp.rs:694-698).
  `FollowsDiagram` allows those two and single documented transitions. Two more
  ways to CLOSED are not in the document's table, which lists RST only: giving up
  after the last retry (src/tcp.rs:803-811), from any state with something queued,
  and `close` in SYN_SENT (src/tcp.rs:969-971).
* `send` goes on accepting bytes after the FIN is queued (src/tcp.rs:928-937); they
  stay in the backlog and are never sent. `NothingAfterFin` says so.

## Model

| member | source | states |
|---|---|---|
| TcpEngine.TcpConnection.constructor | src/tcp.rs:188-212 | A new record with the given initial sequence number and state is the model's fresh connection |
| TcpEngine.TcpConnection.ComputeBufferedBytes | src/tcp.rs:250-252 | The loop over the out-of-order buffer adds up to the in-order bytes plus every buffered payload, in whatever order entries are visited |
| TcpEngine.TcpConnection.DoSendSegment | src/tcp.rs:263-274 | Exactly one segment is emitted, with the current acknowledgement number and window, and nothing else changes |
| TcpEngine.Consumed | src/tcp.rs:330-336 | Counting with wrapping 32-bit additions gives the segment's true length modulo 2^32 |
| TcpEngine.EndOf | src/tcp.rs:346-352 | The wrapping computation of a queued segment's end is its start plus everything it occupies |
| TcpEngine.TcpConnection.DoQueueAndSend | src/tcp.rs:317-338 | Emits, queues with a fresh timer and advances snd_nxt |
| TcpEngine.TcpConnection.DoRemoveAcked | src/tcp.rs:344-360 | The pop loop has the effect of RemoveAcked |
| TcpEngine.TcpConnection.DoProcessAck | src/tcp.rs:362-375 | Has the effect of ProcessAck on the whole record |
| TcpEngine.TcpConnection.DoFlushLoop | src/tcp.rs:387-400 | The send loop has the effect of FlushLoop and terminates |
| TcpEngine.TcpConnection.DoFlushSend | src/tcp.rs:377-419 | Has the effect of FlushSend on the whole record |
| TcpEngine.TcpConnection.DoSplice | src/tcp.rs:442-447 | The splice loop has the effect of Splice, terminates, and reports whether anything was spliced |
| TcpEngine.TcpConnection.DoReceive | src/tcp.rs:425-472 | Has the effect of Receive and returns true exactly when the peer's FIN was taken in sequence |
| TcpEngine.TcpConnection.DoProcessSegment | src/tcp.rs:626-755 | One segment in any of the eleven states has the effect of ProcessSegment |
| TcpEngine.TcpConnection.DoTick | src/tcp.rs:763-839 | Has the effect of Tick: TIME_WAIT expiry, persist probe, retransmission or giving up, flush |
| TcpEngine.TcpConnection.DoSend | src/tcp.rs:928-937 | Accepts what the backlog cap allows, flushes, and returns the number accepted |
| TcpEngine.TcpConnection.DoRecv | src/tcp.rs:943-953 | Copies the oldest in-order bytes into the caller's buffer, leaves the rest of it alone, and removes exactly those bytes |
| Sender.FlushKeeps | src/tcp.rs:377-419 | flush_send keeps an endpoint consistent with its peer: stream, queue, log and acknowledgements |
| Sender.ProcessAckKeeps | src/tcp.rs:362-375 | An acknowledgement of the peer keeps the pair consistent, wrapped counters included |
| Sender.AckWithinReach | src/tcp.rs:366-369 | An acknowledgement in flight lies between the SYN and what its sender has received, and never beyond snd_nxt |
| Receiver.AbsorbKeeps | src/tcp.rs:436-466 | Any segment or probe of the peer, in any order, leaves the delivered bytes a prefix of the peer's stream, cut at a segment boundary, with the FIN taken only at its end |
| Receiver.ReceiveKeeps | src/tcp.rs:425-472 | The same for the pair, with the acknowledgement that is sent |
| Steps.SegmentKeeps | src/tcp.rs:626-755 | Every arm of the state machine keeps the pair invariant |
| Steps.SegmentLabel | src/tcp.rs:626-755 | Every arm keeps the state label in agreement with the FINs sent and taken |
| Steps.TickKeeps | src/tcp.rs:763-839 | tick keeps the pair invariant, probe and retransmission included |
| TwoEndpoints.RunInv | src/tcp.rs:557-842 | The invariant holds at the end of every run of two endpoints over a link that drops, duplicates and reorders |
| Safety.EndToEndSafety | src/tcp.rs:317-472 | In every run, what each application has read followed by what it can read next is a prefix of what the other side's send accepted, even across sequence wrap-around |
| Safety.AcksNeverRunAhead | src/tcp.rs:362-375 | In every run snd_una, the peer's rcv_nxt and snd_nxt are in this order and every acknowledgement in flight is below |
| Safety.ProbeNeverDelivered | src/tcp.rs:776-796 | In every run, delivering any persist probe to the peer in any state changes nothing the application can see; should the dummy byte be buffered, which takes a wrapped counter, its key lies behind rcv_nxt |
| Safety.WireIsHonest | src/tcp.rs:317-338 | In every run each data segment on the link carries the accepted bytes at its own offset, there is at most one FIN, and it sits right after the last byte |
| Safety.SenderConserves | src/tcp.rs:317-360 | In every run the bytes that have left the queue, the queued and the waiting ones in this order are all bytes accepted, and the queue is contiguous, of non-empty entries, and ends at snd_nxt |
| Safety.LabelsTruthful | src/tcp.rs:692-747 | In every run the state says exactly which FINs were queued and taken, neither more than once, and a deferred close has a backlog |
| Safety.FinMeansAllBytes | src/tcp.rs:448-452 | In every run a taken FIN means that every byte sent before it has been taken |
| Safety.TeardownAgreement | src/tcp.rs:700-737 | In every run, leaving FIN_WAIT_1, CLOSING or LAST_ACK on an acknowledgement means that the peer has taken our FIN and all bytes before it |
| NoLoss.RemoveAckedExact | src/tcp.rs:344-360 | Without wrap, remove_acked pops exactly the entries acknowledged to the end, and keeps their bytes in order |
| NoLoss.RunTight | src/tcp.rs:362-369 | In every run without wrap snd_una lies in the front entry of the queue, an empty queue means everything is acknowledged, and FIN_WAIT_2 and TIME_WAIT have nothing outstanding |
| Ahead.RunAhead | src/tcp.rs:442-462 | In every run without wrap, everything in the out-of-order buffer lies ahead of rcv_nxt |
| Recovery.NoByteLost | src/tcp.rs:344-375 | In every run without wrap, bytes dropped from the queue have reached the peer and every other accepted byte is still queued or waiting |
| Recovery.FinWait2MeansReceived | src/tcp.rs:700-727 | In every run without wrap, FIN_WAIT_2 and TIME_WAIT mean an empty queue and a peer that has taken every byte and the FIN |
| Recovery.NoSilentStall | src/tcp.rs:801-834 | In every run without wrap, after a tick a backlog has a non-empty retransmission queue or an armed persist timer |
| Recovery.RetransmissionRecovers | src/tcp.rs:801-831 | In every run without wrap and in either direction, when the timer of a front data segment with retries left runs out, tick puts a copy on the link; if that copy reaches a receiving peer and the answer comes back, the segment leaves the queue and snd_una moves past it |
| Recovery.DataIsAcked | src/tcp.rs:434-470 | Data arriving in ESTABLISHED, FIN_WAIT_1 or FIN_WAIT_2, new or old, is answered at once with the receiver's position |
| Arrival.EverythingCanArrive | src/tcp.rs:776-839 | From every state of every run without wrap in which both sides are ESTABLISHED with non-zero receive caps, neither waits for a segment whose retries are spent and one at least may retry: even if all that was sent so far is lost, the run can go on with new segments alone and a clock that only moves forward, from any reading, so that each application can read every byte the other side's send accepted |
| Exhausted.ExhaustedNeverArrives | src/tcp.rs:801-812 | Conversely, in every run without wrap: if the front segment has been sent seven times and the peer still waits for it, then once all that was sent is lost no script whatever, with any clock, delivers another byte of that side |
| Arrival.CanArriveIff | src/tcp.rs:801-831 | With both sides ESTABLISHED and one of them able to retry: a script of new segments on a forward clock that delivers everything accepted exists if and only if no side has spent the retries of a segment the other still waits for |
| FlowControl.DisjointSegmentsFit | src/tcp.rs:246-252 | Whole segments of one stream are disjoint, so buffered ones fit between the delivered bytes and the end of what was sent |
| FlowControl.CapHonouredIff | src/tcp.rs:436-462 | A receiver within its cap stays within it exactly when in-order data fits; out-of-order data always does |
| FlowControl.WindowIsLargest | src/tcp.rs:254-261 | In-order data of 1 to 65535 bytes fits the cap if and only if it is within the advertised window: the window is all the room there is |
| Adverts.AcksOfferAll | src/tcp.rs:263-274 | In every run each acknowledgement, when it is sent, puts the right edge where all bytes handed out plus the cap end, less what is buffered out of order, as far as 16 bits reach |
| Adverts.WindowsAreQuoted | src/tcp.rs:370 | In every run, from the moment the peer's sequence number is known, snd_wnd is the window of a segment the peer has sent, and before that 65535 |
| Adverts.DefaultCaps | src/tcp.rs:22-23 | A new connection of either kind takes 65536 bytes in order within its cap, and send accepts 1048576 bytes and not one more |
| FlowRuns.BuffersNeverOverflow | src/tcp.rs:250-261 | On a link that drops, duplicates and reorders anything, with caps that may change and no wrap, for either direction on its own: if no acknowledgement puts the sender's limit beyond the furthest right edge the receiver has advertised, and every new cap of the receiver covers that edge and what it holds, the receiver never holds more than its cap and the sender never passes its right edge |
| FlowControl.AnyCapAtFirst | src/stack.rs:309-316 | Before the peer's sequence number is known nothing has been promised, so connect may set any receive cap |
| FlowControl.LargerCapCovers | src/stack.rs:544-552 | While promises are kept, raising the receive cap always meets the condition |
| FifoRuns.OrderedNeverOverflows | src/tcp.rs:250-261 | On a link that drops but does not reorder or repeat, every acknowledgement is current, so the caps hold |
| Overflow.AckIsSafeIff | src/tcp.rs:362-370 | The condition on acknowledgements is exact: after a run that met it, with both sides ESTABLISHED, delivering an acknowledgement leaves the receiver within its cap in every continuation that meets the condition again, on a forward clock, if and only if the acknowledgement meets it |
| Overflow.BadAckOverflows | src/tcp.rs:362-370 | In every run without wrap, with both sides ESTABLISHED: if believing an acknowledgement on the link would put the sender's limit beyond the receiver's right edge, the run can go on, on a clock that moves forward from any reading, so that the receiver holds more than its cap |
| Overflow.UncoveredCapOverflows | src/tcp.rs:979-983 | In every run without wrap, with both sides ESTABLISHED: a cap that does not cover what is held and what was advertised can be exceeded, on a clock that moves forward from any reading |
| OverflowRuns.LateAckOverflows | src/tcp.rs:366-370 | A run of ten steps, all of which meet the condition in both directions but one: a late acknowledgement, and the receiver holds two bytes under a cap of one |
| OverflowRuns.LoweredCapOverflows | src/stack.rs:277-281 | A run of six steps, all of which meet the condition in both directions but one: the cap is set to one byte after the SYN,ACK, and the receiver holds two |
| Reassembly.ArriveReflects | src/tcp.rs:436-462 | After any arrivals the receiver has delivered the longest contiguous prefix and buffers exactly the other arrived segments |
| Reassembly.Confluent | src/tcp.rs:436-462 | Two arrival sequences with the same set of segments leave the same receiver, whatever order and duplicates |
| Reassembly.Complete | src/tcp.rs:442-447 | When every segment has arrived the whole stream is delivered and the out-of-order buffer is empty |
| Reassembly.GapFilled | src/tcp.rs:436-462 | For arbitrary contents: a segment ahead of its turn is delivered right behind the one that fills the gap, in its latest version, exactly if it fitted the cap when it came; otherwise the result is as if it had not come |
| Slices.WrapSafe | src/tcp.rs:436-466 | For any slices of one stream, overlapping or not, with or without the FIN at its end, the delivered bytes stay a prefix and the FIN is taken only after all of them, even when rcv_nxt wraps and order is misjudged |
| Window.FlushLoopFills | src/tcp.rs:387-400 | Every chunk has 1 to 1400 bytes and ends inside the window, the chunks in order are a prefix of the backlog, and the loop stops only with an empty backlog or a full window |
| Window.FlushLoopExact | src/tcp.rs:387-400 | The send loop sends exactly as much as waits or as the window lets through, whichever is less |
| Window.FlushLoopPacks | src/tcp.rs:387-400 | Besides, every segment the loop sends but the last carries exactly 1400 bytes |
| Window.FlushExit | src/tcp.rs:381-386 | After a flush, a backlog facing a closed window has the persist timer armed, and no drained connection has a close pending |
| Window.FinIffDrained | src/tcp.rs:405-418 | A flush queues the FIN exactly when a close is pending and the backlog has just become empty |
| Window.CloseIsGraceful | src/tcp.rs:955-968 | close sends the FIN at once if the flush empties the backlog and otherwise defers it; the queued and waiting bytes in order are the same as before |
| Window.SendAccepts | src/tcp.rs:925-937 | send appends the accepted prefix of the data to the queued and waiting bytes, refuses the rest only when the backlog's cap is reached, and accepts nothing beyond it, even if the backlog is already over a lowered cap |
| Timers.LifeTimers | src/tcp.rs:801-831 | At every moment of every connection, whatever arrives: rto follows the schedule for the retry count, at most six retries, only at the front; the persist timer runs only for a backlog facing a closed window |
| Timers.RtoClosedForm | src/tcp.rs:826-830 | The timeout after k retries is min(500 * 2^k, 8000) ms |
| Timers.GivingUpTakes | src/tcp.rs:801-812 | tick gives up exactly on the front entry's seventh expiry, at least 31.5 seconds after it was first sent |
| Timers.FlushPersist | src/tcp.rs:370-386 | After every flush the persist timer is set exactly when a backlog faces a closed window |
| Timers.ProbeIsFree | src/tcp.rs:776-799 | A due probe costs nothing but itself: tick does exactly what it would do had the persist timer just been restarted with the doubled interval, except that one dummy byte at snd_una - 1 goes out first |
| Schedule.LifeWatched | src/tcp.rs:370-386 | At every moment of every life, with arbitrary segments, calls and clock readings, the persist deadline is where the record of when the timer was armed and how often it has fired puts it, and there is none if it is not armed |
| Schedule.ProbeSentIff | src/tcp.rs:776-799 | In every life a tick sends a probe if and only if the timer is armed and min(500 * 2^k, 8000) ms have passed since it was armed or since the last of its k probes |
| Schedule.OpenWindowRestarts | src/tcp.rs:370-374 | In every life an acknowledgement with an open window stops the timer, and the next time it is armed the schedule starts again at 500 ms |
| Schedule.ArmedIff | src/tcp.rs:381-386 | In every life, after every tick of a sending connection the timer is armed if and only if a backlog faces a closed window |
| Schedule.ResentIff | src/tcp.rs:801-831 | In every life a tick sends the front segment again if and only if it has been sent k + 1 times with k at most 5 and min(500 * 2^k, 8000) ms have passed since the last time; otherwise its record stays |
| Schedule.SendsAreTrue | src/tcp.rs:317-338 | In every life the times a queued segment remembers are the clock readings of the steps that put its copies into the log |
| Copies.AtMostSevenCopies | src/tcp.rs:801-831 | In every run, no SYN, FIN or data segment is sent more than seven times, and each queued one exactly once plus its retries |
| Shapes.OnlyTheseForms | src/tcp.rs:317-343 | In every run, wrapped or not, everything either side puts on the link is SYN, SYN,ACK, FIN,ACK, a bare ACK, PSH,ACK with 1 to 1400 bytes, a one-byte probe, or a refusal with window 0, by the flag byte on the wire, and has acknowledgement number 0 without ACK |
| StateMachine.FollowsDiagram | docs/state_machine.md:54-75 | Whatever arrives and whatever the application does, a step takes at most one transition of the table, one of the two pairs named above, or goes to CLOSED |
| StateMachine.NeverReturns | docs/state_machine.md:54-75 | Over a whole life no state is entered twice |
| StateMachine.FinClosesStream | src/tcp.rs:402-418 | In every run, the step that queues the FIN leaves an empty backlog, and the FIN is the last segment sent, at the sequence number after all bytes accepted so far |
| StateMachine.NothingAfterFin | src/tcp.rs:377-380 | In every run, once a FIN is queued that side's snd_nxt and stream are the same at every later moment |
| StateMachine.SenderFollowsPeer | src/tcp.rs:692-737 | In every synchronised state an acknowledgement leaves snd_una at the larger of the two and snd_wnd at the advertised window |
| StateMachine.OpenerFollowsPeer | src/tcp.rs:662-683 | The acknowledgement of the SYN that opens a connection, on either side, leaves snd_una and snd_wnd at what it says |
| StateMachine.LimitHonestIff | src/tcp.rs:366-370 | In every synchronised state, an acknowledgement leaves the sender's limit within its old value or what the acknowledgement advertises exactly when it is not older than snd_una or does not enlarge the window |
| StateMachine.TimeWaitLasts | src/tcp.rs:738-772 | Entering TIME_WAIT, or seeing the FIN again in it, keeps the connection for exactly four more seconds |
| Transitions.SegmentMoves | src/tcp.rs:626-755 | For every state and every segment the next state is the one in a table that mentions only the record and the segment: FIN in sequence, everything acknowledged, and whether the backlog of a closing connection goes out within the window just heard |
| Transitions.CallMoves | src/tcp.rs:763-839 | For every state the timer, send, recv, close and the caps leave exactly the state in the table: TIME_WAIT over, the seventh expiry, a deferred FIN that can now go |
| Transitions.ReapedIff | src/tcp.rs:844-846 | A connection leaves the table with exactly the segment or the tick that closes it |
| Answers.AnsweredIff | src/tcp.rs:626-755 | For every state and every segment: an acknowledgement with the receiver's new position and window goes out first exactly if the listed condition holds, only data or the FIN follows, and an idle connection sends that answer alone or nothing |
| Answers.FinIsAcked | src/tcp.rs:448-470 | A FIN taken in SYN_RCVD, ESTABLISHED, FIN_WAIT_1 or FIN_WAIT_2 is acknowledged at once, ahead of anything else, at the position behind it: the end of its data plus one if nothing was buffered |
| Answers.FinIsConfirmed | src/tcp.rs:700-737 | In every run and either direction, when a copy of the FIN reaches a peer that expects it and the answer comes back, FIN_WAIT_1 becomes FIN_WAIT_2, CLOSING becomes TIME_WAIT and LAST_ACK becomes CLOSED |
| Answers.DuplicateAnsweredIff | src/tcp.rs:463-470 | An idle connection answers a duplicate exactly in the listed states |
| Answers.ResetIsMeant | src/tcp.rs:474-488 | The RST for a segment no connection wants stands where that segment's sender expects the next byte, or acknowledges all that the sender has sent |
| Answers.RefusedIff | src/tcp.rs:588-622 | Where there is no connection a segment is answered with one RST exactly if it is neither a RST nor an attempt to open |
| Answers.ResetUnanswered | src/tcp.rs:621-623 | Alive or gone, in any state, an endpoint sends nothing in answer to a RST |
| Checksum.ComputeChecksum16 | src/ip.rs:97-114 | Up to 131074 bytes the 32-bit accumulator never overflows, the fold loop terminates, and the result is the checksum |
| Checksum.SafeLengths | src/ip.rs:97-105 | 131074 bytes is the exact limit: every longer length has a buffer that overflows the accumulator |
| Checksum.FoldKeepsValue | src/ip.rs:107-111 | Folding keeps the sum modulo 65535 and does not confuse zero with 65535 |
| Checksum.VerifiesIff | src/ip.rs:118-125 | A buffer has checksum zero exactly when its words sum to a positive multiple of 65535 |
| Checksum.FilledVerifies | src/ip.rs:79-88 | Any buffer whose zeroed aligned field is filled with its checksum verifies |
| Checksum.OneByteDetected | src/ip.rs:118-125 | Changing any single byte of a buffer that verifies makes it fail |
| Wire.BuildTcpHeader | src/tcp.rs:58-68 | Writes the header's bytes over the first twenty and leaves the rest alone |
| Wire.BuildIpHeader | src/ip.rs:67-89 | Writes the header with the checksum computed over a zeroed field, and leaves the rest alone |
| Wire.TcpHeaderRoundTrip | src/tcp.rs:40-68 | Parsing a built TCP header gives it back, whatever follows |
| Wire.IpHeaderRoundTrip | src/ip.rs:31-89 | Parsing a built IP header gives it back exactly when version is 4 and every field fits its bits |
| Wire.BuiltHeaderVerifies | src/ip.rs:67-125 | Every built IP header verifies |
| Wire.FilledSegmentVerifies | src/tcp.rs:73-82 | A segment with its checksum filled in has TCP checksum zero, pseudo-header included |
| Wire.BuildPacket | src/tcp.rs:263-303 | send_segment's buffer operations produce the packet |
| Wire.PacketLayout | src/tcp.rs:263-303 | For payloads up to 65495 bytes every field of the packet stands at its byte position, most significant byte first: total length the length of the packet, header lengths 20, TTL 64, protocol 6, the flag bits, urgent pointer 0, and the data at byte 40 |
| Wire.PacketIpFields | src/tcp.rs:285-298 | A parser reads a total length equal to the packet's, a header of 20 bytes, TTL 64, protocol 6 and no fragmentation |
| Wire.PacketTcpFields | src/tcp.rs:264-274 | A parser reads a data offset of 20 bytes and an urgent pointer of 0 |
| Wire.TcpChecksumCovers | src/tcp.rs:73-82 | A segment passes the TCP checksum exactly when the words of both addresses, 6, the length and the segment's words add up to a multiple of 65535 |
| Wire.WireRoundTrip | src/stack.rs:152-189 | Decoding a sent packet passes both checksums and yields the same sequence number, acknowledgement, flags, window and data under the mirrored key |
| Wire.OptionsSkipped | src/stack.rs:175-179 | So does a segment behind any other good IP header between these ends, whatever options the header length leaves room for |
| Wire.CorruptionDropped | src/tcp.rs:557-571 | A sent packet with any one byte changed, in either header or in the data, is dropped |

## Left out

- The connection table with many connections, accept queues, listeners, port allocation and address reuse: the two-endpoint model follows one 4-tuple; the rest is look-ups.
- A second incarnation of a reaped connection: a SYN that reaches a reaped endpoint is ignored in the model, so nothing is said about old duplicates across incarnations.
- RefusedIff: for the same reason says nothing of a SYN that reaches a reaped endpoint.
- Simultaneous open, RST sequence validation, congestion control, selective acknowledgement, TCP options: the source does not have them.
- Liveness of handshake and teardown under loss: it does not hold in general, see `DuplicateAnsweredIff`; `RetransmissionRecovers` and `EverythingCanArrive` cover data, `FinIsConfirmed` the FIN of a peer that still expects it.
- Fairness of the link: `EverythingCanArrive` says that a good continuation exists, not that the link takes it.
- EverythingCanArrive: not stated when both sides have spent the retries of their fronts and only the acknowledgements were lost; whether one of them can still speak up in time then depends on the open window and on the clock.
- CanArriveIff: not stated in that case either, for the same reason.
- AckIsSafeIff: stated for two ESTABLISHED sides whose sender has not called close, with a window of bytes left before the wrap; a closing sender may have nothing left to send.
- BadAckOverflows: stated under the same conditions as AckIsSafeIff.
- UncoveredCapOverflows: stated under the same conditions as AckIsSafeIff; the continuation may contain an acknowledgement that is not current.
- Several clock readings within one step: each step reads the clock once. What holds in every run holds for unrelated readings; where a continuation is constructed its clock moves forward.
- Aliasing of payload buffers: payloads are values.
- UDP, ICMP, the TUN device, the blocking socket calls, socket options and tracing.
- Payloads of more than 65495 bytes on the wire: the methods that build packets require the bound, which keeps the 16-bit lengths and the 32-bit sums exact; the engine never sends more than 1400.
