# dRPC: a verified model of its protocol core

dRPC is an RPC protocol with two cores, one in Go and one in TypeScript. This project models the state
machines its guarantees rest on and proves those guarantees for every input, every run or every
interleaving:

- **Credit flow control** (reliable mode): per-stream and per-connection windows, paired acquires, the
  receiver's ledger with its batching rule, pins, and the bounded stash of evicted senders. One client and
  one server incarnation run against each other over FIFO channels, with any number of calls.
- **At-most-once admission** (unreliable mode): live calls, tombstones, the floor, and the time-aged
  watermark, under concurrent duplicate OPENs whose check and registration are separate critical sections.
- **Sequence windows**: mod 2^32 numbering, forward window, duplicates, gaps, loud failure, strict mode,
  and the bounded receive queue behind them.
- **The wire**: the hand-written protobuf reader and writer, frames, envelopes, metadata, UTF-8 and base64
  (section 4 of RFC 4648).
- **The server's counters** and **the client connection** as event-driven machines.

| file | what it holds |
|---|---|
| `Sums.dfy` | sums over maps |
| `Credit.dfy` | `FlowSender`, `FlowReceiver`, the paired acquire, the ledger on values |
| `PeerFlow.dfy`, `SenderCache.dfy` | the ledger as objects (TypeScript and Go), the stash, and the unbounded map it refines |
| `Buffers.dfy`, `StreamRx.dfy`, `Restarts.dfy` | the receiving side of an endpoint: on values, one call as an object, and across server restarts |
| `Sends.dfy` | the sending side: held credits, undos, drains; the Go locks |
| `Channel.dfy`, `Duplex.dfy` | frames, FIFO channels, the two-endpoint step system |
| `Conservation.dfy`, `StreamWindow.dfy`, `Overtaking.dfy`, `Order.dfy`, `Flow.dfy` | its invariant, part by part, and the theorems |
| `Overrun.dfy` | what OPENs that overtake one another cost, exactly |
| `TombStore.dfy`, `Admission.dfy` | dedup memory and call admission |
| `SeqWindow.dfy`, `Delivery.dfy` | sequence numbers, receive queue |
| `Text.dfy`, `Base64.dfy`, `Wire.dfy`, `Metadata.dfy`, `Codec.dfy` | the codec |
| `Encoders.dfy` | the encoders as they drive the writer |
| `Counters.dfy` | the server's nested state and its totals |
| `ClientConn.dfy` | incarnation isolation and termination at the client |

Objects whose methods update fields are classes; each method is tied to a function on the value it changes,
and the theorems are about those functions over arbitrary event lists. An event that is not enabled leaves
the state alone, so "every run" is "every list of events".

## Model

| member | source | states |
|---|---|---|
| Credit.FlowSender.constructor | ts/src/util.ts:295-300 | a new sender paces nothing and has sent nothing |
| Credit.FlowSender.Assume | ts/src/util.ts:308-312 | the provisional window counts only before an advertisement and only if off |
| Credit.FlowSender.Observe | ts/src/util.ts:324-334 | the first advertisement replaces the assumption and keeps what was sent; later ones do nothing; 0 turns pacing off |
| Credit.FlowSender.Reassume | ts/src/util.ts:343-349 | a new incarnation starts over, unadvertised, nothing sent |
| Credit.FlowSender.Grant | ts/src/util.ts:356-362 | a grant adds credit up to 2^53 - 1 and never enables pacing |
| Credit.FlowSender.Refund | ts/src/util.ts:380-385 | never more comes back than was sent, and the result says how much did |
| Credit.FlowSender.Undo | ts/src/util.ts:371-373 | true exactly when a credit was there to return |
| Credit.FlowSender.Drain | ts/src/util.ts:393-397 | takes the whole spend, so a later undo finds none |
| Credit.FlowSender.Release | ts/src/util.ts:400-403 | pacing ends, counts stay |
| Credit.FlowSender.TryAcquire | ts/src/util.ts:409-413 | a credit is taken exactly when the window is not exhausted |
| Credit.FlowSender.Restore | ts/src/util.ts:430-435 | a saved position is put back whole |
| Credit.TakeBoth | ts/src/util.ts:500-507 | one credit from each window or none from either; which window was short |
| Credit.AcquireBoth | ts/src/util.ts:547-597 | against any script of wake-ups, both windows end where the environment alone would have left them, plus one credit on each if and only if the send got through; a stall is blamed on the window that was empty |
| Credit.Batched | ts/src/util.ts:622-629 | a batch is granted whole or kept whole, nothing is lost, and less than half a window is ever kept |
| Credit.FlowReceiver.constructor | ts/src/util.ts:603-606 | a new receiver grants nothing |
| Credit.FlowReceiver.Enable | ts/src/util.ts:608-611 | on exactly for a positive window; pending credit stays |
| Credit.FlowReceiver.Consumed | ts/src/util.ts:622-629 | consumed credit is granted now or still pending, by the batching rule |
| Credit.ReliableRxSize | ts/src/util.ts:262-264 | a reliable buffer has at least W_INIT slots and is otherwise as configured |
| PeerFlow.PeerFlowRx.constructor | ts/src/util.ts:666-685 | a new ledger is off and empty |
| PeerFlow.PeerFlowRx.Enable | ts/src/util.ts:693-696 | the window saturates at 2^32 - 1 |
| PeerFlow.PeerFlowRx.Admit | ts/src/util.ts:708-713 | refuses exactly at a full window, charges one frame otherwise |
| PeerFlow.PeerFlowRx.Retire | ts/src/util.ts:721-727 | frames leave the count; their credit is held and granted by the rule for their own incarnation |
| PeerFlow.PeerFlowRx.Unadmitted | ts/src/util.ts:735-739 | credit of frames never buffered is held and granted alike |
| PeerFlow.PeerFlowRx.UnadmittedEvicted | ts/src/util.ts:749-753 | the same for an incarnation that is only in the stash; nothing for one held nowhere |
| PeerFlow.PeerFlowRx.Hold | ts/src/util.ts:756-758 | held credit saturates at 2^32 - 1 |
| PeerFlow.PeerFlowRx.Due | ts/src/util.ts:762-768 | pays out all or nothing: at half the window, or when buffered plus held fills it |
| PeerFlow.PeerFlowRx.Renew | ts/src/util.ts:776-778 | drops what was held for the old incarnation |
| PeerFlow.PeerFlowRx.Stash | ts/src/util.ts:783-795 | the position is kept; past the cap the oldest go, held credit included |
| PeerFlow.PeerFlowRx.Unstash | ts/src/util.ts:799-804 | the position comes back once |
| PeerFlow.PeerFlowRx.CreditEvicted | ts/src/util.ts:811-816 | a grant lands on the stashed position like on a live sender |
| PeerFlow.GoPeerFlowRx.constructor | flow.go:531-536 | a sized, empty ledger |
| PeerFlow.GoPeerFlowRx.Stash | flow.go:652-672 | the same function of the old state as the TypeScript one, over a map beside an order slice |
| PeerFlow.GoPeerFlowRx.Unstash | flow.go:676-691 | likewise |
| PeerFlow.GoPeerFlowRx.CreditEvicted | flow.go:697-706 | likewise |
| PeerFlow.Cut | flow.go:684-689 | the loop removes exactly the first occurrence and keeps the order of the rest |
| PeerFlow.Lockstep | flow.go:652-706 | driven by any history the two stashes return the same positions and end in the same state |
| SenderCache.CacheRefines | ts/src/server.ts:1137-1187 | with at most 2 x maxDeadPeers incarnations on a key, and no container evicted under a send that still holds a credit of it, every incarnation has the sender position, and the key the ledger and the grants, of a server that never evicts |
| SenderCache.RefinesIff | docs/PROTOCOL.md:1666-1666 | that bound is exact for every cap: all such runs of at most n incarnations agree with the unbounded server if and only if n <= 2 x maxDeadPeers |
| SenderCache.UntidyRefinesIff | ts/src/server.ts:1972-1998 | with sends that may outlive their container, all runs of at most n incarnations agree if and only if n <= maxDeadPeers |
| SenderCache.LateUndoLost | ts/src/server.ts:2028-2031 | for every cap, a run of one incarnation more in which a send takes a credit, its call ends, its container is evicted, and the refund it then makes is lost |
| SenderCache.LosesIff | ts/src/server.ts:1150-1173 | an OPEN makes the slot forget a position if and only if it needs a container, the idle ones are at their cap, and so is the stash without the one coming back |
| SenderCache.StashFits | unreliable_server.go:190-272 | taking the returning position out first always leaves room for the evicted one |
| Buffers.HoldSettles | ts/src/util.ts:756-768 | hold-then-pay splits credit between held and granted, leaves less than half a window held, and moves no other incarnation |
| Buffers.ArriveOwesOne | ts/src/conn.ts:1132-1185 | whatever path a data frame takes, exactly one more credit is owed or granted to its incarnation, none to any other |
| Buffers.ConsumeOwesSame | ts/src/conn.ts:1476-1488 | taking a message moves its credit, never changes it, delivered or not |
| Buffers.CloseOwesSame | ts/src/conn.ts:1641-1660 | ending a call returns all it had pinned, short of what overflows the counter |
| Buffers.NoSpill | ts/src/util.ts:756-758 | no overflow with a window of at most two thirds of the counter's range |
| Buffers.OutstandingIsBuffered | ts/src/util.ts:708-727 | against any peer, `outstanding` is the sum of all pin counts and at most the window |
| Buffers.OneCreditPerFrame | ts/src/conn.ts:1026-1192 | against any peer of the incarnations at hand: received = pinned + held + granted + overflowed, and nothing overflows below two thirds of 2^32 |
| Buffers.CreditCanSpillIff | ts/src/util.ts:756-758 | some peer can make the counter lose credit if and only if the window is over two thirds of its range |
| Restarts.OneCreditAcrossRestarts | ts/src/conn.ts:610-673 | at a client across any server restarts and stragglers: what is buffered stays within the window, received = pinned + held + granted + given up, and nothing is given up while one incarnation is heard |
| Restarts.StaleArriveOwes | ts/src/conn.ts:660-664 | a refused frame of an incarnation moved past returns nothing, a buffered one is charged as ever |
| Restarts.StaleTakeOwes | ts/src/conn.ts:670-674 | a message of an incarnation moved past leaves the buffer uncredited |
| Restarts.StaleEndOwes | ts/src/conn.ts:670-674 | likewise everything its call still had pinned |
| StreamRx.Stream.constructor | ts/src/conn.ts:921-950 | a new call has nothing queued, pinned or pending |
| StreamRx.Stream.Pin | ts/src/conn.ts:987-991 | refused exactly after the bulk return |
| StreamRx.Stream.Unpin | ts/src/conn.ts:996-1000 | false exactly when the bulk return covered the frame |
| StreamRx.Stream.HandleData | ts/src/conn.ts:1132-1176 | on the shared ledger, the same state and connection grant as `Buffers.Arrive` |
| StreamRx.Stream.Recv | ts/src/conn.ts:1476-1488 | the same state, connection grant and stream grant as `Buffers.Consume` |
| StreamRx.Stream.Release | ts/src/conn.ts:1641-1660 | the same state and grant as `Buffers.Close`; a second release does nothing |
| Sends.TakeKeeps | ts/src/util.ts:500-515 | taking credits keeps the pairing and leaves charged-minus-held alone |
| Sends.SpendKeeps | ts/src/conn.ts:1376-1400 | reaching the wire changes no window |
| Sends.PutBackKeeps | ts/src/conn.ts:1004-1009 | an undone send leaves both windows as if it had not been tried |
| Sends.EndKeeps | ts/src/conn.ts:1641-1644 | ending a call charges and returns nothing by itself |
| Sends.PlainUndoIsGuarded | ts/src/server.ts:2028-2031 | the server's unconditional undo is the client's guarded one, since a server never drains |
| Sends.DrainTakesAllOnce | ts/src/conn.ts:1625-1639 | a RESET before the lock returns the call's whole spend, and no late undo returns any of it again |
| Sends.PairedUnderAnyInterleaving | flow.go:287-307 | with the locks released between the halves of undos and drains, in any interleaving over any number of streams: connection `sent` = sum of stream `sent` + refunds on their way |
| Flow.CreditConserved | docs/PROTOCOL.md:297-330 | in every run, per direction: sent (+ refunded) = held by sends + data in flight + buffered + held back + grants in flight + (granted - advertised) + lost; nothing is refunded or lost before the server drains, short of saturation and of OPENs overtaking one another before the lock |
| Flow.NeverOverrun | ts/src/conn.ts:1147-1176 | in every run a data frame of a running call finds room in its stream buffer at both ends and in the client's connection window, and in the server's as long as no OPENs overtook one another before the lock |
| Flow.AlwaysPaired | flow.go:287-396 | in every run each connection sender has sent what its streams have, within what was granted |
| Flow.ClientUnstuck | ts/src/util.ts:721-768 | a client out of connection credit with no data, grant or first answer in flight, short of overtaking: over half the server's window is buffered, and retiring any one frame, or its call, grants at once |
| Flow.ServerUnstuck | ts/src/util.ts:721-768 | the same for the server |
| Flow.StreamUnstuck | ts/src/util.ts:622-629 | a stream out of credit with nothing in flight: delivering at most half a window of its buffer emits a grant, in both directions |
| Flow.FullWindowGrants | ts/src/util.ts:762-768 | a full window is mostly buffered, and one retirement pays it out |
| Flow.FullBufferGrants | ts/src/util.ts:622-629 | a full stream buffer pays out within half a window of deliveries |
| Flow.AckLeads | ts/src/conn.ts:1629-1638 | in every run, until the client locks, what it hears before the first H or T is never data, and, short of overtaking, a connection grant only from a draining server |
| Flow.Invariant | docs/PROTOCOL.md:243-330 | after every run both endpoints are in step, credit is conserved per direction, every call's stream window accounts for its frames, and frames stand in the order the lock relies on |
| Overtaking.LateIsBeaten | server.go:335-344 | an OPEN found at or below the watermark before any answer left after a unary OPEN of a higher sid |
| Overrun.EagerStraight | ts/src/conn.ts:496-500 | a client whose OPENs with client data leave as their sids are allocated never lets one be overtaken |
| Overrun.EagerSafe | ts/src/conn.ts:496-500 | so it never overruns its server and gets no credit back twice before a drain |
| Overrun.SwapOvertakes | conn.go:533-550 | the shortest order that overtakes: a unary OPEN of sid 2 before the OPEN with client data of sid 1 |
| Overrun.RunsTwice | stream.go:1086-1106 | for every order that overtakes, a run in which the RESET refunds a credit the server holds back as well |
| Overrun.ReturnedOnceIff | stream.go:1086-1106 | for every order of OPENs before the lock: no run short of a drain returns credit twice if and only if the order does not overtake |
| Overrun.NeverOverrunIff | server.go:335-344 | for every order of OPENs before the lock: no run makes a conforming client overrun the server if and only if the order does not overtake |
| TombStore.FadesOldestFirst | ts/src/server.ts:338-345 | stored terminals fade oldest first and no more of them than the byte cap needs |
| TombStore.InsertedKeeps | ts/src/server.ts:333-358 | a fresh insert ends within both caps, remembers its sid and forgets none |
| TombStore.AddedKeeps | ts/src/server.ts:317-359 | likewise for replacements and for sids the floor covers |
| TombStore.EvictedKeeps | ts/src/server.ts:349-358 | the entry cap evicts the lowest sid only, and the floor covers it |
| TombStore.SweptKeeps | ts/src/server.ts:1338-1348 | a sweep forgets only sids the aged watermark covers; the order list still has every entry |
| TombStore.LostKeeps | ts/src/server.ts:1356-1360 | a lost peer's tombstones keep deduplicating with nothing stored |
| TombStore.AgedRises | ts/src/server.ts:308-315 | the aged watermark never falls as time passes and never passes the newest checkpoint |
| TombStore.AgedGrows | unreliable_server.go:384-397 | a new checkpoint never lowers it |
| TombStore.DroppedSame | unreliable_server.go:384-397 | dropping superseded checkpoints changes it at no later time |
| TombStore.StoreStaysExact | ts/src/server.ts:317-367 | over any history the byte count is the exact sum of stored sizes, every entry is in the order list, and the entry cap holds |
| TombStore.NothingForgotten | ts/src/server.ts:317-367 | a sid once added stays covered until an expiry is told a watermark at or above it |
| TombStore.PeerState.constructor | ts/src/server.ts:257-303 | a new container knows nothing |
| TombStore.PeerState.HwmAged | ts/src/server.ts:308-315 | the loop finds the last checkpoint old enough; a reliable channel does not age |
| TombStore.PeerState.AddTomb | ts/src/server.ts:317-359 | the two eviction loops compute `Added` |
| TombStore.PeerState.Insert | ts/src/server.ts:333-358 | the insert part of it |
| TombStore.PeerState.DegradeOldest | ts/src/server.ts:338-345 | the byte-cap loop fades exactly the needed prefix |
| TombStore.PeerState.EvictLowest | ts/src/server.ts:349-358 | the entry-cap loop evicts the lowest sid and raises the floor |
| TombStore.PeerState.FindLowest | ts/src/server.ts:350-353 | the scan returns the minimum |
| TombStore.PeerState.RemoveTomb | ts/src/server.ts:361-367 | removal keeps the byte count exact |
| TombStore.PeerState.Sweep | ts/src/server.ts:1332-1348 | checkpoint, expiry and compaction together are `Swept` |
| TombStore.PeerState.Mark | ts/src/server.ts:1332-1336 | checkpoints superseded by an old enough one go |
| TombStore.PeerState.Expire | ts/src/server.ts:1338-1343 | exactly the entries past their deadline and under the watermark go |
| TombStore.PeerState.Compact | ts/src/server.ts:1344-1347 | the order list keeps exactly the entries that still exist |
| TombStore.PeerState.Degrade | ts/src/server.ts:1356-1360 | every stored terminal goes, every key stays |
| Admission.AtMostOnce | server.go:583-624 | in every interleaving of duplicate OPENs, finishes, rejections, evictions and sweeps, each sid starts a handler at most once |
| Admission.StartedIsKnown | server.go:294-348 | whatever started is live, tombstoned, at or below the floor, or at or below the aged watermark, ever after |
| Admission.WatermarkNeverFalls | unreliable_server.go:83-94 | along every run the aged watermark never decreases |
| Admission.RejectionIsFinal | server.go:670-714 | a sid refused on an unreliable channel never starts afterwards |
| Admission.FreshStarts | server.go:335-347 | an OPEN above every sid handled passes the first check on any stale clock, and starts if no higher sid came in between |
| Admission.StepKeeps | server.go:206-348 | every step keeps the invariant and knows at least as much as before |
| SeqWindow.RxWindow.constructor | ts/src/seq.ts:47-52 | an empty window |
| SeqWindow.RxWindow.TakeGap | ts/src/seq.ts:57-61 | the gap is read once |
| SeqWindow.RxWindow.Check | ts/src/seq.ts:63-100 | verdict and new window are `Checked` of the old one |
| SeqWindow.TxSeq.constructor | ts/src/seq.ts:10-11 | counting starts below 1 |
| SeqWindow.TxSeq.Next | ts/src/seq.ts:13-16 | the next number mod 2^32 |
| SeqWindow.TxSeq.Undo | ts/src/seq.ts:23-25 | only the latest number, and not 0, is given back |
| SeqWindow.UndoIff | ts/src/seq.ts:23-25 | undo restores the counter if and only if no number was allocated since and the number is not 0 |
| SeqWindow.TrueDistance | ts/src/seq.ts:79-79 | mod 2^32 distance is true distance within one turn |
| SeqWindow.ArriveKeeps | ts/src/seq.ts:79-89 | an arrival is accepted exactly if it is 1 to W_FWD ahead and not a multiple of 2^32 |
| SeqWindow.OrderedSubsequence | ts/src/seq.ts:79-89 | under any loss, duplication and reordering within sight the accepted frames are strictly increasing arrivals, and accepted + gaps = the advance of the window |
| SeqWindow.HalfTurnVerdict | ts/src/seq.ts:79-100 | within half a turn every verdict is determined by the true distance, both ways |
| SeqWindow.OutOfSight | ts/src/seq.ts:79-89 | a frame one turn minus W_FWD old is taken for a new one |
| SeqWindow.SightIff | ts/src/seq.ts:79-89 | all runs whose arrivals are at most h behind the window are in order if and only if h is less than a turn minus W_FWD |
| SeqWindow.WrapAround | ts/src/seq.ts:63-78 | wrapping costs one frame in window mode and the call in strict mode |
| SeqWindow.LoudIff | ts/src/seq.ts:90-100 | DATA_LOSS if and only if the arrival and the two stray ones before it since the last accept follow closely; duplicates and 0 do not count |
| SeqWindow.BurstFailsByThird | ts/src/seq.ts:90-100 | progress past an over-long burst fails on its third arrival whatever is mixed in |
| SeqWindow.EveryNumberOnce | stream.go:836-845 | in any interleaving of frames that take numbers, leave, are refused or fail: no number leaves twice, and every one not given back is on the wire, under way or lost, which adds up to the counter |
| SeqWindow.WireNumberedIff | stream.go:824-845 | the wire carries 1..n, without a hole or a swap, if and only if no frame, message or control frame, leaves while a lower number is under way or lost |
| SeqWindow.RaceDecides | stream.go:893-904 | two frames numbered one after the other, such as a half-close and an abort: numbered if they leave in turn, swapped if not, a hole if the lower one is refused after the higher one left |
| SeqWindow.OneTurnIff | ts/src/conn.ts:1347-1401 | when number and outcome of every frame fall into one turn, the wire is numbered if and only if nothing leaves after a failure that keeps its number; without such failures always |
| SeqWindow.NeverSilent | ts/src/seq.ts:69-78 | in strict mode, whatever the transport does to the frames, a prefix of what was sent is delivered, and the call fails exactly if the arrivals are no prefix |
| SeqWindow.ReliableExact | ts/src/seq.ts:69-78 | over FIFO exactly what was sent is delivered if and only if no frame left a lower number behind in that sense |
| Delivery.FrameQueue.constructor | ts/src/util.ts:71-79 | an empty queue |
| Delivery.FrameQueue.TryTake | ts/src/util.ts:85-89 | the oldest frame, if any |
| Delivery.FrameQueue.TryPut | ts/src/util.ts:91-96 | accepted exactly below capacity |
| Delivery.FrameQueue.PutDrop | ts/src/util.ts:103-111 | one frame is dropped and counted exactly when the queue is full, the one the policy names |
| Delivery.ApplicationSeesOrder | ts/src/conn.ts:1066-1188 | behind window and queue, under both policies: the application sees strictly increasing numbers, and accepted = taken + buffered + dropped |
| Delivery.FreshestKept | ts/src/util.ts:103-111 | dropping the oldest keeps the buffer equal to the latest accepted frames |
| Text.TextRoundTrip | ts/src/wire.ts:233-293 | strict and lossy UTF-8 decoding undo encoding |
| Text.FrontOfChar | ts/src/wire.ts:286-293 | the first character decodes alone, whatever follows |
| Base64.DecodeEncode | ts/src/metadata.ts:65-125 | decoding undoes encoding for all bytes |
| Base64.EncodeDecode | ts/src/metadata.ts:86-125 | encoding undoes decoding if and only if the string is canonical: padded, with zero spare bits |
| Base64.EncodeBase64 | ts/src/metadata.ts:65-81 | the group loop and its two tails compute `Encoded` |
| Base64.DecodeBase64 | ts/src/metadata.ts:86-125 | bytes or the padding, truncation or alphabet error of `Decoded` |
| Base64.StripPadding | ts/src/metadata.ts:87-88 | the loop stops at the last character that is not padding |
| Base64.DecodeBody | ts/src/metadata.ts:104-125 | the group loop and its tails decode exactly the legal bodies |
| Wire.Writer.constructor | ts/src/wire.ts:191-192 | an empty buffer |
| Wire.Writer.PutDigits | ts/src/wire.ts:201-205 | the loop appends the varint of its argument |
| Wire.Writer.PutVarint | ts/src/wire.ts:198-206 | the varint of the low 32 bits |
| Wire.Writer.PutVarint64 | ts/src/wire.ts:208-215 | the varint of the low 64 bits, in two's complement |
| Wire.Writer.PutTag | ts/src/wire.ts:217-219 | field number and wire type in one 32-bit varint |
| Wire.Writer.PutFixed32 | ts/src/wire.ts:221-225 | a little-endian field of the low 32 bits |
| Wire.Writer.PutBytes | ts/src/wire.ts:227-231 | tag, length in 32 bits and bytes; a length-delimited field whenever the length fits |
| Wire.Reader.constructor | ts/src/wire.ts:242-245 | reading starts at the front |
| Wire.Reader.Next | ts/src/wire.ts:251-254 | the next byte or the truncation error, never out of bounds |
| Wire.Reader.Varint | ts/src/wire.ts:256-264 | at most ten bytes, wrapped in 64 bits, or an error |
| Wire.Reader.NextValue | ts/src/wire.ts:266-313 | a value of any wire type, or the error of `ReadValue` |
| Wire.Reader.NextField | ts/src/wire.ts:487-491 | a whole field, the position exactly behind it |
| Wire.DecodeMessage | ts/src/wire.ts:484-560 | the decode loop ends, in bounds, on any bytes, and is a fold over the fields |
| Wire.ReadVarintBack | ts/src/wire.ts:198-264 | reading undoes writing for every 64-bit number, whatever follows |
| Wire.FieldBack | ts/src/wire.ts:217-284 | and for every field |
| Wire.FoldPutAll | ts/src/wire.ts:484-560 | decoding written fields folds over them and then over the rest |
| Wire.IgnoredAnywhere | ts/src/wire.ts:560-561 | a field a decoder passes over changes nothing anywhere |
| Wire.RepeatedArrives | ts/src/wire.ts:569-584 | a repeated field comes back whole and in order, each element as it decodes alone |
| Metadata.ValueRoundTrip | ts/src/metadata.ts:131-145 | a value survives if and only if it is text or canonical base64 |
| Metadata.ValidateMetadataPair | ts/src/metadata.ts:169-196 | accepts exactly the legal keys and values |
| Metadata.BytesAreCanonical | ts/src/wire.ts:386-402 | the bytes depend on the map alone, not on property order |
| Metadata.KeyAnywhere | ts/src/wire.ts:410-423 | the key may stand anywhere among the values of its entry |
| Metadata.RepeatsAppend | ts/src/wire.ts:404-439 | repeated keys append in wire order, and only keys that arrived are there |
| Metadata.MetadataThrough | ts/src/wire.ts:386-439 | same keys, same values in the same order, each after its transform |
| Metadata.MetadataRoundTrip | ts/src/wire.ts:386-439 | lossless if and only if every binary value is canonical base64 |
| Metadata.ValidEncodes | ts/src/metadata.ts:164-167 | validated metadata can always be encoded |
| Codec.DurationRoundTrip | ts/src/wire.ts:320-349 | a signed duration survives if and only if its whole seconds fit 64 bits |
| Codec.AnyRoundTrip | ts/src/wire.ts:355-378 | a detail survives |
| Codec.FrameArrives | ts/src/wire.ts:445-561 | what any frame turns into: timeout and metadata after their transforms, everything else unchanged, presence included |
| Codec.FrameRoundTrip | ts/src/wire.ts:445-561 | a frame survives if and only if its timeout is in range and its binary metadata canonical |
| Codec.UnknownIgnored | ts/src/wire.ts:487-562 | unknown fields and wrong wire types are ignored wherever they stand |
| Codec.EnvelopeArrives | ts/src/wire.ts:569-584 | an envelope delivers all its frames in order |
| Codec.EnvelopeRoundTrip | ts/src/wire.ts:569-584 | and unchanged if and only if each of them survives |
| Codec.EnvelopeConcat | ts/src/wire.ts:569-573 | encoding turns concatenation of frame lists into concatenation of bytes |
| Encoders.WriteValue | ts/src/metadata.ts:131-137 | the octets of a metadata value, or the error of base64 decoding |
| Encoders.WriteDuration | ts/src/wire.ts:320-333 | the writer ends up with exactly the canonical bytes |
| Encoders.WriteAny | ts/src/wire.ts:355-360 | likewise for a detail whose lengths fit 32 bits |
| Encoders.WriteEntry | ts/src/wire.ts:393-400 | likewise for one key and its values; an error if and only if a binary value is not base64 |
| Encoders.WriteMetadata | ts/src/wire.ts:386-402 | whatever order the object holds its keys in, the canonical bytes of the map, or an error exactly if it has none |
| Encoders.WriteFrame | ts/src/wire.ts:445-482 | the field-by-field encoder produces the canonical bytes of every frame that fits, and fails exactly on metadata that cannot be encoded |
| Encoders.WriteEnvelope | ts/src/wire.ts:569-573 | likewise for the loop over frames |
| Counters.TotalsAreSums | ts/src/server.ts:439-443 | in every reachable state the three server-wide totals are the sums over the slots, within the cap |
| Counters.LiveCallsAreExact | ts/src/server.ts:908-941 | each slot object counts exactly the live calls created on it, within the cap, across disconnects and key reuse |
| Counters.CallEnds | ts/src/server.ts:914-927 | a finishing call is counted on its own slot and container, so both decrements find something to take |
| Counters.StepInv | ts/src/server.ts:1050-1074 | every event keeps totals, identities and counts |
| ClientConn.ForeignFramesErase | ts/src/conn.ts:289-322 | leaving out all frames addressed to another client incarnation changes no call, tombstone, window, clock or sid in any history |
| ClientConn.Sweeper.constructor | ts/src/util.ts:182-184 | off, and not stopped |
| ClientConn.Sweeper.Kick | ts/src/util.ts:186-197 | starts the timer unless it runs or was stopped |
| ClientConn.Sweeper.Fire | ts/src/util.ts:188-194 | after a sweep the timer goes on exactly while there is work |
| ClientConn.Sweeper.Stop | ts/src/util.ts:201-207 | off for good |
| ClientConn.SweeperRuns | ts/src/conn.ts:769-780 | in every run, until the Conn closes, the sweeper's timer is on if and only if a call, a tombstone or a remembered RESET is there |
| ClientConn.ForeignIsNothing | ts/src/conn.ts:289-322 | one such frame at most draws a RESET |
| ClientConn.NoCallOutlives | ts/src/conn.ts:782-839 | if a timer that is on fires at most D apart, no call is live once liveness + D has passed without a validated frame |
| ClientConn.BackoffIsMin | ts/src/conn.ts:699-721 | the schedule is min(2^k RTI, T_probe) for every k if and only if RTI <= T_probe |
| ClientConn.AbortBacksOff | ts/src/conn.ts:782-839 | a pending abort waits its interval and, with such a timer, goes out at most D after it |
| ClientConn.NeverEarly | ts/src/conn.ts:782-839 | and never before the interval is over, nor from a sweep that finds the server lost |
| ClientConn.Silenced | ts/src/conn.ts:724-731 | a terminal, a RESET or expiry ends the obligation |
| ClientConn.QuietForever | ts/src/conn.ts:699-731 | for good |

Some promises turned out narrower than their prose; each has the exact condition:

- A RESET before the first lock is taken to come from a server that admits nothing more. The Go client
  allocates a sid under a lock and transmits the OPEN outside it, so a unary OPEN can pass a lower one with
  client data; the late one is RESET by a live server, the client refunds what the server returns as well,
  and the over-credited client can overrun its window (`Overrun.ReturnedOnceIff`, `Overrun.NeverOverrunIff`).
  The run that shows the overrun needs a call whose own receive buffer is larger than the connection window;
  the size of a call's buffer is free per OPEN here. The TypeScript client sends such an OPEN in the same turn
  and is safe (`Overrun.EagerSafe`).
- The bound of 2 x maxDeadPeers idle incarnations holds if no container is evicted under a send that still
  holds a credit of it. Such a send refunds a container nobody reads any more (`SenderCache.LateUndoLost`);
  without that proviso the bound is maxDeadPeers (`SenderCache.UntidyRefinesIff`).
- A stream's frames are numbered under its lock in Go but transmitted outside it, messages and control frames
  alike. An abort can therefore pass a half-close or a message, and a refused number is only reused if it is
  still the latest; the wire stays 1..n exactly if no frame leaves a lower number behind
  (`SeqWindow.WireNumberedIff`, `SeqWindow.RaceDecides`). In TypeScript number and outcome fall into one turn,
  which is enough unless a frame goes out after one that failed without giving its number back, as a refused
  half-close does (`SeqWindow.OneTurnIff`).
- The ledger's held-back credit is a 32-bit counter, so a peer that overruns its window can make it lose
  credit when the window is over two thirds of 2^32 (`Buffers.CreditCanSpillIff`).
- The abort's first interval is the RTI itself, so the schedule is min(2^k RTI, T_probe) only when the RTI
  is at most T_probe (`ClientConn.BackoffIsMin`).

## Left out

- Transports, adapters, batching, compression, payload codecs, gRPC and interceptor plumbing, statistics: a channel is a FIFO (reliable) or any sequence of arrivals (unreliable).
- Promises, goroutines, contexts and timers: a parked send is an event that is not enabled, a timer is an event at a given time; only the acquire loop is written as a loop, against any script of wake-ups.
- `putBlocking` and peers that advertise no window: reliable streams here always have a stream window.
- Both ends together across a server restart, and several client incarnations with full windows on one key: `Duplex` is one client and one server incarnation; `Buffers` and `Restarts` hold one endpoint against any peer.
- Flow.CreditConserved: connection credit that a stopping server no longer grants, that saturates at 2^53 - 1 or that a draining server's grants lose before the client's first lock is counted as lost, and credit a RESET before the lock hands back for frames already on the wire as refunded; both tallies are proved zero before the server drains unless OPENs overtook one another.
- Duplex: an overrun ends its call by a separate event; the frames of one call leave in the order of their numbers, so OPENs overtake OPENs of other calls only; the OPEN's own payload is not counted as a data frame.
- Buffers.ArriveOwesOne: one flag stands for an unknown flag, an illegal shape and a failed sequence check, which all return the frame's credit in the same way; the end of the call that some of them bring is an event of its own.
- Duplex, Counters, ClientConn, Admission: modelled on values with explicit identities rather than as heaps of objects, so aliasing between a call and the slot it was created on is a slot number; a sweep is the list of its pieces.
- SenderCache.CacheRefines: all incarnations are reliable and `maxDeadPeers` is at least one.
- PeerFlow.GoPeerFlowRx.Stash: only the operations on the stash have a Go twin here; the ledger's arithmetic is the same in both languages and modelled once.
- Admission.AtMostOnce: per container lifetime and for a clock that does not go back; garbage collection of containers is not part of it.
- SeqWindow.OrderedSubsequence: for arrivals within sight, less than a turn minus W_FWD old and less than a turn ahead; `SightIff` shows that the first bound is exact.
- Codec.DurationRoundTrip: in whole nanoseconds; rounding to and from floating-point milliseconds is not modelled.
- Text.TextRoundTrip: strings of Unicode scalar values; a lone surrogate, which the platform encodes as U+FFFD, has no place in them, so the frame and envelope round trips say nothing about such strings.
- SeqWindow.WireNumberedIff: for a counter that does not wrap around; `WrapAround` shows what the number after 2^32 - 1 costs. A frame that is sent again under its old number, which only unreliable channels do, is not a use of the counter.
- SeqWindow.OneTurnIff: an adapter that refuses by a promise rejected later, instead of throwing at once as the seam asks, gives the number back in a later turn and is covered by `WireNumberedIff` only.
- Codec.FrameArrives: for lengths that fit 32 bits; an absent and an empty list of details are the same, and metadata is compared as a map.
- Encoders.WriteFrame: for a frame with a length over 32 bits, which the writer truncates, only whether it fails is stated.
- ClientConn.ForeignFramesErase: the instants of sweeps are inputs of a history; that the RESET drawn by a foreign frame can start the sweeper's interval, and so shift the phase of later sweeps, is not part of the comparison.
- Metadata.BytesAreCanonical: keys are ordered by code point, which is the order of UTF-16 code units on every key that validation admits.
- Replays of stored terminals, probes, keepalives and the retransmission of OPENs and half-closes: each only sends a copy of a frame again, which admission and the sequence window take as a duplicate.
- Deadlines: a call that runs out of time ends like any other, by an event.
