# Verification of the proto_rpc message channel

The repository is a reactor-style TCP library (`network/`) with a protobuf RPC layer
(`proto_rpc/`). What the two are for is a reliable, ordered channel of whole RPC messages,
built from partial writes, arbitrary read chunks, functors queued across threads and a
hand-kept epoll registration table. This project models that channel in Dafny and proves it.

`dafny verify dfyconfig.toml` checks everything.

## How the model is laid out

| file | what it holds |
|---|---|
| `Endian.dfy`, `Adler32.dfy` | big-endian words; Adler-32 (section 8.2 of RFC 1950) and which corruptions it notices |
| `Framing.dfy` | the receive loop for any frame format: streaming, chunking, blocking, prefix delivery |
| `RpcCodec.dfy`, `CodecOnBuffer.dfy` | the RPC frame format as an instance of `Framing`, and the two codec halves that work on a `Buffer` |
| `Buffers.dfy` | the `Buffer` class: an array with two indices, refining a byte sequence |
| `ConnectionSpec.dfy`, `TcpConnection.dfy` | the output side of a connection as a value, and the class that refines it |
| `EventLoop.dfy`, `EventLoopObject.dfy` | the loop as interleaved atomic steps of all threads, and as its own thread sees it |
| `Transport.dfy`, `TransportLaws.dfy`, `RpcTransport.dfy` | sending threads, loop, socket, reading peer and decoder together, and what their actions bring about |
| `Registration.dfy`, `Poller.dfy` | `Channel` and `Poller` against the kernel's interest list |
| `ServerLifecycle.dfy`, `ServerLaws.dfy`, `TcpServer.dfy` | the life of every connection of a server across base and io loops; the table of connections by name |
| `ClientLoop.dfy`, `ClientLaws.dfy`, `Connector.dfy` | connector, client and loop phases, socket ownership; the connector on the classes of `Poller.dfy` |
| `RpcRun.dfy`, `RpcStrays.dfy`, `RpcChannel.dfy` | two RPC endpoints, responses nobody owes, and the table of outstanding calls |
| `RpcOverTransport.dfy`, `RpcOrigins.dfy` | the endpoints over two connections of `Transport`, refining `RpcRun`, and where the replies come from |
| `TransportProgress.dfy`, `RpcProgress.dfy` | that a connection left alone drains, and that every call can then complete |

A run is a list of actions given to an `Exec` function; an action that is not enabled when its
turn comes does nothing, so a statement about all lists is a statement about all runs. The
kernel, the peer and the user appear only as the choices inside actions or as method
parameters: what `write`, `readv`, `connect` and `epoll_wait` return, what events are reported,
which callback decides to close. Asserts of the source are obligations: preconditions and
`assert` statements in the classes, an `ok` flag in the machines,
with theorems on which runs can clear it.
Protobuf is a record of two functions; nothing is assumed of them, but runs send only messages
that the two give back and whose size stays within `int`.

Where the code falls short of what one would expect, the model follows the code and says
exactly when:

- The encoder writes frames above 64 MiB that the decoder refuses for ever
  (`OversizeFrameRejected`, `RpcEndToEnd`).
- Two unequal bytes whose distance is a multiple of 65521 can be exchanged unnoticed
  (`SwapRejectedIff`).
- Work that the loop thread queues before `loop()` waits for the first poll to time out, 10 s
  unless another event ends it (`NoLostWakeupIff`).
- SHUT_WR can be issued over unsent bytes, but only on a connection already closed
  (`ShutdownOverBytesIff`, `ShutdownOverUnsentMessage`).
- A message that `send` passed on before `shutdown()` can be lost on a faultless network. From
  another thread it is queued while the loop thread half-closes at once; and `handleWrite`
  half-closes as soon as it has drained, ahead of a message queued before the shutdown. On an
  open connection a message is dropped exactly when SHUT_WR was issued before its `sendInLoop`
  ran (`DroppedIffAfterShutWr`, `SentBeforeShutdownLost`, `DrainOvertakesQueuedSend`).
- Emptying the mask of a channel that is out of the kernel's list puts it in. So a close while
  neither reading nor writing arms a second `handleClose`, whose assert fails at the next
  hang-up; and so does `startRead` after a close, or `stopRead` while `reading_` is still set.
  Nothing else does (`SecondCloseIff`, `UnsafeIffPutsBack`, `StopReadThenForceClose`). `startRead` after a close
  also fails the assert of `connectDestroyed`, and is alone in that (`DestroyFailsIff`).
- A start between a failed attempt and the queued reset of its channel aborts
  (`StartSafeIff`, `FailedAttemptBeforeReset`).
- Connection names are cut at 63 characters. Two coincide exactly when a number is cut off,
  which no printed address and 32-bit counter bring about (`NameNewIff`, `NamesDistinct`).
- A call whose request or reply is dropped by `send` stays outstanding for ever
  (`LostStaysOutstanding`); a reply that carries an error still runs the closure.

## Model

| member | source | states |
|---|---|---|
| Endian.DecodeEncode32 | network/include/network/Endian.h:11-17 | reading back the four bytes written for an `int32_t` gives it again, for every value |
| Endian.EncodeDecode32 | network/include/network/Endian.h:11-17 | every four bytes are the encoding of the value they decode to, so decoding is injective |
| Endian.EncodedNumeral | network/include/network/Endian.h:11-17 | the four bytes, most significant first, are the base-256 digits of the unsigned value |
| Endian.DecodedNumeral | network/include/network/Endian.h:11-17 | and what is read back is the value of that numeral |
| Adler32.ChecksumValue | proto_rpc/rpc_framework/RpcCodec.cc:119-122 | the word is s2 in the high half and s1 in the low, each the unreduced sum modulo 65521 |
| Adler32.RawSums | proto_rpc/rpc_framework/RpcCodec.cc:119-122 | s1 is one more than the sum of the bytes, s2 their number plus their sum weighted by the distance from the end |
| Adler32.SubstitutionDetected | proto_rpc/rpc_framework/RpcCodec.cc:119-122 | changing any one byte of data of any length changes the checksum |
| Adler32.SwapUnnoticedIff | proto_rpc/rpc_framework/RpcCodec.cc:119-122 | exchanging two different bytes leaves the checksum equal exactly when 65521 divides their distance |
| Framing.Streaming | proto_rpc/rpc_framework/RpcCodec.cc:20-48 | decoding a, then b on the leftover, gives the messages and leftover of decoding a followed by b, for all splits |
| Framing.ChunkingIrrelevant | proto_rpc/rpc_framework/RpcCodec.cc:20-48 | however reads cut the stream, delivery and leftover are those of the whole stream at once |
| Framing.RejectedHeadBlocks | proto_rpc/rpc_framework/RpcCodec.cc:36-43 | a refused head frame blocks all later delivery, identically under every split of what follows |
| Framing.PrefixDecodes | proto_rpc/rpc_framework/RpcCodec.cc:20-48 | from any prefix of a stream of frames exactly the messages of the whole frames in it are delivered |
| Framing.StreamDeliveredIff | proto_rpc/rpc_framework/RpcCodec.cc:20-48 | delivery is a prefix of what was framed, and all of it exactly when all bytes are in and every frame fits |
| RpcCodec.ShortBodyRejected | proto_rpc/rpc_framework/RpcCodec.cc:72-94 | no body of 4 to 7 bytes passes both the checksum and the tag, although the length check admits it |
| RpcCodec.ParseOutcome | proto_rpc/rpc_framework/RpcCodec.cc:72-94 | exactly when `parse` gives each error code and when a message, in the bytes of the body |
| RpcCodec.Parse | proto_rpc/rpc_framework/RpcCodec.cc:72-94 | the payload length computed behind checksum and tag is never negative |
| RpcCodec.DeliveredIff | proto_rpc/rpc_framework/RpcCodec.cc:20-48 | a pass delivers a message exactly when the buffer begins with length word, tag, a payload that protobuf reads as it, and its checksum |
| RpcCodec.WaitsIff | proto_rpc/rpc_framework/RpcCodec.cc:21-25 | a pass waits exactly for eight bytes, or for the rest of a body of admitted length |
| RpcCodec.ConsumedIsFrames | proto_rpc/rpc_framework/RpcCodec.cc:20-48 | what the receive loop consumes is the frames of what it delivers, in order, and no whole frame is left at the front |
| RpcCodec.AnySubstitutionRejected | proto_rpc/rpc_framework/RpcCodec.cc:72-94 | one byte changed anywhere after the length word of a valid frame makes `parse` report a checksum error |
| RpcCodec.SwapRejectedIff | proto_rpc/rpc_framework/RpcCodec.cc:72-94 | exchanging two unequal tag or payload bytes is reported unless their distance is a multiple of 65521 |
| RpcCodec.DecodeOne | proto_rpc/rpc_framework/RpcCodec.cc:21-46 | one pass of the decode loop; a delivery consumes at least 12 buffered bytes, so the loop ends |
| RpcCodec.DecodeOneStable | proto_rpc/rpc_framework/RpcCodec.cc:20-48 | once a pass delivers or refuses, no later byte changes that |
| RpcCodec.FrameDecodes | proto_rpc/rpc_framework/RpcCodec.cc:96-111 | a frame that fits decodes to its message with any bytes behind it |
| RpcCodec.OversizeFrameRejected | proto_rpc/rpc_framework/RpcCodec.cc:23-26 | a frame above the limit, even one whose length word wraps, is refused with any bytes behind it |
| RpcCodec.RpcIsLawful | proto_rpc/rpc_framework/RpcCodec.cc:20-111 | the codec meets the hypotheses of every law of `Framing`, for any two functions of protobuf and the messages they give back |
| CodecOnBuffer.FillEmptyBuffer | proto_rpc/rpc_framework/RpcCodec.cc:96-111 | the buffer ends up holding exactly the frame of the message: length word, tag, payload and checksum word when it fits |
| CodecOnBuffer.SerializeToBuffer | proto_rpc/rpc_framework/RpcCodec.cc:55-70 | the payload is appended and room for the checksum remains |
| CodecOnBuffer.Pass | proto_rpc/rpc_framework/RpcCodec.cc:21-46 | the imperative pass computes `DecodeOne` of the buffer's contents and changes nothing |
| CodecOnBuffer.OnMessage | proto_rpc/rpc_framework/RpcCodec.cc:20-48 | the in-place loop delivers and leaves what `Decode` says, and consumes just the frames of what it delivers, for any buffer contents |
| Buffers.Buffer.constructor | network/include/network/Buffer.h:30-37 | an empty buffer with eight bytes of prepend room |
| Buffers.Buffer.Retrieve | network/include/network/Buffer.h:53-60 | drops a front part of the contents; an emptied buffer regains its prepend room |
| Buffers.Buffer.RetrieveAsString | network/include/network/Buffer.h:79-84 | result followed by the remaining contents is the old contents |
| Buffers.Buffer.Append | network/include/network/Buffer.h:88-92 | contents gain the data at the back; the vector never shrinks and stays within the bound in `Valid` |
| Buffers.Buffer.EnsureWritableBytes | network/include/network/Buffer.h:98-103 | room for the request with contents untouched; size stays within twice the largest demand plus seven |
| Buffers.Buffer.MakeSpace | network/include/network/Buffer.h:252-266 | growth or compaction keeps the contents, and the assert on the reader index holds |
| Buffers.Buffer.SlideDown | network/include/network/Buffer.h:257-265 | the overlapping forward copy keeps the contents |
| Buffers.Buffer.Unwrite | network/include/network/Buffer.h:114-117 | contents lose exactly the last bytes |
| Buffers.Buffer.Prepend | network/include/network/Buffer.h:232-237 | contents gain the data at the front |
| Buffers.Buffer.AppendInt32 | network/include/network/Buffer.h:130-133 | contents gain the four big-endian bytes |
| Buffers.Buffer.PeekInt32 | network/include/network/Buffer.h:189-194 | the value of the first four readable bytes |
| Buffers.Buffer.ReadInt32 | network/include/network/Buffer.h:156-160 | encoding of the result followed by the remaining contents is the old contents |
| Buffers.Buffer.ReadFd | network/src/Buffer.cc:14-55 | exactly the bytes read are appended, also when they spill into the stack buffer; an error changes nothing |
| ConnectionSpec.SendKeepsInv | network/src/TcpConnection.cc:86-124 | for every write outcome, wire bytes plus queued bytes remain the accepted messages, and a refused message leaves no byte |
| ConnectionSpec.WriteKeepsInv | network/src/TcpConnection.cc:273-301 | draining moves bytes from queue to wire without loss, keeps writing subscribed exactly while bytes wait, and half-closes at the end |
| ConnectionSpec.SendTakes | network/src/TcpConnection.cc:86-124 | the socket gains exactly the count `write` took, `write` being called only when nothing waits; the rest is queued, and writing subscribed when the queue grew |
| ConnectionSpec.WriteTakes | network/src/TcpConnection.cc:273-301 | the socket gains exactly the count taken from the queue; only draining it ends writing, and half-closes when the connection is being shut down |
| ConnectionSpec.ControlKeepsInv | network/src/TcpConnection.cc:126-141 | shutdown, establish and close keep conservation and half-close safety |
| ConnectionSpec.ShutdownOverBytesIff | network/src/TcpConnection.cc:135-141 | over unsent bytes SHUT_WR is issued exactly when the connection is already closed |
| Transport.ShutdownOverUnsentMessage | network/src/TcpConnection.cc:126-141 | the run in which that happens to a whole unsent message: a shutdown is queued by another thread and the peer closes before it runs |
| ConnectionSpec.LateSendDropped | network/src/TcpConnection.cc:86-124 | a message that reaches `sendInLoop` of an open connection after SHUT_WR leaves the connection as it was, and is dropped whole |
| ConnectionSpec.DrainHalfCloses | network/src/TcpConnection.cc:273-301 | draining the queue of a connection being shut down issues SHUT_WR at once, for any nonempty message |
| TcpConnection.Connection.Send | network/src/TcpConnection.cc:86-124 | the class refines `SendInLoop`; write-complete is queued exactly when nothing was waiting and the socket took everything, so that nothing waits now |
| TcpConnection.Connection.OnWritable | network/src/TcpConnection.cc:273-301 | the class refines `HandleWrite`; write-complete is queued exactly when the write drained the queue, so that nothing waits now |
| TcpConnection.Connection.Shutdown | network/src/TcpConnection.cc:126-141 | acts only on a connected connection, and then issues SHUT_WR at once unless bytes wait, in which case the last of them will |
| TcpConnection.Connection.OnReadable | network/src/TcpConnection.cc:258-271 | bytes read are decoded behind the leftover; end of file closes; an error changes nothing |
| EventLoop.FunctorsRunInOrder | network/src/EventLoop.cc:116-125 | in every interleaving functors run once each in push order, and all that was pending when a poll returned has run before the next |
| EventLoop.GivenRunInOrder | network/src/EventLoop.cc:116-125 | what has run, is about to run and is pending is all that was ever given to `queueInLoop`, in that order |
| EventLoop.PendingAtPollIsRun | network/src/EventLoop.cc:79-98 | whatever was given before a poll returned has run before the loop tests `quit_` again |
| EventLoop.EventfdIsUnread | network/src/EventLoop.cc:144-175 | the eventfd counts the wakeups written since it was last read |
| EventLoop.CheckObeysQuit | network/src/EventLoop.cc:79-108 | the loop leaves at its first test after somebody called `quit`, and polls after every test before |
| EventLoop.LoopThreadWakeups | network/src/EventLoop.cc:116-125 | the loop thread wakes itself only while it runs functors, and reads a wakeup exactly when the poll reported one |
| EventLoop.NoLostWakeupIff | network/src/EventLoop.cc:71-125 | no run leaves a functor or a quit waiting behind a poll that no wakeup will end, so that only its timeout or another event does, exactly when the queue was empty or a wakeup under way at the start |
| EventLoopObject.Loop.DoPendingFunctors | network/src/EventLoop.cc:177-190 | exactly the pending functors run, in order; what they queue waits, with one wakeup each |
| Transport.WholeMessagesInThreadOrder | network/src/TcpConnection.cc:68-124 | in every interleaving of sending threads, wire plus queue is the accepted messages whole, and each thread's messages are kept in its own order |
| TransportLaws.GivenReachOrWait | network/src/TcpConnection.cc:68-80 | each thread's messages that passed `send` reached `sendInLoop` or wait in the queue, in the order given |
| TransportLaws.WireIsWhatWasWritten | network/src/TcpConnection.cc:86-124 | in every run the socket holds exactly as many bytes as the calls to `write` took, over direct and queued writes |
| Transport.EndToEnd | network/src/TcpConnection.cc:86-124 | in every run the peer has a prefix of the accepted messages, and all of them exactly when it has read all bytes and every frame fits |
| Transport.NothingDropped | network/src/TcpConnection.cc:68-124 | in every run without a failed write, a shutdown or a close, all messages that reached `sendInLoop` are accepted in order; once queue and socket are empty the peer has everything every thread sent |
| Transport.DroppedIffAfterShutWr | network/src/TcpConnection.cc:86-141 | in every run whose only write faults follow SHUT_WR, a message on an unclosed connection is dropped exactly when SHUT_WR came before its `sendInLoop` |
| TransportLaws.TakenIffBeforeShutWr | network/src/TcpConnection.cc:86-124 | over a network that fails no write, the step that runs `sendInLoop` on an unclosed connection accepts its message if SHUT_WR was not yet issued, and drops it if it was |
| Transport.SentBeforeShutdownLost | network/src/TcpConnection.cc:68-80 | the run in which a message sent from another thread is lost to the loop thread's later `shutdown()`, for any message |
| Transport.DrainOvertakesQueuedSend | network/src/TcpConnection.cc:282-288 | the run in which draining half-closes ahead of a message that was queued before the shutdown, for any two messages |
| Transport.HalfCloseSafe | network/src/TcpConnection.cc:126-141 | in every run an open connection writes exactly while bytes wait, and SHUT_WR never overtakes one |
| TransportLaws.RanEffects | network/src/TcpConnection.cc:126-175 | in every run, once a queued shutdown has run an open connection is half-closed or still has bytes to write first, once a queued forced close has run it is closed, and it reads exactly while open |
| TransportLaws.EffectsLast | network/src/TcpConnection.cc:126-175 | an establishment, close, shutdown or forced close that happened shows for the rest of the run, in the connection's state and in the loop's queue |
| TransportLaws.PollReports | network/src/Poller.cc:67-81 | when a poll returns, a close can be reported exactly on an open connection, a write event exactly if it was writing |
| Transport.NoQueuedWriteAfterShutWr | network/src/TcpConnection.cc:273-301 | in every run, once SHUT_WR is issued no byte is queued and no queued write is attempted, whatever the kernel would answer |
| Transport.WireFrozenAfterShutWr | network/src/TcpConnection.cc:86-141 | over every continuation the wire gains no byte after SHUT_WR: no queued write is attempted and a direct one gets EPIPE |
| Transport.ChannelIsFifo | network/src/TcpConnection.cc:68-124 | every step of every run is a step of a queue of whole messages: at most one joins at the back, some leave at the front |
| RpcTransport.RpcEndToEnd | proto_rpc/rpc_framework/RpcCodec.cc:13-48 | the end-to-end theorem for the RPC codec over any message type, with the 64 MiB limit as the exact condition |
| Poller.Channel.SetEvents | network/include/network/Channel.h:46-65 | index, map and kernel list agree again after any change of mask, for every channel |
| Poller.Channel.EnableReading | network/include/network/Channel.h:46-49 | the read bit is set and the channel is in the kernel's list |
| Poller.Channel.DisableReading | network/include/network/Channel.h:50-53 | the channel leaves the kernel's list exactly when it was in it and does not write either; the others stay |
| Poller.Channel.EnableWriting | network/include/network/Channel.h:54-57 | the write bit is set and the channel is in the kernel's list; the others stay |
| Poller.Channel.DisableWriting | network/include/network/Channel.h:58-61 | the channel leaves the kernel's list exactly when it was in it and does not read either; the others stay |
| Poller.Channel.DisableAll | network/include/network/Channel.h:62-65 | an emptied channel leaves the kernel's list exactly when it was in it |
| Poller.Channel.Remove | network/src/Channel.cc:34-38 | the channel leaves map and kernel list and counts as no longer added, as its destructor asserts; the others stay |
| Poller.EpollPoller.UpdateChannel | network/src/Poller.cc:83-116 | agreement is restored for a channel whose mask changed, and no `epoll_ctl` can fail |
| Poller.EpollPoller.RemoveChannel | network/src/Poller.cc:118-135 | agreement is kept and the channel is new again |
| Poller.EpollPoller.Update | network/src/Poller.cc:137-152 | under the condition that makes `epoll_ctl` succeed, the interest list changes at one descriptor |
| Poller.EpollPoller.HasChannel | network/src/Poller.cc:168-172 | the answer is whether the channel's index is not kNew |
| Poller.EpollPoller.FillActiveChannels | network/src/Poller.cc:67-81 | both asserts hold for every set of events the kernel can report, and each channel gets its own events |
| ServerLifecycle.LifecycleSafe | network/src/TcpConnection.cc:237-315 | in every run in which nobody stops reading no assert fails; each connection sees Up then Down once, is removed once, and a waiting polled event implies it is open and registered |
| ServerLifecycle.LifecycleSafeUnlessRearmed | network/src/TcpConnection.cc:213-315 | the same with reading stopped and started at will, in every run that puts no closed connection back; an open connection is registered exactly while it reads or writes |
| ServerLaws.AcceptedAreKnown | network/src/TcpServer.cc:60-82 | in every run the connections are those accepted, numbered from 1 |
| ServerLaws.StepShows | network/src/TcpConnection.cc:213-315 | in every run each step shows on its connection what it promises: up, told and watched, or down, told, unwatched and its removal on the way, or just its mask changed |
| ServerLifecycle.SecondCloseIff | network/src/TcpConnection.cc:303-315 | in every such run, closing an open connection can be followed by a second `handleClose` exactly when its mask was empty at the close |
| ServerLifecycle.UnsafeIffPutsBack | network/src/TcpConnection.cc:217-235 | over all such runs and next steps, a hang-up after the step fails the assert exactly when the step closes over an empty mask, or is `stopRead` after the close with `reading_` still set, or `startRead` after the close |
| ServerLifecycle.NothingRearmedIff | network/src/TcpConnection.cc:213-315 | the runs meant are those none of whose steps is of these three kinds |
| ServerLifecycle.DestroyFailsIff | network/src/Channel.cc:34-38 | of all steps just `startRead` after the close makes the assert of `connectDestroyed` on the mask fail |
| ServerLifecycle.StopReadThenForceClose | network/src/TcpConnection.cc:228-235 | the run accept, establish, `stopRead`, `forceClose`, hang-up: the close succeeds and the hang-up fails the assert |
| TcpServer.NameNewIff | network/src/TcpServer.cc:63-66 | a connection name differs from all earlier ones exactly when it is the first or its number was not cut off |
| TcpServer.NamesDistinct | network/src/TcpServer.cc:63-66 | for an address text of up to 51 characters no two numbers of 32 bits give the same name |
| TcpServer.DecimalReads | network/src/TcpServer.cc:63-66 | the number in a name is its decimal numeral, digits only and no leading zero |
| TcpServer.TcpServer.NewConnection | network/src/TcpServer.cc:60-82 | the next number is used; the ids in the table gain it and lose none exactly when the name is not in use, and then are the ids of the machine's table; establishment is posted unless the loop is the base loop |
| TcpServer.TcpServer.RemoveConnection | network/src/TcpServer.cc:84-87 | called in the base loop the id leaves the table at once; from any other the table is untouched and the removal waits |
| TcpServer.TcpServer.RemoveConnectionInLoop | network/src/TcpServer.cc:89-98 | the asserted erase count is 1 exactly when the connection is in the table, while no number was cut off, and just its id leaves; destruction is posted to its own loop |
| ClientLoop.AssertionsHold | network/src/Connector.cc:34-181 | in every run no assert of connector, client or `removeChannel` fails, the last against the whole polled list; every polled channel not yet handled is registered |
| ClientLoop.SocketsConserved | network/src/Connector.cc:59-96 | sockets created are those closed, those handed over and the one being tried, never two of these |
| ClientLaws.TryingShows | network/src/Connector.cc:132-166 | a handled attempt ends unwatched with a reset queued: a good one serves a connection if still wanted, any other socket is closed |
| ClientLaws.ServingShows | network/src/TcpClient.cc:133-149 | a closing connection is unwatched and destroyed later, and exactly a client that retries makes a new attempt at once |
| ClientLaws.TaskShows | network/src/Connector.cc:50-57 | what each queued functor does when it runs |
| ClientLaws.OthersShow | network/src/Connector.cc:29-48 | what start, stop, forced close and the phases of the loop do |
| ClientLoop.RestartFindsNoChannel | network/src/Connector.cc:98-130 | whenever the handed-over connection can close, the queued reset has already run |
| ClientLoop.StartSafeIff | network/src/Connector.cc:34-42 | in every reachable state a start trips no assert exactly when the connector is disconnected and its channel has been reset |
| ClientLoop.FailedAttemptBeforeReset | network/src/Connector.cc:120-150 | the run that reaches the bad state: a refused attempt leaves the connector disconnected with its channel, and a start there aborts |
| Connector.Connector.RegisteredIffConnecting | network/src/Connector.cc:106-130 | the kernel watches the connector's channel exactly while it is connecting, for writing only, under the descriptor being tried |
| Connector.Connector.Start | network/src/Connector.cc:29-32 | the new socket is the one owned and watched for writing, or is closed with the poller as before; earlier sockets and other registrations stay |
| Connector.Connector.StartInLoop | network/src/Connector.cc:34-42 | if still wanted, the same; if not, no socket is made and nothing changes |
| Connector.Connector.Connect | network/src/Connector.cc:59-96 | in progress leaves one owned socket in the kernel's list under its descriptor; both groups of errors leave it closed, the poller untouched and the connector disconnected |
| Connector.Connector.Restart | network/src/Connector.cc:98-104 | from any state without a channel, as a start; every earlier socket keeps its fate |
| Connector.Connector.Connecting | network/src/Connector.cc:106-118 | a new channel joins map and kernel list for writing only, every other registration kept |
| Connector.Connector.RemoveAndResetChannel | network/src/Connector.cc:120-128 | through `disableAll` and `remove` the channel leaves map and kernel list, the others stay, and exactly one reset is then queued |
| Connector.Connector.HandleWrite | network/src/Connector.cc:132-156 | the attempt ends unregistered with one reset queued; its socket is handed over exactly when it is good and still wanted, and closed otherwise |
| Connector.Connector.HandleError | network/src/Connector.cc:158-166 | an attempt in progress ends unregistered and closed; in any other state nothing changes |
| Connector.Connector.StopInLoop | network/src/Connector.cc:50-57 | as for an error, so no attempt is left after a stop |
| Connector.Connector.Retry | network/src/Connector.cc:168-181 | the one socket still owned is closed, never while the poller has a channel on it; the connector is disconnected and owns none |
| Connector.Connector.RunFunctor | network/src/Connector.cc:120-130 | a queued reset only destroys a channel the poller has let go, and no socket changes owner; a queued stop leaves no attempt |
| RpcRun.ExactlyOnePlace | proto_rpc/rpc_framework/RpcChannel.cc:34-151 | in every run in which the server answers each call once, each issued id is in exactly one place, and is outstanding exactly while filed and not completed |
| RpcRun.CompletedOnceWithOwnReply | proto_rpc/rpc_framework/RpcChannel.cc:70-151 | in every such run a closure runs at most once, for a call that was drawn, with the bytes with which that call's service ended or the refusal the call deserves |
| RpcRun.ResponsesAreMade | proto_rpc/rpc_framework/RpcChannel.cc:96-151 | in every run each response comes from a refusal, a service's end or a stray in the list of actions |
| RpcRun.DrawnIsIssued | proto_rpc/rpc_framework/RpcChannel.cc:34-53 | every call drawn stays on record under its id, whatever follows |
| RpcRun.ResponseExpected | proto_rpc/rpc_framework/RpcChannel.cc:70-83 | in every such run every response in flight finds its call outstanding |
| RpcRun.CompletedAtMostOnce | proto_rpc/rpc_framework/RpcChannel.cc:70-94 | in every run, with stray and repeated responses of any content, an issued id is drawn, outstanding or completed, exactly one of them and once; no other id is any |
| RpcRun.LostStaysOutstanding | proto_rpc/rpc_framework/RpcChannel.cc:34-53 | a call whose request or reply was dropped is outstanding after every such continuation |
| RpcStrays.StraysErased | proto_rpc/rpc_framework/RpcChannel.cc:70-94 | a run whose strays are received while their id is not outstanding is, but for strays in flight, the run without them |
| RpcStrays.OwnReplyDespiteStrays | proto_rpc/rpc_framework/RpcChannel.cc:70-94 | closures run at most once with the server's answer to their call in every such run |
| RpcStrays.RepeatsHarmless | proto_rpc/rpc_framework/RpcChannel.cc:74-83 | answers repeated after the true one went on the channel are such strays, whatever they contain |
| RpcStrays.OwnReplyDespiteRepeats | proto_rpc/rpc_framework/RpcChannel.cc:70-94 | a server may repeat its answers freely: closures see its first answer to their own call, once |
| RpcOverTransport.RefinesRpcRun | proto_rpc/rpc_framework/RpcChannel.cc:34-151 | two endpoints over two whole connections, with every interleaving of threads, loops, sockets and reads, go through a run of `RpcRun` whose queues are what the connections accepted and the other end has not handled |
| RpcOrigins.OwnReplyOverTransport | proto_rpc/rpc_framework/RpcChannel.cc:70-151 | in every run over real connections a closure runs at most once, for a call that was drawn, with the bytes with which its service ended, in whatever thread, or the refusal the call deserves |
| RpcOrigins.ServicesGetTheDrawnCall | proto_rpc/rpc_framework/RpcChannel.cc:96-133 | in every run a service is given the call that was drawn under its id |
| RpcOrigins.StepShows | proto_rpc/rpc_framework/RpcChannel.cc:34-151 | in every run each step of the two ends shows on their records and connections: queued, accepted, dropped, handled |
| RpcOverTransport.RestAccountsForAll | proto_rpc/rpc_framework/RpcChannel.cc:34-151 | in every run that has come to rest each call made was completed or dropped, exactly one of the two and once |
| RpcOverTransport.EveryCallCompletes | proto_rpc/rpc_framework/RpcChannel.cc:34-151 | on connections that neither fail nor close, in every run that has come to rest every call made has completed exactly once |
| RpcTransport.RpcCallsComplete | proto_rpc/rpc_framework/RpcChannel.cc:34-151 | the same with the RPC codec on both connections, for any two functions of protobuf |
| TransportProgress.Settle | network/src/EventLoop.cc:79-98 | from every state of a connection that nobody closed and a loop not told to quit, the loop comes to an empty queue with the connection established |
| TransportProgress.Drain | network/src/TcpConnection.cc:273-301 | from there every byte that was accepted can be written and read |
| RpcProgress.EveryCallCanComplete | proto_rpc/rpc_framework/RpcChannel.cc:34-151 | no call gets stuck: from every state of a run without failure, close or quit, whose messages fit, there is a continuation without new calls and of the same kind to rest, where every call made has completed exactly once |
| RpcTransport.OneCallCanComplete | proto_rpc/rpc_framework/RpcChannel.cc:34-151 | a call drawn at the start does complete over the RPC codec in some run that ends at rest, if its request and empty replies are given back by protobuf and within 64 MiB |
| RpcRun.RequestError | proto_rpc/rpc_framework/RpcChannel.cc:96-133 | each of the four codes with what it says of service, method and request |
| RpcChannel.Channel.CallMethod | proto_rpc/rpc_framework/RpcChannel.cc:34-53 | a new id is drawn, filed and sent with the call; counter and table are those of the machine after its three steps |
| RpcChannel.Channel.OnRpcMessage | proto_rpc/rpc_framework/RpcChannel.cc:59-68 | dispatch by type, on the channel's own connection: a response takes out its entry and runs its closure, a request is served or refused, others do nothing |
| RpcChannel.Channel.HandleResponse | proto_rpc/rpc_framework/RpcChannel.cc:70-94 | the entry is taken out; the closure runs only if entry and response exist, on error replies too; the table is that of the machine after receiving |
| RpcChannel.Channel.HandleRequest | proto_rpc/rpc_framework/RpcChannel.cc:96-141 | a call no service takes is answered at once with its own error, any other is handed on, as the machine does |

## Left out

- `Socket`, `SocketsOps`, `InetAddress`, `Acceptor`: wrappers over system calls; the kernel appears only as nondeterministic results under the contract stated with each action.
- Protobuf serialization, descriptors and reflection, glog, boost::any and zlib's code: foreign libraries.
- Destructors, `shared_ptr` lifetime and object teardown, including `~TcpServer` destroying live connections.
- Connections put back into the kernel's list after their close: what happens to them beyond the two failing asserts of `UnsafeIffPutsBack` and `DestroyFailsIff` is not described.
- `stopRead` and `startRead` take effect in one step: called from another thread they are functors, which any later point of a run stands for.
- The test of the state in `send` from another thread: `RemoteSend` is the push alone, in any state after establishment, so its runs include those where the state moved on after the test and some that the test forbids.
- `Connector::start` from another thread (flag set at once, `startInLoop` queued): starts are in the loop thread.
- The race between the test and the store of `state_` when `shutdown` or `forceClose` is called from another thread: each is one atomic step here.
- `forceCloseWithDelay`, retry back-off and timers: the timer calls are commented out in the source, so nothing is delayed.
- `EventLoopThread`, `EventLoopThreadPool`, `RpcServer`: hand-off, round-robin choice and a service table give only easy members.
- 64-bit sizes: `size_t` and the eventfd counter do not overflow here; `int32_t` and the range of call ids are modelled.
- The 16- and 64-bit integer accessors of `Buffer`: same shape as the 32-bit ones.
- In `RpcOverTransport` what a thread does between filing a call and passing it to `send`, and the loop phase in which a read is handled, are free; that only adds runs.
- The 32-bit overflow of `nextConnId_`: numbers are unbounded in `TcpServer`.
- Interleaving inside the classes: `EventLoopObject`, `Connector`, `TcpServer`, `RpcChannel` and `TcpConnection` give one thread's calls; other threads are in the machines `EventLoop`, `Transport`, `ServerLifecycle`, `ClientLoop` and `RpcRun`, which are on values.
- `Poller::poll` itself: the report of events is an action of the machines and the input of `FillActiveChannels`.
- Starting the connector in other states than `StartSafeIff` names: the source leaves that to its callers, so runs do not contain it.
- Messages whose size overflows the `int` arithmetic of `serializeToBuffer`, or that protobuf does not give back: protobuf's own size check and undefined behaviour lie beyond that point, so `Format.sendable` keeps them out of runs.
- Connections whose loop was told to quit, in `EveryCallCanComplete`: work queued behind a quit is never run.
