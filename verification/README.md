# A verified model of gumble

gumble is a client library for the Mumble voice chat protocol. This project models the parts of it that keep state or
talk a protocol, and proves properties of them over all inputs, all runs and all reachable states.

| file | what it models |
|---|---|
| `Varint.dfy`, `Bytes.dfy` | the variable-length integers of the Voice data chapter of the Mumble protocol documentation |
| `Conn.dfy`, `Writers.dfy` | framing of packets on the connection: one reader, any number of concurrent writers |
| `Audio.dfy` | the outgoing audio pipeline, the audio packet and its parse at the other end |
| `RpwMutex.dfy`, `RpwCalls.dfy` | the reader-preferred lock, with any number of threads |
| `Stream.dfy`, `StreamCalls.dfy` | play, pause and stop of an ffmpeg stream, with any number of callers |
| `Listeners.dfy` | the intrusive listener list and its dispatch loop, under callbacks that change the list |
| `Ping.dfy` | the window of ping times and its statistics |
| `Acl.dfy` | translation of access control lists to packets and back |
| `Mirror.dfy`, `MirrorClient.dfy` | the client's mirror of the server: channels, users, links, permissions |
| `MirrorInv.dfy`, `MirrorTree.dfy`, `MirrorLinks.dfy`, `MirrorPopulation.dfy`, `MirrorEvents.dfy` | what every run of the mirror's handlers keeps |
| `MirrorPackets.dfy`, `MirrorExact.dfy`, `MirrorHistory.dfy` | what each packet does, field by field, and what a run of packets leaves in every field |
| `Counting.dfy` | counting threads at a point, for the two concurrent protocols |

**The mirror.** `Mirror` has the classes `Channel` and `User` and a value type `State` that records the fields of every
such object ever made, removed ones included, so stale pointers are part of the model. Each handler is a function on
states. `MirrorClient` has the handlers as methods that assign to the objects' fields, loop over their maps in any
order and collect the event bits field by field; each is proved to leave exactly the state its function gives and to
return exactly its events. `ReceiveAll` calls them for any sequence of packets, and the states it passes through are a
run of the functions. `MirrorPackets` says what each packet does in terms of the packet and the records before and after
alone, and `MirrorExact` that this and the invariant leave nothing open. The other mirror modules prove what runs of
these functions keep. A run starts with an empty mirror and handles any packets; the read loop ignores a handler's error
(`gumble/client.go:281-289`), so a run goes on after one, and ends only where a handler blocks or panics. Where a
property fails for some packets, the project states exactly which packets a client must not receive, as a condition on
the state and packet before the call, and proves both directions: `Considerate` (population), `Loops` (acyclicity),
`Balanced` (links), `Unannounced` (events).

**Protocols.** The lock and the stream are step systems: a map from thread to program point, one atomic operation per
step, and a relation between consecutive states. The writers on a connection are a third: each writes its chunks while
it holds the lock.

Integers that wrap or are cut to a width in the source do so in the model. Ping statistics are over `real`; positions
are opaque 32-bit words.

Where the code does less than its comments say, the model follows the code:

- `Encode` does not come back for the least 64-bit integer: its negation is itself (`Varint.Encode`).
- The audio parse has no check against a negative length (`Audio.ParsePanics`).
- A UserState that names an unknown channel locks a mutex it already holds (`MirrorInv.StuckHandler`).
- A second ServerSync closes a channel that is already closed, which panics (`MirrorInv.HandlerReturns`).
- The full `links` list of a ChannelState changes one end only (`MirrorLinks.OneSided`).
- With two siblings of one name, `Find` may return nil although the path exists (`MirrorTree.FindMayMiss`).
- Permission changes are reported before synchronisation too, when nothing else is (`MirrorPackets.SilentUntilSynced`).
- A ChannelState may move a channel under itself, after which `ChannelPath` does not end (`MirrorTree.WalksEnd`).
- `Detach` of an item leaves its own pointers, so the walk may call a detached item: exactly when some callback, with
  its own item detached, detaches the item that one points to. The order and completeness of the walk do not suffer
  (`Listeners.Listeners.Dispatch`).
- A Pause whose stream stops first can wait for ever (`Stream.PauseCanHang`; `Stream.PauseReturns` says exactly when).
- Inherited flags, inherited members and user names of an access control list are not sent, and read as true, none and
  empty (`Acl.RoundTrip`).
- The ping counter wraps to zero after 2^32 replies, and that reply indexes slot -1 (`Ping.Stats.Handle`).

## Model

| member | source | states |
|---|---|---|
| `Varint.Encode` | gumble/varint/write.go:13-64 | writes the encoding and nothing else into the buffer; succeeds exactly when the value is not the least int64 and the bytes fit; for the least int64 fills the rest with the negation tag |
| `Varint.RoundTrip` | gumble/varint/read.go:11-52 | decoding an encoding followed by anything gives the value and the length written, which is 1 to 10 |
| `Varint.DecodeIsLocal` | gumble/varint/read.go:15-49 | a successful decode consumes at most the bytes given and depends only on those it consumes |
| `Varint.DecodeFollowsTable` | gumble/varint/read.go:11-52 | on all bytes, whoever wrote them, Decode gives what the protocol's table of leading bits says, failures included |
| `Varint.PrefixFree` | gumble/varint/write.go:13-64 | no encoding is a prefix of another |
| `Varint.CostIsLowerBound` | gumble/varint/read.go:15-49 | no bytes that decode to a value, nested negations included, are shorter than that value's cost |
| `Varint.CostIsAttained` | gumble/varint/read.go:15-49 | some bytes decode to the value at exactly its cost |
| `Varint.EncodingIsShortest` | gumble/varint/write.go:13-64 | encodings of small and of 64-bit values meet the bound |
| `Varint.Minimality` | gumble/varint/write.go:13-64 | encoding is shortest exactly for -(2^31-1) to 2^31-1 and from 2^32 up |
| `Varint.EncodingForm` | gumble/varint/write.go:13-64 | the length of each encoding by the size of the value, and no spare bit of the first byte set |
| `Conn.ReadBack` | gumble/conn.go:43-62 | a frame reads back as itself exactly when its payload is within the limit and its length fits 32 bits |
| `Conn.ReadIsFrame` | gumble/conn.go:43-62 | whatever bytes a packet is read from, they are its frame and the rest |
| `Conn.HeaderLayout` | gumble/conn.go:128-136 | the six header bytes, each by its place value, most significant first |
| `Conn.PositionLayout` | gumble/conn.go:100-110 | the twelve position bytes, each word least significant byte first |
| `Conn.PartialFrameFails` | gumble/conn.go:43-62 | a connection that ends inside a frame yields nothing for it |
| `Conn.ReadAllFrames` | gumble/conn.go:43-62 | repeated reads of whole frames give exactly the packets |
| `Conn.Conn.ReadPacket` | gumble/conn.go:43-62 | the reused, possibly longer buffer holds exactly the payload the specification reads; errors agree |
| `Conn.Conn.ReadLoop` | gumble/client.go:281-289 | the read loop hands on exactly the packets of the bytes that arrive |
| `Conn.Conn.WriteHeader` | gumble/conn.go:128-136 | the six header bytes, whole or cut short by a write error |
| `Conn.Conn.WritePacket` | gumble/conn.go:116-126 | the bytes added are a whole frame, or a prefix of it if a write fails; the lock is released |
| `Conn.Conn.WriteAudio` | gumble/conn.go:65-113 | the bytes added are the frame of the audio packet or after an error a prefix of it; with a nil Y or Z behind a set X, the frame cut where that word would be; nothing for a sequence that cannot be encoded |
| `Conn.Conn.BuildAudioHeader` | gumble/conn.go:66-80 | tag byte, sequence and length with terminator, or a panic for a sequence that cannot be encoded |
| `Conn.TagByte` | gumble/conn.go:67 | the tag byte's low five bits are the target's, its type is the format exactly when the target adds no bit to it, and for a target below 32 it is both side by side |
| `Writers.PacketJobIsFrame` | gumble/conn.go:116-126 | the chunks WritePacket writes join to the packet's frame |
| `Writers.AudioJobIsFrame` | gumble/conn.go:87-113 | the chunks WriteAudio writes join to the audio packet's frame |
| `Writers.BehaviorKeepsInv` | gumble/conn.go:87-136 | in every state of every run of any writers, the bytes out are accounted for by completed calls and the lock holder's progress |
| `Writers.WholeFrames` | gumble/conn.go:87-136 | those bytes are whole frames and a prefix of at most one more |
| `Writers.PeerReadsWhatWasWritten` | gumble/conn.go:43-136 | a peer that reads them gets exactly the completed packets in order, plus the one in progress if its last byte is out |
| `Writers.ReadInsideFrame` | gumble/conn.go:43-62 | what a peer reads from whole frames and a proper prefix of another |
| `Audio.ParsePanics` | gumble/handlers.go:79-135 | the parse leaves its buffer exactly on an Opus packet of a known sender with a decoder or a codec whose sequence and length decode and whose length is negative |
| `Audio.ParseRefuses` | gumble/handlers.go:79-112 | the exact packets refused for their type, and for want of a decoder and a codec |
| `Audio.ShortestPanic` | gumble/handlers.go:79-135 | a concrete packet of that kind |
| `Audio.PositionRoundTrip` | gumble/handlers.go:149-157 | twelve trailing bytes give back the three position words |
| `Audio.PartsAreHeard` | gumble/handlers.go:79-157 | every Opus packet made of a type byte, three numbers in any spelling, data of the announced length and a tail is heard with exactly its sender, target and data, and with a position exactly for a tail of twelve bytes |
| `Audio.HeardHasParts` | gumble/handlers.go:79-157 | and only such packets are heard |
| `Audio.TunnelRecovers` | gumble/handlers.go:79-157 | an audio packet relayed with any bytes that decode to a known session is heard with its target, data and position exactly when the target is below 32 and bit 13 of the length is clear |
| `Audio.EncodingSpells` | gumble/varint/write.go:13-64 | the bytes Encode writes for a session are bytes that decode to it |
| `Audio.WriteAudio` | gumble/audio.go:53-73 | nothing goes out for a buffer that does not encode; otherwise the frame of its call, or after a write error a prefix of it |
| `Audio.AudioOutgoing` | gumble/client.go:226-241 | each buffer one late, a prefix of the frame of each call goes out, in order, failed writes included; without failures exactly the frames |
| `Audio.CallsOfCleanStream` | gumble/client.go:226-241 | one call per buffer, in order, numbered mod 2^31-1, final only for the last |
| `Audio.CallsOfAnyStream` | gumble/client.go:226-241 | the calls of any stream, failed encodings included: each has the number of its buffer, and the last buffer's is final |
| `Audio.IndexIsCalled` | gumble/client.go:226-241 | they are those of the buffers that encode, but for a nil last one |
| `Audio.IndicesIncrease` | gumble/client.go:226-241 | in the order of the buffers |
| `Audio.CallArrives` | gumble/handlers.go:79-157 | the packet of a call whose length leaves bit 13 free, relayed with any bytes of a known session, is heard as that call |
| `Audio.EndToEnd` | gumble/client.go:226-241 | for any stream of buffers that are non-nil and encode to less than 0x2000 bytes, and a target below 32, a peer reads one packet per buffer, and the j-th, relayed, is heard with number j mod 2^31-1, the terminator on the last only, and exactly its data |
| `RpwMutex.GoKeepsInv` | gumble/rpwmutex.go:12-36 | every step keeps the lock's invariant and none unlocks a free mutex |
| `RpwMutex.BehaviorKeepsInv` | gumble/rpwmutex.go:12-36 | the invariant holds in every reachable state |
| `RpwMutex.MutualExclusion` | gumble/rpwmutex.go:12-36 | no writer overlaps a reader or another writer; n counts the threads between increment and decrement; w belongs to one writer or to the readers together, never both |
| `RpwMutex.WaitingReader` | gumble/rpwmutex.go:20-27 | a reader that waits for w holding r is the only one counted, and the writer it waits for can step |
| `RpwMutex.ReadersDoNotWaitForW` | gumble/rpwmutex.go:20-27 | while a reader is inside, no RLock is at or goes to the lock of w |
| `RpwMutex.NoDeadlock` | gumble/rpwmutex.go:12-36 | unless all are idle, some thread can step |
| `RpwMutex.EveryScheduleDrains` | gumble/rpwmutex.go:12-36 | with no new calls every schedule ends within a bound, and only with all idle and both mutexes free |
| `RpwCalls.LockWrites` | gumble/rpwmutex.go:12-18 | in every run, a thread that calls Lock and is idle again comes out of the writer section and was never a reader |
| `RpwCalls.RLockReads` | gumble/rpwmutex.go:20-36 | one that calls RLock has been in the reader section and never in the writer section |
| `Stream.StepTallies` | gumbleffmpeg/stream.go:66-203 | every atomic step changes the fields in step with the counts of goroutines at its points |
| `Stream.BehaviorKeepsInv` | gumbleffmpeg/stream.go:66-203 | the stream's invariant holds in every interleaving |
| `Stream.Conservation` | gumbleffmpeg/stream.go:66-187 | until stopped, live process goroutines equal pending pauses plus one if playing |
| `Stream.BalancedWhenFree` | gumbleffmpeg/stream.go:66-203 | with the lock free, the WaitGroup count and the open sources are 1 exactly while playing or paused |
| `Stream.NeverFatal` | gumbleffmpeg/stream.go:66-203 | no interleaving frees a free lock, uses a nil command or takes the WaitGroup below zero |
| `Stream.CleanupOnce` | gumbleffmpeg/stream.go:189-203 | the cleanup body runs at most once, and a Stop that waits finds the count at zero |
| `Stream.StoppedIsFinal` | gumbleffmpeg/stream.go:132-203 | stopped is absorbing and no process goroutine starts after it |
| `Stream.PauseReturns` | gumbleffmpeg/stream.go:119-187 | in every reachable state, a pending pause can return in some continuation exactly if a process goroutine is still in its loop, or the stream has not stopped and no goroutine is in Stop's or the cleanup's part under the lock; otherwise it waits in all |
| `Stream.PauseCanHang` | gumbleffmpeg/stream.go:119-203 | a run from the start, of one play, one failed read and one pause, that ends with the pause waiting for ever |
| `StreamCalls.FramesFlow` | gumbleffmpeg/stream.go:153-187 | in every run each process sends every frame it has read whole, once, before it reads the next, and nothing else |
| `StreamCalls.LeavesLoop` | gumbleffmpeg/stream.go:167-187 | a process leaves its loop exactly when it receives a pause, and returns, or fails a read, and goes to the cleanup |
| `StreamCalls.FailedReadStops` | gumbleffmpeg/stream.go:173-203 | after a failed read it stays in the cleanup until it returns, and then the stream has stopped |
| `StreamCalls.NeverStopsUnasked` | gumbleffmpeg/stream.go:132-203 | a stream has stopped only if Stop was called or a read failed |
| `StreamCalls.PlayOutcome` | gumbleffmpeg/stream.go:66-108 | Play returns no error exactly if the stream was paused, or new and all its calls succeed; then the stream plays and one process has started, otherwise the state is as before and none has; a new stream whose Play fails holds no source |
| `StreamCalls.PauseOutcome` | gumbleffmpeg/stream.go:119-129 | a Pause of a playing stream pauses it and returns only by handing its pause to a process, which returns; any other fails at once and changes nothing |
| `StreamCalls.StopOutcome` | gumbleffmpeg/stream.go:132-142 | a Stop of a playing or paused stream returns with it stopped, cleaned up once and the WaitGroup at zero; any other fails at once and changes nothing |
| `StreamCalls.KindIsKept` | gumbleffmpeg/stream.go:66-203 | a caller never becomes a process goroutine, nor the other way round |
| `StreamCalls.BehaviorHasTrace` | gumbleffmpeg/stream.go:66-203 | every interleaving has the actions that these statements speak of |
| `Listeners.Listeners.Attach` | gumble/listeners.go:29-43 | appends one new item and keeps the list linked |
| `Listeners.EventItem.Detach` | gumble/listeners.go:9-20 | takes out exactly its own item and keeps the list linked; its own pointers stay |
| `Listeners.Listeners.Callback` | gumble/listeners.go:9-43 | whatever a callback attaches and detaches, every item of the walk still leads to a later one and past no item attached throughout; the log of what it did gives the list and every pointer; if the log has it detach the item that its own detached item points to, the walk goes on to a detached item, and otherwise from attached to attached |
| `Listeners.Listeners.DetachBoth` | gumble/listeners.go:9-20 | detaching an item and then its successor leaves the first pointing at a detached item |
| `Listeners.Listeners.Dispatch` | gumble/listeners.go:45-53 | under any callbacks, a walk calls every item attached throughout, once, in attach order, and none detached before; the lock is balanced; a log of the attaches, detaches and calls, from which the final list and the items called follow, shows each item attached when called exactly if no callback detaches the item that its own item, already detached, points to |
| `Ping.Stats.Handle` | gumble/handlers.go:185-224 | after each timestamped reply the published average and variance are those of the window, up to 2^32 replies, and when every reply is timestamped those of the latest twelve samples, which fill the first slots in order; panics exactly when the counter wraps |
| `Ping.WindowOfSamples` | gumble/handlers.go:193-206 | when every reply is timestamped the window is the latest twelve samples, in order |
| `Ping.ValuesOfReplies` | gumble/handlers.go:191-206 | for any replies: each of the first twelve has its slot, at zero without a timestamp, and after them only timed replies enter |
| `Ping.EnterExtendsWindow` | gumble/handlers.go:196-206 | the shifted array refines a queue of the last twelve values |
| `Ping.Shift` | gumble/handlers.go:197-202 | every entry moves one slot down |
| `Ping.Publish` | gumble/handlers.go:208-221 | the two loops compute mean and variance of the filled slots |
| `Ping.MeanBetween` | gumble/handlers.go:208-212 | the average lies between any bounds of the window |
| `Ping.VarianceIdentity` | gumble/handlers.go:214-218 | the variance is the mean square less the squared mean |
| `Ping.VarianceSign` | gumble/handlers.go:214-218 | it is never negative, and zero exactly when all entries are the mean |
| `Acl.ListIds` | gumble/acl.go:37-42 | lists the ids of a user map, each entry once, in any order |
| `Acl.WriteMessage` | gumble/acl.go:20-61 | the packet carries channel, inherit flag, groups and rules in order |
| `Acl.FindGroup` | gumble/handlers.go:834-847 | the first group with the rule's name, or a new one |
| `Acl.HandleACL` | gumble/handlers.go:767-854 | an error exactly when the channel is missing or unknown, otherwise the list the packet says |
| `Acl.RoundTrip` | gumble/handlers.go:767-854 | what is read from what was written is the same list, but for what no packet carries, exactly when every rule has 32-bit permissions, at most one subject and an unambiguous group; the inherited flags read as true, the inherited members as none and the user names as empty |
| `Acl.ReadFields` | gumble/handlers.go:767-854 | what any packet, not only one of this client's, is read as: flags default to true, permissions to zero, members under their ids, inherited ones included; a rule's group is the first of its name or a new one with nothing set |
| `Acl.WriteBack` | gumble/acl.go:20-61 | writing what was read sends the packet's groups, members and rules again, defaults spelled out and the group of a rule with a user dropped |
| `Acl.ReadIsValid` | gumble/handlers.go:834-847 | a list that was read points to groups of its own only |
| `MirrorClient.Client.constructor` | gumble/client.go:113-125 | a new client's mirror is empty and consistent |
| `MirrorClient.Client.HandleChannelRemove` | gumble/handlers.go:280-322 | fails on a missing or unknown id, else leaves the state and event of the specification; keeps the mirror consistent |
| `MirrorClient.Client.ForgetLinksTo` | gumble/handlers.go:306-308 | every linked channel drops the id, whatever the order of the loop |
| `MirrorClient.Client.HandleChannelState` | gumble/handlers.go:324-424 | creates or updates the channel, in place, to the state of the specification with exactly its event bits |
| `MirrorClient.Client.Place` | gumble/handlers.go:349-361 | moves the channel between the child maps of its old and new parent |
| `MirrorClient.Client.Relist` | gumble/handlers.go:368-376 | the full list replaces the links by its known ids |
| `MirrorClient.Client.AddLinks` | gumble/handlers.go:377-383 | links both ends of every known id |
| `MirrorClient.Client.DropLinks` | gumble/handlers.go:384-390 | unlinks both ends of every known id |
| `MirrorClient.Revise` | gumble/handlers.go:391-415 | description and hash displace each other, a hash wins; limit, position and temporary are the packet's or as before; and exactly the bits of the specification |
| `MirrorClient.Client.HandleUserRemove` | gumble/handlers.go:426-484 | fails on a missing or unknown session or actor, else removes the user with exactly the right bits |
| `MirrorClient.Client.HandleUserState` | gumble/handlers.go:486-637 | creates or updates the user, in place, to the state of the specification with exactly its event bits, or blocks |
| `MirrorClient.Client.Arrive` | gumble/handlers.go:502-517 | an unknown session becomes a user in the root channel, or in none if there is no root |
| `MirrorClient.Client.Rehouse` | gumble/handlers.go:547-561 | leaves the old channel and enters the packet's, or leaves only and blocks |
| `MirrorClient.ReviseIdentity` | gumble/handlers.go:528-546 | name and user id are the packet's or as before, for new users too; the greatest id unregisters a known user that has another |
| `MirrorClient.ReviseAudio` | gumble/handlers.go:562-591 | each of the five flags is the packet's or as before, and a change is reported exactly if there is one |
| `MirrorClient.ReviseBlobs` | gumble/handlers.go:592-616 | texture and comment displace their hashes and are displaced by them; the certificate hash is the packet's or as before |
| `MirrorClient.Client.HandlePermissionQuery` | gumble/handlers.go:996-1043 | flush and single grant, with events in the order of the map iteration |
| `MirrorClient.Client.HandleServerSync` | gumble/handlers.go:249-278 | sets the client's own user and the synchronised state, and panics exactly if it was synchronised before |
| `MirrorClient.Client.ReceiveAll` | gumble/client.go:281-289 | a new client handles any packets in turn, up to the first whose handler blocks or panics, through the states of a run of the specification, and ends in the last of them |
| `MirrorClient.Client.ChannelPath` | gumbleutil/channel.go:9-18 | terminates wherever the walk up ends, with the names from the top to the channel |
| `MirrorClient.Reverse` | gumbleutil/channel.go:14-16 | the swap loop reverses the pieces |
| `MirrorClient.Client.Find` | gumble/channel.go:114-124 | returns one of the results that some map order allows |
| `MirrorClient.Client.FindFromRoot` | gumble/channels.go:22-28 | the same from the root, null without one |
| `MirrorInv.StepKeepsInv` | gumble/handlers.go:249-637 | every handler that returns, with or without an error, keeps membership exact both ways, the tree exact both ways, back pointers set exactly on registered objects, and cached ids known |
| `MirrorInv.RunKeepsInv` | gumble/handlers.go:249-637 | so after every run |
| `MirrorInv.MoveUserKeepsInv` | gumble/handlers.go:547-561 | moving a user, from a removed channel too, keeps it |
| `MirrorInv.ReparentKeepsInv` | gumble/handlers.go:349-361 | moving a channel anywhere, itself included, keeps it |
| `MirrorInv.RemoveChannelKeepsInv` | gumble/handlers.go:290-311 | removing a channel that others still point to keeps it |
| `MirrorInv.UserStateKeepsInv` | gumble/handlers.go:486-637 | early error exits of a UserState, after the user is created, keep it |
| `MirrorInv.StuckHandler` | gumble/handlers.go:547-555 | a handler blocks exactly on a UserState that reaches an unknown channel, and then membership is broken exactly if the user had a channel |
| `MirrorInv.HandlerReturns` | gumble/handlers.go:249-637 | a handler returns exactly unless it gets such a UserState or a second ServerSync, and panics exactly on the latter |
| `MirrorPopulation.PopulationCounts` | gumble/handlers.go:280-637 | the user maps of any set of channels hold as many users as are in those channels |
| `MirrorPopulation.Conservation` | gumble/handlers.go:280-637 | the live channels' user counts add up to the number of users exactly when every user is in a live channel |
| `MirrorPopulation.StepSettles` | gumble/handlers.go:280-637 | a step keeps that exactly when it removes no occupied channel and creates no user without a root |
| `MirrorPopulation.UserBeforeRoot` | gumble/handlers.go:502-517 | a user that comes before the root leaves the mirror consistent and the counts short |
| `MirrorPopulation.OccupiedChannelRemoved` | gumble/handlers.go:280-322 | so does removing a channel with a user in it |
| `MirrorPopulation.RunConserves` | gumble/handlers.go:280-637 | so the counts add up in every state of every such run |
| `MirrorTree.MoveKeepsAcyclic` | gumble/handlers.go:349-361 | a move keeps the Parent relation acyclic exactly when the new parent is not in the moved subtree |
| `MirrorTree.StepAcyclic` | gumble/handlers.go:280-637 | a step keeps it exactly when it is not such a move, new channels included |
| `MirrorTree.OwnParent` | gumble/handlers.go:340-361 | a first ChannelState whose parent is its own id makes a cycle |
| `MirrorTree.RunAcyclic` | gumble/handlers.go:280-637 | so the relation is acyclic in every state of every run without such moves |
| `MirrorTree.WalkIsShort` | gumbleutil/channel.go:11-13 | on an acyclic mirror a walk up takes at most as many steps as there are channels |
| `MirrorTree.WalksEnd` | gumbleutil/channel.go:11-13 | walks from all channels end exactly when the relation is acyclic |
| `MirrorTree.FindIsSound` | gumble/channel.go:114-124 | whatever Find returns lies at the named path, read back over Parent pointers |
| `MirrorTree.PathRoundTrip` | gumble/channels.go:22-28 | with unique names among the children of each live channel, Find of a channel's path below the root gives that channel and nothing else |
| `MirrorTree.FindIsExact` | gumble/channel.go:114-124 | with unique names among siblings Find gives the channel with the path if there is one, and nil exactly if there is none |
| `MirrorTree.FindMayMiss` | gumble/channel.go:114-124 | below one of two namesakes it may give up, with nil and the channel both possible |
| `MirrorLinks.RelinkedAt` | gumble/handlers.go:368-390 | the links of every channel after a packet: own links replaced, added to, removed from; other ends touched by add and remove only, and removal wins |
| `MirrorLinks.UpdateSymmetric` | gumble/handlers.go:368-390 | links stay mutual exactly when a full list, if any, agrees with the other ends that nothing else in the packet touches |
| `MirrorLinks.RemovalSymmetric` | gumble/handlers.go:306-308 | a removed channel is linked from no live one |
| `MirrorLinks.StepSymmetric` | gumble/handlers.go:280-637 | every step keeps links mutual and between live channels, exactly unless it carries a disagreeing list |
| `MirrorLinks.RunSymmetric` | gumble/handlers.go:280-637 | so after every run without one |
| `MirrorLinks.OneSided` | gumble/handlers.go:368-376 | a full list that names an unlinked channel breaks symmetry |
| `MirrorLinks.SyncPassLinks` | gumble/handlers.go:368-376 | after a pass of full lists, in any order, each listed channel has exactly its list and the others what they had |
| `MirrorLinks.SyncPassSymmetric` | gumble/handlers.go:368-376 | a pass that sends a symmetric relation over unlinked channels ends with links exactly that relation |
| `MirrorEvents.BitsAreComplete` | gumble/handlers.go:519-628 | the bits of an update name every viewed field that it changes |
| `MirrorEvents.BitsAreExact` | gumble/handlers.go:519-628 | name, channel, audio, priority and recording bits are set exactly on a change |
| `MirrorEvents.CommentHashBit` | gumble/handlers.go:597-611 | the comment hash changes unreported exactly when the packet repeats the comment and a hash was set |
| `MirrorEvents.UpdatedChannel` | gumble/handlers.go:340-415 | after a ChannelState the packet's channel, created or known, has the packet's name, description or hash, limit, position, temporary flag and parent, and otherwise what it had; every other channel has what it had |
| `MirrorEvents.ChannelBits` | gumble/handlers.go:340-415 | every bit of the event of a created or known channel: moved, name and position exactly on a change, links, description and limit as the packet says, and none of these three changes without its bit |
| `MirrorEvents.DescriptionHashBit` | gumble/handlers.go:391-411 | the description hash changes unreported exactly when the packet repeats the description and a hash was set |
| `MirrorEvents.StepFaithful` | gumble/handlers.go:426-637 | a shadow of the users kept by event bits alone stays equal to the mirror, exactly unless a user is created without an event |
| `MirrorEvents.SilentUser` | gumble/handlers.go:502-517 | the first user after a synchronisation without a root is missing from the shadow |
| `MirrorEvents.RunFaithful` | gumble/handlers.go:426-637 | so throughout every synchronised run without such a user |
| `MirrorEvents.FlushReportsLiveChannels` | gumble/handlers.go:1002-1040 | a flush reports each cached channel once, in the order of the iteration, all live, then the packet's; the cache then holds that one or nothing |
| `MirrorPackets.ChannelRemoved` | gumble/handlers.go:280-322 | fails without effect on a missing or unknown id; else the id, its permissions and the links to it from its linked channels are gone, nothing else changes, and one event says so |
| `MirrorPackets.ChannelUpdated` | gumble/handlers.go:324-424 | the whole effect of a ChannelState: the channel made or found, its fields, parent and links, the other ends of links, and the event with exactly its bits |
| `MirrorPackets.UserRemoved` | gumble/handlers.go:426-484 | fails without effect on a missing or unknown session or actor; else the user is gone, the event is Kicked exactly with an actor and Banned exactly on a ban, with the packet's actor and reason, and the client's own removal sets its disconnect reason |
| `MirrorPackets.UserUpdated` | gumble/handlers.go:486-637 | the whole effect of a UserState, for new and known users: every field of the packet and none other is written, by the hash and unregistering rules; refused updates leave a new user with nothing set; the event has the packet's actor and exactly its bits |
| `MirrorPackets.PermissionsQueried` | gumble/handlers.go:996-1043 | fails without effect on an unknown id with a value; else the cache is the old one, or none if flushed, with the packet's value under its id, and the dropped channels and the packet's are reported in order |
| `MirrorPackets.StepEffect` | gumble/handlers.go:249-637 | so every handler has the effect of its packet, ServerSync included: it makes the session's user, or none, the client's own |
| `MirrorPackets.SilentUntilSynced` | gumble/handlers.go:313-321 | but for permissions, a packet that is accepted causes one event after synchronisation and none before |
| `MirrorExact.MirrorDetermined` | gumble/handlers.go:249-637 | two consistent mirrors with the same users and the same names, parents, links and descriptions of channels are the same |
| `MirrorExact.EffectIsExact` | gumble/handlers.go:249-637 | of the outcomes with a consistent mirror, exactly the handler's has the effect of the packet |
| `MirrorHistory.FieldIsLatest` | gumble/handlers.go:486-637 | in every state of every run, any field that updates overwrite is the latest sent for the session since its user connected |
| `MirrorHistory.UserIsLatest` | gumble/handlers.go:486-591 | so are the name and the five audio flags of every user |
| `MirrorHistory.UserDetailsAreLatest` | gumble/handlers.go:592-628 | and priority, recording, hash, comment and texture, where a hash counts as sending empty contents and contents as sending no hash |
| `MirrorHistory.UserIdIsLatest` | gumble/handlers.go:534-546 | the user id is the latest sent, or zero where the greatest id was sent for a user that had another |
| `MirrorHistory.UserIsWhereSent` | gumble/handlers.go:502-561 | every user is in the channel that was last sent for it, removed since or not, or in the root as it was when the user came |
| `MirrorHistory.ChannelIsLatest` | gumble/handlers.go:324-424 | and name, description, limit, position and temporary flag of every channel since it was created |

## Left out

- Protobuf marshalling and the generated getters: packets are datatypes with optional fields, and an empty repeated field is an absent one.
- TLS dialing, timers, deadlines, the UDP ping and version packing (`gumble/client.go`, `gumble/ping.go`): I/O and wall-clock plumbing.
- Opus, OpenAL and ffmpeg processes: an encoder is any function that yields bytes or fails; the pipe of a stream yields a frame or fails at each step.
- The list of audio listeners (`gumble/audiolisteners.go`): its Attach never advances a tail that is set; dispatch is proved for the event listeners.
- Delivery of decoded audio to listener channels (`gumble/handlers.go:159-176`).
- Handlers that copy fields into an event: text messages, ban lists, user lists, user statistics, configuration, context actions, rejects, permission denials.
- Requests on users, channels and voice targets: each builds one packet.
- The welcome text and bandwidth of a ServerSync, and the connect event.
- Elapsed time, volume and frame contents of a stream; resetting the encoder after the final buffer.
- Data races: the permission handler's lookup before it locks is modelled as part of its one step, as is every other handler.
- Float32 rounding of ping statistics.
- Liveness of Dial. For a Pause, `Stream.PauseReturns` says when it can return, not that a scheduler lets it.
- Parents and links over whole runs, beyond their structure: `MirrorPackets` has them packet by packet.
- The state that a blocked UserState leaves, beyond `MirrorInv.StuckHandler`.
- MirrorEvents.ChannelBits: says nothing of `Temporary`, which has no bit, nor of the links of the other channels in a link packet, which get no event.
- MirrorClient.Client.Find: states membership in the set of possible results, since map order is not determined.
