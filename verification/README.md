# A verified model of gochat

gochat is a chat system in three tiers. The *logic* tier keeps accounts, sessions and room membership in Redis and
publishes messages; the *task* tier takes them from there to the *connect* tier, which holds the users' connections.
This project models the parts of it that carry state or arithmetic, and proves what they keep.

| file | subject |
|---|---|
| `Collections`, `Arithmetic`, `Options` | facts about sets, maps, sequences and quotients that several modules use |
| `Words`, `City32`, `City32Laws`, `City128` | CityHash: wrapping 32- and 64-bit arithmetic, the loops against folds over blocks, and bijections |
| `City32Short`, `City32Long`, `City32Values` | CityHash32 length by length: where keys cannot collide, and the hashes of some users step by step |
| `City128Laws`, `City128Values` | what the rounds of the 64- and 128-bit hashes keep of their state, and what they forget; and one hash of each kind step by step |
| `Decimals` | decimal formatting, which keys and the shard hash are built from |
| `Rooms`, `Connect`, `Buckets`, `Servers` | channels, rooms as intrusive doubly linked lists, buckets and the sharded server, as objects on the heap |
| `Relinking` | what putting a channel does to the lists of a whole set of rooms, when the channel may be in some list already |
| `Sharding`, `Placement` | the sharded directory as values, against one flat map; and how the server on the heap is such a directory |
| `TwoPhasePut` | `Bucket.Put` and `Bucket.DeleteChannel` interleaved at their lock sections |
| `Broadcast`, `RoundRobin` | worker queues, walks over rooms and bounded mailboxes, interleaved; whose turn it is, and how fair that is |
| `Mailboxes`, `Draining` | what the bounded mailboxes keep of the pushes, over whole runs; and that the workers always get done |
| `Redis`, `Keys` | the Redis commands in use on typed maps, and the flat key space that these refine |
| `Presence`, `PresenceSteps` | room membership and its counter: whole calls, and calls interleaved command by command |
| `Sessions`, `SessionSteps` | login sessions over whole runs: whole calls, and calls interleaved command by command |
| `Histories`, `LogicRpc` | user keys and rooms told from the calls made; the procedures of the logic server as methods of one object |
| `Packages`, `Framing` | the TCP package format, and a stream of packages cut into reads in any way |
| `Delivery`, `Losses` | a message to one user, from the logic server to a mailbox; and, told from the steps, where it goes and when it is lost |

Steps of concurrent code are atomic where the source holds a lock or sends one Redis command. `Bucket.DeleteChannel`
and `Room.DeleteChannel` change their structures under a read lock; they are taken as the exclusive sections they are
meant to be. `MULTI` to `EXEC` is one step. Random tokens, generated ids and database keys are parameters that are
new when they are used, and each remote procedure call is applied once. Blocking sends and receives are steps that are
enabled only when they can go on.

## What the code does not keep

These properties, which one would expect, fail, and the model says exactly when.

- A live room can be lost. `Put` gives up the bucket lock before it enters the room. If the room is dropped in
  between, the refused channel keeps pointing to it, and deleting that channel later removes whatever room the same id
  is mapped to by then (`TwoPhasePut.LiveRoomUnmapped`). In any interleaving a live room stops being found exactly when
  a deletion ends in a dropped room whose id leads to a live one (`CoherenceLostExactly`). If users are not put while
  they are mapped, that is exactly when the deleted channel had been refused and the id is mapped again at the start
  of the deletion (`CoherenceLostExactlyBySweep`, `DoomIsSettledAtStart`).
- A room can lose its list. When a user connects again and the first connection ends before the second has joined, the
  deletion takes the second channel, which no list has, and unlinking it overwrites the header
  (`TwoPhasePut.ReconnectLosesList`). Rooms and lists are lost exactly when a deletion unlinks a channel that is not in
  the list of its room while others are (`SoundLostExactly`); it does not happen if users are not put while they are
  mapped (`RunKeepsInv`).
- A member can miss requests for its room. Between two moments at which everything is drained it has received each
  request that was sent to a worker for the room exactly once if and only if none of that worker's lookups of the id
  missed the room (`Broadcast.MemberReceivesExactlyOnce`). Lookups hit the room until its id is unmapped, and miss it
  ever after (`MissesAfterUnmapped`); for a live room this is the loss of the first point, so without that and the
  second nothing is missed (`NothingMissedUnlessSpoilt`). `LiveRoomHearsNothing` is a run in which a member receives
  nothing.
- A connection may send a second connect message, and then its channel is put again. Lists that share no channel are
  left if and only if it was in no list (`Relinking.SpelledExactly`; on the heap `Buckets.Bucket.Put` and
  `Servers.Server.Put`). In the same room the list closes into a cycle (`Relinking.SameRoom`); another room loses the
  members behind the channel and runs on into the room that is entered (`Relinking.SecondRoom`), unless the channel was
  alone in it and the room entered was empty (`Relinking.StaysLinkedExactly`).
- The second message may come with the token of another user. Users are mapped to channels that name them if and only
  if the channel served nobody else (`Servers.Server.Put`); a bucket is as it should be afterwards exactly if this and
  the condition on the lists hold (`Buckets.Bucket.Put`). Otherwise messages to the first user reach the second
  (`Delivery.TakenOverRun`): that is the case exactly from when a channel in use is attached for another user
  (`Delivery.RightLostExactly`). And when a connection ends, the entry of its user goes if and only if the channel
  mapped there still names that user, and the process panics if and only if it names one whom the bucket does not map
  (`Buckets.Bucket.DeleteChannel`; `Buckets.ThreeConnects` is an input on which no list is broken).
- When a user who is in a room connects again, the channel that loses its mapping stays in the list of its room. The
  buckets go on refining one flat map of users if and only if this does not happen (`Sharding.PutRefines`, and on the
  heap `Servers.Server.Put`). The end of the old connection then takes the new channel, since a deletion takes its own
  channel if and only if its user is mapped to it (`TwoPhasePut.TakesOwnExactly`); the old one stays listed and counted
  at every later moment, as long as no deletion loses the list (`TwoPhasePut.EndedStaysListed`).
- Overlapping calls break the session bound. A Login that overwrites an entry naming a live session leaves that
  session with nothing to revoke it, and so does a Logout that deletes such an entry of another Login
  (`SessionSteps.ThreeSessionsByLogins`, `ThreeSessionsByLogout`). Per command, sessions without an entry become more
  exactly in these steps and in a registration (`UnnamedGrowsExactly`); those that no call under way takes back become
  more exactly in the steps that `Leaks` describes (`ChargedGrowsExactly`), and without these the bound holds in every
  interleaving (`BoundUnlessLeaked`). Even without overlap, a Login does not end the session that `Register` opened; and
  two overlapping calls of `Register` for one name open two (`ThreeSessionsByRegisters`), so the bound counts
  registrations.
- Overlapping calls of one user for one room unbalance the counter of the room: it is kept by a command exactly if this
  is no HSET on an existing field, no HDEL on a missing field after a DECR, no HDEL on an existing field without a DECR,
  and no DECR for user zero (`PresenceSteps.BalanceKeptExactly`; runs in `OverlappingConnects` and
  `OverlappingDisConnects`).
- Messages get lost. A push to a full mailbox is dropped, and what waits there stays (`Connect.DeliveredExactly`,
  `Mailboxes.MailboxGrows`). A message to one user is lost if and only if the task server does not know its server, or
  its user has attached no channel there since the last detaching, or the mailbox is full when it is offered
  (`Losses.LostExactly`); every other one reaches the channel that the user had when it was called for
  (`Losses.ReachedUnlessLost`).
- A message to a user whose key is missing, or names a server that the task server does not know, stops the task
  server: it calls a nil client. When nothing is under way any more it is running if and only if every Push has read a
  known server (`Delivery.RunningWhenDrainedExactly`); at any moment it has stopped if and only if a worker has called
  for such a message (`Delivery.StoppedExactly`).
- Turns are not fair over the wrap of the 64-bit counter, unless the number of workers divides 2^64, as the
  configured 32 does (`RoundRobin.FairAcrossWrapExactlyForDivisors`).
- The last package of a stream is not read if its message is empty, because the split function asks for more than
  four bytes; and messages of more than 32763 bytes are lost to the 16-bit length (`Framing.LosslessExactly`).

One remark in the source is not followed: the field comments of `StickPackage` call the length the length of the
message, while the code counts the whole package. The model counts what the code counts.

## Model

| member | source | states |
|---|---|---|
| Words.FetchDeterminesBytes | tools/cityhash.go:113-116 | a little-endian load of four bytes determines them: two keys with equal loads agree on those bytes |
| Words.InverseModulo | tools/cityhash.go:126-133 | multiplying by a constant and then by its inverse modulo n gives the value back |
| Words.RotationsCancel | tools/cityhash.go:144-151 | each rotation in use is undone by the complementary one |
| Words.SwapTwice | tools/cityhash.go:76-82 | swapping the bytes of a word twice is the identity |
| City32.ComputeHash32Len0to4 | tools/cityhash.go:190-200 | the loop over at most four sign-extended bytes computes the fold over the bytes |
| City32.ComputeCityHash32 | tools/cityhash.go:213-291 | for every declared length within the key, the loop stays in bounds, ends, and equals the fold of (length-1)/20 blocks between prologue and epilogue |
| City32Laws.FmixBijective | tools/cityhash.go:126-133 | `fmix` is a bijection of the 32-bit words: an inverse on both sides |
| City32Laws.MurBijective | tools/cityhash.go:166-176 | `mur` is a bijection in each argument with the other one fixed |
| City32Laws.StirBijective | tools/cityhash.go:232-233 | rotate, times five, plus constant is a bijection for each rotation in use |
| City32Laws.ScrambleBijective | tools/cityhash.go:166-169 | the preparation of an input word is a bijection |
| City32Laws.ChainBijectiveInState | tools/cityhash.go:187 | a chain of `mur` over given words is a bijection of its initial state |
| City32Laws.ChainBijectiveInWord | tools/cityhash.go:187 | a chain of `mur` is a bijection of each of its words with the others fixed |
| City32Laws.HashIsChain | tools/cityhash.go:178-211 | at 12 and at 24 bytes the loads are the aligned words of the key, each exactly once, absorbed by one chain |
| City32Laws.HashBijectiveInWord | tools/cityhash.go:178-211 | at 12 and at 24 bytes the hash is a bijection of each aligned word, with the one word for each hash value given |
| City32Laws.NoCollisionInOneWord | tools/cityhash.go:178-211 | two keys of 12 or of 24 bytes that differ in one aligned word collide only if they are equal |
| City32Laws.ChurnInvertible | tools/cityhash.go:249-271 | one block of the long-key loop can be undone when its words are known |
| City32Laws.BlocksInjective | tools/cityhash.go:247-278 | any number of blocks of a key maps different states to different states |
| City32Laws.LongKeyIsCovered | tools/cityhash.go:247-278 | for more than 24 bytes the blocks leave 1 to 20 bytes, and the last 20 bytes, which the prologue reads, cover them |
| City32Laws.HashReadsDeclaredLength | tools/cityhash.go:213-291 | bytes beyond the declared length never change the hash |
| City32Short.HashIsChainOfLoads | tools/cityhash.go:178-211 | for every length from 5 to 24 the hash is one chain of `mur` over three or six loads at given places, and nothing else of the key |
| City32Short.EveryByteIsLoaded | tools/cityhash.go:178-211 | these loads read every byte of the key |
| City32Short.NoCollisionInOneLoad | tools/cityhash.go:178-211 | for every length from 5 to 24: two keys that agree in all loads but one have one hash if and only if they are equal |
| City32Short.NoCollisionInLastWord | tools/cityhash.go:178-211 | for every length from 5 to 24 except 8: two keys with the same words before the last, possibly shorter one have one hash if and only if they are equal |
| City32Short.AccumulatorsAre | tools/cityhash.go:190-199 | for short keys the accumulators are the polynomial of the signed bytes in C1, and 9 xored with its values over the prefixes |
| City32Short.ShortKeysCollideExactly | tools/cityhash.go:190-200 | two keys of the same length up to 4 for which one accumulator is equal have one hash if and only if the other one is equal too |
| City32Short.OneByteShows | tools/cityhash.go:190-199 | keys that differ in exactly one byte differ in the first accumulator |
| City32Long.BlocksShow | tools/cityhash.go:247-278 | whatever the number of blocks: two keys that differ in one word of them leave different accumulators |
| City32Long.WordOfBlocksShows | tools/cityhash.go:217-278 | two keys of more than 24 bytes that differ in one word before the last 20 bytes are still apart before the last mixing |
| City32Long.WordOfEndShows | tools/cityhash.go:217-278 | and so are two that differ in one word at the end that no block reads |
| City32Values.UsersBelow5 | tools/cityhash.go:190-200 | the hashes of the users 0 to 4 |
| City32Values.UsersBelow10 | tools/cityhash.go:190-200 | the hashes of the users 5 to 9 |
| City32Values.HighByteIs | tools/cityhash.go:194-195 | the hash of a key of one byte above 0x7f, which is sign-extended |
| City32Values.User1234 | tools/cityhash.go:190-200 | the hash of user 1234 |
| City32Values.User12345 | tools/cityhash.go:202-211 | the hash of user 12345 |
| City32Values.User12346 | tools/cityhash.go:202-211 | the hash of user 12346 |
| City32Values.User123456789 | tools/cityhash.go:202-211 | the hash of user 123456789 |
| City32Values.User1234567890123 | tools/cityhash.go:178-187 | the hash of user 1234567890123 |
| City32Values.Letters | tools/cityhash.go:222-291 | the hash of the 25 letters from a to y, with its prologue, block and epilogue |
| City128.Loop64 | tools/cityhash.go:437-453 | the loop of CityHash64 is the fold of one 64-byte round over all but the last 1 to 64 bytes |
| City128.ComputeCityHash64 | tools/cityhash.go:419-456 | all four length branches and the loop compute CityHash64, in bounds and with no underflow of the counter |
| City128.ComputeCityMurmur | tools/cityhash.go:466-506 | for every declared length, those included whose int32 is negative, the branch that is taken, and the loop as the fold of one 16-byte round for each started 16 bytes after the first 16 |
| City128.UnrolledLoop | tools/cityhash.go:529-553 | the hand-unrolled loop is exactly 2*(L/128) rounds of CityHash64's loop and leaves L mod 128 bytes |
| City128.TailLoop | tools/cityhash.go:561-572 | the tail is one round for each started 32 bytes of the rest, read backwards from the end of the key |
| City128.ComputeCityHash128WithSeed | tools/cityhash.go:508-582 | the whole hash is the rounds, the change of state, the tail rounds and the finish, for every length and seed |
| City128Laws.RoundForgetsExactly | tools/cityhash.go:437-453 | a 64-byte round forgets exactly one of the seven words of its state: for each value of the second word there is exactly one state, which is given, with the same successor |
| City128Laws.RoundTells | tools/cityhash.go:437-453 | two states have the same successor if and only if they agree in four words, and what the round makes of the first two is equal |
| City128Laws.WeakHashTells | tools/cityhash.go:384-396 | for given words the weak hash is a bijection of its two seeds |
| City128Laws.MurmurRoundsTell | tools/cityhash.go:487-501 | through any number of rounds of CityMurmur different states stay different |
| City128Values.Three | tools/cityhash.go:347-373 | the 64-bit hash of the bytes 0 to 2 |
| City128Values.Five | tools/cityhash.go:347-373 | the 64-bit hash of the bytes 0 to 4 |
| City128Values.Twelve | tools/cityhash.go:347-373 | the 64-bit hash of the bytes 0 to 11 |
| City128Values.Twenty | tools/cityhash.go:375-382 | the 64-bit hash of the bytes 0 to 19 |
| City128Values.Forty | tools/cityhash.go:398-417 | the 64-bit hash of the bytes 0 to 39 |
| City128Values.Seventy | tools/cityhash.go:419-456 | the 64-bit hash of the bytes 0 to 69, with its start, round and finish |
| City128Values.MurmurThree | tools/cityhash.go:466-506 | CityMurmur of the bytes 0 to 2 with a seed |
| City128Values.MurmurTwenty | tools/cityhash.go:466-506 | CityMurmur of the bytes 0 to 19 with a seed |
| City128Values.LongKey | tools/cityhash.go:508-582 | the 128-bit hash of the bytes 0 to 129 with a seed: two rounds, the change of state, one tail round and the finish |
| Decimals.DigitsRoundTrip | connect/server.go:46 | the value of the digits printed for a number is the number |
| Decimals.DecimalInjective | connect/server.go:46 | different integers print differently, so different users give different hash keys and Redis keys |
| Decimals.DecimalLength | tools/commom.go:38-40 | a 64-bit integer prints in at most 20 characters |
| Decimals.BytesOfDigits | connect/server.go:46 | the key of a number is that of its tenth with the last digit appended |
| Rooms.WithoutDistinct | connect/room.go:60-79 | removing a channel from a list without repetitions leaves such a list, without the channel |
| Rooms.PutKeepsConsistent | connect/room.go:33-49 | Put keeps the room consistent if and only if the channel was not in its list or the room had been dropped; a channel joins exactly if the room is live, and no room is dropped or revived |
| Rooms.DeleteExactly | connect/room.go:60-79 | deleting a member or a channel that was never linked keeps the room consistent if and only if it is a member, or the room is dropped, or it has at most one member |
| Rooms.DeleteKeepsConsistent | connect/room.go:60-79 | for a member, and for a channel that the dropped room had refused: exactly that channel is removed, the room is dropped exactly when nobody is left, and a dropped room is not revived |
| Rooms.DeleteUndoesPut | connect/room.go:33-79 | a deletion takes a Put back: list and count are as before |
| Rooms.LeftPointwise | connect/bucket.go:99-104 | leaving changes one room only, and the room goes exactly with its last member |
| Connect.Channel.constructor | connect/channel.go:25-31 | a new channel is linked nowhere and has an empty mailbox |
| Connect.Channel.Push | connect/channel.go:33-39 | below its size the mailbox has the message appended, and at its size it is unchanged |
| Connect.DeliveredExactly | connect/channel.go:33-39 | any sequence of pushes leaves, behind what was waiting, exactly the first ones for which there was a place, in order |
| Connect.DeliveredInTurn | connect/channel.go:33-39 | and it makes no difference how the sequence is divided |
| Connect.Room.constructor | connect/room.go:24-31 | a new room is live, empty and counts zero |
| Connect.Room.Put | connect/room.go:33-49 | any channel is put in front of the list and counted, or refused if the room was dropped; the list stays acyclic, doubly linked and counted if and only if the channel was not in it or the room was dropped |
| Connect.Room.Push | connect/room.go:51-58 | the walk ends and leaves the list as it is; every member whose mailbox is below its size has the message appended once, every other member and everybody else is unchanged |
| Connect.Room.DeleteChannel | connect/room.go:60-79 | for any channel its neighbours are linked to each other and the header is set, wherever they are, and the count and the drop flag follow; a member leaves the list in both directions; with a channel that was never linked the header is cleared, and the room stays as it should be exactly if it was dropped or had at most one member |
| Connect.Room.Unlink | connect/room.go:62-71 | for any channel the writes to its neighbours and to the header; for a member they spell out the list without it, and for a channel that was never linked no list at all |
| Relinking.SpelledExactly | connect/room.go:38-43 | for any set of rooms whose lists share no channel: after any channel has been put in front of one room, the pointers of all of them spell out such lists if and only if the channel had been in none of the lists |
| Relinking.StaysLinkedExactly | connect/room.go:38-43 | of one other room: it is linked as it was if and only if the channel was not in its list, or was alone in it and went to a room without members |
| Relinking.SpelledExactlyInParts | connect/server.go:45-49 | the same if the rooms are spread over several buckets |
| Relinking.SecondRoom | connect/server.go:126-151 | the input: of the three members of a room the middle one is put into another room; the first room loses the third member and its walk runs on into the other room, which is as it should be |
| Relinking.SameRoom | connect/server.go:126-151 | the input: a member is put into its room again, and the walk over the room never ends |
| Buckets.Bucket.constructor | connect/bucket.go:31-43 | a new bucket maps nobody and has no room |
| Buckets.Bucket.Put | connect/bucket.go:65-86 | any channel is mapped to the user, and put in front of its room, which is created if needed; the bucket is as it should be afterwards, with nothing else changed, if and only if the channel served no other user, and was in no list, or in that of its room when put without one; the rooms keep lists that share no channel if and only if it was in none |
| Buckets.Bucket.Index | connect/bucket.go:70-80 | the first lock section, for any channel, maps the user and finds or creates the room, which alone may still be empty |
| Buckets.Bucket.Link | connect/bucket.go:82-84 | the second lock section puts any channel in front of the room, and restores the full invariant if the channel was in no list |
| Buckets.Bucket.DeleteChannel | connect/bucket.go:88-106 | for any channel in any bucket: the channel that its user is mapped to is taken, the entry of the user named by that one goes, so the user's own entry goes if and only if it still names the user, and the source panics if and only if the user named is not mapped; in a bucket as it should be the channel leaves its room, which goes exactly with its last member |
| Buckets.ThreeConnects | connect/bucket.go:94-96 | the input: a user in a room connects again without one, and on that connection another user connects; no list is broken, and the end of the first connection panics |
| Buckets.Bucket.FindChannel | connect/bucket.go:108-113 | the channel of the user, or null if there is none |
| Buckets.Bucket.PushRoom | connect/bucket.go:45-56 | one round of a worker appends the message once for every member of the mapped room whose mailbox is below its size, and changes no other mailbox; nobody is reached if there is no such room |
| Buckets.Bucket.PushToUser | connect/rpc.go:106-107 | the message is appended to the mailbox of the user's channel if that is below its size; nothing else changes, and the bucket keeps its invariant |
| Servers.Routines.BroadcastRoom | connect/bucket.go:115-118 | the counter wraps at 2^64, the turn passes on, and the request is at the end of exactly the queue whose turn it was |
| Servers.Server.constructor | connect/server.go:35-43 | new buckets that share nothing form a server that maps nobody and refines the empty flat one |
| Servers.Server.FindChannel | connect/rpc.go:105-106 | looking up through the hash finds a channel exactly when the server as one flat map has it |
| Servers.Server.Put | connect/server.go:147-149 | any channel is mapped to the user in the bucket of the user's hash; users are mapped to channels that name them if and only if it served no other user, and the rooms of all buckets keep lists that share no channel if and only if it was in none; a new channel changes nothing else, and the server keeps refining the flat one if and only if the user had no channel in a room |
| Servers.Server.Disconnect | connect/server.go:91-107 | on any server: what logic is told, when the process panics, and that the user's own entry goes if and only if the channel mapped there names the user; on a server as it should be that channel is removed through the bucket of its user, and a server that refines the flat one still does |
| Servers.Server.FanOut | connect/rpc.go:117-124 | in a server that refines the flat one, the lists of a room over all buckets hold exactly the channels that are in the room, each once and in the bucket of its user |
| Servers.Server.PushSingleMsg | connect/rpc.go:95-115 | the message is appended to the mailbox of the user's channel if that is below its size, and no other mailbox on the server changes |
| Servers.PushRoomMsg | connect/rpc.go:117-145 | the request is queued once in every bucket, each in its own turn |
| Sharding.EmptyRefines | connect/server.go:35-43 | empty buckets refine the empty flat map |
| Sharding.PutRefines | connect/server.go:45-49 | putting a new channel keeps the refinement of one flat directory exactly if its user is in no room already |
| Sharding.DeleteRefines | connect/bucket.go:88-106 | deleting a user always keeps the refinement |
| Sharding.LookupRefines | connect/rpc.go:105-106 | the sharded lookup equals the flat one for every user |
| Sharding.FanOutReachesRoom | connect/rpc.go:117-124 | the lists of a room over all buckets are together exactly the flat room, each channel once |
| Sharding.RunRefines | connect/bucket.go:65-106 | any sequence of admissible puts and deletions on the shards refines the same sequence on the flat map |
| Sharding.OneLoadApart | connect/server.go:45-49 | with as many buckets as hashes: users of the same number of characters, from 5 to 24, whose keys agree in all loads but one share a bucket if and only if they are one user; for 12 characters the loads are the aligned words |
| Sharding.NeighboursApart | connect/server.go:45-49 | with as many buckets as hashes: users of 5 to 20 digits, except 8, that differ in the last digit only share a bucket if and only if they are one user |
| Sharding.DigitUsersApart | connect/server.go:45-49 | and no two of the users 0 to 9 share one |
| Sharding.BucketsOfUsers | connect/server.go:45-49 | of the four configured buckets user 12345 is in the second one and user 12346 in the first |
| Placement.PutImages | connect/bucket.go:65-86 | Put of a new channel object, seen as a value, is Put on the values: nothing else changes its place |
| Placement.DeleteImages | connect/bucket.go:88-106 | and so is the deletion of a user out of the room that the user's channel names |
| Placement.PutExactly | connect/server.go:147-149 | carried over to objects: Put keeps the refinement if and only if the user had no channel in a room |
| Placement.ListedExactly | connect/rpc.go:117-124 | carried over to objects: a bucket lists in a room exactly the channels of its users that are in the room |
| TwoPhasePut.SoundLostExactly | connect/room.go:62-71 | in every state of every interleaving of any calls on new channels, reconnects included: a step breaks a room or its list if and only if it unlinks a channel that is not in the list of its room while others are |
| TwoPhasePut.RunKeepsSound | connect/bucket.go:65-106 | in every interleaving of any calls on new channels, rooms and lists are sound as long as no such step was made |
| TwoPhasePut.CoherenceLostExactly | connect/bucket.go:99-104 | in every state of every interleaving of any calls on new channels: a step makes a live room unfindable if and only if it ends a deletion in a dropped room whose id is mapped to a live one |
| TwoPhasePut.RunKeepsLiveMapped | connect/bucket.go:65-106 | in every interleaving of any calls on new channels without a step of these two kinds every live room can be found by its id at every moment |
| TwoPhasePut.StepKeepsInv | connect/bucket.go:65-106 | every single lock section, if no user is put while mapped, keeps the whole invariant: live rooms count their list, dropped rooms are empty, lists hold exactly the channels that joined, mapped rooms are live, and a deletion takes its own channel |
| TwoPhasePut.CallsGoOn | connect/bucket.go:65-106 | in every state of every interleaving each call under way can make its next step as soon as the lock is free, and a deletion under way always can |
| TwoPhasePut.RunKeepsInv | connect/bucket.go:65-106 | and so does every interleaving of any number of calls in which no user is put while mapped; none of them loses a list |
| TwoPhasePut.RunKeepsDrops | connect/room.go:37-47 | in every interleaving of any calls on new channels, as long as no deletion has lost a list, a room that is dropped once is dropped and empty ever after |
| TwoPhasePut.CoherenceLostExactlyBySweep | connect/bucket.go:99-104 | when no user is put while mapped: it is exactly the end of a deletion in a room whose id is mapped to another room |
| TwoPhasePut.DoomIsSettledAtStart | connect/bucket.go:93-98 | whether a deletion will do that is decided when it starts: exactly if the channel had been refused and the id is mapped again |
| TwoPhasePut.DoomStays | connect/bucket.go:99-105 | until its last section this does not change |
| TwoPhasePut.RunKeepsCoherence | connect/bucket.go:65-106 | in every interleaving in which no user is put while mapped, and no deletion of a refused channel starts while its room's id is mapped again, every live room can be found by its id at every moment |
| TwoPhasePut.LiveRoomUnmapped | connect/bucket.go:70-105 | a run of twelve sections of three users after which a live room with a member is not mapped |
| TwoPhasePut.ReconnectLosesList | connect/bucket.go:70-105 | a run of seven sections of two users, one of whom reconnects, after which a live room with a member has an empty list |
| TwoPhasePut.TakesOwnExactly | connect/bucket.go:94-98 | a deletion removes the user from the index and takes the channel of its own connection if and only if the user is mapped to it |
| TwoPhasePut.EndedStaysListed | connect/bucket.go:94-98 | otherwise a channel that is in a room stays in its list at every later moment, unless a deletion loses the list |
| TwoPhasePut.LeadLostExactly | connect/bucket.go:99-104 | of any room: it stops being found by its id exactly when the last section of a deletion unmaps that id |
| TwoPhasePut.LeadNeverReturns | connect/bucket.go:71-74 | and a room that is not found is never found again |
| TwoPhasePut.LiveLeadLostBySweep | connect/bucket.go:99-104 | for a live room this is the step that loses coherence |
| Broadcast.StepKeepsInv | connect/bucket.go:45-56 | every step of workers, senders, readers and of the lock sections of Put and DeleteChannel keeps queues bounded and in order, no request lost or doubled, walks within the list, and mailboxes bounded |
| Broadcast.RunKeepsInv | connect/bucket.go:45-118 | and so does every schedule of these steps |
| Broadcast.StartInv | connect/bucket.go:31-43 | a new bucket satisfies it |
| Broadcast.DrainedAllApplied | connect/bucket.go:45-56 | when all is drained each worker has finished, in order, exactly the requests that were sent to its queue |
| Broadcast.MemberReceives | connect/bucket.go:45-56 | for every schedule and any two moments: what a member has received from a worker, with what that worker has found the room for and not yet pushed to it, grows by exactly the requests it looked up while their id led to the room, each once and in order |
| Broadcast.MemberReceivesExactlyOnce | connect/room.go:51-58 | between two drained moments a member receives each request sent to a worker for the room's id exactly once and in order, if and only if no lookup of that worker for the id missed the room |
| Broadcast.LookedUpIsSent | connect/bucket.go:45-118 | between two drained moments a worker looks up, in order, exactly what was sent to its queue |
| Broadcast.MissesAfterUnmapped | connect/bucket.go:51-63 | of a room that can be found at first: no lookup misses it if and only if none comes after the id has been unmapped |
| Broadcast.NothingMissedUnlessSpoilt | connect/bucket.go:45-106 | in every schedule from a new bucket in which no deletion has lost a list or unmapped a live room, no lookup for a room with a member misses it |
| Broadcast.LiveRoomHearsNothing | connect/bucket.go:45-106 | a run of sixteen steps from a new bucket: a request for the room of a member is sent and finished, and the member receives nothing |
| Broadcast.NothingLostWithoutDrops | connect/channel.go:33-39 | pushes = consumed + queued + dropped, the mailbox never exceeds its size, and with no more pushes than that nothing is lost or reordered |
| Mailboxes.StepFillsMailbox | connect/channel.go:33-39 | in every state: a push to a full mailbox leaves it unchanged and is dropped, any other push is put behind what is waiting, and the owner takes what has waited longest |
| Mailboxes.MailboxGrows | connect/channel.go:33-39 | for every schedule, any two moments and any channel: what has been given to the channel at first is a prefix of what has been given to it later, which goes on, in order, with exactly the pushes in between that found fewer messages waiting than the mailbox holds; the others are dropped |
| Mailboxes.AllPlacedExactly | connect/channel.go:33-39 | all pushes in between are given to the channel if and only if none of them found its mailbox full |
| Mailboxes.MemberIsGiven | connect/bucket.go:45-56 | between two drained moments a member is given each request that was sent to a worker for the room's id exactly once and in order, if no lookup of that worker missed the room and no push found the mailbox full |
| Draining.SomebodyGoesOn | connect/bucket.go:45-118 | as long as not everything is drained, some worker or waiting sender can go on |
| Draining.DrainedIsReached | connect/bucket.go:45-118 | from every state of every schedule the workers alone get everything drained in a bounded number of steps, however full the mailboxes are |
| Draining.CallersNeedNotWait | connect/bucket.go:115-118 | in every state BroadcastRoom can be called, and every channel that has been put can be pushed to |
| Draining.OwnerTakesAll | connect/channel.go:17-31 | the owner of a channel can take out everything that waits for it, in order, by itself |
| RoundRobin.RunTakesTurns | connect/bucket.go:115-118 | in every schedule the n-th request given to BroadcastRoom goes to the worker whose turn it is by the counter, and to no other |
| RoundRobin.AssignedCount | connect/bucket.go:115-118 | the exact number of requests that a worker gets in a window |
| RoundRobin.WindowIsFair | connect/bucket.go:115-118 | in a window of L requests each of R workers gets the floor or the ceiling of L/R, without wrap or if R divides 2^64 |
| RoundRobin.FairAcrossWrapExactlyForDivisors | connect/bucket.go:115-118 | all windows, wrap included, are fair if and only if the number of workers divides 2^64 |
| Presence.EnteredEffect | logic/rpc.go:305-317 | what Connect does to the members and the counter of every room |
| Presence.ExitedEffect | logic/rpc.go:323-338 | what DisConnect does to the members and the counter of every room |
| Presence.EnteredExact | logic/rpc.go:313-317 | an exact counter stays exact in Connect if and only if the user is not stored under an empty name |
| Presence.ExitedExact | logic/rpc.go:326-338 | an exact counter stays exact in DisConnect if and only if the user is a member or nobody is |
| Presence.CallsKeepBound | logic/rpc.go:305-338 | after any sequence of calls, phantom and repeated disconnects included, the counter lies between zero and the number of members |
| Presence.CallsKeepExact | logic/rpc.go:305-338 | if every disconnect names a member the counter is the number of members throughout |
| PresenceSteps.GapDrifts | logic/rpc.go:313-338 | for every command of any calls in any state: by how much it changes members - those between two writes - counter, for every room |
| PresenceSteps.BalanceKeptExactly | logic/rpc.go:313-338 | a command keeps that balance if and only if it is no HSET on an existing field, no HDEL on a missing field after a DECR, no HDEL on an existing field without a DECR, and no DECR for user zero |
| PresenceSteps.RunDrifts | logic/rpc.go:313-338 | over every interleaving of any calls the balance is the sum of these changes |
| PresenceSteps.StepKeepsInv | logic/rpc.go:313-338 | every single Redis command keeps counter = members - those between their two writes, if no room and user have two calls in flight and disconnects name members |
| PresenceSteps.GuardPasses | logic/rpc.go:327-331 | under the same conditions the stale guard of DisConnect finds a positive counter whenever a member leaves |
| PresenceSteps.CounterIsExactWhenSettled | logic/rpc.go:313-338 | under the same conditions the counter is between zero and the members, and exact if and only if nobody is between two writes |
| PresenceSteps.RunKeepsCount | logic/rpc.go:313-338 | all of this at every moment of every interleaving that starts with empty rooms and has at most one call in flight for a room and user, positive rooms, named users and disconnects of members only |
| PresenceSteps.UninterruptedConnect | logic/rpc.go:313-317 | the commands of one Connect without interruption are the whole call, whatever else is in flight |
| PresenceSteps.UninterruptedDisConnect | logic/rpc.go:326-338 | the commands of one DisConnect without interruption are the whole call, for members and for anybody else |
| PresenceSteps.OverlappingConnects | logic/rpc.go:313-317 | from any state: two Connects of a user that both read the hash first add one member and two to the counter |
| PresenceSteps.OverlappingDisConnects | logic/rpc.go:326-338 | from any state: two DisConnects of a member that both read the counter first take one member away and two off the counter |
| Sessions.RegisterEffect | logic/rpc.go:43-51 | Register adds one live session to one user, and no entry names it |
| Sessions.LoginEffect | logic/rpc.go:70-91 | Login ends exactly the session that was named, keeps the unnamed ones, and names the new one |
| Sessions.LogoutEffect | logic/rpc.go:136-171 | Logout ends the session of its token, and its user has no named session afterwards |
| Sessions.ExpiryEffect | logic/rpc.go:85-88 | time alone makes no session unnamed: an entry and its session expire together |
| Sessions.AtMostTwoSessions | logic/rpc.go:25-174 | in every sequence of whole registrations, logins, logouts and expiry a user has at most one live session that no login would revoke, and at most two in all |
| Sessions.UnnamedNeverGrow | logic/rpc.go:61-174 | with whole calls, after registration the number of unnamed sessions of a user never grows |
| Sessions.OneSessionForGood | logic/rpc.go:61-174 | with whole calls, once it is zero the user has at most one live session for the rest of the run |
| Sessions.CheckAuthAfterLogin | logic/rpc.go:61-134 | after Login the new token is accepted as its user, the one named before is refused, all others are as before |
| Sessions.CheckAuthAfterLogout | logic/rpc.go:114-174 | after Logout that token is refused and every other is as before |
| Sessions.AcceptedExactly | logic/rpc.go:43-91 | in every run of whole calls a token is accepted, as its user, if and only if less than 86400 seconds have passed since its Register or Login and no Logout with it and no Login over an entry that names it came in between |
| Sessions.ExecGrowsUnnamedExactly | logic/rpc.go:85-89 | in any state, the last command of a Login adds to the unnamed sessions if and only if the entry names a live session of the user at that moment |
| Sessions.OverlappingLogins | logic/rpc.go:76-89 | from any state: two Logins that both read the entry first, and then run one after the other, leave the first one's session unnamed; all orders of the commands are in `SessionSteps` |
| SessionSteps.UnnamedGrowsExactly | logic/rpc.go:70-171 | for every command of any calls in flight: the live sessions without an entry become more, and then by one, if and only if it is a registration, the EXEC of a Login over an entry that names a live session, or the deletion of such an entry by a Logout |
| SessionSteps.ChargedGrowsExactly | logic/rpc.go:70-171 | those of them that no Logout under way is about to delete become more if and only if it is a registration, such an EXEC, or such a deletion that the Logout does not take back by ending a session of its own |
| SessionSteps.ChargedBound | logic/rpc.go:25-174 | in every interleaving there are at most as many of these as registrations and leaking steps of the user so far |
| SessionSteps.BoundUnlessLeaked | logic/rpc.go:25-174 | in every interleaving without a leaking step, when no Logout of the user is under way, at most as many live sessions that no Login would revoke as registrations of the user, and at most one more in all |
| SessionSteps.OneSessionUnlessLeaked | logic/rpc.go:61-174 | a user without such a session has, without a leaking step and another registration, at most one live session at every later moment at which no Logout of the user is under way |
| SessionSteps.UninterruptedLogin | logic/rpc.go:70-91 | the commands of one Login in a row are the whole Login, and its EXEC overwrites no live entry, whatever else is in flight |
| SessionSteps.UninterruptedLogout | logic/rpc.go:141-171 | the commands of one Logout in a row are the whole Logout |
| SessionSteps.OverlappingLoginsRun | logic/rpc.go:76-89 | from any state without an entry: two Logins that both read it before either writes it leave the first one's session alive without an entry |
| SessionSteps.LoginWithinLogoutRun | logic/rpc.go:141-171 | from any state with a live entry: a Login between the read and the deletions of a Logout leaves its session alive without an entry |
| SessionSteps.ThreeSessionsByLogins | logic/rpc.go:76-89 | a run from the empty store in which two Logins overlap, and the user has three live sessions with no call in flight |
| SessionSteps.ThreeSessionsByLogout | logic/rpc.go:141-171 | a run from the empty store in which a Login falls into a Logout, and one Login later the user has three live sessions with no call in flight |
| SessionSteps.ThreeSessionsByRegisters | logic/dao/user.go:28-35 | a run from the empty store in which two calls of Register for one name overlap, and one Login later the user has three live sessions without a leak |
| SessionSteps.AcceptedExactly | logic/rpc.go:43-171 | in every interleaving: from the command that writes its session on a token is accepted, as its user, if and only if less than 86400 seconds have passed and neither a Login that had read it in the entry nor a Logout with it has deleted it |
| Histories.ServerByExactly | logic/rpc.go:305-312 | a server reaches a user at a time if and only if a Connect of the user to it has not expired and no later Connect or Logout of the user has been made |
| Histories.MembersByExactly | logic/rpc.go:305-338 | a user is in a room if and only if a Connect of the user to it was not followed by a DisConnect from it |
| Histories.ConnectAgrees | logic/rpc.go:303-317 | after Connect the store still holds what the calls tell, at this and every other time |
| Histories.DisConnectAgrees | logic/rpc.go:323-338 | and after DisConnect |
| Histories.LogoutAgrees | logic/rpc.go:141-171 | and after Logout |
| LogicRpc.RpcLogic.constructor | logic/rpc.go:22-23 | the empty store satisfies the invariant of all procedures |
| LogicRpc.RpcLogic.Register | logic/rpc.go:25-59 | which of the errors or the token is the answer; the account and one live session for it on success, nothing otherwise |
| LogicRpc.RpcLogic.Login | logic/rpc.go:61-101 | a token exactly for a known name with its password, which CheckAuth then accepts; the named session is replaced |
| LogicRpc.RpcLogic.CheckAuth | logic/rpc.go:114-134 | the session of a live token, always one of an account, and failure for any other token |
| LogicRpc.RpcLogic.Logout | logic/rpc.go:136-174 | the three deletions end the session, and with no live session nothing changes |
| LogicRpc.RpcLogic.Connect | logic/rpc.go:285-321 | a live token makes its user a member of the room, reached through the given server; any other token changes nothing |
| LogicRpc.RpcLogic.DisConnect | logic/rpc.go:323-350 | the op, the room and the count of the message published; its members are exactly those who have connected to the room and not disconnected since, so without the user, each under the name of the account; the task server sends it to that room |
| LogicRpc.RpcLogic.Push | logic/rpc.go:179-204 | the message is published for the server of the receiver's last Connect, and for no server if there was none, it has expired, or a Logout came later; the task server sends it to that user there |
| LogicRpc.RpcLogic.PushRoom | logic/rpc.go:209-243 | the message is published for the room with exactly those who have connected to it and not disconnected since, each under the name of the account, and their number; the task server sends it to that room |
| LogicRpc.RpcLogic.PublishCount | logic/rpc.go:248-261 | the published count is the counter, which is at least zero and at most the number of members; the task server sends it to the room |
| LogicRpc.RpcLogic.GetRoomInfo | logic/rpc.go:266-283 | a room that everybody has left again is an error and publishes nothing; of any other the op, the room, the count and exactly the members are published, each under the name of the account; the task server sends them to the room |
| LogicRpc.CallKeepsOk | logic/rpc.go:285-350 | Connect and DisConnect keep accounts, sessions and the bounds of every room's counter |
| LogicRpc.HandledByNumber | task/push.go:43-64 | the task server sends messages of number 2 to a user, of 3 to a room, of 4 as a count and of 5 as the members to a room, and ignores any other |
| Keys.KeysCollideExactly | tools/commom.go:34-44 | for all integers and all tokens two different keys have one name in exactly one case: a session token that reads map_ and a number |
| Keys.KeysSeparate | logic/publish.go:166-185 | for 64-bit ids and generated tokens the five encodings are injective and pairwise disjoint |
| Keys.EmptyRepresented | config/config.go:26-28 | the empty flat store represents the empty typed one, from which every run starts |
| Keys.NamesSpelledOut | config/config.go:24-30 | the five names for user 7 and room 7, letter by letter |
| Keys.WriteRefines | config/config.go:26-28 | a write of one typed entry is the write of its name in one flat store, so the typed maps refine it |
| Keys.SetCommandsWrite | logic/rpc.go:47-88 | each SET and HMSET writes the one key that the source names |
| Keys.DelCommandsWrite | logic/rpc.go:155-171 | each DEL of Logout deletes the one key that the source names |
| Keys.HashCommandsWrite | logic/rpc.go:313-338 | HSET and HDEL write the hash of the room, which goes with its last field |
| Keys.CountCommandWrites | logic/rpc.go:316-329 | INCR and DECR write the counter of the room |
| Packages.StickPackage.GetPackageLength | pkg/stickpackage/stickpackage.go:51-54 | the wrapped 16-bit length equals the bytes written if and only if the message has at most 32763 bytes |
| Packages.StickPackage.Pack | pkg/stickpackage/stickpackage.go:26-32 | version, big-endian length and message are appended to the stream in this order |
| Packages.StickPackage.Unpack | pkg/stickpackage/stickpackage.go:34-41 | for every input: fields read, short reads, and the panic on a negative size |
| Packages.LengthIsExact | pkg/stickpackage/stickpackage.go:51-54 | the same of the length function: exact if and only if at most 32763 bytes |
| Packages.BigEndianRoundTrip | pkg/stickpackage/stickpackage.go:28-37 | the two length bytes read back as the 16-bit number, negative ones included |
| Packages.RoundTripExactly | pkg/stickpackage/stickpackage.go:26-41 | Unpack after Pack restores version, length and message if and only if the message has at most 32767 bytes |
| Framing.WriteDataToTcp | connect/server_tcp.go:208-245 | the write loop, which reuses one package, writes the frames of the messages in order |
| Framing.FrameSpelledOut | connect/server_tcp.go:208-245 | a frame byte by byte: the letter v and the digit 1, the length of the whole frame with the high byte first, and the message |
| Framing.Scan | connect/server_tcp.go:139-146 | the scan loop finds what draining the data finds, unless it gives up on a body |
| Framing.ReadDataFromTcp | connect/server_tcp.go:118-175 | reading chunk by chunk looks at the same packages in order, leaves the same rest and stops in the same cases as reading the whole stream at once, whatever is made of each body: all packages unless the reader gives up |
| Framing.GivesUpExactly | connect/server_tcp.go:132-175 | the reader gives up if and only if a request was refused or three bodies were no JSON |
| Framing.UnpackSucceedsExactly | connect/server_tcp.go:120-142 | a token is unpacked to its header and body if it has at least four bytes, and makes Unpack panic otherwise |
| Framing.DrainResumes | connect/server_tcp.go:120-131 | for every stream, what was found before more data arrives is not read again |
| Framing.ChunksDoNotMatter | connect/server_tcp.go:118-146 | for every stream and every division into chunks the result is the same |
| Framing.LosslessExactly | connect/server_tcp.go:120-131 | for every list of messages, what is read is what was sent if and only if all fit and the last is not empty |
| Framing.TransferIsLosslessExactly | connect/server_tcp.go:118-245 | the same for every division of the written stream into reads |
| Framing.ProgressAfterEveryRead | connect/server_tcp.go:118-146 | after every read the packages found are the first messages, and what is left is a proper part of the next frame |
| Framing.FoundIsStream | connect/server_tcp.go:120-142 | for every stream of any sender: the packages found are the stream itself, each with a v in front and its own length, up to where no package can be cut off, or where a length below that of a header breaks the reader |
| Framing.StrayStopsForGood | connect/server_tcp.go:120-131 | once what is left does not start with a v nothing is found any more, whatever follows |
| Framing.NothingWithoutVersion | connect/server_tcp.go:120-131 | no package is found in a stream whose first byte is not a v, however it is divided |
| Delivery.StepConserves | task/push.go:36-56 | no step loses or doubles a message, and only Push adds one |
| Delivery.RunConserves | logic/rpc.go:189-197 | in every run each message pushed is at every moment in exactly one place, and nothing else is anywhere |
| Delivery.RunAddressed | connect/rpc.go:105-107 | in every run, second connect messages included, channels are found under users and servers that they have been attached for, and mailboxes hold messages for these only |
| Delivery.ReachesAtMostOneMailbox | task/rpc.go:44-57 | a delivered message comes from a Push to a user for whom the channel has been attached, on the server that the user key named when it was read; it is there once, and no message of the same Push is in another mailbox, whichever queues were chosen |
| Delivery.RightLostExactly | connect/server.go:126-151 | in every state: that users are led to channels that are theirs at present, and mailboxes hold messages for their present user only, is lost if and only if a connection attaches a channel in use for another user |
| Delivery.RunRight | connect/server.go:126-151 | so in every run without such a step no message reaches a channel that is another user's |
| Delivery.TakenOverRun | connect/rpc.go:105-107 | the run: one connection connects for two users, and a message to the first is put into the mailbox of the channel that the second has |
| Delivery.KnownKeysKeepRunning | task/rpc.go:57 | in every run in which every Push so far has read a server that the task server knows, the task server is running |
| Delivery.StoppedExactly | task/rpc.go:57 | the task server has stopped if and only if a worker has called for a message, pushed before, whose server it does not know |
| Delivery.RunningWhenDrainedExactly | task/rpc.go:57 | at a moment when nothing is under way, the task server is running if and only if every Push has read a server that it knows |
| Losses.RoutesTold | logic/rpc.go:189-190 | in every run the user key is what the last SET or DEL made of it, and a user is found on a server exactly under the channel attached last, if no detaching of that user there came later |
| Losses.PushTold | logic/rpc.go:189-197 | the message of a call of Push has the number of the call, its user and body, and the server that the last command has left in the user key |
| Losses.LostExactly | connect/rpc.go:105-107 | in every run a message is lost if and only if it was called for a server that the task server does not know, or for a user who had attached no channel there since the last detaching, or was offered to a full mailbox |
| Losses.ReachedUnlessLost | task/push.go:36-56 | when nothing is under way any more: a message that was pushed is not lost if and only if it has reached, once, the channel that its user had on its server when it was called for |
| Losses.TravelInOrder | task/push.go:36-56 | messages are handed to the queues in the order in which they were published, and the worker of a queue takes them in the order in which they were handed to it |
| Losses.MailboxGrows | connect/channel.go:33-39 | for every run, any two moments and any mailbox: what has been put into it stays first, and is followed, in order, by exactly the messages that were offered in between while it was not full |
| Losses.EndIsReached | task/push.go:36-56 | every run goes on, without another call of Push and in a bounded number of steps, to a moment at which every message has been taken out by an owner or is lost, or the task server has stopped |

## Left out

- etcd discovery, rpcx, gin, websocket and TCP sockets, deadlines, tickers, configuration, logging, gorm: input and
  output or libraries. Calls succeed and Redis answers; the error replies for failing libraries are not modelled.
- JSON, timestamps, snowflake ids, SHA-1 and random numbers: bodies are opaque values, tokens are new values.
- Data races below the lock sections and Redis commands, and the Go scheduler beyond free interleaving.
- Channels of capacity zero: mailboxes and queues of size zero never take anything here, where an unbuffered channel
  would hand over to a waiting receiver.
- The queues of a bucket: on the heap they stand in an object of their own (`Servers.Routines`) beside the bucket.
- Servers.Routines.BroadcastRoom: requires a place in the queue, because the source's send waits until there is one; the waiting is a step of `Broadcast`.
- Servers.PushRoomMsg: requires a place in every bucket's next queue for the same reason.
- Buckets.Bucket.Put: takes the two lock sections together; the sections apart are in `TwoPhasePut`. What later calls do to a bucket whose lists are broken is not followed.
- Connect.Room.DeleteChannel: states the writes for any channel, but what lists they leave only for a member and for a channel that was never linked; a channel that is linked in another room is unlinked there.
- TwoPhasePut.SoundLostExactly: takes channels that are new when they are put; a second Put of one channel is in `Relinking`.
- TwoPhasePut.CoherenceLostExactly: takes channels that are new when they are put; a second Put of one channel is in `Relinking`.
- TwoPhasePut.RunKeepsSound: the same, and it ends with the first lost list, because the channels that were in it keep links that the values do not show.
- TwoPhasePut.RunKeepsLiveMapped: the same, and it ends with the first lost list, because the channels that were in it keep links that the values do not show.
- TwoPhasePut.RunKeepsDrops: the same, and it ends with the first lost list, because the channels that were in it keep links that the values do not show.
- Broadcast.MemberReceives: takes channels that are new when they are put, and the lists that `TwoPhasePut` shows: of a channel whose list was lost and linked again it says nothing.
- PresenceSteps.StepKeepsInv: asks for one call at a time for a room and user, as the next line.
- PresenceSteps.RunKeepsCount: asks for one call at a time for a room and user; what any other call does to the counter is in `GapDrifts` and `RunDrifts`.
- Sessions.AtMostTwoSessions: whole calls, one after another; calls that overlap are in `SessionSteps`.
- Sessions.UnnamedNeverGrow: whole calls, one after another; calls that overlap are in `SessionSteps`.
- Sessions.OneSessionForGood: whole calls, one after another; calls that overlap are in `SessionSteps`.
- The array of queues of task/push.go and the fan-out loops of task/rpc.go over connect servers: they are steps of
  `Delivery`, not methods, since the workers run at the same time; room messages enter the connect tier in `Broadcast`.
- Ids of rooms that are not positive in the claims about exact counters: DisConnect decrements only for positive ones.
- More than one subscriber to the published messages: each would get every message.
- Data that arrives together with the end of the stream, and the 64 KB limit of the scanner's buffer.
- CityHash128, CityHash64WithSeed, CityHash64WithSeeds, GetUserInfoByUserId, writePump: one expression or pure input and output.
- Reading a client's token that reads `map_` and a number gives a Redis type error, here just no session.
