# A verified model of Vartalaap's replicated conversations

Vartalaap is a peer-to-peer messenger: nodes hold conversations as CRDTs, talk end to end encrypted over
QUIC streams that arrive in any order, and heal by comparing what they hold whenever they connect. This
project models that machinery in Dafny and proves what it is for. `dafny verify dfyconfig.toml` checks
all of it.

| layer | modules |
|---|---|
| Ids, wire types, sorting by a key, string order | `Wire`, `Ordering` |
| One conversation: operations, merge, deltas, replays, snapshots, causal order over runs, the mutable object | `Conversations`, `Convergence`, `Snapshots`, `Replicas`, `ConversationObject` |
| A node's handlers as functions, what each of them does to what is held, sent and reported, and the mutable node object | `Content`, `Effects`, `NodeObject` |
| Any number of nodes and an unordered network | `Worlds` |
| Anti-entropy between two nodes: convergence, termination, delivery tracking, status events | `AntiEntropy`, `Termination`, `Delivery`, `Status` |
| Groups: membership, one exchange, exactly when it heals | `Membership`, `Healing`, `HealingLimits` |
| Any history from an empty start - connections lost and renewed, contacts removed, nodes restarted - and what reconnecting then achieves | `Reconnection`, `GroupHistory` |
| Runs that go wrong | `HealingExample`, `ForgettingExample`, `LateChatExample` |
| Ratchet sessions: the initiation race, `encrypt_for` at lock-scope granularity | `Ratchet`, `SessionRace`, `SingleInitiation` |
| Connection generations | `Connections` |
| The vault: entry table, prefix scan, quarantine, unlocking | `Stores`, `Persist`, `Vault` |
| File transfer | `Blobs` |

Every handler appears twice: as a function on values (`Content.After`, `Content.Replies`,
`Content.Emitted`), about which the run theorems speak, and as methods of a class that reassign fields and
walk lists in loops, proved to do exactly what the functions say. What the functions are worth is stated
without them: `Effects` says of each frame and each local action which messages, marks and ids are held
afterwards, which frames go out and to whom, and what is reported. `Worlds.Next` composes the functions with
a network in which any frame in flight may be the next to arrive. Its steps are sending and receiving,
local reading marks, connections lost and renewed, contacts removed and nodes restarted, so a theorem about
`Worlds.Run` covers every interleaving of these.

## What turned out not to hold

- **Merge is not commutative in general** (the comment at `crates/vartalaap-sync/src/lib.rs:184-185` says
  it is): it commutes exactly when the two sides hold the same message under every shared id
  (`MergeCommutesIff`, `MergeCommutesFails`). Random ids make that an invariant of every reachable pair
  (`SameIdsSameDisplay`, `ReachableAgree`, `ReachableGroupsAgree`).
- **A delta may leave the clock behind a full merge** when a shared id carries different messages
  (`DeltaClockLags`); `DeltaClockIff` says exactly when the two agree.
- **What a node believes its peer holds can go stale.** When the peer removes it as a contact, the peer's copy
  is gone, but `peer_have` survives and the message stays Delivered (`ForgottenStillDelivered`).
  `PeerHaveSoundIff` shows that this is the only way, apart from what a read receipt covers by definition.
- **A message may stay Sent although the peer holds it**: if it arrives live after the peer's have-list went out,
  the delta that repeats it adds nothing and is not acknowledged (`LateChatStaysSent`). `ConfirmedIff` says
  exactly what a completed exchange confirms.
- **A restart turns Delivered back into Sent** for every message that no read watermark covers
  (`RestartKeepsDeliveredIff`).
- **A group exchange can leave a member without history.** If a node learns of a group from a third node
  after it has sent its own connect-time offer to `p`, then `p`'s announcement is old news and prompts no
  have-list, and `p` never sends the history on that connection (`LateNewsStarves`). `ServedIff` shows this
  is the only way it happens.
- **`encrypt_for` can overwrite a session accepted meanwhile, and an accept one installed meanwhile**, since the
  accept path does not take `session_init`: `InsertOverwritesIff` and `PlaceOverwritesIff` say exactly when,
  `OverwrittenAcceptLosesPeer` and `OverwrittenInstallLosesReplies` what it costs, `OverwritingRuns` gives the
  runs. `SessionRace` treats `encrypt_for` and `decrypt_payload` as single steps.
- **A restore takes the clock to the highest watermark**, so the bound by the number of messages created does
  not survive it (`RestoreReachesTop`); causal order does, as long as no creation wraps the clock
  (`CausalOrder`).
- **A repeated id in a have-list repeats its Delivered event** (`RepeatedIdAnnouncedTwice`); nodes never
  send such a list, so over runs every delivery is announced at most once (`AnnouncedAtMostOnce`).
- **Quarantine overwrites an occupied `corrupt/` slot** (`OccupiedSlotOverwritten`, `OthersKeptIff`), and a
  prefix under which the slots themselves lie is never quiet on the second load (`SecondLoadQuietIff`); the
  stored families are clear of it (`FamiliesOutOfTheWay`).
- **A stale reader loop evicts a newer connection** opened a multiple of 2^64 connections later, and no other
  (`ExitEvictsIff`).
- **An empty file is accepted under any key**: it has no chunk to be refused (`WrongKeyIff`).
- **A salt file cut short while it is first written makes the vault unopenable** - before any identity
  exists (`TornSaltIsRefused`).

## Model

| member | source | states |
|---|---|---|
| Conversations.MergeIdempotent | crates/vartalaap-sync/src/lib.rs:186-198 | merging a replica into itself changes nothing observable |
| Conversations.MergeAssociative | crates/vartalaap-sync/src/lib.rs:186-198 | merge order does not matter for three replicas, even with clashing ids |
| Conversations.MergeCommutesIff | crates/vartalaap-sync/src/lib.rs:184-198 | merge commutes exactly when the replicas agree on every shared id |
| Conversations.MergeCommutesFails | crates/vartalaap-sync/src/lib.rs:184-198 | two replicas on which it does not commute |
| Conversations.DeltaRefinesMerge | crates/vartalaap-sync/src/lib.rs:170-198 | applying only the missing messages, with all reactions and watermarks, equals a full merge |
| Conversations.DeltaClockIff | crates/vartalaap-core/src/node.rs:1701-1730 | delta and merge leave the same clock exactly when every shared message carries a stamp that this side's clock, or some message it lacks, already reaches |
| Conversations.DeltaClockLags | crates/vartalaap-core/src/node.rs:1701-1730 | two replicas on which the delta's clock stays behind |
| Conversations.DeltaClockRefinesMerge | crates/vartalaap-core/src/node.rs:1691-1730 | on replicas that agree, delta and merge coincide, clock included |
| Conversations.JoinIsAbove | crates/vartalaap-sync/src/lib.rs:186-198 | the join of two agreeing views lies above both |
| Conversations.JoinIsLeast | crates/vartalaap-sync/src/lib.rs:186-198 | whatever lies above two views lies above their join |
| Convergence.OrderConvergence | crates/vartalaap-sync/src/lib.rs:124-167 | the same operations in any orders and with any repetition give equal state, clock and displayed order |
| Convergence.ConvergesIffConsistent | crates/vartalaap-sync/src/lib.rs:124-147 | all orders agree exactly when no two received messages share an id |
| Convergence.DisplayOrderUnique | crates/vartalaap-sync/src/lib.rs:158-167 | the displayed list is the only ascending listing of the messages held |
| Conversations.DisplayedInOrder | crates/vartalaap-sync/src/lib.rs:158-167 | of two displayed messages the earlier one has the lower stamp, or the same stamp and the lower author, or the same of both and the lower id |
| Snapshots.RestoreKeepsContents | crates/vartalaap-sync/src/lib.rs:221-245 | snapshot then restore keeps messages, reactions and watermarks |
| Snapshots.RestoredClock | crates/vartalaap-sync/src/lib.rs:232-245 | the restored clock covers every message and watermark and is one of them |
| Snapshots.ClockContinuesIff | crates/vartalaap-sync/src/lib.rs:232-245 | restoring loses no clock progress exactly when the saved clock was the stamp of something held |
| Snapshots.ApplyAnchoredIff | crates/vartalaap-sync/src/lib.rs:124-127 | receiving keeps the clock so anchored except on a clash of ids with a higher stamp |
| Snapshots.MergeAnchored | crates/vartalaap-sync/src/lib.rs:186-198 | merging agreeing replicas keeps it anchored |
| Snapshots.CreatedSortsLast | crates/vartalaap-sync/src/lib.rs:84-103 | a created message is appended to the displayed list |
| Snapshots.CreatedSortsLastIff | crates/vartalaap-sync/src/lib.rs:84-103 | it sorts last exactly below the top of the u64 clock |
| Snapshots.NextAfterRestore | crates/vartalaap-sync/src/lib.rs:232-245 | the first message after a restore sorts last and lies above every restored watermark |
| Replicas.CausalOrder | crates/vartalaap-sync/src/lib.rs:84-127 | over every run, restores included, in which no creation wraps its clock: a message precedes whatever was created by someone who held it, on every replica |
| Replicas.ClockBound | crates/vartalaap-sync/src/lib.rs:84-127 | without restores and below 2^64 messages no clock exceeds the number created, so no creation wraps |
| Replicas.RestoreReachesTop | crates/vartalaap-sync/src/lib.rs:232-245 | a run that creates nothing and still takes a clock to its top, by one mark and one restore |
| Replicas.SameIdsSameDisplay | crates/vartalaap-sync/src/lib.rs:158-198 | over every run replicas agree on shared ids, and equal id sets show equal lists |
| Replicas.SnapshotContinuity | crates/vartalaap-sync/src/lib.rs:221-245 | on every reachable replica, restored before or not, a snapshot round trip loses neither contents nor clock |
| ConversationObject.Conversation.CreateText | crates/vartalaap-sync/src/lib.rs:84-103 | the message carries the given id, author, time and text and the next stamp; it is in the log under its id and nothing else changed |
| ConversationObject.Conversation.CreateFile | crates/vartalaap-sync/src/lib.rs:106-121 | the same with the file's name as body and the file reference as kind |
| ConversationObject.Conversation.Receive | crates/vartalaap-sync/src/lib.rs:124-127 | the first message under an id is kept, and the clock reaches the received stamp and no further than needed |
| ConversationObject.Conversation.SetRead | crates/vartalaap-sync/src/lib.rs:130-133 | raises one watermark to at least the given stamp, and never lowers it |
| ConversationObject.Conversation.AddReaction | crates/vartalaap-sync/src/lib.rs:141-147 | the reaction is in the set, once |
| ConversationObject.Conversation.MergeFrom | crates/vartalaap-sync/src/lib.rs:186-198 | the loops over the other replica's maps, in any iteration order, compute the merge |
| ConversationObject.Conversation.FromSnapshot | crates/vartalaap-sync/src/lib.rs:232-245 | the restore loops compute the restored value |
| NodeObject.Node.HandleMessage | crates/vartalaap-core/src/node.rs:1363-1368 | a ciphertext that does not decrypt or decode is dropped; with any payload, a profile too, an awaited exchange goes out whole as soon as there is a session - which there is - and is awaited no more; content is then handled |
| NodeObject.Node.ReadFrames | crates/vartalaap-core/src/node.rs:1310-1318 | over all ciphertexts of a connection: an awaited exchange goes out with the first that is read and with no other |
| Ratchet.HelloRenews | crates/vartalaap-core/src/node.rs:1358-1362 | a later Hello leaves existing sessions working as before; the next initiation names the renewed one-time key and handshakes are accepted from the renewed identity |
| Ratchet.HelloLeavesOthers | crates/vartalaap-core/src/node.rs:1358-1362 | and changes nothing about any other peer |
| Ratchet.ReadIff | crates/vartalaap-core/src/node.rs:1938-2002 | a ciphertext is read exactly if it is on one of the two sessions held or is a handshake to an unused key from the identity of the bundle; what is read is what was sealed |
| Ratchet.ReadAgain | crates/vartalaap-core/src/node.rs:1913-1934 | once one ciphertext of a session was read, so are its later ones |
| Ratchet.KeyOpensOnce | crates/vartalaap-core/src/node.rs:1985-1999 | a one-time key opens one session, and reading on a session spends none |
| Ratchet.ReadLeavesOthers | crates/vartalaap-core/src/node.rs:1938-2002 | reading touches no session with anyone else |
| Ratchet.ReadingEndsHandshakes | crates/vartalaap-core/src/node.rs:1913-1934 | whoever has read on the session it sends on sends no more handshakes on it |
| Ratchet.SendsOnOneSession | crates/vartalaap-core/src/node.rs:1103-1134 | sending opens at most one session: the next ciphertext is on the same one |
| Ratchet.ReadingGivesSession | crates/vartalaap-core/src/node.rs:1949-1984 | whoever has read a ciphertext has a primary session to answer on, as retained ones are only held beside one |
| Ratchet.OthersKeepPrimary | crates/vartalaap-core/src/node.rs:1103-1134 | which connecting, renewing and sending preserve |
| NodeObject.Node.HandleHello | crates/vartalaap-core/src/node.rs:1358-1362 | afterwards an existing session encrypts as before, and without one the next ciphertext opens a session with the renewed one-time key |
| NodeObject.Node.HandleFrame | crates/vartalaap-core/src/node.rs:1368-1561 | handling a payload or a read receipt changes the state, sends the replies and emits the events that the run theorems assume |
| NodeObject.Node.AbsorbPeerHave | crates/vartalaap-core/src/node.rs:1783-1814 | the filter, extend and dequeue loops; own ids newly confirmed are reported in list order |
| NodeObject.Node.HandleRead | crates/vartalaap-core/src/node.rs:1520-1561 | raises the watermark, counts covered own messages as held, reports them in display order |
| NodeObject.Node.Folded | crates/vartalaap-core/src/node.rs:1708-1730 | the three loops over a delta compute the joined conversation and the number added |
| NodeObject.Node.AnswerHave | crates/vartalaap-core/src/node.rs:1673-1698 | a have-list is answered with what is missing, and not at all for an unknown or forbidden group |
| NodeObject.Node.TakeInGroup | crates/vartalaap-core/src/node.rs:1383-1411 | admission, first-known roster kept, sync asked for on first news only |
| NodeObject.Node.Gathered | crates/vartalaap-core/src/node.rs:1164-1190 | the connect-time frames: every shared group announced, every shared scope offered |
| NodeObject.Node.SetUpConnection | crates/vartalaap-core/src/node.rs:1243-1298 | registers connection, bundle and a new generation with no session, reports the peer; the lower id sends the whole exchange at once, the higher id sends nothing and waits |
| NodeObject.Node.FlushPostConnect | crates/vartalaap-core/src/node.rs:1200-1209 | awaited and with a session: everything held is offered once and the waiting ends; otherwise nothing is sent |
| NodeObject.Node.ReaderExit | crates/vartalaap-core/src/node.rs:1328-1352 | evicts, and reports, only the connection whose generation is registered |
| NodeObject.Node.RemoveContact | crates/vartalaap-core/src/node.rs:517-542 | forgets everything of the peer and hands back its connection to close |
| NodeObject.Node.EncryptFor | crates/vartalaap-core/src/node.rs:1103-1134 | uses the session there is, or initiates one from the peer's bundle |
| NodeObject.Node.DecryptPayload | crates/vartalaap-core/src/node.rs:1913-2002 | primary, then retained inbound session, then accept with the lower-id tie-break |
| NodeObject.Node.SendMessage | crates/vartalaap-core/src/node.rs:613-671 | the message carries the given id, text and time, ourselves as author and the next stamp; it is stored; it is queued exactly if there is no connection, it cannot be encrypted or the stream does not take it; the status returned is the one then shown |
| NodeObject.Node.TrySend | crates/vartalaap-core/src/node.rs:636-662 | the message gets out exactly if the peer is connected, there is a session or a bundle, and the stream takes it; and what that does to the sessions |
| NodeObject.Node.ReadTo | crates/vartalaap-core/src/node.rs:754-764 | raises our own watermark and no other, and sends the receipt, or returns an error, by whether the peer is connected |
| NodeObject.Node.ReadGroup | crates/vartalaap-core/src/node.rs:808-819 | afterwards no message of a known group is above our own watermark, which claims nothing beyond them |
| NodeObject.Node.NewGroup | crates/vartalaap-core/src/node.rs:869-898 | the roster is sorted, duplicate-free and includes us; every other member is invited |
| NodeObject.Node.SendToGroup | crates/vartalaap-core/src/node.rs:908-939 | an unknown group is an error; otherwise the message - given id, text and time, ourselves as author, next stamp - is stored and sent to every other member |
| NodeObject.Node.Shown | crates/vartalaap-core/src/node.rs:835-860 | every message with its status, none for the peer's own, in the order of stamp, author and id |
| Effects.ChatArrives | crates/vartalaap-core/src/node.rs:1566-1582 | a live message is stored with its sender unless its id is known, raises the clock to its stamp, and is reported |
| Effects.GroupMessageArrives | crates/vartalaap-core/src/node.rs:1412-1434 | a live group message is stored the same way, and reported, exactly if both ends are on our roster; else nothing changes |
| Effects.GroupMessageDelivered | crates/vartalaap-core/src/node.rs:1412-1434 | in the network: its receiver then holds it, with a clock that has reached its stamp, and reports it, exactly in that case |
| Effects.ReadArrives | crates/vartalaap-core/src/node.rs:1520-1552 | a receipt raises the peer's watermark; exactly the own messages it newly covers become known as held and leave the queue |
| Effects.HaveArrives | crates/vartalaap-core/src/node.rs:1783-1803 | a direct have-list makes exactly the ids it lists known as held, and exactly these leave the queue; a group's changes nothing |
| Effects.DirectHaveAnswered | crates/vartalaap-core/src/node.rs:1673-1698 | it is answered with one delta of exactly the messages it lacks and all reactions and watermarks, or not at all without a conversation |
| Effects.GroupHaveAnswered | crates/vartalaap-core/src/node.rs:1673-1698 | the same for a group, if both ends are on our roster |
| Effects.DirectDeltaArrives | crates/vartalaap-core/src/node.rs:1701-1735 | afterwards exactly the ids held before or carried are held, first message kept; reactions united, watermarks raised, clock above all |
| Effects.GroupDeltaArrives | crates/vartalaap-core/src/node.rs:1701-1735 | the same for a group, if both ends are on our roster; else nothing changes |
| Effects.DeltaAcknowledged | crates/vartalaap-core/src/node.rs:1736-1767 | a direct delta is answered, with a list of exactly what is then held, if and only if it brought something new |
| Effects.DirectSyncReported | crates/vartalaap-core/src/node.rs:1736-1767 | and reported with the number of messages gained |
| Effects.GroupSyncReported | crates/vartalaap-core/src/node.rs:1736-1767 | as is a group's, if it was admitted |
| Effects.NewsTakenIn | crates/vartalaap-core/src/node.rs:1383-1411 | an invite or announcement from a roster that lists both ends makes the group known with that roster, unless it is known already; other groups and all conversations are as before |
| Effects.NewsAnswered | crates/vartalaap-core/src/node.rs:1467-1490 | first news is answered by listing what is held of the group; invites are reported every time, announcements once |
| Effects.HaveReportedInOrder | crates/vartalaap-core/src/node.rs:1783-1814 | deliveries that a have-list confirms are reported in the order it lists them |
| Effects.ReadReportedInOrder | crates/vartalaap-core/src/node.rs:1520-1561 | a receipt is reported first, then what it confirms, in the order of the display |
| Effects.ExchangeSent | crates/vartalaap-core/src/node.rs:1151-1196 | the connect-time exchange: the ids held of the direct conversation and, for every group that lists the peer, its roster and the ids held; each once, to the peer, and nothing else |
| Effects.TextWritten | crates/vartalaap-core/src/node.rs:613-662 | a text is stored with the next stamp and is either on its way or queued, never both |
| Effects.GroupTextWritten | crates/vartalaap-core/src/node.rs:908-939 | a group text is stored with the next stamp and on its way to every other member and nobody else |
| Effects.GroupCreated | crates/vartalaap-core/src/node.rs:869-898 | a new group is known to its creator, and an invite is on its way to every other member and nobody else |
| Effects.ReadMarked | crates/vartalaap-core/src/node.rs:754-764 | our own watermark is raised, nothing else changes, and the receipt is on its way |
| Effects.GroupReadMarked | crates/vartalaap-core/src/node.rs:808-819 | no message of the group is above our watermark afterwards, which is 0, was there or is the stamp of one |
| Effects.ContactRemoved | crates/vartalaap-core/src/node.rs:517-542 | nothing of the peer is left, and nothing of anybody else is touched |
| Effects.NodeRestarted | crates/vartalaap-core/src/node.rs:235-262 | every conversation and roster comes back with its contents, delivery bookkeeping does not |
| Effects.StatusMeans | crates/vartalaap-core/src/node.rs:835-860 | Delivered if a have-list named it or the watermark covers it, else Queued if it waits, else Sent; nothing beside the peer's own |
| AntiEntropy.Convergence | crates/vartalaap-core/src/node.rs:1491-1509 | from any two agreeing replicas, whatever the arrival order and whatever everybody else does, a settled exchange leaves both at the join |
| AntiEntropy.NothingDropped | crates/vartalaap-core/src/node.rs:1673-1768 | even if live messages are arriving when they meet and the two write to each other meanwhile, each keeps its own and gets all the other started with |
| AntiEntropy.ConvergesIffAgree | crates/vartalaap-core/src/node.rs:1673-1768 | without that assumption: they converge exactly when they agreed on shared ids |
| Termination.HandledFrameSpends | crates/vartalaap-core/src/node.rs:1720-1767 | every frame handled between two nodes strictly lowers twice the missing ids plus the weight in flight |
| Termination.ElsewhereSpendsNothing | crates/vartalaap-core/src/node.rs:1491-1509 | frames between other nodes leave that measure unchanged |
| Termination.PingPongEnds | crates/vartalaap-core/src/node.rs:1736-1767 | with nothing new written the two nodes handle at most that many frames |
| Delivery.PeerHaveSound | crates/vartalaap-core/src/node.rs:1783-1814 | as long as the peer does not remove us: every id we believe it holds is held, or is an own message its read watermark covers |
| Delivery.PeerHaveSoundIff | crates/vartalaap-core/src/node.rs:517-542 | over every run, removals and restarts included: a believed id that no receipt covers is held exactly when the peer wrote or received it after it last removed us |
| Delivery.PeerHaveOverHistories | crates/vartalaap-core/src/node.rs:517-542 | the same over any history from an empty start |
| Delivery.EarlierDelivered | crates/vartalaap-core/src/node.rs:1736-1814 | everything either side started with, and that was not just arriving live, is acknowledged after a settled exchange, even if the two go on writing |
| Delivery.ConfirmedIff | crates/vartalaap-core/src/node.rs:1736-1814 | whatever was arriving when they met: after a settled exchange exactly what the peer held at its last have-list, and what receipts covered, is newly confirmed |
| LateChatExample.LateChatStaysSent | crates/vartalaap-core/src/node.rs:1736-1767 | a run from an empty start after which a message that the peer holds still shows Sent |
| ForgettingExample.ForgottenStillDelivered | crates/vartalaap-core/src/node.rs:517-542 | a run after which a node believes, and shows as Delivered, what its peer has dropped |
| Delivery.DeliveryComplete | crates/vartalaap-core/src/node.rs:1736-1814 | after a settled exchange in which the two write nothing new, every own message shows Delivered and nothing is queued |
| Reconnection.ReachableAgree | crates/vartalaap-core/src/node.rs:1701-1730 | in every world reachable with non-repeating ids, all nodes agree on shared direct messages |
| Reconnection.ReachableGroupsAgree | crates/vartalaap-core/src/node.rs:1412-1434 | and on shared group messages |
| Reconnection.ReconnectHeals | crates/vartalaap-core/src/node.rs:1151-1196 | after any history from an empty start - removals and restarts included - two nodes that reconnect and let the exchange finish hold the join of both, see every own message Delivered and have nothing queued |
| Reconnection.ReconnectKeepsAll | crates/vartalaap-core/src/node.rs:1673-1768 | and if they write to each other meanwhile, each ends with every message, reaction and watermark of both, unchanged and acknowledged |
| Reconnection.AnyHistoryCanHeal | crates/vartalaap-core/src/node.rs:1151-1196 | and from every such state the exchange can finish |
| Status.DeliveredIsFinal | crates/vartalaap-core/src/node.rs:835-860 | a message shown Delivered stays so under every step, reconnections included, but removal of the contact and restart |
| Status.RestartKeepsDeliveredIff | crates/vartalaap-core/src/node.rs:235-262 | after a restart exactly what the peer's watermark covers is still Delivered |
| Status.QueueStep | crates/vartalaap-core/src/node.rs:613-662 | one step puts an id in the queue exactly if it writes it and it does not get out, and takes one out exactly if a frame of that peer confirms it, which is then known as held |
| Status.UnlearningDequeues | crates/vartalaap-core/src/node.rs:517-542 | removing the contact and restarting empty the queue |
| Status.QueuedUntilConfirmed | crates/vartalaap-core/src/node.rs:1783-1803 | over every run without these, an id leaves the queue only when a have-list or receipt of that peer confirms it |
| Status.QueuedUntilDelivered | crates/vartalaap-core/src/node.rs:835-860 | and a message shown as Queued stays so until it is shown as Delivered |
| Status.HaveAnnounces | crates/vartalaap-core/src/node.rs:1783-1814 | a have-list announces a newly confirmed own message as often as it names it, and no other |
| Status.AnnouncedOnceIff | crates/vartalaap-core/src/node.rs:1783-1814 | one announcement per message exactly when newly confirmed own ids are listed once |
| Status.RepeatedIdAnnouncedTwice | crates/vartalaap-core/src/node.rs:1783-1814 | a have-list that announces one message twice |
| Status.ReadAnnounces | crates/vartalaap-core/src/node.rs:1531-1560 | a read receipt announces each newly covered own message once, and no other |
| Status.AnnouncedAtMostOnce | crates/vartalaap-core/src/node.rs:1520-1561 | over every run without removal of the contact or restart, at most one Delivered event per peer and message across both paths |
| Membership.MembershipHolds | crates/vartalaap-core/src/node.rs:1383-1490 | from an empty start groups and group conversations have the same keys and every roster lists its owner |
| Membership.RosterIsFinal | crates/vartalaap-core/src/node.rs:1398-1404 | over every run, a known roster never changes |
| Membership.ConvoChangesOnlyByMembers | crates/vartalaap-core/src/node.rs:1651-1719 | what a group conversation holds changes only by a local action or a frame from a roster member |
| Membership.NothingLeaks | crates/vartalaap-core/src/node.rs:1651-1698 | over every run from an empty start nothing about a group - invite, announcement, message, list of ids, history - is ever on its way to anyone not on its sender's roster |
| Healing.EdgeHeals | crates/vartalaap-core/src/node.rs:1164-1195 | one completed exchange passes on the group and everything the holder had of it - ids, reactions, watermarks - in every frame order |
| GroupHistory.LifeInOrder | crates/vartalaap-core/src/node.rs:1383-1509 | every world reachable from an empty start satisfies what healing relies on: one roster per group, truthful have-lists, deltas only to members that know the group |
| GroupHistory.WalkHeals | crates/vartalaap-core/src/node.rs:1467-1509 | reconnecting along a path of members brings all its first node had to every member on it |
| GroupHistory.GroupHealsAfterAnyHistory | crates/vartalaap-core/src/node.rs:1164-1195 | the same after any history from an empty start, and the messages are the very same |
| GroupHistory.AnyPathCanHeal | crates/vartalaap-core/src/node.rs:1151-1196 | and from every such state, along every path, there is a way to finish |
| HealingLimits.ServedIff | crates/vartalaap-core/src/node.rs:1467-1490 | on a fresh connection the holder serves the history exactly when the other did not learn of the group elsewhere after its own offer |
| HealingExample.LateNewsStarves | crates/vartalaap-core/src/node.rs:1476-1489 | a run from an empty start: a complete exchange between two members after which the message has not crossed |
| SessionRace.EveryDeliveryDecrypts | crates/vartalaap-core/src/node.rs:1938-2002 | for every interleaving of sends and deliveries each delivered ciphertext decrypts to what was encrypted |
| SessionRace.QuietPrimariesAgree | crates/vartalaap-core/src/node.rs:1949-1984 | with nothing in flight both ends use one session, the lower id's if it opened one |
| SingleInitiation.InitiationsSeparated | crates/vartalaap-core/src/node.rs:1103-1134 | with any number of threads, two initiations to one peer have a removal of its session between them |
| SingleInitiation.InsertOverwritesIff | crates/vartalaap-core/src/node.rs:1116-1132 | the insert overwrites a session exactly when one was accepted since the re-check |
| SingleInitiation.OverwrittenAcceptLosesPeer | crates/vartalaap-core/src/node.rs:1985-1999 | after the overwrite the peer's next message on that session cannot be read |
| SingleInitiation.PlaceOverwritesIff | crates/vartalaap-core/src/node.rs:1945-1999 | an accept that found no session overwrites one exactly when one was put in after its look-up |
| SingleInitiation.OverwrittenInstallLosesReplies | crates/vartalaap-core/src/node.rs:1913-1934 | after that overwrite no reply on our own session can be read |
| SingleInitiation.OverwritingRuns | crates/vartalaap-core/src/node.rs:1116-1132 | runs in which each of the two overwrites happens |
| Connections.RegisteredIsNewest | crates/vartalaap-core/src/node.rs:1243-1275 | over any number of openings, connections and generations have the same keys, and the registered one is the newest opened for its peer |
| Connections.GenerationsReportedOnce | crates/vartalaap-core/src/node.rs:1328-1352 | among 2^64 connections no generation is given out twice and none is reported disconnected twice |
| Connections.StaleExitIsSilent | crates/vartalaap-core/src/node.rs:1328-1352 | a superseded loop changes and reports nothing when it ends |
| Connections.CurrentExitEvictsItsOwn | crates/vartalaap-core/src/node.rs:1333-1352 | a loop that ends while registered takes down its own connection alone |
| Connections.ExitEvictsIff | crates/vartalaap-core/src/node.rs:1331-1347 | a loop that ends evicts its peer's newest connection exactly when that is its own or was opened a multiple of 2^64 later |
| Stores.SecretAfterPut | crates/vartalaap-store/src/lib.rs:49-80 | what is put can be got under the same key and no other, what is deleted is gone, and nothing else changes |
| Stores.Store.PutSecret | crates/vartalaap-store/src/lib.rs:49-64 | afterwards the entry reads as the plaintext, and no other entry has changed |
| Stores.Store.GetSecret | crates/vartalaap-store/src/lib.rs:67-80 | nothing for an absent entry, else the plaintext or the decryption error |
| Stores.Store.DeleteSecret | crates/vartalaap-store/src/lib.rs:124-137 | that entry is gone, every other is as it was |
| Stores.Store.ListSecrets | crates/vartalaap-store/src/lib.rs:100-121 | the range scan with early break returns exactly the entries under the prefix, in key order |
| Stores.Store.Quarantine | crates/vartalaap-store/src/lib.rs:142-161 | moves the raw bytes to the slot and removes the entry |
| Persist.LoadPrefix | crates/vartalaap-core/src/persist.rs:65-85 | returns the readable entries, warns of the others and quarantines each; `LoadedExactly` says which these are |
| Persist.LoadedExactly | crates/vartalaap-core/src/persist.rs:65-85 | the items are exactly the entries under the prefix that were sealed under the key and parse, in ascending order; every other entry under it is warned of |
| Persist.LoadMovesUnreadable | crates/vartalaap-core/src/persist.rs:65-85 | each unreadable entry ends byte for byte in its slot and nowhere else; the rest is as it was |
| Persist.SecondLoadQuiet | crates/vartalaap-core/src/persist.rs:65-85 | a second load returns the same items without a warning |
| Persist.SecondLoadQuietIff | crates/vartalaap-core/src/persist.rs:65-85 | and with free slots exactly when no slot lies under the prefix |
| Persist.FamiliesOutOfTheWay | crates/vartalaap-core/src/persist.rs:93-134 | the stored families meet that condition |
| Persist.OthersKeptIff | crates/vartalaap-store/src/lib.rs:142-161 | every other entry survives exactly when no slot held something else |
| Persist.OccupiedSlotOverwritten | crates/vartalaap-store/src/lib.rs:142-161 | an occupied slot loses what it held |
| Vault.Engine.OpenWith | crates/vartalaap-core/src/lib.rs:74-122 | the steps and early returns of opening, through the store: success hands out the identity that is then stored under the derived key, refusal changes no entry, an empty directory yields the fresh seed |
| Vault.OpenedIsStored | crates/vartalaap-core/src/lib.rs:74-122 | whatever the directory was, a successful attempt hands out the identity stored afterwards under its key, with the sentinel present |
| Vault.FirstOpen | crates/vartalaap-core/src/lib.rs:104-121 | the first open of an empty directory hands out the fresh seed |
| Vault.SameIdentityEverAfter | crates/vartalaap-core/src/lib.rs:74-122 | after a successful attempt, whatever happens in between, every later success hands out that identity, and every uncut attempt with that passphrase succeeds |
| Vault.RefusedChangesNothing | crates/vartalaap-core/src/lib.rs:82-117 | a refused attempt changes no entry |
| Vault.Engine.LoadOrCreateSalt | crates/vartalaap-core/src/lib.rs:165-182 | a 16-byte salt file is used, any other length refused, a missing one created |
| Vault.WrongKeyRefused | crates/vartalaap-core/src/lib.rs:82-117 | with an identity stored, any other key yields WrongPassphrase and changes nothing |
| Vault.RightKeyOpens | crates/vartalaap-core/src/lib.rs:82-122 | the right key returns the stored identity and at most adds the missing sentinel |
| Vault.IdentityIsFinal | crates/vartalaap-core/src/lib.rs:74-122 | over any sequence of attempts, cut short or not, the identity and its key stay |
| Vault.UnlockOverRuns | crates/vartalaap-core/src/lib.rs:74-122 | after any such sequence wrong keys are refused unchanged and the right one returns that identity |
| Vault.WrittenAtMostOnce | crates/vartalaap-core/src/lib.rs:104-121 | over a run from an empty directory identity and sentinel are each written at most once |
| Vault.TornSaltIsRefused | crates/vartalaap-core/src/lib.rs:165-182 | a salt file cut short is refused ever after, with no entry lost |
| Blobs.ReadFill | crates/vartalaap-blobs/src/lib.rs:153-163 | for every pattern of short reads the buffer is filled or the file is at its end |
| Blobs.HashFile | crates/vartalaap-blobs/src/lib.rs:50-64 | digest and size of the whole file for every pattern of short reads |
| Blobs.EncryptStream.NextChunk | crates/vartalaap-blobs/src/lib.rs:103-111 | the next 64 KiB or what is left, sealed; nothing at the end of the file |
| Blobs.DecryptSink.WriteChunk | crates/vartalaap-blobs/src/lib.rs:133-138 | appends an opened chunk to file and hash, or fails and appends nothing |
| Blobs.DecryptSink.Finish | crates/vartalaap-blobs/src/lib.rs:142-149 | the file written is accepted if its digest is the expected one, else a hash mismatch |
| Blobs.BlobSend.WriteChunk | crates/vartalaap-net/src/lib.rs:326-331 | appends the 32-bit little-endian length and the chunk |
| Blobs.BlobSend.Finish | crates/vartalaap-net/src/lib.rs:334-341 | appends the zero-length terminator |
| Blobs.BlobRecv.NextChunk | crates/vartalaap-net/src/lib.rs:355-365 | one frame, the end at a zero length, an error when the stream ends early |
| Blobs.SendFile | crates/vartalaap-core/src/node.rs:722-729 | the sending loop produces the specified stream whatever the short reads |
| Blobs.ReceiveFile | crates/vartalaap-core/src/node.rs:1839-1883 | the receiving loop computes the specified outcome |
| Blobs.Transfer | crates/vartalaap-blobs/src/lib.rs:50-163 | hashed under one pattern of short reads and sent under another, every file arrives and is accepted |
| Blobs.RoundTrip | crates/vartalaap-net/src/lib.rs:324-366 | chunk, seal, frame, parse, open and append give back every file |
| Blobs.FrameParsesIff | crates/vartalaap-net/src/lib.rs:326-331 | a chunk survives framing exactly when its length is neither zero nor beyond 32 bits |
| Blobs.SealedLengthFits | crates/vartalaap-blobs/src/lib.rs:103-111 | every chunk sent is 1 to 65536 bytes, so its sealed length fits and is not the terminator |
| Blobs.StreamLayout | crates/vartalaap-net/src/lib.rs:324-331 | octet by octet: at 65580 times k the sealed length of the k-th 65536 bytes in four octets, least significant first, then these bytes sealed |
| Blobs.AcceptedIffSealed | crates/vartalaap-core/src/node.rs:1839-1883 | any stream at all is accepted exactly when it carries chunks sealed under the key that join to the promised file |
| Blobs.AcceptedIffJoins | crates/vartalaap-blobs/src/lib.rs:142-149 | whole chunks dropped, repeated or reordered: accepted exactly when they join to the file, else a hash mismatch |
| Blobs.TruncatedIsRefused | crates/vartalaap-net/src/lib.rs:355-365 | a stream cut anywhere is reported as interrupted |
| Blobs.WrongKeyIff | crates/vartalaap-blobs/src/lib.rs:133-138 | under another key every file but the empty one is refused |

## Assumptions of the model

- Byte-array ids are natural numbers (big-endian, so the orders agree); fresh random ids are steps'
  parameters constrained to be unused where the code relies on it.
- u64 counters wrap as in a release build; theorems say where they need that no wrap happens.
- Handling one frame is one step. Frames in flight arrive at most once and in any order; those of a connection
  are lost when it is renewed, those to a node when it restarts. Removing a contact leaves frames in flight,
  which covers a handler that was already running.
- A restart brings back conversations and groups from an up-to-date vault through a snapshot round trip, and
  nothing else.
- Encryption, hashing and key derivation are symbolic: a ciphertext opens under exactly the session or key
  that made it, and distinct inputs have distinct digests and keys.
- Decoded values are used where the code serialises them; the codec is taken to be injective.

## Left out

- Applications, packaging and scripts; the iroh endpoint, discovery, dialing, timeouts and connect codes.
- Profiles, key pinning, the contact roster, typing, presence, aliases and display names.
- Internals of Olm, XChaCha20-Poly1305, Argon2id, Ed25519 and SHA-256, including Olm's limits on skipped
  message keys (40 keys, gaps of 2000) and on one-time keys kept by an account.
- JSON, hex and base58; the hex parsing of keys in `load_convos` and `load_group_convos`; the text of
  warnings; `load_or_create_msg_account`.
- The order in which concurrent writers persist a conversation: the vault may lag behind memory.
- Waiting for a file offer, the download path and the `pending_files` table.
- Unread counts: they follow the watermark by definition.
- NodeObject.Node.HandleFrame: profile, typing and presence frames, and the pending file an offer registers, are
  left out with the features they belong to.
- NodeObject.Node.HandleHello: the pin check is left out.
- NodeObject.Node.SetUpConnection: the contact roster, the pin check and `ContactUpdated` are left out, and so is
  the replay of frames that overtook the Hello: to the network model they arrive right after it. The deferred
  exchange of the higher id goes out with the first payload that is read (`ReadFrames`); that the lower id's first
  frame arrives is the transport's promise.
- NodeObject.Node.RemoveContact: deleting the vault entries and `ContactUpdated` are left out.
- SessionRace.EveryDeliveryDecrypts: takes `encrypt_for` and `decrypt_payload` as one step each, within one
  connection; `SingleInitiation` covers the finer granularity of `encrypt_for`.
- NodeObject.Node.SendMessage: the one dial attempt before sending is left out: `conns` is as it leaves it.
- Delivery.DeliveryComplete: for a connection that begins with nothing in flight between the two, as it does when
  the old one is closed; otherwise, and if the two write to each other meanwhile, `ConfirmedIff` and
  `EarlierDelivered` say what holds.
- Connections.GenerationsReportedOnce: among 2^64 connections; `ExitEvictsIff` says what happens beyond.
- Blobs.RoundTrip: the file does not change between hashing and sending.
