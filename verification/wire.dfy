/** Identifiers and wire types. A fixed-length byte array ([u8; 16], [u8; 32]) is read as a
    big-endian natural number, so lexicographic byte order is numeric order. */
module Wire {

  type MessageId = nat
  type PeerKey = nat
  type AuthorId = PeerKey
  type GroupId = nat

  /** The range of u64. */
  const MAX_STAMP: nat := 0xFFFF_FFFF_FFFF_FFFF
  type Stamp = n: nat | n <= MAX_STAMP

  datatype Option<+T> = None | Some(value: T)

  function Lookup<K, V>(m: map<K, V>, k: K): Option<V> { if k in m then Some(m[k]) else None }

  datatype FileRef = FileRef(transferId: nat, name: string, size: nat, mime: string, sha256: nat)

  datatype MessageKind = Text | File(file: FileRef)

  datatype Message = Message(
    id: MessageId, author: AuthorId, lamport: Stamp, sentAt: nat, body: string, kind: MessageKind)

  datatype Reaction = Reaction(message: MessageId, author: AuthorId, emoji: string)

  /** One `(author, lamport)` entry of a watermark list. */
  datatype Mark = Mark(author: AuthorId, lamport: Stamp)

  datatype GroupInfo = GroupInfo(id: GroupId, name: string, members: seq<PeerKey>, creator: PeerKey)

  datatype SyncScope = Direct | Group(gid: GroupId)

  datatype DeliveryStatus = Queued | Sent | Delivered

  /** The decrypted frames that touch conversations and groups, with the `Read` control frame.
      A file offer acts on a conversation exactly as a chat message does. */
  datatype Frame =
    | Chat(message: Message)
    | GroupInvite(info: GroupInfo)
    | GroupMessage(group: GroupId, message: Message)
    | GroupAnnounce(info: GroupInfo)
    | SyncHave(scope: SyncScope, ids: seq<MessageId>)
    | SyncDelta(scope: SyncScope, messages: seq<Message>, reactions: seq<Reaction>, read: seq<Mark>)
    | Read(upTo: Stamp)

  datatype Event =
    | MessageReceived(peer: PeerKey, message: Message)
    | GroupInvited(group: GroupId)
    | GroupMessageReceived(group: GroupId, message: Message)
    | HistorySynced(peer: PeerKey, scope: SyncScope, added: nat)
    | MessageStatus(peer: PeerKey, id: MessageId, status: DeliveryStatus)
    | ReadReceipt(peer: PeerKey, upTo: Stamp)
    | PeerConnected(peer: PeerKey)
    | PeerDisconnected(peer: PeerKey)
}
