/** What the node's frame handlers do to conversations, groups and delivery bookkeeping, as functions
    on the part of the state they touch. `NodeObject` implements them step by step. */
module Content {
  import opened Wire
  import opened Ordering
  import opened Conversations
  import opened Snapshots

  datatype State = State(
    conversations: map<PeerKey, Convo>,
    groups: map<GroupId, GroupInfo>,
    groupConvos: map<GroupId, Convo>,
    peerHave: map<PeerKey, set<MessageId>>,
    queued: map<PeerKey, set<MessageId>>)

  const FRESH := State(map[], map[], map[], map[], map[])

  // ------------------------------------------------------------------ lookups

  function ConvoWith(st: State, peer: PeerKey): Convo
  {
    if peer in st.conversations then st.conversations[peer] else EMPTY
  }

  function GroupConvo(st: State, g: GroupId): Convo
  {
    if g in st.groupConvos then st.groupConvos[g] else EMPTY
  }

  function HaveOf(st: State, peer: PeerKey): set<MessageId>
  {
    if peer in st.peerHave then st.peerHave[peer] else {}
  }

  function QueuedFor(st: State, peer: PeerKey): set<MessageId>
  {
    if peer in st.queued then st.queued[peer] else {}
  }

  /** Both ends are on the roster we hold. */
  predicate GroupAllows(st: State, g: GroupId, peer: PeerKey, me: PeerKey)
  {
    g in st.groups && peer in st.groups[g].members && me in st.groups[g].members
  }

  /** Both ends are on the roster the sender claims. */
  predicate InfoAdmits(info: GroupInfo, peer: PeerKey, me: PeerKey)
  {
    peer in info.members && me in info.members
  }

  function IsDelivered(st: State, peer: PeerKey, m: Message): bool
  {
    m.id in HaveOf(st, peer) || (peer in st.conversations && Watermark(st.conversations[peer], peer) >= m.lamport)
  }

  /** The status shown beside a message; none for the peer's own. */
  function StatusOf(st: State, me: PeerKey, peer: PeerKey, m: Message): Option<DeliveryStatus>
  {
    if m.author != me then None
    else if IsDelivered(st, peer, m) then Some(Delivered)
    else if m.id in QueuedFor(st, peer) then Some(Queued)
    else Some(Sent)
  }

  // ------------------------------------------------------------------ sync

  function HaveFrame(scope: SyncScope, c: Convo): Frame { SyncHave(scope, SortedIds(Have(c))) }

  function DeltaFrame(scope: SyncScope, c: Convo, have: set<MessageId>): Frame
  {
    SyncDelta(scope, DeltaSince(c, have), ReactionList(c), ReadList(c))
  }

  function IdSet(ids: seq<MessageId>): set<MessageId> { set id | id in ids }

  function BuildDelta(st: State, me: PeerKey, peer: PeerKey, scope: SyncScope, ids: seq<MessageId>): Option<Frame>
  {
    match scope
    case Direct =>
      if peer in st.conversations then Some(DeltaFrame(scope, st.conversations[peer], IdSet(ids))) else None
    case Group(g) =>
      if GroupAllows(st, g, peer, me) && g in st.groupConvos
      then Some(DeltaFrame(scope, st.groupConvos[g], IdSet(ids))) else None
  }

  /** The listed ids that satisfy `keep`, in list order, repeats included. */
  function Filter(ids: seq<MessageId>, keep: set<MessageId>): seq<MessageId>
  {
    if ids == [] then []
    else
      var k := |ids| - 1;
      Filter(ids[..k], keep) + (if ids[k] in keep then [ids[k]] else [])
  }

  function DeliveredEvents(peer: PeerKey, ids: seq<MessageId>): seq<Event>
  {
    if ids == [] then []
    else DeliveredEvents(peer, ids[..|ids| - 1]) + [MessageStatus(peer, ids[|ids| - 1], Delivered)]
  }

  function OwnIds(c: Convo, me: PeerKey): set<MessageId>
  {
    set id | id in c.messages && c.messages[id].author == me
  }

  /** `absorb_peer_have`: learn what the peer holds. */
  function Absorb(st: State, peer: PeerKey, ids: seq<MessageId>): State
  {
    st.(peerHave := st.peerHave[peer := HaveOf(st, peer) + IdSet(ids)],
        queued := if peer in st.queued then st.queued[peer := st.queued[peer] - IdSet(ids)] else st.queued)
  }

  /** The own messages a have-list newly confirms, in list order. */
  function NewlyListed(st: State, me: PeerKey, peer: PeerKey, ids: seq<MessageId>): seq<MessageId>
  {
    Filter(ids, OwnIds(ConvoWith(st, peer), me) - HaveOf(st, peer))
  }

  /** Our own messages a `Read` up to `upTo` newly covers. */
  function ReadCovers(st: State, me: PeerKey, peer: PeerKey, upTo: Stamp): set<MessageId>
  {
    var c := ConvoWith(st, peer);
    (set id | id in OwnIds(c, me) && c.messages[id].lamport <= upTo) - HaveOf(st, peer)
  }

  function IdsOf(ms: seq<Message>): seq<MessageId>
  {
    if ms == [] then [] else IdsOf(ms[..|ms| - 1]) + [ms[|ms| - 1].id]
  }

  lemma {:induction false} IdsOfAt(ms: seq<Message>)
    ensures |IdsOf(ms)| == |ms| && forall i :: 0 <= i < |ms| ==> IdsOf(ms)[i] == ms[i].id
  {
    if ms != [] {
      IdsOfAt(ms[..|ms| - 1]);
    }
  }

  /** The ids to report, in the order the conversation is displayed. */
  function ShownIds(c: Convo, keep: set<MessageId>): seq<MessageId>
  {
    Filter(IdsOf(MessagesOrdered(c)), keep)
  }

  function TakeRead(st: State, me: PeerKey, peer: PeerKey, upTo: Stamp): State
  {
    var newly := ReadCovers(st, me, peer, upTo);
    st.(conversations := st.conversations[peer := MarkRead(ConvoWith(st, peer), peer, upTo)],
        peerHave := st.peerHave[peer := HaveOf(st, peer) + newly],
        queued := if peer in st.queued then st.queued[peer := st.queued[peer] - newly] else st.queued)
  }

  /** `apply_delta`: merge what arrived into the conversation the scope names. */
  function TakeDelta(st: State, me: PeerKey, peer: PeerKey, scope: SyncScope,
                     ms: seq<Message>, rs: seq<Reaction>, ps: seq<Mark>): State
  {
    match scope
    case Direct =>
      st.(conversations := st.conversations[peer := ApplyDelta(ConvoWith(st, peer), ms, rs, ps)])
    case Group(g) =>
      if GroupAllows(st, g, peer, me)
      then st.(groupConvos := st.groupConvos[g := ApplyDelta(GroupConvo(st, g), ms, rs, ps)])
      else st
  }

  /** How many messages a delta adds to `c`. */
  function Added(c: Convo, ms: seq<Message>): nat
  {
    ApplyAllFrame(c, ms);
    SetGrows(c.messages.Keys, ApplyAll(c, ms).messages.Keys);
    |ApplyAll(c, ms).messages.Keys| - |c.messages.Keys|
  }

  lemma SetGrows<T>(a: set<T>, b: set<T>)
    requires a <= b
    ensures |a| <= |b| && (|a| == |b| ==> a == b)
  {
    assert b == a + (b - a);
    assert |b| == |a| + |b - a|;
  }

  // ------------------------------------------------------------------ groups

  /** Take in a group we are told about; a roster we already hold is never replaced. */
  function Admit(st: State, info: GroupInfo): State
  {
    st.(groups := if info.id in st.groups then st.groups else st.groups[info.id := info],
        groupConvos := if info.id in st.groupConvos then st.groupConvos else st.groupConvos[info.id := EMPTY])
  }

  // ------------------------------------------------------------------ one handled frame

  /** The state after handling `f` from `peer`. */
  function After(st: State, me: PeerKey, peer: PeerKey, f: Frame): State
  {
    match f
    case Chat(m) => st.(conversations := st.conversations[peer := Apply(ConvoWith(st, peer), m)])
    case GroupInvite(info) => if InfoAdmits(info, peer, me) then Admit(st, info) else st
    case GroupAnnounce(info) => if InfoAdmits(info, peer, me) then Admit(st, info) else st
    case GroupMessage(g, m) =>
      if GroupAllows(st, g, peer, me)
      then st.(groupConvos := st.groupConvos[g := Apply(GroupConvo(st, g), m)])
      else st
    case SyncHave(scope, ids) => if scope == Direct then Absorb(st, peer, ids) else st
    case SyncDelta(scope, ms, rs, ps) => TakeDelta(st, me, peer, scope, ms, rs, ps)
    case Read(upTo) => TakeRead(st, me, peer, upTo)
  }

  /** On first news of a group, ask the sender for its history. */
  function GroupReplies(st: State, me: PeerKey, peer: PeerKey, info: GroupInfo): seq<Frame>
  {
    if InfoAdmits(info, peer, me) && info.id !in st.groups
    then [HaveFrame(Group(info.id), GroupConvo(st, info.id))] else []
  }

  /** The frames sent back to `peer` on handling `f`. */
  function Replies(st: State, me: PeerKey, peer: PeerKey, f: Frame): seq<Frame>
  {
    match f
    case GroupInvite(info) => GroupReplies(st, me, peer, info)
    case GroupAnnounce(info) => GroupReplies(st, me, peer, info)
    case SyncHave(scope, ids) =>
      var delta := BuildDelta(st, me, peer, scope, ids);
      if delta.Some? then [delta.value] else []
    case SyncDelta(scope, ms, rs, ps) =>
      if scope == Direct && Added(ConvoWith(st, peer), ms) > 0
      then [HaveFrame(Direct, ApplyDelta(ConvoWith(st, peer), ms, rs, ps))] else []
    case _ => []
  }

  /** The events reported on handling `f`. */
  function Emitted(st: State, me: PeerKey, peer: PeerKey, f: Frame): seq<Event>
  {
    match f
    case Chat(m) => [MessageReceived(peer, m)]
    case GroupInvite(info) => if InfoAdmits(info, peer, me) then [GroupInvited(info.id)] else []
    case GroupAnnounce(info) =>
      if InfoAdmits(info, peer, me) && info.id !in st.groups then [GroupInvited(info.id)] else []
    case GroupMessage(g, m) => if GroupAllows(st, g, peer, me) then [GroupMessageReceived(g, m)] else []
    case SyncHave(scope, ids) =>
      if scope == Direct then DeliveredEvents(peer, NewlyListed(st, me, peer, ids)) else []
    case SyncDelta(scope, ms, rs, ps) =>
      (match scope
       case Direct => [HistorySynced(peer, scope, Added(ConvoWith(st, peer), ms))]
       case Group(g) =>
         if GroupAllows(st, g, peer, me) then [HistorySynced(peer, scope, Added(GroupConvo(st, g), ms))] else [])
    case Read(upTo) =>
      [ReadReceipt(peer, upTo)] + DeliveredEvents(peer, ShownIds(ConvoWith(st, peer), ReadCovers(st, me, peer, upTo)))
  }

  // ------------------------------------------------------------------ local actions

  /** `setup_connection` makes sure there is a conversation to sync. */
  function Greet(st: State, peer: PeerKey): State
  {
    st.(conversations := st.conversations[peer := ConvoWith(st, peer)])
  }

  /** The groups we know that list `peer`. */
  function SharedGroups(st: State, peer: PeerKey): set<GroupId>
  {
    set g | g in st.groups && peer in st.groups[g].members
  }

  function Announces(st: State, gs: seq<GroupId>): (fs: seq<Frame>)
    requires forall g :: g in gs ==> g in st.groups
    ensures forall f :: f in fs <==> exists g :: g in gs && f == GroupAnnounce(st.groups[g])
  {
    if gs == [] then []
    else
      var k := |gs| - 1;
      assert gs == gs[..k] + [gs[k]];
      Announces(st, gs[..k]) + [GroupAnnounce(st.groups[gs[k]])]
  }

  function GroupHaves(st: State, gs: seq<GroupId>): (fs: seq<Frame>)
    ensures forall f :: f in fs <==> exists g :: g in gs && f == HaveFrame(Group(g), GroupConvo(st, g))
  {
    if gs == [] then []
    else
      var k := |gs| - 1;
      assert gs == gs[..k] + [gs[k]];
      GroupHaves(st, gs[..k]) + [HaveFrame(Group(gs[k]), GroupConvo(st, gs[k]))]
  }

  /** `post_connect`: announce every group shared with the peer and offer sync for every shared scope. */
  function Offers(st: State, peer: PeerKey): seq<Frame>
  {
    var gs := SortedIds(SharedGroups(st, peer));
    Announces(st, gs) + [HaveFrame(Direct, ConvoWith(st, peer))] + GroupHaves(st, gs)
  }

  lemma InThree<T>(a: seq<T>, d: T, h: seq<T>, f: T)
    ensures f in a + [d] + h <==> f in a || f == d || f in h
  {
  }

  lemma OffersAre(st: State, peer: PeerKey)
    ensures forall f :: f in Offers(st, peer) <==>
      || f == HaveFrame(Direct, ConvoWith(st, peer))
      || (exists g :: g in SharedGroups(st, peer) && f == GroupAnnounce(st.groups[g]))
      || (exists g :: g in SharedGroups(st, peer) && f == HaveFrame(Group(g), GroupConvo(st, g)))
  {
    var gs := SortedIds(SharedGroups(st, peer));
    forall f ensures f in Offers(st, peer) <==>
      f in Announces(st, gs) || f == HaveFrame(Direct, ConvoWith(st, peer)) || f in GroupHaves(st, gs) {
      InThree(Announces(st, gs), HaveFrame(Direct, ConvoWith(st, peer)), GroupHaves(st, gs), f);
    }
  }

  /** `send_text` records the message; `queue` says the send did not reach a live connection. */
  function SendText(st: State, peer: PeerKey, m: Message, queue: bool): State
  {
    st.(conversations := st.conversations[peer := Insert(ConvoWith(st, peer), m)],
        queued := if queue then st.queued[peer := QueuedFor(st, peer) + {m.id}] else st.queued)
  }

  function CreateGroup(st: State, info: GroupInfo): State
  {
    st.(groups := st.groups[info.id := info],
        groupConvos := if info.id in st.groupConvos then st.groupConvos else st.groupConvos[info.id := EMPTY])
  }

  function SendGroupText(st: State, g: GroupId, m: Message): State
  {
    st.(groupConvos := st.groupConvos[g := Insert(GroupConvo(st, g), m)])
  }

  function MarkReadDirect(st: State, me: PeerKey, peer: PeerKey, upTo: Stamp): State
  {
    st.(conversations := st.conversations[peer := MarkRead(ConvoWith(st, peer), me, upTo)])
  }

  /** The stamp of the last message shown, as `mark_read_group` uses it. */
  function LastStamp(c: Convo): Stamp
  {
    var q := MessagesOrdered(c);
    if q == [] then 0 else q[|q| - 1].lamport
  }

  function MarkReadGroup(st: State, me: PeerKey, g: GroupId): State
  {
    if g in st.groupConvos
    then st.(groupConvos := st.groupConvos[g := MarkRead(st.groupConvos[g], me, LastStamp(st.groupConvos[g]))])
    else st
  }

  /** `remove_contact`. */
  function Forgotten(st: State, peer: PeerKey): State
  {
    st.(conversations := st.conversations - {peer}, peerHave := st.peerHave - {peer}, queued := st.queued - {peer})
  }

  /** The process ends and starts again: conversations and groups come back from the vault, delivery
      bookkeeping does not. */
  function Restarted(st: State): State
  {
    State(map p | p in st.conversations :: Restore(Take(st.conversations[p])), st.groups,
          map g | g in st.groupConvos :: Restore(Take(st.groupConvos[g])), map[], map[])
  }

  lemma RestartKeepsConvo(st: State, q: PeerKey)
    ensures Obs(ConvoWith(Restarted(st), q)) == Obs(ConvoWith(st, q))
    ensures q in Restarted(st).conversations <==> q in st.conversations
  {
    if q in st.conversations { RestoreKeepsContents(st.conversations[q]); }
  }

  lemma RestartKeepsGroup(st: State, g: GroupId)
    ensures Obs(GroupConvo(Restarted(st), g)) == Obs(GroupConvo(st, g))
    ensures g in Restarted(st).groupConvos <==> g in st.groupConvos
  {
    if g in st.groupConvos { RestoreKeepsContents(st.groupConvos[g]); }
  }
}
