/** What each frame and each local action does, said in terms of what a node then holds, sends and reports. */
module Effects {
  import opened Wire
  import opened Ordering
  import opened Conversations
  import opened Content
  import opened Worlds
  import opened AntiEntropy
  import opened Snapshots

  // ------------------------------------------------------------------ vocabulary

  /** `d` is `c` with the message `m` taken in: the first message under an id stays. */
  ghost predicate TookIn(c: Convo, d: Convo, m: Message)
  {
    && m.id in d.messages && (m.id !in c.messages ==> d.messages[m.id] == m)
    && (forall id :: id in c.messages ==> id in d.messages && d.messages[id] == c.messages[id])
    && (forall id :: id in d.messages ==> id in c.messages || id == m.id)
    && d.reactions == c.reactions && d.read == c.read
    && c.lamport <= d.lamport && m.lamport <= d.lamport && (d.lamport == c.lamport || d.lamport == m.lamport)
  }

  /** `d` is `c` with a newly written message `m`, which carries the next stamp. */
  ghost predicate Wrote(c: Convo, d: Convo, m: Message)
  {
    && (c.lamport < MAX_STAMP ==> m.lamport == c.lamport + 1) && d.lamport == m.lamport
    && m.id in d.messages && d.messages[m.id] == m
    && (forall id :: id != m.id ==> (id in d.messages <==> id in c.messages))
    && (forall id :: id != m.id && id in c.messages ==> d.messages[id] == c.messages[id])
    && d.reactions == c.reactions && d.read == c.read
  }

  /** `d` is `c` with the watermark of `a` raised to at least `upTo`, and no further than needed. */
  ghost predicate Marked(c: Convo, d: Convo, a: AuthorId, upTo: Stamp)
  {
    && a in d.read && upTo <= d.read[a] && (a in c.read ==> c.read[a] <= d.read[a])
    && (d.read[a] == upTo || (a in c.read && d.read[a] == c.read[a]))
    && (forall b :: b != a ==> Lookup(d.read, b) == Lookup(c.read, b))
    && d.messages == c.messages && d.reactions == c.reactions && d.lamport == c.lamport
  }

  /** `d` is `c` with the parts of a delta joined in. */
  ghost predicate Folded(c: Convo, d: Convo, ms: seq<Message>, rs: seq<Reaction>, ps: seq<Mark>)
  {
    && (forall id :: id in d.messages <==> id in c.messages || exists m :: m in ms && m.id == id)
    && (forall id :: id in c.messages ==> d.messages[id] == c.messages[id])
    && (forall id :: id in d.messages && id !in c.messages ==> d.messages[id] in ms)
    && (forall r :: r in d.reactions <==> r in c.reactions || r in rs)
    && (forall a :: a in d.read <==> a in c.read || exists p :: p in ps && p.author == a)
    && (forall a :: a in c.read ==> c.read[a] <= d.read[a])
    && (forall p :: p in ps ==> p.lamport <= d.read[p.author])
    && (forall a :: a in d.read ==> (a in c.read && d.read[a] == c.read[a]) || Mark(a, d.read[a]) in ps)
    && c.lamport <= d.lamport && forall m :: m in ms ==> m.lamport <= d.lamport
  }

  /** Both ends are on the roster held for the group. */
  ghost predicate Listed(st: State, g: GroupId, peer: PeerKey, me: PeerKey)
  {
    g in st.groups && peer in st.groups[g].members && me in st.groups[g].members
  }

  /** Nothing differs but the conversation of the group `g`. */
  ghost predicate ElsewhereSame(st: State, n: State, g: GroupId)
  {
    && n.conversations == st.conversations && n.groups == st.groups && n.peerHave == st.peerHave && n.queued == st.queued
    && forall h :: h != g ==> Lookup(n.groupConvos, h) == Lookup(st.groupConvos, h)
  }

  /** The frame lists exactly the ids held in `c`. */
  ghost predicate ListsAll(f: Frame, scope: SyncScope, c: Convo)
  {
    f.SyncHave? && f.scope == scope && forall id :: id in f.ids <==> id in c.messages
  }

  /** The frame carries exactly the messages of `c` that are not listed, and all reactions and watermarks. */
  ghost predicate Answers(f: Frame, scope: SyncScope, c: Convo, ids: seq<MessageId>)
  {
    && f.SyncDelta? && f.scope == scope
    && (forall m :: m in f.messages <==> m.id in c.messages && c.messages[m.id] == m && m.id !in ids)
    && (forall r :: r in f.reactions <==> r in c.reactions)
    && (forall p :: p in f.read <==> p.author in c.read && c.read[p.author] == p.lamport)
  }

  lemma HaveFrameListsAll(scope: SyncScope, c: Convo)
    ensures ListsAll(HaveFrame(scope, c), scope, c)
  {
  }

  lemma DeltaFrameAnswers(scope: SyncScope, c: Convo, ids: seq<MessageId>)
    ensures Answers(DeltaFrame(scope, c, IdSet(ids)), scope, c, ids)
  {
    ListingAnswers(scope, c, ids, DeltaSince(c, IdSet(ids)), ReactionList(c), ReadList(c));
  }

  lemma ListingAnswers(scope: SyncScope, c: Convo, ids: seq<MessageId>, ms: seq<Message>, rs: seq<Reaction>, ps: seq<Mark>)
    requires ListsMessages(ms, c.messages, c.messages.Keys - IdSet(ids)) && SameElements(rs, c.reactions) && ListsMarks(ps, c.read)
    ensures Answers(SyncDelta(scope, ms, rs, ps), scope, c, ids)
  {
    forall p ensures p in ps <==> p.author in c.read && c.read[p.author] == p.lamport {
      if p.author in c.read && c.read[p.author] == p.lamport { assert Mark(p.author, c.read[p.author]) == p; }
    }
  }

  // ------------------------------------------------------------------ messages that arrive

  lemma ApplyTakesIn(c: Convo, m: Message)
    ensures TookIn(c, Apply(c, m), m)
  {
  }

  /** A live message goes into the conversation with its sender, is reported, and answered with nothing. */
  lemma ChatArrives(st: State, me: PeerKey, peer: PeerKey, m: Message)
    ensures var n := After(st, me, peer, Chat(m));
      && peer in n.conversations && TookIn(ConvoWith(st, peer), n.conversations[peer], m)
      && n.groups == st.groups && n.groupConvos == st.groupConvos && n.peerHave == st.peerHave && n.queued == st.queued
    ensures Replies(st, me, peer, Chat(m)) == [] && Emitted(st, me, peer, Chat(m)) == [MessageReceived(peer, m)]
  {
    ApplyTakesIn(ConvoWith(st, peer), m);
  }

  /** A live group message goes into the group's conversation if both ends are on the roster, and else nowhere. */
  lemma GroupMessageArrives(st: State, me: PeerKey, peer: PeerKey, g: GroupId, m: Message)
    ensures var n := After(st, me, peer, GroupMessage(g, m));
      if Listed(st, g, peer, me)
      then g in n.groupConvos && TookIn(GroupConvo(st, g), n.groupConvos[g], m) && ElsewhereSame(st, n, g)
      else n == st
    ensures Replies(st, me, peer, GroupMessage(g, m)) == []
    ensures Emitted(st, me, peer, GroupMessage(g, m)) ==
      if Listed(st, g, peer, me) then [GroupMessageReceived(g, m)] else []
  {
    ApplyTakesIn(GroupConvo(st, g), m);
  }

  /** In the network: the receiver of a group message whose sender and receiver it lists holds it afterwards, with a
      clock that has reached it; in any other case nothing is stored. It is reported exactly then. */
  lemma GroupMessageDelivered(w: World, i: nat)
    requires Enabled(w, Receive(i)) && w.net[i].frame.GroupMessage?
    ensures var x, n := w.net[i], Next(w, Receive(i)); var g, m := x.frame.group, x.frame.message;
      && x.to in n.nodes && (forall y :: y in n.net ==> y in w.net)
      && (Listed(w.nodes[x.to], g, x.from, x.to) ==>
            TookIn(GroupConvo(w.nodes[x.to], g), GroupConvo(n.nodes[x.to], g), m))
      && (!Listed(w.nodes[x.to], g, x.from, x.to) ==> n.nodes == w.nodes)
    ensures var x := w.net[i];
      forall h, k :: GroupMessageReceived(h, k) in Emitted(w.nodes[x.to], x.to, x.from, x.frame) <==>
        h == x.frame.group && k == x.frame.message && Listed(w.nodes[x.to], h, x.from, x.to)
  {
    var x := w.net[i];
    ReceiveNet(w, i);
    GroupMessageArrives(w.nodes[x.to], x.to, x.from, x.frame.group, x.frame.message);
  }

  // ------------------------------------------------------------------ read receipts

  /** An own message that the receipt covers and that was not known to be held. */
  ghost predicate NewlyCovered(st: State, me: PeerKey, peer: PeerKey, upTo: Stamp, id: MessageId)
  {
    var c := ConvoWith(st, peer);
    id in c.messages && c.messages[id].author == me && c.messages[id].lamport <= upTo && id !in HaveOf(st, peer)
  }

  lemma ReadArrives(st: State, me: PeerKey, peer: PeerKey, upTo: Stamp)
    ensures var n := After(st, me, peer, Read(upTo));
      && peer in n.conversations && Marked(ConvoWith(st, peer), n.conversations[peer], peer, upTo)
      && (forall id :: id in HaveOf(n, peer) <==> id in HaveOf(st, peer) || NewlyCovered(st, me, peer, upTo, id))
      && (forall id :: id in QueuedFor(n, peer) <==> id in QueuedFor(st, peer) && !NewlyCovered(st, me, peer, upTo, id))
      && n.groups == st.groups && n.groupConvos == st.groupConvos
    ensures Replies(st, me, peer, Read(upTo)) == []
  {
  }

  // ------------------------------------------------------------------ what is reported

  lemma {:induction false} EventsInListOrder(peer: PeerKey, ids: seq<MessageId>)
    ensures |DeliveredEvents(peer, ids)| == |ids|
    ensures forall i :: 0 <= i < |ids| ==> DeliveredEvents(peer, ids)[i] == MessageStatus(peer, ids[i], Delivered)
  {
    if ids != [] {
      EventsInListOrder(peer, ids[..|ids| - 1]);
    }
  }

  lemma {:induction false} FilterAt(ids: seq<MessageId>, keep: set<MessageId>, i: nat) returns (x: nat)
    requires i < |Filter(ids, keep)|
    ensures x < |ids| && ids[x] == Filter(ids, keep)[i] && ids[x] in keep
  {
    var k := |ids| - 1;
    if i < |Filter(ids[..k], keep)| {
      x := FilterAt(ids[..k], keep, i);
    } else {
      x := k;
    }
  }

  /** Filtering keeps the listed order. */
  lemma {:induction false} FilterInOrder(ids: seq<MessageId>, keep: set<MessageId>, i: nat, j: nat) returns (x: nat, y: nat)
    requires i < j < |Filter(ids, keep)|
    ensures x < y < |ids| && ids[x] == Filter(ids, keep)[i] && ids[y] == Filter(ids, keep)[j]
  {
    var k := |ids| - 1;
    if j < |Filter(ids[..k], keep)| {
      x, y := FilterInOrder(ids[..k], keep, i, j);
    } else {
      x := FilterAt(ids[..k], keep, i);
      y := k;
    }
  }

  lemma ShownInOrder(c: Convo, keep: set<MessageId>, i: nat, j: nat) returns (x: nat, y: nat)
    requires i < j < |ShownIds(c, keep)|
    ensures var q := MessagesOrdered(c); x < y < |q| && q[x].id == ShownIds(c, keep)[i] && q[y].id == ShownIds(c, keep)[j]
  {
    IdsOfAt(MessagesOrdered(c));
    x, y := FilterInOrder(IdsOf(MessagesOrdered(c)), keep, i, j);
  }

  lemma ReceiptFirst(st: State, me: PeerKey, peer: PeerKey, upTo: Stamp)
    ensures Emitted(st, me, peer, Read(upTo)) ==
      [ReadReceipt(peer, upTo)] + DeliveredEvents(peer, ShownIds(ConvoWith(st, peer), ReadCovers(st, me, peer, upTo)))
  {
  }

  /** A receipt is reported first, then what it newly confirms, in the order the conversation shows. */
  lemma ReadReportedInOrder(st: State, me: PeerKey, peer: PeerKey, upTo: Stamp, i: nat, j: nat) returns (x: nat, y: nat)
    requires 0 < i < j < |Emitted(st, me, peer, Read(upTo))|
    ensures Emitted(st, me, peer, Read(upTo))[0] == ReadReceipt(peer, upTo)
    ensures var q := MessagesOrdered(ConvoWith(st, peer));
      && x < y < |q|
      && Emitted(st, me, peer, Read(upTo))[i] == MessageStatus(peer, q[x].id, Delivered)
      && Emitted(st, me, peer, Read(upTo))[j] == MessageStatus(peer, q[y].id, Delivered)
  {
    var c, keep := ConvoWith(st, peer), ReadCovers(st, me, peer, upTo);
    ReceiptFirst(st, me, peer, upTo);
    x, y := EventsShownInOrder(peer, c, keep, i - 1, j - 1);
  }

  lemma EventsShownInOrder(peer: PeerKey, c: Convo, keep: set<MessageId>, i: nat, j: nat) returns (x: nat, y: nat)
    requires i < j < |DeliveredEvents(peer, ShownIds(c, keep))|
    ensures var e, q := DeliveredEvents(peer, ShownIds(c, keep)), MessagesOrdered(c);
      && x < y < |q|
      && e[i] == MessageStatus(peer, q[x].id, Delivered) && e[j] == MessageStatus(peer, q[y].id, Delivered)
  {
    EventsInListOrder(peer, ShownIds(c, keep));
    x, y := ShownInOrder(c, keep, i, j);
  }

  /** What a have-list newly confirms is reported in the order it lists. */
  lemma HaveReportedInOrder(st: State, me: PeerKey, peer: PeerKey, ids: seq<MessageId>, i: nat, j: nat) returns (x: nat, y: nat)
    requires i < j < |Emitted(st, me, peer, SyncHave(Direct, ids))|
    ensures var e := Emitted(st, me, peer, SyncHave(Direct, ids));
      && x < y < |ids|
      && e[i] == MessageStatus(peer, ids[x], Delivered) && e[j] == MessageStatus(peer, ids[y], Delivered)
  {
    EventsInListOrder(peer, NewlyListed(st, me, peer, ids));
    x, y := FilterInOrder(ids, OwnIds(ConvoWith(st, peer), me) - HaveOf(st, peer), i, j);
  }

  // ------------------------------------------------------------------ sync

  /** One delta of exactly what the asker lacks of `c`; nothing if there is no conversation it may look at. */
  ghost predicate AnsweredFrom(replies: seq<Frame>, scope: SyncScope, c: Option<Convo>, ids: seq<MessageId>)
  {
    match c
    case None => replies == []
    case Some(c) => |replies| == 1 && Answers(replies[0], scope, c, ids)
  }

  lemma DirectHaveAnswered(st: State, me: PeerKey, peer: PeerKey, ids: seq<MessageId>)
    ensures AnsweredFrom(Replies(st, me, peer, SyncHave(Direct, ids)), Direct, Lookup(st.conversations, peer), ids)
  {
    if peer in st.conversations { DeltaFrameAnswers(Direct, st.conversations[peer], ids); }
  }

  lemma GroupHaveAnswered(st: State, me: PeerKey, peer: PeerKey, g: GroupId, ids: seq<MessageId>)
    ensures AnsweredFrom(Replies(st, me, peer, SyncHave(Group(g), ids)), Group(g),
                         if Listed(st, g, peer, me) then Lookup(st.groupConvos, g) else None, ids)
  {
    if g in st.groupConvos { DeltaFrameAnswers(Group(g), st.groupConvos[g], ids); }
  }

  /** A direct one is besides taken as what the peer holds; what it confirms is no longer queued. */
  lemma HaveArrives(st: State, me: PeerKey, peer: PeerKey, scope: SyncScope, ids: seq<MessageId>)
    ensures var n := After(st, me, peer, SyncHave(scope, ids));
      && n.conversations == st.conversations && n.groups == st.groups && n.groupConvos == st.groupConvos
      && (forall id :: id in HaveOf(n, peer) <==> id in HaveOf(st, peer) || (scope == Direct && id in ids))
      && (forall id :: id in QueuedFor(n, peer) <==> id in QueuedFor(st, peer) && !(scope == Direct && id in ids))
  {
  }

  lemma ApplyDeltaFolds(c: Convo, ms: seq<Message>, rs: seq<Reaction>, ps: seq<Mark>)
    ensures Folded(c, ApplyDelta(c, ms, rs, ps), ms, rs, ps)
  {
    ApplyAllFrame(c, ms);
    ApplyAllSources(c, ms);
    RaiseMarksIs(c.read, ps);
    var d := ApplyDelta(c, ms, rs, ps);
    forall id ensures id in d.messages <==> id in c.messages || exists m :: m in ms && m.id == id {
      if id in d.messages && id !in c.messages { assert d.messages[id] in ms && d.messages[id].id == id; }
    }
  }

  lemma DirectDeltaArrives(st: State, me: PeerKey, peer: PeerKey, ms: seq<Message>, rs: seq<Reaction>, ps: seq<Mark>)
    ensures var n := After(st, me, peer, SyncDelta(Direct, ms, rs, ps));
      && peer in n.conversations && Folded(ConvoWith(st, peer), n.conversations[peer], ms, rs, ps)
      && n.groups == st.groups && n.groupConvos == st.groupConvos && n.peerHave == st.peerHave && n.queued == st.queued
  {
    DeltaHandled(st, me, peer, SyncDelta(Direct, ms, rs, ps));
    ApplyDeltaFolds(ConvoWith(st, peer), ms, rs, ps);
  }

  lemma GroupDeltaArrives(st: State, me: PeerKey, peer: PeerKey, g: GroupId, ms: seq<Message>, rs: seq<Reaction>, ps: seq<Mark>)
    ensures var n := After(st, me, peer, SyncDelta(Group(g), ms, rs, ps));
      if Listed(st, g, peer, me)
      then g in n.groupConvos && Folded(GroupConvo(st, g), n.groupConvos[g], ms, rs, ps) && ElsewhereSame(st, n, g)
      else n == st
    ensures Replies(st, me, peer, SyncDelta(Group(g), ms, rs, ps)) == []
  {
    ApplyDeltaFolds(GroupConvo(st, g), ms, rs, ps);
    GroupDeltaTaken(st, me, peer, g, ms, rs, ps);
  }

  lemma GroupDeltaTaken(st: State, me: PeerKey, peer: PeerKey, g: GroupId, ms: seq<Message>, rs: seq<Reaction>, ps: seq<Mark>)
    ensures After(st, me, peer, SyncDelta(Group(g), ms, rs, ps)) ==
      if Listed(st, g, peer, me) then st.(groupConvos := st.groupConvos[g := ApplyDelta(GroupConvo(st, g), ms, rs, ps)]) else st
  {
  }

  /** A delta adds something exactly if one of its messages is new. */
  lemma AddsIff(c: Convo, ms: seq<Message>)
    ensures Added(c, ms) > 0 <==> exists m :: m in ms && m.id !in c.messages
  {
    ApplyAllFrame(c, ms);
    ApplyAllSources(c, ms);
    var d := ApplyAll(c, ms);
    SetGrows(c.messages.Keys, d.messages.Keys);
    if forall m :: m in ms ==> m.id in c.messages {
      assert d.messages.Keys == c.messages.Keys;
    }
  }

  /** A direct delta is answered, with a have-list of everything now held, exactly if it brought something new. */
  lemma DeltaAcknowledged(st: State, me: PeerKey, peer: PeerKey, f: Frame)
    requires f.SyncDelta? && f.scope == Direct
    ensures var c, replies := ConvoWith(st, peer), Replies(st, me, peer, f);
      if exists m :: m in f.messages && m.id !in c.messages
      then |replies| == 1 && ListsAll(replies[0], Direct, ConvoWith(After(st, me, peer, f), peer))
      else replies == []
  {
    DeltaHandled(st, me, peer, f);
    AddsIff(ConvoWith(st, peer), f.messages);
    HaveFrameListsAll(Direct, Taking(ConvoWith(st, peer), f));
  }

  /** The number of messages by which `d` exceeds `c`. */
  ghost function Gained(c: Convo, d: Convo): int { |Have(d)| - |Have(c)| }

  lemma AddedIsGained(c: Convo, ms: seq<Message>, rs: seq<Reaction>, ps: seq<Mark>)
    ensures Added(c, ms) == Gained(c, ApplyDelta(c, ms, rs, ps))
  {
  }

  /** The synced event names the number of messages gained. */
  lemma DirectSyncReported(st: State, me: PeerKey, peer: PeerKey, f: Frame)
    requires f.SyncDelta? && f.scope == Direct
    ensures var e, d := Emitted(st, me, peer, f), ConvoWith(After(st, me, peer, f), peer);
      |e| == 1 && e[0].HistorySynced? && e[0].peer == peer && e[0].scope == f.scope && e[0].added == Gained(ConvoWith(st, peer), d)
  {
    AddedIsGained(ConvoWith(st, peer), f.messages, f.reactions, f.read);
  }

  lemma GroupSyncReported(st: State, me: PeerKey, peer: PeerKey, g: GroupId, f: Frame)
    requires f.SyncDelta? && f.scope == Group(g)
    ensures var e, d := Emitted(st, me, peer, f), GroupConvo(After(st, me, peer, f), g);
      if Listed(st, g, peer, me)
      then |e| == 1 && e[0].HistorySynced? && e[0].peer == peer && e[0].scope == f.scope && e[0].added == Gained(GroupConvo(st, g), d)
      else e == []
  {
    AddedIsGained(GroupConvo(st, g), f.messages, f.reactions, f.read);
  }

  // ------------------------------------------------------------------ groups

  /** The news is admitted if both ends are on the roster it claims. */
  ghost predicate Admitted(info: GroupInfo, peer: PeerKey, me: PeerKey) { peer in info.members && me in info.members }

  /** News of a group, by invite or announcement: the first admitted roster is kept, with whatever history is held. */
  lemma NewsTakenIn(st: State, me: PeerKey, peer: PeerKey, f: Frame)
    requires f.GroupInvite? || f.GroupAnnounce?
    ensures var n, info := After(st, me, peer, f), f.info;
      && (!Admitted(info, peer, me) ==> n == st)
      && (Admitted(info, peer, me) ==>
            && Lookup(n.groups, info.id) == (if info.id in st.groups then Some(st.groups[info.id]) else Some(info))
            && info.id in n.groupConvos && n.groupConvos[info.id] == GroupConvo(st, info.id))
      && (forall g :: g != info.id ==> Lookup(n.groups, g) == Lookup(st.groups, g) && Lookup(n.groupConvos, g) == Lookup(st.groupConvos, g))
      && n.conversations == st.conversations && n.peerHave == st.peerHave && n.queued == st.queued
  {
  }

  /** The first news is answered by asking for the group's history, and later news by nothing. An invite is reported
      each time, an announcement only when it is news. */
  lemma NewsAnswered(st: State, me: PeerKey, peer: PeerKey, f: Frame)
    requires f.GroupInvite? || f.GroupAnnounce?
    ensures var replies, info := Replies(st, me, peer, f), f.info;
      && (Admitted(info, peer, me) && info.id !in st.groups ==>
            |replies| == 1 && ListsAll(replies[0], Group(info.id), GroupConvo(st, info.id)))
      && (!(Admitted(info, peer, me) && info.id !in st.groups) ==> replies == [])
    ensures Emitted(st, me, peer, f) ==
      if Admitted(f.info, peer, me) && (f.GroupInvite? || f.info.id !in st.groups) then [GroupInvited(f.info.id)] else []
  {
    HaveFrameListsAll(Group(f.info.id), GroupConvo(st, f.info.id));
  }

  // ------------------------------------------------------------------ connecting

  /** The groups known that list `peer`. */
  function Common(groups: map<GroupId, GroupInfo>, peer: PeerKey): set<GroupId>
  {
    set g | g in groups && peer in groups[g].members
  }

  /** Something in `sent` lists exactly the ids held in `c`. */
  ghost predicate ListSent(sent: seq<Packet>, scope: SyncScope, c: Convo)
  {
    exists x :: x in sent && ListsAll(x.frame, scope, c)
  }

  /** All that a connect-time exchange says: the ids held of the direct conversation, and of every group that lists the
      peer its roster and the ids held. Each of them once, for the peer alone, and nothing else. */
  ghost predicate OffersAll(st: State, me: PeerKey, peer: PeerKey, sent: seq<Packet>)
  {
    && (forall x :: x in sent ==> x.from == me && x.to == peer)
    && ListSent(sent, Direct, ConvoWith(st, peer))
    && (forall g :: g in Common(st.groups, peer) ==>
          Packet(me, peer, GroupAnnounce(st.groups[g])) in sent && ListSent(sent, Group(g), GroupConvo(st, g)))
    && |sent| == 1 + 2 * |Common(st.groups, peer)|
  }

  lemma {:induction false} GroupOffersCount(st: State, gs: seq<GroupId>)
    requires forall g :: g in gs ==> g in st.groups
    ensures |Announces(st, gs)| == |gs| == |GroupHaves(st, gs)|
  {
    if gs != [] {
      GroupOffersCount(st, gs[..|gs| - 1]);
    }
  }

  lemma ListIsSent(me: PeerKey, peer: PeerKey, fs: seq<Frame>, scope: SyncScope, c: Convo)
    requires HaveFrame(scope, c) in fs
    ensures ListSent(Packets(me, peer, fs), scope, c)
  {
    HaveFrameListsAll(scope, c);
    assert Packet(me, peer, HaveFrame(scope, c)) in Packets(me, peer, fs);
  }

  lemma OffersCount(st: State, me: PeerKey, peer: PeerKey)
    ensures |Packets(me, peer, Offers(st, peer))| == 1 + 2 * |Common(st.groups, peer)|
  {
    GroupOffersCount(st, SortedIds(SharedGroups(st, peer)));
    assert Common(st.groups, peer) == SharedGroups(st, peer);
  }

  lemma GroupsOffered(st: State, me: PeerKey, peer: PeerKey, g: GroupId, fs: seq<Frame>)
    requires g in Common(st.groups, peer) && forall f :: f in Offers(st, peer) ==> f in fs
    ensures Packet(me, peer, GroupAnnounce(st.groups[g])) in Packets(me, peer, fs)
    ensures ListSent(Packets(me, peer, fs), Group(g), GroupConvo(st, g))
  {
    OffersAre(st, peer);
    assert g in SharedGroups(st, peer);
    ListIsSent(me, peer, fs, Group(g), GroupConvo(st, g));
  }

  lemma OffersSayAll(st: State, me: PeerKey, peer: PeerKey)
    ensures OffersAll(st, me, peer, Packets(me, peer, Offers(st, peer)))
  {
    var fs := Offers(st, peer);
    OffersCount(st, me, peer);
    assert HaveFrame(Direct, ConvoWith(st, peer)) in fs by { OffersAre(st, peer); }
    ListIsSent(me, peer, fs, Direct, ConvoWith(st, peer));
    forall g | g in Common(st.groups, peer)
      ensures Packet(me, peer, GroupAnnounce(st.groups[g])) in Packets(me, peer, fs)
      ensures ListSent(Packets(me, peer, fs), Group(g), GroupConvo(st, g))
    {
      GroupsOffered(st, me, peer, g, fs);
    }
  }

  /** The exchange puts all of this in flight and changes no node. */
  lemma ExchangeSent(w: World, p: PeerKey, q: PeerKey)
    requires Enabled(w, Offer(p, q))
    ensures var n := Next(w, Offer(p, q));
      n.nodes == w.nodes && w.net <= n.net && OffersAll(w.nodes[p], p, q, n.net[|w.net|..])
  {
    OffersSayAll(w.nodes[p], p, q);
    assert Next(w, Offer(p, q)).net[|w.net|..] == Packets(p, q, Offers(w.nodes[p], q));
  }

  // ------------------------------------------------------------------ local actions

  lemma AuthoredWrites(c: Convo, id: MessageId, author: AuthorId, sentAt: nat, body: string, kind: MessageKind)
    ensures var m := Authored(c, id, author, sentAt, body, kind);
      && m.id == id && m.author == author && m.sentAt == sentAt && m.body == body && m.kind == kind
      && Wrote(c, Insert(c, m), m)
  {
  }

  /** The message as its author meant it. */
  ghost predicate Says(m: Message, id: MessageId, author: AuthorId, sentAt: nat, body: string)
  {
    m.id == id && m.author == author && m.sentAt == sentAt && m.body == body && m.kind == MessageKind.Text
  }

  /** The text `m` to `peer` was written: it is in the conversation, and queued exactly if it did not get out. The status
      shown for it, unless its delivery is known already, is the status reported. */
  ghost predicate Texted(st: State, n: State, me: PeerKey, peer: PeerKey, m: Message, status: DeliveryStatus)
  {
    && peer in n.conversations && Wrote(ConvoWith(st, peer), n.conversations[peer], m)
    && (status == Queued || status == Sent)
    && QueuedFor(n, peer) == QueuedFor(st, peer) + (if status == Queued then {m.id} else {})
    && (m.id !in HaveOf(st, peer) && m.id !in QueuedFor(st, peer) && Watermark(ConvoWith(st, peer), peer) < m.lamport ==>
          StatusOf(n, me, peer, m) == Some(status))
    && HaveOf(n, peer) == HaveOf(st, peer) && n.groups == st.groups && n.groupConvos == st.groupConvos
    && forall other :: other != peer ==> SameFor(st, n, other)
  }

  lemma SendTextIs(st: State, me: PeerKey, peer: PeerKey, id: MessageId, sentAt: nat, body: string, status: DeliveryStatus)
    requires status == Queued || status == Sent
    ensures var m := Authored(ConvoWith(st, peer), id, me, sentAt, body, MessageKind.Text);
      Says(m, id, me, sentAt, body) && Texted(st, SendText(st, peer, m, status == Queued), me, peer, m, status)
  {
    var m := Authored(ConvoWith(st, peer), id, me, sentAt, body, MessageKind.Text);
    AuthoredWrites(ConvoWith(st, peer), id, me, sentAt, body, MessageKind.Text);
    WrittenIsTexted(st, me, peer, m, status);
  }

  lemma WrittenIsTexted(st: State, me: PeerKey, peer: PeerKey, m: Message, status: DeliveryStatus)
    requires (status == Queued || status == Sent) && m.author == me && Wrote(ConvoWith(st, peer), Insert(ConvoWith(st, peer), m), m)
    ensures Texted(st, SendText(st, peer, m, status == Queued), me, peer, m, status)
  {
    if m.id !in HaveOf(st, peer) && m.id !in QueuedFor(st, peer) && Watermark(ConvoWith(st, peer), peer) < m.lamport {
      SentShows(st, me, peer, m, status == Queued);
    }
    SendingLeavesOthers(st, peer, m, status == Queued);
  }

  lemma SendingLeavesOthers(st: State, peer: PeerKey, m: Message, queue: bool)
    ensures forall other :: other != peer ==> SameFor(st, SendText(st, peer, m, queue), other)
  {
  }

  lemma SentShows(st: State, me: PeerKey, peer: PeerKey, m: Message, queue: bool)
    requires m.author == me && m.id !in QueuedFor(st, peer) && m.id !in HaveOf(st, peer)
    requires Watermark(ConvoWith(st, peer), peer) < m.lamport
    ensures StatusOf(SendText(st, peer, m, queue), me, peer, m) == Some(if queue then Queued else Sent)
  {
  }

  /** Writing to a peer: stored, and either on its way or queued - one of the two. */
  lemma TextWritten(w: World, p: PeerKey, q: PeerKey, id: MessageId, sentAt: nat, body: string, live: bool) returns (m: Message)
    requires Enabled(w, Step.Text(p, q, id, sentAt, body, live))
    ensures Says(m, id, p, sentAt, body)
    ensures var n := Next(w, Step.Text(p, q, id, sentAt, body, live));
      && p in n.nodes && q in n.nodes[p].conversations && Wrote(ConvoWith(w.nodes[p], q), n.nodes[p].conversations[q], m)
      && n.net == w.net + (if live then [Packet(p, q, Chat(m))] else [])
      && QueuedFor(n.nodes[p], q) == QueuedFor(w.nodes[p], q) + (if live then {} else {id})
      && HaveOf(n.nodes[p], q) == HaveOf(w.nodes[p], q)
  {
    m := Authored(ConvoWith(w.nodes[p], q), id, p, sentAt, body, MessageKind.Text);
    AuthoredWrites(ConvoWith(w.nodes[p], q), id, p, sentAt, body, MessageKind.Text);
  }

  /** Writing to a group: stored, and on its way to every other member and nobody else. */
  lemma GroupTextWritten(w: World, p: PeerKey, g: GroupId, id: MessageId, sentAt: nat, body: string) returns (m: Message)
    requires Enabled(w, GroupText(p, g, id, sentAt, body))
    ensures Says(m, id, p, sentAt, body)
    ensures var n := Next(w, GroupText(p, g, id, sentAt, body));
      && p in n.nodes && g in n.nodes[p].groupConvos && Wrote(GroupConvo(w.nodes[p], g), n.nodes[p].groupConvos[g], m)
      && (forall y :: y in n.net <==>
            y in w.net || (y.from == p && y.to != p && y.to in w.nodes[p].groups[g].members && y.frame == GroupMessage(g, m)))
  {
    var c := GroupConvo(w.nodes[p], g);
    m := Authored(c, id, p, sentAt, body, MessageKind.Text);
    AuthoredWrites(c, id, p, sentAt, body, MessageKind.Text);
  }

  /** Creating a group: known to its creator, and an invite on its way to every other member and nobody else. */
  lemma GroupCreated(w: World, p: PeerKey, info: GroupInfo)
    requires Enabled(w, NewGroup(p, info))
    ensures var n := Next(w, NewGroup(p, info));
      && p in n.nodes && Lookup(n.nodes[p].groups, info.id) == Some(info)
      && Lookup(n.nodes[p].groupConvos, info.id) == Some(EMPTY)
      && (forall y :: y in n.net <==>
            y in w.net || (y.from == p && y.to != p && y.to in info.members && y.frame == GroupInvite(info)))
  {
  }

  /** Marking read: our own watermark, and a receipt to the peer. */
  lemma ReadMarked(w: World, p: PeerKey, q: PeerKey, upTo: Stamp)
    requires Enabled(w, ReadUpTo(p, q, upTo))
    ensures var n := Next(w, ReadUpTo(p, q, upTo));
      && p in n.nodes && q in n.nodes[p].conversations
      && Marked(ConvoWith(w.nodes[p], q), n.nodes[p].conversations[q], p, upTo)
      && n.net == w.net + [Packet(p, q, Read(upTo))]
  {
  }

  /** The last message shown carries the highest stamp there is. */
  lemma LastStampIsHighest(c: Convo)
    ensures forall id :: id in c.messages ==> c.messages[id].lamport <= LastStamp(c)
    ensures LastStamp(c) == 0 || exists id :: id in c.messages && c.messages[id].lamport == LastStamp(c)
  {
    var q := MessagesOrdered(c);
    DisplayedInOrder(c);
    forall id | id in c.messages ensures c.messages[id].lamport <= LastStamp(c) {
      assert c.messages[id] in q;
      var i :| 0 <= i < |q| && q[i] == c.messages[id];
      assert i < |q| - 1 ==> Before(q[i], q[|q| - 1]);
    }
    if q != [] {
      assert q[|q| - 1] in q;
    }
  }

  /** `d` is `c` with our own watermark on the highest stamp there is, or where it was if that is higher. */
  ghost predicate ReadToTheEnd(c: Convo, d: Convo, me: PeerKey)
  {
    && me in d.read && (forall id :: id in c.messages ==> c.messages[id].lamport <= d.read[me])
    && exists top :: Marked(c, d, me, top) && (top == 0 || exists id :: id in c.messages && c.messages[id].lamport == top)
  }

  /** Marking a group read leaves no message of it above our own watermark, and claims nothing beyond them. */
  lemma GroupReadMarked(st: State, me: PeerKey, g: GroupId)
    requires g in st.groupConvos
    ensures var n := MarkReadGroup(st, me, g);
      g in n.groupConvos && ReadToTheEnd(st.groupConvos[g], n.groupConvos[g], me) && ElsewhereSame(st, n, g)
  {
    var c := st.groupConvos[g];
    LastStampIsHighest(c);
    assert Marked(c, MarkReadGroup(st, me, g).groupConvos[g], me, LastStamp(c));
  }

  /** A removed contact leaves nothing behind, and nobody else is affected. */
  lemma ContactRemoved(st: State, peer: PeerKey, other: PeerKey)
    ensures var n := Forgotten(st, peer);
      && peer !in n.conversations && peer !in n.peerHave && peer !in n.queued
      && (other != peer ==> SameFor(st, n, other)) && n.groups == st.groups && n.groupConvos == st.groupConvos
  {
  }

  lemma AllRestored(before: map<nat, Convo>, after: map<nat, Convo>)
    requires after.Keys == before.Keys && forall k :: k in before ==> after[k] == Restore(Take(before[k]))
    ensures forall k :: k in before ==> Obs(after[k]) == Obs(before[k])
  {
    forall k | k in before ensures Obs(after[k]) == Obs(before[k]) {
      RestoreKeepsContents(before[k]);
    }
  }

  /** A restart keeps the contents of every conversation and every roster, and no delivery bookkeeping. */
  lemma NodeRestarted(st: State)
    ensures var n := Restarted(st);
      && n.groups == st.groups && n.peerHave == map[] && n.queued == map[]
      && n.conversations.Keys == st.conversations.Keys && n.groupConvos.Keys == st.groupConvos.Keys
      && (forall q :: q in st.conversations ==> Obs(n.conversations[q]) == Obs(st.conversations[q]))
      && (forall g :: g in st.groupConvos ==> Obs(n.groupConvos[g]) == Obs(st.groupConvos[g]))
  {
    AllRestored(st.conversations, Restarted(st).conversations);
    AllRestored(st.groupConvos, Restarted(st).groupConvos);
  }

  /** What is shown beside a message of ours: confirmed by a have-list or covered by the peer's watermark, else waiting,
      else sent. Beside the peer's own there is nothing. */
  lemma StatusMeans(st: State, me: PeerKey, peer: PeerKey, m: Message)
    ensures var confirmed := (peer in st.peerHave && m.id in st.peerHave[peer])
        || (peer in st.conversations && (m.lamport == 0 ||
              (peer in st.conversations[peer].read && m.lamport <= st.conversations[peer].read[peer])));
      var waiting := peer in st.queued && m.id in st.queued[peer];
      && (StatusOf(st, me, peer, m) == None <==> m.author != me)
      && (StatusOf(st, me, peer, m) == Some(Delivered) <==> m.author == me && confirmed)
      && (StatusOf(st, me, peer, m) == Some(Queued) <==> m.author == me && !confirmed && waiting)
      && (StatusOf(st, me, peer, m) == Some(Sent) <==> m.author == me && !confirmed && !waiting)
  {
  }
}
