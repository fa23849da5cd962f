/** What the user sees of a message's status: Delivered is final, and it is announced once. */
module Status {
  import opened Wire
  import opened Ordering
  import opened Conversations
  import opened Content
  import opened Worlds

  // ------------------------------------------------------------------ Delivered is final

  lemma HaveOfGrows(st: State, me: PeerKey, from: PeerKey, f: Frame, peer: PeerKey)
    ensures HaveOf(st, peer) <= HaveOf(After(st, me, from, f), peer)
  {
    if peer != from {
      HandleLeavesOthers(st, me, from, f, peer);
    } else if f.SyncDelta? {
      assert After(st, me, from, f).peerHave == st.peerHave;
    }
  }

  /** The conversation still holds `m`, and still shows it as Delivered. */
  ghost predicate Shows(st: State, me: PeerKey, peer: PeerKey, m: Message)
  {
    && m.id in ConvoWith(st, peer).messages && ConvoWith(st, peer).messages[m.id] == m
    && StatusOf(st, me, peer, m) == Some(Delivered)
  }

  /** Removing the contact, or restarting, drops what we knew about delivery to `b`. */
  predicate Unlearns(s: Step, a: PeerKey, b: PeerKey) { s == Forget(a, b) || s == Restart(a) }

  lemma StepKeepsHave(w: World, s: Step, a: PeerKey, b: PeerKey)
    requires a in w.nodes && !Unlearns(s, a, b)
    ensures a in Next(w, s).nodes && HaveOf(w.nodes[a], b) <= HaveOf(Next(w, s).nodes[a], b)
    ensures b in w.nodes[a].conversations ==> b in Next(w, s).nodes[a].conversations
  {
    if Enabled(w, s) && s.Receive? && w.net[s.i].to == a {
      HaveOfGrows(w.nodes[a], a, w.net[s.i].from, w.net[s.i].frame, b);
      ConversationsStay(w.nodes[a], a, w.net[s.i].from, w.net[s.i].frame, b);
    }
  }

  lemma ShowsLasts(st: State, n: State, me: PeerKey, peer: PeerKey, m: Message)
    requires Shows(st, me, peer, m) && Below(Obs(ConvoWith(st, peer)), Obs(ConvoWith(n, peer)))
    requires HaveOf(st, peer) <= HaveOf(n, peer) && (peer in st.conversations ==> peer in n.conversations)
    ensures Shows(n, me, peer, m)
  {
    var c, d := ConvoWith(st, peer), ConvoWith(n, peer);
    assert peer in c.read ==> peer in d.read && c.read[peer] <= d.read[peer];
  }

  /** Over every run, whatever is written, read, received, synced or reconnected: a message shown as Delivered
      stays in the conversation unchanged and stays Delivered. */
  lemma {:induction false} DeliveredIsFinal(w: World, steps: seq<Step>, a: PeerKey, b: PeerKey, m: Message)
    requires a in w.nodes && Shows(w.nodes[a], a, b, m) && forall s :: s in steps ==> !Unlearns(s, a, b)
    ensures a in Run(w, steps).nodes && Shows(Run(w, steps).nodes[a], a, b, m)
  {
    if steps != [] {
      var k := |steps| - 1;
      assert steps == steps[..k] + [steps[k]];
      DeliveredIsFinal(w, steps[..k], a, b, m);
      var before := Run(w, steps[..k]);
      StepKeepsHave(before, steps[k], a, b);
      ConvoGrows(before, steps[k], a, b);
      ShowsLasts(before.nodes[a], Run(w, steps).nodes[a], a, b, m);
    }
  }

  /** A restart is an exception: what remains Delivered is what the peer's read watermark covers. */
  lemma RestartKeepsDeliveredIff(st: State, me: PeerKey, peer: PeerKey, m: Message)
    requires Shows(st, me, peer, m)
    ensures Shows(Restarted(st), me, peer, m) <==> Watermark(ConvoWith(st, peer), peer) >= m.lamport
  {
    RestartKeepsConvo(st, peer);
    OnlyTheMarkCounts(st, Restarted(st), me, peer, m);
  }

  lemma OnlyTheMarkCounts(st: State, n: State, me: PeerKey, peer: PeerKey, m: Message)
    requires Shows(st, me, peer, m) && Obs(ConvoWith(n, peer)) == Obs(ConvoWith(st, peer))
    requires (peer in n.conversations <==> peer in st.conversations) && n.peerHave == map[] && n.queued == map[]
    ensures Shows(n, me, peer, m) <==> Watermark(ConvoWith(st, peer), peer) >= m.lamport
  {
    var c, d := ConvoWith(st, peer), ConvoWith(n, peer);
    assert c.messages == Obs(c).messages && d.messages == Obs(d).messages && c.read == Obs(c).read && d.read == Obs(d).read;
  }

  // ------------------------------------------------------------------ queued until confirmed

  /** A frame of the peer that confirms `id`: a have-list that names it, or a receipt that newly covers it. */
  ghost predicate FrameConfirms(st: State, me: PeerKey, peer: PeerKey, f: Frame, id: MessageId)
  {
    match f
    case SyncHave(scope, ids) => scope == Direct && id in ids
    case Read(upTo) =>
      var c := ConvoWith(st, peer);
      id in c.messages && c.messages[id].author == me && c.messages[id].lamport <= upTo && id !in HaveOf(st, peer)
    case _ => false
  }

  ghost predicate Confirms(w: World, s: Step, a: PeerKey, b: PeerKey, id: MessageId)
  {
    && s.Receive? && s.i < |w.net| && a in w.nodes && w.net[s.i].to == a && w.net[s.i].from == b
    && FrameConfirms(w.nodes[a], a, b, w.net[s.i].frame, id)
  }

  /** A message is written that does not get out. */
  predicate Parks(s: Step, a: PeerKey, b: PeerKey, id: MessageId)
  {
    s.Text? && s.p == a && s.q == b && s.id == id && !s.live
  }

  lemma FrameDequeues(st: State, me: PeerKey, peer: PeerKey, f: Frame, id: MessageId)
    ensures var n := After(st, me, peer, f);
      && (id in QueuedFor(n, peer) <==> id in QueuedFor(st, peer) && !FrameConfirms(st, me, peer, f, id))
      && (FrameConfirms(st, me, peer, f, id) ==> id in HaveOf(n, peer))
  {
    if f.SyncDelta? {
      assert After(st, me, peer, f).queued == st.queued;
    }
  }

  /** What one step does to the queue: a message that does not get out is put in, a confirmed one is taken out and
      known to be held, and nothing else changes. */
  lemma QueueStep(w: World, s: Step, a: PeerKey, b: PeerKey, id: MessageId)
    requires a in w.nodes && Enabled(w, s) && !Unlearns(s, a, b)
    ensures a in Next(w, s).nodes
    ensures id in QueuedFor(Next(w, s).nodes[a], b) <==>
      (id in QueuedFor(w.nodes[a], b) && !Confirms(w, s, a, b, id)) || Parks(s, a, b, id)
    ensures Confirms(w, s, a, b, id) ==> id in HaveOf(Next(w, s).nodes[a], b)
  {
    if s.Receive? && w.net[s.i].to == a {
      var x := w.net[s.i];
      if x.from == b {
        FrameDequeues(w.nodes[a], a, b, x.frame, id);
      } else {
        HandleLeavesOthers(w.nodes[a], a, x.from, x.frame, b);
      }
    }
  }

  /** Removing the contact and restarting are the other ways out. */
  lemma UnlearningDequeues(w: World, s: Step, a: PeerKey, b: PeerKey)
    requires a in w.nodes && Enabled(w, s) && Unlearns(s, a, b)
    ensures a in Next(w, s).nodes && QueuedFor(Next(w, s).nodes[a], b) == {}
  {
  }

  /** Over every run: an id leaves the queue only when a frame of that peer confirms it. */
  lemma {:induction false} QueuedUntilConfirmed(w: World, steps: seq<Step>, a: PeerKey, b: PeerKey, id: MessageId)
    requires a in w.nodes && id in QueuedFor(w.nodes[a], b) && forall s :: s in steps ==> !Unlearns(s, a, b)
    ensures a in Run(w, steps).nodes
    ensures id in QueuedFor(Run(w, steps).nodes[a], b) ||
      (id in HaveOf(Run(w, steps).nodes[a], b) &&
       exists k :: 0 <= k < |steps| && Confirms(Run(w, steps[..k]), steps[k], a, b, id))
  {
    if steps != [] {
      var k := |steps| - 1;
      assert steps == steps[..k] + [steps[k]];
      QueuedUntilConfirmed(w, steps[..k], a, b, id);
      var before := Run(w, steps[..k]);
      StepKeepsHave(before, steps[k], a, b);
      if Enabled(before, steps[k]) {
        QueueStep(before, steps[k], a, b, id);
      }
      assert forall j :: 0 <= j < k ==> steps[..k][..j] == steps[..j];
    }
  }

  /** Over every run: a message shown as Queued is shown as Queued until it is shown as Delivered. */
  lemma QueuedUntilDelivered(w: World, steps: seq<Step>, a: PeerKey, b: PeerKey, m: Message)
    requires a in w.nodes && StatusOf(w.nodes[a], a, b, m) == Some(Queued)
    requires forall s :: s in steps ==> !Unlearns(s, a, b)
    ensures a in Run(w, steps).nodes
    ensures StatusOf(Run(w, steps).nodes[a], a, b, m) in {Some(Queued), Some(Delivered)}
  {
    QueuedUntilConfirmed(w, steps, a, b, m.id);
  }

  // ------------------------------------------------------------------ announced once

  function Announcement(peer: PeerKey, id: MessageId): Event { MessageStatus(peer, id, Delivered) }

  function Mult(ids: seq<MessageId>, id: MessageId): nat { multiset(ids)[id] }

  function Count(events: seq<Event>, e: Event): nat { multiset(events)[e] }

  lemma {:induction false} FilterMult(ids: seq<MessageId>, keep: set<MessageId>, id: MessageId)
    ensures Mult(Filter(ids, keep), id) == if id in keep then Mult(ids, id) else 0
  {
    if ids != [] {
      var k := |ids| - 1;
      FilterMult(ids[..k], keep, id);
      assert ids == ids[..k] + [ids[k]];
    }
  }

  lemma {:induction false} EventMult(peer: PeerKey, ids: seq<MessageId>, id: MessageId)
    ensures Count(DeliveredEvents(peer, ids), Announcement(peer, id)) == Mult(ids, id)
    ensures forall q :: q != peer ==> Count(DeliveredEvents(peer, ids), Announcement(q, id)) == 0
  {
    if ids != [] {
      var k := |ids| - 1;
      EventMult(peer, ids[..k], id);
      assert ids == ids[..k] + [ids[k]];
    }
  }

  /** A have-list announces a newly confirmed own message as often as it names it, and no other. */
  lemma HaveAnnounces(st: State, me: PeerKey, peer: PeerKey, f: Frame, id: MessageId)
    requires f.SyncHave? && f.scope == Direct
    ensures Count(Emitted(st, me, peer, f), Announcement(peer, id)) ==
      if id in OwnIds(ConvoWith(st, peer), me) && id !in HaveOf(st, peer) then Mult(f.ids, id) else 0
  {
    FilterMult(f.ids, OwnIds(ConvoWith(st, peer), me) - HaveOf(st, peer), id);
    EventMult(peer, NewlyListed(st, me, peer, f.ids), id);
  }

  lemma {:induction false} DistinctMult(q: seq<MessageId>, id: MessageId)
    requires Distinct(q)
    ensures Mult(q, id) <= 1
  {
    if q != [] {
      var k := |q| - 1;
      DistinctMult(q[..k], id);
      assert q == q[..k] + [q[k]];
      if q[k] == id {
        assert id !in q[..k];
      }
    }
  }

  /** Repeating an id in a have-list repeats the announcement: one per message exactly when every newly
      confirmed own message is named once. */
  lemma AnnouncedOnceIff(st: State, me: PeerKey, peer: PeerKey, f: Frame)
    requires f.SyncHave? && f.scope == Direct
    ensures (forall id :: Count(Emitted(st, me, peer, f), Announcement(peer, id)) <= 1) <==>
      (forall id :: id in OwnIds(ConvoWith(st, peer), me) && id !in HaveOf(st, peer) ==> Mult(f.ids, id) <= 1)
  {
    forall id
      ensures Count(Emitted(st, me, peer, f), Announcement(peer, id)) ==
        if id in OwnIds(ConvoWith(st, peer), me) && id !in HaveOf(st, peer) then Mult(f.ids, id) else 0
    {
      HaveAnnounces(st, me, peer, f, id);
    }
  }

  /** A have-list that names one message twice announces it twice. */
  lemma RepeatedIdAnnouncedTwice()
    ensures exists st: State, f: Frame :: f.SyncHave? && Count(Emitted(st, 1, 2, f), Announcement(2, 7)) == 2
  {
    var m := Message(7, 1, 1, 0, "hi", MessageKind.Text);
    var c := Apply(EMPTY, m);
    var st := FRESH.(conversations := map[2 := c]);
    var f := SyncHave(Direct, [7, 7]);
    assert c.messages[7] == m;
    HaveAnnounces(st, 1, 2, f, 7);
    assert Count(Emitted(st, 1, 2, f), Announcement(2, 7)) == 2;
  }

  lemma DisplayedIdsDistinct(q: seq<Message>, log: MessageLog)
    requires SameElements(q, log.Values) && Ascending(q, MessageKey)
    ensures Distinct(IdsOf(q))
  {
    IdsOfAt(q);
    AscendingDistinct(q, MessageKey);
    forall i, j | 0 <= i < j < |q| ensures IdsOf(q)[i] != IdsOf(q)[j] {
      assert q[i] in q && q[j] in q;
      var x :| x in log && log[x] == q[i];
      var y :| y in log && log[y] == q[j];
    }
  }

  lemma DisplayedIds(q: seq<Message>, log: MessageLog, id: MessageId)
    requires SameElements(q, log.Values)
    ensures id in IdsOf(q) <==> id in log
  {
    IdsOfAt(q);
    if id in log {
      assert log[id] in q;
      var i :| 0 <= i < |q| && q[i] == log[id];
      assert IdsOf(q)[i] == id;
    }
    if i :| 0 <= i < |q| && IdsOf(q)[i] == id {
      assert q[i] in q;
    }
  }

  /** The display lists every held id once. */
  lemma DisplayedMult(c: Convo, id: MessageId)
    ensures Mult(IdsOf(MessagesOrdered(c)), id) == if id in c.messages then 1 else 0
  {
    var q := MessagesOrdered(c);
    DisplayedIdsDistinct(q, c.messages);
    DistinctMult(IdsOf(q), id);
    DisplayedIds(q, c.messages, id);
  }

  /** A read receipt announces exactly what it newly covers, each message once. */
  lemma ReadAnnounces(st: State, me: PeerKey, peer: PeerKey, upTo: Stamp, id: MessageId)
    ensures var c := ConvoWith(st, peer);
      Count(Emitted(st, me, peer, Read(upTo)), Announcement(peer, id)) ==
        if id in OwnIds(c, me) && c.messages[id].lamport <= upTo && id !in HaveOf(st, peer) then 1 else 0
  {
    var c, newly := ConvoWith(st, peer), ReadCovers(st, me, peer, upTo);
    DisplayedMult(c, id);
    FilterMult(IdsOf(MessagesOrdered(c)), newly, id);
    EventMult(peer, ShownIds(c, newly), id);
    assert Emitted(st, me, peer, Read(upTo)) == [ReadReceipt(peer, upTo)] + DeliveredEvents(peer, ShownIds(c, newly));
  }

  /** One handled frame: an announcement is made at most once, only of an id not confirmed before, and
      the id is confirmed afterwards. */
  lemma FrameAnnounces(st: State, me: PeerKey, from: PeerKey, f: Frame, peer: PeerKey, id: MessageId)
    requires f.SyncHave? ==> Distinct(f.ids)
    ensures var n := Count(Emitted(st, me, from, f), Announcement(peer, id));
      n <= 1 && (n == 1 ==> id !in HaveOf(st, peer) && id in HaveOf(After(st, me, from, f), peer))
  {
    if f.SyncHave? && f.scope == Direct {
      EventMult(from, NewlyListed(st, me, from, f.ids), id);
      if from == peer {
        HaveAnnounces(st, me, peer, f, id);
        DistinctMult(f.ids, id);
      }
    } else if f.Read? {
      if from == peer {
        ReadAnnounces(st, me, peer, f.upTo, id);
      } else {
        var ids := ShownIds(ConvoWith(st, from), ReadCovers(st, me, from, f.upTo));
        EventMult(from, ids, id);
        assert Emitted(st, me, from, f) == [ReadReceipt(from, f.upTo)] + DeliveredEvents(from, ids);
      }
    }
  }

  /** All events node `a` emits while handling frames in a run. */
  function EventsOf(w: World, steps: seq<Step>, a: PeerKey): seq<Event>
  {
    if steps == [] then []
    else
      var k := |steps| - 1;
      var before := Run(w, steps[..k]);
      EventsOf(w, steps[..k], a) + StepEvents(before, steps[k], a)
  }

  function StepEvents(w: World, s: Step, a: PeerKey): seq<Event>
  {
    if s.Receive? && Enabled(w, s) && w.net[s.i].to == a
    then Emitted(w.nodes[a], a, w.net[s.i].from, w.net[s.i].frame) else []
  }

  /** Every have-list in flight names each id once. */
  ghost predicate ListsDistinct(net: seq<Packet>)
  {
    forall x :: x in net && x.frame.SyncHave? ==> Distinct(x.frame.ids)
  }

  lemma HaveFrameDistinct(scope: SyncScope, c: Convo)
    ensures Distinct(HaveFrame(scope, c).ids)
  {
    AscendingDistinct(SortedIds(Have(c)), IdKey);
  }

  lemma ReplyDistinct(st: State, me: PeerKey, peer: PeerKey, f: Frame, g: Frame)
    requires g in Replies(st, me, peer, f) && g.SyncHave?
    ensures Distinct(g.ids)
  {
    match f {
      case GroupInvite(info) => HaveFrameDistinct(Group(info.id), GroupConvo(st, info.id));
      case GroupAnnounce(info) => HaveFrameDistinct(Group(info.id), GroupConvo(st, info.id));
      case SyncDelta(_, ms, rs, ps) => HaveFrameDistinct(Direct, ApplyDelta(ConvoWith(st, peer), ms, rs, ps));
      case _ =>
    }
  }

  lemma OfferDistinct(st: State, peer: PeerKey, f: Frame)
    requires f in Offers(st, peer) && f.SyncHave?
    ensures Distinct(f.ids)
  {
    OffersAre(st, peer);
    HaveFrameDistinct(Direct, ConvoWith(st, peer));
    if f.scope.Group? {
      HaveFrameDistinct(f.scope, GroupConvo(st, f.scope.gid));
    }
  }

  lemma StepKeepsDistinct(w: World, s: Step)
    requires ListsDistinct(w.net)
    ensures ListsDistinct(Next(w, s).net)
  {
    if Enabled(w, s) {
      var n := Next(w, s);
      forall x | x in n.net && x.frame.SyncHave? && x !in w.net ensures Distinct(x.frame.ids) {
        NewFrame(w, s, x);
        match s {
          case Receive(i) =>
            ReplyDistinct(w.nodes[w.net[i].to], w.net[i].to, w.net[i].from, w.net[i].frame, x.frame);
          case Offer(p, q) => OfferDistinct(w.nodes[p], q, x.frame);
          case _ =>
        }
      }
    }
  }

  lemma StepAnnounces(w: World, s: Step, a: PeerKey, b: PeerKey, id: MessageId)
    requires a in w.nodes && ListsDistinct(w.net) && !Unlearns(s, a, b)
    ensures a in Next(w, s).nodes && HaveOf(w.nodes[a], b) <= HaveOf(Next(w, s).nodes[a], b)
    ensures var n := Count(StepEvents(w, s, a), Announcement(b, id));
      n <= 1 && (n == 1 ==> id !in HaveOf(w.nodes[a], b) && id in HaveOf(Next(w, s).nodes[a], b))
  {
    StepKeepsHave(w, s, a, b);
    if Enabled(w, s) && s.Receive? && w.net[s.i].to == a {
      var x := w.net[s.i];
      assert x in w.net;
      FrameAnnounces(w.nodes[a], a, x.from, x.frame, b, id);
    }
  }

  lemma {:induction false} RunAnnounces(w: World, steps: seq<Step>, a: PeerKey, b: PeerKey, id: MessageId)
    requires a in w.nodes && ListsDistinct(w.net) && forall s :: s in steps ==> !Unlearns(s, a, b)
    ensures a in Run(w, steps).nodes && ListsDistinct(Run(w, steps).net)
    ensures var n := Count(EventsOf(w, steps, a), Announcement(b, id));
      n <= 1 && (n == 1 ==> id in HaveOf(Run(w, steps).nodes[a], b))
  {
    if steps != [] {
      var k := |steps| - 1;
      assert steps == steps[..k] + [steps[k]];
      RunAnnounces(w, steps[..k], a, b, id);
      var before := Run(w, steps[..k]);
      StepKeepsDistinct(before, steps[k]);
      StepAnnounces(before, steps[k], a, b, id);
    }
  }

  /** Over every run, through have-lists and read receipts alike, a node announces the delivery of a
      given message to a given peer at most once. */
  lemma AnnouncedAtMostOnce(w: World, steps: seq<Step>, a: PeerKey, b: PeerKey, id: MessageId)
    requires a in w.nodes && ListsDistinct(w.net) && forall s :: s in steps ==> !Unlearns(s, a, b)
    ensures Count(EventsOf(w, steps, a), Announcement(b, id)) <= 1
  {
    RunAnnounces(w, steps, a, b, id);
  }
}
