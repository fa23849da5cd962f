/** Any number of nodes and the frames in flight between them. Every frame rides its own stream, so any
    frame in flight may be the next to arrive: the position in `net` carries no order. */
module Worlds {
  import opened Wire
  import opened Ordering
  import opened Conversations
  import opened Content

  datatype Packet = Packet(from: PeerKey, to: PeerKey, frame: Frame)

  datatype Link = Link(from: PeerKey, to: PeerKey)

  /** `offered` remembers which post-connect exchanges have been sent. */
  datatype World = World(nodes: map<PeerKey, State>, net: seq<Packet>, offered: set<Link>)

  datatype Step =
    | Offer(p: PeerKey, q: PeerKey)
    | Receive(i: nat)
    | Text(p: PeerKey, q: PeerKey, id: MessageId, sentAt: nat, body: string, live: bool)
    | NewGroup(p: PeerKey, info: GroupInfo)
    | GroupText(p: PeerKey, g: GroupId, id: MessageId, sentAt: nat, body: string)
    | ReadUpTo(p: PeerKey, q: PeerKey, upTo: Stamp)
    | ReadGroup(p: PeerKey, g: GroupId)
    | Reconnect(p: PeerKey, q: PeerKey)
    | Forget(p: PeerKey, q: PeerKey)
    | Restart(p: PeerKey)

  /** Ids are random draws, so a new message or group never reuses an id its author already knows. */
  predicate Enabled(w: World, s: Step)
  {
    match s
    case Offer(p, q) => p in w.nodes && p != q
    case Receive(i) => i < |w.net| && w.net[i].to in w.nodes
    case Text(p, q, id, _, _, _) => p in w.nodes && p != q && id !in Have(ConvoWith(w.nodes[p], q))
    case NewGroup(p, info) =>
      && p in w.nodes && info.creator == p && p in info.members
      && info.id !in w.nodes[p].groups && info.id !in w.nodes[p].groupConvos
    case GroupText(p, g, id, _, _) =>
      p in w.nodes && g in w.nodes[p].groups && id !in Have(GroupConvo(w.nodes[p], g))
    case ReadUpTo(p, q, _) => p in w.nodes && p != q
    case ReadGroup(p, _) => p in w.nodes
    case Reconnect(p, q) => p in w.nodes && q in w.nodes && p != q
    case Forget(p, q) => p in w.nodes && p != q
    case Restart(p) => p in w.nodes
  }

  function Packets(from: PeerKey, to: PeerKey, frames: seq<Frame>): (ps: seq<Packet>)
    ensures forall x :: x in ps <==> x.from == from && x.to == to && x.frame in frames
  {
    var ps := seq(|frames|, i requires 0 <= i < |frames| => Packet(from, to, frames[i]));
    assert forall i :: 0 <= i < |frames| ==> ps[i].frame == frames[i] && frames[i] in frames;
    assert forall x :: x in ps <==> x.from == from && x.to == to && x.frame in frames by {
      forall x: Packet | x.from == from && x.to == to && x.frame in frames ensures x in ps {
        var i :| 0 <= i < |frames| && frames[i] == x.frame;
        assert ps[i] == x;
      }
    }
    ps
  }

  function FanOut(from: PeerKey, members: seq<PeerKey>, f: Frame): (ps: seq<Packet>)
    ensures forall x :: x in ps <==> x.from == from && x.to in members && x.to != from && x.frame == f
  {
    if members == [] then []
    else
      var k := |members| - 1;
      assert members == members[..k] + [members[k]];
      FanOut(from, members[..k], f) + (if members[k] == from then [] else [Packet(from, members[k], f)])
  }

  predicate Between(x: Packet, a: PeerKey, b: PeerKey)
  {
    (x.from == a && x.to == b) || (x.from == b && x.to == a)
  }

  /** The frames left when those between `p` and `q` are lost with their connection. */
  function Lost(net: seq<Packet>, p: PeerKey, q: PeerKey): (rest: seq<Packet>)
    ensures forall x :: x in rest <==> x in net && !Between(x, p, q)
  {
    if net == [] then []
    else
      var k := |net| - 1;
      assert net == net[..k] + [net[k]];
      Lost(net[..k], p, q) + if Between(net[k], p, q) then [] else [net[k]]
  }

  /** The frames left when those to `p` find nobody listening. */
  function Unheard(net: seq<Packet>, p: PeerKey): (rest: seq<Packet>)
    ensures forall x :: x in rest <==> x in net && x.to != p
  {
    if net == [] then []
    else
      var k := |net| - 1;
      assert net == net[..k] + [net[k]];
      Unheard(net[..k], p) + if net[k].to == p then [] else [net[k]]
  }

  /** A new connection between `p` and `q`: the frames of the old one are gone, both ends have a
      conversation, neither has sent its connect-time exchange yet. */
  function Reconnected(w: World, p: PeerKey, q: PeerKey): World
    requires p in w.nodes && q in w.nodes && p != q
  {
    World(w.nodes[p := Greet(w.nodes[p], q)][q := Greet(w.nodes[q], p)], Lost(w.net, p, q),
          w.offered - {Link(p, q)} - {Link(q, p)})
  }

  function Next(w: World, s: Step): World
  {
    if !Enabled(w, s) then w
    else
      match s
      case Offer(p, q) =>
        w.(net := w.net + Packets(p, q, Offers(w.nodes[p], q)), offered := w.offered + {Link(p, q)})
      case Receive(i) =>
        var x := w.net[i];
        var st := w.nodes[x.to];
        w.(nodes := w.nodes[x.to := After(st, x.to, x.from, x.frame)],
           net := Without(w.net, i) + Packets(x.to, x.from, Replies(st, x.to, x.from, x.frame)))
      case Text(p, q, id, sentAt, body, live) =>
        var m := Authored(ConvoWith(w.nodes[p], q), id, p, sentAt, body, MessageKind.Text);
        w.(nodes := w.nodes[p := SendText(w.nodes[p], q, m, !live)],
           net := w.net + if live then [Packet(p, q, Chat(m))] else [])
      case NewGroup(p, info) =>
        w.(nodes := w.nodes[p := CreateGroup(w.nodes[p], info)],
           net := w.net + FanOut(p, info.members, GroupInvite(info)))
      case GroupText(p, g, id, sentAt, body) =>
        var m := Authored(GroupConvo(w.nodes[p], g), id, p, sentAt, body, MessageKind.Text);
        w.(nodes := w.nodes[p := SendGroupText(w.nodes[p], g, m)],
           net := w.net + FanOut(p, w.nodes[p].groups[g].members, GroupMessage(g, m)))
      case ReadUpTo(p, q, upTo) =>
        w.(nodes := w.nodes[p := MarkReadDirect(w.nodes[p], p, q, upTo)],
           net := w.net + [Packet(p, q, Read(upTo))])
      case ReadGroup(p, g) => w.(nodes := w.nodes[p := MarkReadGroup(w.nodes[p], p, g)])
      case Reconnect(p, q) => Reconnected(w, p, q)
      case Forget(p, q) => w.(nodes := w.nodes[p := Forgotten(w.nodes[p], q)])
      case Restart(p) => w.(nodes := w.nodes[p := Restarted(w.nodes[p])], net := Unheard(w.net, p))
  }

  function Run(w: World, steps: seq<Step>): World
  {
    if steps == [] then w else Next(Run(w, steps[..|steps| - 1]), steps[|steps| - 1])
  }

  /** Nothing has happened yet. */
  ghost predicate Empty(w: World)
  {
    (forall p :: p in w.nodes ==> w.nodes[p] == FRESH) && w.net == []
  }

  // What a step may do to the connection between `a` and `b`.

  /** Frames between the two may be lost. */
  predicate Cuts(s: Step, a: PeerKey, b: PeerKey)
  {
    match s
    case Reconnect(p, q) => (p == a && q == b) || (p == b && q == a)
    case Restart(p) => p == a || p == b
    case _ => false
  }

  /** One of the two drops what it holds for the other. */
  predicate Forgets(s: Step, a: PeerKey, b: PeerKey)
  {
    s.Forget? && ((s.p == a && s.q == b) || (s.p == b && s.q == a))
  }

  /** One of the two changes their conversation by itself. */
  predicate Writes(s: Step, a: PeerKey, b: PeerKey)
  {
    (s.Text? || s.ReadUpTo?) && ((s.p == a && s.q == b) || (s.p == b && s.q == a))
  }

  /** Nothing is in flight between the two nodes, in either direction. */
  ghost predicate Drained(w: World, a: PeerKey, b: PeerKey)
  {
    forall x :: x in w.net ==> !Between(x, a, b)
  }

  // ------------------------------------------------------------------ how a step changes the network

  lemma ReceiveNet(w: World, i: nat)
    requires Enabled(w, Receive(i))
    ensures var x, n := w.net[i], Next(w, Receive(i));
      && n.offered == w.offered
      && (forall y :: y in w.net && y != x ==> y in n.net)
      && (forall f :: f in Replies(w.nodes[x.to], x.to, x.from, x.frame) ==> Packet(x.to, x.from, f) in n.net)
      && (forall y :: y in n.net ==>
            || y in w.net
            || (y.from == x.to && y.to == x.from && y.frame in Replies(w.nodes[x.to], x.to, x.from, x.frame)))
  {
  }

  lemma OfferNet(w: World, p: PeerKey, q: PeerKey)
    requires Enabled(w, Offer(p, q))
    ensures var n := Next(w, Offer(p, q));
      && n.nodes == w.nodes && n.offered == w.offered + {Link(p, q)}
      && (forall y :: y in n.net <==> y in w.net || (y.from == p && y.to == q && y.frame in Offers(w.nodes[p], q)))
  {
  }

  lemma NodesStay(w: World, s: Step)
    ensures Next(w, s).nodes.Keys == w.nodes.Keys
  {
  }

  lemma {:induction false} RunOn(w: World, front: seq<Step>, s: Step)
    ensures Run(w, front + [s]) == Next(Run(w, front), s)
  {
    assert (front + [s])[..|front|] == front;
  }

  lemma {:induction false} RunAdds(w: World, front: seq<Step>, back: seq<Step>)
    ensures Run(w, front + back) == Run(Run(w, front), back)
  {
    if back == [] {
      assert front + back == front;
    } else {
      var k := |back| - 1;
      RunAdds(w, front, back[..k]);
      assert front + back == (front + back[..k]) + [back[k]];
      RunOn(w, front + back[..k], back[k]);
    }
  }

  lemma {:induction false} RunKeepsNodes(w: World, steps: seq<Step>)
    ensures Run(w, steps).nodes.Keys == w.nodes.Keys
  {
    if steps != [] {
      RunKeepsNodes(w, steps[..|steps| - 1]);
      NodesStay(Run(w, steps[..|steps| - 1]), steps[|steps| - 1]);
    }
  }

  // ------------------------------------------------------------------ frame conditions

  /** What we hold for `other`: its conversation and its delivery bookkeeping. */
  ghost predicate SameFor(st: State, n: State, other: PeerKey)
  {
    && (other in n.conversations <==> other in st.conversations)
    && ConvoWith(n, other) == ConvoWith(st, other)
    && HaveOf(n, other) == HaveOf(st, other) && QueuedFor(n, other) == QueuedFor(st, other)
  }

  lemma DeltaLeavesOthers(st: State, me: PeerKey, peer: PeerKey, f: Frame, other: PeerKey)
    requires other != peer && f.SyncDelta?
    ensures SameFor(st, After(st, me, peer, f), other)
  {
  }

  /** Handling a frame from `peer` leaves what we hold about everyone else alone. */
  lemma HandleLeavesOthers(st: State, me: PeerKey, peer: PeerKey, f: Frame, other: PeerKey)
    requires other != peer
    ensures SameFor(st, After(st, me, peer, f), other)
  {
    if f.SyncDelta? {
      DeltaLeavesOthers(st, me, peer, f, other);
    }
  }

  /** A group-scoped frame leaves the direct conversation alone, and is answered in group scope. */
  lemma GroupFramesLeaveDirect(st: State, me: PeerKey, peer: PeerKey, f: Frame)
    requires IsGroupFrame(f)
    ensures var n := After(st, me, peer, f);
      && n.conversations == st.conversations && n.peerHave == st.peerHave && n.queued == st.queued
      && forall g :: g in Replies(st, me, peer, f) ==> IsGroupFrame(g)
  {
  }

  predicate IsGroupFrame(f: Frame)
  {
    match f
    case GroupInvite(_) => true
    case GroupAnnounce(_) => true
    case GroupMessage(_, _) => true
    case SyncHave(scope, _) => scope.Group?
    case SyncDelta(scope, _, _, _) => scope.Group?
    case _ => false
  }

  /** No frame takes a message, reaction or watermark away from any direct conversation. */
  lemma AfterGrows(st: State, me: PeerKey, peer: PeerKey, f: Frame, q: PeerKey)
    ensures Below(Obs(ConvoWith(st, q)), Obs(ConvoWith(After(st, me, peer, f), q)))
  {
    var c := ConvoWith(st, q);
    if q != peer {
      HandleLeavesOthers(st, me, peer, f, q);
    } else if IsGroupFrame(f) {
      GroupFramesLeaveDirect(st, me, peer, f);
    } else {
      match f {
        case Chat(m) => ApplyGrows(c, m);
        case SyncDelta(_, ms, rs, ps) => ApplyDeltaGrows(c, ms, rs, ps);
        case Read(upTo) => MarkReadGrows(c, peer, upTo);
        case _ =>
      }
    }
  }

  /** Nor from any group conversation. */
  lemma AfterGrowsGroup(st: State, me: PeerKey, peer: PeerKey, f: Frame, g: GroupId)
    ensures Below(Obs(GroupConvo(st, g)), Obs(GroupConvo(After(st, me, peer, f), g)))
  {
    var c := GroupConvo(st, g);
    match f {
      case GroupMessage(_, m) => ApplyGrows(c, m);
      case SyncDelta(_, ms, rs, ps) => GroupDeltaGrows(st, me, peer, f, g);
      case _ =>
    }
  }

  lemma GroupDeltaGrows(st: State, me: PeerKey, peer: PeerKey, f: Frame, g: GroupId)
    requires f.SyncDelta?
    ensures Below(Obs(GroupConvo(st, g)), Obs(GroupConvo(After(st, me, peer, f), g)))
  {
    ApplyDeltaGrows(GroupConvo(st, g), f.messages, f.reactions, f.read);
    if f.scope == Group(g) && GroupAllows(st, g, peer, me) {
      assert GroupConvo(After(st, me, peer, f), g) == ApplyDelta(GroupConvo(st, g), f.messages, f.reactions, f.read);
    } else {
      assert GroupConvo(After(st, me, peer, f), g) == GroupConvo(st, g);
    }
  }

  /** A roster, once known, stays as it is; a new one comes only from an admitted announcement. */
  lemma AfterRosters(st: State, me: PeerKey, peer: PeerKey, f: Frame, g: GroupId)
    ensures var n := After(st, me, peer, f).groups;
      && (g in st.groups ==> g in n && n[g] == st.groups[g])
      && (g in n && g !in st.groups ==>
            (f.GroupInvite? || f.GroupAnnounce?) && f.info.id == g && n[g] == f.info && InfoAdmits(f.info, peer, me))
  {
  }

  lemma ConversationsStay(st: State, me: PeerKey, from: PeerKey, f: Frame, peer: PeerKey)
    ensures peer in st.conversations ==> peer in After(st, me, from, f).conversations
  {
    if f.SyncDelta? && f.scope.Group? {
      assert After(st, me, from, f).conversations == st.conversations;
    }
  }

  /** Where a new frame comes from. */
  ghost predicate SentBy(w: World, s: Step, y: Packet)
  {
    match s
    case Offer(p, q) => p in w.nodes && y.from == p && y.to == q && y.frame in Offers(w.nodes[p], q)
    case Receive(i) =>
      && i < |w.net| && w.net[i].to in w.nodes && y.from == w.net[i].to && y.to == w.net[i].from
      && y.frame in Replies(w.nodes[y.from], y.from, y.to, w.net[i].frame)
    case Text(p, q, id, _, _, live) => live && y.from == p && y.to == q && y.frame.Chat? && y.frame.message.id == id
    case NewGroup(p, info) => y.from == p && y.frame == GroupInvite(info)
    case GroupText(p, g, id, _, _) => y.from == p && y.frame.GroupMessage? && y.frame.group == g && y.frame.message.id == id
    case ReadUpTo(p, q, upTo) => y == Packet(p, q, Read(upTo))
    case _ => false
  }

  lemma NewFrame(w: World, s: Step, y: Packet)
    requires y in Next(w, s).net && y !in w.net
    ensures Enabled(w, s) && SentBy(w, s, y)
  {
    match s {
      case Receive(i) => ReceiveNet(w, i);
      case Offer(p, q) => OfferNet(w, p, q);
      case _ =>
    }
  }

  lemma LocalConvoGrows(w: World, s: Step, a: PeerKey, b: PeerKey)
    requires a in w.nodes && Enabled(w, s) && !s.Receive? && !s.Restart? && s != Forget(a, b)
    ensures a in Next(w, s).nodes && Below(Obs(ConvoWith(w.nodes[a], b)), Obs(ConvoWith(Next(w, s).nodes[a], b)))
  {
    if s.ReadUpTo? && s.p == a && s.q == b {
      MarkReadGrows(ConvoWith(w.nodes[a], b), a, s.upTo);
    }
  }

  /** No step but forgetting takes anything away from a direct conversation. */
  lemma ConvoGrows(w: World, s: Step, a: PeerKey, b: PeerKey)
    requires a in w.nodes && s != Forget(a, b)
    ensures a in Next(w, s).nodes && Below(Obs(ConvoWith(w.nodes[a], b)), Obs(ConvoWith(Next(w, s).nodes[a], b)))
  {
    NodesStay(w, s);
    if Enabled(w, s) {
      if s.Receive? {
        if w.net[s.i].to == a { AfterGrows(w.nodes[a], a, w.net[s.i].from, w.net[s.i].frame, b); }
      } else if s.Restart? {
        if s.p == a { RestartKeepsConvo(w.nodes[a], b); }
      } else {
        LocalConvoGrows(w, s, a, b);
      }
    }
  }

  lemma LocalGroupGrows(w: World, s: Step, a: PeerKey, g: GroupId)
    requires a in w.nodes && Enabled(w, s) && !s.Receive? && !s.Restart?
    ensures a in Next(w, s).nodes && Below(Obs(GroupConvo(w.nodes[a], g)), Obs(GroupConvo(Next(w, s).nodes[a], g)))
  {
    if s == ReadGroup(a, g) && g in w.nodes[a].groupConvos {
      var c := w.nodes[a].groupConvos[g];
      MarkReadGrows(c, a, LastStamp(c));
    }
  }

  /** Nor anything at all from a group conversation. */
  lemma GroupGrows(w: World, s: Step, a: PeerKey, g: GroupId)
    requires a in w.nodes
    ensures a in Next(w, s).nodes && Below(Obs(GroupConvo(w.nodes[a], g)), Obs(GroupConvo(Next(w, s).nodes[a], g)))
  {
    NodesStay(w, s);
    if Enabled(w, s) {
      if s.Receive? {
        if w.net[s.i].to == a { AfterGrowsGroup(w.nodes[a], a, w.net[s.i].from, w.net[s.i].frame, g); }
      } else if s.Restart? {
        if s.p == a { RestartKeepsGroup(w.nodes[a], g); }
      } else {
        LocalGroupGrows(w, s, a, g);
      }
    }
  }

  lemma Persists(w: World, s: Step, y: Packet)
    requires y in w.net && !Cuts(s, y.from, y.to)
    requires s.Receive? && Enabled(w, s) ==> w.net[s.i] != y
    ensures y in Next(w, s).net
  {
  }
}
