/** The acknowledgement ping-pong dies out: every frame handled between two nodes uses up some of a
    budget fixed when the last message was written. */
module Termination {
  import opened Wire
  import opened Ordering
  import opened Conversations
  import opened Content
  import opened Worlds
  import opened AntiEntropy

  /** An announce can trigger a have-list, a have-list a delta. */
  function FrameWeight(f: Frame): nat
  {
    match f
    case GroupInvite(_) => 3
    case GroupAnnounce(_) => 3
    case SyncHave(_, _) => 2
    case _ => 1
  }

  function Weight(x: Packet, a: PeerKey, b: PeerKey): nat
  {
    if Between(x, a, b) then FrameWeight(x.frame) else 0
  }

  function NetWeight(net: seq<Packet>, a: PeerKey, b: PeerKey): nat
  {
    if net == [] then 0 else NetWeight(net[..|net| - 1], a, b) + Weight(net[|net| - 1], a, b)
  }

  /** The message ids a frame can put into a direct conversation. */
  function DirectIds(f: Frame): set<MessageId>
  {
    match f
    case Chat(m) => {m.id}
    case SyncDelta(scope, ms, _, _) => if scope == Direct then set m | m in ms :: m.id else {}
    case _ => {}
  }

  function NetIds(net: seq<Packet>): set<MessageId>
  {
    if net == [] then {} else NetIds(net[..|net| - 1]) + DirectIds(net[|net| - 1].frame)
  }

  /** Every id the two conversations hold or can still receive. */
  function Universe(w: World, a: PeerKey, b: PeerKey): set<MessageId>
    requires a in w.nodes && b in w.nodes
  {
    Have(C(w, a, b)) + Have(C(w, b, a)) + NetIds(w.net)
  }

  ghost predicate Closed(w: World, a: PeerKey, b: PeerKey, all: set<MessageId>)
  {
    && a != b && a in w.nodes && b in w.nodes
    && Have(C(w, a, b)) <= all && Have(C(w, b, a)) <= all
    && forall x :: x in w.net && Between(x, a, b) ==> DirectIds(x.frame) <= all
  }

  /** Twice the ids missing at either side, plus the weight of what is in flight between them. */
  function Budget(w: World, a: PeerKey, b: PeerKey, all: set<MessageId>): nat
    requires a in w.nodes && b in w.nodes
  {
    2 * (|all - Have(C(w, a, b))| + |all - Have(C(w, b, a))|) + NetWeight(w.net, a, b)
  }

  lemma {:induction false} NetWeightConcat(p: seq<Packet>, q: seq<Packet>, a: PeerKey, b: PeerKey)
    ensures NetWeight(p + q, a, b) == NetWeight(p, a, b) + NetWeight(q, a, b)
  {
    if q == [] {
      assert p + q == p;
    } else {
      var k := |q| - 1;
      NetWeightConcat(p, q[..k], a, b);
      assert (p + q)[..|p + q| - 1] == p + q[..k];
    }
  }

  lemma NetWeightWithout(net: seq<Packet>, i: nat, a: PeerKey, b: PeerKey)
    requires i < |net|
    ensures NetWeight(Without(net, i), a, b) == NetWeight(net, a, b) - Weight(net[i], a, b)
    ensures Weight(net[i], a, b) <= NetWeight(net, a, b)
  {
    var p, q := net[..i], net[i + 1..];
    assert net[..i + 1] == p + [net[i]] && net == net[..i + 1] + q;
    assert net[..i + 1][..i] == p;
    NetWeightConcat(net[..i + 1], q, a, b);
    NetWeightConcat(p, q, a, b);
  }

  lemma {:induction false} NetIdsCover(net: seq<Packet>)
    ensures forall x :: x in net ==> DirectIds(x.frame) <= NetIds(net)
  {
    if net != [] {
      var k := |net| - 1;
      NetIdsCover(net[..k]);
      assert net == net[..k] + [net[k]];
      assert forall x :: x in net <==> x in net[..k] || x == net[k];
    }
  }

  lemma UniverseClosed(w: World, a: PeerKey, b: PeerKey)
    requires a != b && a in w.nodes && b in w.nodes
    ensures Closed(w, a, b, Universe(w, a, b))
  {
    NetIdsCover(w.net);
  }

  /** A frame has at most one reply: a delta for a have-list, or a have-list for group news or for a
      delta that added something. */
  ghost predicate FittingReply(replies: seq<Frame>, f: Frame, added: bool)
  {
    || replies == []
    || (|replies| == 1 && f.SyncHave? && replies[0].SyncDelta?)
    || (|replies| == 1 && replies[0].SyncHave? && (f.GroupInvite? || f.GroupAnnounce? || added))
  }

  lemma FittingIsLight(replies: seq<Frame>, f: Frame, added: bool)
    requires FittingReply(replies, f, added)
    ensures replies == [] || (|replies| == 1 && (FrameWeight(replies[0]) < FrameWeight(f) || (added && FrameWeight(replies[0]) == 2)))
  {
  }

  lemma AtMostOneReply(st: State, me: PeerKey, peer: PeerKey, f: Frame)
    ensures |Replies(st, me, peer, f)| <= 1
  {
  }

  lemma HaveGetsDelta(st: State, me: PeerKey, peer: PeerKey, f: Frame, g: Frame)
    requires f.SyncHave? && Replies(st, me, peer, f) == [g]
    ensures g.SyncDelta?
  {
    var delta := BuildDelta(st, me, peer, f.scope, f.ids);
    assert [g][0] == g;
    assert delta.Some? && delta.value == g;
  }

  lemma OtherReplyIsHave(st: State, me: PeerKey, peer: PeerKey, f: Frame, g: Frame)
    requires !f.SyncHave? && Replies(st, me, peer, f) == [g]
    ensures g.SyncHave?
    ensures f.GroupInvite? || f.GroupAnnounce? || (IsDelta(f) && Added(ConvoWith(st, peer), f.messages) > 0)
  {
    assert [g][0] == g;
  }

  lemma RepliesFit(st: State, me: PeerKey, peer: PeerKey, f: Frame, replies: seq<Frame>)
    requires replies == Replies(st, me, peer, f)
    ensures FittingReply(replies, f, IsDelta(f) && Added(ConvoWith(st, peer), f.messages) > 0)
  {
    AtMostOneReply(st, me, peer, f);
    if replies != [] {
      var g := replies[0];
      assert replies == [g];
      if f.SyncHave? {
        HaveGetsDelta(st, me, peer, f, g);
      } else {
        OtherReplyIsHave(st, me, peer, f, g);
      }
    }
  }

  lemma PacketsWeight(from: PeerKey, to: PeerKey, frames: seq<Frame>, a: PeerKey, b: PeerKey)
    requires |frames| <= 1 && ((from == a && to == b) || (from == b && to == a))
    ensures NetWeight(Packets(from, to, frames), a, b) == if frames == [] then 0 else FrameWeight(frames[0])
  {
    var ps := Packets(from, to, frames);
    if frames == [] {
      assert ps == [];
    } else {
      assert ps == [Packet(from, to, frames[0])];
      assert ps[..0] == [];
    }
  }

  /** What a frame adds to a conversation it takes off the missing count. */
  lemma MissingShrinks(all: set<MessageId>, before: set<MessageId>, after: set<MessageId>)
    requires before <= after <= all
    ensures |all - after| <= |all - before|
    ensures |before| < |after| ==> |all - after| < |all - before|
  {
    SetGrows(all - after, all - before);
    assert after == all - (all - after) && before == all - (all - before);
  }

  lemma HoldingsAfter(st: State, me: PeerKey, peer: PeerKey, f: Frame, all: set<MessageId>)
    requires Have(ConvoWith(st, peer)) <= all && DirectIds(f) <= all
    ensures var before, after := Have(ConvoWith(st, peer)), Have(ConvoWith(After(st, me, peer, f), peer));
      && before <= after <= all
      && (IsDelta(f) && Added(ConvoWith(st, peer), f.messages) > 0 ==> |before| < |after|)
  {
    var c := ConvoWith(st, peer);
    AfterGrows(st, me, peer, f, peer);
    if IsGroupFrame(f) {
      GroupFramesLeaveDirect(st, me, peer, f);
    } else if IsDelta(f) {
      DeltaHandled(st, me, peer, f);
      ApplyAllSources(c, f.messages);
    }
  }

  lemma RepliesStayWithin(st: State, me: PeerKey, peer: PeerKey, f: Frame, all: set<MessageId>)
    requires Have(ConvoWith(st, peer)) <= all
    ensures forall g :: g in Replies(st, me, peer, f) ==> DirectIds(g) <= all
  {
    if IsHave(f) && peer in st.conversations {
      HaveHandled(st, me, peer, f);
      var c := ConvoWith(st, peer);
      assert ListsMessages(DeltaSince(c, IdSet(f.ids)), c.messages, c.messages.Keys - IdSet(f.ids));
    }
  }

  /** Every frame handled between the two nodes strictly lowers the budget. */
  lemma HandledFrameSpends(w: World, i: nat, a: PeerKey, b: PeerKey, all: set<MessageId>)
    requires Closed(w, a, b, all) && Enabled(w, Receive(i)) && w.net[i].from == b && w.net[i].to == a
    ensures Closed(Next(w, Receive(i)), a, b, all)
    ensures Budget(Next(w, Receive(i)), a, b, all) < Budget(w, a, b, all)
  {
    var x, st, n := w.net[i], w.nodes[a], Next(w, Receive(i));
    var replies := Replies(st, a, b, x.frame);
    RepliesFit(st, a, b, x.frame, replies);
    FittingIsLight(replies, x.frame, IsDelta(x.frame) && Added(ConvoWith(st, b), x.frame.messages) > 0);
    HoldingsAfter(st, a, b, x.frame, all);
    RepliesStayWithin(st, a, b, x.frame, all);
    ReceiveNet(w, i);
    MissingShrinks(all, Have(C(w, a, b)), Have(C(n, a, b)));
    PacketsWeight(a, b, replies, a, b);
    NetWeightConcat(Without(w.net, i), Packets(a, b, replies), a, b);
    NetWeightWithout(w.net, i, a, b);
  }

  lemma BudgetSymmetric(w: World, a: PeerKey, b: PeerKey, all: set<MessageId>)
    requires a in w.nodes && b in w.nodes
    ensures Budget(w, a, b, all) == Budget(w, b, a, all)
    ensures Closed(w, a, b, all) <==> Closed(w, b, a, all)
  {
    NetWeightSymmetric(w.net, a, b);
  }

  lemma {:induction false} NetWeightSymmetric(net: seq<Packet>, a: PeerKey, b: PeerKey)
    ensures NetWeight(net, a, b) == NetWeight(net, b, a)
  {
    if net != [] {
      NetWeightSymmetric(net[..|net| - 1], a, b);
    }
  }

  lemma {:induction false} ElsewhereWeighsNothing(net: seq<Packet>, a: PeerKey, b: PeerKey)
    requires forall x :: x in net ==> !Between(x, a, b)
    ensures NetWeight(net, a, b) == 0
  {
    if net != [] {
      assert net[|net| - 1] in net;
      ElsewhereWeighsNothing(net[..|net| - 1], a, b);
    }
  }

  /** Frames between other nodes leave it alone. */
  lemma ElsewhereSpendsNothing(w: World, i: nat, a: PeerKey, b: PeerKey, all: set<MessageId>)
    requires Closed(w, a, b, all) && Enabled(w, Receive(i)) && !Between(w.net[i], a, b)
    ensures Closed(Next(w, Receive(i)), a, b, all)
    ensures Budget(Next(w, Receive(i)), a, b, all) == Budget(w, a, b, all)
  {
    var x := w.net[i];
    var replies := Replies(w.nodes[x.to], x.to, x.from, x.frame);
    ReceiveNet(w, i);
    if x.to == a { HandleLeavesOthers(w.nodes[a], a, x.from, x.frame, b); }
    if x.to == b { HandleLeavesOthers(w.nodes[b], b, x.from, x.frame, a); }
    NetWeightConcat(Without(w.net, i), Packets(x.to, x.from, replies), a, b);
    NetWeightWithout(w.net, i, a, b);
    ElsewhereWeighsNothing(Packets(x.to, x.from, replies), a, b);
  }

  /** How many frames between the two nodes a run handles. */
  function Handled(w: World, steps: seq<Step>, a: PeerKey, b: PeerKey): nat
  {
    if steps == [] then 0
    else
      var k := |steps| - 1;
      var before := Run(w, steps[..k]);
      Handled(w, steps[..k], a, b)
      + if steps[k].Receive? && Enabled(before, steps[k]) && Between(before.net[steps[k].i], a, b) then 1 else 0
  }

  lemma ReceiveSpends(w: World, i: nat, a: PeerKey, b: PeerKey, all: set<MessageId>)
    requires Closed(w, a, b, all) && Enabled(w, Receive(i))
    ensures Closed(Next(w, Receive(i)), a, b, all)
    ensures Budget(Next(w, Receive(i)), a, b, all) + (if Between(w.net[i], a, b) then 1 else 0) <= Budget(w, a, b, all)
  {
    if w.net[i].from == b && w.net[i].to == a {
      HandledFrameSpends(w, i, a, b, all);
    } else if w.net[i].from == a && w.net[i].to == b {
      BudgetSymmetric(w, a, b, all);
      HandledFrameSpends(w, i, b, a, all);
      BudgetSymmetric(Next(w, Receive(i)), a, b, all);
    } else {
      ElsewhereSpendsNothing(w, i, a, b, all);
    }
  }

  lemma {:induction false} RunStaysWithinBudget(w: World, steps: seq<Step>, a: PeerKey, b: PeerKey, all: set<MessageId>)
    requires Closed(w, a, b, all) && forall s :: s in steps ==> s.Receive?
    ensures Closed(Run(w, steps), a, b, all)
    ensures Handled(w, steps, a, b) + Budget(Run(w, steps), a, b, all) <= Budget(w, a, b, all)
  {
    if steps != [] {
      var k := |steps| - 1;
      assert steps == steps[..k] + [steps[k]];
      RunStaysWithinBudget(w, steps[..k], a, b, all);
      if Enabled(Run(w, steps[..k]), steps[k]) {
        ReceiveSpends(Run(w, steps[..k]), steps[k].i, a, b, all);
      }
    }
  }

  /** With nothing new written or offered, the two nodes handle a bounded number of frames, however
      deliveries are ordered and whatever the rest of the network does. */
  lemma PingPongEnds(w: World, steps: seq<Step>, a: PeerKey, b: PeerKey)
    requires a != b && a in w.nodes && b in w.nodes && forall s :: s in steps ==> s.Receive?
    ensures Handled(w, steps, a, b) <= Budget(w, a, b, Universe(w, a, b))
  {
    UniverseClosed(w, a, b);
    RunStaysWithinBudget(w, steps, a, b, Universe(w, a, b));
  }
}
