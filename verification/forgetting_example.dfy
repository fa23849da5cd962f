/** A run in which a node goes on believing that its peer holds a message after the peer has removed it as a
    contact - and goes on showing it as Delivered. */
module ForgettingExample {
  import opened Wire
  import opened Ordering
  import opened Conversations
  import opened Content
  import opened Worlds
  import opened AntiEntropy
  import opened Reconnection

  const HI := Message(7, 1, 1, 0, "hi", MessageKind.Text)
  const TALK := Convo(map[7 := HI], {}, map[], 1)
  const N1 := FRESH.(conversations := map[2 := TALK])
  const N2 := FRESH.(conversations := map[1 := TALK])
  const LISTED := SyncHave(Direct, [7])

  const W0 := World(map[1 := FRESH, 2 := FRESH], [], {})
  const W1 := World(map[1 := N1, 2 := FRESH], [Packet(1, 2, Chat(HI))], {})
  const W2 := World(map[1 := N1, 2 := N2], [], {})
  const W3 := World(map[1 := N1, 2 := N2], [Packet(2, 1, LISTED)], {Link(2, 1)})

  lemma Sent()
    ensures Next(W0, Step.Text(1, 2, 7, 0, "hi", true)) == W1
  {
    var st := W0.nodes[1];
    assert Authored(ConvoWith(st, 2), 7, 1, 0, "hi", MessageKind.Text) == HI;
    assert SendText(st, 2, HI, false) == N1;
    assert W0.nodes[1 := N1] == W1.nodes;
  }

  lemma Arrived()
    ensures Next(W1, Receive(0)) == W2
  {
    assert After(FRESH, 2, 1, Chat(HI)) == N2 && Replies(FRESH, 2, 1, Chat(HI)) == [];
    assert W1.nodes[2 := N2] == W2.nodes;
    assert Without(W1.net, 0) == [] && Packets(2, 1, []) == [];
  }

  lemma NothingShared(st: State, peer: PeerKey)
    requires SharedGroups(st, peer) == {}
    ensures Offers(st, peer) == [HaveFrame(Direct, ConvoWith(st, peer))]
  {
    assert SortedIds({}) == [];
  }

  lemma OfferIs()
    ensures Offers(N2, 1) == [LISTED]
  {
    NothingShared(N2, 1);
    assert Have(TALK) == {7} && SortedIds({7})[0] in SortedIds({7});
    assert SortedIds({7}) == [7];
  }

  lemma Listed()
    ensures Next(W2, Offer(2, 1)) == W3
  {
    OfferIs();
    assert Packets(2, 1, [LISTED]) == [Packet(2, 1, LISTED)];
  }

  lemma Learnt()
    ensures var n := Next(W3, Receive(0)); n.nodes.Keys == {1, 2} && HaveOf(n.nodes[1], 2) == {7} && C(n, 1, 2) == TALK
  {
    var n := After(N1, 1, 2, LISTED);
    assert IdSet([7]) == {7};
    assert HaveOf(n, 2) == {7} && ConvoWith(n, 2) == TALK;
    NodesStay(W3, Receive(0));
  }

  const BEFORE: seq<Step> := [] + [Step.Text(1, 2, 7, 0, "hi", true)] + [Receive(0)] + [Offer(2, 1)] + [Receive(0)]
  const STEPS := BEFORE + [Forget(2, 1)]

  lemma Reaches()
    ensures Run(W0, BEFORE) == Next(W3, Receive(0))
  {
    Sent(); Arrived(); Listed();
    RunOn(W0, [], Step.Text(1, 2, 7, 0, "hi", true));
    RunOn(W0, [] + [Step.Text(1, 2, 7, 0, "hi", true)], Receive(0));
    RunOn(W0, [] + [Step.Text(1, 2, 7, 0, "hi", true)] + [Receive(0)], Offer(2, 1));
    RunOn(W0, [] + [Step.Text(1, 2, 7, 0, "hi", true)] + [Receive(0)] + [Offer(2, 1)], Receive(0));
  }

  lemma DrawnOnce()
    ensures FreshDraws(W0, STEPS)
  {
    PrefixDrawn(W0, [], Step.Text(1, 2, 7, 0, "hi", true));
    var s1 := [] + [Step.Text(1, 2, 7, 0, "hi", true)];
    PrefixDrawn(W0, s1, Receive(0));
    PrefixDrawn(W0, s1 + [Receive(0)], Offer(2, 1));
    PrefixDrawn(W0, s1 + [Receive(0)] + [Offer(2, 1)], Receive(0));
    PrefixDrawn(W0, BEFORE, Forget(2, 1));
  }

  lemma PrefixDrawn(w: World, steps: seq<Step>, s: Step)
    requires FreshDraws(w, steps) && FreshDraw(s, Pool(w, steps))
    ensures FreshDraws(w, steps + [s])
  {
    assert (steps + [s])[..|steps|] == steps;
  }

  /** 2 received 1's message, said so, and removed 1: what 1 believes, and shows, is no longer true. */
  lemma ForgottenStillDelivered()
    ensures exists w: World, steps: seq<Step> ::
      && Empty(w) && FreshDraws(w, steps) && Run(w, steps).nodes.Keys == {1, 2}
      && 7 in HaveOf(Run(w, steps).nodes[1], 2) && 7 !in Have(C(Run(w, steps), 2, 1))
      && StatusOf(Run(w, steps).nodes[1], 1, 2, HI) == Some(Delivered)
  {
    Reaches();
    Learnt();
    DrawnOnce();
    var u := Next(W3, Receive(0));
    RunOn(W0, BEFORE, Forget(2, 1));
    AfterForgetting(u);
    assert Run(W0, STEPS) == Next(u, Forget(2, 1));
  }

  lemma AfterForgetting(u: World)
    requires u.nodes.Keys == {1, 2} && HaveOf(u.nodes[1], 2) == {7}
    ensures var n := Next(u, Forget(2, 1));
      && n.nodes.Keys == {1, 2} && 7 in HaveOf(n.nodes[1], 2) && 7 !in Have(C(n, 2, 1))
      && StatusOf(n.nodes[1], 1, 2, HI) == Some(Delivered)
  {
  }
}
