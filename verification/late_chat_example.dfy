/** A run in which a message reaches its reader live, after the reader has sent its have-list: the exchange
    completes, the reader holds the message, and the writer never hears so on that connection. */
module LateChatExample {
  import opened Wire
  import opened Ordering
  import opened Conversations
  import opened Content
  import opened Worlds
  import opened AntiEntropy

  const HI := Message(7, 1, 1, 0, "hi", MessageKind.Text)
  const TALK := Convo(map[7 := HI], {}, map[], 1)

  const WRITER := FRESH.(conversations := map[2 := TALK])
  const TOLD_NOTHING := WRITER.(peerHave := map[2 := {}])
  const READER := FRESH.(conversations := map[1 := EMPTY])
  const HAS_IT := FRESH.(conversations := map[1 := TALK])
  const TOLD := HAS_IT.(peerHave := map[1 := {7}])

  const HAVE_NONE := SyncHave(Direct, [])
  const HAVE_IT := SyncHave(Direct, [7])
  const IT := SyncDelta(Direct, [HI], [], [])
  const NOTHING := SyncDelta(Direct, [], [], [])

  lemma Listings()
    ensures SortedIds({}) == [] && SortedIds({7}) == [7] && ReactionList(TALK) == [] && ReadList(TALK) == []
    ensures HaveFrame(Direct, EMPTY) == HAVE_NONE && HaveFrame(Direct, TALK) == HAVE_IT
  {
    assert SortedIds({7})[0] in SortedIds({7});
    HasElement(ReactionList(TALK));
    HasElement(ReadList(TALK));
    assert Have(EMPTY) == {} && Have(TALK) == {7};
  }

  lemma Deltas()
    ensures DeltaFrame(Direct, TALK, {}) == IT && DeltaFrame(Direct, TALK, {7}) == NOTHING
  {
    Listings();
    assert TALK.messages.Keys - {} == {7} && TALK.messages.Keys - {7} == {};
    assert DeltaSince(TALK, {}) == [HI] && DeltaSince(TALK, {7}) == [];
  }

  lemma OffersNothingShared(st: State, peer: PeerKey)
    requires SharedGroups(st, peer) == {}
    ensures Offers(st, peer) == [HaveFrame(Direct, ConvoWith(st, peer))]
  {
    assert SortedIds({}) == [];
  }

  /** The first frame in flight arrives. */
  lemma Taken(nodes: map<PeerKey, State>, x: Packet, back: seq<Packet>, offered: set<Link>, st: State, replies: seq<Frame>,
              sent: seq<Packet>)
    requires x.to in nodes && After(nodes[x.to], x.to, x.from, x.frame) == st
    requires Replies(nodes[x.to], x.to, x.from, x.frame) == replies && Packets(x.to, x.from, replies) == sent
    ensures Next(World(nodes, [x] + back, offered), Receive(0)) == World(nodes[x.to := st], back + sent, offered)
  {
    var net := [x] + back;
    assert net[0] == x && net[..0] + net[1..] == back;
  }

  lemma Offered(nodes: map<PeerKey, State>, net: seq<Packet>, offered: set<Link>, p: PeerKey, q: PeerKey, f: Frame)
    requires p in nodes && p != q && Offers(nodes[p], q) == [f]
    ensures Next(World(nodes, net, offered), Offer(p, q)) == World(nodes, net + [Packet(p, q, f)], offered + {Link(p, q)})
  {
    assert Packets(p, q, [f]) == [Packet(p, q, f)];
  }

  lemma PacketsOf(from: PeerKey, to: PeerKey, f: Frame)
    ensures Packets(from, to, [f]) == [Packet(from, to, f)] && Packets(from, to, []) == []
  {
  }

  // What each node makes of each frame.

  lemma ReaderTakesChat()
    ensures After(READER, 2, 1, Chat(HI)) == HAS_IT && Replies(READER, 2, 1, Chat(HI)) == []
  {
  }

  lemma WriterTakesList()
    ensures After(WRITER, 1, 2, HAVE_NONE) == TOLD_NOTHING && Replies(WRITER, 1, 2, HAVE_NONE) == [IT]
  {
    Deltas();
  }

  lemma ReaderTakesList()
    ensures After(HAS_IT, 2, 1, HAVE_IT) == TOLD && Replies(HAS_IT, 2, 1, HAVE_IT) == [NOTHING]
  {
    Deltas();
    assert IdSet([7]) == {7};
  }

  lemma ReaderTakesIt()
    ensures After(TOLD, 2, 1, IT) == TOLD && Replies(TOLD, 2, 1, IT) == []
  {
    assert [HI][..0] == [];
    assert ApplyAll(TALK, [HI]) == TALK && ApplyDelta(TALK, [HI], [], []) == TALK;
  }

  lemma WriterTakesNothing()
    ensures After(TOLD_NOTHING, 1, 2, NOTHING) == TOLD_NOTHING && Replies(TOLD_NOTHING, 1, 2, NOTHING) == []
  {
    assert ApplyDelta(TALK, [], [], []) == TALK;
  }

  // The run.

  const CHAT := Packet(1, 2, Chat(HI))
  const BACK := {Link(2, 1)}
  const BOTH := {Link(2, 1)} + {Link(1, 2)}

  const Z := World(map[1 := FRESH, 2 := FRESH], [], {})
  const W0 := World(map[1 := WRITER, 2 := READER], [CHAT], {})
  const W1 := World(map[1 := WRITER, 2 := READER], [CHAT] + [Packet(2, 1, HAVE_NONE)], BACK)
  const W2 := World(map[1 := WRITER, 2 := HAS_IT], [Packet(2, 1, HAVE_NONE)], BACK)
  const W3 := World(map[1 := WRITER, 2 := HAS_IT], [Packet(2, 1, HAVE_NONE)] + [Packet(1, 2, HAVE_IT)], BOTH)
  const W4 := World(map[1 := TOLD_NOTHING, 2 := HAS_IT], [Packet(1, 2, HAVE_IT)] + [Packet(1, 2, IT)], BOTH)
  const W5 := World(map[1 := TOLD_NOTHING, 2 := TOLD], [Packet(1, 2, IT)] + [Packet(2, 1, NOTHING)], BOTH)
  const W6 := World(map[1 := TOLD_NOTHING, 2 := TOLD], [Packet(2, 1, NOTHING)], BOTH)
  const W7 := World(map[1 := TOLD_NOTHING, 2 := TOLD], [], BOTH)

  lemma Begins()
    ensures Next(Next(Z, Reconnect(1, 2)), Step.Text(1, 2, 7, 0, "hi", true)) == W0
  {
    var met := FRESH.(conversations := map[2 := EMPTY]);
    var z := Next(Z, Reconnect(1, 2));
    assert z.nodes == map[1 := met, 2 := READER] && z.net == [] && z.offered == {};
    assert Authored(ConvoWith(met, 2), 7, 1, 0, "hi", MessageKind.Text) == HI;
    assert SendText(met, 2, HI, false) == WRITER;
    assert z.nodes[1 := WRITER] == W0.nodes;
  }

  lemma Step0()
    ensures Next(W0, Offer(2, 1)) == W1
  {
    Listings();
    assert SharedGroups(READER, 1) == {};
    OffersNothingShared(READER, 1);
    Offered(W0.nodes, [CHAT], {}, 2, 1, HAVE_NONE);
  }

  lemma Step1()
    ensures Next(W1, Receive(0)) == W2
  {
    ReaderTakesChat();
    PacketsOf(2, 1, NOTHING);
    Taken(W1.nodes, CHAT, [Packet(2, 1, HAVE_NONE)], BACK, HAS_IT, [], []);
    assert W1.nodes[2 := HAS_IT] == W2.nodes;
  }

  lemma Step2()
    ensures Next(W2, Offer(1, 2)) == W3
  {
    Listings();
    assert SharedGroups(WRITER, 2) == {};
    OffersNothingShared(WRITER, 2);
    Offered(W2.nodes, [Packet(2, 1, HAVE_NONE)], BACK, 1, 2, HAVE_IT);
  }

  lemma Arrival3(front: Packet, back: seq<Packet>)
    requires front == Packet(2, 1, HAVE_NONE)
    ensures Next(World(W3.nodes, [front] + back, BOTH), Receive(0))
      == World(W3.nodes[1 := TOLD_NOTHING], back + [Packet(1, 2, IT)], BOTH)
  {
    WriterTakesList();
    PacketsOf(1, 2, IT);
    Taken(W3.nodes, front, back, BOTH, TOLD_NOTHING, [IT], [Packet(1, 2, IT)]);
  }

  lemma Step3()
    ensures Next(W3, Receive(0)) == W4
  {
    Arrival3(Packet(2, 1, HAVE_NONE), [Packet(1, 2, HAVE_IT)]);
    Around3();
  }

  lemma Around3()
    ensures World(W3.nodes, [Packet(2, 1, HAVE_NONE)] + [Packet(1, 2, HAVE_IT)], BOTH) == W3
    ensures World(W3.nodes[1 := TOLD_NOTHING], [Packet(1, 2, HAVE_IT)] + [Packet(1, 2, IT)], BOTH) == W4
  {
    assert W3.nodes[1 := TOLD_NOTHING] == W4.nodes;
  }

  lemma Step4()
    ensures Next(W4, Receive(0)) == W5
  {
    ReaderTakesList();
    PacketsOf(2, 1, NOTHING);
    Taken(W4.nodes, Packet(1, 2, HAVE_IT), [Packet(1, 2, IT)], BOTH, TOLD, [NOTHING], [Packet(2, 1, NOTHING)]);
    assert W4.nodes[2 := TOLD] == W5.nodes;
  }

  lemma Step5()
    ensures Next(W5, Receive(0)) == W6
  {
    ReaderTakesIt();
    PacketsOf(2, 1, NOTHING);
    Taken(W5.nodes, Packet(1, 2, IT), [Packet(2, 1, NOTHING)], BOTH, TOLD, [], []);
    assert W5.nodes[2 := TOLD] == W6.nodes;
  }

  lemma Step6()
    ensures Next(W6, Receive(0)) == W7
  {
    WriterTakesNothing();
    PacketsOf(1, 2, IT);
    Taken(W6.nodes, Packet(2, 1, NOTHING), [], BOTH, TOLD_NOTHING, [], []);
    assert W6.nodes[1 := TOLD_NOTHING] == W7.nodes;
  }

  const HISTORY: seq<Step> := [] + [Reconnect(1, 2)] + [Step.Text(1, 2, 7, 0, "hi", true)]
  const S3: seq<Step> := [] + [Offer(2, 1)] + [Receive(0)] + [Offer(1, 2)]
  const S7 := S3 + [Receive(0)] + [Receive(0)] + [Receive(0)] + [Receive(0)]

  lemma HistoryReaches()
    ensures Run(Z, HISTORY) == W0
  {
    Begins();
    RunOn(Z, [], Reconnect(1, 2));
    RunOn(Z, [] + [Reconnect(1, 2)], Step.Text(1, 2, 7, 0, "hi", true));
  }

  lemma Reach3()
    ensures Run(W0, S3) == W3
  {
    Step0(); Step1(); Step2();
    RunOn(W0, [], Offer(2, 1));
    RunOn(W0, [] + [Offer(2, 1)], Receive(0));
    RunOn(W0, [] + [Offer(2, 1)] + [Receive(0)], Offer(1, 2));
  }

  lemma Reach7()
    ensures Run(W0, S7) == W7
  {
    Reach3();
    Step3(); Step4(); Step5(); Step6();
    RunOn(W0, S3, Receive(0));
    RunOn(W0, S3 + [Receive(0)], Receive(0));
    RunOn(W0, S3 + [Receive(0)] + [Receive(0)], Receive(0));
    RunOn(W0, S3 + [Receive(0)] + [Receive(0)] + [Receive(0)], Receive(0));
  }

  lemma Ends()
    ensures Meeting(W0, 1, 2) && Quiet(S7, 1, 2) && Settled(W7, 1, 2)
    ensures StatusOf(W7.nodes[1], 1, 2, HI) == Some(Sent) && 7 in Have(C(W7, 2, 1))
  {
  }

  /** From an empty start: a message in flight when the two exchange have-lists; all is delivered, its reader holds
      it, and to its writer it stays Sent. */
  lemma LateChatStaysSent()
    ensures exists w: World, hs: seq<Step>, steps: seq<Step> ::
      && Empty(w) && Meeting(Run(w, hs), 1, 2) && Quiet(steps, 1, 2) && Settled(Run(Run(w, hs), steps), 1, 2)
      && Run(Run(w, hs), steps).nodes.Keys == {1, 2} && 7 in Have(C(Run(Run(w, hs), steps), 2, 1))
      && StatusOf(Run(Run(w, hs), steps).nodes[1], 1, 2, HI) == Some(Sent)
  {
    HistoryReaches();
    Reach7();
    Ends();
    assert Empty(Z);
  }
}
