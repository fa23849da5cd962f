/** A run of three honest nodes in which every frame between two group members is delivered and the
    history still does not cross: the receiver heard of the group from the third node in between. */
module HealingExample {
  import opened Wire
  import opened Ordering
  import opened Conversations
  import opened Content
  import opened Worlds
  import opened AntiEntropy
  import opened Healing
  import opened Reconnection
  import opened GroupHistory

  const INFO := GroupInfo(5, "study", [1, 2, 3], 1)
  const NOTE := Message(7, 1, 1, 0, "notes", MessageKind.Text)
  const NOTES := Convo(map[7 := NOTE], {}, map[], 1)

  const HAVE := SyncHave(Direct, [])
  const HAVE_GROUP := SyncHave(Group(5), [])
  const HAVE_NOTES := SyncHave(Group(5), [7])
  const NEWS := GroupAnnounce(INFO)
  const NOTHING := SyncDelta(Direct, [], [], [])
  const NO_NOTES := SyncDelta(Group(5), [], [], [])

  /** 1 holds the note, 3 knows the group, 2 knows neither; all are connected. */
  const N1 := State(map[2 := EMPTY, 3 := EMPTY], map[5 := INFO], map[5 := NOTES], map[], map[])
  const N2 := State(map[1 := EMPTY, 3 := EMPTY], map[], map[], map[], map[])
  const N3 := State(map[1 := EMPTY, 2 := EMPTY], map[5 := INFO], map[5 := EMPTY], map[], map[])
  const N2_AWARE := N2.(groups := map[5 := INFO], groupConvos := map[5 := EMPTY])

  lemma Listings()
    ensures SortedIds({}) == [] && SortedIds({5}) == [5] && SortedIds({7}) == [7]
    ensures forall scope :: HaveFrame(scope, EMPTY) == SyncHave(scope, [])
    ensures HaveFrame(Group(5), NOTES) == HAVE_NOTES
    ensures forall scope, have :: DeltaFrame(scope, EMPTY, have) == SyncDelta(scope, [], [], [])
  {
    assert SortedIds({5})[0] in SortedIds({5}) && SortedIds({7})[0] in SortedIds({7});
    assert Have(EMPTY) == {} && Have(NOTES) == {7};
    forall scope, have ensures DeltaFrame(scope, EMPTY, have) == SyncDelta(scope, [], [], []) {
      EmptyListings(DeltaSince(EMPTY, have), ReactionList(EMPTY), ReadList(EMPTY), have);
    }
  }

  lemma EmptyListings(ms: seq<Message>, rs: seq<Reaction>, ps: seq<Mark>, have: set<MessageId>)
    requires ListsMessages(ms, map[], {} - have) && SameElements(rs, {}) && ListsMarks(ps, map[])
    ensures ms == [] && rs == [] && ps == []
  {
    HasElement(ms);
    HasElement(rs);
    HasElement(ps);
  }

  lemma OneSharedGroup(st: State, peer: PeerKey)
    requires SharedGroups(st, peer) == {5} && SortedIds({5}) == [5]
    ensures Offers(st, peer) ==
      [GroupAnnounce(st.groups[5]), HaveFrame(Direct, ConvoWith(st, peer)), HaveFrame(Group(5), GroupConvo(st, 5))]
  {
    assert [5][..0] == [];
    assert 5 in [5];
    assert Announces(st, [5]) == [GroupAnnounce(st.groups[5])];
    assert GroupHaves(st, [5]) == [HaveFrame(Group(5), GroupConvo(st, 5))];
  }

  lemma Offers1()
    ensures Offers(N1, 2) == [NEWS, HAVE, HAVE_NOTES]
  {
    Listings();
    assert SharedGroups(N1, 2) == {5};
    OneSharedGroup(N1, 2);
  }

  lemma NothingShared(st: State, peer: PeerKey)
    requires SharedGroups(st, peer) == {} && SortedIds({}) == []
    ensures Offers(st, peer) == [HaveFrame(Direct, ConvoWith(st, peer))]
  {
  }

  lemma Offers2()
    ensures Offers(N2, 1) == [HAVE]
  {
    Listings();
    assert SharedGroups(N2, 1) == {};
    NothingShared(N2, 1);
  }

  lemma Offers3()
    ensures Offers(N3, 2) == [NEWS, HAVE, HAVE_GROUP]
  {
    Listings();
    assert SharedGroups(N3, 2) == {5};
    OneSharedGroup(N3, 2);
  }

  // The run: each lemma is one step.

  lemma PacketsOf1(from: PeerKey, to: PeerKey, f: Frame)
    ensures Packets(from, to, [f]) == [Packet(from, to, f)]
  {
  }

  lemma PacketsOf3(from: PeerKey, to: PeerKey, f: Frame, g: Frame, h: Frame)
    ensures Packets(from, to, [f, g, h]) == [Packet(from, to, f), Packet(from, to, g), Packet(from, to, h)]
  {
  }

  /** One connect-time exchange started, whatever is in flight. */
  lemma Offered(nodes: map<PeerKey, State>, net: seq<Packet>, offered: set<Link>, p: PeerKey, q: PeerKey,
                frames: seq<Frame>, sent: seq<Packet>)
    requires p in nodes && p != q && Offers(nodes[p], q) == frames && Packets(p, q, frames) == sent
    ensures Next(World(nodes, net, offered), Offer(p, q)) == World(nodes, net + sent, offered + {Link(p, q)})
  {
  }

  /** One arrival, whatever else is in flight. */
  lemma Taken(nodes: map<PeerKey, State>, front: seq<Packet>, x: Packet, back: seq<Packet>, offered: set<Link>,
              st: State, sent: seq<Packet>)
    requires x.to in nodes && After(nodes[x.to], x.to, x.from, x.frame) == st
    requires Packets(x.to, x.from, Replies(nodes[x.to], x.to, x.from, x.frame)) == sent
    ensures Next(World(nodes, front + [x] + back, offered), Receive(|front|))
      == World(nodes[x.to := st], front + back + sent, offered)
  {
    var net := front + [x] + back;
    assert net[|front|] == x && net[..|front|] + net[|front| + 1..] == front + back;
  }

  const ALL := map[1 := N1, 2 := N2, 3 := N3]
  const AWARE := map[1 := N1, 2 := N2_AWARE, 3 := N3]

  const AT_REST := [Packet(3, 2, HAVE), Packet(3, 2, HAVE_GROUP), Packet(2, 3, HAVE_GROUP)]

  const W0 := World(ALL, [], {})
  const W1 := World(ALL, [Packet(2, 1, HAVE)], {Link(2, 1)})
  const FROM3 := [Packet(3, 2, NEWS), Packet(3, 2, HAVE), Packet(3, 2, HAVE_GROUP)]
  const W2 := World(ALL, [Packet(2, 1, HAVE)] + FROM3, {Link(2, 1)} + {Link(3, 2)})
  const W3 := World(AWARE, [Packet(2, 1, HAVE)] + AT_REST, {Link(2, 1)} + {Link(3, 2)})

  lemma Step0()
    ensures Next(W0, Offer(2, 1)) == W1
  {
    Offers2();
    Step0From();
  }

  lemma Step0From()
    requires Offers(N2, 1) == [HAVE]
    ensures Next(W0, Offer(2, 1)) == W1
  {
    PacketsOf1(2, 1, HAVE);
    Offered(ALL, [], {}, 2, 1, [HAVE], [Packet(2, 1, HAVE)]);
  }

  lemma Step1()
    ensures Next(W1, Offer(3, 2)) == W2
  {
    Offers3();
    Step1From();
  }

  lemma Step1From()
    requires Offers(N3, 2) == [NEWS, HAVE, HAVE_GROUP]
    ensures Next(W1, Offer(3, 2)) == W2
  {
    PacketsOf3(3, 2, NEWS, HAVE, HAVE_GROUP);
    Offered(ALL, [Packet(2, 1, HAVE)], {Link(2, 1)}, 3, 2, [NEWS, HAVE, HAVE_GROUP], FROM3);
  }

  lemma NewsHandled()
    ensures After(N2, 2, 3, NEWS) == N2_AWARE && Replies(N2, 2, 3, NEWS) == [HAVE_GROUP]
  {
    Listings();
  }

  lemma Step2()
    ensures Next(W2, Receive(1)) == W3
  {
    NewsHandled();
    PacketsOf1(2, 3, HAVE_GROUP);
    assert ALL[2 := N2_AWARE] == AWARE;
    Taken(ALL, HEAD, Packet(3, 2, NEWS), FROM3[1..], {Link(2, 1)} + {Link(3, 2)}, N2_AWARE, [Packet(2, 3, HAVE_GROUP)]);
    assert W2.net == HEAD + [Packet(3, 2, NEWS)] + FROM3[1..];
    assert W3.net == HEAD + FROM3[1..] + [Packet(2, 3, HAVE_GROUP)];
  }

  // 1 makes its offer to 2; everything between the two is then delivered.

  const N2_TOLD := N2_AWARE.(peerHave := map[1 := {}])
  const N1_TOLD := N1.(peerHave := map[2 := {}])
  const TOLD2 := map[1 := N1, 2 := N2_TOLD, 3 := N3]
  const TOLD := map[1 := N1_TOLD, 2 := N2_TOLD, 3 := N3]
  const FROM1 := [Packet(1, 2, NEWS), Packet(1, 2, HAVE), Packet(1, 2, HAVE_NOTES)]
  const OFFERED := {Link(2, 1)} + {Link(3, 2)} + {Link(1, 2)}
  const HEAD := [Packet(2, 1, HAVE)]
  const BACK := [Packet(2, 1, NO_NOTES), Packet(2, 1, NOTHING)]

  const W4 := World(AWARE, HEAD + AT_REST + FROM1, OFFERED)
  const W5 := World(AWARE, HEAD + AT_REST + FROM1[1..], OFFERED)
  const W6 := World(AWARE, HEAD + AT_REST + FROM1[1..2] + BACK[..1], OFFERED)
  const W7 := World(TOLD2, HEAD + AT_REST + BACK, OFFERED)
  const W8 := World(TOLD, AT_REST + BACK + [Packet(1, 2, NOTHING)], OFFERED)
  const W9 := World(TOLD, AT_REST + BACK[1..] + [Packet(1, 2, NOTHING)], OFFERED)
  const W10 := World(TOLD, AT_REST + [Packet(1, 2, NOTHING)], OFFERED)
  const W11 := World(TOLD, AT_REST, OFFERED)

  lemma Step3()
    ensures Next(W3, Offer(1, 2)) == W4
  {
    Offers1();
    Step3From();
  }

  lemma Step3From()
    requires Offers(N1, 2) == [NEWS, HAVE, HAVE_NOTES]
    ensures Next(W3, Offer(1, 2)) == W4
  {
    PacketsOf3(1, 2, NEWS, HAVE, HAVE_NOTES);
    Step3Sent();
  }

  lemma Step3Sent()
    requires Offers(N1, 2) == [NEWS, HAVE, HAVE_NOTES] && Packets(1, 2, [NEWS, HAVE, HAVE_NOTES]) == FROM1
    ensures Next(W3, Offer(1, 2)) == W4
  {
    Around3();
    OfferedTo(W3, 1, 2, [NEWS, HAVE, HAVE_NOTES], FROM1, W4);
  }

  lemma OfferedTo(w: World, p: PeerKey, q: PeerKey, frames: seq<Frame>, sent: seq<Packet>, n: World)
    requires p in w.nodes && p != q && Offers(w.nodes[p], q) == frames && Packets(p, q, frames) == sent
    requires n.nodes == w.nodes && n.net == w.net + sent && n.offered == w.offered + {Link(p, q)}
    ensures Next(w, Offer(p, q)) == n
  {
    Offered(w.nodes, w.net, w.offered, p, q, frames, sent);
  }

  lemma Around3()
    ensures 1 in W3.nodes && W3.nodes[1] == N1
    ensures W4.nodes == W3.nodes && W4.net == W3.net + FROM1 && W4.offered == W3.offered + {Link(1, 2)}
  {
  }

  /** 1's announcement is old news and prompts nothing. */
  lemma Step4()
    ensures Next(W4, Receive(4)) == W5
  {
    assert After(N2_AWARE, 2, 1, NEWS) == N2_AWARE && Replies(N2_AWARE, 2, 1, NEWS) == [];
    assert AWARE[2 := N2_AWARE] == AWARE;
    Taken(AWARE, HEAD + AT_REST, Packet(1, 2, NEWS), FROM1[1..], OFFERED, N2_AWARE, []);
    assert W4.net == HEAD + AT_REST + [Packet(1, 2, NEWS)] + FROM1[1..];
  }

  lemma NotesOffered()
    ensures After(N2_AWARE, 2, 1, HAVE_NOTES) == N2_AWARE && Replies(N2_AWARE, 2, 1, HAVE_NOTES) == [NO_NOTES]
  {
    Listings();
  }

  lemma Step5()
    ensures Next(W5, Receive(5)) == W6
  {
    NotesOffered();
    PacketsOf1(2, 1, NO_NOTES);
    assert AWARE[2 := N2_AWARE] == AWARE;
    Taken(AWARE, HEAD + AT_REST + FROM1[1..2], Packet(1, 2, HAVE_NOTES), [], OFFERED, N2_AWARE, BACK[..1]);
    assert W5.net == HEAD + AT_REST + FROM1[1..2] + [Packet(1, 2, HAVE_NOTES)] + [];
  }

  lemma NothingHeld(st: State, me: PeerKey, peer: PeerKey)
    requires peer in st.conversations && st.conversations[peer] == EMPTY && st.queued == map[] && st.peerHave == map[]
    ensures After(st, me, peer, HAVE) == st.(peerHave := map[peer := {}]) && Replies(st, me, peer, HAVE) == [NOTHING]
  {
    Listings();
  }

  lemma HaveHandledBy2()
    ensures After(N2_AWARE, 2, 1, HAVE) == N2_TOLD && Replies(N2_AWARE, 2, 1, HAVE) == [NOTHING]
  {
    NothingHeld(N2_AWARE, 2, 1);
  }

  lemma HaveHandledBy1()
    ensures After(N1, 1, 2, HAVE) == N1_TOLD && Replies(N1, 1, 2, HAVE) == [NOTHING]
  {
    NothingHeld(N1, 1, 2);
  }

  lemma Arrival6()
    ensures Next(World(AWARE, HEAD + AT_REST + [Packet(1, 2, HAVE)] + BACK[..1], OFFERED), Receive(|HEAD + AT_REST|))
      == World(AWARE[2 := N2_TOLD], HEAD + AT_REST + BACK[..1] + [Packet(2, 1, NOTHING)], OFFERED)
  {
    HaveHandledBy2();
    PacketsOf1(2, 1, NOTHING);
    Taken(AWARE, HEAD + AT_REST, Packet(1, 2, HAVE), BACK[..1], OFFERED, N2_TOLD, [Packet(2, 1, NOTHING)]);
  }

  lemma Around6()
    ensures World(AWARE, HEAD + AT_REST + [Packet(1, 2, HAVE)] + BACK[..1], OFFERED) == W6
    ensures World(AWARE[2 := N2_TOLD], HEAD + AT_REST + BACK[..1] + [Packet(2, 1, NOTHING)], OFFERED) == W7
  {
    assert AWARE[2 := N2_TOLD] == TOLD2;
  }

  lemma Step6()
    ensures Next(W6, Receive(4)) == W7
  {
    Arrival6();
    Around6();
  }

  lemma Arrival7()
    ensures Next(World(TOLD2, [] + [Packet(2, 1, HAVE)] + (AT_REST + BACK), OFFERED), Receive(0))
      == World(TOLD2[1 := N1_TOLD], [] + (AT_REST + BACK) + [Packet(1, 2, NOTHING)], OFFERED)
  {
    HaveHandledBy1();
    PacketsOf1(1, 2, NOTHING);
    Taken(TOLD2, [], Packet(2, 1, HAVE), AT_REST + BACK, OFFERED, N1_TOLD, [Packet(1, 2, NOTHING)]);
  }

  lemma Around7()
    ensures World(TOLD2, [] + [Packet(2, 1, HAVE)] + (AT_REST + BACK), OFFERED) == W7
    ensures World(TOLD2[1 := N1_TOLD], [] + (AT_REST + BACK) + [Packet(1, 2, NOTHING)], OFFERED) == W8
  {
    assert TOLD2[1 := N1_TOLD] == TOLD;
  }

  lemma Step7()
    ensures Next(W7, Receive(0)) == W8
  {
    Arrival7();
    Around7();
  }

  lemma NothingTaken(st: State, me: PeerKey, peer: PeerKey)
    requires peer in st.conversations && 5 in st.groupConvos && GroupAllows(st, 5, peer, me)
    ensures After(st, me, peer, NOTHING) == st && Replies(st, me, peer, NOTHING) == []
    ensures After(st, me, peer, NO_NOTES) == st && Replies(st, me, peer, NO_NOTES) == []
  {
    var c, d := st.conversations[peer], st.groupConvos[5];
    assert ApplyDelta(c, [], [], []) == c && ApplyDelta(d, [], [], []) == d;
  }

  lemma Step8()
    ensures Next(W8, Receive(3)) == W9
  {
    NothingTaken(N1_TOLD, 1, 2);
    assert TOLD[1 := N1_TOLD] == TOLD;
    Taken(TOLD, AT_REST, Packet(2, 1, NO_NOTES), BACK[1..] + [Packet(1, 2, NOTHING)], OFFERED, N1_TOLD, []);
    assert W8.net == AT_REST + [Packet(2, 1, NO_NOTES)] + (BACK[1..] + [Packet(1, 2, NOTHING)]);
  }

  lemma Step9()
    ensures Next(W9, Receive(3)) == W10
  {
    NothingTaken(N1_TOLD, 1, 2);
    assert TOLD[1 := N1_TOLD] == TOLD;
    Taken(TOLD, AT_REST, Packet(2, 1, NOTHING), [Packet(1, 2, NOTHING)], OFFERED, N1_TOLD, []);
    assert W9.net == AT_REST + [Packet(2, 1, NOTHING)] + [Packet(1, 2, NOTHING)];
  }

  lemma Step10()
    ensures Next(W10, Receive(3)) == W11
  {
    NothingTaken(N2_TOLD, 2, 1);
    assert TOLD[2 := N2_TOLD] == TOLD;
    Taken(TOLD, AT_REST, Packet(1, 2, NOTHING), [], OFFERED, N2_TOLD, []);
    assert W10.net == AT_REST + [Packet(1, 2, NOTHING)] + [];
  }

  const S1: seq<Step> := [] + [Offer(2, 1)]
  const S2 := S1 + [Offer(3, 2)]
  const S3 := S2 + [Receive(1)]
  const S4 := S3 + [Offer(1, 2)]
  const S7 := S4 + [Receive(4)] + [Receive(5)] + [Receive(4)]
  const S11 := S7 + [Receive(0)] + [Receive(3)] + [Receive(3)] + [Receive(3)]

  lemma Reach1()
    ensures Run(W0, S1) == W1
  {
    Step0();
    RunOn(W0, [], Offer(2, 1));
  }

  lemma Reach2()
    ensures Run(W0, S2) == W2
  {
    Reach1(); Step1();
    RunOn(W0, S1, Offer(3, 2));
  }

  lemma Reach3()
    ensures Run(W0, S3) == W3
  {
    Reach2(); Step2();
    RunOn(W0, S2, Receive(1));
  }

  lemma Reach4()
    ensures Run(W0, S4) == W4
  {
    Reach3(); Step3();
    RunOn(W0, S3, Offer(1, 2));
  }

  lemma Reach7()
    ensures Run(W0, S7) == W7
  {
    Reach4(); Step4(); Step5(); Step6();
    RunOn(W0, S4, Receive(4));
    RunOn(W0, S4 + [Receive(4)], Receive(5));
    RunOn(W0, S4 + [Receive(4)] + [Receive(5)], Receive(4));
  }

  lemma Reach11()
    ensures Run(W0, S11) == W11
  {
    Reach7(); Step7(); Step8(); Step9(); Step10();
    RunOn(W0, S7, Receive(0));
    RunOn(W0, S7 + [Receive(0)], Receive(3));
    RunOn(W0, S7 + [Receive(0)] + [Receive(3)], Receive(3));
    RunOn(W0, S7 + [Receive(0)] + [Receive(3)] + [Receive(3)], Receive(3));
  }

  // How it came to that: 1 creates the group, 3 takes the invite, 1 writes the note, and every connection is
  // renewed before anything else arrives.

  const CREATOR := FRESH.(groups := map[5 := INFO], groupConvos := map[5 := EMPTY])
  const WRITER := CREATOR.(groupConvos := map[5 := NOTES])
  const INVITE := GroupInvite(INFO)

  const Z0 := World(map[1 := FRESH, 2 := FRESH, 3 := FRESH], [], {})
  const Z1 := World(map[1 := CREATOR, 2 := FRESH, 3 := FRESH], [Packet(1, 2, INVITE), Packet(1, 3, INVITE)], {})

  predicate NearOne(net: seq<Packet>) { forall x :: x in net ==> Between(x, 1, 2) || Between(x, 1, 3) }

  lemma Invited()
    ensures FanOut(1, [1, 2, 3], INVITE) == [Packet(1, 2, INVITE), Packet(1, 3, INVITE)]
  {
    assert [1, 2, 3][..2] == [1, 2] && [1, 2][..1] == [1] && [1][..0] == [];
    assert FanOut(1, [1, 2], INVITE) == [Packet(1, 2, INVITE)];
  }

  lemma Created()
    ensures Next(Z0, NewGroup(1, INFO)) == Z1
  {
    Invited();
    assert CreateGroup(FRESH, INFO) == CREATOR;
    assert Z0.nodes[1 := CREATOR] == Z1.nodes;
  }

  lemma TakesInvite()
    ensures After(FRESH, 3, 1, INVITE) == CREATOR
  {
  }

  lemma Joined()
    ensures var n := Next(Z1, Receive(1));
      n.nodes == map[1 := CREATOR, 2 := FRESH, 3 := CREATOR] && n.offered == {} && NearOne(n.net)
  {
    TakesInvite();
    ReceiveNet(Z1, 1);
    assert Z1.nodes[3 := CREATOR] == map[1 := CREATOR, 2 := FRESH, 3 := CREATOR];
  }

  lemma Noted(z: World)
    requires z.nodes == map[1 := CREATOR, 2 := FRESH, 3 := CREATOR] && z.offered == {} && NearOne(z.net)
    ensures var n := Next(z, GroupText(1, 5, 7, 0, "notes"));
      n.nodes == map[1 := WRITER, 2 := FRESH, 3 := CREATOR] && n.offered == {} && NearOne(n.net)
  {
    assert Authored(GroupConvo(CREATOR, 5), 7, 1, 0, "notes", MessageKind.Text) == NOTE;
    assert SendGroupText(CREATOR, 5, NOTE) == WRITER;
    assert z.nodes[1 := WRITER] == map[1 := WRITER, 2 := FRESH, 3 := CREATOR];
  }

  const MET2 := FRESH.(conversations := map[1 := EMPTY])
  const MET3 := CREATOR.(conversations := map[1 := EMPTY])

  lemma Renewed12(z: World)
    requires z.nodes == map[1 := WRITER, 2 := FRESH, 3 := CREATOR] && z.offered == {}
    ensures var n := Next(z, Reconnect(1, 2));
      && n.nodes == map[1 := WRITER.(conversations := map[2 := EMPTY]), 2 := MET2, 3 := CREATOR]
      && n.net == Lost(z.net, 1, 2) && n.offered == {}
  {
  }

  lemma Renewed13(z: World)
    requires z.nodes == map[1 := WRITER.(conversations := map[2 := EMPTY]), 2 := MET2, 3 := CREATOR] && z.offered == {}
    ensures var n := Next(z, Reconnect(1, 3));
      n.nodes == map[1 := N1, 2 := MET2, 3 := MET3] && n.net == Lost(z.net, 1, 3) && n.offered == {}
  {
    assert Greet(WRITER.(conversations := map[2 := EMPTY]), 3) == N1;
  }

  lemma Renewed23(z: World)
    requires z.nodes == map[1 := N1, 2 := MET2, 3 := MET3] && z.offered == {} && z.net == []
    ensures Next(z, Reconnect(2, 3)) == W0
  {
    assert Greet(MET2, 3) == N2 && Greet(MET3, 2) == N3;
    assert map[1 := N1, 2 := MET2, 3 := MET3][2 := N2][3 := N3] == ALL;
  }

  lemma Renewed(z: World)
    requires z.nodes == map[1 := WRITER, 2 := FRESH, 3 := CREATOR] && z.offered == {} && NearOne(z.net)
    ensures Next(Next(Next(z, Reconnect(1, 2)), Reconnect(1, 3)), Reconnect(2, 3)) == W0
  {
    Renewed12(z);
    Renewed13(Next(z, Reconnect(1, 2)));
    NothingLeft(z.net);
    Renewed23(Next(Next(z, Reconnect(1, 2)), Reconnect(1, 3)));
  }

  lemma NothingLeft(net: seq<Packet>)
    requires NearOne(net)
    ensures Lost(Lost(net, 1, 2), 1, 3) == []
  {
    var rest := Lost(Lost(net, 1, 2), 1, 3);
    HasElement(rest);
  }

  const H2: seq<Step> := [] + [NewGroup(1, INFO)] + [Receive(1)]
  const H3 := H2 + [GroupText(1, 5, 7, 0, "notes")]
  const H6 := H3 + [Reconnect(1, 2)] + [Reconnect(1, 3)] + [Reconnect(2, 3)]

  lemma Reached2()
    ensures Run(Z0, H2) == Next(Z1, Receive(1))
  {
    Created();
    RunOn(Z0, [], NewGroup(1, INFO));
    RunOn(Z0, [] + [NewGroup(1, INFO)], Receive(1));
  }

  lemma Reached6()
    ensures Run(Z0, H6) == W0
  {
    Reached2();
    Joined();
    Noted(Run(Z0, H2));
    RunOn(Z0, H2, GroupText(1, 5, 7, 0, "notes"));
    Renewed(Run(Z0, H3));
    RunOn(Z0, H3, Reconnect(1, 2));
    RunOn(Z0, H3 + [Reconnect(1, 2)], Reconnect(1, 3));
    RunOn(Z0, H3 + [Reconnect(1, 2)] + [Reconnect(1, 3)], Reconnect(2, 3));
  }

  lemma NoteDrawn()
    ensures FreshDraws(Z0, H3)
  {
    assert FreshDraws(Z0, []) && [] + H2 == H2;
    NothingDrawn(Z0, [], H2);
    NothingWritten(Z0, H2);
    assert H3[..|H2|] == H2;
  }

  const LATER: seq<Step> := [Reconnect(1, 2)] + [Reconnect(1, 3)] + [Reconnect(2, 3)]

  lemma ExchangeWritesNothing()
    ensures WritesNothing(LATER) && WritesNothing(S11)
  {
  }

  /** Only one message is ever written. */
  lemma DrawnOnce()
    ensures FreshDraws(Z0, H6 + S11)
  {
    NoteDrawn();
    ExchangeWritesNothing();
    NothingDrawn(Z0, H3, LATER);
    assert H3 + LATER == H6;
    NothingDrawn(Z0, H6, S11);
  }

  lemma {:induction false} NothingWritten(w: World, steps: seq<Step>)
    requires WritesNothing(steps)
    ensures Pool(w, steps) == map[]
  {
    if steps != [] {
      assert steps == steps[..|steps| - 1] + [steps[|steps| - 1]];
      NothingWritten(w, steps[..|steps| - 1]);
    }
  }

  lemma OneGroupOnly()
    ensures (forall s :: s in H6 ==> OneGroup(s, INFO)) && Regular(S11, 1, 2, 5)
  {
  }

  lemma Ends()
    ensures Connected(W0, 1, 2) && 7 in Have(GroupConvo(W0.nodes[1], 5))
    ensures Settled(W11, 1, 2) && Knows(W11, 2, 5) && 7 !in Have(GroupConvo(W11.nodes[2], 5))
  {
  }

  /** From an empty start: 1 and 2 are both members and freshly connected, both send their connect-time frames,
      every frame between them arrives - and 2, which knows the group, still lacks the note that 1 had. */
  lemma LateNewsStarves()
    ensures exists w: World, hs: seq<Step>, steps: seq<Step> ::
      && Empty(w) && FreshDraws(w, hs + steps) && (forall s :: s in hs ==> OneGroup(s, INFO)) && Regular(steps, 1, 2, 5)
      && Connected(Run(w, hs), 1, 2) && 7 in Have(GroupConvo(Run(w, hs).nodes[1], 5))
      && Settled(Run(Run(w, hs), steps), 1, 2) && Knows(Run(Run(w, hs), steps), 2, 5)
      && 7 !in Have(GroupConvo(Run(Run(w, hs), steps).nodes[2], 5))
  {
    Reached6();
    Reach11();
    DrawnOnce();
    OneGroupOnly();
    Ends();
    assert Empty(Z0);
  }
}
