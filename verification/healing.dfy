/** A completed exchange between two members passes on the group's history, in whatever order its frames
    arrive. */
module Healing {
  import opened Wire
  import opened Conversations
  import opened Content
  import opened Worlds
  import opened AntiEntropy
  import opened Membership

  // ------------------------------------------------------------------ what every run of honest nodes keeps

  predicate Knows(w: World, p: PeerKey, g: GroupId)
  {
    p in w.nodes && g in w.nodes[p].groups
  }

  /** Everything of `low` is in `p`'s conversation of the group: its ids, reactions and watermarks. */
  ghost predicate HoldsAll(w: World, p: PeerKey, g: GroupId, low: View)
  {
    p in w.nodes && HasAll(GroupConvo(w.nodes[p], g), low)
  }

  predicate TellsOf(f: Frame, g: GroupId)
  {
    (f.GroupInvite? || f.GroupAnnounce?) && f.info.id == g
  }

  predicate AsksFor(f: Frame, g: GroupId) { f.SyncHave? && f.scope == Group(g) }

  predicate Answers(f: Frame, g: GroupId) { f.SyncDelta? && f.scope == Group(g) }

  /** One roster per group id; have-lists are true and come from nodes that know the group; deltas go
      to nodes that know it. */
  ghost predicate FrameInOrder(w: World, x: Packet, info: GroupInfo)
  {
    && (TellsOf(x.frame, info.id) ==> x.frame.info == info)
    && (AsksFor(x.frame, info.id) ==>
          Knows(w, x.from, info.id) && IdSet(x.frame.ids) <= Have(GroupConvo(w.nodes[x.from], info.id)))
    && (Answers(x.frame, info.id) ==> Knows(w, x.to, info.id))
  }

  ghost predicate OneRoster(w: World, info: GroupInfo)
  {
    forall p :: Knows(w, p, info.id) ==> w.nodes[p].groups[info.id] == info
  }

  ghost predicate InOrder(w: World, info: GroupInfo)
  {
    Inv(w) && OneRoster(w, info) && forall x :: x in w.net ==> FrameInOrder(w, x, info)
  }

  /** The group's random id is never drawn again. */
  predicate Sane(s: Step, g: GroupId) { s.NewGroup? ==> s.info.id != g }

  lemma StepKeepsOneRoster(w: World, s: Step, info: GroupInfo)
    requires InOrder(w, info) && Sane(s, info.id)
    ensures OneRoster(Next(w, s), info)
  {
    var n := Next(w, s);
    forall p | Knows(n, p, info.id) ensures n.nodes[p].groups[info.id] == info {
      if Knows(w, p, info.id) {
        StepKeepsRoster(w, s, p, info.id);
      } else {
        assert Enabled(w, s) && s.Receive? && w.net[s.i].to == p;
        var x := w.net[s.i];
        assert FrameInOrder(w, x, info);
        AfterRosters(w.nodes[p], p, x.from, x.frame, info.id);
      }
    }
  }

  /** Knowing a group and holding its history last, whatever happens. */
  lemma StepGrows(w: World, s: Step, p: PeerKey, g: GroupId)
    requires p in w.nodes
    ensures p in Next(w, s).nodes
    ensures Knows(w, p, g) ==> Knows(Next(w, s), p, g)
    ensures Below(Obs(GroupConvo(w.nodes[p], g)), Obs(GroupConvo(Next(w, s).nodes[p], g)))
  {
    GroupGrows(w, s, p, g);
    if Enabled(w, s) && s.Receive? && w.net[s.i].to == p {
      AfterRosters(w.nodes[p], p, w.net[s.i].from, w.net[s.i].frame, g);
    }
  }

  lemma FrameStaysInOrder(w: World, s: Step, x: Packet, info: GroupInfo)
    requires FrameInOrder(w, x, info)
    ensures FrameInOrder(Next(w, s), x, info)
  {
    if x.from in w.nodes { StepGrows(w, s, x.from, info.id); }
    if x.to in w.nodes { StepGrows(w, s, x.to, info.id); }
  }

  lemma HaveFrameTrue(scope: SyncScope, c: Convo)
    ensures HaveFrame(scope, c).SyncHave? && HaveFrame(scope, c).scope == scope
    ensures IdSet(HaveFrame(scope, c).ids) == Have(c)
  {
  }

  /** The only group frames sent in reply: an ask for the group just learnt, an answer to an ask. */
  lemma ReplyKinds(st: State, me: PeerKey, peer: PeerKey, f: Frame, g: Frame)
    requires g in Replies(st, me, peer, f)
    ensures !g.GroupInvite? && !g.GroupAnnounce?
    ensures g.SyncHave? && g.scope.Group? ==>
      && TellsOf(f, g.scope.gid) && g.scope.gid !in st.groups && InfoAdmits(f.info, peer, me)
      && g == HaveFrame(g.scope, GroupConvo(st, g.scope.gid))
    ensures g.SyncDelta? && g.scope.Group? ==> AsksFor(f, g.scope.gid)
  {
  }

  lemma LearnsWhatItAsks(st: State, me: PeerKey, peer: PeerKey, f: Frame, g: GroupId)
    requires TellsOf(f, g) && InfoAdmits(f.info, peer, me)
    ensures g in After(st, me, peer, f).groups && GroupConvo(After(st, me, peer, f), g) == GroupConvo(st, g)
  {
  }

  lemma ReplyInOrder(w: World, i: nat, info: GroupInfo, g: Frame)
    requires InOrder(w, info) && Enabled(w, Receive(i))
    requires var x := w.net[i]; g in Replies(w.nodes[x.to], x.to, x.from, x.frame)
    ensures var x := w.net[i]; FrameInOrder(Next(w, Receive(i)), Packet(x.to, x.from, g), info)
  {
    var x, st, n := w.net[i], w.nodes[w.net[i].to], Next(w, Receive(i));
    ReplyKinds(st, x.to, x.from, x.frame, g);
    if AsksFor(g, info.id) {
      LearnsWhatItAsks(st, x.to, x.from, x.frame, info.id);
      HaveFrameTrue(g.scope, GroupConvo(st, info.id));
      assert n.nodes[x.to] == After(st, x.to, x.from, x.frame);
    }
    if Answers(g, info.id) {
      assert FrameInOrder(w, x, info);
      StepGrows(w, Receive(i), x.from, info.id);
    }
  }

  lemma OfferKinds(st: State, peer: PeerKey, f: Frame)
    requires f in Offers(st, peer)
    ensures !f.GroupInvite? && !f.SyncDelta?
    ensures f.GroupAnnounce? ==> exists g :: g in st.groups && f.info == st.groups[g]
    ensures f.SyncHave? && f.scope.Group? ==>
      f.scope.gid in st.groups && f == HaveFrame(f.scope, GroupConvo(st, f.scope.gid))
  {
    OffersAre(st, peer);
  }

  lemma OfferInOrder(w: World, p: PeerKey, q: PeerKey, info: GroupInfo, f: Frame)
    requires InOrder(w, info) && Enabled(w, Offer(p, q)) && f in Offers(w.nodes[p], q)
    ensures FrameInOrder(w, Packet(p, q, f), info)
  {
    assert GroupsInOrder(w.nodes[p], p);
    assert Knows(w, p, info.id) ==> w.nodes[p].groups[info.id] == info;
    OfferKinds(w.nodes[p], q, f);
    if AsksFor(f, info.id) {
      HaveFrameTrue(f.scope, GroupConvo(w.nodes[p], info.id));
    }
  }

  lemma StepKeepsOrder(w: World, s: Step, info: GroupInfo)
    requires InOrder(w, info) && Sane(s, info.id)
    ensures InOrder(Next(w, s), info)
  {
    StepKeepsInv(w, s);
    StepKeepsOneRoster(w, s, info);
    if Enabled(w, s) {
      var n := Next(w, s);
      forall x | x in n.net ensures FrameInOrder(n, x, info) {
        if x in w.net {
          FrameStaysInOrder(w, s, x, info);
        } else {
          NewFrame(w, s, x);
          if s.Receive? {
            ReplyInOrder(w, s.i, info, x.frame);
          } else if s.Offer? {
            OfferInOrder(w, s.p, s.q, info, x.frame);
            FrameStaysInOrder(w, s, x, info);
          }
        }
      }
    }
  }

  // ------------------------------------------------------------------ one exchange

  ghost predicate AskComing(w: World, p: PeerKey, q: PeerKey, g: GroupId)
  {
    exists x :: x in w.net && x.from == q && x.to == p && AsksFor(x.frame, g)
  }

  /** The delta carries whatever of `low` is not in `c`. */
  ghost predicate BringsRest(f: Frame, c: Convo, low: View)
  {
    f.SyncDelta? && DeltaCarries(f, low) && forall id :: id in low.messages && id !in Have(c) ==> Names(f, id)
  }

  ghost predicate AnswerComing(w: World, p: PeerKey, q: PeerKey, g: GroupId, low: View)
    requires q in w.nodes
  {
    exists x :: x in w.net && x.from == p && x.to == q && Answers(x.frame, g)
      && BringsRest(x.frame, GroupConvo(w.nodes[q], g), low)
  }

  ghost predicate NewsComing(w: World, p: PeerKey, q: PeerKey, g: GroupId)
  {
    Link(p, q) !in w.offered || exists x :: x in w.net && x.from == p && x.to == q && TellsOf(x.frame, g)
  }

  /** `q` has the history, has asked for it, or is about to learn that it should ask. */
  ghost predicate Coming(w: World, p: PeerKey, q: PeerKey, info: GroupInfo, low: View)
    requires q in w.nodes
  {
    || (Knows(w, q, info.id) && HoldsAll(w, q, info.id, low))
    || AskComing(w, p, q, info.id)
    || AnswerComing(w, p, q, info.id, low)
    || (Knows(w, q, info.id) && Link(q, p) !in w.offered)
    || (!Knows(w, q, info.id) && NewsComing(w, p, q, info.id))
  }

  /** `p` has `low`, and it is on its way to `q`. */
  ghost predicate EdgeInv(w: World, p: PeerKey, q: PeerKey, info: GroupInfo, low: View)
  {
    && p != q && p in info.members && q in info.members && q in w.nodes
    && Knows(w, p, info.id) && Below(low, Obs(GroupConvo(w.nodes[p], info.id))) && Coming(w, p, q, info, low)
  }

  /** `q` hears of the group from somebody other than `p` after its own offer to `p` went out: it is
      then too late for the offer and, being known, too early for `p`'s announcement to prompt a new one. */
  ghost predicate LearnsElsewhere(w: World, s: Step, p: PeerKey, q: PeerKey, g: GroupId)
  {
    && Link(q, p) in w.offered && !Knows(w, q, g) && Knows(Next(w, s), q, g)
    && !(s.Receive? && s.i < |w.net| && w.net[s.i].from == p)
  }

  lemma GrowsHasAll(c: Convo, d: Convo, low: View)
    requires Below(Obs(c), Obs(d))
    ensures HasAll(c, low) ==> HasAll(d, low)
    ensures forall f :: BringsRest(f, c, low) ==> BringsRest(f, d, low)
  {
  }

  lemma AnswerArrives(w: World, i: nat, p: PeerKey, q: PeerKey, info: GroupInfo, low: View)
    requires InOrder(w, info) && Enabled(w, Receive(i)) && p in info.members && q in info.members
    requires w.net[i].from == p && w.net[i].to == q && Answers(w.net[i].frame, info.id)
    requires BringsRest(w.net[i].frame, GroupConvo(w.nodes[q], info.id), low)
    ensures Knows(Next(w, Receive(i)), q, info.id) && HoldsAll(Next(w, Receive(i)), q, info.id, low)
  {
    assert FrameInOrder(w, w.net[i], info);
    StepGrows(w, Receive(i), q, info.id);
    TakesAnswer(w.nodes[q], q, p, w.net[i].frame, info.id, low);
  }

  lemma TakesAnswer(st: State, me: PeerKey, peer: PeerKey, f: Frame, g: GroupId, low: View)
    requires Answers(f, g) && BringsRest(f, GroupConvo(st, g), low) && GroupAllows(st, g, peer, me)
    ensures HasAll(GroupConvo(After(st, me, peer, f), g), low)
  {
    var c := GroupConvo(st, g);
    ApplyAllFrame(c, f.messages);
    ApplyAllSources(c, f.messages);
    TakingCatchesUp(c, f, low);
    assert GroupConvo(After(st, me, peer, f), g) == Taking(c, f);
  }

  lemma AskAnswered(st: State, me: PeerKey, peer: PeerKey, f: Frame, g: GroupId) returns (reply: Frame)
    requires AsksFor(f, g) && GroupAllows(st, g, peer, me) && g in st.groupConvos
    ensures reply == DeltaFrame(Group(g), GroupConvo(st, g), IdSet(f.ids)) && reply in Replies(st, me, peer, f)
  {
    reply := DeltaFrame(Group(g), GroupConvo(st, g), IdSet(f.ids));
    assert Replies(st, me, peer, f) == [reply];
  }

  lemma AnswerBrings(st: State, me: PeerKey, peer: PeerKey, f: Frame, g: GroupId, theirs: Convo, low: View) returns (reply: Frame)
    requires AsksFor(f, g) && GroupAllows(st, g, peer, me) && g in st.groupConvos
    requires IdSet(f.ids) <= Have(theirs) && Below(low, Obs(GroupConvo(st, g)))
    ensures reply in Replies(st, me, peer, f) && Answers(reply, g) && BringsRest(reply, theirs, low)
  {
    var c := GroupConvo(st, g);
    DeltaFrameIs(Group(g), c, IdSet(f.ids), low, Obs(c));
    reply := AskAnswered(st, me, peer, f, g);
  }

  lemma AskArrives(w: World, i: nat, p: PeerKey, q: PeerKey, info: GroupInfo, low: View)
    requires InOrder(w, info) && Enabled(w, Receive(i)) && p != q && p in info.members && q in info.members && q in w.nodes
    requires w.net[i].from == q && w.net[i].to == p && AsksFor(w.net[i].frame, info.id)
    requires Knows(w, p, info.id) && Below(low, Obs(GroupConvo(w.nodes[p], info.id)))
    ensures q in Next(w, Receive(i)).nodes && AnswerComing(Next(w, Receive(i)), p, q, info.id, low)
  {
    var x, n := w.net[i], Next(w, Receive(i));
    assert FrameInOrder(w, x, info);
    assert GroupsInOrder(w.nodes[p], p) && GroupAllows(w.nodes[p], info.id, q, p);
    var reply := AnswerBrings(w.nodes[p], p, q, x.frame, info.id, GroupConvo(w.nodes[q], info.id), low);
    ReceiveNet(w, i);
    assert Packet(p, q, reply) in n.net && n.nodes[q] == w.nodes[q];
  }

  /** First news of the group, from whomever: the node learns it and asks the sender for its history. */
  lemma NewsArrives(w: World, i: nat, r: PeerKey, q: PeerKey, info: GroupInfo)
    requires InOrder(w, info) && Enabled(w, Receive(i)) && r in info.members && q in info.members
    requires w.net[i].from == r && w.net[i].to == q && TellsOf(w.net[i].frame, info.id) && !Knows(w, q, info.id)
    ensures Knows(Next(w, Receive(i)), q, info.id) && AskComing(Next(w, Receive(i)), r, q, info.id)
  {
    var x, st := w.net[i], w.nodes[q];
    assert FrameInOrder(w, x, info);
    var g := HaveFrame(Group(info.id), GroupConvo(st, info.id));
    HaveFrameTrue(Group(info.id), GroupConvo(st, info.id));
    assert Replies(st, q, r, x.frame) == [g];
    assert g in Replies(st, q, r, x.frame);
    assert Packet(q, r, g) in Next(w, Receive(i)).net;
    LearnsWhatItAsks(st, q, r, x.frame, info.id);
  }

  lemma OnlyNewsTeaches(w: World, s: Step, q: PeerKey, g: GroupId)
    requires Sane(s, g) && !Knows(w, q, g) && Knows(Next(w, s), q, g)
    ensures Enabled(w, s) && s.Receive? && w.net[s.i].to == q
  {
  }

  lemma LearnsFromNews(w: World, s: Step, q: PeerKey, info: GroupInfo)
    requires InOrder(w, info) && Sane(s, info.id) && !Knows(w, q, info.id) && Knows(Next(w, s), q, info.id)
    ensures Enabled(w, s) && s.Receive? && w.net[s.i].to == q && TellsOf(w.net[s.i].frame, info.id)
    ensures w.net[s.i].from in info.members && q in info.members
  {
    OnlyNewsTeaches(w, s, q, info.id);
    var x := w.net[s.i];
    assert FrameInOrder(w, x, info);
    AfterRosters(w.nodes[q], q, x.from, x.frame, info.id);
  }

  lemma OfferedHave(st: State, peer: PeerKey, g: GroupId) returns (f: Frame)
    requires g in st.groups && peer in st.groups[g].members
    ensures f == HaveFrame(Group(g), GroupConvo(st, g)) && f in Offers(st, peer)
  {
    f := HaveFrame(Group(g), GroupConvo(st, g));
    OffersAre(st, peer);
    assert g in SharedGroups(st, peer);
  }

  lemma OfferAsks(w: World, p: PeerKey, q: PeerKey, info: GroupInfo)
    requires InOrder(w, info) && Knows(w, q, info.id) && p in info.members && p != q
    ensures AskComing(Next(w, Offer(q, p)), p, q, info.id)
  {
    var f := OfferedHave(w.nodes[q], p, info.id);
    HaveFrameTrue(Group(info.id), GroupConvo(w.nodes[q], info.id));
    OfferNet(w, q, p);
    assert Packet(q, p, f) in Next(w, Offer(q, p)).net;
  }

  lemma OfferAnnounces(w: World, p: PeerKey, q: PeerKey, info: GroupInfo)
    requires InOrder(w, info) && Knows(w, p, info.id) && q in info.members && p != q
    ensures NewsComing(Next(w, Offer(p, q)), p, q, info.id)
  {
    var f := GroupAnnounce(info);
    OffersAre(w.nodes[p], q);
    assert info.id in SharedGroups(w.nodes[p], q) && w.nodes[p].groups[info.id] == info;
    assert f in Offers(w.nodes[p], q);
    assert Packet(p, q, f) in Next(w, Offer(p, q)).net;
  }

  lemma AskedStep(w: World, s: Step, p: PeerKey, q: PeerKey, info: GroupInfo, low: View)
    requires InOrder(w, info) && p != q && p in info.members && q in info.members && q in w.nodes && !Cuts(s, p, q)
    requires Knows(w, p, info.id) && Below(low, Obs(GroupConvo(w.nodes[p], info.id)))
    requires AskComing(w, p, q, info.id) || AnswerComing(w, p, q, info.id, low)
    ensures q in Next(w, s).nodes && Coming(Next(w, s), p, q, info, low)
  {
    var n := Next(w, s);
    StepGrows(w, s, q, info.id);
    GrowsHasAll(GroupConvo(w.nodes[q], info.id), GroupConvo(n.nodes[q], info.id), low);
    if AskComing(w, p, q, info.id) {
      var y :| y in w.net && y.from == q && y.to == p && AsksFor(y.frame, info.id);
      if s.Receive? && Enabled(w, s) && w.net[s.i] == y {
        AskArrives(w, s.i, p, q, info, low);
      } else {
        Persists(w, s, y);
      }
    } else {
      var y :| y in w.net && y.from == p && y.to == q && Answers(y.frame, info.id)
        && BringsRest(y.frame, GroupConvo(w.nodes[q], info.id), low);
      if s.Receive? && Enabled(w, s) && w.net[s.i] == y {
        AnswerArrives(w, s.i, p, q, info, low);
      } else {
        Persists(w, s, y);
      }
    }
  }

  /** `q` learns of the group: from `p`, or while its own offer to `p` is still to come. */
  lemma LearntInTime(w: World, s: Step, p: PeerKey, q: PeerKey, info: GroupInfo)
    requires InOrder(w, info) && Sane(s, info.id) && p in info.members && q in info.members
    requires !Knows(w, q, info.id) && Knows(Next(w, s), q, info.id) && !LearnsElsewhere(w, s, p, q, info.id)
    ensures Link(q, p) !in Next(w, s).offered || AskComing(Next(w, s), p, q, info.id)
  {
    LearnsFromNews(w, s, q, info);
    if Link(q, p) in w.offered {
      NewsArrives(w, s.i, p, q, info);
    }
  }

  /** Until then the news from `p` is still to come. */
  lemma NewsStays(w: World, s: Step, p: PeerKey, q: PeerKey, info: GroupInfo)
    requires InOrder(w, info) && p != q && p in info.members && q in info.members && Knows(w, p, info.id)
    requires NewsComing(w, p, q, info.id) && !Knows(w, q, info.id) && !Knows(Next(w, s), q, info.id) && !Cuts(s, p, q)
    ensures NewsComing(Next(w, s), p, q, info.id)
  {
    if s == Offer(p, q) {
      OfferAnnounces(w, p, q, info);
    } else if Link(p, q) in w.offered {
      var y :| y in w.net && y.from == p && y.to == q && TellsOf(y.frame, info.id);
      if s.Receive? && Enabled(w, s) && w.net[s.i] == y {
        NewsArrives(w, s.i, p, q, info);
        assert false;
      }
      Persists(w, s, y);
    }
  }

  lemma UnawareStep(w: World, s: Step, p: PeerKey, q: PeerKey, info: GroupInfo)
    requires InOrder(w, info) && Sane(s, info.id) && p != q && p in info.members && q in info.members && q in w.nodes
    requires Knows(w, p, info.id) && !Knows(w, q, info.id) && NewsComing(w, p, q, info.id)
    requires !LearnsElsewhere(w, s, p, q, info.id) && !Cuts(s, p, q)
    ensures q in Next(w, s).nodes
    ensures Knows(Next(w, s), q, info.id) ==> Link(q, p) !in Next(w, s).offered || AskComing(Next(w, s), p, q, info.id)
    ensures !Knows(Next(w, s), q, info.id) ==> NewsComing(Next(w, s), p, q, info.id)
  {
    NodesStay(w, s);
    if Knows(Next(w, s), q, info.id) {
      LearntInTime(w, s, p, q, info);
    } else {
      NewsStays(w, s, p, q, info);
    }
  }

  lemma EdgeStep(w: World, s: Step, p: PeerKey, q: PeerKey, info: GroupInfo, low: View)
    requires InOrder(w, info) && Sane(s, info.id) && EdgeInv(w, p, q, info, low)
    requires !LearnsElsewhere(w, s, p, q, info.id) && !Cuts(s, p, q)
    ensures EdgeInv(Next(w, s), p, q, info, low)
  {
    var n := Next(w, s);
    StepGrows(w, s, p, info.id);
    StepGrows(w, s, q, info.id);
    BelowTransitive(low, Obs(GroupConvo(w.nodes[p], info.id)), Obs(GroupConvo(n.nodes[p], info.id)));
    GrowsHasAll(GroupConvo(w.nodes[q], info.id), GroupConvo(n.nodes[q], info.id), low);
    if Knows(w, q, info.id) && HoldsAll(w, q, info.id, low) {
    } else if AskComing(w, p, q, info.id) || AnswerComing(w, p, q, info.id, low) {
      AskedStep(w, s, p, q, info, low);
    } else if Knows(w, q, info.id) {
      if s == Offer(q, p) { OfferAsks(w, p, q, info); }
    } else {
      UnawareStep(w, s, p, q, info);
    }
  }

  /** No step of the run is one at which `q` learns of the group too late from a third node. */
  ghost predicate NeverElsewhere(w: World, steps: seq<Step>, p: PeerKey, q: PeerKey, g: GroupId)
  {
    if steps == [] then true
    else
      var k := |steps| - 1;
      NeverElsewhere(w, steps[..k], p, q, g) && !LearnsElsewhere(Run(w, steps[..k]), steps[k], p, q, g)
  }

  /** The group's random id stands for no other group, and the connection lasts. */
  ghost predicate Regular(steps: seq<Step>, p: PeerKey, q: PeerKey, g: GroupId)
  {
    forall s :: s in steps ==> Sane(s, g) && !Cuts(s, p, q)
  }

  /** A fresh post-connect exchange between `p` and `q` that runs to completion. */
  ghost predicate Exchange(w: World, steps: seq<Step>, p: PeerKey, q: PeerKey)
  {
    && p != q && Link(p, q) !in w.offered && Link(q, p) !in w.offered
    && Settled(Run(w, steps), p, q)
  }

  lemma {:induction false} EdgeRun(w: World, steps: seq<Step>, p: PeerKey, q: PeerKey, info: GroupInfo, low: View)
    requires InOrder(w, info) && Regular(steps, p, q, info.id) && EdgeInv(w, p, q, info, low)
    requires NeverElsewhere(w, steps, p, q, info.id)
    ensures InOrder(Run(w, steps), info) && EdgeInv(Run(w, steps), p, q, info, low)
  {
    if steps != [] {
      var k := |steps| - 1;
      var front := steps[..k];
      assert steps == front + [steps[k]];
      EdgeRun(w, front, p, q, info, low);
      StepKeepsOrder(Run(w, front), steps[k], info);
      EdgeStep(Run(w, front), steps[k], p, q, info, low);
    }
  }

  /** One completed exchange passes on everything `p` had of the group when it started - whatever else happens
      on the network, and even if a have-list overtakes the announcement that explains it. */
  lemma EdgeHeals(w: World, steps: seq<Step>, p: PeerKey, q: PeerKey, info: GroupInfo)
    requires InOrder(w, info) && Regular(steps, p, q, info.id)
    requires p in info.members && q in info.members && q in w.nodes && Knows(w, p, info.id)
    requires Exchange(w, steps, p, q) && NeverElsewhere(w, steps, p, q, info.id)
    ensures InOrder(Run(w, steps), info) && Knows(Run(w, steps), q, info.id)
    ensures HoldsAll(Run(w, steps), q, info.id, Obs(GroupConvo(w.nodes[p], info.id)))
  {
    var low := Obs(GroupConvo(w.nodes[p], info.id));
    EdgeBegins(w, p, q, info, low);
    EdgeRun(w, steps, p, q, info, low);
    KnownInTheEnd(Run(w, steps), p, q, info, low);
  }

  lemma EdgeBegins(w: World, p: PeerKey, q: PeerKey, info: GroupInfo, low: View)
    requires p != q && p in info.members && q in info.members && q in w.nodes && Knows(w, p, info.id)
    requires Link(p, q) !in w.offered && Link(q, p) !in w.offered && low == Obs(GroupConvo(w.nodes[p], info.id))
    ensures EdgeInv(w, p, q, info, low)
  {
  }

  lemma KnownInTheEnd(n: World, p: PeerKey, q: PeerKey, info: GroupInfo, low: View)
    requires InOrder(n, info) && EdgeInv(n, p, q, info, low) && Settled(n, p, q)
    ensures Knows(n, q, info.id) && HoldsAll(n, q, info.id, low)
  {
    assert !AskComing(n, p, q, info.id) && !AnswerComing(n, p, q, info.id, low) && !NewsComing(n, p, q, info.id);
  }

  lemma {:induction false} RunKeepsHolds(w: World, steps: seq<Step>, p: PeerKey, g: GroupId)
    requires p in w.nodes
    ensures p in Run(w, steps).nodes
    ensures Knows(w, p, g) ==> Knows(Run(w, steps), p, g)
    ensures Below(Obs(GroupConvo(w.nodes[p], g)), Obs(GroupConvo(Run(w, steps).nodes[p], g)))
  {
    if steps != [] {
      var k := |steps| - 1;
      RunKeepsHolds(w, steps[..k], p, g);
      StepGrows(Run(w, steps[..k]), steps[k], p, g);
      BelowTransitive(Obs(GroupConvo(w.nodes[p], g)), Obs(GroupConvo(Run(w, steps[..k]).nodes[p], g)),
                      Obs(GroupConvo(Run(w, steps).nodes[p], g)));
    }
  }
}
