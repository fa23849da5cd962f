/** Group membership over every run from an empty start. */
module Membership {
  import opened Wire
  import opened Conversations
  import opened Content
  import opened Worlds

  /** Every known group has a conversation and the reverse, and every roster lists us. */
  ghost predicate GroupsInOrder(st: State, me: PeerKey)
  {
    && st.groups.Keys == st.groupConvos.Keys
    && forall g :: g in st.groups ==> st.groups[g].id == g && me in st.groups[g].members
  }

  ghost predicate Inv(w: World)
  {
    forall p :: p in w.nodes ==> GroupsInOrder(w.nodes[p], p)
  }

  lemma AfterKeepsOrder(st: State, me: PeerKey, peer: PeerKey, f: Frame)
    requires GroupsInOrder(st, me)
    ensures GroupsInOrder(After(st, me, peer, f), me)
  {
    if f.SyncDelta? {
      DeltaKeepsOrder(st, me, peer, f);
    }
  }

  lemma DeltaKeepsOrder(st: State, me: PeerKey, peer: PeerKey, f: Frame)
    requires GroupsInOrder(st, me) && f.SyncDelta?
    ensures GroupsInOrder(After(st, me, peer, f), me)
  {
    assert After(st, me, peer, f).groups == st.groups;
    assert After(st, me, peer, f).groupConvos.Keys == st.groupConvos.Keys;
  }

  lemma RestartKeepsOrder(st: State, me: PeerKey)
    requires GroupsInOrder(st, me)
    ensures GroupsInOrder(Restarted(st), me)
  {
    assert Restarted(st).groupConvos.Keys == st.groupConvos.Keys;
  }

  lemma LocalKeepsOrder(w: World, s: Step, p: PeerKey)
    requires p in w.nodes && GroupsInOrder(w.nodes[p], p) && Enabled(w, s) && (s.NewGroup? || s.GroupText? || s.ReadGroup?)
    ensures p in Next(w, s).nodes && GroupsInOrder(Next(w, s).nodes[p], p)
  {
    var st, n := w.nodes[p], Next(w, s).nodes[p];
    if s.p == p {
      assert n.groups.Keys == n.groupConvos.Keys;
    }
  }

  lemma NodeKeepsOrder(w: World, s: Step, p: PeerKey)
    requires p in w.nodes && GroupsInOrder(w.nodes[p], p)
    ensures p in Next(w, s).nodes && GroupsInOrder(Next(w, s).nodes[p], p)
  {
    if Enabled(w, s) {
      if s.Receive? && w.net[s.i].to == p {
        AfterKeepsOrder(w.nodes[p], p, w.net[s.i].from, w.net[s.i].frame);
      } else if s == Restart(p) {
        RestartKeepsOrder(w.nodes[p], p);
      } else if s.NewGroup? || s.GroupText? || s.ReadGroup? {
        LocalKeepsOrder(w, s, p);
      }
    }
  }

  lemma StepKeepsInv(w: World, s: Step)
    requires Inv(w)
    ensures Inv(Next(w, s))
  {
    NodesStay(w, s);
    forall p | p in w.nodes ensures GroupsInOrder(Next(w, s).nodes[p], p) {
      NodeKeepsOrder(w, s, p);
    }
  }

  lemma {:induction false} RunKeepsInv(w: World, steps: seq<Step>)
    requires forall p :: p in w.nodes ==> w.nodes[p] == FRESH
    ensures Inv(Run(w, steps))
  {
    if steps != [] {
      RunKeepsInv(w, steps[..|steps| - 1]);
      StepKeepsInv(Run(w, steps[..|steps| - 1]), steps[|steps| - 1]);
    }
  }

  /** From an empty start, over every run and for every frame anybody sends: groups and group
      conversations have the same keys and every roster lists its owner. */
  lemma MembershipHolds(w: World, steps: seq<Step>, p: PeerKey)
    requires (forall q :: q in w.nodes ==> w.nodes[q] == FRESH) && p in Run(w, steps).nodes
    ensures GroupsInOrder(Run(w, steps).nodes[p], p)
  {
    RunKeepsInv(w, steps);
  }

  lemma StepKeepsRoster(w: World, s: Step, p: PeerKey, g: GroupId)
    requires p in w.nodes && g in w.nodes[p].groups
    ensures p in Next(w, s).nodes && g in Next(w, s).nodes[p].groups
    ensures Next(w, s).nodes[p].groups[g] == w.nodes[p].groups[g]
  {
    if Enabled(w, s) && s.Receive? && w.net[s.i].to == p {
      AfterRosters(w.nodes[p], p, w.net[s.i].from, w.net[s.i].frame, g);
    }
  }

  /** A roster, once known, never changes. */
  lemma {:induction false} RosterIsFinal(w: World, steps: seq<Step>, p: PeerKey, g: GroupId)
    requires p in w.nodes && g in w.nodes[p].groups
    ensures p in Run(w, steps).nodes && g in Run(w, steps).nodes[p].groups
    ensures Run(w, steps).nodes[p].groups[g] == w.nodes[p].groups[g]
  {
    if steps != [] {
      RosterIsFinal(w, steps[..|steps| - 1], p, g);
      StepKeepsRoster(Run(w, steps[..|steps| - 1]), steps[|steps| - 1], p, g);
    }
  }

  /** The step is `p`'s own action on the group, or a frame to `p` from a member of `p`'s roster. */
  ghost predicate Entitled(w: World, s: Step, p: PeerKey, g: GroupId)
  {
    || (s.GroupText? && s.p == p && s.g == g)
    || (s.NewGroup? && s.p == p && s.info.id == g)
    || s == ReadGroup(p, g)
    || (s.Receive? && s.i < |w.net| && w.net[s.i].to == p && p in w.nodes &&
        g in w.nodes[p].groups && w.net[s.i].from in w.nodes[p].groups[g].members)
  }

  lemma FrameChangesGroup(st: State, me: PeerKey, peer: PeerKey, f: Frame, g: GroupId)
    requires GroupConvo(After(st, me, peer, f), g) != GroupConvo(st, g)
    ensures GroupAllows(st, g, peer, me)
  {
    if f.SyncDelta? {
      assert f.scope.Group?;
    }
  }

  /** What a group conversation holds changes only by its holder's own action or a frame from a member of the
      roster the holder has. A restart may besides set its clock anew. */
  lemma ConvoChangesOnlyByMembers(w: World, s: Step, p: PeerKey, g: GroupId)
    requires p in w.nodes && p in Next(w, s).nodes
    requires GroupConvo(Next(w, s).nodes[p], g) != GroupConvo(w.nodes[p], g)
    ensures Entitled(w, s, p, g) || (s == Restart(p) && Obs(GroupConvo(Next(w, s).nodes[p], g)) == Obs(GroupConvo(w.nodes[p], g)))
  {
    if s.Receive? {
      FrameChangesGroup(w.nodes[p], p, w.net[s.i].from, w.net[s.i].frame, g);
    } else if s == Restart(p) {
      RestartKeepsGroup(w.nodes[p], g);
    } else if !Entitled(w, s, p, g) {
      OthersKeepGroup(w, s, p, g);
    }
  }

  lemma OthersKeepGroup(w: World, s: Step, p: PeerKey, g: GroupId)
    requires p in w.nodes && !s.Receive? && s != Restart(p) && !Entitled(w, s, p, g)
    ensures p in Next(w, s).nodes && GroupConvo(Next(w, s).nodes[p], g) == GroupConvo(w.nodes[p], g)
  {
  }

  // ------------------------------------------------------------------ who hears of a group

  /** The group a frame is about. */
  function About(f: Frame): Option<GroupId>
  {
    match f
    case GroupInvite(info) => Some(info.id)
    case GroupAnnounce(info) => Some(info.id)
    case GroupMessage(g, _) => Some(g)
    case SyncHave(Group(g), _) => Some(g)
    case SyncDelta(Group(g), _, _, _) => Some(g)
    case _ => None
  }

  /** Both ends of the frame's way are on the roster its sender has. */
  ghost predicate AmongMembers(nodes: map<PeerKey, State>, x: Packet)
  {
    About(x.frame).Some? ==>
      var g := About(x.frame).value;
      x.from in nodes && g in nodes[x.from].groups
      && x.from in nodes[x.from].groups[g].members && x.to in nodes[x.from].groups[g].members
  }

  ghost predicate NoLeak(w: World) { forall x :: x in w.net ==> AmongMembers(w.nodes, x) }

  lemma AskAmongMembers(st: State, me: PeerKey, peer: PeerKey, info: GroupInfo, r: Frame)
    requires r in GroupReplies(st, me, peer, info)
    ensures About(r) == Some(info.id) && GroupAllows(Admit(st, info), info.id, peer, me)
  {
  }

  /** A history is sent only to a member; the answer is about the scope it was asked for. */
  lemma AnswerAmongMembers(st: State, me: PeerKey, peer: PeerKey, scope: SyncScope, ids: seq<MessageId>, r: Frame)
    requires BuildDelta(st, me, peer, scope, ids) == Some(r)
    ensures r.SyncDelta? && r.scope == scope && (scope.Group? ==> GroupAllows(st, scope.gid, peer, me))
  {
  }

  lemma HaveReplied(st: State, me: PeerKey, peer: PeerKey, scope: SyncScope, ids: seq<MessageId>, r: Frame)
    requires r in Replies(st, me, peer, SyncHave(scope, ids))
    ensures BuildDelta(st, me, peer, scope, ids) == Some(r)
  {
  }

  lemma HaveAmongMembers(st: State, me: PeerKey, peer: PeerKey, f: Frame, r: Frame)
    requires f.SyncHave? && r in Replies(st, me, peer, f) && About(r).Some?
    ensures GroupAllows(st, About(r).value, peer, me)
  {
    HaveReplied(st, me, peer, f.scope, f.ids, r);
    AnswerAmongMembers(st, me, peer, f.scope, f.ids, r);
    assert f.scope == Group(About(r).value);
  }

  lemma HaveKeepsRosters(st: State, me: PeerKey, peer: PeerKey, f: Frame)
    requires f.SyncHave?
    ensures After(st, me, peer, f).groups == st.groups
  {
  }

  lemma ReplyAmongMembers(st: State, me: PeerKey, peer: PeerKey, f: Frame, r: Frame)
    requires r in Replies(st, me, peer, f) && About(r).Some?
    ensures GroupAllows(After(st, me, peer, f), About(r).value, peer, me)
  {
    if f.SyncHave? {
      HaveAmongMembers(st, me, peer, f, r);
      HaveKeepsRosters(st, me, peer, f);
    } else if f.GroupInvite? || f.GroupAnnounce? {
      AskAmongMembers(st, me, peer, f.info, r);
    }
  }

  lemma OfferAmongMembers(st: State, me: PeerKey, peer: PeerKey, f: Frame)
    requires GroupsInOrder(st, me) && f in Offers(st, peer) && About(f).Some?
    ensures GroupAllows(st, About(f).value, peer, me)
  {
    OffersAre(st, peer);
  }

  lemma NewFrameAmongMembers(w: World, s: Step, y: Packet)
    requires Inv(w) && y in Next(w, s).net && y !in w.net
    ensures AmongMembers(Next(w, s).nodes, y)
  {
    NewFrame(w, s, y);
    match s {
      case Receive(i) =>
        if About(y.frame).Some? { ReplyAmongMembers(w.nodes[y.from], y.from, y.to, w.net[i].frame, y.frame); }
      case Offer(p, q) =>
        if About(y.frame).Some? { OfferAmongMembers(w.nodes[p], p, q, y.frame); }
      case GroupText(p, g, id, sentAt, body) => GroupTextAmongMembers(w, s, y);
      case _ =>
    }
  }

  lemma GroupTextAmongMembers(w: World, s: Step, y: Packet)
    requires Inv(w) && s.GroupText? && Enabled(w, s) && y in Next(w, s).net && y !in w.net
    ensures AmongMembers(Next(w, s).nodes, y)
  {
    assert GroupsInOrder(w.nodes[s.p], s.p);
  }

  lemma OldFrameAmongMembers(w: World, s: Step, y: Packet)
    requires AmongMembers(w.nodes, y)
    ensures AmongMembers(Next(w, s).nodes, y)
  {
    if About(y.frame).Some? { StepKeepsRoster(w, s, y.from, About(y.frame).value); }
  }

  lemma StepLeaksNothing(w: World, s: Step)
    requires Inv(w) && NoLeak(w)
    ensures NoLeak(Next(w, s))
  {
    forall y | y in Next(w, s).net ensures AmongMembers(Next(w, s).nodes, y) {
      if y in w.net {
        OldFrameAmongMembers(w, s, y);
      } else {
        NewFrameAmongMembers(w, s, y);
      }
    }
  }

  /** Over every run from an empty start, whatever anybody sends: no invite, announcement, message, list of ids or
      history of a group is ever on its way to anyone who is not on the roster its sender has. */
  lemma {:induction false} NothingLeaks(w: World, steps: seq<Step>)
    requires Empty(w)
    ensures NoLeak(Run(w, steps))
  {
    if steps != [] {
      NothingLeaks(w, steps[..|steps| - 1]);
      RunKeepsInv(w, steps[..|steps| - 1]);
      StepLeaksNothing(Run(w, steps[..|steps| - 1]), steps[|steps| - 1]);
    }
  }
}
