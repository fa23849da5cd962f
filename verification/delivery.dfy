/** Delivery tracking: `peer_have` claims nothing the peer lacks, and a settled exchange leaves no own
    message unconfirmed. */
module Delivery {
  import opened Wire
  import opened Conversations
  import opened Content
  import opened Worlds
  import opened AntiEntropy

  // ------------------------------------------------------------------ soundness

  /** An own message that the peer's read watermark covers: it counts as held by definition. */
  ghost predicate Covered(st: State, me: PeerKey, peer: PeerKey, id: MessageId)
  {
    var c := ConvoWith(st, peer);
    id in c.messages && c.messages[id].author == me && c.messages[id].lamport <= Watermark(c, peer)
  }

  /** All `a` believes about `b`, and all `b` is telling `a`, is vouched for or covered. */
  ghost predicate Believes(w: World, a: PeerKey, b: PeerKey, vouched: set<MessageId>)
  {
    && a != b && a in w.nodes && b in w.nodes && Have(C(w, b, a)) <= vouched
    && (forall id :: id in HaveOf(w.nodes[a], b) ==> id in vouched || Covered(w.nodes[a], a, b, id))
    && (forall x :: x in w.net && x.from == b && x.to == a && IsHave(x.frame) ==> IdSet(x.frame.ids) <= vouched)
  }

  lemma ReplyIsTrue(st: State, me: PeerKey, peer: PeerKey, f: Frame, g: Frame)
    requires g in Replies(st, me, peer, f) && IsHave(g)
    ensures IdSet(g.ids) <= Have(ConvoWith(After(st, me, peer, f), peer))
  {
    if IsDelta(f) {
      DeltaHandled(st, me, peer, f);
      HaveFrameIds(Direct, Taking(ConvoWith(st, peer), f));
    } else {
      ReplyKinds(st, me, peer, f, g);
    }
  }

  lemma ReplyKinds(st: State, me: PeerKey, peer: PeerKey, f: Frame, g: Frame)
    requires g in Replies(st, me, peer, f) && IsHave(g)
    ensures IsDelta(f)
  {
    if IsGroupFrame(f) { GroupFramesLeaveDirect(st, me, peer, f); }
  }

  /** Only have-lists and read receipts change what we believe a peer holds. */
  lemma HaveOfAfter(st: State, me: PeerKey, peer: PeerKey, f: Frame)
    ensures HaveOf(After(st, me, peer, f), peer) == HaveOf(st, peer) +
      if IsHave(f) then IdSet(f.ids) else if f.Read? then ReadCovers(st, me, peer, f.upTo) else {}
  {
    if f.SyncDelta? {
      assert After(st, me, peer, f).peerHave == st.peerHave;
    }
  }

  lemma ReadIsCovered(st: State, me: PeerKey, peer: PeerKey, upTo: Stamp, id: MessageId)
    requires id in ReadCovers(st, me, peer, upTo)
    ensures Covered(After(st, me, peer, Read(upTo)), me, peer, id)
  {
  }

  lemma CoveredLasts(st: State, n: State, me: PeerKey, peer: PeerKey, id: MessageId)
    requires Covered(st, me, peer, id) && Below(Obs(ConvoWith(st, peer)), Obs(ConvoWith(n, peer)))
    ensures Covered(n, me, peer, id)
  {
    var c, d := ConvoWith(st, peer), ConvoWith(n, peer);
    assert peer in c.read ==> peer in d.read && c.read[peer] <= d.read[peer];
  }

  lemma ListsStayVouched(w: World, s: Step, a: PeerKey, b: PeerKey, vouched: set<MessageId>, x: Packet)
    requires Believes(w, a, b, vouched) && x in Next(w, s).net && x.from == b && x.to == a && IsHave(x.frame)
    ensures IdSet(x.frame.ids) <= vouched + Have(C(Next(w, s), b, a))
  {
    if x !in w.net {
      NewFrame(w, s, x);
      if s.Offer? {
        OfferFrames(w.nodes[b], a, x.frame);
      } else {
        ReplyIsTrue(w.nodes[b], b, a, w.net[s.i].frame, x.frame);
      }
    }
  }

  lemma HaveOfChanges(w: World, s: Step, a: PeerKey, b: PeerKey)
    requires a in w.nodes && a != b && !(s.Receive? && Enabled(w, s) && w.net[s.i].to == a && w.net[s.i].from == b)
    ensures a in Next(w, s).nodes
    ensures HaveOf(Next(w, s).nodes[a], b) == HaveOf(w.nodes[a], b) || HaveOf(Next(w, s).nodes[a], b) == {}
    ensures s == Forget(a, b) ==> HaveOf(Next(w, s).nodes[a], b) == {}
  {
    if Enabled(w, s) && s.Receive? && w.net[s.i].to == a {
      HandleLeavesOthers(w.nodes[a], a, w.net[s.i].from, w.net[s.i].frame, b);
    }
  }

  lemma BeliefStaysVouched(w: World, s: Step, a: PeerKey, b: PeerKey, vouched: set<MessageId>, id: MessageId)
    requires Believes(w, a, b, vouched) && a in Next(w, s).nodes && id in HaveOf(Next(w, s).nodes[a], b)
    ensures id in vouched || Covered(Next(w, s).nodes[a], a, b, id)
  {
    var n := Next(w, s);
    if s.Receive? && Enabled(w, s) && w.net[s.i].to == a && w.net[s.i].from == b {
      var x := w.net[s.i];
      assert x in w.net;
      HaveOfAfter(w.nodes[a], a, b, x.frame);
      if x.frame.Read? && id in ReadCovers(w.nodes[a], a, b, x.frame.upTo) {
        ReadIsCovered(w.nodes[a], a, b, x.frame.upTo, id);
      }
    } else {
      HaveOfChanges(w, s, a, b);
    }
    if s != Forget(a, b) && Covered(w.nodes[a], a, b, id) {
      ConvoGrows(w, s, a, b);
      CoveredLasts(w.nodes[a], n.nodes[a], a, b, id);
    }
  }

  lemma StepKeepsBelief(w: World, s: Step, a: PeerKey, b: PeerKey, vouched: set<MessageId>)
    requires Believes(w, a, b, vouched)
    ensures b in Next(w, s).nodes && Believes(Next(w, s), a, b, vouched + Have(C(Next(w, s), b, a)))
  {
    var n := Next(w, s);
    NodesStay(w, s);
    forall id | id in HaveOf(n.nodes[a], b) ensures id in vouched || Covered(n.nodes[a], a, b, id) {
      BeliefStaysVouched(w, s, a, b, vouched, id);
    }
    forall x | x in n.net && x.from == b && x.to == a && IsHave(x.frame)
      ensures IdSet(x.frame.ids) <= vouched + Have(C(n, b, a)) {
      ListsStayVouched(w, s, a, b, vouched, x);
    }
  }

  /** Every id `b` has held in its conversation with `a` at some point of the run. */
  function EverHeld(w: World, steps: seq<Step>, b: PeerKey, a: PeerKey): set<MessageId>
    requires b in w.nodes
  {
    if steps == [] then Have(C(w, b, a))
    else
      RunKeepsNodes(w, steps);
      EverHeld(w, steps[..|steps| - 1], b, a) + Have(C(Run(w, steps), b, a))
  }

  /** `b` comes by the message: it writes it to `a`, or handles a frame from `a` that carries it. */
  ghost predicate Gets(w: World, s: Step, b: PeerKey, a: PeerKey, id: MessageId)
  {
    match s
    case Text(p, q, i, _, _, _) => Enabled(w, s) && p == b && q == a && i == id
    case Receive(i) =>
      && Enabled(w, s) && w.net[i].to == b && w.net[i].from == a
      && ((w.net[i].frame.Chat? && w.net[i].frame.message.id == id) || CarriesId(w.net[i].frame, id))
    case _ => false
  }

  /** `b` has removed `a` since it last came by the message. */
  ghost predicate ForgotSince(w: World, steps: seq<Step>, b: PeerKey, a: PeerKey, id: MessageId)
  {
    if steps == [] then false
    else
      var k := |steps| - 1;
      if steps[k] == Forget(b, a) then true
      else if Gets(Run(w, steps[..k]), steps[k], b, a, id) then false
      else ForgotSince(w, steps[..k], b, a, id)
  }

  lemma FrameBrings(st: State, me: PeerKey, peer: PeerKey, f: Frame, id: MessageId)
    ensures id in Have(ConvoWith(After(st, me, peer, f), peer)) <==>
      id in Have(ConvoWith(st, peer)) || (f.Chat? && f.message.id == id) || CarriesId(f, id)
  {
    if IsGroupFrame(f) {
      GroupFramesLeaveDirect(st, me, peer, f);
    } else if IsDelta(f) {
      DeltaHandled(st, me, peer, f);
      ApplyAllFrame(ConvoWith(st, peer), f.messages);
      ApplyAllSources(ConvoWith(st, peer), f.messages);
    }
  }

  lemma OtherStepsBring(w: World, s: Step, b: PeerKey, a: PeerKey, id: MessageId)
    requires b in w.nodes && s != Forget(b, a) && !s.Receive? && !s.Restart?
    ensures b in Next(w, s).nodes
    ensures id in Have(C(Next(w, s), b, a)) <==> id in Have(C(w, b, a)) || Gets(w, s, b, a, id)
  {
  }

  /** Getting it, and nothing else, makes `b` hold the message. */
  lemma HeldAfter(w: World, s: Step, b: PeerKey, a: PeerKey, id: MessageId)
    requires b in w.nodes && s != Forget(b, a)
    ensures b in Next(w, s).nodes
    ensures id in Have(C(Next(w, s), b, a)) <==> id in Have(C(w, b, a)) || Gets(w, s, b, a, id)
  {
    NodesStay(w, s);
    if s.Receive? {
      if Enabled(w, s) && w.net[s.i].to == b {
        if w.net[s.i].from == a {
          FrameBrings(w.nodes[b], b, a, w.net[s.i].frame, id);
        } else {
          HandleLeavesOthers(w.nodes[b], b, w.net[s.i].from, w.net[s.i].frame, a);
        }
      }
    } else if s.Restart? {
      if s == Restart(b) {
        RestartKeepsConvo(w.nodes[b], a);
        assert Obs(C(Next(w, s), b, a)).messages == Obs(C(w, b, a)).messages;
      }
    } else {
      OtherStepsBring(w, s, b, a, id);
    }
  }

  lemma {:induction false} HeldUnlessForgotten(w: World, steps: seq<Step>, b: PeerKey, a: PeerKey, id: MessageId)
    requires b in w.nodes && a != b && id in EverHeld(w, steps, b, a)
    ensures b in Run(w, steps).nodes
    ensures id in Have(C(Run(w, steps), b, a)) <==> !ForgotSince(w, steps, b, a, id)
  {
    RunKeepsNodes(w, steps);
    if steps != [] {
      var k := |steps| - 1;
      var before := Run(w, steps[..k]);
      RunKeepsNodes(w, steps[..k]);
      if id in EverHeld(w, steps[..k], b, a) { HeldUnlessForgotten(w, steps[..k], b, a, id); }
      if steps[k] != Forget(b, a) {
        HeldAfter(before, steps[k], b, a, id);
      } else {
        assert Enabled(before, steps[k]) && C(Run(w, steps), b, a) == EMPTY;
      }
    }
  }

  lemma {:induction false} RunKeepsBelief(w: World, steps: seq<Step>, a: PeerKey, b: PeerKey)
    requires b in w.nodes && Believes(w, a, b, Have(C(w, b, a)))
    ensures Believes(Run(w, steps), a, b, EverHeld(w, steps, b, a))
  {
    if steps != [] {
      var k := |steps| - 1;
      RunKeepsBelief(w, steps[..k], a, b);
      StepKeepsBelief(Run(w, steps[..k]), steps[k], a, b, EverHeld(w, steps[..k], b, a));
    }
  }

  /** Over every run - writing, reading, reconnecting, restarting, forgetting: of what `a` believes `b` to
      hold, beyond what a read receipt covers, `b` holds exactly what it got after it last removed `a`. */
  lemma PeerHaveSoundIff(w: World, steps: seq<Step>, a: PeerKey, b: PeerKey, id: MessageId)
    requires a != b && b in w.nodes && Believes(w, a, b, Have(C(w, b, a))) && a in Run(w, steps).nodes
    requires id in HaveOf(Run(w, steps).nodes[a], b) && !Covered(Run(w, steps).nodes[a], a, b, id)
    ensures b in Run(w, steps).nodes
    ensures id in Have(C(Run(w, steps), b, a)) <==> !ForgotSince(w, steps, b, a, id)
  {
    RunKeepsBelief(w, steps, a, b);
    HeldUnlessForgotten(w, steps, b, a, id);
  }

  lemma {:induction false} NeverForgot(w: World, steps: seq<Step>, b: PeerKey, a: PeerKey, id: MessageId)
    requires Forget(b, a) !in steps
    ensures !ForgotSince(w, steps, b, a, id)
  {
    if steps != [] {
      assert steps == steps[..|steps| - 1] + [steps[|steps| - 1]];
      NeverForgot(w, steps[..|steps| - 1], b, a, id);
    }
  }

  /** As long as `b` does not remove `a`: every message `a` believes `b` has, `b` has, or it is an own
      message that `b`'s read watermark covers. */
  lemma PeerHaveSound(w: World, steps: seq<Step>, a: PeerKey, b: PeerKey, id: MessageId)
    requires a != b && b in w.nodes && Believes(w, a, b, Have(C(w, b, a))) && Forget(b, a) !in steps
    requires a in Run(w, steps).nodes && id in HaveOf(Run(w, steps).nodes[a], b)
    ensures b in Run(w, steps).nodes
    ensures id in Have(C(Run(w, steps), b, a)) || Covered(Run(w, steps).nodes[a], a, b, id)
  {
    RunKeepsNodes(w, steps);
    NeverForgot(w, steps, b, a, id);
    if !Covered(Run(w, steps).nodes[a], a, b, id) { PeerHaveSoundIff(w, steps, a, b, id); }
  }

  lemma EmptyBelieves(w: World, a: PeerKey, b: PeerKey)
    requires Empty(w) && a != b && a in w.nodes && b in w.nodes
    ensures Believes(w, a, b, Have(C(w, b, a)))
  {
  }

  /** From an empty start, over any history: what `a` believes `b` to hold, `b` holds - unless `b` has removed `a`
      since it came by it, or it is an own message of `a` that a read receipt covers. */
  lemma PeerHaveOverHistories(w: World, hs: seq<Step>, a: PeerKey, b: PeerKey, id: MessageId)
    requires Empty(w) && a != b && a in w.nodes && b in w.nodes
    ensures a in Run(w, hs).nodes && b in Run(w, hs).nodes
    ensures id in HaveOf(Run(w, hs).nodes[a], b) && !Covered(Run(w, hs).nodes[a], a, b, id) ==>
      (id in Have(C(Run(w, hs), b, a)) <==> !ForgotSince(w, hs, b, a, id))
  {
    RunKeepsNodes(w, hs);
    EmptyBelieves(w, a, b);
    if id in HaveOf(Run(w, hs).nodes[a], b) && !Covered(Run(w, hs).nodes[a], a, b, id) {
      PeerHaveSoundIff(w, hs, a, b, id);
    }
  }

  // ------------------------------------------------------------------ completeness

  /** `a` knows that `b` has the message and no longer counts it as queued. */
  ghost predicate Acked(st: State, b: PeerKey, id: MessageId)
  {
    id in HaveOf(st, b) && id !in QueuedFor(st, b)
  }

  /** A have-list naming `id` is on its way from `b` to `a`. */
  ghost predicate Listing(w: World, a: PeerKey, b: PeerKey, id: MessageId)
  {
    exists x :: x in w.net && x.from == b && x.to == a && IsHave(x.frame) && id in IdSet(x.frame.ids)
  }

  ghost predicate AckComing(w: World, a: PeerKey, b: PeerKey, cb: Convo, id: MessageId)
  {
    || Link(b, a) !in w.offered
    || Listing(w, a, b, id)
    || (id !in Have(cb) && (Asking(w, a, b) || Sending(w, a, b, id)))
  }

  ghost predicate AckFlow(w: World, a: PeerKey, b: PeerKey, ids: set<MessageId>)
    requires a in w.nodes && b in w.nodes
  {
    forall id :: id in ids ==> Acked(w.nodes[a], b, id) || AckComing(w, a, b, C(w, b, a), id)
  }

  /** `a` handles a frame from `b`. */
  lemma AckArrival(w: World, n: World, x: Packet, replies: seq<Frame>, a: PeerKey, b: PeerKey, cb: Convo,
                   st: State, st': State, low: View, id: MessageId)
    requires Arrived(w, n, x, replies, a, b)
    requires Acked(st, b, id) || AckComing(w, a, b, cb, id)
    requires HaveOf(st, b) + (if IsHave(x.frame) then IdSet(x.frame.ids) else {}) <= HaveOf(st', b)
    requires QueuedFor(st', b) <= QueuedFor(st, b) - if IsHave(x.frame) then IdSet(x.frame.ids) else {}
    requires id in low.messages || id in Have(cb)
    requires IsHave(x.frame) ==> Brings(replies, cb, low)
    ensures Acked(st', b, id) || AckComing(n, a, b, cb, id)
  {
    if Listing(w, a, b, id) {
      var y :| y in w.net && y.from == b && y.to == a && IsHave(y.frame) && id in IdSet(y.frame.ids);
      if y != x { assert Listing(n, a, b, id); }
    } else if id !in Have(cb) && Link(b, a) in w.offered && !Acked(st, b, id) {
      if IsHave(x.frame) {
        var f :| f in replies && BringsMissing(f, cb, low);
        assert Packet(a, b, f) in n.net && CarriesId(Packet(a, b, f).frame, id);
      } else {
        assert Asking(w, a, b) ==> Asking(n, a, b);
        assert Sending(w, a, b, id) ==> Sending(n, a, b, id);
      }
    }
  }

  /** `b` handles a frame from `a`; if it takes the message in, it acknowledges. */
  lemma AckDeparture(w: World, n: World, x: Packet, replies: seq<Frame>, a: PeerKey, b: PeerKey, cb: Convo, cb': Convo, id: MessageId)
    requires Arrived(w, n, x, replies, b, a) && AckComing(w, a, b, cb, id)
    requires Have(cb) <= Have(cb')
    requires CarriesId(x.frame, id) ==> id in Have(cb')
    requires id in Have(cb') && id !in Have(cb) ==> exists f :: f in replies && IsHave(f) && id in IdSet(f.ids)
    ensures AckComing(n, a, b, cb', id)
  {
    if Listing(w, a, b, id) {
      var y :| y in w.net && y.from == b && y.to == a && IsHave(y.frame) && id in IdSet(y.frame.ids);
      assert y in n.net;
    } else if id !in Have(cb) {
      if id in Have(cb') {
        var f :| f in replies && IsHave(f) && id in IdSet(f.ids);
        assert Packet(b, a, f) in n.net;
        assert Listing(n, a, b, id);
      } else {
        assert Asking(w, a, b) ==> Asking(n, a, b);
        if Sending(w, a, b, id) {
          var y :| y in w.net && y.from == a && y.to == b && CarriesId(y.frame, id);
          assert y != x;
          assert Sending(n, a, b, id);
        }
      }
    }
  }

  lemma QueuedAfter(st: State, me: PeerKey, peer: PeerKey, f: Frame)
    ensures QueuedFor(After(st, me, peer, f), peer) == QueuedFor(st, peer) -
      if IsHave(f) then IdSet(f.ids) else if f.Read? then ReadCovers(st, me, peer, f.upTo) else {}
  {
    if f.SyncDelta? {
      assert After(st, me, peer, f).queued == st.queued;
    }
  }

  /** A message taken in from a delta is acknowledged; one taken in live is not. */
  lemma NewIdsAcknowledged(st: State, me: PeerKey, peer: PeerKey, f: Frame, id: MessageId)
    requires f.Chat? ==> f.message.id != id
    ensures var c, c' := ConvoWith(st, peer), ConvoWith(After(st, me, peer, f), peer);
      && (CarriesId(f, id) ==> id in Have(c'))
      && (id in Have(c') && id !in Have(c) ==>
            exists g :: g in Replies(st, me, peer, f) && IsHave(g) && id in IdSet(g.ids))
  {
    var c := ConvoWith(st, peer);
    if IsGroupFrame(f) {
      GroupFramesLeaveDirect(st, me, peer, f);
    } else if IsDelta(f) {
      DeltaHandled(st, me, peer, f);
      TakingAddsIds(c, f);
      HaveFrameIds(Direct, Taking(c, f));
      if id in Have(Taking(c, f)) && id !in Have(c) {
        assert HaveFrame(Direct, Taking(c, f)) in Replies(st, me, peer, f);
      }
    }
  }

  /** No message among `ids` travels as a live message between the two. */
  ghost predicate OldIds(w: World, a: PeerKey, b: PeerKey, ids: set<MessageId>)
  {
    forall x :: x in w.net && Between(x, a, b) && x.frame.Chat? ==> x.frame.message.id !in ids
  }

  /** What the two write to each other gets ids of its own. */
  predicate FreshText(s: Step, a: PeerKey, b: PeerKey, ids: set<MessageId>)
  {
    s.Text? && Writes(s, a, b) ==> s.id !in ids
  }

  ghost predicate AckInv(w: World, a: PeerKey, b: PeerKey, lowA: View, lowB: View, ids: set<MessageId>)
  {
    && FlowInv(w, a, b, lowA, lowB) && ids <= lowA.messages.Keys + lowB.messages.Keys
    && AckFlow(w, a, b, ids) && OldIds(w, a, b, ids)
  }

  lemma ArrivalKeepsAckFlow(w: World, i: nat, a: PeerKey, b: PeerKey, lowA: View, lowB: View, ids: set<MessageId>)
    requires AckInv(w, a, b, lowA, lowB, ids) && Enabled(w, Receive(i))
    requires w.net[i].from == b && w.net[i].to == a
    ensures AckFlow(Next(w, Receive(i)), a, b, ids)
  {
    var x, st, n := w.net[i], w.nodes[a], Next(w, Receive(i));
    ReceiveNet(w, i);
    AnswersFit(st, a, b, x.frame, C(w, b, a), lowA, lowB);
    HaveOfAfter(st, a, b, x.frame);
    QueuedAfter(st, a, b, x.frame);
    forall id | id in ids
      ensures Acked(n.nodes[a], b, id) || AckComing(n, a, b, C(n, b, a), id) {
      AckArrival(w, n, x, Replies(st, a, b, x.frame), a, b, C(w, b, a), st, n.nodes[a], lowA, id);
    }
  }

  lemma DepartureKeepsAckFlow(w: World, i: nat, a: PeerKey, b: PeerKey, lowA: View, lowB: View, ids: set<MessageId>)
    requires AckInv(w, a, b, lowA, lowB, ids) && Enabled(w, Receive(i))
    requires w.net[i].from == a && w.net[i].to == b
    ensures AckFlow(Next(w, Receive(i)), a, b, ids)
  {
    var x, st, n := w.net[i], w.nodes[b], Next(w, Receive(i));
    ReceiveNet(w, i);
    assert x in w.net && Between(x, a, b);
    AfterGrows(st, b, a, x.frame, a);
    forall id | id in ids
      ensures Acked(n.nodes[a], b, id) || AckComing(n, a, b, C(n, b, a), id) {
      NewIdsAcknowledged(st, b, a, x.frame, id);
      if !Acked(w.nodes[a], b, id) {
        AckDeparture(w, n, x, Replies(st, b, a, x.frame), a, b, C(w, b, a), C(n, b, a), id);
      }
    }
  }

  lemma OfferKeepsAckFlow(w: World, p: PeerKey, q: PeerKey, a: PeerKey, b: PeerKey, ids: set<MessageId>)
    requires Pair(w, a, b) && Enabled(w, Offer(p, q)) && AckFlow(w, a, b, ids)
    ensures AckFlow(Next(w, Offer(p, q)), a, b, ids)
  {
    var n := Next(w, Offer(p, q));
    OfferNet(w, p, q);
    if p == b && q == a {
      OffersAre(w.nodes[b], a);
      var have := Packet(b, a, HaveFrame(Direct, C(w, b, a)));
      HaveFrameIds(Direct, C(w, b, a));
      assert have in n.net;
    }
    forall id | id in ids ensures Acked(n.nodes[a], b, id) || AckComing(n, a, b, C(n, b, a), id) {
      assert Listing(w, a, b, id) ==> Listing(n, a, b, id);
      assert Asking(w, a, b) ==> Asking(n, a, b);
      assert Sending(w, a, b, id) ==> Sending(n, a, b, id);
    }
  }

  /** Outside the exchange nothing is un-acknowledged, and no old id is newly held. */
  lemma OutsideKeepsAcked(w: World, s: Step, a: PeerKey, b: PeerKey, id: MessageId)
    requires Pair(w, a, b) && !Breaks(s, a, b) && !Exchanges(w, s, a, b) && FreshText(s, a, b, {id})
    requires Acked(w.nodes[a], b, id)
    ensures a in Next(w, s).nodes && Acked(Next(w, s).nodes[a], b, id)
  {
    if Enabled(w, s) && s.Receive? && w.net[s.i].to == a {
      HandleLeavesOthers(w.nodes[a], a, w.net[s.i].from, w.net[s.i].frame, b);
    }
  }

  lemma OutsideKeepsLack(w: World, s: Step, a: PeerKey, b: PeerKey, id: MessageId)
    requires Pair(w, a, b) && !Breaks(s, a, b) && !Exchanges(w, s, a, b) && FreshText(s, a, b, {id})
    ensures b in Next(w, s).nodes && (id in Have(C(Next(w, s), b, a)) ==> id in Have(C(w, b, a)))
  {
    if !Writes(s, a, b) { OutsideConvo(w, s, b, a); }
  }

  lemma OutsideKeepsAckFlow(w: World, s: Step, a: PeerKey, b: PeerKey, ids: set<MessageId>)
    requires Pair(w, a, b) && !Breaks(s, a, b) && !Exchanges(w, s, a, b) && FreshText(s, a, b, ids)
    requires AckFlow(w, a, b, ids)
    ensures a in Next(w, s).nodes && b in Next(w, s).nodes && AckFlow(Next(w, s), a, b, ids)
  {
    var n := Next(w, s);
    OutsideIsUndisturbed(w, s, a, b);
    forall id | id in ids ensures Acked(n.nodes[a], b, id) || AckComing(n, a, b, C(n, b, a), id) {
      if Acked(w.nodes[a], b, id) { OutsideKeepsAcked(w, s, a, b, id); }
      OutsideKeepsLack(w, s, a, b, id);
      assert Listing(w, a, b, id) ==> Listing(n, a, b, id);
      assert Asking(w, a, b) ==> Asking(n, a, b);
      assert Sending(w, a, b, id) ==> Sending(n, a, b, id);
    }
  }

  lemma StepKeepsOldIds(w: World, s: Step, a: PeerKey, b: PeerKey, ids: set<MessageId>)
    requires OldIds(w, a, b, ids) && FreshText(s, a, b, ids)
    ensures OldIds(Next(w, s), a, b, ids)
  {
    forall x | x in Next(w, s).net && Between(x, a, b) && x.frame.Chat? ensures x.frame.message.id !in ids {
      if x !in w.net {
        NewFrame(w, s, x);
        if s.Offer? { OfferFrames(w.nodes[s.p], s.q, x.frame); }
      }
    }
  }

  lemma StepKeepsAckInv(w: World, s: Step, a: PeerKey, b: PeerKey, lowA: View, lowB: View, ids: set<MessageId>)
    requires AckInv(w, a, b, lowA, lowB, ids) && !Breaks(s, a, b) && FreshText(s, a, b, ids)
    ensures AckInv(Next(w, s), a, b, lowA, lowB, ids)
  {
    StepKeepsFlow(w, s, a, b, lowA, lowB);
    StepKeepsOldIds(w, s, a, b, ids);
    if !Exchanges(w, s, a, b) {
      OutsideKeepsAckFlow(w, s, a, b, ids);
    } else if s.Offer? {
      OfferKeepsAckFlow(w, s.p, s.q, a, b, ids);
    } else if w.net[s.i].to == a {
      ArrivalKeepsAckFlow(w, s.i, a, b, lowA, lowB, ids);
    } else {
      DepartureKeepsAckFlow(w, s.i, a, b, lowA, lowB, ids);
    }
  }

  lemma {:induction false} RunKeepsAckInv(w: World, steps: seq<Step>, a: PeerKey, b: PeerKey, lowA: View, lowB: View,
                                          ids: set<MessageId>)
    requires AckInv(w, a, b, lowA, lowB, ids) && Unbroken(steps, a, b)
    requires forall s :: s in steps ==> FreshText(s, a, b, ids)
    ensures AckInv(Run(w, steps), a, b, lowA, lowB, ids)
  {
    if steps != [] {
      var k := |steps| - 1;
      assert steps == steps[..k] + [steps[k]];
      RunKeepsAckInv(w, steps[..k], a, b, lowA, lowB, ids);
      StepKeepsAckInv(Run(w, steps[..k]), steps[k], a, b, lowA, lowB, ids);
    }
  }

  /** Everything either side started with is acknowledged in the end, even if the two go on writing - but for
      messages that were just then arriving live. */
  lemma EarlierDelivered(w: World, steps: seq<Step>, a: PeerKey, b: PeerKey, id: MessageId)
    requires Meeting(w, a, b) && Unbroken(steps, a, b) && Settled(Run(w, steps), a, b)
    requires id in Have(C(w, a, b)) + Have(C(w, b, a)) && OldIds(w, a, b, {id})
    requires forall s :: s in steps ==> FreshText(s, a, b, {id})
    ensures a in Run(w, steps).nodes && Acked(Run(w, steps).nodes[a], b, id)
  {
    var lowA, lowB, n := Obs(C(w, a, b)), Obs(C(w, b, a)), Run(w, steps);
    MeetingFlows(w, a, b);
    RunKeepsAckInv(w, steps, a, b, lowA, lowB, {id});
    NothingDropped(w, steps, a, b);
    assert id in Have(C(n, b, a));
    assert !Listing(n, a, b, id);
  }

  lemma AfterShrinksQueue(st: State, me: PeerKey, peer: PeerKey, f: Frame, q: PeerKey)
    ensures QueuedFor(After(st, me, peer, f), q) <= QueuedFor(st, q)
  {
    if q != peer {
      HandleLeavesOthers(st, me, peer, f, q);
    } else {
      QueuedAfter(st, me, peer, f);
    }
  }

  lemma StepShrinksQueue(w: World, s: Step, a: PeerKey, b: PeerKey)
    requires a in w.nodes && !Writes(s, a, b)
    ensures a in Next(w, s).nodes && QueuedFor(Next(w, s).nodes[a], b) <= QueuedFor(w.nodes[a], b)
  {
    if Enabled(w, s) && s.Receive? && w.net[s.i].to == a {
      AfterShrinksQueue(w.nodes[a], a, w.net[s.i].from, w.net[s.i].frame, b);
    }
  }

  lemma {:induction false} RunShrinksQueue(w: World, steps: seq<Step>, a: PeerKey, b: PeerKey)
    requires a in w.nodes && Quiet(steps, a, b)
    ensures a in Run(w, steps).nodes
    ensures QueuedFor(Run(w, steps).nodes[a], b) <= QueuedFor(w.nodes[a], b)
  {
    if steps != [] {
      var k := |steps| - 1;
      assert steps == steps[..k] + [steps[k]];
      RunShrinksQueue(w, steps[..k], a, b);
      StepShrinksQueue(Run(w, steps[..k]), steps[k], a, b);
    }
  }

  /** Every message of the conversation with `b` that is `a`'s own is shown as Delivered. */
  ghost predicate AllShownDelivered(st: State, a: PeerKey, b: PeerKey)
  {
    var c := ConvoWith(st, b);
    forall id :: id in c.messages && c.messages[id].author == a ==> StatusOf(st, a, b, c.messages[id]) == Some(Delivered)
  }

  /** Once the exchange has settled, every own message shows as Delivered and nothing is still queued. */
  lemma DeliveryComplete(w: World, steps: seq<Step>, a: PeerKey, b: PeerKey)
    requires Connected(w, a, b) && Quiet(steps, a, b) && Settled(Run(w, steps), a, b)
    requires Agree(C(w, a, b).messages, C(w, b, a).messages)
    requires QueuedFor(w.nodes[a], b) <= Have(C(w, a, b))
    ensures a in Run(w, steps).nodes
    ensures AllShownDelivered(Run(w, steps).nodes[a], a, b) && QueuedFor(Run(w, steps).nodes[a], b) == {}
  {
    var n, ids := Run(w, steps), Have(C(w, a, b)) + Have(C(w, b, a));
    Convergence(w, steps, a, b);
    RunShrinksQueue(w, steps, a, b);
    forall id | id in ids ensures Acked(n.nodes[a], b, id) {
      EarlierDelivered(w, steps, a, b, id);
    }
    assert Have(C(n, a, b)) == ids;
  }

  // ------------------------------------------------------------------ exactly what is confirmed

  /** `b` sends `a` a direct have-list: with its offer, or because a delta brought it something new. */
  ghost predicate Lists(w: World, s: Step, b: PeerKey, a: PeerKey)
  {
    match s
    case Offer(p, q) => Enabled(w, s) && p == b && q == a
    case Receive(i) =>
      && Enabled(w, s) && w.net[i].to == b && w.net[i].from == a && IsDelta(w.net[i].frame)
      && Added(C(w, b, a), w.net[i].frame.messages) > 0
    case _ => false
  }

  /** What `b` held when it last sent `a` a have-list in the run. */
  ghost function Told(w: World, steps: seq<Step>, b: PeerKey, a: PeerKey): set<MessageId>
    requires b in w.nodes
  {
    if steps == [] then {}
    else
      var k := |steps| - 1;
      RunKeepsNodes(w, steps);
      if Lists(Run(w, steps[..k]), steps[k], b, a) then Have(C(Run(w, steps), b, a)) else Told(w, steps[..k], b, a)
  }

  /** What read receipts of `b`, as `a` handled them in the run, newly covered. */
  ghost function Receipted(w: World, steps: seq<Step>, a: PeerKey, b: PeerKey): set<MessageId>
  {
    if steps == [] then {}
    else
      var k := |steps| - 1;
      Receipted(w, steps[..k], a, b) + CoveredBy(Run(w, steps[..k]), steps[k], a, b)
  }

  ghost function CoveredBy(w: World, s: Step, a: PeerKey, b: PeerKey): set<MessageId>
  {
    if HandsOver(w, s, a, b) && w.net[s.i].frame.Read?
    then ReadCovers(w.nodes[a], a, b, w.net[s.i].frame.upTo) else {}
  }

  lemma NewList(w: World, s: Step, b: PeerKey, a: PeerKey, x: Packet)
    requires b in w.nodes && x in Next(w, s).net && x !in w.net && x.from == b && x.to == a && IsHave(x.frame)
    ensures b in Next(w, s).nodes && Lists(w, s, b, a) && IdSet(x.frame.ids) == Have(C(Next(w, s), b, a))
  {
    NodesStay(w, s);
    NewFrame(w, s, x);
    if s.Offer? {
      OfferFrames(w.nodes[b], a, x.frame);
    } else {
      var f := w.net[s.i].frame;
      ReplyKinds(w.nodes[b], b, a, f, x.frame);
      DeltaHandled(w.nodes[b], b, a, f);
      HaveFrameIds(Direct, Taking(C(w, b, a), f));
    }
  }

  lemma ListSent(w: World, s: Step, b: PeerKey, a: PeerKey, id: MessageId)
    requires b in w.nodes && Lists(w, s, b, a)
    ensures b in Next(w, s).nodes && (id in Have(C(Next(w, s), b, a)) ==> Listing(Next(w, s), a, b, id))
  {
    NodesStay(w, s);
    if s.Offer? {
      OfferNet(w, b, a);
      OffersAre(w.nodes[b], a);
      HaveFrameIds(Direct, C(w, b, a));
      assert Packet(b, a, HaveFrame(Direct, C(w, b, a))) in Next(w, s).net;
    } else {
      var f := w.net[s.i].frame;
      ReceiveNet(w, s.i);
      DeltaHandled(w.nodes[b], b, a, f);
      HaveFrameIds(Direct, Taking(C(w, b, a), f));
      assert HaveFrame(Direct, Taking(C(w, b, a), f)) in Replies(w.nodes[b], b, a, f);
      assert Packet(b, a, HaveFrame(Direct, Taking(C(w, b, a), f))) in Next(w, s).net;
    }
  }

  /** `a` knows, or is about to be told, that `b` has the message. */
  ghost predicate Learning(w: World, a: PeerKey, b: PeerKey, id: MessageId)
    requires a in w.nodes
  {
    id in HaveOf(w.nodes[a], b) || Listing(w, a, b, id)
  }

  /** The step hands `a` a frame of `b`. */
  predicate HandsOver(w: World, s: Step, a: PeerKey, b: PeerKey)
  {
    s.Receive? && Enabled(w, s) && w.net[s.i].to == a && w.net[s.i].from == b
  }

  lemma HaveOfSame(w: World, s: Step, a: PeerKey, b: PeerKey)
    requires a in w.nodes && a != b && !Breaks(s, a, b) && !HandsOver(w, s, a, b)
    ensures a in Next(w, s).nodes && HaveOf(Next(w, s).nodes[a], b) == HaveOf(w.nodes[a], b)
  {
    if Enabled(w, s) && s.Receive? && w.net[s.i].to == a {
      HandleLeavesOthers(w.nodes[a], a, w.net[s.i].from, w.net[s.i].frame, b);
    }
  }

  lemma HaveOfStep(w: World, s: Step, a: PeerKey, b: PeerKey)
    requires a in w.nodes && a != b && !Breaks(s, a, b)
    ensures a in Next(w, s).nodes
    ensures HaveOf(Next(w, s).nodes[a], b) == HaveOf(w.nodes[a], b) + CoveredBy(w, s, a, b) +
      if HandsOver(w, s, a, b) && IsHave(w.net[s.i].frame) then IdSet(w.net[s.i].frame.ids) else {}
  {
    if HandsOver(w, s, a, b) {
      HaveOfAfter(w.nodes[a], a, b, w.net[s.i].frame);
    } else {
      HaveOfSame(w, s, a, b);
    }
  }

  lemma LearningStays(w: World, s: Step, a: PeerKey, b: PeerKey, id: MessageId)
    requires a in w.nodes && a != b && !Breaks(s, a, b) && Learning(w, a, b, id)
    ensures a in Next(w, s).nodes && Learning(Next(w, s), a, b, id)
  {
    HaveOfStep(w, s, a, b);
    if Listing(w, a, b, id) {
      var y :| y in w.net && y.from == b && y.to == a && IsHave(y.frame) && id in IdSet(y.frame.ids);
      if !(s.Receive? && Enabled(w, s) && w.net[s.i] == y) { Persists(w, s, y); }
    }
  }

  lemma LearningStep(w: World, s: Step, a: PeerKey, b: PeerKey, id: MessageId)
    requires a in w.nodes && b in w.nodes && a != b && !Breaks(s, a, b)
    ensures a in Next(w, s).nodes && b in Next(w, s).nodes
    ensures Learning(Next(w, s), a, b, id) <==>
      Learning(w, a, b, id) || id in CoveredBy(w, s, a, b) ||
      (Lists(w, s, b, a) && id in Have(C(Next(w, s), b, a)))
  {
    NodesStay(w, s);
    HaveOfStep(w, s, a, b);
    if Learning(w, a, b, id) { LearningStays(w, s, a, b, id); }
    if Lists(w, s, b, a) { ListSent(w, s, b, a, id); }
    if Listing(Next(w, s), a, b, id) {
      var y :| y in Next(w, s).net && y.from == b && y.to == a && IsHave(y.frame) && id in IdSet(y.frame.ids);
      if y !in w.net { NewList(w, s, b, a, y); }
    }
    if s.Receive? && Enabled(w, s) { assert w.net[s.i] in w.net; }
  }

  lemma {:induction false} ToldIsHeld(w: World, steps: seq<Step>, a: PeerKey, b: PeerKey)
    requires b in w.nodes && Forget(b, a) !in steps
    ensures b in Run(w, steps).nodes && Told(w, steps, b, a) <= Have(C(Run(w, steps), b, a))
  {
    RunKeepsNodes(w, steps);
    if steps != [] {
      var k := |steps| - 1;
      assert steps == steps[..k] + [steps[k]];
      ToldIsHeld(w, steps[..k], a, b);
      ConvoGrows(Run(w, steps[..k]), steps[k], b, a);
    }
  }

  lemma {:induction false} RunLearns(w: World, steps: seq<Step>, a: PeerKey, b: PeerKey, id: MessageId)
    requires a in w.nodes && b in w.nodes && a != b && Unbroken(steps, a, b)
    ensures a in Run(w, steps).nodes
    ensures Learning(Run(w, steps), a, b, id) <==>
      Learning(w, a, b, id) || id in Told(w, steps, b, a) || id in Receipted(w, steps, a, b)
  {
    RunKeepsNodes(w, steps);
    if steps != [] {
      var k := |steps| - 1;
      assert steps == steps[..k] + [steps[k]];
      RunLearns(w, steps[..k], a, b, id);
      RunKeepsNodes(w, steps[..k]);
      LearningStep(Run(w, steps[..k]), steps[k], a, b, id);
      assert Forgets(Forget(b, a), a, b);
      ToldIsHeld(w, steps[..k], a, b);
      ConvoGrows(Run(w, steps[..k]), steps[k], b, a);
    }
  }

  /** Whatever was in flight when they met and whatever they write meanwhile: after a settled exchange `a` counts
      as held by `b` exactly what it did before, what `b` held when it last sent a have-list, and what read
      receipts covered. So an own message stays unconfirmed exactly if `b` came by it after its last list. */
  lemma ConfirmedIff(w: World, steps: seq<Step>, a: PeerKey, b: PeerKey, id: MessageId)
    requires Meeting(w, a, b) && Unbroken(steps, a, b) && Settled(Run(w, steps), a, b)
    ensures a in Run(w, steps).nodes
    ensures id in HaveOf(Run(w, steps).nodes[a], b) <==>
      id in HaveOf(w.nodes[a], b) || id in Told(w, steps, b, a) || id in Receipted(w, steps, a, b)
  {
    RunLearns(w, steps, a, b, id);
    assert !Listing(w, a, b, id) && !Listing(Run(w, steps), a, b, id);
  }
}
