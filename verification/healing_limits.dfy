/** Where group healing stops: an exchange passes history on exactly when the receiver has not learnt of
    the group from a third node in the middle of it. */
module HealingLimits {
  import opened Wire
  import opened Worlds
  import opened Membership
  import opened Healing

  /** `q` receives a group delta from `p`. */
  ghost predicate ServedAt(w: World, s: Step, p: PeerKey, q: PeerKey, g: GroupId)
  {
    s.Receive? && Enabled(w, s) && w.net[s.i].from == p && w.net[s.i].to == q && Answers(w.net[s.i].frame, g)
  }

  ghost predicate Served(w: World, steps: seq<Step>, p: PeerKey, q: PeerKey, g: GroupId)
  {
    if steps == [] then false
    else
      var k := |steps| - 1;
      Served(w, steps[..k], p, q, g) || ServedAt(Run(w, steps[..k]), steps[k], p, q, g)
  }

  /** One connection: `q` runs its post-connect sequence towards `p` once. */
  ghost predicate OffersOnce(w: World, steps: seq<Step>, p: PeerKey, q: PeerKey)
  {
    forall k :: 0 <= k < |steps| && steps[k] == Offer(q, p) ==> Link(q, p) !in Run(w, steps[..k]).offered
  }

  ghost predicate AnyAnswerComing(w: World, p: PeerKey, q: PeerKey, g: GroupId)
  {
    exists x :: x in w.net && x.from == p && x.to == q && Answers(x.frame, g)
  }

  /** What is true as long as `q` has not learnt of the group too late, and what is true ever after. */
  ghost predicate Track(w: World, p: PeerKey, q: PeerKey, g: GroupId, served: bool, late: bool)
  {
    && (served ==> Knows(w, q, g))
    && (if late then
          !served && Knows(w, q, g) && Link(q, p) in w.offered && !AskComing(w, p, q, g) && !AnyAnswerComing(w, p, q, g)
        else
          || served || AskComing(w, p, q, g) || AnyAnswerComing(w, p, q, g)
          || (Knows(w, q, g) && Link(q, p) !in w.offered)
          || (!Knows(w, q, g) && NewsComing(w, p, q, g)))
  }

  /** The step makes `q` ask `p` for the group. */
  ghost predicate Prompts(w: World, s: Step, p: PeerKey, q: PeerKey, g: GroupId)
  {
    || (s == Offer(q, p) && Knows(w, q, g))
    || (s.Receive? && Enabled(w, s) && w.net[s.i].from == p && w.net[s.i].to == q && !Knows(w, q, g))
  }

  lemma NewAskCause(w: World, s: Step, x: Packet, p: PeerKey, q: PeerKey, g: GroupId)
    requires x in Next(w, s).net && x !in w.net && x.from == q && x.to == p && AsksFor(x.frame, g)
    ensures Prompts(w, s, p, q, g)
  {
    NewFrame(w, s, x);
    if s.Receive? {
      ReplyKinds(w.nodes[q], q, p, w.net[s.i].frame, x.frame);
    } else if s.Offer? {
      OfferKinds(w.nodes[q], p, x.frame);
    }
  }

  lemma NewAnswerCause(w: World, s: Step, x: Packet, p: PeerKey, q: PeerKey, g: GroupId)
    requires x in Next(w, s).net && x !in w.net && x.from == p && x.to == q && Answers(x.frame, g)
    ensures s.Receive? && Enabled(w, s) && w.net[s.i].from == q && w.net[s.i].to == p && AsksFor(w.net[s.i].frame, g)
  {
    NewFrame(w, s, x);
    if s.Receive? {
      ReplyKinds(w.nodes[p], p, q, w.net[s.i].frame, x.frame);
    } else if s.Offer? {
      OfferKinds(w.nodes[p], q, x.frame);
    }
  }

  lemma AskComesFrom(w: World, s: Step, p: PeerKey, q: PeerKey, g: GroupId)
    requires AskComing(Next(w, s), p, q, g)
    ensures AskComing(w, p, q, g) || Prompts(w, s, p, q, g)
  {
    var x :| x in Next(w, s).net && x.from == q && x.to == p && AsksFor(x.frame, g);
    if x !in w.net { NewAskCause(w, s, x, p, q, g); }
  }

  lemma AnswerComesFrom(w: World, s: Step, p: PeerKey, q: PeerKey, g: GroupId)
    requires AnyAnswerComing(Next(w, s), p, q, g)
    ensures AnyAnswerComing(w, p, q, g) || AskComing(w, p, q, g)
  {
    var x :| x in Next(w, s).net && x.from == p && x.to == q && Answers(x.frame, g);
    if x !in w.net {
      NewAnswerCause(w, s, x, p, q, g);
      assert w.net[s.i] in w.net;
    }
  }

  /** Nobody asks for, or is sent, the history of a group it does not know. */
  lemma UnknownIsQuiet(w: World, p: PeerKey, q: PeerKey, info: GroupInfo)
    requires InOrder(w, info) && !Knows(w, q, info.id)
    ensures !AskComing(w, p, q, info.id) && !AnyAnswerComing(w, p, q, info.id)
  {
    assert forall x :: x in w.net ==> FrameInOrder(w, x, info);
  }

  lemma NotServedUnlessComing(w: World, s: Step, p: PeerKey, q: PeerKey, g: GroupId)
    requires ServedAt(w, s, p, q, g)
    ensures AnyAnswerComing(w, p, q, g)
  {
    assert w.net[s.i] in w.net;
  }

  lemma StaysQuiet(w: World, s: Step, p: PeerKey, q: PeerKey, g: GroupId)
    requires !AskComing(w, p, q, g) && !AnyAnswerComing(w, p, q, g) && !Prompts(w, s, p, q, g)
    ensures !ServedAt(w, s, p, q, g) && !AskComing(Next(w, s), p, q, g) && !AnyAnswerComing(Next(w, s), p, q, g)
  {
    if ServedAt(w, s, p, q, g) { NotServedUnlessComing(w, s, p, q, g); }
    if AskComing(Next(w, s), p, q, g) { AskComesFrom(w, s, p, q, g); }
    if AnyAnswerComing(Next(w, s), p, q, g) { AnswerComesFrom(w, s, p, q, g); }
  }

  lemma LateStep(w: World, s: Step, p: PeerKey, q: PeerKey, g: GroupId)
    requires q in w.nodes && Track(w, p, q, g, false, true) && (s == Offer(q, p) ==> Link(q, p) !in w.offered)
    requires !Cuts(s, p, q)
    ensures !ServedAt(w, s, p, q, g) && Track(Next(w, s), p, q, g, false, true)
  {
    StepGrows(w, s, q, g);
    StaysQuiet(w, s, p, q, g);
  }

  lemma TurnsLate(w: World, s: Step, p: PeerKey, q: PeerKey, info: GroupInfo)
    requires InOrder(w, info) && Sane(s, info.id) && Track(w, p, q, info.id, false, false)
    requires LearnsElsewhere(w, s, p, q, info.id) && !Cuts(s, p, q)
    ensures !ServedAt(w, s, p, q, info.id) && Track(Next(w, s), p, q, info.id, false, true)
  {
    LearnsFromNews(w, s, q, info);
    UnknownIsQuiet(w, p, q, info);
    StaysQuiet(w, s, p, q, info.id);
  }

  lemma AskAlwaysAnswered(w: World, i: nat, p: PeerKey, q: PeerKey, info: GroupInfo)
    requires InOrder(w, info) && Enabled(w, Receive(i)) && p in info.members && q in info.members && Knows(w, p, info.id)
    requires w.net[i].from == q && w.net[i].to == p && AsksFor(w.net[i].frame, info.id)
    ensures AnyAnswerComing(Next(w, Receive(i)), p, q, info.id)
  {
    assert GroupsInOrder(w.nodes[p], p) && w.nodes[p].groups[info.id] == info;
    var reply := AskAnswered(w.nodes[p], p, q, w.net[i].frame, info.id);
    ReceiveNet(w, i);
    assert Packet(p, q, reply) in Next(w, Receive(i)).net;
  }

  lemma AskingStep(w: World, s: Step, p: PeerKey, q: PeerKey, info: GroupInfo)
    requires InOrder(w, info) && p in info.members && q in info.members && Knows(w, p, info.id)
    requires (AskComing(w, p, q, info.id) || AnyAnswerComing(w, p, q, info.id)) && !Cuts(s, p, q)
    ensures var n := Next(w, s);
      ServedAt(w, s, p, q, info.id) || AskComing(n, p, q, info.id) || AnyAnswerComing(n, p, q, info.id)
  {
    if AskComing(w, p, q, info.id) {
      var y :| y in w.net && y.from == q && y.to == p && AsksFor(y.frame, info.id);
      if s.Receive? && Enabled(w, s) && w.net[s.i] == y {
        AskAlwaysAnswered(w, s.i, p, q, info);
      } else {
        Persists(w, s, y);
      }
    } else {
      var y :| y in w.net && y.from == p && y.to == q && Answers(y.frame, info.id);
      if !(s.Receive? && Enabled(w, s) && w.net[s.i] == y) {
        Persists(w, s, y);
      }
    }
  }

  lemma TimelyStep(w: World, s: Step, p: PeerKey, q: PeerKey, info: GroupInfo, served: bool)
    requires InOrder(w, info) && Sane(s, info.id) && p != q && p in info.members && q in info.members && q in w.nodes
    requires Knows(w, p, info.id) && Track(w, p, q, info.id, served, false)
    requires !LearnsElsewhere(w, s, p, q, info.id) && !Cuts(s, p, q)
    ensures Track(Next(w, s), p, q, info.id, served || ServedAt(w, s, p, q, info.id), false)
  {
    var n, g := Next(w, s), info.id;
    StepGrows(w, s, q, g);
    if ServedAt(w, s, p, q, g) {
      assert FrameInOrder(w, w.net[s.i], info);
    } else if served {
    } else if AskComing(w, p, q, g) || AnyAnswerComing(w, p, q, g) {
      AskingStep(w, s, p, q, info);
    } else if Knows(w, q, g) {
      if s == Offer(q, p) { OfferAsks(w, p, q, info); }
    } else {
      UnawareStep(w, s, p, q, info);
    }
  }

  lemma {:induction false} TrackRun(w: World, steps: seq<Step>, p: PeerKey, q: PeerKey, info: GroupInfo)
    requires InOrder(w, info) && Regular(steps, p, q, info.id) && OffersOnce(w, steps, p, q)
    requires p != q && p in info.members && q in info.members && q in w.nodes && Knows(w, p, info.id)
    requires Track(w, p, q, info.id, false, false)
    ensures InOrder(Run(w, steps), info) && q in Run(w, steps).nodes && Knows(Run(w, steps), p, info.id)
    ensures Track(Run(w, steps), p, q, info.id, Served(w, steps, p, q, info.id), !NeverElsewhere(w, steps, p, q, info.id))
  {
    if steps != [] {
      var k := |steps| - 1;
      var front, s := steps[..k], steps[k];
      assert steps == front + [s];
      assert forall j :: 0 <= j < k ==> front[..j] == steps[..j];
      TrackRun(w, front, p, q, info);
      var mid := Run(w, front);
      StepKeepsOrder(mid, s, info);
      StepGrows(mid, s, p, info.id);
      StepGrows(mid, s, q, info.id);
      if !NeverElsewhere(w, front, p, q, info.id) {
        LateStep(mid, s, p, q, info.id);
      } else if LearnsElsewhere(mid, s, p, q, info.id) {
        TurnsLate(mid, s, p, q, info);
      } else {
        TimelyStep(mid, s, p, q, info, Served(w, front, p, q, info.id));
      }
    }
  }

  /** In a complete exchange on a fresh connection, `p` serves the group's history to `q` exactly when
      `q` has not learnt of the group from a third node after its own offer to `p`. */
  lemma ServedIff(w: World, steps: seq<Step>, p: PeerKey, q: PeerKey, info: GroupInfo)
    requires InOrder(w, info) && Regular(steps, p, q, info.id) && OffersOnce(w, steps, p, q)
    requires p in info.members && q in info.members && q in w.nodes && Knows(w, p, info.id)
    requires Drained(w, p, q) && Exchange(w, steps, p, q)
    ensures Served(w, steps, p, q, info.id) <==> NeverElsewhere(w, steps, p, q, info.id)
  {
    TrackRun(w, steps, p, q, info);
  }
}
