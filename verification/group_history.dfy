/** Group healing without assumptions on the state it starts from: any history from an empty start leaves
    the order that healing relies on, so reconnecting along a path of members carries the group and its
    whole history to the end of the path. */
module GroupHistory {
  import opened Wire
  import opened Conversations
  import opened Content
  import opened Worlds
  import opened AntiEntropy
  import opened Membership
  import opened Healing
  import opened Reconnection

  /** A random group id stands for one group. */
  predicate OneGroup(s: Step, info: GroupInfo) { s.NewGroup? && s.info.id == info.id ==> s.info == info }

  lemma CreationKeepsOrder(w: World, p: PeerKey, info: GroupInfo)
    requires InOrder(w, info)
    ensures InOrder(Next(w, NewGroup(p, info)), info)
  {
    var s := NewGroup(p, info);
    StepKeepsInv(w, s);
    if Enabled(w, s) {
      var n := Next(w, s);
      forall x | x in n.net ensures FrameInOrder(n, x, info) {
        if x in w.net {
          FrameStaysInOrder(w, s, x, info);
        }
      }
      forall q | Knows(n, q, info.id) ensures n.nodes[q].groups[info.id] == info {
        assert q != p ==> Knows(w, q, info.id);
      }
    }
  }

  /** Every reachable world is in order for every group ever created. */
  lemma {:induction false} LifeInOrder(w: World, steps: seq<Step>, info: GroupInfo)
    requires Empty(w) && forall s :: s in steps ==> OneGroup(s, info)
    ensures InOrder(Run(w, steps), info)
  {
    if steps == [] {
      EmptyInOrder(w, info);
    } else {
      var k := |steps| - 1;
      assert steps == steps[..k] + [steps[k]];
      LifeInOrder(w, steps[..k], info);
      var s := steps[k];
      if s.NewGroup? && s.info.id == info.id {
        assert OneGroup(s, info) && s == NewGroup(s.p, info);
        CreationKeepsOrder(Run(w, steps[..k]), s.p, info);
      } else {
        StepKeepsOrder(Run(w, steps[..k]), s, info);
      }
    }
  }

  lemma EmptyInOrder(w: World, info: GroupInfo)
    requires Empty(w)
    ensures InOrder(w, info)
  {
    assert GroupsInOrder(FRESH, 0);
  }

  // ------------------------------------------------------------------ reconnecting along a path

  /** Reconnect along the edges of the path, one after another, with the steps of a phase after each. */
  function Itinerary(phases: seq<seq<Step>>, path: seq<PeerKey>): seq<Step>
    requires |path| == |phases| + 1
  {
    if phases == [] then []
    else
      var k := |phases| - 1;
      Itinerary(phases[..k], path[..k + 1]) + ([Reconnect(path[k], path[k + 1])] + phases[k])
  }

  /** The exchange on the new connection completes, and `q` does not learn of the group elsewhere after its
      own offer. */
  ghost predicate Completes(w: World, p: PeerKey, q: PeerKey, steps: seq<Step>, g: GroupId)
  {
    var v := Next(w, Reconnect(p, q));
    p != q && Regular(steps, p, q, g) && Settled(Run(v, steps), p, q) && NeverElsewhere(v, steps, p, q, g)
  }

  ghost predicate AllComplete(w: World, phases: seq<seq<Step>>, path: seq<PeerKey>, g: GroupId)
    requires |path| == |phases| + 1
  {
    if phases == [] then true
    else
      var k := |phases| - 1;
      && AllComplete(w, phases[..k], path[..k + 1], g)
      && Completes(Run(w, Itinerary(phases[..k], path[..k + 1])), path[k], path[k + 1], phases[k], g)
  }

  /** Everyone on the path knows the group and has all of `low`. */
  ghost predicate AllHold(w: World, path: seq<PeerKey>, g: GroupId, low: View)
  {
    forall p :: p in path ==> Knows(w, p, g) && HoldsAll(w, p, g, low)
  }

  lemma HasAllTransitive(c: Convo, d: Convo, low: View)
    requires HasAll(c, Obs(d)) && HasAll(d, low)
    ensures HasAll(c, low)
  {
  }

  lemma ReconnectKeepsHold(w: World, p: PeerKey, q: PeerKey, r: PeerKey, g: GroupId, low: View)
    requires Knows(w, r, g) && HoldsAll(w, r, g, low)
    ensures Knows(Next(w, Reconnect(p, q)), r, g) && HoldsAll(Next(w, Reconnect(p, q)), r, g, low)
  {
    StepGrows(w, Reconnect(p, q), r, g);
    GrowsHasAll(GroupConvo(w.nodes[r], g), GroupConvo(Next(w, Reconnect(p, q)).nodes[r], g), low);
  }

  lemma ConnectionCarries(v: World, p: PeerKey, q: PeerKey, steps: seq<Step>, info: GroupInfo, low: View)
    requires InOrder(v, info) && p in info.members && q in info.members && q in v.nodes
    requires Knows(v, p, info.id) && HoldsAll(v, p, info.id, low)
    requires Exchange(v, steps, p, q) && Regular(steps, p, q, info.id) && NeverElsewhere(v, steps, p, q, info.id)
    ensures var n := Run(v, steps);
      InOrder(n, info) && Knows(n, q, info.id) && HoldsAll(n, q, info.id, low)
  {
    EdgeHeals(v, steps, p, q, info);
    HasAllTransitive(GroupConvo(Run(v, steps).nodes[q], info.id), GroupConvo(v.nodes[p], info.id), low);
  }

  lemma EdgeCarries(w: World, p: PeerKey, q: PeerKey, steps: seq<Step>, info: GroupInfo, low: View)
    requires InOrder(w, info) && p in info.members && q in info.members && q in w.nodes
    requires Knows(w, p, info.id) && HoldsAll(w, p, info.id, low) && Completes(w, p, q, steps, info.id)
    ensures var n := Run(Next(w, Reconnect(p, q)), steps);
      InOrder(n, info) && Knows(n, q, info.id) && HoldsAll(n, q, info.id, low)
  {
    StepKeepsOrder(w, Reconnect(p, q), info);
    ReconnectKeepsHold(w, p, q, p, info.id, low);
    ReconnectedIsConnected(w, p, q);
    ConnectionCarries(Next(w, Reconnect(p, q)), p, q, steps, info, low);
  }

  lemma EdgeKeeps(w: World, s: Step, steps: seq<Step>, r: PeerKey, g: GroupId, low: View)
    requires Knows(w, r, g) && HoldsAll(w, r, g, low)
    ensures Knows(Run(Next(w, s), steps), r, g) && HoldsAll(Run(Next(w, s), steps), r, g, low)
  {
    StepGrows(w, s, r, g);
    RunKeepsHolds(Next(w, s), steps, r, g);
    GrowsHasAll(GroupConvo(w.nodes[r], g), GroupConvo(Next(w, s).nodes[r], g), low);
    GrowsHasAll(GroupConvo(Next(w, s).nodes[r], g), GroupConvo(Run(Next(w, s), steps).nodes[r], g), low);
  }

  lemma WalkOn(mid: World, short: seq<PeerKey>, q: PeerKey, steps: seq<Step>, info: GroupInfo, low: View)
    requires InOrder(mid, info) && q in mid.nodes && q in info.members
    requires short != [] && short[|short| - 1] in info.members && AllHold(mid, short, info.id, low)
    requires Completes(mid, short[|short| - 1], q, steps, info.id)
    ensures var n := Run(Next(mid, Reconnect(short[|short| - 1], q)), steps);
      InOrder(n, info) && AllHold(n, short + [q], info.id, low)
  {
    var p := short[|short| - 1];
    var n := Run(Next(mid, Reconnect(p, q)), steps);
    assert p in short;
    EdgeCarries(mid, p, q, steps, info, low);
    forall r | r in short + [q] ensures Knows(n, r, info.id) && HoldsAll(n, r, info.id, low) {
      if r in short { EdgeKeeps(mid, Reconnect(p, q), steps, r, info.id, low); }
    }
  }

  /** All that the first of the path had arrives at everyone on it. */
  lemma {:induction false} WalkHeals(w: World, phases: seq<seq<Step>>, path: seq<PeerKey>, info: GroupInfo, low: View)
    requires |path| == |phases| + 1 && InOrder(w, info) && AllComplete(w, phases, path, info.id)
    requires forall p :: p in path ==> p in w.nodes && p in info.members
    requires Knows(w, path[0], info.id) && low == Obs(GroupConvo(w.nodes[path[0]], info.id))
    ensures InOrder(Run(w, Itinerary(phases, path)), info)
    ensures AllHold(Run(w, Itinerary(phases, path)), path, info.id, low)
  {
    if phases == [] {
      assert path == [path[0]];
    } else {
      var k := |phases| - 1;
      var short := path[..k + 1];
      var front := Itinerary(phases[..k], short);
      assert path == short + [path[k + 1]] && short[0] == path[0] && path[k] in path && path[k + 1] in path;
      WalkHeals(w, phases[..k], short, info, low);
      RunKeepsNodes(w, front);
      RunThrough(w, front, Reconnect(path[k], path[k + 1]), phases[k]);
      WalkOn(Run(w, front), short, path[k + 1], phases[k], info, low);
    }
  }

  lemma MessagesKept(u: World, n: World, p: PeerKey, r: PeerKey, g: GroupId, before: MessageLog, after: MessageLog)
    requires Genuine(u, before) && Genuine(n, after) && BelowLog(before, after)
    requires p in u.nodes && r in n.nodes && HasAll(GroupConvo(n.nodes[r], g), Obs(GroupConvo(u.nodes[p], g)))
    ensures Below(Obs(GroupConvo(u.nodes[p], g)), Obs(GroupConvo(n.nodes[r], g)))
  {
    var c, d := GroupConvo(u.nodes[p], g), GroupConvo(n.nodes[r], g);
    assert BelowLog(c.messages, before) && BelowLog(d.messages, after);
    forall id | id in c.messages ensures id in d.messages && c.messages[id] == d.messages[id] {
      assert before[id] == after[id];
    }
  }

  /** Everyone on the path knows the group and has all that `p` had of it: the very same messages. */
  ghost predicate Reached(u: World, n: World, p: PeerKey, path: seq<PeerKey>, g: GroupId)
    requires p in u.nodes
  {
    forall r :: r in path ==> Knows(n, r, g) && Below(Obs(GroupConvo(u.nodes[p], g)), Obs(GroupConvo(n.nodes[r], g)))
  }

  /** From an empty start, after any history: reconnecting along a path of members brings everyone on it the
      group and every message, reaction and watermark its first node had. */
  lemma GroupHealsAfterAnyHistory(w: World, hs: seq<Step>, phases: seq<seq<Step>>, path: seq<PeerKey>, info: GroupInfo)
    requires |path| == |phases| + 1 && Empty(w) && FreshDraws(w, hs + Itinerary(phases, path))
    requires (forall s :: s in hs ==> OneGroup(s, info)) && AllComplete(Run(w, hs), phases, path, info.id)
    requires (forall p :: p in path ==> p in w.nodes && p in info.members) && Knows(Run(w, hs), path[0], info.id)
    ensures Reached(Run(w, hs), Run(w, hs + Itinerary(phases, path)), path[0], path, info.id)
  {
    var u, whole := Run(w, hs), hs + Itinerary(phases, path);
    var n, low := Run(w, whole), Obs(GroupConvo(u.nodes[path[0]], info.id));
    RunKeepsNodes(w, hs);
    LifeInOrder(w, hs, info);
    WalkHeals(u, phases, path, info, low);
    RunAdds(w, hs, Itinerary(phases, path));
    PoolAdds(w, hs, Itinerary(phases, path));
    RunStaysGenuine(w, hs);
    RunStaysGenuine(w, whole);
    forall r | r in path ensures Knows(n, r, info.id) && Below(low, Obs(GroupConvo(n.nodes[r], info.id))) {
      MessagesKept(u, n, path[0], r, info.id, Pool(w, hs), Pool(w, whole));
    }
  }

  // ------------------------------------------------------------------ and it can always finish

  /** If nothing but the exchange between the two happens, neither learns of a group elsewhere. */
  lemma {:induction false} OnlyExchangeLearnsHere(w: World, steps: seq<Step>, p: PeerKey, q: PeerKey, g: GroupId)
    requires OnlyExchange(w, steps, p, q) && p != q
    ensures NeverElsewhere(w, steps, p, q, g) && Regular(steps, p, q, g)
    ensures forall s :: s in steps ==> s.Offer? || s.Receive?
  {
    if steps != [] {
      var k := |steps| - 1;
      assert steps == steps[..k] + [steps[k]];
      OnlyExchangeLearnsHere(w, steps[..k], p, q, g);
    }
  }

  lemma EdgeCanComplete(w: World, p: PeerKey, q: PeerKey, g: GroupId) returns (steps: seq<Step>)
    requires p != q && p in w.nodes && q in w.nodes
    ensures Completes(w, p, q, steps, g) && forall s :: s in steps ==> s.Offer? || s.Receive?
  {
    ReconnectedIsConnected(w, p, q);
    steps := CanSettle(Next(w, Reconnect(p, q)), p, q);
    OnlyExchangeLearnsHere(Next(w, Reconnect(p, q)), steps, p, q, g);
  }

  /** No message is written on the way. */
  ghost predicate WritesNothing(steps: seq<Step>) { forall s :: s in steps ==> !s.Text? && !s.GroupText? }

  lemma {:induction false} WalkCanFinish(w: World, path: seq<PeerKey>, g: GroupId) returns (phases: seq<seq<Step>>)
    requires path != [] && (forall p :: p in path ==> p in w.nodes)
    requires forall k :: 0 <= k < |path| - 1 ==> path[k] != path[k + 1]
    ensures |path| == |phases| + 1 && AllComplete(w, phases, path, g) && WritesNothing(Itinerary(phases, path))
    decreases |path|
  {
    phases := [];
    if |path| > 1 {
      var k := |path| - 2;
      var short := path[..k + 1];
      var front := WalkCanFinish(w, short, g);
      RunKeepsNodes(w, Itinerary(front, short));
      assert path[k] in path && path[k + 1] in path;
      var last := EdgeCanComplete(Run(w, Itinerary(front, short)), path[k], path[k + 1], g);
      phases := front + [last];
      assert phases[..k] == front;
    }
  }

  lemma {:induction false} NothingDrawn(w: World, hs: seq<Step>, steps: seq<Step>)
    requires FreshDraws(w, hs) && WritesNothing(steps)
    ensures FreshDraws(w, hs + steps)
  {
    if steps == [] {
      assert hs + steps == hs;
    } else {
      var k := |steps| - 1;
      assert steps == steps[..k] + [steps[k]];
      NothingDrawn(w, hs, steps[..k]);
      assert (hs + steps)[..|hs| + k] == hs + steps[..k];
    }
  }

  /** After any history there is a way to bring the group and its history along any path of members. */
  lemma AnyPathCanHeal(w: World, hs: seq<Step>, path: seq<PeerKey>, info: GroupInfo)
    requires Empty(w) && FreshDraws(w, hs) && (forall s :: s in hs ==> OneGroup(s, info))
    requires path != [] && (forall p :: p in path ==> p in w.nodes && p in info.members)
    requires (forall k :: 0 <= k < |path| - 1 ==> path[k] != path[k + 1]) && Knows(Run(w, hs), path[0], info.id)
    ensures exists steps :: Reached(Run(w, hs), Run(w, hs + steps), path[0], path, info.id)
  {
    RunKeepsNodes(w, hs);
    var phases := WalkCanFinish(Run(w, hs), path, info.id);
    NothingDrawn(w, hs, Itinerary(phases, path));
    GroupHealsAfterAnyHistory(w, hs, phases, path, info);
  }
}
