/** From an empty start, after any history - messages written and read, groups, frames lost with their
    connections, contacts removed, nodes restarted - two nodes that reconnect and let the exchange finish
    hold the same conversation and see every own message delivered. */
module Reconnection {
  import opened Wire
  import opened Conversations
  import opened Content
  import opened Worlds
  import opened AntiEntropy
  import opened Termination
  import opened Delivery

  // ------------------------------------------------------------------ every message ever written

  function Written(w: World, s: Step, pool: MessageLog): MessageLog
  {
    if !Enabled(w, s) then pool
    else
      match s
      case Text(p, q, id, sentAt, body, _) =>
        pool[id := Authored(ConvoWith(w.nodes[p], q), id, p, sentAt, body, MessageKind.Text)]
      case GroupText(p, g, id, sentAt, body) =>
        pool[id := Authored(GroupConvo(w.nodes[p], g), id, p, sentAt, body, MessageKind.Text)]
      case _ => pool
  }

  function Pool(w: World, steps: seq<Step>): MessageLog
  {
    if steps == [] then map[]
    else
      var k := |steps| - 1;
      Written(Run(w, steps[..k]), steps[k], Pool(w, steps[..k]))
  }

  predicate FreshDraw(s: Step, pool: MessageLog) { s.Text? || s.GroupText? ==> s.id !in pool }

  /** Random message ids never repeat, in direct conversations and groups alike. */
  predicate FreshDraws(w: World, steps: seq<Step>)
  {
    if steps == [] then true
    else
      var k := |steps| - 1;
      FreshDraws(w, steps[..k]) && FreshDraw(steps[k], Pool(w, steps[..k]))
  }

  /** Every message held or in flight is the one written under its id, and only held messages are queued. */
  ghost predicate Genuine(w: World, pool: MessageLog)
  {
    && (forall p :: p in w.nodes ==> GenuineDirect(w.nodes[p], pool) && GenuineGroups(w.nodes[p], pool))
    && (forall x :: x in w.net ==> GenuineFrame(x.frame, pool))
  }

  ghost predicate GenuineDirect(st: State, pool: MessageLog)
  {
    forall q :: BelowLog(ConvoWith(st, q).messages, pool) && QueuedFor(st, q) <= Have(ConvoWith(st, q))
  }

  ghost predicate GenuineGroups(st: State, pool: MessageLog)
  {
    forall g :: BelowLog(GroupConvo(st, g).messages, pool)
  }

  ghost predicate GenuineFrame(f: Frame, pool: MessageLog)
  {
    match f
    case Chat(m) => m.id in pool && pool[m.id] == m
    case GroupMessage(_, m) => m.id in pool && pool[m.id] == m
    case SyncDelta(_, ms, _, _) => AllIn(ms, pool)
    case _ => true
  }

  ghost predicate AllIn(ms: seq<Message>, pool: MessageLog)
  {
    forall m :: m in ms ==> m.id in pool && pool[m.id] == m
  }

  // ------------------------------------------------------------------ handling a frame

  lemma FoldStaysGenuine(c: Convo, ms: seq<Message>, rs: seq<Reaction>, ps: seq<Mark>, pool: MessageLog)
    requires BelowLog(c.messages, pool) && AllIn(ms, pool)
    ensures BelowLog(ApplyDelta(c, ms, rs, ps).messages, pool)
  {
    ApplyAllFrame(c, ms);
    ApplyAllSources(c, ms);
    var log := ApplyAll(c, ms).messages;
    forall id | id in log ensures id in pool && log[id] == pool[id] {
      if id !in c.messages { assert log[id] in ms; }
    }
  }

  /** A handled frame brings in nothing that was not written. */
  lemma ConvoStaysGenuine(st: State, me: PeerKey, peer: PeerKey, f: Frame, pool: MessageLog, q: PeerKey)
    requires BelowLog(ConvoWith(st, q).messages, pool) && GenuineFrame(f, pool)
    ensures BelowLog(ConvoWith(After(st, me, peer, f), q).messages, pool)
  {
    if q != peer {
      HandleLeavesOthers(st, me, peer, f, q);
    } else if IsGroupFrame(f) {
      GroupFramesLeaveDirect(st, me, peer, f);
    } else if f.SyncDelta? {
      DeltaHandled(st, me, peer, f);
      FoldStaysGenuine(ConvoWith(st, peer), f.messages, f.reactions, f.read, pool);
    }
  }

  lemma DirectStaysGenuine(st: State, me: PeerKey, peer: PeerKey, f: Frame, pool: MessageLog)
    requires GenuineDirect(st, pool) && GenuineFrame(f, pool)
    ensures GenuineDirect(After(st, me, peer, f), pool)
  {
    var n := After(st, me, peer, f);
    forall q ensures BelowLog(ConvoWith(n, q).messages, pool) && QueuedFor(n, q) <= Have(ConvoWith(n, q)) {
      ConvoStaysGenuine(st, me, peer, f, pool, q);
      AfterShrinksQueue(st, me, peer, f, q);
      AfterGrows(st, me, peer, f, q);
    }
  }

  lemma GroupDeltaGenuine(st: State, me: PeerKey, peer: PeerKey, f: Frame, pool: MessageLog, g: GroupId)
    requires BelowLog(GroupConvo(st, g).messages, pool) && GenuineFrame(f, pool) && f.SyncDelta?
    ensures BelowLog(GroupConvo(After(st, me, peer, f), g).messages, pool)
  {
    if f.scope == Group(g) && GroupAllows(st, g, peer, me) {
      assert GroupConvo(After(st, me, peer, f), g) == Taking(GroupConvo(st, g), f);
      FoldStaysGenuine(GroupConvo(st, g), f.messages, f.reactions, f.read, pool);
    } else {
      assert GroupConvo(After(st, me, peer, f), g) == GroupConvo(st, g);
    }
  }

  lemma GroupsStayGenuine(st: State, me: PeerKey, peer: PeerKey, f: Frame, pool: MessageLog)
    requires GenuineGroups(st, pool) && GenuineFrame(f, pool)
    ensures GenuineGroups(After(st, me, peer, f), pool)
  {
    forall g ensures BelowLog(GroupConvo(After(st, me, peer, f), g).messages, pool) {
      assert BelowLog(GroupConvo(st, g).messages, pool);
      if f.SyncDelta? { GroupDeltaGenuine(st, me, peer, f, pool, g); }
    }
  }

  lemma DeltaFrameIsGenuine(scope: SyncScope, c: Convo, have: set<MessageId>, pool: MessageLog)
    requires BelowLog(c.messages, pool)
    ensures GenuineFrame(DeltaFrame(scope, c, have), pool)
  {
    assert ListsMessages(DeltaSince(c, have), c.messages, c.messages.Keys - have);
  }

  lemma ReplyIsGenuine(st: State, me: PeerKey, peer: PeerKey, f: Frame, g: Frame, pool: MessageLog)
    requires GenuineDirect(st, pool) && GenuineGroups(st, pool) && g in Replies(st, me, peer, f)
    ensures GenuineFrame(g, pool)
  {
    if f.SyncHave? {
      match f.scope {
        case Direct => DeltaFrameIsGenuine(Direct, ConvoWith(st, peer), IdSet(f.ids), pool);
        case Group(h) => DeltaFrameIsGenuine(f.scope, GroupConvo(st, h), IdSet(f.ids), pool);
      }
    }
  }

  // ------------------------------------------------------------------ steps

  lemma ReceiveStaysGenuine(w: World, i: nat, pool: MessageLog)
    requires Genuine(w, pool) && Enabled(w, Receive(i))
    ensures Genuine(Next(w, Receive(i)), pool)
  {
    var x, n := w.net[i], Next(w, Receive(i));
    var st := w.nodes[x.to];
    assert GenuineFrame(x.frame, pool);
    ReceiveNet(w, i);
    DirectStaysGenuine(st, x.to, x.from, x.frame, pool);
    GroupsStayGenuine(st, x.to, x.from, x.frame, pool);
    forall y | y in n.net ensures GenuineFrame(y.frame, pool) {
      if y !in w.net { ReplyIsGenuine(st, x.to, x.from, x.frame, y.frame, pool); }
    }
  }

  lemma OfferCarriesNothing(st: State, peer: PeerKey, f: Frame)
    requires f in Offers(st, peer)
    ensures f.GroupAnnounce? || f.SyncHave?
  {
    OffersAre(st, peer);
  }

  lemma OfferStaysGenuine(w: World, p: PeerKey, q: PeerKey, pool: MessageLog)
    requires Genuine(w, pool) && Enabled(w, Offer(p, q))
    ensures Genuine(Next(w, Offer(p, q)), pool)
  {
    OfferNet(w, p, q);
    forall y | y in Next(w, Offer(p, q)).net ensures GenuineFrame(y.frame, pool) {
      if y !in w.net { OfferCarriesNothing(w.nodes[p], q, y.frame); }
    }
  }

  lemma PoolGrows(w: World, pool: MessageLog, m: Message)
    requires Genuine(w, pool) && m.id !in pool
    ensures Genuine(w, pool[m.id := m])
  {
    forall p | p in w.nodes
      ensures GenuineDirect(w.nodes[p], pool[m.id := m]) && GenuineGroups(w.nodes[p], pool[m.id := m]) {
      NodePoolGrows(w.nodes[p], pool, m);
    }
    forall x | x in w.net ensures GenuineFrame(x.frame, pool[m.id := m]) {
      FramePoolGrows(x.frame, pool, m);
    }
  }

  lemma LogPoolGrows(log: MessageLog, pool: MessageLog, m: Message)
    requires BelowLog(log, pool) && m.id !in pool
    ensures BelowLog(log, pool[m.id := m])
  {
  }

  lemma NodePoolGrows(st: State, pool: MessageLog, m: Message)
    requires GenuineDirect(st, pool) && GenuineGroups(st, pool) && m.id !in pool
    ensures GenuineDirect(st, pool[m.id := m]) && GenuineGroups(st, pool[m.id := m])
  {
    forall q ensures BelowLog(ConvoWith(st, q).messages, pool[m.id := m]) {
      LogPoolGrows(ConvoWith(st, q).messages, pool, m);
    }
    forall g ensures BelowLog(GroupConvo(st, g).messages, pool[m.id := m]) {
      LogPoolGrows(GroupConvo(st, g).messages, pool, m);
    }
  }

  lemma FramePoolGrows(f: Frame, pool: MessageLog, m: Message)
    requires GenuineFrame(f, pool) && m.id !in pool
    ensures GenuineFrame(f, pool[m.id := m])
  {
  }

  lemma SentStaysGenuine(st: State, q: PeerKey, m: Message, queue: bool, pool: MessageLog)
    requires GenuineDirect(st, pool) && GenuineGroups(st, pool) && m.id in pool && pool[m.id] == m
    ensures GenuineDirect(SendText(st, q, m, queue), pool) && GenuineGroups(SendText(st, q, m, queue), pool)
  {
    var n := SendText(st, q, m, queue);
    assert ConvoWith(n, q) == Insert(ConvoWith(st, q), m);
    forall r ensures BelowLog(ConvoWith(n, r).messages, pool) && QueuedFor(n, r) <= Have(ConvoWith(n, r)) {
      assert BelowLog(ConvoWith(st, r).messages, pool);
    }
    forall g ensures BelowLog(GroupConvo(n, g).messages, pool) {
      assert GroupConvo(n, g) == GroupConvo(st, g) && BelowLog(GroupConvo(st, g).messages, pool);
    }
  }

  lemma TextStaysGenuine(w: World, s: Step, pool: MessageLog)
    requires Genuine(w, pool) && s.Text? && Enabled(w, s) && s.id !in pool
    ensures Genuine(Next(w, s), Written(w, s, pool))
  {
    var m := Authored(ConvoWith(w.nodes[s.p], s.q), s.id, s.p, s.sentAt, s.body, MessageKind.Text);
    var more: MessageLog := pool[m.id := m];
    PoolGrows(w, pool, m);
    SentStaysGenuine(w.nodes[s.p], s.q, m, !s.live, more);
  }

  lemma SentToGroupStaysGenuine(st: State, g: GroupId, m: Message, pool: MessageLog)
    requires GenuineDirect(st, pool) && GenuineGroups(st, pool) && m.id in pool && pool[m.id] == m
    ensures GenuineDirect(SendGroupText(st, g, m), pool) && GenuineGroups(SendGroupText(st, g, m), pool)
  {
    var n := SendGroupText(st, g, m);
    SameDirect(st, n, pool);
    forall h ensures BelowLog(GroupConvo(n, h).messages, pool) {
      assert BelowLog(GroupConvo(st, h).messages, pool);
    }
  }

  lemma SameDirect(st: State, n: State, pool: MessageLog)
    requires GenuineDirect(st, pool) && n.conversations == st.conversations && n.queued == st.queued
    ensures GenuineDirect(n, pool)
  {
    forall q ensures ConvoWith(n, q) == ConvoWith(st, q) && QueuedFor(n, q) == QueuedFor(st, q) {
    }
  }

  lemma GroupTextStaysGenuine(w: World, s: Step, pool: MessageLog)
    requires Genuine(w, pool) && s.GroupText? && Enabled(w, s) && s.id !in pool
    ensures Genuine(Next(w, s), Written(w, s, pool))
  {
    var m := Authored(GroupConvo(w.nodes[s.p], s.g), s.id, s.p, s.sentAt, s.body, MessageKind.Text);
    var more: MessageLog := pool[m.id := m];
    PoolGrows(w, pool, m);
    SentToGroupStaysGenuine(w.nodes[s.p], s.g, m, more);
  }

  /** The node has the same messages as before, or fewer, and queues no more. */
  ghost predicate NothingNew(st: State, n: State)
  {
    && (forall q :: BelowLog(ConvoWith(n, q).messages, ConvoWith(st, q).messages))
    && (forall q :: QueuedFor(n, q) <= QueuedFor(st, q) && QueuedFor(n, q) <= Have(ConvoWith(n, q)))
    && (forall g :: BelowLog(GroupConvo(n, g).messages, GroupConvo(st, g).messages))
  }

  lemma NothingNewStaysGenuine(st: State, n: State, pool: MessageLog)
    requires GenuineDirect(st, pool) && GenuineGroups(st, pool) && NothingNew(st, n)
    ensures GenuineDirect(n, pool) && GenuineGroups(n, pool)
  {
    forall q ensures BelowLog(ConvoWith(n, q).messages, pool) {
      assert BelowLog(ConvoWith(n, q).messages, ConvoWith(st, q).messages) && BelowLog(ConvoWith(st, q).messages, pool);
    }
    forall g ensures BelowLog(GroupConvo(n, g).messages, pool) {
      assert BelowLog(GroupConvo(n, g).messages, GroupConvo(st, g).messages) && BelowLog(GroupConvo(st, g).messages, pool);
    }
  }

  lemma RestartAddsNothing(st: State)
    ensures NothingNew(st, Restarted(st))
  {
    var n := Restarted(st);
    forall q ensures ConvoWith(n, q).messages == ConvoWith(st, q).messages {
      RestartKeepsConvo(st, q);
      assert Obs(ConvoWith(n, q)).messages == Obs(ConvoWith(st, q)).messages;
    }
    forall g ensures GroupConvo(n, g).messages == GroupConvo(st, g).messages {
      RestartKeepsGroup(st, g);
      assert Obs(GroupConvo(n, g)).messages == Obs(GroupConvo(st, g)).messages;
    }
  }

  lemma ForgetAddsNothing(st: State, q: PeerKey, pool: MessageLog)
    requires GenuineDirect(st, pool)
    ensures NothingNew(st, Forgotten(st, q))
  {
    forall r ensures QueuedFor(Forgotten(st, q), r) <= Have(ConvoWith(Forgotten(st, q), r)) {
      assert QueuedFor(st, r) <= Have(ConvoWith(st, r));
    }
  }

  lemma GreetAddsNothing(st: State, q: PeerKey, pool: MessageLog)
    requires GenuineDirect(st, pool)
    ensures NothingNew(st, Greet(st, q))
  {
    forall r ensures ConvoWith(Greet(st, q), r) == ConvoWith(st, r) && QueuedFor(Greet(st, q), r) == QueuedFor(st, r) {
    }
  }

  lemma ReadAddsNothing(st: State, me: PeerKey, q: PeerKey, upTo: Stamp, pool: MessageLog)
    requires GenuineDirect(st, pool)
    ensures NothingNew(st, MarkReadDirect(st, me, q, upTo))
  {
    var n := MarkReadDirect(st, me, q, upTo);
    forall r ensures ConvoWith(n, r).messages == ConvoWith(st, r).messages && QueuedFor(n, r) == QueuedFor(st, r) {
    }
  }

  lemma ReadGroupAddsNothing(st: State, me: PeerKey, g: GroupId, pool: MessageLog)
    requires GenuineDirect(st, pool)
    ensures NothingNew(st, MarkReadGroup(st, me, g))
  {
    var n := MarkReadGroup(st, me, g);
    forall h ensures GroupConvo(n, h).messages == GroupConvo(st, h).messages {
    }
    forall r ensures ConvoWith(n, r) == ConvoWith(st, r) && QueuedFor(n, r) == QueuedFor(st, r) {
    }
  }

  lemma CreateAddsNothing(st: State, info: GroupInfo, pool: MessageLog)
    requires GenuineDirect(st, pool)
    ensures NothingNew(st, CreateGroup(st, info))
  {
    forall r ensures ConvoWith(CreateGroup(st, info), r) == ConvoWith(st, r) {
    }
  }

  /** Steps that write no message: whatever they add to the network carries none. */
  lemma OtherStaysGenuine(w: World, s: Step, pool: MessageLog)
    requires Genuine(w, pool) && Enabled(w, s)
    requires s.NewGroup? || s.ReadUpTo? || s.ReadGroup? || s.Forget? || s.Restart?
    ensures Genuine(Next(w, s), pool)
  {
    var st, n := w.nodes[s.p], Next(w, s).nodes[s.p];
    match s {
      case NewGroup(_, info) => CreateAddsNothing(st, info, pool);
      case ReadUpTo(p, q, upTo) => ReadAddsNothing(st, p, q, upTo, pool);
      case ReadGroup(p, g) => ReadGroupAddsNothing(st, p, g, pool);
      case Forget(_, q) => ForgetAddsNothing(st, q, pool);
      case _ => RestartAddsNothing(st);
    }
    NothingNewStaysGenuine(st, n, pool);
    forall y | y in Next(w, s).net ensures GenuineFrame(y.frame, pool) {
      if y !in w.net { NewFrame(w, s, y); }
    }
  }

  lemma ReconnectStaysGenuine(w: World, p: PeerKey, q: PeerKey, pool: MessageLog)
    requires Genuine(w, pool) && Enabled(w, Reconnect(p, q))
    ensures Genuine(Next(w, Reconnect(p, q)), pool)
  {
    GreetAddsNothing(w.nodes[p], q, pool);
    GreetAddsNothing(w.nodes[q], p, pool);
    NothingNewStaysGenuine(w.nodes[p], Greet(w.nodes[p], q), pool);
    NothingNewStaysGenuine(w.nodes[q], Greet(w.nodes[q], p), pool);
  }

  lemma StepStaysGenuine(w: World, s: Step, pool: MessageLog)
    requires Genuine(w, pool) && FreshDraw(s, pool)
    ensures Genuine(Next(w, s), Written(w, s, pool)) && BelowLog(pool, Written(w, s, pool))
  {
    if Enabled(w, s) {
      match s {
        case Offer(p, q) => OfferStaysGenuine(w, p, q, pool);
        case Receive(i) => ReceiveStaysGenuine(w, i, pool);
        case Text(_, _, _, _, _, _) => TextStaysGenuine(w, s, pool);
        case GroupText(_, _, _, _, _) => GroupTextStaysGenuine(w, s, pool);
        case Reconnect(p, q) => ReconnectStaysGenuine(w, p, q, pool);
        case _ => OtherStaysGenuine(w, s, pool);
      }
    }
  }

  lemma {:induction false} RunStaysGenuine(w: World, steps: seq<Step>)
    requires Empty(w) && FreshDraws(w, steps)
    ensures Genuine(Run(w, steps), Pool(w, steps))
  {
    if steps != [] {
      var k := |steps| - 1;
      RunStaysGenuine(w, steps[..k]);
      StepStaysGenuine(Run(w, steps[..k]), steps[k], Pool(w, steps[..k]));
    }
  }

  lemma WrittenGrows(w: World, s: Step, pool: MessageLog)
    requires FreshDraw(s, pool)
    ensures BelowLog(pool, Written(w, s, pool))
  {
  }

  lemma DrawnEarlier(s: Step, small: MessageLog, large: MessageLog)
    requires FreshDraw(s, large) && BelowLog(small, large)
    ensures FreshDraw(s, small)
  {
  }

  lemma OneMoreDraw(w: World, steps: seq<Step>, s: Step)
    requires FreshDraws(w, steps + [s])
    ensures FreshDraws(w, steps) && FreshDraw(s, Pool(w, steps)) && BelowLog(Pool(w, steps), Pool(w, steps + [s]))
  {
    assert (steps + [s])[..|steps|] == steps;
    WrittenGrows(Run(w, steps), s, Pool(w, steps));
  }

  lemma {:induction false} PoolAdds(w: World, front: seq<Step>, back: seq<Step>)
    requires FreshDraws(w, front + back)
    ensures FreshDraws(w, front) && BelowLog(Pool(w, front), Pool(w, front + back))
    ensures forall s :: s in back ==> FreshDraw(s, Pool(w, front))
  {
    if back == [] {
      assert front + back == front;
    } else {
      var k := |back| - 1;
      var less := front + back[..k];
      assert front + back == less + [back[k]] && back == back[..k] + [back[k]];
      OneMoreDraw(w, less, back[k]);
      PoolAdds(w, front, back[..k]);
      DrawnEarlier(back[k], Pool(w, front), Pool(w, less));
    }
  }

  // ------------------------------------------------------------------ healing after any history

  /** Random ids are all it takes: in every reachable world all nodes agree on shared messages, direct ones... */
  lemma ReachableAgree(w: World, steps: seq<Step>, a: PeerKey, b: PeerKey, p: PeerKey, q: PeerKey)
    requires Empty(w) && FreshDraws(w, steps) && a in w.nodes && b in w.nodes
    ensures a in Run(w, steps).nodes && b in Run(w, steps).nodes
    ensures Agree(C(Run(w, steps), a, p).messages, C(Run(w, steps), b, q).messages)
  {
    RunKeepsNodes(w, steps);
    RunStaysGenuine(w, steps);
    var n := Run(w, steps);
    assert BelowLog(C(n, a, p).messages, Pool(w, steps)) && BelowLog(C(n, b, q).messages, Pool(w, steps));
  }

  /** ... and those of groups. */
  lemma ReachableGroupsAgree(w: World, steps: seq<Step>, a: PeerKey, b: PeerKey, g: GroupId, h: GroupId)
    requires Empty(w) && FreshDraws(w, steps) && a in w.nodes && b in w.nodes
    ensures a in Run(w, steps).nodes && b in Run(w, steps).nodes
    ensures Agree(GroupConvo(Run(w, steps).nodes[a], g).messages, GroupConvo(Run(w, steps).nodes[b], h).messages)
  {
    RunKeepsNodes(w, steps);
    RunStaysGenuine(w, steps);
    var n := Run(w, steps);
    assert BelowLog(GroupConvo(n.nodes[a], g).messages, Pool(w, steps));
    assert BelowLog(GroupConvo(n.nodes[b], h).messages, Pool(w, steps));
  }

  lemma ReconnectedIsConnected(w: World, a: PeerKey, b: PeerKey)
    requires a != b && a in w.nodes && b in w.nodes
    ensures var v := Next(w, Reconnect(a, b));
      Connected(v, a, b) && C(v, a, b) == C(w, a, b) && C(v, b, a) == C(w, b, a)
  {
  }

  /** The two replicas are equal, hold what either held when they reconnected and nothing else; every own
      message shows as Delivered and nothing is queued any more. */
  ghost predicate Healed(u: World, n: World, a: PeerKey, b: PeerKey)
  {
    && a in u.nodes && b in u.nodes && Pair(n, a, b)
    && Obs(C(n, a, b)) == Join(Obs(C(u, a, b)), Obs(C(u, b, a))) && Obs(C(n, b, a)) == Obs(C(n, a, b))
    && AllShownDelivered(n.nodes[a], a, b) && QueuedFor(n.nodes[a], b) == {}
    && AllShownDelivered(n.nodes[b], b, a) && QueuedFor(n.nodes[b], a) == {}
  }

  lemma ConnectedHeals(v: World, steps: seq<Step>, a: PeerKey, b: PeerKey, pool: MessageLog)
    requires Connected(v, a, b) && Genuine(v, pool) && Quiet(steps, a, b)
    requires Agree(C(v, a, b).messages, C(v, b, a).messages) && Settled(Run(v, steps), a, b)
    ensures Healed(v, Run(v, steps), a, b)
  {
    assert GenuineDirect(v.nodes[a], pool) && GenuineDirect(v.nodes[b], pool);
    Convergence(v, steps, a, b);
    DeliveryComplete(v, steps, a, b);
    DeliveryComplete(v, steps, b, a);
  }

  /** The whole promise, with no assumption on the state they meet in beyond having got there: after any
      history, and whatever everybody else does during the exchange. */
  lemma ReconnectHeals(w: World, hs: seq<Step>, steps: seq<Step>, a: PeerKey, b: PeerKey)
    requires Empty(w) && FreshDraws(w, hs) && a != b && a in w.nodes && b in w.nodes && Quiet(steps, a, b)
    requires Settled(Run(Next(Run(w, hs), Reconnect(a, b)), steps), a, b)
    ensures Healed(Run(w, hs), Run(Next(Run(w, hs), Reconnect(a, b)), steps), a, b)
  {
    var u := Run(w, hs);
    var v := Next(u, Reconnect(a, b));
    RunStaysGenuine(w, hs);
    ReachableAgree(w, hs, a, b, b, a);
    ReconnectedIsConnected(u, a, b);
    ReconnectStaysGenuine(u, a, b, Pool(w, hs));
    ConnectedHeals(v, steps, a, b, Pool(w, hs));
  }

  /** Each side has all that either had, messages unchanged, and has heard that the other has it too. */
  ghost predicate CaughtUpBoth(u: World, n: World, a: PeerKey, b: PeerKey)
  {
    && a in u.nodes && b in u.nodes && Pair(n, a, b)
    && Below(Join(Obs(C(u, a, b)), Obs(C(u, b, a))), Obs(C(n, a, b)))
    && Below(Join(Obs(C(u, a, b)), Obs(C(u, b, a))), Obs(C(n, b, a)))
    && (forall id :: id in Have(C(u, a, b)) + Have(C(u, b, a)) ==> Acked(n.nodes[a], b, id) && Acked(n.nodes[b], a, id))
  }

  lemma HasAllGenuine(c: Convo, own: View, other: View, pool: MessageLog)
    requires BelowLog(c.messages, pool) && BelowLog(other.messages, pool) && Below(own, Obs(c)) && HasAll(c, other)
    ensures Below(Join(own, other), Obs(c)) && Below(Join(other, own), Obs(c))
  {
    forall id | id in other.messages ensures id in c.messages && other.messages[id] == c.messages[id] {
      assert pool[id] == c.messages[id];
    }
    JoinIsLeast(own, other, Obs(c));
    JoinIsLeast(other, own, Obs(c));
  }

  /** And if the two go on writing to each other meanwhile, nothing of what they met with is lost. */
  lemma ReconnectKeepsAll(w: World, hs: seq<Step>, steps: seq<Step>, a: PeerKey, b: PeerKey)
    requires Empty(w) && FreshDraws(w, hs + ([Reconnect(a, b)] + steps))
    requires a != b && a in w.nodes && b in w.nodes && Unbroken(steps, a, b)
    requires Settled(Run(w, hs + ([Reconnect(a, b)] + steps)), a, b)
    ensures CaughtUpBoth(Run(w, hs), Run(w, hs + ([Reconnect(a, b)] + steps)), a, b)
  {
    var whole := hs + ([Reconnect(a, b)] + steps);
    RunKeepsNodes(w, hs);
    ReconnectedIsConnected(Run(w, hs), a, b);
    RunThrough(w, hs, Reconnect(a, b), steps);
    PoolAdds(w, hs, [Reconnect(a, b)] + steps);
    RunStaysGenuine(w, hs);
    RunStaysGenuine(w, whole);
    KeptAll(Run(w, hs), Next(Run(w, hs), Reconnect(a, b)), Run(w, whole), steps, a, b, Pool(w, hs), Pool(w, whole));
  }

  lemma RunThrough(w: World, hs: seq<Step>, s: Step, steps: seq<Step>)
    ensures Run(w, hs + ([s] + steps)) == Run(Next(Run(w, hs), s), steps)
  {
    assert hs + ([s] + steps) == hs + [s] + steps;
    RunOn(w, hs, s);
    RunAdds(w, hs + [s], steps);
  }

  lemma KeptAll(u: World, v: World, n: World, steps: seq<Step>, a: PeerKey, b: PeerKey, before: MessageLog, after: MessageLog)
    requires Connected(v, a, b) && n == Run(v, steps) && Unbroken(steps, a, b) && Settled(n, a, b)
    requires a in u.nodes && b in u.nodes && C(v, a, b) == C(u, a, b) && C(v, b, a) == C(u, b, a)
    requires Genuine(u, before) && Genuine(n, after) && BelowLog(before, after)
    requires forall s :: s in [Reconnect(a, b)] + steps ==> FreshDraw(s, before)
    ensures CaughtUpBoth(u, n, a, b)
  {
    NothingDropped(v, steps, a, b);
    KeptMessages(u, n, a, b, before, after);
    KeptMessages(u, n, b, a, before, after);
    AllAcked(u, v, steps, a, b, before);
    AllAcked(u, v, steps, b, a, before);
  }

  lemma KeptMessages(u: World, n: World, a: PeerKey, b: PeerKey, before: MessageLog, after: MessageLog)
    requires a in u.nodes && b in u.nodes && a in n.nodes
    requires Genuine(u, before) && Genuine(n, after) && BelowLog(before, after)
    requires Below(Obs(C(u, a, b)), Obs(C(n, a, b))) && HasAll(C(n, a, b), Obs(C(u, b, a)))
    ensures Below(Join(Obs(C(u, a, b)), Obs(C(u, b, a))), Obs(C(n, a, b)))
    ensures Below(Join(Obs(C(u, b, a)), Obs(C(u, a, b))), Obs(C(n, a, b)))
  {
    assert GenuineDirect(u.nodes[b], before) && BelowLog(C(u, b, a).messages, before);
    assert GenuineDirect(n.nodes[a], after) && BelowLog(C(n, a, b).messages, after);
    HasAllGenuine(C(n, a, b), Obs(C(u, a, b)), Obs(C(u, b, a)), after);
  }

  lemma AllAcked(u: World, v: World, steps: seq<Step>, a: PeerKey, b: PeerKey, before: MessageLog)
    requires Connected(v, a, b) && Unbroken(steps, a, b) && Settled(Run(v, steps), a, b)
    requires a in u.nodes && b in u.nodes && C(v, a, b) == C(u, a, b) && C(v, b, a) == C(u, b, a) && Genuine(u, before)
    requires forall s :: s in steps ==> FreshDraw(s, before)
    ensures a in Run(v, steps).nodes
    ensures forall id :: id in Have(C(u, a, b)) + Have(C(u, b, a)) ==> Acked(Run(v, steps).nodes[a], b, id)
  {
    RunKeepsNodes(v, steps);
    assert GenuineDirect(u.nodes[a], before) && GenuineDirect(u.nodes[b], before);
    assert BelowLog(C(u, a, b).messages, before) && BelowLog(C(u, b, a).messages, before);
    forall id | id in Have(C(u, a, b)) + Have(C(u, b, a)) ensures Acked(Run(v, steps).nodes[a], b, id) {
      EarlierDelivered(v, steps, a, b, id);
    }
  }

  // ------------------------------------------------------------------ and it can always finish

  /** Nothing happens but the exchange between the two. */
  predicate OnlyExchange(w: World, steps: seq<Step>, a: PeerKey, b: PeerKey)
  {
    if steps == [] then true
    else
      var k := |steps| - 1;
      OnlyExchange(w, steps[..k], a, b) && Exchanges(Run(w, steps[..k]), steps[k], a, b)
  }

  lemma {:induction false} OnlyExchangeIsQuiet(w: World, steps: seq<Step>, a: PeerKey, b: PeerKey)
    requires OnlyExchange(w, steps, a, b)
    ensures Quiet(steps, a, b)
  {
    if steps != [] {
      var k := |steps| - 1;
      assert steps == steps[..k] + [steps[k]];
      OnlyExchangeIsQuiet(w, steps[..k], a, b);
    }
  }

  lemma OneMore(w: World, done: seq<Step>, s: Step, a: PeerKey, b: PeerKey)
    requires OnlyExchange(w, done, a, b) && Exchanges(Run(w, done), s, a, b)
    ensures OnlyExchange(w, done + [s], a, b) && Run(w, done + [s]) == Next(Run(w, done), s)
  {
    assert (done + [s])[..|done|] == done;
    RunOn(w, done, s);
  }

  /** Delivering what is in flight between the two, in whatever order it is picked, comes to an end. */
  lemma {:induction false} Drains(w: World, done: seq<Step>, a: PeerKey, b: PeerKey, all: set<MessageId>) returns (steps: seq<Step>)
    requires Closed(Run(w, done), a, b, all) && OnlyExchange(w, done, a, b)
    ensures OnlyExchange(w, steps, a, b) && Drained(Run(w, steps), a, b)
    ensures Run(w, steps).offered == Run(w, done).offered
    decreases Budget(Run(w, done), a, b, all)
  {
    steps := done;
    var v := Run(w, done);
    if !Drained(v, a, b) {
      var x :| x in v.net && Between(x, a, b);
      var i :| 0 <= i < |v.net| && v.net[i] == x;
      ReceiveSpends(v, i, a, b, all);
      ReceiveNet(v, i);
      OneMore(w, done, Receive(i), a, b);
      steps := Drains(w, done + [Receive(i)], a, b, all);
    }
  }

  lemma Started(w: World, a: PeerKey, b: PeerKey) returns (steps: seq<Step>)
    requires Connected(w, a, b)
    ensures OnlyExchange(w, steps, a, b) && Run(w, steps).nodes == w.nodes
    ensures Link(a, b) in Run(w, steps).offered && Link(b, a) in Run(w, steps).offered
  {
    OfferNet(w, a, b);
    OfferNet(Next(w, Offer(a, b)), b, a);
    assert OnlyExchange(w, [], a, b) && Run(w, []) == w;
    OneMore(w, [], Offer(a, b), a, b);
    OneMore(w, [] + [Offer(a, b)], Offer(b, a), a, b);
    steps := [] + [Offer(a, b)] + [Offer(b, a)];
  }

  lemma CanSettle(w: World, a: PeerKey, b: PeerKey) returns (steps: seq<Step>)
    requires Connected(w, a, b)
    ensures OnlyExchange(w, steps, a, b) && Settled(Run(w, steps), a, b)
  {
    var done := Started(w, a, b);
    var n := Run(w, done);
    UniverseClosed(n, a, b);
    steps := Drains(w, done, a, b, Universe(n, a, b));
  }

  /** After any history, any two nodes that reconnect can finish the exchange, and then are healed. */
  lemma AnyHistoryCanHeal(w: World, hs: seq<Step>, a: PeerKey, b: PeerKey)
    requires Empty(w) && FreshDraws(w, hs) && a != b && a in w.nodes && b in w.nodes
    ensures exists steps :: Quiet(steps, a, b) && Healed(Run(w, hs), Run(Next(Run(w, hs), Reconnect(a, b)), steps), a, b)
  {
    RunKeepsNodes(w, hs);
    var v := Next(Run(w, hs), Reconnect(a, b));
    ReconnectedIsConnected(Run(w, hs), a, b);
    var steps := CanSettle(v, a, b);
    OnlyExchangeIsQuiet(v, steps, a, b);
    ReconnectHeals(w, hs, steps, a, b);
    assert Quiet(steps, a, b) && Healed(Run(w, hs), Run(v, steps), a, b);
  }
}
