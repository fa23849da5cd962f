/** The sync exchange between two nodes: whatever order its frames arrive in, once it has drained both
    replicas hold exactly the join of what they started with. */
module AntiEntropy {
  import opened Wire
  import opened Ordering
  import opened Conversations
  import opened Content
  import opened Worlds

  // ------------------------------------------------------------------ direct sync frames

  predicate IsHave(f: Frame) { f.SyncHave? && f.scope == Direct }

  predicate IsDelta(f: Frame) { f.SyncDelta? && f.scope == Direct }

  ghost predicate Names(f: Frame, id: MessageId)
    requires f.SyncDelta?
  {
    exists m :: m in f.messages && m.id == id
  }

  ghost predicate CarriesId(f: Frame, id: MessageId) { IsDelta(f) && Names(f, id) }

  ghost predicate DeltaBelow(f: Frame, top: View)
    requires f.SyncDelta?
  {
    && (forall m :: m in f.messages ==> m.id in top.messages && top.messages[m.id] == m)
    && (forall r :: r in f.reactions ==> r in top.reactions)
    && (forall p :: p in f.read ==> p.author in top.read && p.lamport <= top.read[p.author])
  }

  ghost predicate DeltaCarries(f: Frame, low: View)
    requires f.SyncDelta?
  {
    && (forall r :: r in low.reactions ==> r in f.reactions)
    && (forall a :: a in low.read ==> exists p :: p in f.read && p.author == a && low.read[a] <= p.lamport)
  }

  /** The reactions and watermarks of `low` have arrived in `c`. */
  ghost predicate CaughtUp(c: Convo, low: View)
  {
    low.reactions <= c.reactions && BelowRead(low.read, c.read)
  }

  function Taking(c: Convo, f: Frame): Convo
    requires f.SyncDelta?
  {
    ApplyDelta(c, f.messages, f.reactions, f.read)
  }

  lemma TakingStaysBelow(c: Convo, f: Frame, top: View)
    requires IsDelta(f) && DeltaBelow(f, top) && Below(Obs(c), top)
    ensures Below(Obs(Taking(c, f)), top)
  {
    ApplyAllFrame(c, f.messages);
    ApplyAllSources(c, f.messages);
    RaiseMarksIs(c.read, f.read);
    var d := Taking(c, f);
    forall id | id in d.messages ensures id in top.messages && d.messages[id] == top.messages[id] {
      if id !in c.messages { assert d.messages[id] in f.messages; }
    }
  }

  lemma RaisedPast(read: map<AuthorId, Stamp>, ps: seq<Mark>, low: map<AuthorId, Stamp>)
    requires forall a :: a in low ==> exists p :: p in ps && p.author == a && low[a] <= p.lamport
    ensures BelowRead(low, RaiseMarks(read, ps))
  {
    RaiseMarksIs(read, ps);
    var raised := RaiseMarks(read, ps);
    forall a | a in low ensures a in raised && low[a] <= raised[a] {
      var p :| p in ps && p.author == a && low[a] <= p.lamport;
      assert p.lamport <= raised[p.author];
    }
  }

  lemma TakingCatchesUp(c: Convo, f: Frame, low: View)
    requires f.SyncDelta? && DeltaCarries(f, low)
    ensures CaughtUp(Taking(c, f), low)
  {
    ApplyAllFrame(c, f.messages);
    RaisedPast(c.read, f.read, low.read);
  }

  lemma TakingAddsIds(c: Convo, f: Frame)
    requires IsDelta(f)
    ensures forall id :: CarriesId(f, id) ==> id in Have(Taking(c, f))
    ensures Added(c, f.messages) == 0 ==> Have(Taking(c, f)) == Have(c)
  {
    ApplyAllFrame(c, f.messages);
    ApplyAllSources(c, f.messages);
    SetGrows(c.messages.Keys, ApplyAll(c, f.messages).messages.Keys);
  }

  /** A delta answers a have-list with all that is missing and everything of the rest. */
  lemma DeltaFrameIs(scope: SyncScope, c: Convo, have: set<MessageId>, low: View, top: View)
    requires Below(low, Obs(c)) && Below(Obs(c), top)
    ensures var f := DeltaFrame(scope, c, have);
      && f.scope == scope && DeltaBelow(f, top) && DeltaCarries(f, low)
      && forall id :: id in Have(c) && id !in have ==> Names(f, id)
  {
    var ms, rs, ps := DeltaSince(c, have), ReactionList(c), ReadList(c);
    ListedDelta(scope, c, have, ms, rs, ps, low, top);
  }

  lemma ListedDelta(scope: SyncScope, c: Convo, have: set<MessageId>, ms: seq<Message>, rs: seq<Reaction>, ps: seq<Mark>,
                    low: View, top: View)
    requires ListsMessages(ms, c.messages, c.messages.Keys - have)
    requires SameElements(rs, c.reactions) && ListsMarks(ps, c.read)
    requires Below(low, Obs(c)) && Below(Obs(c), top)
    ensures var f := SyncDelta(scope, ms, rs, ps);
      && DeltaBelow(f, top) && DeltaCarries(f, low)
      && forall id :: id in Have(c) && id !in have ==> Names(f, id)
  {
    var f := SyncDelta(scope, ms, rs, ps);
    forall a | a in low.read ensures exists p :: p in ps && p.author == a && low.read[a] <= p.lamport {
      assert Mark(a, c.read[a]) in ps;
    }
    forall id | id in Have(c) && id !in have ensures Names(f, id) {
      assert c.messages[id] in ms;
    }
  }

  // ------------------------------------------------------------------ the invariant of one direction

  function C(w: World, a: PeerKey, b: PeerKey): Convo
    requires a in w.nodes
  {
    ConvoWith(w.nodes[a], b)
  }

  ghost predicate Pair(w: World, a: PeerKey, b: PeerKey)
  {
    a != b && a in w.nodes && b in w.nodes && b in w.nodes[a].conversations && a in w.nodes[b].conversations
  }

  /** Every direct have-list from `a` to `b` is true of what `a` holds. */
  ghost predicate ListsTrue(net: seq<Packet>, a: PeerKey, b: PeerKey, ca: Convo)
  {
    forall x :: x in net && x.from == a && x.to == b && IsHave(x.frame) ==> IdSet(x.frame.ids) <= Have(ca)
  }

  /** A have-list is on its way from `b` to `a`, or will be once `b` makes its offer. */
  ghost predicate Asking(w: World, a: PeerKey, b: PeerKey)
  {
    Link(b, a) !in w.offered || exists x :: x in w.net && x.from == b && x.to == a && IsHave(x.frame)
  }

  /** A delta carrying `id` is on its way from `a` to `b`. */
  ghost predicate Sending(w: World, a: PeerKey, b: PeerKey, id: MessageId)
  {
    exists x :: x in w.net && x.from == a && x.to == b && CarriesId(x.frame, id)
  }

  ghost predicate SendingAny(w: World, a: PeerKey, b: PeerKey)
  {
    exists x :: x in w.net && x.from == a && x.to == b && IsDelta(x.frame)
  }

  ghost predicate DeltasCarry(w: World, a: PeerKey, b: PeerKey, low: View)
  {
    forall x :: x in w.net && x.from == a && x.to == b && IsDelta(x.frame) ==> DeltaCarries(x.frame, low)
  }

  /** What `a` started with (`low`) has reached `cb` at `b`, or the frame that will bring it is on its way. */
  ghost predicate Flow(w: World, a: PeerKey, b: PeerKey, ca: Convo, cb: Convo, low: View)
  {
    && Below(low, Obs(ca)) && DeltasCarry(w, a, b, low)
    && (forall id :: id in low.messages ==> id in Have(cb) || Asking(w, a, b) || Sending(w, a, b, id))
    && (CaughtUp(cb, low) || Asking(w, a, b) || SendingAny(w, a, b))
  }

  /** What each side started with is still on its way to the other, or there. */
  ghost predicate FlowInv(w: World, a: PeerKey, b: PeerKey, lowA: View, lowB: View)
  {
    && Pair(w, a, b)
    && ListsTrue(w.net, a, b, C(w, a, b)) && Flow(w, a, b, C(w, a, b), C(w, b, a), lowA)
    && ListsTrue(w.net, b, a, C(w, b, a)) && Flow(w, b, a, C(w, b, a), C(w, a, b), lowB)
  }

  ghost predicate FrameInside(f: Frame, top: View)
  {
    !f.Chat? && !f.Read? && (IsDelta(f) ==> DeltaBelow(f, top))
  }

  /** Neither side holds, or is being sent, anything beyond `top`. */
  ghost predicate Inside(w: World, a: PeerKey, b: PeerKey, top: View)
  {
    && Pair(w, a, b) && Below(Obs(C(w, a, b)), top) && Below(Obs(C(w, b, a)), top)
    && forall x :: x in w.net && Between(x, a, b) ==> FrameInside(x.frame, top)
  }

  // ------------------------------------------------------------------ steps that are not part of the exchange

  /** Both conversations may have grown, but the frames of the exchange are the same. */
  ghost predicate Undisturbed(w: World, n: World, a: PeerKey, b: PeerKey)
  {
    && Pair(w, a, b) && Pair(n, a, b)
    && Below(Obs(C(w, a, b)), Obs(C(n, a, b))) && Below(Obs(C(w, b, a)), Obs(C(n, b, a)))
    && (Link(a, b) in n.offered <==> Link(a, b) in w.offered)
    && (Link(b, a) in n.offered <==> Link(b, a) in w.offered)
    && (forall x :: x in w.net && Between(x, a, b) ==> x in n.net)
    && (forall x :: x in n.net && Between(x, a, b) ==> x in w.net || (!IsHave(x.frame) && !IsDelta(x.frame)))
  }

  /** And the two conversations are the same, with at most group frames new between the two. */
  ghost predicate Silent(w: World, n: World, a: PeerKey, b: PeerKey)
  {
    && Undisturbed(w, n, a, b)
    && C(n, a, b) == C(w, a, b) && C(n, b, a) == C(w, b, a)
    && (forall x :: x in n.net && Between(x, a, b) ==> x in w.net || IsGroupFrame(x.frame))
  }

  lemma UndisturbedKeepsFlow(w: World, n: World, a: PeerKey, b: PeerKey, lowA: View, lowB: View)
    requires FlowInv(w, a, b, lowA, lowB) && Undisturbed(w, n, a, b)
    ensures FlowInv(n, a, b, lowA, lowB)
  {
    FlowGrows(w, n, a, b, C(w, a, b), C(n, a, b), C(w, b, a), C(n, b, a), lowA);
    FlowGrows(w, n, b, a, C(w, b, a), C(n, b, a), C(w, a, b), C(n, a, b), lowB);
  }

  lemma FlowGrows(w: World, n: World, a: PeerKey, b: PeerKey, ca: Convo, ca': Convo, cb: Convo, cb': Convo, low: View)
    requires Flow(w, a, b, ca, cb, low) && Below(Obs(ca), Obs(ca')) && Below(Obs(cb), Obs(cb'))
    requires Link(b, a) in n.offered <==> Link(b, a) in w.offered
    requires forall x :: x in w.net && Between(x, a, b) ==> x in n.net
    requires forall x :: x in n.net && Between(x, a, b) ==> x in w.net || (!IsHave(x.frame) && !IsDelta(x.frame))
    ensures Flow(n, a, b, ca', cb', low)
  {
    BelowTransitive(low, Obs(ca), Obs(ca'));
    assert Asking(w, a, b) ==> Asking(n, a, b);
    forall id | Sending(w, a, b, id) ensures Sending(n, a, b, id) { }
    assert SendingAny(w, a, b) ==> SendingAny(n, a, b);
    assert CaughtUp(cb, low) ==> CaughtUp(cb', low);
  }

  lemma SilentKeepsInside(w: World, n: World, a: PeerKey, b: PeerKey, top: View)
    requires Inside(w, a, b, top) && Silent(w, n, a, b)
    ensures Inside(n, a, b, top)
  {
  }

  /** The step is an offer of one of the two to the other, or hands over a frame between them. */
  predicate Exchanges(w: World, s: Step, a: PeerKey, b: PeerKey)
  {
    match s
    case Offer(p, q) => (p == a && q == b) || (p == b && q == a)
    case Receive(i) => i < |w.net| && Between(w.net[i], a, b)
    case _ => false
  }

  /** A step that breaks the connection between the two, or makes one of them forget the other. */
  predicate Breaks(s: Step, a: PeerKey, b: PeerKey) { Cuts(s, a, b) || Forgets(s, a, b) }

  lemma PairStays(w: World, s: Step, a: PeerKey, b: PeerKey)
    requires Pair(w, a, b) && !Breaks(s, a, b)
    ensures Pair(Next(w, s), a, b)
  {
    if Enabled(w, s) {
      match s {
        case Receive(i) =>
          ConversationsStay(w.nodes[w.net[i].to], w.net[i].to, w.net[i].from, w.net[i].frame, a);
          ConversationsStay(w.nodes[w.net[i].to], w.net[i].to, w.net[i].from, w.net[i].frame, b);
        case Restart(p) =>
          RestartKeepsConvo(w.nodes[p], a);
          RestartKeepsConvo(w.nodes[p], b);
        case _ =>
      }
    }
  }

  /** A frame that is new between the two although the step is not part of their exchange. */
  lemma OutsideFrame(w: World, s: Step, a: PeerKey, b: PeerKey, x: Packet)
    requires !Exchanges(w, s, a, b) && x in Next(w, s).net && x !in w.net && Between(x, a, b)
    ensures !IsHave(x.frame) && !IsDelta(x.frame) && (!Writes(s, a, b) ==> IsGroupFrame(x.frame))
  {
    NewFrame(w, s, x);
  }

  lemma OutsideNet(w: World, s: Step, a: PeerKey, b: PeerKey)
    requires !Breaks(s, a, b) && !Exchanges(w, s, a, b)
    ensures var n := Next(w, s);
      && (Link(a, b) in n.offered <==> Link(a, b) in w.offered) && (Link(b, a) in n.offered <==> Link(b, a) in w.offered)
      && (forall x :: x in w.net && Between(x, a, b) ==> x in n.net)
  {
    forall x | x in w.net && Between(x, a, b) ensures x in Next(w, s).net {
      if s.Receive? && Enabled(w, s) { assert w.net[s.i] != x; }
      Persists(w, s, x);
    }
  }

  lemma OutsideConvo(w: World, s: Step, a: PeerKey, b: PeerKey)
    requires Pair(w, a, b) && !Breaks(s, a, b) && !Exchanges(w, s, a, b) && !Writes(s, a, b)
    ensures a in Next(w, s).nodes && C(Next(w, s), a, b) == C(w, a, b)
  {
    if Enabled(w, s) {
      match s {
        case Receive(i) =>
          var x := w.net[i];
          if x.to == a { HandleLeavesOthers(w.nodes[a], a, x.from, x.frame, b); }
        case _ =>
      }
    }
  }

  /** Whatever else happens on the network, the exchange goes on. */
  lemma OutsideIsUndisturbed(w: World, s: Step, a: PeerKey, b: PeerKey)
    requires Pair(w, a, b) && !Breaks(s, a, b) && !Exchanges(w, s, a, b)
    ensures Undisturbed(w, Next(w, s), a, b)
  {
    PairStays(w, s, a, b);
    OutsideNet(w, s, a, b);
    ConvoGrows(w, s, a, b);
    ConvoGrows(w, s, b, a);
    forall x | x in Next(w, s).net && Between(x, a, b) && x !in w.net ensures !IsHave(x.frame) && !IsDelta(x.frame) {
      OutsideFrame(w, s, a, b, x);
    }
  }

  lemma OutsideIsSilent(w: World, s: Step, a: PeerKey, b: PeerKey)
    requires Pair(w, a, b) && !Breaks(s, a, b) && !Exchanges(w, s, a, b) && !Writes(s, a, b)
    ensures Silent(w, Next(w, s), a, b)
  {
    OutsideIsUndisturbed(w, s, a, b);
    OutsideConvo(w, s, a, b);
    OutsideConvo(w, s, b, a);
    forall x | x in Next(w, s).net && Between(x, a, b) && x !in w.net ensures IsGroupFrame(x.frame) {
      OutsideFrame(w, s, a, b, x);
    }
  }

  // ------------------------------------------------------------------ steps of the exchange

  lemma OfferFrames(st: State, peer: PeerKey, f: Frame)
    requires f in Offers(st, peer)
    ensures !f.Chat? && !f.Read? && !IsDelta(f)
    ensures IsHave(f) ==> IdSet(f.ids) == Have(ConvoWith(st, peer))
  {
    OffersAre(st, peer);
    HaveFrameIds(Direct, ConvoWith(st, peer));
  }

  lemma HaveFrameIds(scope: SyncScope, c: Convo)
    ensures HaveFrame(scope, c).SyncHave? && IdSet(HaveFrame(scope, c).ids) == Have(c)
  {
  }

  lemma OfferKeepsFlow(w: World, a: PeerKey, b: PeerKey, lowA: View, lowB: View)
    requires FlowInv(w, a, b, lowA, lowB)
    ensures FlowInv(Next(w, Offer(a, b)), a, b, lowA, lowB)
  {
    var n := Next(w, Offer(a, b));
    OfferNet(w, a, b);
    forall f | f in Offers(w.nodes[a], b) ensures !IsDelta(f) && (IsHave(f) ==> IdSet(f.ids) <= Have(C(w, a, b))) {
      OfferFrames(w.nodes[a], b, f);
    }
    OffersAre(w.nodes[a], b);
    OfferedKeepsFlow(w, n, a, b, HaveFrame(Direct, C(w, a, b)), C(w, a, b), C(w, b, a), lowA, lowB);
  }

  lemma OfferKeepsInside(w: World, a: PeerKey, b: PeerKey, top: View)
    requires Inside(w, a, b, top)
    ensures Inside(Next(w, Offer(a, b)), a, b, top)
  {
    OfferNet(w, a, b);
    forall f | f in Offers(w.nodes[a], b) ensures FrameInside(f, top) {
      OfferFrames(w.nodes[a], b, f);
    }
  }

  lemma OfferedKeepsFlow(w: World, n: World, a: PeerKey, b: PeerKey, have: Frame, ca: Convo, cb: Convo, lowA: View, lowB: View)
    requires a != b && Flow(w, a, b, ca, cb, lowA) && Flow(w, b, a, cb, ca, lowB)
    requires IsHave(have) && Packet(a, b, have) in n.net && n.offered == w.offered + {Link(a, b)}
    requires forall y :: y in w.net ==> y in n.net
    requires forall y :: y in n.net ==> y in w.net || (y.from == a && y.to == b && !IsDelta(y.frame))
    ensures Flow(n, a, b, ca, cb, lowA) && Flow(n, b, a, cb, ca, lowB)
  {
    assert Asking(n, b, a);
    assert Asking(w, a, b) ==> Asking(n, a, b);
    forall id | Sending(w, a, b, id) ensures Sending(n, a, b, id) { }
    assert SendingAny(w, a, b) ==> SendingAny(n, a, b);
  }

  /** `n` is `w` after `a` handled `x` from `b`, answering with `replies`. */
  ghost predicate Arrived(w: World, n: World, x: Packet, replies: seq<Frame>, a: PeerKey, b: PeerKey)
  {
    && a != b && x in w.net && x.from == b && x.to == a
    && n.offered == w.offered
    && (forall y :: y in w.net && y != x ==> y in n.net)
    && (forall f :: f in replies ==> Packet(a, b, f) in n.net)
    && (forall y :: y in n.net ==> y in w.net || (y.from == a && y.to == b && y.frame in replies))
  }

  /** One of the frames is a delta bringing every id of `low` that `cb` lacks. */
  ghost predicate Brings(replies: seq<Frame>, cb: Convo, low: View)
  {
    exists f :: f in replies && BringsMissing(f, cb, low)
  }

  ghost predicate BringsMissing(f: Frame, cb: Convo, low: View)
  {
    IsDelta(f) && forall id :: id in low.messages && id !in Have(cb) ==> CarriesId(f, id)
  }

  /** The receiver's own data stays on its way: a have-list that arrives is answered by a delta. */
  lemma ArrivalKeepsOutflow(w: World, n: World, x: Packet, replies: seq<Frame>, a: PeerKey, b: PeerKey,
                            ca: Convo, ca': Convo, cb: Convo, low: View)
    requires Arrived(w, n, x, replies, a, b) && Flow(w, a, b, ca, cb, low) && Below(Obs(ca), Obs(ca'))
    requires forall f :: f in replies && IsDelta(f) ==> DeltaCarries(f, low)
    requires IsHave(x.frame) ==> Brings(replies, cb, low)
    ensures Flow(n, a, b, ca', cb, low)
  {
    if IsHave(x.frame) {
      var f :| f in replies && BringsMissing(f, cb, low);
      assert Packet(a, b, f) in n.net;
      assert SendingAny(n, a, b);
      forall id | id in low.messages && id !in Have(cb) ensures Sending(n, a, b, id) {
        assert CarriesId(Packet(a, b, f).frame, id);
      }
    } else {
      assert Asking(w, a, b) ==> Asking(n, a, b);
      forall id | Sending(w, a, b, id) ensures Sending(n, a, b, id) { }
      assert SendingAny(w, a, b) ==> SendingAny(n, a, b);
    }
    assert Below(low, Obs(ca'));
  }

  /** The sender's data has come closer: a delta that arrives has been taken in. */
  lemma ArrivalKeepsInflow(w: World, n: World, x: Packet, replies: seq<Frame>, a: PeerKey, b: PeerKey,
                           ca: Convo, ca': Convo, cb: Convo, low: View)
    requires Arrived(w, n, x, replies, a, b) && Flow(w, b, a, cb, ca, low) && Below(Obs(ca), Obs(ca'))
    requires IsDelta(x.frame) ==> CaughtUp(ca', low) && forall id :: CarriesId(x.frame, id) ==> id in Have(ca')
    ensures Flow(n, b, a, cb, ca', low)
  {
    assert Asking(w, b, a) ==> Asking(n, b, a);
    forall id | Sending(w, b, a, id) && id !in Have(ca') ensures Sending(n, b, a, id) {
      var y :| y in w.net && y.from == b && y.to == a && CarriesId(y.frame, id);
      assert y != x;
    }
    if SendingAny(w, b, a) && !CaughtUp(ca', low) {
      var y :| y in w.net && y.from == b && y.to == a && IsDelta(y.frame);
      assert y != x;
      assert SendingAny(n, b, a);
    }
    assert CaughtUp(ca, low) ==> CaughtUp(ca', low);
  }

  /** What the arrival lemmas ask of the new conversation `ca'` and the `replies` to `f`. */
  ghost predicate Fits(ca: Convo, ca': Convo, cb: Convo, f: Frame, replies: seq<Frame>, lowA: View, lowB: View)
  {
    && Below(Obs(ca), Obs(ca'))
    && (forall g :: g in replies && IsHave(g) ==> IdSet(g.ids) <= Have(ca'))
    && (forall g :: g in replies && IsDelta(g) ==> DeltaCarries(g, lowA))
    && (IsHave(f) ==> Brings(replies, cb, lowA))
    && (IsDelta(f) ==> CaughtUp(ca', lowB) && forall id :: CarriesId(f, id) ==> id in Have(ca'))
  }

  lemma HaveFits(ca: Convo, cb: Convo, f: Frame, g: Frame, lowA: View, lowB: View)
    requires IsHave(f) && IdSet(f.ids) <= Have(cb) && BelowLog(lowA.messages, ca.messages)
    requires IsDelta(g) && DeltaCarries(g, lowA)
    requires forall id :: id in Have(ca) && id !in IdSet(f.ids) ==> CarriesId(g, id)
    ensures Fits(ca, ca, cb, f, [g], lowA, lowB)
  {
    assert g in [g];
    assert BringsMissing(g, cb, lowA);
  }

  lemma DeltaFits(ca: Convo, cb: Convo, f: Frame, replies: seq<Frame>, lowA: View, lowB: View)
    requires IsDelta(f) && DeltaCarries(f, lowB)
    requires forall g :: g in replies ==> g == HaveFrame(Direct, Taking(ca, f))
    ensures Fits(ca, Taking(ca, f), cb, f, replies, lowA, lowB)
  {
    ApplyDeltaGrows(ca, f.messages, f.reactions, f.read);
    TakingCatchesUp(ca, f, lowB);
    TakingAddsIds(ca, f);
    HaveFrameIds(Direct, Taking(ca, f));
  }

  lemma HaveHandled(st: State, a: PeerKey, b: PeerKey, f: Frame)
    requires b in st.conversations && IsHave(f)
    ensures After(st, a, b, f).conversations == st.conversations
    ensures Replies(st, a, b, f) == [DeltaFrame(Direct, ConvoWith(st, b), IdSet(f.ids))]
  {
  }

  lemma DeltaHandled(st: State, a: PeerKey, b: PeerKey, f: Frame)
    requires IsDelta(f)
    ensures After(st, a, b, f).conversations == st.conversations[b := Taking(ConvoWith(st, b), f)]
    ensures Replies(st, a, b, f) ==
      if Added(ConvoWith(st, b), f.messages) > 0 then [HaveFrame(Direct, Taking(ConvoWith(st, b), f))] else []
  {
  }

  lemma AnswersFit(st: State, a: PeerKey, b: PeerKey, f: Frame, cb: Convo, lowA: View, lowB: View)
    requires b in st.conversations && Below(lowA, Obs(ConvoWith(st, b)))
    requires (IsHave(f) ==> IdSet(f.ids) <= Have(cb)) && (IsDelta(f) ==> DeltaCarries(f, lowB))
    ensures Fits(ConvoWith(st, b), ConvoWith(After(st, a, b, f), b), cb, f, Replies(st, a, b, f), lowA, lowB)
  {
    var ca := ConvoWith(st, b);
    if IsHave(f) {
      HaveHandled(st, a, b, f);
      DeltaFrameIs(Direct, ca, IdSet(f.ids), lowA, Obs(ca));
      HaveFits(ca, cb, f, DeltaFrame(Direct, ca, IdSet(f.ids)), lowA, lowB);
    } else if IsDelta(f) {
      DeltaHandled(st, a, b, f);
      DeltaFits(ca, cb, f, Replies(st, a, b, f), lowA, lowB);
    } else {
      AfterGrows(st, a, b, f, b);
      OthersAnswerNothingDirect(st, a, b, f);
    }
  }

  lemma OthersAnswerNothingDirect(st: State, a: PeerKey, b: PeerKey, f: Frame)
    requires !IsHave(f) && !IsDelta(f)
    ensures forall g :: g in Replies(st, a, b, f) ==> IsGroupFrame(g)
  {
    if IsGroupFrame(f) { GroupFramesLeaveDirect(st, a, b, f); }
  }

  lemma ArrivalKeepsFlow(w: World, i: nat, a: PeerKey, b: PeerKey, lowA: View, lowB: View)
    requires FlowInv(w, a, b, lowA, lowB) && Enabled(w, Receive(i))
    requires w.net[i].from == b && w.net[i].to == a
    ensures FlowInv(Next(w, Receive(i)), a, b, lowA, lowB)
  {
    var x, st, n := w.net[i], w.nodes[a], Next(w, Receive(i));
    var replies := Replies(st, a, b, x.frame);
    ReceiveNet(w, i);
    PairStays(w, Receive(i), a, b);
    AnswersFit(st, a, b, x.frame, C(w, b, a), lowA, lowB);
    assert Arrived(w, n, x, replies, a, b);
    ArrivalKeepsOutflow(w, n, x, replies, a, b, C(w, a, b), C(n, a, b), C(w, b, a), lowA);
    ArrivalKeepsInflow(w, n, x, replies, a, b, C(w, a, b), C(n, a, b), C(w, b, a), lowB);
  }

  lemma ArrivalKeepsInside(w: World, i: nat, a: PeerKey, b: PeerKey, top: View)
    requires Inside(w, a, b, top) && Enabled(w, Receive(i))
    requires w.net[i].from == b && w.net[i].to == a
    ensures Inside(Next(w, Receive(i)), a, b, top)
  {
    var x, st := w.net[i], w.nodes[a];
    ReceiveNet(w, i);
    PairStays(w, Receive(i), a, b);
    assert FrameInside(x.frame, top);
    AnswersStayInside(st, a, b, x.frame, top);
  }

  lemma AnswersStayInside(st: State, a: PeerKey, b: PeerKey, f: Frame, top: View)
    requires b in st.conversations && Below(Obs(ConvoWith(st, b)), top) && FrameInside(f, top)
    ensures Below(Obs(ConvoWith(After(st, a, b, f), b)), top)
    ensures forall g :: g in Replies(st, a, b, f) ==> FrameInside(g, top)
  {
    if IsHave(f) {
      HaveHandled(st, a, b, f);
      DeltaInside(ConvoWith(st, b), IdSet(f.ids), top);
    } else if IsDelta(f) {
      DeltaHandled(st, a, b, f);
      TakingStaysBelow(ConvoWith(st, b), f, top);
    } else {
      GroupFramesLeaveDirect(st, a, b, f);
    }
  }

  lemma DeltaInside(c: Convo, have: set<MessageId>, top: View)
    requires Below(Obs(c), top)
    ensures FrameInside(DeltaFrame(Direct, c, have), top)
  {
    DeltaFrameIs(Direct, c, have, Obs(c), top);
  }

  lemma StepKeepsFlow(w: World, s: Step, a: PeerKey, b: PeerKey, lowA: View, lowB: View)
    requires FlowInv(w, a, b, lowA, lowB) && !Breaks(s, a, b)
    ensures FlowInv(Next(w, s), a, b, lowA, lowB)
  {
    if !Exchanges(w, s, a, b) {
      OutsideIsUndisturbed(w, s, a, b);
      UndisturbedKeepsFlow(w, Next(w, s), a, b, lowA, lowB);
    } else if s == Offer(a, b) {
      OfferKeepsFlow(w, a, b, lowA, lowB);
    } else if s == Offer(b, a) {
      OfferKeepsFlow(w, b, a, lowB, lowA);
    } else if w.net[s.i].to == a {
      ArrivalKeepsFlow(w, s.i, a, b, lowA, lowB);
    } else {
      ArrivalKeepsFlow(w, s.i, b, a, lowB, lowA);
    }
  }

  lemma StepKeepsInside(w: World, s: Step, a: PeerKey, b: PeerKey, top: View)
    requires Inside(w, a, b, top) && !Breaks(s, a, b) && !Writes(s, a, b)
    ensures Inside(Next(w, s), a, b, top)
  {
    if !Exchanges(w, s, a, b) {
      OutsideIsSilent(w, s, a, b);
      SilentKeepsInside(w, Next(w, s), a, b, top);
    } else if s == Offer(a, b) {
      OfferKeepsInside(w, a, b, top);
    } else if s == Offer(b, a) {
      OfferKeepsInside(w, b, a, top);
    } else if w.net[s.i].to == a {
      ArrivalKeepsInside(w, s.i, a, b, top);
    } else {
      ArrivalKeepsInside(w, s.i, b, a, top);
    }
  }

  // ------------------------------------------------------------------ the theorems

  /** A fresh connection between `a` and `b`: handshake done, nothing sent on it yet. Other pairs may
      be in the middle of anything. */
  ghost predicate Connected(w: World, a: PeerKey, b: PeerKey)
  {
    Pair(w, a, b) && Drained(w, a, b) && Link(a, b) !in w.offered && Link(b, a) !in w.offered
  }

  /** A fresh connection on which live messages may still be arriving: only no sync frame is in flight yet. */
  ghost predicate Meeting(w: World, a: PeerKey, b: PeerKey)
  {
    && Pair(w, a, b) && Link(a, b) !in w.offered && Link(b, a) !in w.offered
    && forall x :: x in w.net && Between(x, a, b) ==> !IsHave(x.frame) && !IsDelta(x.frame)
  }

  /** Both post-connect exchanges have been sent and everything they led to has arrived. */
  ghost predicate Settled(w: World, a: PeerKey, b: PeerKey)
  {
    Link(a, b) in w.offered && Link(b, a) in w.offered && Drained(w, a, b)
  }

  /** The connection lasts and neither forgets the other. */
  ghost predicate Unbroken(steps: seq<Step>, a: PeerKey, b: PeerKey) { forall s :: s in steps ==> !Breaks(s, a, b) }

  /** Neither writes to the other meanwhile; everything else, by anyone, may go on. */
  ghost predicate Quiet(steps: seq<Step>, a: PeerKey, b: PeerKey)
  {
    Unbroken(steps, a, b) && forall s :: s in steps ==> !Writes(s, a, b)
  }

  lemma {:induction false} RunKeepsFlow(w: World, steps: seq<Step>, a: PeerKey, b: PeerKey, lowA: View, lowB: View)
    requires FlowInv(w, a, b, lowA, lowB) && Unbroken(steps, a, b)
    ensures FlowInv(Run(w, steps), a, b, lowA, lowB)
  {
    if steps != [] {
      var k := |steps| - 1;
      assert steps == steps[..k] + [steps[k]];
      RunKeepsFlow(w, steps[..k], a, b, lowA, lowB);
      StepKeepsFlow(Run(w, steps[..k]), steps[k], a, b, lowA, lowB);
    }
  }

  lemma {:induction false} RunKeepsInside(w: World, steps: seq<Step>, a: PeerKey, b: PeerKey, top: View)
    requires Inside(w, a, b, top) && Quiet(steps, a, b)
    ensures Inside(Run(w, steps), a, b, top)
  {
    if steps != [] {
      var k := |steps| - 1;
      assert steps == steps[..k] + [steps[k]];
      RunKeepsInside(w, steps[..k], a, b, top);
      StepKeepsInside(Run(w, steps[..k]), steps[k], a, b, top);
    }
  }

  lemma MeetingFlows(w: World, a: PeerKey, b: PeerKey)
    requires Meeting(w, a, b)
    ensures FlowInv(w, a, b, Obs(C(w, a, b)), Obs(C(w, b, a)))
  {
  }

  /** `c` has everything of `v`: its ids, its reactions, its watermarks. */
  ghost predicate HasAll(c: Convo, v: View)
  {
    v.messages.Keys <= Have(c) && CaughtUp(c, v)
  }

  lemma SettledHasAll(w: World, a: PeerKey, b: PeerKey, lowA: View, lowB: View)
    requires FlowInv(w, a, b, lowA, lowB) && Settled(w, a, b)
    ensures HasAll(C(w, a, b), lowB) && Below(lowA, Obs(C(w, a, b)))
  {
    assert !Asking(w, b, a) && !SendingAny(w, b, a);
    forall id | id in lowB.messages ensures id in Have(C(w, a, b)) {
      assert !Sending(w, b, a, id);
    }
  }

  /** Nothing is dropped: whatever anybody does meanwhile - the two writing to each other included - once
      the exchange has settled each side has kept its own and got all the other started with. */
  lemma NothingDropped(w: World, steps: seq<Step>, a: PeerKey, b: PeerKey)
    requires Meeting(w, a, b) && Unbroken(steps, a, b) && Settled(Run(w, steps), a, b)
    ensures var n := Run(w, steps);
      && Pair(n, a, b) && HasAll(C(n, a, b), Obs(C(w, b, a))) && HasAll(C(n, b, a), Obs(C(w, a, b)))
      && Below(Obs(C(w, a, b)), Obs(C(n, a, b))) && Below(Obs(C(w, b, a)), Obs(C(n, b, a)))
  {
    var lowA, lowB, n := Obs(C(w, a, b)), Obs(C(w, b, a)), Run(w, steps);
    MeetingFlows(w, a, b);
    RunKeepsFlow(w, steps, a, b, lowA, lowB);
    SettledHasAll(n, a, b, lowA, lowB);
    SettledHasAll(n, b, a, lowB, lowA);
  }

  /** A replica that keeps its own, gets all of the other's and exceeds nothing is the join. */
  lemma SandwichedIsJoin(c: Convo, own: View, other: View)
    requires Below(own, Obs(c)) && HasAll(c, other) && Below(Obs(c), Join(own, other))
    ensures Obs(c) == Join(own, other)
  {
    var top := Join(own, other);
    forall id | id in top.messages ensures id in c.messages && c.messages[id] == top.messages[id] {
      assert id in own.messages || id in other.messages;
    }
    assert c.messages == top.messages;
    assert c.reactions == top.reactions;
    forall k | k in top.read ensures k in c.read && c.read[k] == top.read[k] {
      assert k in own.read || k in other.read;
    }
    assert c.read == top.read;
  }

  /** Whatever the arrival order, and whatever everybody else does meanwhile: once the exchange has settled,
      both replicas hold the join of what they started with - nothing dropped, nothing invented. */
  lemma Convergence(w: World, steps: seq<Step>, a: PeerKey, b: PeerKey)
    requires Connected(w, a, b) && Quiet(steps, a, b) && Settled(Run(w, steps), a, b)
    requires Agree(C(w, a, b).messages, C(w, b, a).messages)
    ensures Pair(Run(w, steps), a, b)
    ensures var n, joined := Run(w, steps), Join(Obs(C(w, a, b)), Obs(C(w, b, a)));
      Obs(C(n, a, b)) == joined && Obs(C(n, b, a)) == joined
  {
    var lowA, lowB, n := Obs(C(w, a, b)), Obs(C(w, b, a)), Run(w, steps);
    JoinIsAbove(lowA, lowB);
    JoinCommutes(lowA, lowB);
    RunKeepsInside(w, steps, a, b, Join(lowA, lowB));
    NothingDropped(w, steps, a, b);
    SandwichedIsJoin(C(n, a, b), lowA, lowB);
    SandwichedIsJoin(C(n, b, a), lowB, lowA);
  }

  lemma {:induction false} RunGrows(w: World, steps: seq<Step>, a: PeerKey, b: PeerKey)
    requires a in w.nodes && Forget(a, b) !in steps
    ensures a in Run(w, steps).nodes && Below(Obs(C(w, a, b)), Obs(C(Run(w, steps), a, b)))
  {
    if steps != [] {
      var k := |steps| - 1;
      assert steps == steps[..k] + [steps[k]];
      RunGrows(w, steps[..k], a, b);
      ConvoGrows(Run(w, steps[..k]), steps[k], a, b);
      BelowTransitive(Obs(C(w, a, b)), Obs(C(Run(w, steps[..k]), a, b)), Obs(C(Run(w, steps), a, b)));
    }
  }

  /** Replicas that clash on an id never converge: agreement at the start is exactly the condition. */
  lemma ConvergesIffAgree(w: World, steps: seq<Step>, a: PeerKey, b: PeerKey)
    requires Connected(w, a, b) && Quiet(steps, a, b) && Settled(Run(w, steps), a, b)
    ensures a in Run(w, steps).nodes && b in Run(w, steps).nodes
    ensures Obs(C(Run(w, steps), a, b)) == Obs(C(Run(w, steps), b, a)) <==>
            Agree(C(w, a, b).messages, C(w, b, a).messages)
  {
    assert Forgets(Forget(a, b), a, b) && Forgets(Forget(b, a), a, b);
    RunGrows(w, steps, a, b);
    RunGrows(w, steps, b, a);
    if Agree(C(w, a, b).messages, C(w, b, a).messages) {
      Convergence(w, steps, a, b);
    }
  }
}
