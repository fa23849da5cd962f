/** The node as the mutable object it is: maps reassigned field by field, lists walked in loops, frames
    put in an outbox. Each method is proved to do exactly what the functions of `Content`, `Ratchet` and
    `Connections` say, so the theorems about those functions are theorems about this object. */
module NodeObject {
  import opened Wire
  import opened Ordering
  import opened Conversations
  import opened Content
  import Ratchet
  import Connections
  import Worlds
  import Effects

  // ------------------------------------------------------------------ filtering lists

  lemma FilterStep(ids: seq<MessageId>, id: MessageId, keep: set<MessageId>)
    ensures Filter(ids + [id], keep) == Filter(ids, keep) + if id in keep then [id] else []
  {
    assert (ids + [id])[..|ids|] == ids;
  }

  /** Filtering twice keeps what both filters keep. */
  lemma {:induction false} FilterTwice(ids: seq<MessageId>, a: set<MessageId>, b: set<MessageId>)
    ensures Filter(Filter(ids, a), b) == Filter(ids, a * b)
  {
    if ids != [] {
      var k := |ids| - 1;
      var once := Filter(ids[..k], a);
      assert ids == ids[..k] + [ids[k]];
      FilterTwice(ids[..k], a, b);
      FilterStep(ids[..k], ids[k], a);
      FilterStep(ids[..k], ids[k], a * b);
      if ids[k] in a {
        FilterStep(once, ids[k], b);
      } else {
        assert Filter(ids, a) == once;
      }
    }
  }

  /** Only the listed part of the filter matters. */
  lemma {:induction false} FilterListed(ids: seq<MessageId>, a: set<MessageId>, b: set<MessageId>)
    requires forall id :: id in ids ==> (id in a <==> id in b)
    ensures Filter(ids, a) == Filter(ids, b)
  {
    if ids != [] {
      var k := |ids| - 1;
      assert ids == ids[..k] + [ids[k]];
      FilterListed(ids[..k], a, b);
    }
  }

  lemma IdSetAppend(a: seq<MessageId>, b: seq<MessageId>)
    ensures IdSet(a + b) == IdSet(a) + IdSet(b)
  {
  }

  lemma {:induction false} FilterKeeps(ids: seq<MessageId>, keep: set<MessageId>)
    ensures IdSet(Filter(ids, keep)) == IdSet(ids) * keep
  {
    if ids != [] {
      var k := |ids| - 1;
      FilterKeeps(ids[..k], keep);
      assert ids == ids[..k] + [ids[k]];
      IdSetAppend(ids[..k], [ids[k]]);
      IdSetAppend(Filter(ids[..k], keep), if ids[k] in keep then [ids[k]] else []);
    }
  }

  /** Dropping `have` from a list that was filtered for `a`. */
  lemma FilterThenDrop(ids: seq<MessageId>, a: set<MessageId>, have: set<MessageId>)
    ensures Filter(Filter(ids, a), IdSet(Filter(ids, a)) - have) == Filter(ids, a - have)
  {
    var once := Filter(ids, a);
    FilterKeeps(ids, a);
    FilterTwice(ids, a, IdSet(once) - have);
    FilterListed(ids, a * (IdSet(once) - have), a - have);
  }

  /** Dropping `have` first and filtering for `a` afterwards. */
  lemma DropThenFilter(ids: seq<MessageId>, a: set<MessageId>, have: set<MessageId>)
    ensures Filter(Filter(ids, IdSet(ids) - have), a) == Filter(ids, a - have)
  {
    FilterTwice(ids, IdSet(ids) - have, a);
    FilterListed(ids, (IdSet(ids) - have) * a, a - have);
  }

  /** A conversation shows every message it holds. */
  lemma {:induction false} ListedIds(q: seq<Message>)
    ensures forall id :: id in IdSet(IdsOf(q)) <==> exists m :: m in q && m.id == id
  {
    if q != [] {
      var k := |q| - 1;
      ListedIds(q[..k]);
      assert q == q[..k] + [q[k]];
      IdSetAppend(IdsOf(q[..k]), [q[k].id]);
      assert forall m :: m in q <==> m in q[..k] || m == q[k];
    }
  }

  lemma ShownIsKept(c: Convo, keep: set<MessageId>)
    requires keep <= c.messages.Keys
    ensures IdSet(ShownIds(c, keep)) == keep
  {
    var q := MessagesOrdered(c);
    ListedIds(q);
    forall id | id in keep ensures id in IdSet(IdsOf(q)) {
      assert c.messages[id] in q;
    }
    FilterKeeps(IdsOf(q), keep);
  }

  /** Raising the peer's watermark changes neither which messages a receipt covers nor their order. */
  lemma MarkingMovesNothing(st: State, me: PeerKey, peer: PeerKey, upTo: Stamp)
    ensures var marked := st.(conversations := st.conversations[peer := MarkRead(ConvoWith(st, peer), peer, upTo)]);
      && ReadCovers(marked, me, peer, upTo) == ReadCovers(st, me, peer, upTo)
      && MessagesOrdered(ConvoWith(marked, peer)) == MessagesOrdered(ConvoWith(st, peer))
  {
  }

  /** Our own messages with a stamp up to `upTo`. */
  function OwnUpTo(c: Convo, me: PeerKey, upTo: Stamp): set<MessageId>
  {
    set id | id in OwnIds(c, me) && c.messages[id].lamport <= upTo
  }

  lemma ListedOwnUpTo(c: Convo, me: PeerKey, upTo: Stamp, m: Message)
    requires m in MessagesOrdered(c)
    ensures m.id in OwnUpTo(c, me, upTo) <==> m.author == me && m.lamport <= upTo
  {
  }

  lemma IdsNext(q: seq<Message>, i: nat, keep: set<MessageId>)
    requires i < |q|
    ensures Filter(IdsOf(q[..i + 1]), keep) == Filter(IdsOf(q[..i]), keep) + if q[i].id in keep then [q[i].id] else []
  {
    assert q[..i + 1][..i] == q[..i];
    FilterStep(IdsOf(q[..i]), q[i].id, keep);
  }

  /** The members and the creator, sorted and without repeats. */
  function Roster(members: seq<PeerKey>, me: PeerKey): (r: seq<PeerKey>)
    ensures SameElements(r, IdSet(members) + {me}) && Ascending(r, IdKey)
  {
    SortedIds(IdSet(members) + {me})
  }

  lemma RosterIs(members: seq<PeerKey>, me: PeerKey)
    ensures forall p :: p in Roster(members, me) <==> p in members || p == me
    ensures forall i, j :: 0 <= i < j < |Roster(members, me)| ==> Roster(members, me)[i] < Roster(members, me)[j]
  {
    var r := Roster(members, me);
    forall i, j | 0 <= i < j < |r| ensures r[i] < r[j] {
      IdsLess(r[i], r[j]);
    }
  }

  function ReadEvents(st: State, me: PeerKey, peer: PeerKey, upTo: Stamp): seq<Event>
  {
    [ReadReceipt(peer, upTo)] + DeliveredEvents(peer, ShownIds(ConvoWith(st, peer), ReadCovers(st, me, peer, upTo)))
  }

  lemma ReadEmits(st: State, me: PeerKey, peer: PeerKey, upTo: Stamp)
    ensures Emitted(st, me, peer, Read(upTo)) == ReadEvents(st, me, peer, upTo)
    ensures Replies(st, me, peer, Read(upTo)) == []
  {
  }

  function Learnt(st: State, peer: PeerKey, scope: SyncScope, ids: seq<MessageId>): State
  {
    if scope == Direct then Absorb(st, peer, ids) else st
  }

  function LearntEvents(st: State, me: PeerKey, peer: PeerKey, scope: SyncScope, ids: seq<MessageId>): seq<Event>
  {
    if scope == Direct then DeliveredEvents(peer, NewlyListed(st, me, peer, ids)) else []
  }

  function Answer(st: State, me: PeerKey, peer: PeerKey, scope: SyncScope, ids: seq<MessageId>): seq<Frame>
  {
    match BuildDelta(st, me, peer, scope, ids)
    case Some(f) => [f]
    case None => []
  }

  /** What is learnt from a have-list does not change the answer to it. */
  lemma AnswerStays(st: State, me: PeerKey, peer: PeerKey, scope: SyncScope, ids: seq<MessageId>)
    ensures BuildDelta(Learnt(st, peer, scope, ids), me, peer, scope, ids) == BuildDelta(st, me, peer, scope, ids)
  {
  }

  lemma HaveMeans(st: State, me: PeerKey, peer: PeerKey, scope: SyncScope, ids: seq<MessageId>)
    ensures var f := SyncHave(scope, ids);
      && After(st, me, peer, f) == Learnt(st, peer, scope, ids)
      && Emitted(st, me, peer, f) == LearntEvents(st, me, peer, scope, ids)
      && Replies(st, me, peer, f) == Answer(st, me, peer, scope, ids)
  {
  }

  /** The fresh have-list a direct delta is answered with when it brought something new. */
  function Acknowledgement(c: Convo, ms: seq<Message>, rs: seq<Reaction>, ps: seq<Mark>): seq<Frame>
  {
    if Added(c, ms) > 0 then [HaveFrame(Direct, ApplyDelta(c, ms, rs, ps))] else []
  }

  lemma DirectDelta(st: State, me: PeerKey, peer: PeerKey, ms: seq<Message>, rs: seq<Reaction>, ps: seq<Mark>)
    ensures var f := SyncDelta(Direct, ms, rs, ps);
      && After(st, me, peer, f) == TakeDelta(st, me, peer, Direct, ms, rs, ps)
      && Emitted(st, me, peer, f) == [HistorySynced(peer, Direct, Added(ConvoWith(st, peer), ms))]
      && Replies(st, me, peer, f) == Acknowledgement(ConvoWith(st, peer), ms, rs, ps)
  {
  }

  lemma GroupDelta(st: State, me: PeerKey, peer: PeerKey, g: GroupId, ms: seq<Message>, rs: seq<Reaction>, ps: seq<Mark>)
    ensures var f := SyncDelta(Group(g), ms, rs, ps);
      && After(st, me, peer, f) == TakeDelta(st, me, peer, Group(g), ms, rs, ps)
      && Emitted(st, me, peer, f) == GroupSynced(st, me, peer, g, ms)
      && Replies(st, me, peer, f) == []
  {
  }

  function GroupSynced(st: State, me: PeerKey, peer: PeerKey, g: GroupId, ms: seq<Message>): seq<Event>
  {
    if GroupAllows(st, g, peer, me) then [HistorySynced(peer, Group(g), Added(GroupConvo(st, g), ms))] else []
  }

  // ------------------------------------------------------------------ frames in the outbox

  lemma PacketsAppend(from: PeerKey, to: PeerKey, a: seq<Frame>, b: seq<Frame>)
    ensures Worlds.Packets(from, to, a + b) == Worlds.Packets(from, to, a) + Worlds.Packets(from, to, b)
  {
  }

  lemma PacketsOne(from: PeerKey, to: PeerKey, f: Frame)
    ensures Worlds.Packets(from, to, [f]) == [Worlds.Packet(from, to, f)] && Worlds.Packets(from, to, []) == []
  {
  }

  /** What a decrypted message decodes to; of a profile only that it arrived matters here. */
  datatype Payload = Content(frame: Frame) | Profile

  /** None of the first `n` ciphertexts was read. */
  ghost predicate NoneRead(handled: seq<Option<Payload>>, n: nat)
    requires n <= |handled|
  {
    forall j :: 0 <= j < n ==> handled[j] == None
  }

  lemma NextRead(handled: seq<Option<Payload>>, h: Option<Payload>)
    ensures forall k: nat :: k <= |handled| ==> (NoneRead(handled + [h], k) <==> NoneRead(handled, k))
    ensures NoneRead(handled + [h], |handled| + 1) <==> NoneRead(handled, |handled|) && h == None
  {
    forall k: nat | k <= |handled| ensures NoneRead(handled + [h], k) <==> NoneRead(handled, k) {
      assert forall j :: 0 <= j < k ==> (handled + [h])[j] == handled[j];
    }
    assert (handled + [h])[|handled|] == h;
    assert forall j :: 0 <= j < |handled| ==> (handled + [h])[j] == handled[j];
  }

  class Node {
    const me: PeerKey
    const identity: nat
    var conversations: map<PeerKey, Convo>
    var groups: map<GroupId, GroupInfo>
    var groupConvos: map<GroupId, Convo>
    var peerHave: map<PeerKey, set<MessageId>>
    var queued: map<PeerKey, set<MessageId>>
    var oneTime: set<nat>
    var sessions: map<PeerKey, Ratchet.Session>
    var inbound: map<PeerKey, Ratchet.Session>
    var bundles: map<PeerKey, Ratchet.Bundle>
    var conns: map<PeerKey, Connections.Handle>
    var connGen: map<PeerKey, Stamp>
    var nextGen: Stamp
    var pendingPostConnect: set<PeerKey>
    var outbox: seq<Worlds.Packet>
    var events: seq<Event>

    ghost function Value(): State
      reads this`conversations, this`groups, this`groupConvos, this`peerHave, this`queued
    {
      State(conversations, groups, groupConvos, peerHave, queued)
    }

    ghost function Keys(): Ratchet.Keys
      reads this`oneTime, this`sessions, this`inbound, this`bundles
    {
      Ratchet.Keys(identity, oneTime, sessions, inbound, bundles)
    }

    ghost function Registry(): Connections.Registry
      reads this`conns, this`connGen, this`nextGen, this`sessions, this`inbound
    {
      Connections.Registry(conns, connGen, nextGen, sessions.Keys, inbound.Keys)
    }

    constructor (me: PeerKey, identity: nat, oneTime: set<nat>)
      ensures this.me == me && Value() == FRESH && outbox == [] && events == []
      ensures Keys() == Ratchet.Keys(identity, oneTime, map[], map[], map[])
      ensures Registry() == Connections.Registry(map[], map[], 0, {}, {}) && pendingPostConnect == {}
    {
      this.me, this.identity, this.oneTime := me, identity, oneTime;
      conversations, groups, groupConvos, peerHave, queued := map[], map[], map[], map[], map[];
      sessions, inbound, bundles, conns, connGen := map[], map[], map[], map[], map[];
      nextGen, pendingPostConnect, outbox, events := 0, {}, [], [];
    }

    method Send(peer: PeerKey, f: Frame)
      modifies this`outbox
      ensures outbox == old(outbox) + Worlds.Packets(me, peer, [f])
    {
      PacketsOne(me, peer, f);
      outbox := outbox + [Worlds.Packet(me, peer, f)];
    }

    // ---------------------------------------------------------------- delivery bookkeeping

    /** The listed ids not in `have`, in list order. */
    method Unseen(ids: seq<MessageId>, have: set<MessageId>) returns (unseen: seq<MessageId>)
      ensures unseen == Filter(ids, IdSet(ids) - have)
    {
      unseen := [];
      for i := 0 to |ids|
        invariant unseen == Filter(ids[..i], IdSet(ids) - have)
      {
        assert ids[..i + 1][..i] == ids[..i];
        if ids[i] !in have { unseen := unseen + [ids[i]]; }
      }
      assert ids[..|ids|] == ids;
    }

    method Kept(ids: seq<MessageId>, keep: set<MessageId>) returns (kept: seq<MessageId>)
      ensures kept == Filter(ids, keep)
    {
      kept := [];
      for i := 0 to |ids|
        invariant kept == Filter(ids[..i], keep)
      {
        assert ids[..i + 1][..i] == ids[..i];
        if ids[i] in keep { kept := kept + [ids[i]]; }
      }
      assert ids[..|ids|] == ids;
    }

    method Dequeue(peer: PeerKey, ids: seq<MessageId>)
      modifies this`queued
      ensures queued == if peer in old(queued) then old(queued)[peer := old(queued)[peer] - IdSet(ids)] else old(queued)
    {
      if peer in queued {
        var waiting := queued[peer];
        for i := 0 to |ids|
          invariant queued == old(queued) && waiting == queued[peer] - IdSet(ids[..i])
        {
          assert ids[..i + 1] == ids[..i] + [ids[i]];
          IdSetAppend(ids[..i], [ids[i]]);
          waiting := waiting - {ids[i]};
        }
        assert ids[..|ids|] == ids;
        queued := queued[peer := waiting];
      }
    }

    method ReportDelivered(peer: PeerKey, ids: seq<MessageId>)
      modifies this`events
      ensures events == old(events) + DeliveredEvents(peer, ids)
    {
      for i := 0 to |ids|
        invariant events == old(events) + DeliveredEvents(peer, ids[..i])
      {
        assert ids[..i + 1][..i] == ids[..i];
        events := events + [MessageStatus(peer, ids[i], Delivered)];
      }
      assert ids[..|ids|] == ids;
    }

    /** Our own messages, collected from the ordered list. */
    method Mine(c: Convo) returns (mine: set<MessageId>)
      ensures mine == OwnIds(c, me)
    {
      var q := MessagesOrdered(c);
      mine := {};
      for i := 0 to |q|
        invariant forall id :: id in mine <==> exists k :: 0 <= k < i && q[k].id == id && q[k].author == me
      {
        if q[i].author == me { mine := mine + {q[i].id}; }
      }
      forall id ensures id in mine <==> id in OwnIds(c, me) {
        if id in OwnIds(c, me) {
          assert c.messages[id] in q;
        }
        if k :| 0 <= k < |q| && q[k].id == id && q[k].author == me {
          assert q[k] in q;
        }
      }
    }

    method AbsorbPeerHave(peer: PeerKey, ids: seq<MessageId>)
      modifies this`peerHave, this`queued, this`events
      ensures Value() == Absorb(old(Value()), peer, ids)
      ensures events == old(events) + DeliveredEvents(peer, NewlyListed(old(Value()), me, peer, ids))
    {
      var have := if peer in peerHave then peerHave[peer] else {};
      var unseen := Unseen(ids, have);
      peerHave := peerHave[peer := have + IdSet(ids)];
      Dequeue(peer, ids);
      var mine := Mine(if peer in conversations then conversations[peer] else EMPTY);
      var newly := Kept(unseen, mine);
      DropThenFilter(ids, mine, have);
      ReportDelivered(peer, newly);
    }

    /** Our own messages up to a watermark, in the order they are shown. */
    method MineUpTo(c: Convo, upTo: Stamp) returns (ids: seq<MessageId>)
      ensures ids == ShownIds(c, OwnUpTo(c, me, upTo))
    {
      var q := MessagesOrdered(c);
      ids := [];
      for i := 0 to |q|
        invariant ids == Filter(IdsOf(q[..i]), OwnUpTo(c, me, upTo))
      {
        assert q[i] in q;
        IdsNext(q, i, OwnUpTo(c, me, upTo));
        ListedOwnUpTo(c, me, upTo, q[i]);
        if q[i].author == me && q[i].lamport <= upTo { ids := ids + [q[i].id]; }
      }
      assert q[..|q|] == q;
    }

    /** The second half of handling a read receipt: what it newly covers counts as held by the peer. */
    method CoverRead(peer: PeerKey, c: Convo, upTo: Stamp) returns (newly: seq<MessageId>)
      requires c == ConvoWith(Value(), peer)
      modifies this`peerHave, this`queued
      ensures newly == ShownIds(c, ReadCovers(old(Value()), me, peer, upTo))
      ensures IdSet(newly) == ReadCovers(old(Value()), me, peer, upTo)
      ensures peerHave == old(peerHave)[peer := HaveOf(old(Value()), peer) + IdSet(newly)]
      ensures queued == if peer in old(queued) then old(queued)[peer := old(queued)[peer] - IdSet(newly)] else old(queued)
    {
      var mine := MineUpTo(c, upTo);
      var have := if peer in peerHave then peerHave[peer] else {};
      newly := Unseen(mine, have);
      ghost var covered := OwnUpTo(c, me, upTo);
      FilterThenDrop(IdsOf(MessagesOrdered(c)), covered, have);
      ShownIsKept(c, covered - have);
      peerHave := peerHave[peer := have + IdSet(newly)];
      Dequeue(peer, newly);
    }

    method TakeInRead(peer: PeerKey, upTo: Stamp) returns (newly: seq<MessageId>)
      modifies this`conversations, this`peerHave, this`queued
      ensures Value() == TakeRead(old(Value()), me, peer, upTo)
      ensures newly == ShownIds(ConvoWith(old(Value()), peer), ReadCovers(old(Value()), me, peer, upTo))
    {
      MarkingMovesNothing(Value(), me, peer, upTo);
      var c := MarkRead(if peer in conversations then conversations[peer] else EMPTY, peer, upTo);
      conversations := conversations[peer := c];
      newly := CoverRead(peer, c, upTo);
    }

    method ReportRead(peer: PeerKey, upTo: Stamp, newly: seq<MessageId>)
      modifies this`events
      ensures events == old(events) + ([ReadReceipt(peer, upTo)] + DeliveredEvents(peer, newly))
    {
      events := events + [ReadReceipt(peer, upTo)];
      ReportDelivered(peer, newly);
    }

    method HandleRead(peer: PeerKey, upTo: Stamp)
      modifies this`conversations, this`peerHave, this`queued, this`events
      ensures Value() == After(old(Value()), me, peer, Read(upTo))
      ensures events == old(events) + ReadEvents(old(Value()), me, peer, upTo)
    {
      var newly := TakeInRead(peer, upTo);
      ReportRead(peer, upTo, newly);
    }

    // ---------------------------------------------------------------- deltas

    /** Fold a delta into one conversation; also how many messages it added. */
    method Folded(c0: Convo, ms: seq<Message>, rs: seq<Reaction>, ps: seq<Mark>) returns (c: Convo, added: nat)
      ensures c == ApplyDelta(c0, ms, rs, ps) && added == Added(c0, ms)
    {
      c := FoldedMessages(c0, ms);
      ApplyAllFrame(c0, ms);
      SetGrows(c0.messages.Keys, c.messages.Keys);
      added := |c.messages.Keys| - |c0.messages.Keys|;
      c := FoldedReactions(c, rs);
      c := FoldedMarks(c, ps);
    }

    method FoldedMessages(c0: Convo, ms: seq<Message>) returns (c: Convo)
      ensures c == ApplyAll(c0, ms)
    {
      c := c0;
      for i := 0 to |ms|
        invariant c == ApplyAll(c0, ms[..i])
      {
        assert ms[..i + 1][..i] == ms[..i];
        c := Apply(c, ms[i]);
      }
      assert ms[..|ms|] == ms;
    }

    method FoldedReactions(c0: Convo, rs: seq<Reaction>) returns (c: Convo)
      ensures c == ReactAll(c0, rs)
    {
      c := c0;
      for i := 0 to |rs|
        invariant c == ReactAll(c0, rs[..i])
      {
        assert rs[..i + 1] == rs[..i] + [rs[i]];
        c := React(c, rs[i]);
      }
      assert rs[..|rs|] == rs;
    }

    method FoldedMarks(c0: Convo, ps: seq<Mark>) returns (c: Convo)
      ensures c == MarkAll(c0, ps)
    {
      c := c0;
      for i := 0 to |ps|
        invariant c == MarkAll(c0, ps[..i])
      {
        assert ps[..i + 1][..i] == ps[..i];
        c := MarkRead(c, ps[i].author, ps[i].lamport);
      }
      assert ps[..|ps|] == ps;
    }

    method GroupAllowed(g: GroupId, peer: PeerKey) returns (ok: bool)
      ensures ok == GroupAllows(Value(), g, peer, me)
    {
      ok := g in groups && peer in groups[g].members && me in groups[g].members;
    }

    method FoldIn(peer: PeerKey, ms: seq<Message>, rs: seq<Reaction>, ps: seq<Mark>) returns (added: nat)
      modifies this`conversations
      ensures Value() == TakeDelta(old(Value()), me, peer, Direct, ms, rs, ps)
      ensures ConvoWith(Value(), peer) == ApplyDelta(ConvoWith(old(Value()), peer), ms, rs, ps)
      ensures added == Added(ConvoWith(old(Value()), peer), ms)
    {
      var c;
      c, added := Folded(if peer in conversations then conversations[peer] else EMPTY, ms, rs, ps);
      conversations := conversations[peer := c];
    }

    method TakeInDirect(peer: PeerKey, ms: seq<Message>, rs: seq<Reaction>, ps: seq<Mark>)
      modifies this`conversations, this`events, this`outbox
      ensures Value() == TakeDelta(old(Value()), me, peer, Direct, ms, rs, ps)
      ensures events == old(events) + [HistorySynced(peer, Direct, Added(ConvoWith(old(Value()), peer), ms))]
      ensures outbox == old(outbox) + Worlds.Packets(me, peer, Acknowledgement(ConvoWith(old(Value()), peer), ms, rs, ps))
    {
      var added := FoldIn(peer, ms, rs, ps);
      events := events + [HistorySynced(peer, Direct, added)];
      PacketsOne(me, peer, HaveFrame(Direct, ConvoWith(Value(), peer)));
      if added > 0 { Send(peer, HaveFrame(Direct, if peer in conversations then conversations[peer] else EMPTY)); }
    }

    method TakeInGroupDelta(peer: PeerKey, g: GroupId, ms: seq<Message>, rs: seq<Reaction>, ps: seq<Mark>)
      modifies this`groupConvos, this`events
      ensures Value() == TakeDelta(old(Value()), me, peer, Group(g), ms, rs, ps)
      ensures events == old(events) + GroupSynced(old(Value()), me, peer, g, ms)
    {
      var ok := GroupAllowed(g, peer);
      if !ok { return; }
      var c, added := Folded(if g in groupConvos then groupConvos[g] else EMPTY, ms, rs, ps);
      groupConvos := groupConvos[g := c];
      events := events + [HistorySynced(peer, Group(g), added)];
    }

    method AnswerHave(peer: PeerKey, scope: SyncScope, ids: seq<MessageId>) returns (delta: Option<Frame>)
      ensures delta == BuildDelta(Value(), me, peer, scope, ids)
    {
      match scope {
        case Direct =>
          if peer !in conversations { return None; }
          return Some(DeltaFrame(scope, conversations[peer], IdSet(ids)));
        case Group(g) =>
          var ok := GroupAllowed(g, peer);
          if !ok || g !in groupConvos { return None; }
          return Some(DeltaFrame(scope, groupConvos[g], IdSet(ids)));
      }
    }

    // ---------------------------------------------------------------- groups

    /** An invite, or (`announced`) an announcement: admit, report, and ask for history on first news. */
    method TakeInGroup(peer: PeerKey, info: GroupInfo, announced: bool)
      modifies this`groups, this`groupConvos, this`events, this`outbox
      ensures var f := if announced then GroupAnnounce(info) else GroupInvite(info);
        && Value() == After(old(Value()), me, peer, f)
        && events == old(events) + Emitted(old(Value()), me, peer, f)
        && outbox == old(outbox) + Worlds.Packets(me, peer, Replies(old(Value()), me, peer, f))
    {
      PacketsOne(me, peer, GroupInvite(info));
      if peer !in info.members || me !in info.members { return; }
      var isNew := info.id !in groups;
      if isNew { groups := groups[info.id := info]; }
      if info.id !in groupConvos { groupConvos := groupConvos[info.id := EMPTY]; }
      if isNew || !announced { events := events + [GroupInvited(info.id)]; }
      if isNew { Send(peer, HaveFrame(Group(info.id), groupConvos[info.id])); }
    }

    /** Handling one frame does to the object what `After`, `Replies` and `Emitted` say. */
    method HandleFrame(peer: PeerKey, f: Frame)
      modifies this`conversations, this`groups, this`groupConvos, this`peerHave, this`queued, this`events, this`outbox
      ensures Value() == After(old(Value()), me, peer, f)
      ensures events == old(events) + Emitted(old(Value()), me, peer, f)
      ensures outbox == old(outbox) + Worlds.Packets(me, peer, Replies(old(Value()), me, peer, f))
    {
      PacketsOne(me, peer, f);
      match f {
        case Chat(m) =>
          var c := if peer in conversations then conversations[peer] else EMPTY;
          conversations := conversations[peer := Apply(c, m)];
          events := events + [MessageReceived(peer, m)];
        case GroupInvite(info) => TakeInGroup(peer, info, false);
        case GroupAnnounce(info) => TakeInGroup(peer, info, true);
        case GroupMessage(g, m) =>
          var ok := GroupAllowed(g, peer);
          if !ok { return; }
          var c := if g in groupConvos then groupConvos[g] else EMPTY;
          groupConvos := groupConvos[g := Apply(c, m)];
          events := events + [GroupMessageReceived(g, m)];
        case SyncHave(scope, ids) =>
          HaveMeans(Value(), me, peer, scope, ids);
          HandleHave(peer, scope, ids);
        case SyncDelta(Direct, ms, rs, ps) =>
          DirectDelta(Value(), me, peer, ms, rs, ps);
          TakeInDirect(peer, ms, rs, ps);
        case SyncDelta(Group(g), ms, rs, ps) =>
          GroupDelta(Value(), me, peer, g, ms, rs, ps);
          TakeInGroupDelta(peer, g, ms, rs, ps);
        case Read(upTo) =>
          ReadEmits(Value(), me, peer, upTo);
          HandleRead(peer, upTo);
      }
    }

    method HandleHave(peer: PeerKey, scope: SyncScope, ids: seq<MessageId>)
      modifies this`peerHave, this`queued, this`events, this`outbox
      ensures Value() == Learnt(old(Value()), peer, scope, ids)
      ensures events == old(events) + LearntEvents(old(Value()), me, peer, scope, ids)
      ensures outbox == old(outbox) + Worlds.Packets(me, peer, Answer(old(Value()), me, peer, scope, ids))
    {
      PacketsOne(me, peer, SyncHave(scope, ids));
      AnswerStays(Value(), me, peer, scope, ids);
      if scope == Direct { AbsorbPeerHave(peer, ids); }
      var delta := AnswerHave(peer, scope, ids);
      if delta.Some? { Send(peer, delta.value); }
    }

    // ---------------------------------------------------------------- connecting

    method GatheredAnnounces(gs: seq<GroupId>) returns (fs: seq<Frame>)
      requires forall g :: g in gs ==> g in groups
      ensures fs == Announces(Value(), gs)
    {
      fs := [];
      for i := 0 to |gs|
        invariant forall g :: g in gs[..i] ==> g in groups
        invariant fs == Announces(Value(), gs[..i])
      {
        assert gs[..i + 1][..i] == gs[..i] && gs[i] in gs;
        fs := fs + [GroupAnnounce(groups[gs[i]])];
      }
      assert gs[..|gs|] == gs;
    }

    method GatheredHaves(gs: seq<GroupId>) returns (fs: seq<Frame>)
      ensures fs == GroupHaves(Value(), gs)
    {
      fs := [];
      for i := 0 to |gs|
        invariant fs == GroupHaves(Value(), gs[..i])
      {
        assert gs[..i + 1][..i] == gs[..i];
        fs := fs + [HaveFrame(Group(gs[i]), if gs[i] in groupConvos then groupConvos[gs[i]] else EMPTY)];
      }
      assert gs[..|gs|] == gs;
    }

    /** What the connect-time exchange will send, gathered in one look at the state. */
    method Gathered(peer: PeerKey) returns (fs: seq<Frame>)
      ensures fs == Offers(Value(), peer)
    {
      var gs := SortedIds(set g | g in groups && peer in groups[g].members);
      var announces := GatheredAnnounces(gs);
      var haves := GatheredHaves(gs);
      return announces + [HaveFrame(Direct, if peer in conversations then conversations[peer] else EMPTY)] + haves;
    }

    method SendAll(peer: PeerKey, fs: seq<Frame>)
      modifies this`outbox
      ensures outbox == old(outbox) + Worlds.Packets(me, peer, fs)
    {
      for i := 0 to |fs|
        invariant outbox == old(outbox) + Worlds.Packets(me, peer, fs[..i])
      {
        assert fs[..i + 1] == fs[..i] + [fs[i]];
        PacketsAppend(me, peer, fs[..i], [fs[i]]);
        Send(peer, fs[i]);
      }
      assert fs[..|fs|] == fs;
    }

    /** The connect-time exchange: everything it says, sent once, and nothing besides. */
    method PostConnect(peer: PeerKey) returns (ghost offers: seq<Worlds.Packet>)
      modifies this`outbox
      ensures outbox == old(outbox) + offers && offers == Worlds.Packets(me, peer, Offers(old(Value()), peer))
      ensures Effects.OffersAll(old(Value()), me, peer, offers)
    {
      Effects.OffersSayAll(Value(), me, peer);
      var fs := Gathered(peer);
      SendAll(peer, fs);
      offers := Worlds.Packets(me, peer, fs);
    }

    /** Registration of a connection: the peer's bundle, no session, a new generation. */
    method Register(peer: PeerKey, conn: Connections.Handle, bundle: Ratchet.Bundle) returns (gen: Stamp)
      modifies this`bundles, this`conns, this`sessions, this`inbound, this`nextGen, this`connGen
      ensures gen == old(nextGen)
      ensures Keys() == Ratchet.SetUp(old(Keys()), peer, bundle)
      ensures Registry() == Connections.Register(old(Registry()), peer, conn)
    {
      bundles, conns := bundles[peer := bundle], conns[peer := conn];
      sessions, inbound := sessions - {peer}, inbound - {peer};
      gen := nextGen;
      nextGen := if nextGen == MAX_STAMP then 0 else nextGen + 1;
      connGen := connGen[peer := gen];
    }

    method GreetPeer(peer: PeerKey)
      modifies this`conversations
      ensures Value() == Greet(old(Value()), peer)
    {
      if peer !in conversations { conversations := conversations[peer := EMPTY]; }
    }

    /** The lower id starts the exchange; the higher one sends nothing and waits for a session. */
    method StartExchange(peer: PeerKey) returns (ghost offers: seq<Worlds.Packet>)
      modifies this`pendingPostConnect, this`outbox
      ensures outbox == old(outbox) + offers
      ensures me < peer ==> Effects.OffersAll(old(Value()), me, peer, offers)
      ensures me < peer ==> pendingPostConnect == old(pendingPostConnect)
      ensures me >= peer ==> offers == [] && pendingPostConnect == old(pendingPostConnect) + {peer}
      ensures Value() == old(Value()) && Keys() == old(Keys()) && Registry() == old(Registry())
    {
      if me < peer {
        offers := PostConnect(peer);
      } else {
        offers := [];
        pendingPostConnect := pendingPostConnect + {peer};
      }
    }

    method Report(e: Event)
      modifies this`events
      ensures events == old(events) + [e]
      ensures Value() == old(Value()) && Keys() == old(Keys()) && Registry() == old(Registry())
    {
      events := events + [e];
    }

    method Admit(peer: PeerKey, conn: Connections.Handle, bundle: Ratchet.Bundle) returns (gen: Stamp)
      modifies this`bundles, this`conns, this`sessions, this`inbound, this`nextGen, this`connGen, this`conversations
      ensures gen == old(nextGen) && Keys() == Ratchet.SetUp(old(Keys()), peer, bundle)
      ensures Registry() == Connections.Register(old(Registry()), peer, conn)
      ensures Value() == Greet(old(Value()), peer)
    {
      gen := Register(peer, conn, bundle);
      GreetPeer(peer);
    }

    /** A connection whose Hello has arrived. */
    method SetUpConnection(peer: PeerKey, conn: Connections.Handle, bundle: Ratchet.Bundle)
      returns (gen: Stamp, ghost offers: seq<Worlds.Packet>)
      modifies this`bundles, this`conns, this`sessions, this`inbound, this`nextGen, this`connGen,
        this`conversations, this`pendingPostConnect, this`outbox, this`events
      ensures gen == old(nextGen) && Keys() == Ratchet.SetUp(old(Keys()), peer, bundle)
      ensures Registry() == Connections.Register(old(Registry()), peer, conn)
      ensures Lookup(conns, peer) == Some(conn) && Lookup(connGen, peer) == Some(gen) && Lookup(bundles, peer) == Some(bundle)
      ensures peer !in sessions && peer !in inbound
      ensures nextGen == if old(nextGen) == MAX_STAMP then 0 else old(nextGen) + 1
      ensures Value() == Greet(old(Value()), peer)
      ensures peer in conversations && conversations[peer] == ConvoWith(old(Value()), peer)
      ensures events == old(events) + [PeerConnected(peer)]
      ensures outbox == old(outbox) + offers
      ensures me < peer ==> Effects.OffersAll(Value(), me, peer, offers)
      ensures me < peer ==> pendingPostConnect == old(pendingPostConnect)
      ensures me >= peer ==> offers == [] && pendingPostConnect == old(pendingPostConnect) + {peer}
    {
      gen := Admit(peer, conn, bundle);
      Report(PeerConnected(peer));
      offers := StartExchange(peer);
    }

    /** A Hello on a connection already set up: what is encrypted on an existing session is as before, and a session
        yet to be opened is opened with the renewed one-time key. */
    method HandleHello(peer: PeerKey, bundle: Ratchet.Bundle)
      modifies this`bundles
      ensures Keys() == Ratchet.Renew(old(Keys()), peer, bundle)
      ensures forall sid, body :: Ratchet.EncryptFor(Keys(), peer, sid, body).Some?
      ensures peer in sessions ==> forall sid, body ::
        Ratchet.EncryptFor(Keys(), peer, sid, body).value.cipher == Ratchet.Encrypt(sessions[peer], identity, body)
      ensures peer !in sessions ==> forall sid, body ::
        Ratchet.EncryptFor(Keys(), peer, sid, body).value.cipher == Ratchet.Cipher(sid, bundle.oneTimeKey, true, identity, body)
    {
      bundles := bundles[peer := bundle];
    }

    /** The deferred exchange of the higher id: sent if it was awaited and there is a session, awaited no more once
        there is one, and otherwise left alone. */
    method FlushPostConnect(peer: PeerKey) returns (ghost offers: seq<Worlds.Packet>)
      modifies this`pendingPostConnect, this`outbox
      ensures outbox == old(outbox) + offers
      ensures peer in sessions && peer in old(pendingPostConnect) ==> Effects.OffersAll(old(Value()), me, peer, offers)
      ensures peer !in sessions || peer !in old(pendingPostConnect) ==> offers == []
      ensures pendingPostConnect == old(pendingPostConnect) - if peer in sessions then {peer} else {}
      ensures Value() == old(Value())
    {
      offers := [];
      if peer in sessions && peer in pendingPostConnect {
        offers := PostConnect(peer);
        pendingPostConnect := pendingPostConnect - {peer};
      }
    }

    /** The frames a payload is answered with. */
    ghost function PayloadReplies(st: State, peer: PeerKey, p: Payload): seq<Worlds.Packet>
    {
      match p
      case Content(f) => Worlds.Packets(me, peer, Replies(st, me, peer, f))
      case Profile => []
    }

    ghost function PayloadTaken(st: State, peer: PeerKey, p: Payload): State
    {
      match p
      case Content(f) => After(st, me, peer, f)
      case Profile => st
    }

    ghost function PayloadEvents(st: State, peer: PeerKey, p: Payload): seq<Event>
    {
      match p
      case Content(f) => Emitted(st, me, peer, f)
      case Profile => []
    }

    /** `offers` is what goes out before the payload is handled. */
    ghost predicate SentWith(before: seq<Worlds.Packet>, offers: seq<Worlds.Packet>, replies: seq<Worlds.Packet>)
      reads this`outbox
    {
      outbox == before + offers + replies
    }

    /** A decoded payload: flush the deferred exchange, then handle. */
    method HandlePayload(peer: PeerKey, p: Payload) returns (ghost offers: seq<Worlds.Packet>)
      modifies this`conversations, this`groups, this`groupConvos, this`peerHave, this`queued, this`events, this`outbox,
        this`pendingPostConnect
      ensures SentWith(old(outbox), offers, PayloadReplies(old(Value()), peer, p))
      ensures peer in sessions && peer in old(pendingPostConnect) ==> Effects.OffersAll(old(Value()), me, peer, offers)
      ensures peer !in sessions || peer !in old(pendingPostConnect) ==> offers == []
      ensures pendingPostConnect == old(pendingPostConnect) - if peer in sessions then {peer} else {}
      ensures Value() == PayloadTaken(old(Value()), peer, p)
      ensures events == old(events) + PayloadEvents(old(Value()), peer, p)
    {
      offers := FlushPostConnect(peer);
      TakeIn(peer, p);
    }

    method TakeIn(peer: PeerKey, p: Payload)
      modifies this`conversations, this`groups, this`groupConvos, this`peerHave, this`queued, this`events, this`outbox
      ensures Value() == PayloadTaken(old(Value()), peer, p)
      ensures events == old(events) + PayloadEvents(old(Value()), peer, p)
      ensures outbox == old(outbox) + PayloadReplies(old(Value()), peer, p)
    {
      match p {
        case Content(f) => HandleFrame(peer, f);
        case Profile =>
      }
    }

    /** A ciphertext arrives: decrypt, decode, flush the deferred exchange, handle. What does not decrypt or
        decode is dropped; a profile flushes like any other payload. The exchange goes out, whole and ahead of the
        replies, if the peer was awaited and there is a session now - as there is once its first ciphertext was read.
        The peer is then awaited no more, so the next ciphertext brings out nothing but replies. */
    method HandleMessage(peer: PeerKey, c: Ratchet.Cipher, decode: nat -> Option<Payload>)
      returns (handled: Option<Payload>, ghost offers: seq<Worlds.Packet>)
      modifies this`conversations, this`groups, this`groupConvos, this`peerHave, this`queued, this`events, this`outbox,
        this`sessions, this`inbound, this`oneTime, this`pendingPostConnect
      ensures match Ratchet.DecryptPayload(old(Keys()), me, peer, c)
        case None => handled == None && Keys() == old(Keys())
        case Some(o) => handled == decode(o.body) && Keys() == o.keys
      ensures handled.None? ==> offers == [] && outbox == old(outbox) && pendingPostConnect == old(pendingPostConnect)
      ensures handled.Some? ==> SentWith(old(outbox), offers, PayloadReplies(old(Value()), peer, handled.value))
      ensures handled.Some? && peer in sessions && peer in old(pendingPostConnect) ==>
        Effects.OffersAll(old(Value()), me, peer, offers)
      ensures peer !in sessions || peer !in old(pendingPostConnect) ==> offers == []
      ensures handled.Some? ==> pendingPostConnect == old(pendingPostConnect) - if peer in sessions then {peer} else {}
      ensures handled.Some? && old(Ratchet.HasPrimary(Keys(), peer)) ==> peer in sessions
      ensures old(Ratchet.HasPrimary(Keys(), peer)) ==> Ratchet.HasPrimary(Keys(), peer)
      ensures handled.None? ==> Value() == old(Value()) && events == old(events)
      ensures handled.Some? ==> Value() == PayloadTaken(old(Value()), peer, handled.value)
      ensures handled.Some? ==> events == old(events) + PayloadEvents(old(Value()), peer, handled.value)
    {
      offers := [];
      ghost var k := Keys();
      var body := DecryptPayload(peer, c);
      if body.None? { return None, []; }
      if Ratchet.HasPrimary(k, peer) { Ratchet.ReadingGivesSession(k, me, peer, c, peer); }
      handled := decode(body.value);
      if handled.None? { return; }
      offers := HandlePayload(peer, handled.value);
    }

    /** Ciphertext after ciphertext of one connection: if the connect-time exchange was awaited, it goes out with the
        first that is read, and with no other. */
    method ReadFrames(peer: PeerKey, cs: seq<Ratchet.Cipher>, decode: nat -> Option<Payload>)
      returns (handled: seq<Option<Payload>>, ghost offers: seq<seq<Worlds.Packet>>)
      requires Ratchet.HasPrimary(Keys(), peer)
      modifies this`conversations, this`groups, this`groupConvos, this`peerHave, this`queued, this`events, this`outbox,
        this`sessions, this`inbound, this`oneTime, this`pendingPostConnect
      ensures |handled| == |offers| == |cs|
      ensures forall i :: 0 <= i < |cs| ==>
        (offers[i] != [] <==> peer in old(pendingPostConnect) && handled[i].Some? && NoneRead(handled, i))
      ensures pendingPostConnect == old(pendingPostConnect) - if NoneRead(handled, |cs|) then {} else {peer}
    {
      handled, offers := [], [];
      for i := 0 to |cs|
        invariant |handled| == |offers| == i && Ratchet.HasPrimary(Keys(), peer)
        invariant pendingPostConnect == old(pendingPostConnect) - if NoneRead(handled, i) then {} else {peer}
        invariant forall k :: 0 <= k < i ==>
          (offers[k] != [] <==> peer in old(pendingPostConnect) && handled[k].Some? && NoneRead(handled, k))
      {
        var h, o := HandleMessage(peer, cs[i], decode);
        NextRead(handled, h);
        handled, offers := handled + [h], offers + [o];
      }
    }

    method Evict(peer: PeerKey)
      modifies this`conns, this`connGen, this`sessions, this`inbound
      ensures Registry() == Connections.Evict(old(Registry()), peer)
      ensures conns == old(conns) - {peer} && connGen == old(connGen) - {peer}
      ensures sessions == old(sessions) - {peer} && inbound == old(inbound) - {peer}
    {
      conns, connGen := conns - {peer}, connGen - {peer};
      sessions, inbound := sessions - {peer}, inbound - {peer};
    }

    /** The end of a reader loop. */
    method ReaderExit(peer: PeerKey, gen: Stamp) returns (wasCurrent: bool)
      modifies this`conns, this`connGen, this`sessions, this`inbound, this`events
      ensures wasCurrent <==> peer in old(connGen) && old(connGen)[peer] == gen
      ensures wasCurrent ==> conns == old(conns) - {peer} && connGen == old(connGen) - {peer}
      ensures wasCurrent ==> sessions == old(sessions) - {peer} && inbound == old(inbound) - {peer}
      ensures !wasCurrent ==> conns == old(conns) && connGen == old(connGen)
      ensures Registry() == Connections.LoopExit(old(Registry()), peer, gen)
      ensures !wasCurrent ==> Keys() == old(Keys())
      ensures events == old(events) + if wasCurrent then [PeerDisconnected(peer)] else []
    {
      if peer in connGen && connGen[peer] == gen {
        Evict(peer);
        events := events + [PeerDisconnected(peer)];
        return true;
      }
      return false;
    }

    method DropContent(peer: PeerKey)
      modifies this`conversations, this`peerHave, this`queued
      ensures Value() == Forgotten(old(Value()), peer)
    {
      conversations, peerHave, queued := conversations - {peer}, peerHave - {peer}, queued - {peer};
    }

    /** Forgetting a contact also hands back the connection to close. */
    method RemoveContact(peer: PeerKey) returns (toClose: Option<Connections.Handle>)
      modifies this`conversations, this`peerHave, this`queued, this`conns, this`connGen, this`sessions, this`inbound,
        this`bundles, this`pendingPostConnect
      ensures toClose == Lookup(old(conns), peer)
      ensures conversations == old(conversations) - {peer} && peerHave == old(peerHave) - {peer} && queued == old(queued) - {peer}
      ensures conns == old(conns) - {peer} && connGen == old(connGen) - {peer}
      ensures sessions == old(sessions) - {peer} && inbound == old(inbound) - {peer}
      ensures Value() == Forgotten(old(Value()), peer)
      ensures Registry() == Connections.Evict(old(Registry()), peer)
      ensures bundles == old(bundles) - {peer} && pendingPostConnect == old(pendingPostConnect) - {peer}
    {
      toClose := Lookup(conns, peer);
      DropContent(peer);
      Evict(peer);
      bundles := bundles - {peer};
      pendingPostConnect := pendingPostConnect - {peer};
    }

    // ---------------------------------------------------------------- sessions

    /** `encrypt_for` run without interference. */
    method EncryptFor(peer: PeerKey, sid: nat, body: nat) returns (c: Option<Ratchet.Cipher>)
      modifies this`sessions
      ensures match Ratchet.EncryptFor(old(Keys()), peer, sid, body)
        case None => c == None && Keys() == old(Keys())
        case Some(s) => c == Some(s.cipher) && Keys() == s.keys
    {
      if peer in sessions { return Some(Ratchet.Encrypt(sessions[peer], identity, body)); }
      if peer !in bundles { return None; }
      var s := Ratchet.Session(sid, bundles[peer].oneTimeKey, true);
      c := Some(Ratchet.Encrypt(s, identity, body));
      sessions := sessions[peer := s];
    }

    /** `decrypt_with_known_sessions`: the primary session, then the retained inbound one. */
    method DecryptWithKnown(peer: PeerKey, c: Ratchet.Cipher) returns (body: Option<nat>)
      modifies this`sessions, this`inbound
      ensures var k := old(Keys());
        if Ratchet.Opens(k.sessions, peer, c) || Ratchet.Opens(k.inbound, peer, c)
        then Ratchet.DecryptPayload(k, me, peer, c) == Some(Ratchet.Opened(Keys(), c.body)) && body == Some(c.body)
        else body == None && Keys() == k
    {
      if peer in sessions && sessions[peer].sid == c.sid {
        sessions := sessions[peer := Ratchet.Heard(sessions[peer])];
        return Some(c.body);
      }
      if peer in inbound && inbound[peer].sid == c.sid {
        inbound := inbound[peer := Ratchet.Heard(inbound[peer])];
        return Some(c.body);
      }
      return None;
    }

    /** `decrypt_payload` run without interference. */
    method DecryptPayload(peer: PeerKey, c: Ratchet.Cipher) returns (body: Option<nat>)
      modifies this`sessions, this`inbound, this`oneTime
      ensures match Ratchet.DecryptPayload(old(Keys()), me, peer, c)
        case None => body == None && Keys() == old(Keys())
        case Some(o) => body == Some(o.body) && Keys() == o.keys
    {
      var holdsOne := peer in sessions || peer in inbound;
      body := DecryptWithKnown(peer, c);
      if body.Some? { return; }
      if !c.prekey || peer !in bundles { return None; }
      if c.oneTimeKey !in oneTime || c.sender != bundles[peer].identity { return None; }
      oneTime := oneTime - {c.oneTimeKey};
      var s := Ratchet.Accepted(c);
      if !holdsOne {
        sessions := sessions[peer := s];
      } else if peer < me {
        sessions := sessions[peer := s];
        inbound := inbound - {peer};
      } else {
        inbound := inbound[peer := s];
      }
      return Some(c.body);
    }

    // ---------------------------------------------------------------- local actions

    method Record(peer: PeerKey, id: MessageId, sentAt: nat, body: string) returns (m: Message)
      modifies this`conversations
      ensures m == Authored(ConvoWith(old(Value()), peer), id, me, sentAt, body, MessageKind.Text)
      ensures Value() == SendText(old(Value()), peer, m, false)
    {
      var c := if peer in conversations then conversations[peer] else EMPTY;
      m := Authored(c, id, me, sentAt, body, MessageKind.Text);
      conversations := conversations[peer := Insert(c, m)];
    }

    method Enqueue(peer: PeerKey, id: MessageId)
      modifies this`queued
      ensures queued == old(queued)[peer := QueuedFor(old(Value()), peer) + {id}]
    {
      queued := queued[peer := (if peer in queued then queued[peer] else {}) + {id}];
    }

    method TrySend(peer: PeerKey, m: Message, sid: nat, code: nat, accepted: bool) returns (sent: bool)
      modifies this`sessions, this`outbox
      ensures sent <==> accepted && peer in conns && (peer in old(sessions) || peer in bundles)
      ensures outbox == old(outbox) + if sent then Worlds.Packets(me, peer, [Chat(m)]) else []
      ensures peer !in conns ==> Keys() == old(Keys())
      ensures peer in conns ==> match Ratchet.EncryptFor(old(Keys()), peer, sid, code)
        case None => Keys() == old(Keys())
        case Some(s) => Keys() == s.keys
    {
      if peer !in conns { return false; }
      var c := EncryptFor(peer, sid, code);
      if c.None? || !accepted { return false; }
      Send(peer, Chat(m));
      return true;
    }

    /** `id` and `sid` are fresh draws, `code` is the encoded message, `accepted` says whether the stream took the
        frame. Whatever keeps the message from getting out, it is recorded once and queued. */
    method SendMessage(peer: PeerKey, id: MessageId, sentAt: nat, body: string, sid: nat, code: nat, accepted: bool)
      returns (m: Message, status: DeliveryStatus)
      modifies this`conversations, this`queued, this`sessions, this`outbox, this`events
      ensures Effects.Says(m, id, me, sentAt, body)
      ensures Effects.Texted(old(Value()), Value(), me, peer, m, status)
      ensures status == if accepted && peer in conns && (peer in old(sessions) || peer in bundles) then Sent else Queued
      ensures outbox == old(outbox) + if status == Sent then Worlds.Packets(me, peer, [Chat(m)]) else []
      ensures events == old(events) + [MessageStatus(peer, id, status)]
      ensures m == Authored(ConvoWith(old(Value()), peer), id, me, sentAt, body, MessageKind.Text)
      ensures Value() == SendText(old(Value()), peer, m, status == Queued)
    {
      ghost var st := Value();
      m, status := RecordAndTry(peer, id, sentAt, body, sid, code, accepted);
      Effects.SendTextIs(st, me, peer, id, sentAt, body, status);
      events := events + [MessageStatus(peer, m.id, status)];
    }

    method RecordAndTry(peer: PeerKey, id: MessageId, sentAt: nat, body: string, sid: nat, code: nat, accepted: bool)
      returns (m: Message, status: DeliveryStatus)
      modifies this`conversations, this`queued, this`sessions, this`outbox
      ensures status == if accepted && peer in conns && (peer in old(sessions) || peer in bundles) then Sent else Queued
      ensures outbox == old(outbox) + if status == Sent then Worlds.Packets(me, peer, [Chat(m)]) else []
      ensures m == Authored(ConvoWith(old(Value()), peer), id, me, sentAt, body, MessageKind.Text)
      ensures Value() == SendText(old(Value()), peer, m, status == Queued)
    {
      m := Record(peer, id, sentAt, body);
      var sent := TrySend(peer, m, sid, code, accepted);
      if !sent { Enqueue(peer, m.id); }
      status := if sent then Sent else Queued;
    }

    /** `mark_read`: our own watermark, and a receipt to the peer; an error if it is not connected. */
    method ReadTo(peer: PeerKey, upTo: Stamp) returns (ok: bool)
      modifies this`conversations, this`outbox
      ensures ok == (peer in conns)
      ensures peer in conversations && Effects.Marked(ConvoWith(old(Value()), peer), conversations[peer], me, upTo)
      ensures Value() == MarkReadDirect(old(Value()), me, peer, upTo)
      ensures outbox == old(outbox) + if ok then Worlds.Packets(me, peer, [Read(upTo)]) else []
    {
      var c := if peer in conversations then conversations[peer] else EMPTY;
      conversations := conversations[peer := MarkRead(c, me, upTo)];
      if peer !in conns { return false; }
      Send(peer, Read(upTo));
      return true;
    }

    method ReadGroup(g: GroupId)
      modifies this`groupConvos
      ensures g in old(groupConvos) ==> g in groupConvos && Effects.ReadToTheEnd(old(groupConvos)[g], groupConvos[g], me)
      ensures Value() == MarkReadGroup(old(Value()), me, g)
    {
      if g in groupConvos { Effects.GroupReadMarked(Value(), me, g); }
      if g !in groupConvos { return; }
      var q := MessagesOrdered(groupConvos[g]);
      var upTo := if q == [] then 0 else q[|q| - 1].lamport;
      groupConvos := groupConvos[g := MarkRead(groupConvos[g], me, upTo)];
    }

    /** One copy to every member but ourselves. */
    method ToMembers(members: seq<PeerKey>, f: Frame)
      modifies this`outbox
      ensures outbox == old(outbox) + Worlds.FanOut(me, members, f)
    {
      for i := 0 to |members|
        invariant outbox == old(outbox) + Worlds.FanOut(me, members[..i], f)
      {
        assert members[..i + 1][..i] == members[..i];
        if members[i] != me {
          PacketsOne(me, members[i], f);
          Send(members[i], f);
        }
      }
      assert members[..|members|] == members;
    }

    method RecordGroup(info: GroupInfo)
      modifies this`groups, this`groupConvos
      ensures Value() == CreateGroup(old(Value()), info)
    {
      groups := groups[info.id := info];
      if info.id !in groupConvos { groupConvos := groupConvos[info.id := EMPTY]; }
    }

    /** The creator is always on the roster, and nobody is on it twice. */
    method NewGroup(id: GroupId, name: string, members: seq<PeerKey>) returns (info: GroupInfo)
      modifies this`groups, this`groupConvos, this`outbox
      ensures info.id == id && info.name == name && info.creator == me
      ensures forall p :: p in info.members <==> p in members || p == me
      ensures forall i, j :: 0 <= i < j < |info.members| ==> info.members[i] < info.members[j]
      ensures Lookup(groups, id) == Some(info) && id in groupConvos
      ensures info == GroupInfo(id, name, Roster(members, me), me)
      ensures Value() == CreateGroup(old(Value()), info)
      ensures outbox == old(outbox) + Worlds.FanOut(me, info.members, GroupInvite(info))
    {
      info := GroupInfo(id, name, Roster(members, me), me);
      RosterIs(members, me);
      RecordGroup(info);
      ToMembers(info.members, GroupInvite(info));
    }

    method SendToGroup(g: GroupId, id: MessageId, sentAt: nat, body: string) returns (r: Option<Message>)
      modifies this`groupConvos, this`outbox
      ensures r.None? <==> g !in groups
      ensures r.None? ==> Value() == old(Value()) && outbox == old(outbox)
      ensures r.Some? ==> Effects.Says(r.value, id, me, sentAt, body)
      ensures r.Some? ==> g in groupConvos && Effects.Wrote(GroupConvo(old(Value()), g), groupConvos[g], r.value)
      ensures r.Some? ==> r.value == Authored(GroupConvo(old(Value()), g), id, me, sentAt, body, MessageKind.Text)
      ensures r.Some? ==> Value() == SendGroupText(old(Value()), g, r.value)
      ensures r.Some? ==> outbox == old(outbox) + Worlds.FanOut(me, groups[g].members, GroupMessage(g, r.value))
    {
      if g !in groups { return None; }
      var c := if g in groupConvos then groupConvos[g] else EMPTY;
      var m := Authored(c, id, me, sentAt, body, MessageKind.Text);
      Effects.AuthoredWrites(c, id, me, sentAt, body, MessageKind.Text);
      groupConvos := groupConvos[g := Insert(c, m)];
      ToMembers(groups[g].members, GroupMessage(g, m));
      return Some(m);
    }

    // ---------------------------------------------------------------- what the user sees

    method Shown(peer: PeerKey) returns (rows: seq<(Message, Option<DeliveryStatus>)>)
      ensures peer !in conversations ==> rows == []
      ensures peer in conversations ==> |rows| == |MessagesOrdered(conversations[peer])|
      ensures forall i :: 0 <= i < |rows| ==>
        peer in conversations && rows[i].0 == MessagesOrdered(conversations[peer])[i]
        && rows[i].1 == StatusOf(Value(), me, peer, rows[i].0)
      ensures forall i, j :: 0 <= i < j < |rows| ==> Before(rows[i].0, rows[j].0)
    {
      rows := [];
      if peer !in conversations { return; }
      DisplayedInOrder(conversations[peer]);
      var q := MessagesOrdered(conversations[peer]);
      for i := 0 to |q|
        invariant |rows| == i
        invariant forall k :: 0 <= k < i ==> rows[k] == (q[k], StatusOf(Value(), me, peer, q[k]))
      {
        var m := q[i];
        var status := None;
        if m.author == me {
          if (peer in peerHave && m.id in peerHave[peer]) || Watermark(conversations[peer], peer) >= m.lamport {
            status := Some(Delivered);
          } else if peer in queued && m.id in queued[peer] {
            status := Some(Queued);
          } else {
            status := Some(Sent);
          }
        }
        rows := rows + [(m, status)];
      }
    }
  }
}
