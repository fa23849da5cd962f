/** The conversation CRDT as a value, and its laws. */
module Conversations {
  import opened Wire
  import opened Ordering

  /** A `BTreeMap<MessageId, Message>` in which every message sits under its own id. */
  type MessageLog = m: map<MessageId, Message> | forall id :: id in m ==> m[id].id == id witness map[]

  datatype Convo = Convo(
    messages: MessageLog,
    reactions: set<Reaction>,
    read: map<AuthorId, Stamp>,
    lamport: Stamp)

  /** What two replicas compare: everything but the local clock. */
  datatype View = View(messages: MessageLog, reactions: set<Reaction>, read: map<AuthorId, Stamp>)

  const EMPTY := Convo(map[], {}, map[], 0)

  function Obs(c: Convo): View { View(c.messages, c.reactions, c.read) }

  // ------------------------------------------------------------------ operations

  function Max(a: Stamp, b: Stamp): Stamp { if a < b then b else a }

  /** `lamport += 1` on a u64 in a release build. */
  function Tick(l: Stamp): Stamp { if l == MAX_STAMP then 0 else l + 1 }

  /** The message a `create_*` call authors. `id` is the fresh random draw. */
  function Authored(c: Convo, id: MessageId, author: AuthorId, sentAt: nat, body: string, kind: MessageKind): Message
  {
    Message(id, author, Tick(c.lamport), sentAt, body, kind)
  }

  function Insert(c: Convo, m: Message): Convo
  {
    c.(messages := c.messages[m.id := m], lamport := m.lamport)
  }

  function Apply(c: Convo, m: Message): Convo
  {
    c.(messages := if m.id in c.messages then c.messages else c.messages[m.id := m],
       lamport := Max(c.lamport, m.lamport))
  }

  function Watermark(c: Convo, a: AuthorId): Stamp { if a in c.read then c.read[a] else 0 }

  function MarkRead(c: Convo, a: AuthorId, l: Stamp): Convo
  {
    c.(read := c.read[a := Max(Watermark(c, a), l)])
  }

  function React(c: Convo, r: Reaction): Convo { c.(reactions := c.reactions + {r}) }

  function ApplyAll(c: Convo, ms: seq<Message>): Convo
  {
    if ms == [] then c else Apply(ApplyAll(c, ms[..|ms| - 1]), ms[|ms| - 1])
  }

  function ReactAll(c: Convo, rs: seq<Reaction>): Convo
  {
    c.(reactions := c.reactions + set r | r in rs)
  }

  /** Each listed mark in turn raises its author's register. */
  function RaiseMarks(read: map<AuthorId, Stamp>, ps: seq<Mark>): map<AuthorId, Stamp>
  {
    if ps == [] then read
    else
      var r := RaiseMarks(read, ps[..|ps| - 1]);
      var p := ps[|ps| - 1];
      r[p.author := Max(if p.author in r then r[p.author] else 0, p.lamport)]
  }

  function MarkAll(c: Convo, ps: seq<Mark>): Convo { c.(read := RaiseMarks(c.read, ps)) }

  // ------------------------------------------------------------------ queries

  function MessageKey(m: Message): Key { [m.lamport, m.author, m.id] }

  function ReactionKey(r: Reaction): Key { [r.message, r.author] + Codes(r.emoji) }

  lemma LogValuesInjective(log: MessageLog)
    ensures Injective(log.Values, MessageKey)
  {
    forall x, y | x in log.Values && y in log.Values && MessageKey(x) == MessageKey(y) ensures x == y {
      assert MessageKey(x)[2] == MessageKey(y)[2];
    }
  }

  lemma ReactionKeyInjective(r: Reaction, q: Reaction)
    requires ReactionKey(r) == ReactionKey(q)
    ensures r == q
  {
    assert ReactionKey(r)[0] == ReactionKey(q)[0] && ReactionKey(r)[1] == ReactionKey(q)[1];
    assert ReactionKey(r)[2..] == Codes(r.emoji) && ReactionKey(q)[2..] == Codes(q.emoji);
    CodesInjective(r.emoji, q.emoji);
  }

  /** All messages in `(lamport, author, id)` order. */
  function MessagesOrdered(c: Convo): (q: seq<Message>)
    ensures SameElements(q, c.messages.Values) && Ascending(q, MessageKey)
  {
    LogValuesInjective(c.messages);
    Sorted(c.messages.Values, MessageKey)
  }

  /** Shown earlier: by stamp, among equal stamps by author, among these by id. */
  predicate Before(a: Message, b: Message)
  {
    || a.lamport < b.lamport
    || (a.lamport == b.lamport && a.author < b.author)
    || (a.lamport == b.lamport && a.author == b.author && a.id < b.id)
  }

  lemma KeysInOrder(a: Message, b: Message)
    requires Less(MessageKey(a), MessageKey(b))
    ensures Before(a, b)
  {
    var j, k := MessageKey(a), MessageKey(b);
    assert j[1..] == [a.author, a.id] && k[1..] == [b.author, b.id];
    if a.lamport == b.lamport {
      assert Less([a.author, a.id], [b.author, b.id]);
      assert [a.author, a.id][1..] == [a.id] && [b.author, b.id][1..] == [b.id];
      if a.author == b.author {
        assert Less([a.id], [b.id]);
        assert [a.id][1..] == [] && [b.id][1..] == [];
        assert !Less([], []);
      }
    }
  }

  lemma DisplayedInOrder(c: Convo)
    ensures forall i, j :: 0 <= i < j < |MessagesOrdered(c)| ==> Before(MessagesOrdered(c)[i], MessagesOrdered(c)[j])
  {
    var q := MessagesOrdered(c);
    forall i, j | 0 <= i < j < |q| ensures Before(q[i], q[j]) {
      KeysInOrder(q[i], q[j]);
    }
  }

  function ReactionList(c: Convo): (q: seq<Reaction>)
    ensures SameElements(q, c.reactions) && Ascending(q, ReactionKey)
  {
    assert Injective(c.reactions, ReactionKey) by {
      forall r, q | r in c.reactions && q in c.reactions && ReactionKey(r) == ReactionKey(q) ensures r == q {
        ReactionKeyInjective(r, q);
      }
    }
    Sorted(c.reactions, ReactionKey)
  }

  /** `q` lists exactly the entries of the register map `read`. */
  ghost predicate ListsMarks(q: seq<Mark>, read: map<AuthorId, Stamp>)
  {
    && (forall p :: p in q ==> p.author in read && p.lamport == read[p.author])
    && (forall a :: a in read ==> Mark(a, read[a]) in q)
  }

  function ReadList(c: Convo): (q: seq<Mark>)
    ensures ListsMarks(q, c.read)
  {
    var ks := SortedIds(c.read.Keys);
    assert forall i :: 0 <= i < |ks| ==> ks[i] in ks;
    var q := seq(|ks|, i requires 0 <= i < |ks| => Mark(ks[i], c.read[ks[i]]));
    assert forall a :: a in c.read ==> Mark(a, c.read[a]) in q by {
      forall a | a in c.read ensures Mark(a, c.read[a]) in q {
        assert a in ks;
        var i :| 0 <= i < |ks| && ks[i] == a;
        assert q[i] == Mark(a, c.read[a]);
      }
    }
    q
  }

  function Have(c: Convo): set<MessageId> { c.messages.Keys }

  /** `q` lists exactly the messages of `log` under `ids`. */
  ghost predicate ListsMessages(q: seq<Message>, log: MessageLog, ids: set<MessageId>)
  {
    && (forall m :: m in q ==> m.id in ids && m.id in log && m == log[m.id])
    && (forall id :: id in ids ==> id in log && log[id] in q)
  }

  lemma ListsByIndex(q: seq<Message>, ks: seq<MessageId>, log: MessageLog, ids: set<MessageId>)
    requires SameElements(ks, ids) && ids <= log.Keys && |q| == |ks|
    requires forall i :: 0 <= i < |ks| ==> ks[i] in log && q[i] == log[ks[i]]
    ensures ListsMessages(q, log, ids)
  {
    forall m | m in q ensures m.id in ids && m == log[m.id] {
      var i :| 0 <= i < |q| && q[i] == m;
      assert ks[i] in ks;
    }
    forall id | id in ids ensures log[id] in q {
      assert id in ks;
      var i :| 0 <= i < |ks| && ks[i] == id;
      assert q[i] == log[id];
    }
  }

  /** The messages stored under `ids`, in id order. */
  function MessagesFor(log: MessageLog, ids: set<MessageId>): (q: seq<Message>)
    requires ids <= log.Keys
    ensures ListsMessages(q, log, ids)
  {
    var ks := SortedIds(ids);
    assert forall i :: 0 <= i < |ks| ==> ks[i] in ks;
    var q := seq(|ks|, i requires 0 <= i < |ks| => log[ks[i]]);
    ListsByIndex(q, ks, log, ids);
    q
  }

  function DeltaSince(c: Convo, have: set<MessageId>): (q: seq<Message>)
    ensures ListsMessages(q, c.messages, c.messages.Keys - have)
  {
    MessagesFor(c.messages, c.messages.Keys - have)
  }

  // ------------------------------------------------------------------ merge

  function Stamps(log: MessageLog): set<nat> { set id | id in log :: log[id].lamport as nat }

  ghost function HighestStamp(log: MessageLog): (h: Stamp)
    ensures forall id :: id in log ==> log[id].lamport <= h
    ensures h == 0 || exists id :: id in log && log[id].lamport == h
  {
    assert forall id :: id in log ==> log[id].lamport in Stamps(log);
    Highest(Stamps(log))
  }

  function JoinRead(a: map<AuthorId, Stamp>, b: map<AuthorId, Stamp>): (r: map<AuthorId, Stamp>)
  {
    map k | k in a.Keys + b.Keys ::
      if k in a && k in b then Max(a[k], b[k]) else if k in a then a[k] else b[k]
  }

  /** First write wins: an id this side already holds keeps this side's message. */
  function JoinLog(a: MessageLog, b: MessageLog): MessageLog { b + a }

  function Join(a: View, b: View): View
  {
    View(JoinLog(a.messages, b.messages), a.reactions + b.reactions, JoinRead(a.read, b.read))
  }

  ghost function Merge(c: Convo, o: Convo): Convo
  {
    Convo(JoinLog(c.messages, o.messages), c.reactions + o.reactions, JoinRead(c.read, o.read),
          Max(c.lamport, HighestStamp(o.messages)))
  }

  // ------------------------------------------------------------------ laws

  /** The two replicas hold the same message under every id they share. */
  ghost predicate Agree(a: MessageLog, b: MessageLog)
  {
    forall id :: id in a && id in b ==> a[id] == b[id]
  }

  lemma MergeIdempotent(a: Convo)
    ensures Obs(Merge(a, a)) == Obs(a)
  {
    assert JoinRead(a.read, a.read) == a.read;
  }

  lemma MergeAssociative(a: Convo, b: Convo, c: Convo)
    ensures Obs(Merge(Merge(a, b), c)) == Obs(Merge(a, Merge(b, c)))
  {
    JoinReadAssociative(a.read, b.read, c.read);
    JoinLogAssociative(a.messages, b.messages, c.messages);
  }

  lemma JoinLogAssociative(a: MessageLog, b: MessageLog, c: MessageLog)
    ensures JoinLog(JoinLog(a, b), c) == JoinLog(a, JoinLog(b, c))
  {
  }

  lemma JoinReadAssociative(a: map<AuthorId, Stamp>, b: map<AuthorId, Stamp>, c: map<AuthorId, Stamp>)
    ensures JoinRead(JoinRead(a, b), c) == JoinRead(a, JoinRead(b, c))
  {
    var l, r := JoinRead(JoinRead(a, b), c), JoinRead(a, JoinRead(b, c));
    assert l.Keys == r.Keys;
    forall k | k in l ensures l[k] == r[k] {
    }
  }

  /** Merge commutes exactly when the two sides agree on the ids they share. */
  lemma MergeCommutesIff(a: Convo, b: Convo)
    ensures Obs(Merge(a, b)) == Obs(Merge(b, a)) <==> Agree(a.messages, b.messages)
  {
    assert JoinRead(a.read, b.read) == JoinRead(b.read, a.read);
    if Obs(Merge(a, b)) == Obs(Merge(b, a)) {
      forall id | id in a.messages && id in b.messages ensures a.messages[id] == b.messages[id] {
        assert JoinLog(a.messages, b.messages)[id] == JoinLog(b.messages, a.messages)[id];
      }
    }
  }

  /** Two messages under one id: merge order decides which one survives. */
  lemma MergeCommutesFails()
    ensures exists a: Convo, b: Convo :: Obs(Merge(a, b)) != Obs(Merge(b, a))
  {
    var a := Apply(EMPTY, Message(7, 1, 1, 0, "a", Text));
    var b := Apply(EMPTY, Message(7, 2, 1, 0, "b", Text));
    assert a.messages[7] != b.messages[7];
    MergeCommutesIff(a, b);
  }

  // ------------------------------------------------------------------ delta refines merge

  lemma {:induction false} ApplyAllFrame(c: Convo, ms: seq<Message>)
    ensures ApplyAll(c, ms).reactions == c.reactions && ApplyAll(c, ms).read == c.read
    ensures c.messages.Keys <= ApplyAll(c, ms).messages.Keys
    ensures forall id :: id in c.messages ==> ApplyAll(c, ms).messages[id] == c.messages[id]
    ensures c.lamport <= ApplyAll(c, ms).lamport
  {
    if ms != [] {
      ApplyAllFrame(c, ms[..|ms| - 1]);
    }
  }

  /** Every key of the result was held before or is carried, and so is every message. */
  lemma {:induction false} ApplyAllSources(c: Convo, ms: seq<Message>)
    ensures forall m :: m in ms ==> m.id in ApplyAll(c, ms).messages
    ensures forall id :: id in ApplyAll(c, ms).messages && id !in c.messages ==> ApplyAll(c, ms).messages[id] in ms
    ensures forall m :: m in ms ==> m.lamport <= ApplyAll(c, ms).lamport
    ensures ApplyAll(c, ms).lamport == c.lamport || exists m :: m in ms && m.lamport == ApplyAll(c, ms).lamport
  {
    if ms != [] {
      var k := |ms| - 1;
      ApplyAllSources(c, ms[..k]);
      assert ms == ms[..k] + [ms[k]];
      assert forall m :: m in ms <==> m in ms[..k] || m == ms[k];
    }
  }

  /** After a watermark list, an author's register is the larger of the old value and the listed. */
  lemma {:induction false} RaiseMarksIs(read: map<AuthorId, Stamp>, ps: seq<Mark>)
    ensures forall a :: a in RaiseMarks(read, ps) <==> a in read || exists p :: p in ps && p.author == a
    ensures forall p :: p in ps ==> p.lamport <= RaiseMarks(read, ps)[p.author]
    ensures forall a :: a in read ==> read[a] <= RaiseMarks(read, ps)[a]
    ensures forall a :: a in RaiseMarks(read, ps) ==>
      (a in read && RaiseMarks(read, ps)[a] == read[a]) || Mark(a, RaiseMarks(read, ps)[a]) in ps
  {
    if ps != [] {
      var k := |ps| - 1;
      RaiseMarksIs(read, ps[..k]);
      assert ps == ps[..k] + [ps[k]];
      assert forall p :: p in ps <==> p in ps[..k] || p == ps[k];
    }
  }

  /** A delta as `build_delta` fills it in and `apply_delta` consumes it. */
  function ApplyDelta(c: Convo, ms: seq<Message>, rs: seq<Reaction>, ps: seq<Mark>): Convo
  {
    MarkAll(ReactAll(ApplyAll(c, ms), rs), ps)
  }

  lemma ListedMarksJoin(read: map<AuthorId, Stamp>, ps: seq<Mark>, other: map<AuthorId, Stamp>)
    requires ListsMarks(ps, other)
    ensures RaiseMarks(read, ps) == JoinRead(read, other)
  {
    RaiseMarksIs(read, ps);
    var r, j := RaiseMarks(read, ps), JoinRead(read, other);
    forall a ensures a in r <==> a in j {
      if a in other { assert Mark(a, other[a]) in ps; }
    }
    forall a | a in r ensures r[a] == j[a] {
      if a in other { assert Mark(a, other[a]) in ps; }
    }
  }

  /** Applying a listing of what is missing, in any order, joins the logs. */
  lemma ListedMessagesJoin(c: Convo, ms: seq<Message>, other: MessageLog)
    requires ListsMessages(ms, other, other.Keys - c.messages.Keys)
    ensures ApplyAll(c, ms).messages == JoinLog(c.messages, other)
  {
    var log, j := ApplyAll(c, ms).messages, JoinLog(c.messages, other);
    ApplyAllFrame(c, ms);
    ApplyAllSources(c, ms);
    forall id ensures id in log <==> id in j {
      if id in other && id !in c.messages { assert other[id] in ms; }
    }
    forall id | id in log ensures log[id] == j[id] {
      if id !in c.messages { assert log[id] in ms; }
    }
  }

  /** Any listing of another replica's missing messages, reactions and watermarks joins it in. */
  lemma ListedDeltaJoins(c: Convo, ms: seq<Message>, rs: seq<Reaction>, ps: seq<Mark>, o: View)
    requires ListsMessages(ms, o.messages, o.messages.Keys - c.messages.Keys)
    requires SameElements(rs, o.reactions) && ListsMarks(ps, o.read)
    ensures Obs(ApplyDelta(c, ms, rs, ps)) == Join(Obs(c), o)
  {
    ApplyAllFrame(c, ms);
    ListedMessagesJoin(c, ms, o.messages);
    ListedMarksJoin(c.read, ps, o.read);
    assert (set r | r in rs) == o.reactions;
  }

  /** Sending only what the other side lacks, with all reactions and watermarks, gives the receiver
      exactly what a full merge would. */
  lemma DeltaRefinesMerge(c: Convo, o: Convo)
    ensures Obs(ApplyDelta(c, DeltaSince(o, Have(c)), ReactionList(o), ReadList(o))) == Obs(Merge(c, o))
  {
    ListedDeltaJoins(c, DeltaSince(o, Have(c)), ReactionList(o), ReadList(o), Obs(o));
  }

  lemma ListedClockIff(c: Convo, ms: seq<Message>, other: MessageLog)
    requires ListsMessages(ms, other, other.Keys - c.messages.Keys)
    ensures ApplyAll(c, ms).lamport == Max(c.lamport, HighestStamp(other)) <==>
      forall id :: id in c.messages && id in other ==> other[id].lamport <= ApplyAll(c, ms).lamport
  {
    var clock := ApplyAll(c, ms).lamport;
    ApplyAllFrame(c, ms);
    ApplyAllSources(c, ms);
    forall id | id in other && id !in c.messages ensures other[id].lamport <= clock {
      assert other[id] in ms;
    }
    if m :| m in ms && m.lamport == clock {
      assert other[m.id].lamport <= HighestStamp(other);
    }
  }

  /** The message `id` is stamped at or below this side's clock, or some message this side lacks. */
  ghost predicate StampReached(c: Convo, o: Convo, id: MessageId)
    requires id in o.messages
  {
    || o.messages[id].lamport <= c.lamport
    || exists k :: k in o.messages && k !in c.messages && o.messages[id].lamport <= o.messages[k].lamport
  }

  lemma ListedClockReaches(c: Convo, ms: seq<Message>, o: Convo, id: MessageId)
    requires ListsMessages(ms, o.messages, o.messages.Keys - c.messages.Keys) && id in o.messages
    ensures o.messages[id].lamport <= ApplyAll(c, ms).lamport <==> StampReached(c, o, id)
  {
    ApplyAllFrame(c, ms);
    ApplyAllSources(c, ms);
    if k :| k in o.messages && k !in c.messages && o.messages[id].lamport <= o.messages[k].lamport {
      assert o.messages[k] in ms;
    }
    if m :| m in ms && m.lamport == ApplyAll(c, ms).lamport {
      assert m.id in o.messages && m.id !in c.messages && o.messages[m.id] == m;
    }
  }

  /** The clocks of the two routes agree exactly when every shared message carries a stamp that this side's
      clock, or a message it lacks, already reaches. */
  lemma DeltaClockIff(c: Convo, o: Convo)
    ensures ApplyDelta(c, DeltaSince(o, Have(c)), ReactionList(o), ReadList(o)).lamport == Merge(c, o).lamport <==>
      forall id :: id in c.messages && id in o.messages ==> StampReached(c, o, id)
  {
    var ms := DeltaSince(o, Have(c));
    ListedClockIff(c, ms, o.messages);
    forall id | id in o.messages ensures o.messages[id].lamport <= ApplyAll(c, ms).lamport <==> StampReached(c, o, id) {
      ListedClockReaches(c, ms, o, id);
    }
  }

  /** Two messages under one id: the delta omits the other side's, whose stamp the merge would take over. */
  lemma DeltaClockLags()
    ensures exists c: Convo, o: Convo ::
      ApplyDelta(c, DeltaSince(o, Have(c)), ReactionList(o), ReadList(o)).lamport < Merge(c, o).lamport
  {
    var c := Apply(EMPTY, Message(7, 1, 1, 0, "a", Text));
    var o := Apply(EMPTY, Message(7, 2, 5, 0, "b", Text));
    assert 7 in c.messages && 7 in o.messages && o.messages[7].lamport == 5;
    assert !StampReached(c, o, 7);
    DeltaClockIff(c, o);
    DeltaClockBelow(c, o);
  }

  lemma ListedClockBelow(c: Convo, ms: seq<Message>, other: MessageLog)
    requires ListsMessages(ms, other, other.Keys - c.messages.Keys)
    ensures ApplyAll(c, ms).lamport <= Max(c.lamport, HighestStamp(other))
  {
    ApplyAllSources(c, ms);
    if m :| m in ms && m.lamport == ApplyAll(c, ms).lamport {
      assert other[m.id].lamport <= HighestStamp(other);
    }
  }

  /** The delta's clock is never ahead of the merge's. */
  lemma DeltaClockBelow(c: Convo, o: Convo)
    ensures ApplyDelta(c, DeltaSince(o, Have(c)), ReactionList(o), ReadList(o)).lamport <= Merge(c, o).lamport
  {
    ListedClockBelow(c, DeltaSince(o, Have(c)), o.messages);
  }

  /** The clock never lags the messages held. */
  ghost predicate Covers(c: Convo)
  {
    forall id :: id in c.messages ==> c.messages[id].lamport <= c.lamport
  }

  lemma DeltaClockRefinesMerge(c: Convo, o: Convo)
    requires Covers(c) && Agree(c.messages, o.messages)
    ensures ApplyDelta(c, DeltaSince(o, Have(c)), ReactionList(o), ReadList(o)) == Merge(c, o)
  {
    DeltaRefinesMerge(c, o);
    DeltaClockIff(c, o);
  }

  // ------------------------------------------------------------------ the order on views

  ghost predicate BelowLog(a: MessageLog, b: MessageLog)
  {
    forall id :: id in a ==> id in b && a[id] == b[id]
  }

  ghost predicate BelowRead(a: map<AuthorId, Stamp>, b: map<AuthorId, Stamp>)
  {
    forall k :: k in a ==> k in b && a[k] <= b[k]
  }

  ghost predicate Below(v: View, u: View)
  {
    BelowLog(v.messages, u.messages) && v.reactions <= u.reactions && BelowRead(v.read, u.read)
  }

  lemma JoinIsAbove(a: View, b: View)
    requires Agree(a.messages, b.messages)
    ensures Below(a, Join(a, b)) && Below(b, Join(a, b))
  {
  }

  lemma JoinIsLeast(a: View, b: View, u: View)
    requires Below(a, u) && Below(b, u)
    ensures Below(Join(a, b), u)
  {
  }

  lemma BelowTransitive(v: View, u: View, t: View)
    requires Below(v, u) && Below(u, t)
    ensures Below(v, t)
  {
  }

  lemma JoinCommutes(a: View, b: View)
    requires Agree(a.messages, b.messages)
    ensures Join(a, b) == Join(b, a)
  {
    assert JoinRead(a.read, b.read) == JoinRead(b.read, a.read);
  }

  lemma ApplyGrows(c: Convo, m: Message)
    ensures Below(Obs(c), Obs(Apply(c, m)))
  {
  }

  lemma MarkReadGrows(c: Convo, a: AuthorId, l: Stamp)
    ensures Below(Obs(c), Obs(MarkRead(c, a, l)))
  {
  }

  lemma ApplyDeltaGrows(c: Convo, ms: seq<Message>, rs: seq<Reaction>, ps: seq<Mark>)
    ensures Below(Obs(c), Obs(ApplyDelta(c, ms, rs, ps)))
  {
    ApplyAllFrame(c, ms);
    RaiseMarksIs(c.read, ps);
  }
}
