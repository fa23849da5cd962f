/** Persisted snapshots: what a restore keeps, and why the clock it resumes from is high enough. */
module Snapshots {
  import opened Wire
  import opened Ordering
  import opened Conversations
  import opened Convergence

  datatype Snapshot = Snapshot(messages: seq<Message>, reactions: seq<Reaction>, read: seq<Mark>)

  function Take(c: Convo): Snapshot
  {
    Snapshot(MessagesFor(c.messages, c.messages.Keys), ReactionList(c), ReadList(c))
  }

  function RaiseClock(l: Stamp, ps: seq<Mark>): Stamp
  {
    if ps == [] then l else Max(RaiseClock(l, ps[..|ps| - 1]), ps[|ps| - 1].lamport)
  }

  function Restore(s: Snapshot): Convo
  {
    var c := ApplyDelta(EMPTY, s.messages, s.reactions, s.read);
    c.(lamport := RaiseClock(c.lamport, s.read))
  }

  /** The clock is at most the highest stamp or watermark held. */
  ghost predicate Anchored(c: Convo)
  {
    || c.lamport == 0
    || (exists id :: id in c.messages && c.lamport <= c.messages[id].lamport)
    || (exists a :: a in c.read && c.lamport <= c.read[a])
  }

  lemma {:induction false} RaiseClockIs(l: Stamp, ps: seq<Mark>)
    ensures l <= RaiseClock(l, ps)
    ensures forall p :: p in ps ==> p.lamport <= RaiseClock(l, ps)
    ensures RaiseClock(l, ps) == l || exists p :: p in ps && p.lamport == RaiseClock(l, ps)
  {
    if ps != [] {
      var k := |ps| - 1;
      RaiseClockIs(l, ps[..k]);
      assert ps == ps[..k] + [ps[k]];
      assert forall p :: p in ps <==> p in ps[..k] || p == ps[k];
    }
  }

  /** A restored conversation has everything the saved one had. */
  lemma RestoreKeepsContents(c: Convo)
    ensures Obs(Restore(Take(c))) == Obs(c)
  {
    var s := Take(c);
    ListedContentsRestore(s.messages, s.reactions, s.read, Obs(c));
  }

  lemma ListedContentsRestore(ms: seq<Message>, rs: seq<Reaction>, ps: seq<Mark>, v: View)
    requires ListsMessages(ms, v.messages, v.messages.Keys)
    requires SameElements(rs, v.reactions) && ListsMarks(ps, v.read)
    ensures Obs(ApplyDelta(EMPTY, ms, rs, ps)) == v
  {
    assert v.messages.Keys - EMPTY.messages.Keys == v.messages.Keys;
    ListedDeltaJoins(EMPTY, ms, rs, ps, v);
    assert Join(Obs(EMPTY), v) == v by {
      assert JoinLog(EMPTY.messages, v.messages) == v.messages;
      assert JoinRead(EMPTY.read, v.read) == v.read;
    }
  }

  /** The restored clock is past every message and every watermark, and no further. */
  lemma RestoredClock(c: Convo)
    ensures Covers(Restore(Take(c)))
    ensures forall a :: a in c.read ==> c.read[a] <= Restore(Take(c)).lamport
    ensures Anchored(Restore(Take(c)))
  {
    var s, r := Take(c), Restore(Take(c));
    var l0 := ApplyAll(EMPTY, s.messages).lamport;
    RestoreKeepsContents(c);
    RaiseClockIs(l0, s.read);
    ApplyAllSources(EMPTY, s.messages);
    forall id | id in r.messages ensures r.messages[id].lamport <= r.lamport {
      assert c.messages[id] in s.messages;
    }
    forall a | a in c.read ensures c.read[a] <= r.lamport {
      assert Mark(a, c.read[a]) in s.read;
    }
    if r.lamport == l0 {
      if m :| m in s.messages && m.lamport == l0 {
        assert m.id in r.messages && r.messages[m.id] == m;
      }
    } else {
      var p :| p in s.read && p.lamport == r.lamport;
      assert p.author in r.read && r.read[p.author] == p.lamport;
    }
  }

  /** A restore loses no clock progress exactly when the saved clock was anchored. */
  lemma ClockContinuesIff(c: Convo)
    ensures c.lamport <= Restore(Take(c)).lamport <==> Anchored(c)
  {
    RestoreKeepsContents(c);
    RestoredClock(c);
    var r := Restore(Take(c));
    assert r.messages == c.messages && r.read == c.read;
  }

  lemma InsertAnchors(c: Convo, m: Message)
    ensures Anchored(Insert(c, m))
  {
    assert Insert(c, m).messages[m.id] == m;
  }

  /** Receiving a message keeps the clock anchored except when its id is already taken by another
      message and its stamp is above everything held. */
  lemma ApplyAnchoredIff(c: Convo, m: Message)
    requires Anchored(c)
    ensures Anchored(Apply(c, m)) <==>
      m.id !in c.messages || m.lamport == 0 ||
      (exists id :: id in c.messages && m.lamport <= c.messages[id].lamport) ||
      (exists a :: a in c.read && m.lamport <= c.read[a])
  {
    var d := Apply(c, m);
    if m.id !in c.messages {
      assert d.messages[m.id] == m;
      if id :| id in c.messages && c.lamport <= c.messages[id].lamport {
        assert d.messages[id] == c.messages[id];
      }
    }
  }

  lemma MarkAnchored(c: Convo, a: AuthorId, l: Stamp)
    requires Anchored(c)
    ensures Anchored(MarkRead(c, a, l))
  {
    var d := MarkRead(c, a, l);
    if b :| b in c.read && c.lamport <= c.read[b] {
      assert c.read[b] <= d.read[b];
    }
  }

  lemma MergeAnchored(c: Convo, o: Convo)
    requires Anchored(c) && Agree(c.messages, o.messages)
    ensures Anchored(Merge(c, o))
  {
    var d := Merge(c, o);
    if d.lamport == c.lamport {
      if id :| id in c.messages && c.lamport <= c.messages[id].lamport {
        assert d.messages[id] == c.messages[id];
      } else if b :| b in c.read && c.lamport <= c.read[b] {
        assert c.read[b] <= d.read[b];
      }
    } else {
      var id :| id in o.messages && o.messages[id].lamport == HighestStamp(o.messages);
      assert d.messages[id] == o.messages[id];
    }
  }

  lemma AppendedLast(log: MessageLog, q: seq<Message>, m: Message)
    requires SameElements(q, log.Values) && Ascending(q, MessageKey)
    requires m.id !in log && forall id :: id in log ==> log[id].lamport < m.lamport
    ensures var grown: MessageLog := log[m.id := m];
      SameElements(q + [m], grown.Values) && Ascending(q + [m], MessageKey)
  {
    var grown: MessageLog := log[m.id := m];
    var p := q + [m];
    forall x ensures x in p <==> x in grown.Values {
      if x in log.Values {
        var k :| k in log && log[k] == x;
        assert grown[k] == x;
      }
      assert grown[m.id] == m;
    }
    forall i, j | 0 <= i < j < |p| ensures Less(MessageKey(p[i]), MessageKey(p[j])) {
      if j == |q| {
        assert q[i] in q;
        var k :| k in log && log[k] == q[i];
      } else {
        assert Less(MessageKey(q[i]), MessageKey(q[j]));
      }
    }
  }

  /** A message created below the top of the clock is appended to the displayed conversation. */
  lemma CreatedSortsLast(c: Convo, id: MessageId, author: AuthorId, sentAt: nat, body: string, kind: MessageKind)
    requires Covers(c) && id !in c.messages && c.lamport < MAX_STAMP
    ensures var m := Authored(c, id, author, sentAt, body, kind);
      MessagesOrdered(Insert(c, m)) == MessagesOrdered(c) + [m]
  {
    var m := Authored(c, id, author, sentAt, body, kind);
    AppendedLast(c.messages, MessagesOrdered(c), m);
    DisplayOrderUnique(Insert(c, m), MessagesOrdered(c) + [m]);
  }

  lemma NotLast(log: MessageLog, q: seq<Message>, x: Message, m: Message)
    requires SameElements(q, log.Values) && Ascending(q, MessageKey)
    requires x in log.Values && m in log.Values && m.lamport < x.lamport
    ensures q != [] && q[|q| - 1] != m
  {
    assert x in q;
    var i :| 0 <= i < |q| && q[i] == x;
    assert i < |q| - 1 ==> Less(MessageKey(x), MessageKey(q[|q| - 1]));
  }

  /** At the top of the clock the stamp wraps to 0 and the message does not sort last. */
  lemma WrappedNotLast(c: Convo, m: Message, k: MessageId)
    requires m.id !in c.messages && m.lamport == 0 && k in c.messages && c.messages[k].lamport > 0
    ensures var q := MessagesOrdered(Insert(c, m)); q != [] && q[|q| - 1] != m
  {
    var d := Insert(c, m);
    assert d.messages[m.id] == m && d.messages[k] == c.messages[k];
    NotLast(d.messages, MessagesOrdered(d), c.messages[k], m);
  }

  /** So the order holds exactly below it. */
  lemma CreatedSortsLastIff(c: Convo, id: MessageId, author: AuthorId, sentAt: nat, body: string, kind: MessageKind)
    requires Covers(c) && id !in c.messages
    requires exists k :: k in c.messages && c.messages[k].lamport > 0
    ensures var m := Authored(c, id, author, sentAt, body, kind);
      var q := MessagesOrdered(Insert(c, m));
      q != [] && (q[|q| - 1] == m <==> c.lamport < MAX_STAMP)
  {
    if c.lamport < MAX_STAMP {
      CreatedSortsLast(c, id, author, sentAt, body, kind);
    } else {
      var k :| k in c.messages && c.messages[k].lamport > 0;
      WrappedNotLast(c, Authored(c, id, author, sentAt, body, kind), k);
    }
  }

  /** The first message after a restore sorts last and is unread for everyone. */
  lemma NextAfterRestore(c: Convo, id: MessageId, author: AuthorId, sentAt: nat, body: string, kind: MessageKind)
    requires id !in c.messages && Restore(Take(c)).lamport < MAX_STAMP
    ensures var r := Restore(Take(c));
      var m := Authored(r, id, author, sentAt, body, kind);
      && MessagesOrdered(Insert(r, m)) == MessagesOrdered(c) + [m]
      && forall a :: a in c.read ==> c.read[a] < m.lamport
  {
    RestoreKeepsContents(c);
    RestoredClock(c);
    CreatedSortsLast(Restore(Take(c)), id, author, sentAt, body, kind);
  }
}
