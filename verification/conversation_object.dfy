/** The conversation as the mutable object of the sync crate: each method is proved to move the abstract
    value exactly as the laws of `Conversations` assume. (The node, which owns its conversations and shares
    none, is modelled with their values.) */
module ConversationObject {
  import opened Wire
  import opened Conversations
  import opened Snapshots

  /** The part of a log, or of a register map, that has been visited. */
  function Part<V>(m: map<nat, V>, visited: set<nat>): map<nat, V> { map k | k in m && k in visited :: m[k] }

  lemma PartJoins(log: MessageLog, other: MessageLog, visited: set<MessageId>, id: MessageId)
    requires id in other
    ensures var before, after := JoinLog(log, Part(other, visited)), JoinLog(log, Part(other, visited + {id}));
      after == if id in before then before else before[id := other[id]]
  {
  }

  lemma HighestIs(log: MessageLog, h: Stamp)
    requires forall id :: id in log ==> log[id].lamport <= h
    requires h == 0 || exists id :: id in log && log[id].lamport == h
    ensures HighestStamp(log) == h
  {
  }

  lemma PartRaises(other: MessageLog, visited: set<MessageId>, id: MessageId)
    requires id in other
    ensures HighestStamp(Part(other, visited + {id})) == Max(HighestStamp(Part(other, visited)), other[id].lamport)
  {
    var before, after: MessageLog := Part(other, visited), Part(other, visited + {id});
    var h := HighestStamp(before);
    if h >= other[id].lamport && h > 0 {
      var k :| k in before && before[k].lamport == h;
      assert after[k].lamport == h;
    }
    assert after[id] == other[id];
    HighestIs(after, Max(h, other[id].lamport));
  }

  lemma AllVisited<V>(m: map<nat, V>)
    ensures Part(m, m.Keys) == m && Part(m, {}) == map[]
  {
  }

  class Conversation {
    var messages: MessageLog
    var reactions: set<Reaction>
    var read: map<AuthorId, Stamp>
    var lamport: Stamp

    ghost function Value(): Convo
      reads this
    {
      Convo(messages, reactions, read, lamport)
    }

    constructor ()
      ensures Value() == EMPTY
    {
      messages, reactions, read, lamport := map[], {}, map[], 0;
    }

    method CreateText(id: MessageId, author: AuthorId, sentAt: nat, body: string) returns (m: Message)
      modifies this
      ensures m.id == id && m.author == author && m.sentAt == sentAt && m.body == body && m.kind == Text
      ensures old(lamport) < MAX_STAMP ==> m.lamport == old(lamport) + 1
      ensures lamport == m.lamport && messages == old(messages)[id := m]
      ensures reactions == old(reactions) && read == old(read)
      ensures m == Authored(old(Value()), id, author, sentAt, body, Text)
      ensures Value() == Insert(old(Value()), m)
    {
      lamport := if lamport == MAX_STAMP then 0 else lamport + 1;
      m := Message(id, author, lamport, sentAt, body, Text);
      messages := messages[id := m];
    }

    method CreateFile(id: MessageId, author: AuthorId, sentAt: nat, file: FileRef) returns (m: Message)
      modifies this
      ensures m.id == id && m.author == author && m.sentAt == sentAt && m.body == file.name && m.kind == File(file)
      ensures old(lamport) < MAX_STAMP ==> m.lamport == old(lamport) + 1
      ensures lamport == m.lamport && messages == old(messages)[id := m]
      ensures reactions == old(reactions) && read == old(read)
      ensures m == Authored(old(Value()), id, author, sentAt, file.name, File(file))
      ensures Value() == Insert(old(Value()), m)
    {
      lamport := if lamport == MAX_STAMP then 0 else lamport + 1;
      m := Message(id, author, lamport, sentAt, file.name, File(file));
      messages := messages[id := m];
    }

    method Receive(m: Message)
      modifies this
      ensures m.id in messages && (m.id !in old(messages) ==> messages == old(messages)[m.id := m])
      ensures m.id in old(messages) ==> messages == old(messages)
      ensures old(lamport) <= lamport && m.lamport <= lamport && lamport in {old(lamport), m.lamport}
      ensures Value() == Apply(old(Value()), m)
    {
      if lamport < m.lamport { lamport := m.lamport; }
      if m.id !in messages { messages := messages[m.id := m]; }
    }

    method SetRead(a: AuthorId, l: Stamp)
      modifies this
      ensures a in read && l <= read[a] && (a in old(read) ==> old(read)[a] <= read[a])
      ensures read[a] == l || (a in old(read) && read[a] == old(read)[a])
      ensures Value() == MarkRead(old(Value()), a, l)
    {
      if a !in read { read := read[a := 0]; }
      if read[a] < l { read := read[a := l]; }
    }

    method AddReaction(r: Reaction)
      modifies this
      ensures reactions == old(reactions) + {r}
      ensures Value() == React(old(Value()), r)
    {
      reactions := reactions + {r};
    }

    /** Visits the other replica's entries in whatever order its maps yield them. */
    method MergeFrom(other: Conversation)
      requires other != this
      modifies this
      ensures Value() == Merge(old(Value()), other.Value())
    {
      MergeMessages(other);
      reactions := reactions + other.reactions;
      MergeRead(other);
    }

    method MergeMessages(other: Conversation)
      requires other != this
      modifies this`messages, this`lamport
      ensures messages == JoinLog(old(messages), other.messages)
      ensures lamport == Max(old(lamport), HighestStamp(other.messages))
    {
      ghost var visited := {};
      AllVisited(other.messages);
      assert JoinLog(messages, map[]) == messages;
      HighestIs(map[], 0);
      var ids := other.messages.Keys;
      while ids != {}
        invariant ids + visited == other.messages.Keys
        invariant messages == JoinLog(old(messages), Part(other.messages, visited))
        invariant lamport == Max(old(lamport), HighestStamp(Part(other.messages, visited)))
        decreases ids
      {
        var id :| id in ids;
        PartJoins(old(messages), other.messages, visited, id);
        PartRaises(other.messages, visited, id);
        ids := ids - {id};
        visited := visited + {id};
        var m := other.messages[id];
        if lamport < m.lamport { lamport := m.lamport; }
        if id !in messages { messages := messages[id := m]; }
      }
    }

    method MergeRead(other: Conversation)
      requires other != this
      modifies this`read
      ensures read == JoinRead(old(read), other.read)
    {
      var authors := other.read.Keys;
      while authors != {}
        invariant authors <= other.read.Keys
        invariant read.Keys == old(read).Keys + (other.read.Keys - authors)
        invariant forall a :: a in read && (a in authors || a !in other.read) ==> read[a] == old(read)[a]
        invariant forall a :: a in read && a !in authors && a in other.read ==>
          read[a] == if a in old(read) then Max(old(read)[a], other.read[a]) else other.read[a]
        decreases authors
      {
        var a :| a in authors;
        authors := authors - {a};
        if a !in read { read := read[a := 0]; }
        if read[a] < other.read[a] { read := read[a := other.read[a]]; }
      }
    }

    method ReceiveEach(ms: seq<Message>)
      modifies this
      ensures Value() == ApplyAll(old(Value()), ms)
    {
      for i := 0 to |ms|
        invariant Value() == ApplyAll(old(Value()), ms[..i])
      {
        assert ms[..i + 1][..i] == ms[..i];
        Receive(ms[i]);
      }
      assert ms[..|ms|] == ms;
    }

    method AddEach(rs: seq<Reaction>)
      modifies this
      ensures Value() == ReactAll(old(Value()), rs)
    {
      for i := 0 to |rs|
        invariant Value() == ReactAll(old(Value()), rs[..i])
      {
        assert rs[..i + 1] == rs[..i] + [rs[i]];
        AddReaction(rs[i]);
      }
      assert rs[..|rs|] == rs;
    }

    /** Raises the watermarks, and the clock past each of them. */
    method SetEach(ps: seq<Mark>)
      modifies this
      ensures Value() == MarkAll(old(Value()), ps).(lamport := RaiseClock(old(lamport), ps))
    {
      for i := 0 to |ps|
        invariant Value() == MarkAll(old(Value()), ps[..i]).(lamport := RaiseClock(old(lamport), ps[..i]))
      {
        assert ps[..i + 1][..i] == ps[..i];
        SetRead(ps[i].author, ps[i].lamport);
        if lamport < ps[i].lamport { lamport := ps[i].lamport; }
      }
      assert ps[..|ps|] == ps;
    }

    constructor FromSnapshot(s: Snapshot)
      ensures Value() == Restore(s)
    {
      messages, reactions, read, lamport := map[], {}, map[], 0;
      new;
      ReceiveEach(s.messages);
      AddEach(s.reactions);
      SetEach(s.read);
    }
  }
}
