/** Two replicas fed the same operations end in the same state, whatever the order and however often
    an operation is repeated. */
module Convergence {
  import opened Wire
  import opened Ordering
  import opened Conversations

  datatype Op = Receive(m: Message) | Reacted(r: Reaction) | Marked(p: Mark)

  function Perform(c: Convo, op: Op): Convo
  {
    match op
    case Receive(m) => Apply(c, m)
    case Reacted(r) => React(c, r)
    case Marked(p) => MarkRead(c, p.author, p.lamport)
  }

  function Replay(ops: seq<Op>): Convo
  {
    if ops == [] then EMPTY else Perform(Replay(ops[..|ops| - 1]), ops[|ops| - 1])
  }

  ghost predicate SameOps(p: seq<Op>, q: seq<Op>)
  {
    forall op :: op in p <==> op in q
  }

  /** No two received messages share an id. */
  ghost predicate Consistent(ops: seq<Op>)
  {
    forall m, n :: Receive(m) in ops && Receive(n) in ops && m.id == n.id ==> m == n
  }

  /** `c` is a state that the set of operations alone accounts for. */
  ghost predicate AccountsFor(c: Convo, ops: seq<Op>)
  {
    && (forall m :: Receive(m) in ops ==> m.id in c.messages && m.lamport <= c.lamport)
    && (forall id :: id in c.messages ==> Receive(c.messages[id]) in ops)
    && (c.lamport == 0 || exists m :: Receive(m) in ops && m.lamport == c.lamport)
    && (forall r :: Reacted(r) in ops <==> r in c.reactions)
    && (forall p :: Marked(p) in ops ==> p.author in c.read && p.lamport <= c.read[p.author])
    && (forall a :: a in c.read ==> Marked(Mark(a, c.read[a])) in ops)
  }

  lemma OpsAppend(ops: seq<Op>, op: Op)
    ensures forall o :: o in ops + [op] <==> o in ops || o == op
  {
  }

  lemma ReceiveAccountedFor(c: Convo, ops: seq<Op>, m: Message)
    requires AccountsFor(c, ops)
    ensures AccountsFor(Apply(c, m), ops + [Receive(m)])
  {
    OpsAppend(ops, Receive(m));
    var d, more := Apply(c, m), ops + [Receive(m)];
    if d.lamport == c.lamport != 0 {
      var n :| Receive(n) in ops && n.lamport == c.lamport;
      assert Receive(n) in more;
    } else if d.lamport != 0 {
      assert Receive(m) in more;
    }
  }

  lemma ReactionAccountedFor(c: Convo, ops: seq<Op>, r: Reaction)
    requires AccountsFor(c, ops)
    ensures AccountsFor(React(c, r), ops + [Reacted(r)])
  {
    OpsAppend(ops, Reacted(r));
    if c.lamport != 0 {
      var n :| Receive(n) in ops && n.lamport == c.lamport;
      assert Receive(n) in ops + [Reacted(r)];
    }
  }

  lemma MarkAccountedFor(c: Convo, ops: seq<Op>, p: Mark)
    requires AccountsFor(c, ops)
    ensures AccountsFor(MarkRead(c, p.author, p.lamport), ops + [Marked(p)])
  {
    OpsAppend(ops, Marked(p));
    if c.lamport != 0 {
      var n :| Receive(n) in ops && n.lamport == c.lamport;
      assert Receive(n) in ops + [Marked(p)];
    }
    assert Mark(p.author, p.lamport) == p;
  }

  lemma {:induction false} ReplayAccountsFor(ops: seq<Op>)
    ensures AccountsFor(Replay(ops), ops)
  {
    if ops != [] {
      var k := |ops| - 1;
      var front, before := ops[..k], Replay(ops[..k]);
      ReplayAccountsFor(front);
      assert ops == front + [ops[k]];
      match ops[k] {
        case Receive(m) => ReceiveAccountedFor(before, front, m);
        case Reacted(r) => ReactionAccountedFor(before, front, r);
        case Marked(p) => MarkAccountedFor(before, front, p);
      }
    }
  }

  lemma AccountedStatesEqual(c: Convo, p: seq<Op>, d: Convo, q: seq<Op>)
    requires AccountsFor(c, p) && AccountsFor(d, q) && SameOps(p, q) && Consistent(p)
    ensures c == d
  {
    assert c.messages == d.messages by {
      forall id ensures id in c.messages <==> id in d.messages {
        if id in c.messages { assert Receive(c.messages[id]) in q; }
        if id in d.messages { assert Receive(d.messages[id]) in p; }
      }
      forall id | id in c.messages ensures c.messages[id] == d.messages[id] {
        assert Receive(c.messages[id]) in p && Receive(d.messages[id]) in p;
      }
    }
    assert c.reactions == d.reactions by {
      forall r ensures r in c.reactions <==> r in d.reactions {
        assert Reacted(r) in p <==> Reacted(r) in q;
      }
    }
    assert c.read == d.read by {
      forall a ensures a in c.read <==> a in d.read {
        if a in c.read { assert Marked(Mark(a, c.read[a])) in q; }
        if a in d.read { assert Marked(Mark(a, d.read[a])) in p; }
      }
      forall a | a in c.read ensures c.read[a] == d.read[a] {
        assert Marked(Mark(a, c.read[a])) in q && Marked(Mark(a, d.read[a])) in p;
      }
    }
  }

  /** The whole state converges, clock included, and so does the displayed order. */
  lemma OrderConvergence(p: seq<Op>, q: seq<Op>)
    requires SameOps(p, q) && Consistent(p)
    ensures Replay(p) == Replay(q)
    ensures MessagesOrdered(Replay(p)) == MessagesOrdered(Replay(q))
  {
    ReplayAccountsFor(p);
    ReplayAccountsFor(q);
    AccountedStatesEqual(Replay(p), p, Replay(q), q);
  }

  lemma {:induction false} FirstWins(m: Message, ops: seq<Op>)
    ensures m.id in Replay([Receive(m)] + ops).messages && Replay([Receive(m)] + ops).messages[m.id] == m
  {
    var all := [Receive(m)] + ops;
    if ops == [] {
      assert all[..0] == [] && Replay(all) == Perform(Replay(all[..0]), Receive(m));
    } else {
      var k := |ops| - 1;
      FirstWins(m, ops[..k]);
      assert all[..|all| - 1] == [Receive(m)] + ops[..k];
    }
  }

  /** Consistent ids are exactly what convergence needs: with a clash, two orders end differently. */
  lemma ConvergesIffConsistent(ops: seq<Op>)
    ensures Consistent(ops) <==>
      forall p, q :: SameOps(p, ops) && SameOps(q, ops) ==> Replay(p) == Replay(q)
  {
    if Consistent(ops) {
      forall p, q | SameOps(p, ops) && SameOps(q, ops) ensures Replay(p) == Replay(q) {
        assert Consistent(p);
        OrderConvergence(p, q);
      }
    } else {
      var m, n :| Receive(m) in ops && Receive(n) in ops && m.id == n.id && m != n;
      var p, q := [Receive(m)] + ops, [Receive(n)] + ops;
      assert SameOps(p, ops) && SameOps(q, ops);
      FirstWins(m, ops);
      FirstWins(n, ops);
      assert Replay(p) != Replay(q);
    }
  }

  /** `messages_ordered` is the only ascending listing of the messages held. */
  lemma DisplayOrderUnique(c: Convo, q: seq<Message>)
    requires SameElements(q, c.messages.Values) && Ascending(q, MessageKey)
    ensures q == MessagesOrdered(c)
  {
    SortedUnique(q, MessagesOrdered(c), c.messages.Values, MessageKey);
  }
}
