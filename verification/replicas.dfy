/** Any number of replicas of one conversation, over every run, restores included: the Lamport clock orders
    causes before effects on every replica, and without restores no clock outruns the number of messages. */
module Replicas {
  import opened Wire
  import opened Ordering
  import opened Conversations
  import opened Snapshots

  /** `pool` holds every message created so far; `causes[id]` is what its author held at the time. */
  datatype World = World(
    replicas: map<AuthorId, Convo>,
    pool: MessageLog,
    causes: map<MessageId, set<MessageId>>)

  datatype Step =
    | Create(who: AuthorId, id: MessageId, sentAt: nat, body: string, kind: MessageKind)
    | Deliver(who: AuthorId, id: MessageId)
    | MergeFrom(who: AuthorId, from: AuthorId)
    | DeltaFrom(who: AuthorId, from: AuthorId)
    | AddReaction(who: AuthorId, r: Reaction)
    | SetRead(who: AuthorId, a: AuthorId, l: Stamp)
    | Reload(who: AuthorId)

  /** Random ids are fresh: a draw that is already in the pool does not happen. */
  predicate Enabled(w: World, s: Step)
  {
    && s.who in w.replicas
    && match s
       case Create(_, id, _, _, _) => id !in w.pool
       case Deliver(_, id) => id in w.pool
       case MergeFrom(_, from) => from in w.replicas
       case DeltaFrom(_, from) => from in w.replicas
       case _ => true
  }

  ghost function Next(w: World, s: Step): World
  {
    if !Enabled(w, s) then w
    else
      var c := w.replicas[s.who];
      match s
      case Create(who, id, sentAt, body, kind) =>
        var m := Authored(c, id, who, sentAt, body, kind);
        World(w.replicas[who := Insert(c, m)], Grown(w.pool, m), w.causes[id := c.messages.Keys])
      case Deliver(who, id) => w.(replicas := w.replicas[who := Apply(c, w.pool[id])])
      case MergeFrom(who, from) => w.(replicas := w.replicas[who := Merge(c, w.replicas[from])])
      case DeltaFrom(who, from) =>
        var o := w.replicas[from];
        w.(replicas := w.replicas[who := ApplyDelta(c, DeltaSince(o, Have(c)), ReactionList(o), ReadList(o))])
      case AddReaction(who, r) => w.(replicas := w.replicas[who := React(c, r)])
      case SetRead(who, a, l) => w.(replicas := w.replicas[who := MarkRead(c, a, l)])
      case Reload(who) => w.(replicas := w.replicas[who := Restore(Take(c))])
  }

  ghost function Run(w: World, steps: seq<Step>): World
  {
    if steps == [] then w else Next(Run(w, steps[..|steps| - 1]), steps[|steps| - 1])
  }

  ghost predicate Start(w: World)
  {
    && w.pool == map[] && w.causes == map[]
    && forall r :: r in w.replicas ==> w.replicas[r] == EMPTY
  }

  /** Every message of `log` is the pool's message of that id. */
  ghost predicate Within(log: MessageLog, pool: MessageLog)
  {
    forall id :: id in log ==> id in pool && log[id] == pool[id]
  }

  ghost predicate GoodReplica(c: Convo, pool: MessageLog)
  {
    Within(c.messages, pool) && Covers(c) && Anchored(c)
  }

  ghost predicate CausesFirst(pool: MessageLog, causes: map<MessageId, set<MessageId>>)
  {
    causes.Keys == pool.Keys && CausesBelow(pool, causes)
  }

  ghost predicate CausesBelow(pool: MessageLog, causes: map<MessageId, set<MessageId>>)
  {
    forall id :: id in causes ==> id in pool && AllBelow(causes[id], pool, pool[id].lamport)
  }

  /** No stamp exceeds the number of messages created. */
  ghost predicate StampsCounted(pool: MessageLog)
  {
    forall id :: id in pool ==> pool[id].lamport <= |pool|
  }

  ghost predicate AllBelow(ids: set<MessageId>, pool: MessageLog, l: Stamp)
  {
    forall d :: d in ids ==> d in pool && pool[d].lamport < l
  }

  ghost predicate Inv(w: World)
  {
    CausesFirst(w.pool, w.causes) && forall r :: r in w.replicas ==> GoodReplica(w.replicas[r], w.pool)
  }

  /** No clock, and no stamp, exceeds the number of messages created. */
  ghost predicate Counted(w: World)
  {
    StampsCounted(w.pool) && forall r :: r in w.replicas ==> w.replicas[r].lamport <= |w.pool|
  }

  lemma WithinAgree(a: MessageLog, b: MessageLog, pool: MessageLog)
    requires Within(a, pool) && Within(b, pool)
    ensures Agree(a, b) && Within(JoinLog(a, b), pool)
  {
  }

  lemma MergeCovers(c: Convo, o: Convo)
    requires Covers(c) && Covers(o)
    ensures Covers(Merge(c, o)) && Merge(c, o).lamport <= Max(c.lamport, o.lamport)
  {
    var d := Merge(c, o);
    assert HighestStamp(o.messages) <= o.lamport;
    forall id | id in d.messages ensures d.messages[id].lamport <= d.lamport {
      if id !in c.messages { assert d.messages[id] == o.messages[id]; }
    }
  }

  lemma MergeStaysGood(c: Convo, o: Convo, pool: MessageLog)
    requires GoodReplica(c, pool) && GoodReplica(o, pool)
    ensures GoodReplica(Merge(c, o), pool)
  {
    WithinAgree(c.messages, o.messages, pool);
    MergeAnchored(c, o);
    MergeCovers(c, o);
  }

  lemma ApplyStaysGood(c: Convo, m: Message, pool: MessageLog)
    requires GoodReplica(c, pool) && m.id in pool && pool[m.id] == m
    ensures GoodReplica(Apply(c, m), pool)
  {
    ApplyAnchoredIff(c, m);
    if m.id in c.messages {
      assert c.messages[m.id] == m;
    }
  }

  function Grown(pool: MessageLog, m: Message): MessageLog { pool[m.id := m] }

  lemma GrownIs(pool: MessageLog, m: Message)
    requires m.id !in pool
    ensures |Grown(pool, m)| == |pool| + 1
    ensures Grown(pool, m).Keys == pool.Keys + {m.id} && Grown(pool, m)[m.id] == m
    ensures forall id :: id in pool ==> Grown(pool, m)[id] == pool[id]
  {
    assert Grown(pool, m).Keys == pool.Keys + {m.id};
  }

  lemma GrownKeepsBelow(ids: set<MessageId>, pool: MessageLog, m: Message, l: Stamp)
    requires AllBelow(ids, pool, l) && m.id !in pool
    ensures AllBelow(ids, Grown(pool, m), l)
  {
    GrownIs(pool, m);
  }

  lemma GrownKeepsCauses(pool: MessageLog, causes: map<MessageId, set<MessageId>>, m: Message)
    requires CausesBelow(pool, causes) && m.id !in pool
    ensures CausesBelow(Grown(pool, m), causes)
  {
    GrownIs(pool, m);
    forall id | id in causes ensures AllBelow(causes[id], Grown(pool, m), pool[id].lamport) {
      GrownKeepsBelow(causes[id], pool, m, pool[id].lamport);
    }
  }

  lemma CauseAdded(pool: MessageLog, causes: map<MessageId, set<MessageId>>, id: MessageId, held: set<MessageId>)
    requires CausesBelow(pool, causes) && id in pool && AllBelow(held, pool, pool[id].lamport)
    ensures CausesBelow(pool, causes[id := held])
  {
  }

  lemma GrownCounted(pool: MessageLog, m: Message)
    requires StampsCounted(pool) && m.id !in pool && m.lamport <= |pool| + 1
    ensures StampsCounted(Grown(pool, m))
  {
    GrownIs(pool, m);
  }

  lemma CreateKeepsCauses(pool: MessageLog, causes: map<MessageId, set<MessageId>>, held: set<MessageId>, m: Message)
    requires CausesFirst(pool, causes) && AllBelow(held, pool, m.lamport)
    requires m.id !in pool
    ensures CausesFirst(Grown(pool, m), causes[m.id := held])
  {
    GrownIs(pool, m);
    GrownKeepsBelow(held, pool, m, m.lamport);
    GrownKeepsCauses(pool, causes, m);
    CauseAdded(Grown(pool, m), causes, m.id, held);
  }

  lemma HeldBelow(c: Convo, pool: MessageLog, l: Stamp)
    requires Within(c.messages, pool) && Covers(c) && c.lamport < l
    ensures AllBelow(c.messages.Keys, pool, l)
  {
  }

  lemma CreateStaysGood(c: Convo, m: Message, pool: MessageLog)
    requires GoodReplica(c, pool) && m.id !in pool && m.lamport == c.lamport + 1
    ensures GoodReplica(Insert(c, m), Grown(pool, m))
  {
    GrownIs(pool, m);
    InsertAnchors(c, m);
    assert Within(Insert(c, m).messages, Grown(pool, m));
    assert Covers(Insert(c, m));
  }

  lemma GrownStaysGood(c: Convo, m: Message, pool: MessageLog)
    requires GoodReplica(c, pool) && m.id !in pool
    ensures GoodReplica(c, Grown(pool, m))
  {
    GrownIs(pool, m);
  }

  /** The step creates a message from a clock at its very top. */
  predicate Wraps(w: World, s: Step)
  {
    s.Create? && Enabled(w, s) && w.replicas[s.who].lamport == MAX_STAMP
  }

  lemma CreateKeepsInv(w: World, s: Step)
    requires Inv(w) && s.Create? && Enabled(w, s) && !Wraps(w, s)
    ensures Inv(Next(w, s))
  {
    var c := w.replicas[s.who];
    var m := Authored(c, s.id, s.who, s.sentAt, s.body, s.kind);
    var n := World(w.replicas[s.who := Insert(c, m)], Grown(w.pool, m), w.causes[m.id := c.messages.Keys]);
    assert GoodReplica(c, w.pool);
    HeldBelow(c, w.pool, m.lamport);
    CreateKeepsCauses(w.pool, w.causes, c.messages.Keys, m);
    CreateStaysGood(c, m, w.pool);
    forall r | r in n.replicas ensures GoodReplica(n.replicas[r], n.pool) {
      if r != s.who { GrownStaysGood(w.replicas[r], m, w.pool); }
    }
    assert Next(w, s) == n;
  }

  lemma UpdateKeepsInv(w: World, who: AuthorId, c: Convo)
    requires Inv(w) && GoodReplica(c, w.pool)
    ensures Inv(w.(replicas := w.replicas[who := c]))
  {
  }

  lemma ReloadStaysGood(c: Convo, pool: MessageLog)
    requires GoodReplica(c, pool)
    ensures GoodReplica(Restore(Take(c)), pool)
  {
    RestoreKeepsContents(c);
    RestoredClock(c);
    assert Obs(Restore(Take(c))).messages == c.messages;
  }

  lemma StepKeepsInv(w: World, s: Step)
    requires Inv(w) && !Wraps(w, s)
    ensures Inv(Next(w, s))
  {
    if Enabled(w, s) {
      var c := w.replicas[s.who];
      assert GoodReplica(c, w.pool);
      match s {
        case Create(_, _, _, _, _) => CreateKeepsInv(w, s);
        case Deliver(who, id) =>
          ApplyStaysGood(c, w.pool[id], w.pool);
          UpdateKeepsInv(w, who, Apply(c, w.pool[id]));
        case MergeFrom(who, from) =>
          MergeStaysGood(c, w.replicas[from], w.pool);
          UpdateKeepsInv(w, who, Merge(c, w.replicas[from]));
        case DeltaFrom(who, from) =>
          WithinAgree(c.messages, w.replicas[from].messages, w.pool);
          DeltaClockRefinesMerge(c, w.replicas[from]);
          MergeStaysGood(c, w.replicas[from], w.pool);
          UpdateKeepsInv(w, who, Merge(c, w.replicas[from]));
        case AddReaction(who, r) => UpdateKeepsInv(w, who, React(c, r));
        case SetRead(who, a, l) =>
          MarkAnchored(c, a, l);
          UpdateKeepsInv(w, who, MarkRead(c, a, l));
        case Reload(who) =>
          ReloadStaysGood(c, w.pool);
          UpdateKeepsInv(w, who, Restore(Take(c)));
      }
    }
  }

  /** Every message is created below the top of its author's clock. */
  ghost predicate NeverWraps(w: World, steps: seq<Step>)
  {
    if steps == [] then true
    else
      var k := |steps| - 1;
      NeverWraps(w, steps[..k]) && !Wraps(Run(w, steps[..k]), steps[k])
  }

  lemma {:induction false} RunKeepsInv(w: World, steps: seq<Step>)
    requires Start(w) && NeverWraps(w, steps)
    ensures Inv(Run(w, steps))
  {
    if steps != [] {
      var k := |steps| - 1;
      RunKeepsInv(w, steps[..k]);
      StepKeepsInv(Run(w, steps[..k]), steps[k]);
    }
  }

  /** `cause` and `effect` sit at places `i` and `j` of the displayed list of `c`. */
  ghost predicate Shown(c: Convo, cause: MessageId, i: nat, effect: MessageId, j: nat)
  {
    var q := MessagesOrdered(c);
    i < |q| && j < |q| && q[i].id == cause && q[j].id == effect
  }

  lemma CausalOrderAt(n: World, c: Convo, cause: MessageId, effect: MessageId, i: nat, j: nat)
    requires CausesFirst(n.pool, n.causes) && Within(c.messages, n.pool)
    requires effect in n.causes && cause in n.causes[effect] && Shown(c, cause, i, effect, j)
    ensures i < j
  {
    assert AllBelow(n.causes[effect], n.pool, n.pool[effect].lamport);
    PoolOrder(c.messages, n.pool, MessagesOrdered(c), i, j);
  }

  /** A message never precedes anything its author had already seen, on any replica holding both - over every
      run in which no creation wraps its clock, restores from snapshots included. */
  lemma CausalOrder(w: World, steps: seq<Step>, r: AuthorId, cause: MessageId, effect: MessageId, i: nat, j: nat)
    requires Start(w) && NeverWraps(w, steps)
    requires var n := Run(w, steps);
      r in n.replicas && effect in n.causes && cause in n.causes[effect] && Shown(n.replicas[r], cause, i, effect, j)
    ensures i < j
  {
    RunKeepsInv(w, steps);
    var n := Run(w, steps);
    assert GoodReplica(n.replicas[r], n.pool);
    CausalOrderAt(n, n.replicas[r], cause, effect, i, j);
  }

  lemma NotAbove(q: seq<Message>, i: nat, j: nat)
    requires Ascending(q, MessageKey) && i < |q| && j < |q|
    ensures i <= j ==> q[i].lamport <= q[j].lamport
  {
    if i < j {
      assert Less(MessageKey(q[i]), MessageKey(q[j]));
    }
  }

  lemma PoolOrder(log: MessageLog, pool: MessageLog, q: seq<Message>, i: nat, j: nat)
    requires SameElements(q, log.Values) && Ascending(q, MessageKey) && i < |q| && j < |q|
    requires forall id :: id in log ==> id in pool && log[id] == pool[id]
    requires q[i].id in pool && q[j].id in pool && pool[q[i].id].lamport < pool[q[j].id].lamport
    ensures i < j
  {
    assert q[i] in q && q[j] in q;
    var a :| a in log && log[a] == q[i];
    var b :| b in log && log[b] == q[j];
    assert q[i].lamport < q[j].lamport;
    NotAbove(q, j, i);
  }

  lemma UpdateStaysCounted(w: World, who: AuthorId, c: Convo)
    requires Counted(w) && c.lamport <= |w.pool|
    ensures Counted(w.(replicas := w.replicas[who := c]))
  {
  }

  lemma CreateStaysCounted(w: World, s: Step)
    requires Counted(w) && s.Create? && Enabled(w, s) && !Wraps(w, s)
    ensures Counted(Next(w, s)) && |Next(w, s).pool| == |w.pool| + 1
  {
    var c := w.replicas[s.who];
    var m := Authored(c, s.id, s.who, s.sentAt, s.body, s.kind);
    GrownIs(w.pool, m);
    GrownCounted(w.pool, m);
  }

  /** Taking over another replica, by merge or delta, raises no clock past both. */
  lemma JoinedClock(c: Convo, o: Convo, n: nat)
    requires Covers(c) && Covers(o) && c.lamport <= n && o.lamport <= n
    ensures Merge(c, o).lamport <= n
    ensures ApplyDelta(c, DeltaSince(o, Have(c)), ReactionList(o), ReadList(o)).lamport <= n
  {
    MergeCovers(c, o);
    DeltaClockBelow(c, o);
  }

  lemma JoiningStaysCounted(w: World, s: Step)
    requires Inv(w) && Counted(w) && Enabled(w, s) && (s.MergeFrom? || s.DeltaFrom?)
    ensures Counted(Next(w, s))
  {
    var c, o := w.replicas[s.who], w.replicas[s.from];
    assert GoodReplica(c, w.pool) && GoodReplica(o, w.pool);
    JoinedClock(c, o, |w.pool|);
    if s.MergeFrom? {
      UpdateStaysCounted(w, s.who, Merge(c, o));
    } else {
      UpdateStaysCounted(w, s.who, ApplyDelta(c, DeltaSince(o, Have(c)), ReactionList(o), ReadList(o)));
    }
  }

  lemma StepStaysCounted(w: World, s: Step)
    requires Inv(w) && Counted(w) && !s.Reload? && |Next(w, s).pool| <= MAX_STAMP
    ensures !Wraps(w, s) && Counted(Next(w, s))
  {
    if Enabled(w, s) {
      var c := w.replicas[s.who];
      match s {
        case Create(_, id, _, _, _) =>
          GrownIs(w.pool, Authored(c, id, s.who, s.sentAt, s.body, s.kind));
          CreateStaysCounted(w, s);
        case Deliver(who, id) => UpdateStaysCounted(w, who, Apply(c, w.pool[id]));
        case AddReaction(who, r) => UpdateStaysCounted(w, who, React(c, r));
        case SetRead(who, a, l) => UpdateStaysCounted(w, who, MarkRead(c, a, l));
        case _ => JoiningStaysCounted(w, s);
      }
    }
  }

  lemma PoolGrows(w: World, s: Step)
    ensures |w.pool| <= |Next(w, s).pool|
  {
    if Enabled(w, s) && s.Create? {
      GrownIs(w.pool, Authored(w.replicas[s.who], s.id, s.who, s.sentAt, s.body, s.kind));
    }
  }

  /** In any run that creates fewer than 2^64 messages and restores no snapshot, no clock exceeds the number
      created: no increment can wrap. */
  lemma {:induction false} ClockBound(w: World, steps: seq<Step>)
    requires Start(w) && |Run(w, steps).pool| <= MAX_STAMP && forall s :: s in steps ==> !s.Reload?
    ensures NeverWraps(w, steps)
    ensures forall r :: r in Run(w, steps).replicas ==> Run(w, steps).replicas[r].lamport <= |Run(w, steps).pool|
    ensures Counted(Run(w, steps))
  {
    if steps != [] {
      var k := |steps| - 1;
      assert steps == steps[..k] + [steps[k]];
      PoolGrows(Run(w, steps[..k]), steps[k]);
      ClockBound(w, steps[..k]);
      RunKeepsInv(w, steps[..k]);
      StepStaysCounted(Run(w, steps[..k]), steps[k]);
    }
  }

  /** The run has created nothing, and still `who`'s clock is at the very top. */
  ghost predicate TopWithNothing(w: World, steps: seq<Step>, who: AuthorId)
  {
    && Start(w) && NeverWraps(w, steps) && Run(w, steps).pool == map[]
    && who in Run(w, steps).replicas && Run(w, steps).replicas[who].lamport == MAX_STAMP
  }

  lemma RunOn(w: World, front: seq<Step>, s: Step)
    requires NeverWraps(w, front) && !Wraps(Run(w, front), s)
    ensures Run(w, front + [s]) == Next(Run(w, front), s) && NeverWraps(w, front + [s])
  {
    assert (front + [s])[..|front|] == front;
  }

  lemma RestoredTop(c: Convo, a: AuthorId)
    requires a in c.read && c.read[a] == MAX_STAMP
    ensures Restore(Take(c)).lamport == MAX_STAMP
  {
    RestoredClock(c);
  }

  /** A restore takes the clock to the highest watermark, whatever has been created: one mark and one restore
      reach the very top. */
  lemma RestoreReachesTop(who: AuthorId, a: AuthorId)
    ensures exists w: World, steps: seq<Step> :: TopWithNothing(w, steps, who)
  {
    var w := World(map[who := EMPTY], map[], map[]);
    var front: seq<Step> := [] + [SetRead(who, a, MAX_STAMP)];
    assert NeverWraps(w, []) && Run(w, []) == w;
    RunOn(w, [], SetRead(who, a, MAX_STAMP));
    RunOn(w, front, Reload(who));
    MarkedThenReloaded(w, who, a);
    assert TopWithNothing(w, front + [Reload(who)], who);
  }

  lemma Marked(w: World, who: AuthorId, a: AuthorId)
    requires w == World(map[who := EMPTY], map[], map[])
    ensures var n := Next(w, SetRead(who, a, MAX_STAMP));
      n.pool == map[] && who in n.replicas && a in n.replicas[who].read && n.replicas[who].read[a] == MAX_STAMP
  {
  }

  lemma Reloaded(w: World, who: AuthorId)
    requires who in w.replicas
    ensures var n := Next(w, Reload(who));
      n.pool == w.pool && who in n.replicas && n.replicas[who] == Restore(Take(w.replicas[who]))
  {
  }

  lemma MarkedThenReloaded(w: World, who: AuthorId, a: AuthorId)
    requires w == World(map[who := EMPTY], map[], map[])
    ensures var n := Next(Next(w, SetRead(who, a, MAX_STAMP)), Reload(who));
      n.pool == map[] && who in n.replicas && n.replicas[who].lamport == MAX_STAMP
  {
    var m := Next(w, SetRead(who, a, MAX_STAMP));
    Marked(w, who, a);
    Reloaded(m, who);
    RestoredTop(m.replicas[who], a);
  }

  lemma SameIdsAt(a: Convo, b: Convo, pool: MessageLog)
    requires Within(a.messages, pool) && Within(b.messages, pool)
    ensures Agree(a.messages, b.messages)
    ensures Have(a) == Have(b) ==> a.messages == b.messages
  {
  }

  ghost predicate AllWithin(w: World) { forall r :: r in w.replicas ==> Within(w.replicas[r].messages, w.pool) }

  lemma UpdatedWithin(w: World, s: Step)
    requires AllWithin(w) && Enabled(w, s) && !s.Create?
    ensures s.who in Next(w, s).replicas && Within(Next(w, s).replicas[s.who].messages, w.pool)
  {
    var c := w.replicas[s.who];
    match s {
      case MergeFrom(_, from) => WithinAgree(c.messages, w.replicas[from].messages, w.pool);
      case DeltaFrom(_, from) =>
        WithinAgree(c.messages, w.replicas[from].messages, w.pool);
        DeltaRefinesMerge(c, w.replicas[from]);
        assert Obs(Next(w, s).replicas[s.who]).messages == JoinLog(c.messages, w.replicas[from].messages);
      case Reload(_) =>
        RestoreKeepsContents(c);
        assert Obs(Next(w, s).replicas[s.who]).messages == c.messages;
      case _ =>
    }
  }

  lemma CreatedWithin(w: World, s: Step)
    requires AllWithin(w) && Enabled(w, s) && s.Create?
    ensures AllWithin(Next(w, s))
  {
    var c := w.replicas[s.who];
    GrownIs(w.pool, Authored(c, s.id, s.who, s.sentAt, s.body, s.kind));
    assert Within(c.messages, w.pool);
  }

  lemma OthersUnchanged(w: World, s: Step, r: AuthorId)
    requires Enabled(w, s) && !s.Create? && r != s.who && r in w.replicas
    ensures r in Next(w, s).replicas && Next(w, s).replicas[r] == w.replicas[r]
  {
  }

  lemma UpdateKeepsDomain(w: World, s: Step)
    requires !s.Create?
    ensures Next(w, s).pool == w.pool && Next(w, s).replicas.Keys == w.replicas.Keys
  {
  }

  lemma StepStaysWithin(w: World, s: Step)
    requires AllWithin(w)
    ensures AllWithin(Next(w, s))
  {
    if Enabled(w, s) {
      if s.Create? {
        CreatedWithin(w, s);
      } else {
        UpdateKeepsDomain(w, s);
        UpdatedWithin(w, s);
        forall r | r in w.replicas ensures Within(Next(w, s).replicas[r].messages, w.pool) {
          if r != s.who { OthersUnchanged(w, s, r); }
        }
      }
    }
  }

  lemma {:induction false} RunStaysWithin(w: World, steps: seq<Step>)
    requires Start(w)
    ensures AllWithin(Run(w, steps))
  {
    if steps != [] {
      RunStaysWithin(w, steps[..|steps| - 1]);
      StepStaysWithin(Run(w, steps[..|steps| - 1]), steps[|steps| - 1]);
    }
  }

  /** Reachable replicas agree on shared ids, so holding the same ids means showing the same list. */
  lemma SameIdsSameDisplay(w: World, steps: seq<Step>, r: AuthorId, q: AuthorId)
    requires Start(w) && r in Run(w, steps).replicas && q in Run(w, steps).replicas
    ensures var a, b := Run(w, steps).replicas[r], Run(w, steps).replicas[q];
      && Agree(a.messages, b.messages)
      && (Have(a) == Have(b) ==> MessagesOrdered(a) == MessagesOrdered(b))
  {
    RunStaysWithin(w, steps);
    var n := Run(w, steps);
    SameIdsAt(n.replicas[r], n.replicas[q], n.pool);
  }

  /** On every reachable replica, saving and reloading loses neither contents nor clock progress - however
      often it has been saved and reloaded before. */
  lemma SnapshotContinuity(w: World, steps: seq<Step>, r: AuthorId)
    requires Start(w) && NeverWraps(w, steps) && r in Run(w, steps).replicas
    ensures var c := Run(w, steps).replicas[r];
      Obs(Restore(Take(c))) == Obs(c) && c.lamport <= Restore(Take(c)).lamport
  {
    RunKeepsInv(w, steps);
    var c := Run(w, steps).replicas[r];
    assert GoodReplica(c, Run(w, steps).pool);
    RestoreKeepsContents(c);
    ClockContinuesIff(c);
  }
}
