/** `encrypt_for` and the accepting half of `decrypt_payload` at the granularity of their lock scopes, with any
    number of threads: every check, the `session_init` lock, the bundle read, the initiation and the inserts are
    separate steps, between which other threads and session removals may run. */
module SingleInitiation {
  import opened Wire
  import opened Ratchet

  /** Where a thread stands: one sending to `peer` - from `Rechecked` on it holds `session_init` - or one handling
      a handshake message from `peer` whose session would be `theirs`. `known`: some session was found. */
  datatype Thread =
    | Entered(peer: PeerKey)
    | Missed(peer: PeerKey)
    | Locked(peer: PeerKey)
    | Rechecked(peer: PeerKey, since: nat)
    | WithBundle(peer: PeerKey, since: nat, bundle: Bundle)
    | Holding(peer: PeerKey, since: nat, session: Session)
    | Arrived(peer: PeerKey, theirs: Session)
    | LookedUp(peer: PeerKey, since: nat, theirs: Session, known: bool)
    | Finished

  /** What happened to the primary sessions. */
  datatype Entry =
    | Initiated(peer: PeerKey, sid: nat)
    | Installed(peer: PeerKey, sid: nat)
    | AcceptedFrom(peer: PeerKey, sid: nat)
    | Removed(peer: PeerKey, sid: nat)

  datatype World = World(
    me: PeerKey,
    sessions: map<PeerKey, Session>,
    inbound: map<PeerKey, Session>,
    bundles: map<PeerKey, Bundle>,
    holder: Option<nat>,
    threads: map<nat, Thread>,
    drawn: nat,
    log: seq<Entry>)

  datatype Step =
    | Enter(t: nat, peer: PeerKey)
    | FastCheck(t: nat)
    | Acquire(t: nat)
    | Recheck(t: nat)
    | ReadBundle(t: nat)
    | Initiate(t: nat)
    | Insert(t: nat)
    | Arrive(t: nat, peer: PeerKey, theirs: Session)
    | LookUp(t: nat)
    | Place(t: nat)
    | Drop(t: nat)
    | Remove(peer: PeerKey)
    | Hello(peer: PeerKey, bundle: Bundle)

  predicate Enabled(w: World, s: Step)
  {
    match s
    case Enter(t, _) => t !in w.threads
    case FastCheck(t) => t in w.threads && w.threads[t].Entered?
    case Acquire(t) => t in w.threads && w.threads[t].Missed? && w.holder.None?
    case Recheck(t) => t in w.threads && w.threads[t].Locked?
    case ReadBundle(t) => t in w.threads && w.threads[t].Rechecked?
    case Initiate(t) => t in w.threads && w.threads[t].WithBundle?
    case Insert(t) => t in w.threads && w.threads[t].Holding?
    case Arrive(t, _, _) => t !in w.threads
    case LookUp(t) => t in w.threads && w.threads[t].Arrived?
    case Place(t) => t in w.threads && w.threads[t].LookedUp?
    case Drop(t) => t in w.threads && w.threads[t].LookedUp?
    case _ => true
  }

  function At(w: World, t: nat, th: Thread): World { w.(threads := w.threads[t := th]) }

  predicate Reads(sessions: map<PeerKey, Session>, peer: PeerKey, theirs: Session)
  {
    peer in sessions && sessions[peer].sid == theirs.sid
  }

  /** The accepted session goes in unconditionally if none was found; if one was, the lower id's initiation wins
      and the other is kept to decrypt with. */
  function Placed(w: World, th: Thread): World
    requires th.LookedUp?
  {
    if !th.known || th.peer < w.me
    then w.(sessions := w.sessions[th.peer := th.theirs], inbound := if th.known then w.inbound - {th.peer} else w.inbound,
            log := w.log + [AcceptedFrom(th.peer, th.theirs.sid)])
    else w.(inbound := w.inbound[th.peer := th.theirs])
  }

  function Next(w: World, s: Step): World
  {
    if !Enabled(w, s) then w
    else
      match s
      case Enter(t, peer) => At(w, t, Entered(peer))
      case FastCheck(t) =>
        var peer := w.threads[t].peer;
        At(w, t, if peer in w.sessions then Finished else Missed(peer))
      case Acquire(t) => At(w, t, Locked(w.threads[t].peer)).(holder := Some(t))
      case Recheck(t) =>
        var peer := w.threads[t].peer;
        if peer in w.sessions then At(w, t, Finished).(holder := None)
        else At(w, t, Rechecked(peer, |w.log|))
      case ReadBundle(t) =>
        var th := w.threads[t];
        if th.peer in w.bundles then At(w, t, WithBundle(th.peer, th.since, w.bundles[th.peer]))
        else At(w, t, Finished).(holder := None)
      case Initiate(t) =>
        var th := w.threads[t];
        At(w, t, Holding(th.peer, th.since, Session(w.drawn, th.bundle.oneTimeKey, true))).(
          drawn := w.drawn + 1, log := w.log + [Initiated(th.peer, w.drawn)])
      case Insert(t) =>
        var th := w.threads[t];
        At(w, t, Finished).(holder := None, sessions := w.sessions[th.peer := th.session],
                            log := w.log + [Installed(th.peer, th.session.sid)])
      case Arrive(t, peer, theirs) => At(w, t, Arrived(peer, theirs))
      case LookUp(t) =>
        var th := w.threads[t];
        if Reads(w.sessions, th.peer, th.theirs) || Reads(w.inbound, th.peer, th.theirs) then At(w, t, Finished)
        else At(w, t, LookedUp(th.peer, |w.log|, th.theirs, th.peer in w.sessions || th.peer in w.inbound))
      case Place(t) => At(Placed(w, w.threads[t]), t, Finished)
      case Drop(t) => At(w, t, Finished)
      case Remove(peer) =>
        w.(sessions := w.sessions - {peer}, inbound := w.inbound - {peer},
           log := w.log + if peer in w.sessions then [Removed(peer, w.sessions[peer].sid)] else [])
      case Hello(peer, bundle) => w.(bundles := w.bundles[peer := bundle])
  }

  function Run(w: World, steps: seq<Step>): World
  {
    if steps == [] then w else Next(Run(w, steps[..|steps| - 1]), steps[|steps| - 1])
  }

  ghost predicate Start(w: World)
  {
    w.holder.None? && w.threads == map[] && w.log == []
  }

  predicate Inside(th: Thread)
  {
    th.Locked? || th.Rechecked? || th.WithBundle? || th.Holding?
  }

  /** An initiation towards `peer` has not been followed by a removal of its session. */
  predicate Outstanding(log: seq<Entry>, peer: PeerKey)
  {
    if log == [] then false
    else
      var e := log[|log| - 1];
      if e.Initiated? && e.peer == peer then true
      else if e.Removed? && e.peer == peer then false
      else Outstanding(log[..|log| - 1], peer)
  }

  ghost predicate Separated(log: seq<Entry>)
  {
    forall i, j :: 0 <= i < j < |log| && log[i].Initiated? && log[j].Initiated? && log[i].peer == log[j].peer ==>
      RemovedBetween(log, log[i].peer, i, j)
  }

  ghost predicate RemovedBetween(log: seq<Entry>, peer: PeerKey, i: nat, j: nat)
    requires j <= |log|
  {
    exists k :: i < k < j && log[k].Removed? && log[k].peer == peer
  }

  ghost predicate Inv(w: World)
  {
    && (forall t :: t in w.threads && Inside(w.threads[t]) ==> w.holder == Some(t))
    && (forall p :: Outstanding(w.log, p) ==> p in w.sessions || InsertComing(w, p))
    && (forall t :: t in w.threads && (w.threads[t].Rechecked? || w.threads[t].WithBundle?) ==>
          !Outstanding(w.log, w.threads[t].peer))
    && Separated(w.log)
  }

  ghost predicate InsertComing(w: World, p: PeerKey)
  {
    exists t :: t in w.threads && w.threads[t].Holding? && w.threads[t].peer == p
  }

  lemma {:induction false} NotOutstanding(log: seq<Entry>, peer: PeerKey, i: nat)
    requires !Outstanding(log, peer) && i < |log| && log[i].Initiated? && log[i].peer == peer
    ensures RemovedBetween(log, peer, i, |log|)
  {
    var k := |log| - 1;
    if log[k].Removed? && log[k].peer == peer {
      assert i < k;
    } else {
      NotOutstanding(log[..k], peer, i);
      var m :| i < m < k && log[..k][m].Removed? && log[..k][m].peer == peer;
      assert log[m].Removed? && log[m].peer == peer;
    }
  }

  lemma AppendSeparated(log: seq<Entry>, e: Entry)
    requires Separated(log) && (e.Initiated? ==> !Outstanding(log, e.peer))
    ensures Separated(log + [e])
  {
    var grown := log + [e];
    forall i, j | 0 <= i < j < |grown| && grown[i].Initiated? && grown[j].Initiated? && grown[i].peer == grown[j].peer
      ensures RemovedBetween(grown, grown[i].peer, i, j)
    {
      if j < |log| {
        var k :| i < k < j && log[k].Removed? && log[k].peer == log[i].peer;
        assert grown[k] == log[k];
      } else {
        NotOutstanding(log, e.peer, i);
        var k :| i < k < |log| && log[k].Removed? && log[k].peer == e.peer;
        assert grown[k] == log[k];
      }
    }
  }

  lemma OutstandingAfter(log: seq<Entry>, e: Entry, p: PeerKey)
    ensures Outstanding(log + [e], p) ==
      if e.Initiated? && e.peer == p then true else if e.Removed? && e.peer == p then false else Outstanding(log, p)
  {
    assert (log + [e])[..|log|] == log;
  }

  lemma LogGrows(w: World, s: Step)
    requires Inv(w) && Enabled(w, s)
    ensures Separated(Next(w, s).log)
    ensures forall p :: Outstanding(Next(w, s).log, p) ==> Outstanding(w.log, p) || (s.Initiate? && w.threads[s.t].peer == p)
    ensures s.Remove? && s.peer in w.sessions ==> !Outstanding(Next(w, s).log, s.peer)
  {
    var n := Next(w, s);
    if n.log != w.log {
      var e := n.log[|w.log|];
      assert n.log == w.log + [e];
      AppendSeparated(w.log, e);
      forall p ensures Outstanding(n.log, p) ==
        if e.Initiated? && e.peer == p then true else if e.Removed? && e.peer == p then false else Outstanding(w.log, p)
      {
        OutstandingAfter(w.log, e, p);
      }
    }
  }

  /** A session that was there, or about to be inserted, still is, unless it was just removed. */
  lemma SessionStays(w: World, s: Step, p: PeerKey)
    requires Enabled(w, s) && (p in w.sessions || InsertComing(w, p)) && !(s == Remove(p) && p in w.sessions)
    ensures p in Next(w, s).sessions || InsertComing(Next(w, s), p)
  {
    if p !in w.sessions {
      var t :| t in w.threads && w.threads[t].Holding? && w.threads[t].peer == p;
      assert t in Next(w, s).threads;
    }
  }

  lemma LockStays(w: World, s: Step)
    requires Inv(w) && Enabled(w, s)
    ensures var n := Next(w, s);
      forall t :: t in n.threads && (n.threads[t].Rechecked? || n.threads[t].WithBundle?) ==>
        !Outstanding(n.log, n.threads[t].peer)
  {
    LogGrows(w, s);
  }

  lemma StepKeepsInv(w: World, s: Step)
    requires Inv(w)
    ensures Inv(Next(w, s))
  {
    if Enabled(w, s) {
      var n := Next(w, s);
      LogGrows(w, s);
      LockStays(w, s);
      InsideAfter(w, s);
      forall p | Outstanding(n.log, p) ensures p in n.sessions || InsertComing(n, p) {
        if s.Initiate? && w.threads[s.t].peer == p {
          assert n.threads[s.t].Holding?;
        } else {
          SessionStays(w, s, p);
        }
      }
    }
  }

  lemma {:induction false} RunKeepsInv(w: World, steps: seq<Step>)
    requires Start(w)
    ensures Inv(Run(w, steps))
  {
    if steps != [] {
      RunKeepsInv(w, steps[..|steps| - 1]);
      StepKeepsInv(Run(w, steps[..|steps| - 1]), steps[|steps| - 1]);
    }
  }

  /** However many threads send at once: between any two sessions opened towards one peer, that peer's
      session was removed. */
  lemma InitiationsSeparated(w: World, steps: seq<Step>, i: nat, j: nat)
    requires Start(w)
    requires var log := Run(w, steps).log;
      i < j < |log| && log[i].Initiated? && log[j].Initiated? && log[i].peer == log[j].peer
    ensures var log := Run(w, steps).log;
      exists k :: i < k < j && log[k].Removed? && log[k].peer == log[i].peer
  {
    RunKeepsInv(w, steps);
    assert RemovedBetween(Run(w, steps).log, Run(w, steps).log[i].peer, i, j);
  }

  // ------------------------------------------------------------------ the windows between check and insert

  /** Since log position `since`, the last thing to happen to the peer's session was an accept. */
  predicate AcceptedSince(log: seq<Entry>, since: nat, peer: PeerKey)
  {
    if |log| <= since || log == [] then false
    else
      var e := log[|log| - 1];
      if e.AcceptedFrom? && e.peer == peer then true
      else if e.Removed? && e.peer == peer then false
      else AcceptedSince(log[..|log| - 1], since, peer)
  }

  /** Since then, the last thing to happen to it was that one was put in: by a sender or by an accept. */
  predicate PutInSince(log: seq<Entry>, since: nat, peer: PeerKey)
  {
    if |log| <= since || log == [] then false
    else
      var e := log[|log| - 1];
      if (e.Installed? || e.AcceptedFrom?) && e.peer == peer then true
      else if e.Removed? && e.peer == peer then false
      else PutInSince(log[..|log| - 1], since, peer)
  }

  /** A sender past its re-check, which found no session. */
  predicate InWindow(th: Thread) { th.Rechecked? || th.WithBundle? || th.Holding? }

  /** A handler past its look-up, which found none. */
  predicate FoundNone(th: Thread) { th.LookedUp? && !th.known }

  ghost predicate Senders(w: World)
  {
    && (forall t :: t in w.threads && Inside(w.threads[t]) ==> w.holder == Some(t))
    && (forall t :: t in w.threads && InWindow(w.threads[t]) ==>
          w.threads[t].since <= |w.log| &&
          (w.threads[t].peer in w.sessions <==> AcceptedSince(w.log, w.threads[t].since, w.threads[t].peer)))
  }

  ghost predicate Handlers(w: World)
  {
    forall t :: t in w.threads && FoundNone(w.threads[t]) ==>
      w.threads[t].since <= |w.log| &&
      (w.threads[t].peer in w.sessions <==> PutInSince(w.log, w.threads[t].since, w.threads[t].peer))
  }

  lemma LogAfter(log: seq<Entry>, e: Entry, since: nat, p: PeerKey)
    requires since <= |log|
    ensures AcceptedSince(log + [e], since, p) ==
      if e.AcceptedFrom? && e.peer == p then true else if e.Removed? && e.peer == p then false
      else AcceptedSince(log, since, p)
    ensures PutInSince(log + [e], since, p) ==
      if (e.Installed? || e.AcceptedFrom?) && e.peer == p then true else if e.Removed? && e.peer == p then false
      else PutInSince(log, since, p)
  {
    assert (log + [e])[..|log|] == log;
  }

  /** What a sender in its window sees of the log. */
  ghost predicate SenderSees(w: World, th: Thread)
    requires InWindow(th)
  {
    th.since <= |w.log| && (th.peer in w.sessions <==> AcceptedSince(w.log, th.since, th.peer))
  }

  lemma SenderStep(w: World, s: Step, t: nat)
    requires Senders(w) && Enabled(w, s) && t in w.threads && InWindow(w.threads[t]) && s != Insert(t)
    ensures SenderSees(Next(w, s), w.threads[t])
  {
    var n := Next(w, s);
    if n.log != w.log {
      var e := n.log[|w.log|];
      assert n.log == w.log + [e];
      LogAfter(w.log, e, w.threads[t].since, w.threads[t].peer);
    }
  }

  lemma InsideAfter(w: World, s: Step)
    requires Enabled(w, s) && (forall t :: t in w.threads && Inside(w.threads[t]) ==> w.holder == Some(t))
    ensures forall t :: t in Next(w, s).threads && Inside(Next(w, s).threads[t]) ==> Next(w, s).holder == Some(t)
  {
  }

  lemma WindowFrom(w: World, s: Step, t: nat)
    requires Senders(w) && Enabled(w, s) && t in Next(w, s).threads && InWindow(Next(w, s).threads[t]) && s != Recheck(t)
    ensures t in w.threads && InWindow(w.threads[t]) && s != Insert(t)
    ensures Next(w, s).threads[t].peer == w.threads[t].peer && Next(w, s).threads[t].since == w.threads[t].since
  {
  }

  lemma StepKeepsSenders(w: World, s: Step)
    requires Senders(w)
    ensures Senders(Next(w, s))
  {
    if Enabled(w, s) {
      var n := Next(w, s);
      InsideAfter(w, s);
      forall t | t in n.threads && InWindow(n.threads[t]) ensures SenderSees(n, n.threads[t]) {
        if s == Recheck(t) {
          assert n.threads[t] == Rechecked(w.threads[t].peer, |w.log|);
        } else {
          WindowFrom(w, s, t);
          SenderStep(w, s, t);
        }
      }
    }
  }

  lemma StepKeepsHandlers(w: World, s: Step)
    requires Handlers(w)
    ensures Handlers(Next(w, s))
  {
    if Enabled(w, s) {
      var n := Next(w, s);
      forall t | t in n.threads && FoundNone(n.threads[t])
        ensures n.threads[t].since <= |n.log| &&
          (n.threads[t].peer in n.sessions <==> PutInSince(n.log, n.threads[t].since, n.threads[t].peer))
      {
        if s == LookUp(t) {
          assert n.threads[t].since == |w.log|;
        } else {
          assert FoundNone(w.threads[t]);
          if n.log != w.log {
            var e := n.log[|w.log|];
            assert n.log == w.log + [e];
            LogAfter(w.log, e, w.threads[t].since, w.threads[t].peer);
          }
        }
      }
    }
  }

  lemma {:induction false} RunKeepsWindows(w: World, steps: seq<Step>)
    requires Start(w)
    ensures Senders(Run(w, steps)) && Handlers(Run(w, steps))
  {
    if steps != [] {
      var k := |steps| - 1;
      RunKeepsWindows(w, steps[..k]);
      StepKeepsSenders(Run(w, steps[..k]), steps[k]);
      StepKeepsHandlers(Run(w, steps[..k]), steps[k]);
    }
  }

  /** The insert at the end of `encrypt_for` overwrites a session exactly when one was accepted from the
      peer after the re-check. */
  lemma InsertOverwritesIff(w: World, steps: seq<Step>, t: nat)
    requires Start(w) && Enabled(Run(w, steps), Insert(t))
    ensures var n := Run(w, steps);
      n.threads[t].peer in n.sessions <==> AcceptedSince(n.log, n.threads[t].since, n.threads[t].peer)
  {
    RunKeepsWindows(w, steps);
  }

  /** The mirror image: an accept that found no session overwrites one exactly when a sender installed one, or
      another accept put one in, after the look-up. */
  lemma PlaceOverwritesIff(w: World, steps: seq<Step>, t: nat)
    requires Start(w) && Enabled(Run(w, steps), Place(t)) && FoundNone(Run(w, steps).threads[t])
    ensures var n := Run(w, steps);
      n.threads[t].peer in n.sessions <==> PutInSince(n.log, n.threads[t].since, n.threads[t].peer)
  {
    RunKeepsWindows(w, steps);
  }

  /** What the first overwrite costs: the peer's handshake was accepted and its one-time key burnt, so nothing
      further the peer sends on that session can be read. */
  lemma OverwrittenAcceptLosesPeer(k: Keys, me: PeerKey, peer: PeerKey, first: Cipher, later: Cipher, own: Session)
    requires peer !in k.sessions && peer !in k.inbound && Acceptable(k, peer, first)
    requires later.sid == first.sid && later.oneTimeKey == first.oneTimeKey && own.sid != first.sid
    ensures var accepted := DecryptPayload(k, me, peer, first).value.keys;
      var overwritten := accepted.(sessions := accepted.sessions[peer := own]);
      && DecryptPayload(accepted, me, peer, later).Some?
      && DecryptPayload(overwritten, me, peer, later).None?
  {
  }

  /** What the second costs: our own session is gone, so no reply of the peer on it can be read. */
  lemma OverwrittenInstallLosesReplies(k: Keys, me: PeerKey, peer: PeerKey, theirs: Session, reply: Cipher)
    requires peer in k.sessions && peer !in k.inbound && reply.sid == k.sessions[peer].sid != theirs.sid && !reply.prekey
    ensures DecryptPayload(k, me, peer, reply).Some?
    ensures DecryptPayload(k.(sessions := k.sessions[peer := theirs]), me, peer, reply).None?
  {
  }

  lemma RunOn(w: World, front: seq<Step>, s: Step, mid: World, n: World)
    requires Run(w, front) == mid && Next(mid, s) == n
    ensures Run(w, front + [s]) == n
  {
    assert (front + [s])[..|front|] == front;
  }

  function Fresh(bundle: Bundle, holder: Option<nat>, threads: map<nat, Thread>): World
  {
    World(1, map[], map[], map[9 := bundle], holder, threads, 0, [])
  }

  const RECHECKED: seq<Step> :=
    [] + [Enter(1, 9)] + [FastCheck(1)] + [Acquire(1)] + [Recheck(1)]

  lemma RecheckReached(bundle: Bundle)
    ensures Run(Fresh(bundle, None, map[]), RECHECKED) == Fresh(bundle, Some(1), map[1 := Rechecked(9, 0)])
  {
    var w0, w1 := Fresh(bundle, None, map[]), Fresh(bundle, None, map[1 := Entered(9)]);
    var w2, w3 := Fresh(bundle, None, map[1 := Missed(9)]), Fresh(bundle, Some(1), map[1 := Locked(9)]);
    RunOn(w0, [], Enter(1, 9), w0, w1);
    RunOn(w0, [] + [Enter(1, 9)], FastCheck(1), w1, w2);
    RunOn(w0, [] + [Enter(1, 9)] + [FastCheck(1)], Acquire(1), w2, w3);
    RunOn(w0, [] + [Enter(1, 9)] + [FastCheck(1)] + [Acquire(1)], Recheck(1), w3,
          Fresh(bundle, Some(1), map[1 := Rechecked(9, 0)]));
  }

  /** Thread 1 sends to 9 while thread 2 handles 9's handshake; both have found no session. */
  const READY: seq<Step> := RECHECKED + [ReadBundle(1)] + [Initiate(1)]
  const FOUND: seq<Step> := READY + [Arrive(2, 9, Session(5, 5, false))] + [LookUp(2)]

  const THEIRS := Session(5, 5, false)

  function Own(bundle: Bundle): Session { Session(0, bundle.oneTimeKey, true) }

  /** Both are about to put a session in. */
  function Racing(bundle: Bundle): World
  {
    World(1, map[], map[], map[9 := bundle], Some(1),
          map[1 := Holding(9, 0, Own(bundle)), 2 := LookedUp(9, 1, THEIRS, false)], 1, [Initiated(9, 0)])
  }

  lemma RaceReached(bundle: Bundle)
    ensures Run(Fresh(bundle, None, map[]), FOUND) == Racing(bundle)
  {
    var w0, w4 := Fresh(bundle, None, map[]), Fresh(bundle, Some(1), map[1 := Rechecked(9, 0)]);
    var w5 := w4.(threads := map[1 := WithBundle(9, 0, bundle)]);
    var w6 := w5.(threads := map[1 := Holding(9, 0, Own(bundle))], drawn := 1, log := [Initiated(9, 0)]);
    var w7 := w6.(threads := map[1 := Holding(9, 0, Own(bundle)), 2 := Arrived(9, THEIRS)]);
    RecheckReached(bundle);
    RunOn(w0, RECHECKED, ReadBundle(1), w4, w5);
    RunOn(w0, RECHECKED + [ReadBundle(1)], Initiate(1), w5, w6);
    RunOn(w0, READY, Arrive(2, 9, THEIRS), w6, w7);
    RunOn(w0, READY + [Arrive(2, 9, THEIRS)], LookUp(2), w7, Racing(bundle));
  }

  /** Runs in which each happens: whoever comes second overwrites the other. */
  lemma OverwritingRuns(bundle: Bundle)
    ensures exists w: World, front: seq<Step> :: Start(w) && BothOverwrite(w, front)
  {
    var w := Fresh(bundle, None, map[]);
    RaceReached(bundle);
    var r := Racing(bundle);
    RunOn(w, FOUND, Place(2), r, Next(r, Place(2)));
    RunOn(w, FOUND, Insert(1), r, Next(r, Insert(1)));
    assert Start(w) && BothOverwrite(w, FOUND);
  }

  /** After the accept the insert would overwrite its session, and after the insert the accept the sender's. */
  predicate BothOverwrite(w: World, front: seq<Step>)
  {
    var a, b := Run(w, front + [Place(2)]), Run(w, front + [Insert(1)]);
    && Enabled(a, Insert(1)) && Lookup(a.sessions, 9) == Some(THEIRS) && Lookup(Next(a, Insert(1)).sessions, 9) != Some(THEIRS)
    && Enabled(b, Place(2)) && Lookup(b.sessions, 9) != Some(THEIRS) && Lookup(Next(b, Place(2)).sessions, 9) == Some(THEIRS)
    && 9 in b.sessions
  }
}
