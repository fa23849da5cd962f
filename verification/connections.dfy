/** Connection generations: a reader loop that wakes late must not tear down a newer connection. */
module Connections {
  import opened Wire

  /** Handles of live connections, as the transport hands them out. */
  type Handle = nat

  datatype Registry = Registry(
    conns: map<PeerKey, Handle>,
    connGen: map<PeerKey, Stamp>,
    nextGen: Stamp,
    sessions: set<PeerKey>,
    inbound: set<PeerKey>)

  datatype Opening = Opening(peer: PeerKey, conn: Handle)

  /** Reported for the `loop`-th connection ever opened. */
  datatype Notice = PeerConnected(peer: PeerKey, loop: nat) | PeerDisconnected(peer: PeerKey, loop: nat)

  // ------------------------------------------------------------------ what the code does

  /** `next_gen += 1` on a u64 in a release build. */
  function Bump(g: Stamp): Stamp { if g == MAX_STAMP then 0 else g + 1 }

  /** `setup_connection` registering a connection. The new generation is the old `nextGen`. */
  function Register(r: Registry, peer: PeerKey, conn: Handle): Registry
  {
    Registry(r.conns[peer := conn], r.connGen[peer := r.nextGen], Bump(r.nextGen), r.sessions - {peer}, r.inbound - {peer})
  }

  predicate IsCurrent(r: Registry, peer: PeerKey, gen: Stamp) { peer in r.connGen && r.connGen[peer] == gen }

  function Evict(r: Registry, peer: PeerKey): Registry
  {
    r.(conns := r.conns - {peer}, connGen := r.connGen - {peer}, sessions := r.sessions - {peer}, inbound := r.inbound - {peer})
  }

  /** The end of `reader_loop`: evict only the connection this loop was serving. */
  function LoopExit(r: Registry, peer: PeerKey, gen: Stamp): Registry
  {
    if IsCurrent(r, peer, gen) then Evict(r, peer) else r
  }

  // ------------------------------------------------------------------ runs

  /** The generation of the `loop`-th connection ever opened: the counter is a u64. */
  function GenOf(loop: nat): Stamp { loop % (MAX_STAMP + 1) }

  /** `connected` lists all connections ever set up; `live` are the loops still running. */
  datatype World = World(reg: Registry, connected: seq<Opening>, live: set<nat>, notices: seq<Notice>)

  datatype Step =
    | SetUp(peer: PeerKey, conn: Handle)
    | Exit(loop: nat)
    | Forget(peer: PeerKey)
    | NewSession(peer: PeerKey)
    | NewInbound(peer: PeerKey)

  function Next(w: World, s: Step): World
  {
    match s
    case SetUp(peer, conn) =>
      World(Register(w.reg, peer, conn), w.connected + [Opening(peer, conn)], w.live + {|w.connected|},
            w.notices + [Notice.PeerConnected(peer, |w.connected|)])
    case Exit(loop) =>
      if loop in w.live && loop < |w.connected| then
        var peer := w.connected[loop].peer;
        World(LoopExit(w.reg, peer, GenOf(loop)), w.connected, w.live - {loop},
              w.notices + if IsCurrent(w.reg, peer, GenOf(loop)) then [Notice.PeerDisconnected(peer, loop)] else [])
      else w
    case Forget(peer) => w.(reg := Evict(w.reg, peer))
    case NewSession(peer) => w.(reg := w.reg.(sessions := w.reg.sessions + {peer}))
    case NewInbound(peer) => w.(reg := w.reg.(inbound := w.reg.inbound + {peer}))
  }

  function Run(w: World, steps: seq<Step>): World
  {
    if steps == [] then w else Next(Run(w, steps[..|steps| - 1]), steps[|steps| - 1])
  }

  ghost predicate Start(w: World)
  {
    w.reg.conns == map[] && w.reg.connGen == map[] && w.reg.nextGen == 0 && w.connected == [] && w.live == {} && w.notices == []
  }

  /** `j` is the newest connection opened for `p`. */
  ghost predicate Newest(w: World, p: PeerKey, j: nat)
  {
    && j < |w.connected| && w.connected[j].peer == p
    && forall h :: 0 <= h < |w.connected| && w.connected[h].peer == p ==> h <= j
  }

  /** What is registered for `p` is the newest connection opened for it. */
  ghost predicate Registers(w: World, p: PeerKey, j: nat)
  {
    && Newest(w, p, j) && Lookup(w.reg.conns, p) == Some(w.connected[j].conn) && Lookup(w.reg.connGen, p) == Some(GenOf(j))
  }

  ghost predicate Inv(w: World)
  {
    && w.reg.conns.Keys == w.reg.connGen.Keys
    && w.reg.nextGen == GenOf(|w.connected|)
    && (forall p :: p in w.reg.connGen ==> exists j: nat :: Registers(w, p, j))
    && (forall l :: l in w.live ==> l < |w.connected|)
    && ReportsInOrder(w)
  }

  /** Each connection is reported once, and disconnected at most once: when its loop has ended. */
  ghost predicate ReportsInOrder(w: World)
  {
    && (forall i :: 0 <= i < |w.notices| ==> w.notices[i].loop < |w.connected|)
    && (forall i :: 0 <= i < |w.notices| && w.notices[i].PeerDisconnected? ==> w.notices[i].loop !in w.live)
    && (forall i, j :: 0 <= i < j < |w.notices| && w.notices[i].loop == w.notices[j].loop ==>
          w.notices[i].PeerConnected? && w.notices[j].PeerDisconnected?)
  }

  lemma StillRegisters(w: World, n: World, p: PeerKey, j: nat)
    requires Registers(w, p, j) && Lookup(n.reg.conns, p) == Lookup(w.reg.conns, p)
    requires Lookup(n.reg.connGen, p) == Lookup(w.reg.connGen, p)
    requires n.connected == w.connected || (|n.connected| == |w.connected| + 1 && n.connected[..|w.connected|] == w.connected && n.connected[|w.connected|].peer != p)
    ensures Registers(n, p, j)
  {
    forall h | 0 <= h < |w.connected| ensures n.connected[h] == w.connected[h] {
      assert n.connected[..|w.connected|][h] == n.connected[h];
    }
  }

  lemma NextGenOf(n: nat)
    ensures GenOf(n + 1) == Bump(GenOf(n))
  {
  }

  lemma SetUpKeepsInv(w: World, s: Step)
    requires Inv(w) && s.SetUp?
    ensures Inv(Next(w, s))
  {
    var n, k := Next(w, s), |w.connected|;
    NextGenOf(k);
    forall p | p in n.reg.connGen ensures exists j: nat :: Registers(n, p, j) {
      if p == s.peer {
        assert Registers(n, p, k);
      } else {
        var j :| Registers(w, p, j);
        StillRegisters(w, n, p, j);
      }
    }
  }

  lemma EvictKeepsRegistered(w: World, n: World, p: PeerKey)
    requires Inv(w) && n.reg.conns == w.reg.conns - {p} && n.reg.connGen == w.reg.connGen - {p} && n.connected == w.connected
    ensures forall q :: q in n.reg.connGen ==> exists j: nat :: Registers(n, q, j)
  {
    forall q | q in n.reg.connGen ensures exists j: nat :: Registers(n, q, j) {
      var j :| Registers(w, q, j);
      StillRegisters(w, n, q, j);
    }
  }

  lemma SameKeepsRegistered(w: World, n: World)
    requires Inv(w) && n.reg.conns == w.reg.conns && n.reg.connGen == w.reg.connGen && n.connected == w.connected
    ensures forall q :: q in n.reg.connGen ==> exists j: nat :: Registers(n, q, j)
  {
    forall q | q in n.reg.connGen ensures exists j: nat :: Registers(n, q, j) {
      var j :| Registers(w, q, j);
      StillRegisters(w, n, q, j);
    }
  }

  lemma ExitKeepsInv(w: World, s: Step)
    requires Inv(w) && s.Exit?
    ensures Inv(Next(w, s))
  {
    var n := Next(w, s);
    if s.loop in w.live {
      var peer := w.connected[s.loop].peer;
      if IsCurrent(w.reg, peer, GenOf(s.loop)) {
        EvictKeepsRegistered(w, n, peer);
      } else {
        SameKeepsRegistered(w, n);
      }
    }
  }

  lemma StepKeepsInv(w: World, s: Step)
    requires Inv(w)
    ensures Inv(Next(w, s))
  {
    match s {
      case SetUp(_, _) => SetUpKeepsInv(w, s);
      case Exit(_) => ExitKeepsInv(w, s);
      case Forget(peer) => EvictKeepsRegistered(w, Next(w, s), peer);
      case _ => SameKeepsRegistered(w, Next(w, s));
    }
  }

  lemma {:induction false} RunKeepsInv(w: World, steps: seq<Step>)
    requires Start(w)
    ensures Inv(Run(w, steps))
  {
    if steps != [] {
      RunKeepsInv(w, steps[..|steps| - 1]);
      StepKeepsInv(Run(w, steps[..|steps| - 1]), steps[|steps| - 1]);
    }
  }

  /** Over every interleaving of setups, loop exits and removals, however many: connections and generations are
      registered together, and the one registered is always the newest opened for that peer. */
  lemma RegisteredIsNewest(w: World, steps: seq<Step>)
    requires Start(w)
    ensures var n := Run(w, steps);
      n.reg.conns.Keys == n.reg.connGen.Keys && forall p :: p in n.reg.connGen ==> exists j: nat :: Registers(n, p, j)
  {
    RunKeepsInv(w, steps);
  }

  lemma GenerationsMeet(i: nat, j: nat)
    requires i <= j
    ensures GenOf(i) == GenOf(j) <==> (j - i) % (MAX_STAMP + 1) == 0
  {
    var m := MAX_STAMP + 1;
    var qi, qj, q := i / m, j / m, (j - i) / m;
    assert i == qi * m + i % m && j == qj * m + j % m && j - i == q * m + (j - i) % m;
    if i % m == j % m {
      assert j - i == (qj - qi) * m;
    }
  }

  /** A loop that ends takes down its peer's registered connection exactly when that is its own - or was opened
      a multiple of 2^64 connections later. */
  lemma ExitEvictsIff(w: World, steps: seq<Step>, loop: nat, j: nat)
    requires Start(w) && loop in Run(w, steps).live && loop < |Run(w, steps).connected|
    requires Registers(Run(w, steps), Run(w, steps).connected[loop].peer, j)
    ensures var n := Run(w, steps); var p := n.connected[loop].peer;
      && loop <= j
      && (p !in Next(n, Exit(loop)).reg.conns <==> (j - loop) % (MAX_STAMP + 1) == 0)
      && (p in Next(n, Exit(loop)).reg.conns ==> Next(n, Exit(loop)).reg == n.reg && Next(n, Exit(loop)).notices == n.notices)
  {
    GenerationsMeet(loop, j);
  }

  /** The peer of the loop has no connection now, or has opened a later one, fewer than 2^64 ago. */
  ghost predicate Superseded(w: World, loop: nat)
    requires loop < |w.connected|
  {
    || w.connected[loop].peer !in w.reg.conns
    || exists j: nat :: Newest(w, w.connected[loop].peer, j) && 0 < j - loop <= MAX_STAMP
  }

  lemma NewestIsOne(w: World, p: PeerKey, i: nat, j: nat)
    requires Newest(w, p, i) && Newest(w, p, j)
    ensures i == j
  {
  }

  /** A loop whose peer has since reconnected, or been forgotten, changes nothing and reports nothing on
      its way out. */
  lemma StaleExitIsSilent(w: World, steps: seq<Step>, loop: nat)
    requires Start(w) && loop in Run(w, steps).live && loop < |Run(w, steps).connected| && Superseded(Run(w, steps), loop)
    ensures var n := Run(w, steps); Next(n, Exit(loop)).reg == n.reg && Next(n, Exit(loop)).notices == n.notices
  {
    RunKeepsInv(w, steps);
    var n := Run(w, steps);
    var p := n.connected[loop].peer;
    if p in n.reg.conns {
      var i: nat :| Registers(n, p, i);
      var j: nat :| Newest(n, p, j) && 0 < j - loop <= MAX_STAMP;
      NewestIsOne(n, p, i, j);
      NotMine(n, p, loop, i);
    }
  }

  lemma NotMine(n: World, p: PeerKey, loop: nat, i: nat)
    requires Registers(n, p, i) && 0 < i - loop <= MAX_STAMP
    ensures !IsCurrent(n.reg, p, GenOf(loop))
  {
    GenerationsMeet(loop, i);
  }

  /** Conversely the loop of the registered connection takes down that connection alone, and says so. */
  lemma CurrentExitEvictsItsOwn(w: World, steps: seq<Step>, loop: nat)
    requires Start(w) && loop in Run(w, steps).live && loop < |Run(w, steps).connected|
    requires Registers(Run(w, steps), Run(w, steps).connected[loop].peer, loop)
    ensures var n, m := Run(w, steps), Next(Run(w, steps), Exit(loop));
      && m.notices == n.notices + [Notice.PeerDisconnected(n.connected[loop].peer, loop)]
      && m.reg.conns == n.reg.conns - {n.connected[loop].peer}
      && m.reg.connGen == n.reg.connGen - {n.connected[loop].peer}
      && m.reg.sessions == n.reg.sessions - {n.connected[loop].peer}
      && m.reg.inbound == n.reg.inbound - {n.connected[loop].peer}
  {
  }

  /** No generation is given out twice among 2^64 connections, and none is reported disconnected twice. */
  lemma GenerationsReportedOnce(w: World, steps: seq<Step>, i: nat, j: nat)
    requires Start(w) && |Run(w, steps).connected| <= MAX_STAMP + 1
    requires var ns := Run(w, steps).notices; i < j < |ns| && GenOf(ns[i].loop) == GenOf(ns[j].loop)
    ensures var ns := Run(w, steps).notices;
      ns[i].loop == ns[j].loop && ns[i].PeerConnected? && ns[j].PeerDisconnected?
  {
    RunKeepsInv(w, steps);
  }
}
