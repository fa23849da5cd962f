/** Both ends of a connection may open a session at the same moment. Over every interleaving of sends and
    every delivery order: nothing delivered is lost, and both ends settle on one session. */
module SessionRace {
  import opened Wire
  import opened Ordering
  import opened Ratchet

  datatype Mail = Mail(from: PeerKey, to: PeerKey, cipher: Cipher)

  /** One connection between `lo` and `hi`. `published` are the bundles in their Hello frames, `ready`
      the ends that have received the other's; `initiated` names the session each end opened. */
  datatype World = World(
    lo: PeerKey,
    hi: PeerKey,
    nodes: map<PeerKey, Keys>,
    published: map<PeerKey, Bundle>,
    ready: set<PeerKey>,
    net: seq<Mail>,
    initiated: map<PeerKey, nat>,
    drawn: nat)

  datatype Step = Ready(p: PeerKey) | Send(p: PeerKey, body: nat) | Deliver(i: nat)

  function Other(w: World, p: PeerKey): PeerKey { if p == w.lo then w.hi else w.lo }

  predicate Enabled(w: World, s: Step)
  {
    match s
    case Ready(p) => (p == w.lo || p == w.hi) && p !in w.ready && p in w.nodes && Other(w, p) in w.published
    case Send(p, body) =>
      && (p == w.lo || p == w.hi) && p in w.ready && p in w.nodes
      && EncryptFor(w.nodes[p], Other(w, p), w.drawn, body).Some?
    case Deliver(i) => i < |w.net| && w.net[i].to in w.ready && w.net[i].to in w.nodes
  }

  /** Frames that arrive before the Hello are held back and handled once it is in, so an end that is not
      ready leaves its mail in flight. */
  function Next(w: World, s: Step): World
  {
    if !Enabled(w, s) then w
    else
      match s
      case Ready(p) =>
        w.(nodes := w.nodes[p := SetUp(w.nodes[p], Other(w, p), w.published[Other(w, p)])], ready := w.ready + {p})
      case Send(p, body) =>
        var q := Other(w, p);
        var r := EncryptFor(w.nodes[p], q, w.drawn, body).value;
        w.(nodes := w.nodes[p := r.keys], net := w.net + [Mail(p, q, r.cipher)],
           initiated := if q in w.nodes[p].sessions then w.initiated else w.initiated[p := w.drawn],
           drawn := w.drawn + 1)
      case Deliver(i) =>
        var x := w.net[i];
        var r := DecryptPayload(w.nodes[x.to], x.to, x.from, x.cipher);
        w.(nodes := if r.Some? then w.nodes[x.to := r.value.keys] else w.nodes, net := Without(w.net, i))
  }

  function Run(w: World, steps: seq<Step>): World
  {
    if steps == [] then w else Next(Run(w, steps[..|steps| - 1]), steps[|steps| - 1])
  }

  /** Hello frames are out, each naming an unused one-time key. Sessions left over from an earlier
      connection may still be lying around. */
  ghost predicate Start(w: World)
  {
    && w.lo < w.hi && w.nodes.Keys == {w.lo, w.hi} && w.published.Keys == {w.lo, w.hi}
    && w.ready == {} && w.net == [] && w.initiated == map[]
    && forall p :: p in w.nodes ==>
         w.published[p].identity == w.nodes[p].identity && w.published[p].oneTimeKey in w.nodes[p].oneTime
  }

  // ------------------------------------------------------------------ one end of the connection

  /** What matters about one end. `unused`: the one-time key it published has not been accepted yet;
      `own`: the session it initiated on this connection. */
  datatype End = End(ready: bool, primary: Option<Session>, inbound: Option<Session>, unused: bool, own: Option<nat>)

  function EndOf(w: World, p: PeerKey): End
    requires p in w.nodes && p in w.published
  {
    var q := Other(w, p);
    End(p in w.ready, Lookup(w.nodes[p].sessions, q), Lookup(w.nodes[p].inbound, q),
        w.published[p].oneTimeKey in w.nodes[p].oneTime, Lookup(w.initiated, p))
  }

  /** `r` has taken over the session `s` opened. */
  predicate Adopted(r: End, s: End)
  {
    && r.ready && s.own.Some? && r.primary.Some? && r.inbound.None?
    && r.primary.value.sid == s.own.value && !r.primary.value.prekey
  }

  /** `e` keeps the session it opened itself. */
  predicate Kept(e: End)
  {
    e.ready && e.own.Some? && e.primary.Some? && e.primary.value.sid == e.own.value
  }

  predicate Blank(e: End) { e.primary.None? && e.inbound.None? && e.own.None? && e.unused }

  predicate Waiting(e: End) { !e.ready && e.own.None? && e.unused }

  /** The lower end: blank, keeping its own session (perhaps with the other's retained beside it), or -
      having opened none - using the other's. */
  predicate LoState(lo: End, hi: End)
  {
    || Waiting(lo) || (lo.ready && Blank(lo))
    || (Kept(lo) && lo.inbound.None? && lo.unused)
    || (Kept(lo) && lo.inbound.Some? && hi.own == Some(lo.inbound.value.sid))
    || (Adopted(lo, hi) && lo.own.None?)
  }

  /** The higher end: blank, keeping its own session, or using the lower end's. */
  predicate HiState(hi: End, lo: End)
  {
    || Waiting(hi) || (hi.ready && Blank(hi))
    || (Kept(hi) && hi.inbound.None? && hi.unused)
    || Adopted(hi, lo)
  }

  /** An end stops sending handshakes on its own session only once the other has adopted it. */
  predicate Handshakes(e: End, other: End, otherKey: nat)
  {
    Kept(e) ==> e.primary.value.oneTimeKey == otherKey && (e.primary.value.prekey || Adopted(other, e))
  }

  /** A ciphertext from `s` to `r`, whose published one-time key is `key`: on the sender's session, and
      then a handshake unless `r` has adopted it; or on the session `r` opened and still uses. */
  predicate CipherGood(c: Cipher, s: End, r: End, key: nat)
  {
    || (s.own == Some(c.sid) && if c.prekey then c.oneTimeKey == key else Adopted(r, s))
    || (r.own == Some(c.sid) && Kept(r) && Adopted(s, r))
  }

  ghost predicate Ends(lo: End, hi: End, keyLo: nat, keyHi: nat)
  {
    && LoState(lo, hi) && HiState(hi, lo) && Handshakes(lo, hi, keyHi) && Handshakes(hi, lo, keyLo)
    && (lo.own.Some? && hi.own.Some? ==> lo.own.value != hi.own.value)
  }

  /** What `DecryptPayload` does to an end. */
  function Received(e: End, lower: bool, key: nat, c: Cipher): Option<End>
  {
    if e.primary.Some? && e.primary.value.sid == c.sid then Some(e.(primary := Some(Heard(e.primary.value))))
    else if e.inbound.Some? && e.inbound.value.sid == c.sid then Some(e.(inbound := Some(Heard(e.inbound.value))))
    else if !(c.prekey && c.oneTimeKey == key && e.unused) then None
    else if e.primary.None? && e.inbound.None? then Some(e.(primary := Some(Accepted(c)), unused := false))
    else if lower then Some(e.(inbound := Some(Accepted(c)), unused := false))
    else Some(e.(primary := Some(Accepted(c)), inbound := None, unused := false))
  }

  /** The heart of it, for a ciphertext reaching the lower end. */
  lemma LoReceives(lo: End, hi: End, keyLo: nat, keyHi: nat, c: Cipher)
    requires Ends(lo, hi, keyLo, keyHi) && lo.ready && CipherGood(c, hi, lo, keyLo)
    ensures var r := Received(lo, true, keyLo, c);
      && r.Some? && Ends(r.value, hi, keyLo, keyHi)
      && (Adopted(lo, hi) ==> Adopted(r.value, hi)) && (Kept(lo) ==> Kept(r.value))
      && (hi.own == Some(c.sid) && lo.own.None? ==> Adopted(r.value, hi))
  {
  }

  /** And for one reaching the higher end. */
  lemma HiReceives(lo: End, hi: End, keyLo: nat, keyHi: nat, c: Cipher)
    requires Ends(lo, hi, keyLo, keyHi) && hi.ready && CipherGood(c, lo, hi, keyHi)
    ensures var r := Received(hi, false, keyHi, c);
      && r.Some? && Ends(lo, r.value, keyLo, keyHi)
      && (Adopted(hi, lo) ==> Adopted(r.value, lo))
      && (Kept(hi) && lo.own.None? ==> Kept(r.value))
      && (lo.own == Some(c.sid) ==> Adopted(r.value, lo))
  {
  }

  /** What `EncryptFor` does to an end. */
  function Sent(e: End, sid: nat, otherKey: nat): End
  {
    if e.primary.Some? then e else e.(primary := Some(Session(sid, otherKey, true)), own := Some(sid))
  }

  lemma LoSends(lo: End, hi: End, keyLo: nat, keyHi: nat, sid: nat, sender: nat, body: nat)
    requires Ends(lo, hi, keyLo, keyHi) && lo.ready && hi.own != Some(sid)
    ensures var e := Sent(lo, sid, keyHi);
      && Ends(e, hi, keyLo, keyHi) && CipherGood(Encrypt(e.primary.value, sender, body), e, hi, keyHi)
      && (Adopted(lo, hi) ==> Adopted(e, hi)) && (Kept(lo) ==> Kept(e)) && (lo.own.Some? ==> e.own == lo.own)
  {
  }

  lemma HiSends(lo: End, hi: End, keyLo: nat, keyHi: nat, sid: nat, sender: nat, body: nat)
    requires Ends(lo, hi, keyLo, keyHi) && hi.ready && lo.own != Some(sid)
    ensures var e := Sent(hi, sid, keyLo);
      && Ends(lo, e, keyLo, keyHi) && CipherGood(Encrypt(e.primary.value, sender, body), e, lo, keyLo)
      && (Adopted(hi, lo) ==> Adopted(e, lo)) && (Kept(hi) ==> Kept(e)) && (hi.own.Some? ==> e.own == hi.own)
  {
  }

  // ------------------------------------------------------------------ the whole connection

  ghost predicate Shape(w: World)
  {
    && w.lo < w.hi && w.nodes.Keys == {w.lo, w.hi} && w.published.Keys == {w.lo, w.hi}
    && w.initiated.Keys <= {w.lo, w.hi}
    && forall p :: p in w.nodes ==> w.published[p].identity == w.nodes[p].identity
  }

  /** An end that is ready knows the other's bundle. */
  predicate Met(w: World, p: PeerKey)
    requires w.nodes.Keys == {w.lo, w.hi} && w.published.Keys == {w.lo, w.hi} && p in w.nodes
  {
    p in w.ready ==> Other(w, p) in w.nodes[p].bundles && w.nodes[p].bundles[Other(w, p)] == w.published[Other(w, p)]
  }

  ghost predicate MailGood(w: World, x: Mail)
    requires Shape(w)
  {
    && x.from in w.nodes && x.to == Other(w, x.from) && x.cipher.sender == w.nodes[x.from].identity
    && CipherGood(x.cipher, EndOf(w, x.from), EndOf(w, x.to), w.published[x.to].oneTimeKey)
  }

  /** The session `p` opened has reached the other end, or a message on it is on its way. */
  ghost predicate Reaching(w: World, p: PeerKey)
    requires Shape(w) && p in w.nodes
  {
    || Adopted(EndOf(w, Other(w, p)), EndOf(w, p))
    || exists x :: x in w.net && x.from == p && EndOf(w, p).own == Some(x.cipher.sid)
  }

  ghost predicate Inv(w: World)
  {
    && Shape(w) && Met(w, w.lo) && Met(w, w.hi)
    && Ends(EndOf(w, w.lo), EndOf(w, w.hi), w.published[w.lo].oneTimeKey, w.published[w.hi].oneTimeKey)
    && (forall p :: p in w.initiated ==> w.initiated[p] < w.drawn)
    && (forall x :: x in w.net ==> MailGood(w, x))
    && (w.lo in w.initiated ==> Reaching(w, w.lo))
    && (w.hi in w.initiated && w.lo !in w.initiated ==> Reaching(w, w.hi))
  }

  lemma StartInv(w: World)
    requires Start(w)
    ensures Inv(w)
  {
  }

  /** What the code does to the node is what `Received` does to its end. */
  lemma DecryptIs(w: World, p: PeerKey, c: Cipher)
    requires Shape(w) && p in w.nodes && p in w.ready && Met(w, p) && c.sender == w.nodes[Other(w, p)].identity
    ensures var q := Other(w, p);
      var r, e := DecryptPayload(w.nodes[p], p, q, c), Received(EndOf(w, p), p == w.lo, w.published[p].oneTimeKey, c);
      && (e.Some? ==> r.Some? && r.value.body == c.body)
      && (e.Some? ==> EndOf(w.(nodes := w.nodes[p := r.value.keys]), p) == e.value)
  {
  }

  lemma EncryptIs(w: World, p: PeerKey, body: nat)
    requires Shape(w) && p in w.nodes && p in w.ready && Met(w, p)
    ensures var q := Other(w, p);
      var r, e := EncryptFor(w.nodes[p], q, w.drawn, body), Sent(EndOf(w, p), w.drawn, w.published[q].oneTimeKey);
      && r.Some? && r.value.cipher == Encrypt(e.primary.value, w.nodes[p].identity, body)
      && EndOf(Next(w, Send(p, body)), p) == e
  {
  }

  /** A ciphertext in flight stays good as long as neither end drops what it relies on. */
  lemma CipherStays(c: Cipher, s: End, r: End, s': End, r': End, key: nat)
    requires CipherGood(c, s, r, key)
    requires (s.own.Some? ==> s'.own == s.own) && (r.own.Some? ==> r'.own == r.own)
    requires (Adopted(r, s) ==> Adopted(r', s')) && (Adopted(s, r) ==> Adopted(s', r'))
    requires Kept(r) && Adopted(s, r) ==> Kept(r')
    ensures CipherGood(c, s', r', key)
  {
  }

  /** Adoption and own sessions survive the step. */
  ghost predicate Lasting(lo: End, hi: End, lo': End, hi': End)
  {
    && (lo.own.Some? ==> lo'.own == lo.own) && (hi.own.Some? ==> hi'.own == hi.own)
    && (Adopted(lo, hi) ==> Adopted(lo', hi')) && (Adopted(hi, lo) ==> Adopted(hi', lo'))
    && (Kept(lo) && Adopted(hi, lo) ==> Kept(lo')) && (Kept(hi) && Adopted(lo, hi) ==> Kept(hi'))
  }

  lemma MailStays(w: World, n: World, x: Mail)
    requires Shape(w) && Shape(n) && n.lo == w.lo && n.hi == w.hi && n.published == w.published
    requires MailGood(w, x) && x.from in n.nodes && n.nodes[x.from].identity == w.nodes[x.from].identity
    requires Lasting(EndOf(w, w.lo), EndOf(w, w.hi), EndOf(n, w.lo), EndOf(n, w.hi))
    ensures MailGood(n, x)
  {
    CipherStays(x.cipher, EndOf(w, x.from), EndOf(w, x.to), EndOf(n, x.from), EndOf(n, x.to), w.published[x.to].oneTimeKey);
  }

  lemma ReadyChanges(w: World, p: PeerKey)
    requires Inv(w) && Enabled(w, Ready(p))
    ensures var n := Next(w, Ready(p));
      && Shape(n) && Met(n, n.lo) && Met(n, n.hi)
      && EndOf(n, p) == End(true, None, None, EndOf(w, p).unused, EndOf(w, p).own)
      && EndOf(n, Other(w, p)) == EndOf(w, Other(w, p))
  {
  }

  lemma ReadyKeepsInv(w: World, p: PeerKey)
    requires Inv(w) && Enabled(w, Ready(p))
    ensures Inv(Next(w, Ready(p)))
  {
    var n := Next(w, Ready(p));
    ReadyChanges(w, p);
    forall x | x in n.net ensures MailGood(n, x) { MailStays(w, n, x); }
    if w.lo in w.initiated { ReachingStays(w, n, w.lo); }
    if w.hi in w.initiated && w.lo !in w.initiated { ReachingStays(w, n, w.hi); }
  }

  lemma ReachingStays(w: World, n: World, p: PeerKey)
    requires Shape(w) && Shape(n) && n.lo == w.lo && n.hi == w.hi && p in w.nodes && Reaching(w, p)
    requires Lasting(EndOf(w, w.lo), EndOf(w, w.hi), EndOf(n, w.lo), EndOf(n, w.hi))
    requires forall x :: x in w.net && x.from == p ==> x in n.net
    ensures Reaching(n, p)
  {
  }

  lemma EncryptKeeps(k: Keys, peer: PeerKey, sid: nat, body: nat)
    requires EncryptFor(k, peer, sid, body).Some?
    ensures var r := EncryptFor(k, peer, sid, body).value.keys; r.identity == k.identity && r.bundles == k.bundles
  {
  }

  lemma SendDraws(w: World, p: PeerKey, body: nat)
    requires Inv(w) && Enabled(w, Send(p, body))
    ensures var n := Next(w, Send(p, body));
      n.initiated.Keys <= {w.lo, w.hi} && forall r :: r in n.initiated ==> n.initiated[r] < n.drawn
  {
  }

  lemma SendShape(w: World, p: PeerKey, body: nat)
    requires Inv(w) && Enabled(w, Send(p, body))
    ensures var n := Next(w, Send(p, body));
      && Shape(n) && Met(n, n.lo) && Met(n, n.hi)
      && n.nodes[p].identity == w.nodes[p].identity && n.nodes[Other(w, p)] == w.nodes[Other(w, p)]
  {
    var q := Other(w, p);
    var r := EncryptFor(w.nodes[p], q, w.drawn, body).value;
    SendDraws(w, p, body);
    EncryptKeeps(w.nodes[p], q, w.drawn, body);
    assert Next(w, Send(p, body)).nodes == w.nodes[p := r.keys];
  }

  lemma SendChanges(w: World, p: PeerKey, body: nat)
    requires Inv(w) && Enabled(w, Send(p, body)) && Shape(Next(w, Send(p, body)))
    ensures var n, q := Next(w, Send(p, body)), Other(w, p);
      && EndOf(n, p) == Sent(EndOf(w, p), w.drawn, w.published[q].oneTimeKey) && EndOf(n, q) == EndOf(w, q)
      && n.net == w.net + [Mail(p, q, Encrypt(EndOf(n, p).primary.value, w.nodes[p].identity, body))]
  {
    EncryptIs(w, p, body);
  }

  lemma SendKeepsInv(w: World, p: PeerKey, body: nat)
    requires Inv(w) && Enabled(w, Send(p, body))
    ensures Inv(Next(w, Send(p, body)))
  {
    var n, q := Next(w, Send(p, body)), Other(w, p);
    var lo, hi := EndOf(w, w.lo), EndOf(w, w.hi);
    var keyLo, keyHi := w.published[w.lo].oneTimeKey, w.published[w.hi].oneTimeKey;
    SendDraws(w, p, body);
    SendShape(w, p, body);
    SendChanges(w, p, body);
    if p == w.lo {
      LoSends(lo, hi, keyLo, keyHi, w.drawn, w.nodes[p].identity, body);
    } else {
      HiSends(lo, hi, keyLo, keyHi, w.drawn, w.nodes[p].identity, body);
    }
    var x := n.net[|w.net|];
    assert x in n.net && MailGood(n, x);
    forall y | y in w.net ensures MailGood(n, y) { MailStays(w, n, y); }
    SendReaches(w, n, p, x, w.lo);
    SendReaches(w, n, p, x, w.hi);
  }

  lemma SendReaches(w: World, n: World, p: PeerKey, x: Mail, r: PeerKey)
    requires Shape(w) && Shape(n) && n.lo == w.lo && n.hi == w.hi && r in w.nodes && p in w.nodes
    requires Lasting(EndOf(w, w.lo), EndOf(w, w.hi), EndOf(n, w.lo), EndOf(n, w.hi))
    requires n.net == w.net + [x] && x.from == p
    requires r in n.initiated && r !in w.initiated ==> r == p && x.cipher.sid == n.initiated[r]
    ensures r in n.initiated && (r in w.initiated ==> Reaching(w, r)) ==> Reaching(n, r)
  {
    assert x in n.net;
    if r in w.initiated && Reaching(w, r) { ReachingStays(w, n, r); }
  }

  /** Whatever is delivered decrypts, to what was sent. */
  lemma MailDecrypts(w: World, x: Mail)
    requires Inv(w) && x in w.net && x.to in w.ready && x.to in w.nodes
    ensures var r := DecryptPayload(w.nodes[x.to], x.to, x.from, x.cipher); r.Some? && r.value.body == x.cipher.body
    ensures Received(EndOf(w, x.to), x.to == w.lo, w.published[x.to].oneTimeKey, x.cipher).Some?
  {
    assert MailGood(w, x);
    var lo, hi := EndOf(w, w.lo), EndOf(w, w.hi);
    if x.to == w.lo {
      LoReceives(lo, hi, w.published[w.lo].oneTimeKey, w.published[w.hi].oneTimeKey, x.cipher);
    } else {
      HiReceives(lo, hi, w.published[w.lo].oneTimeKey, w.published[w.hi].oneTimeKey, x.cipher);
    }
    DecryptIs(w, x.to, x.cipher);
  }

  lemma DecryptKeeps(k: Keys, me: PeerKey, peer: PeerKey, c: Cipher)
    requires DecryptPayload(k, me, peer, c).Some?
    ensures var r := DecryptPayload(k, me, peer, c).value.keys; r.identity == k.identity && r.bundles == k.bundles
  {
  }

  lemma DeliverChanges(w: World, i: nat, x: Mail, q: PeerKey)
    requires Inv(w) && Enabled(w, Deliver(i)) && x == w.net[i] && q == Other(w, x.to) && x.from == q
    requires x.cipher.sender == w.nodes[q].identity
    requires Received(EndOf(w, x.to), x.to == w.lo, w.published[x.to].oneTimeKey, x.cipher).Some?
    ensures var n := Next(w, Deliver(i));
      && Shape(n) && Met(n, n.lo) && Met(n, n.hi)
      && Received(EndOf(w, x.to), x.to == w.lo, w.published[x.to].oneTimeKey, x.cipher) == Some(EndOf(n, x.to))
      && EndOf(n, q) == EndOf(w, q)
  {
    DecryptIs(w, x.to, x.cipher);
    DecryptKeeps(w.nodes[x.to], x.to, q, x.cipher);
    var r := DecryptPayload(w.nodes[x.to], x.to, q, x.cipher).value.keys;
    assert Next(w, Deliver(i)) == w.(nodes := w.nodes[x.to := r], net := Without(w.net, i));
  }

  /** The two ends after the delivery are what receiving makes of them. */
  lemma DeliverKeepsEnds(w: World, i: nat)
    requires Inv(w) && Enabled(w, Deliver(i))
    ensures var x, n := w.net[i], Next(w, Deliver(i));
      && MailGood(w, x) && Shape(n) && Met(n, n.lo) && Met(n, n.hi)
      && Received(EndOf(w, x.to), x.to == w.lo, w.published[x.to].oneTimeKey, x.cipher) == Some(EndOf(n, x.to))
      && EndOf(n, x.from) == EndOf(w, x.from)
  {
    var x := w.net[i];
    assert MailGood(w, x);
    MailDecrypts(w, x);
    DeliverChanges(w, i, x, x.from);
  }

  /** And they make a pair that the invariant allows, nearer to using one session. */
  ghost predicate Advanced(w: World, n: World, x: Mail)
    requires Shape(w)
  {
    && Shape(n) && n.lo == w.lo && n.hi == w.hi
    && Ends(EndOf(n, w.lo), EndOf(n, w.hi), w.published[w.lo].oneTimeKey, w.published[w.hi].oneTimeKey)
    && Lasting(EndOf(w, w.lo), EndOf(w, w.hi), EndOf(n, w.lo), EndOf(n, w.hi))
    && (x.from == w.lo && EndOf(w, w.lo).own == Some(x.cipher.sid) ==> Adopted(EndOf(n, w.hi), EndOf(n, w.lo)))
    && (x.from == w.hi && w.lo !in w.initiated && EndOf(w, w.hi).own == Some(x.cipher.sid) ==>
          Adopted(EndOf(n, w.lo), EndOf(n, w.hi)))
  }

  lemma DeliverToLo(w: World, i: nat)
    requires Inv(w) && Enabled(w, Deliver(i)) && w.net[i].to == w.lo
    ensures Advanced(w, Next(w, Deliver(i)), w.net[i])
  {
    DeliverKeepsEnds(w, i);
    LoReceives(EndOf(w, w.lo), EndOf(w, w.hi), w.published[w.lo].oneTimeKey, w.published[w.hi].oneTimeKey, w.net[i].cipher);
  }

  lemma DeliverToHi(w: World, i: nat)
    requires Inv(w) && Enabled(w, Deliver(i)) && w.net[i].to == w.hi
    ensures Advanced(w, Next(w, Deliver(i)), w.net[i])
  {
    DeliverKeepsEnds(w, i);
    HiReceives(EndOf(w, w.lo), EndOf(w, w.hi), w.published[w.lo].oneTimeKey, w.published[w.hi].oneTimeKey, w.net[i].cipher);
  }

  lemma DeliverKeepsInv(w: World, i: nat)
    requires Inv(w) && Enabled(w, Deliver(i))
    ensures Inv(Next(w, Deliver(i)))
  {
    var x, n := w.net[i], Next(w, Deliver(i));
    DeliverKeepsEnds(w, i);
    if x.to == w.lo { DeliverToLo(w, i); } else { DeliverToHi(w, i); }
    forall y | y in n.net ensures MailGood(n, y) { MailStays(w, n, y); }
    DeliverReaches(w, n, x, w.lo);
    DeliverReaches(w, n, x, w.hi);
  }

  lemma DeliverReaches(w: World, n: World, x: Mail, r: PeerKey)
    requires Shape(w) && Shape(n) && n.lo == w.lo && n.hi == w.hi && r in w.nodes && n.initiated == w.initiated
    requires Lasting(EndOf(w, w.lo), EndOf(w, w.hi), EndOf(n, w.lo), EndOf(n, w.hi))
    requires forall y :: y in w.net && y != x ==> y in n.net
    ensures Reaching(w, r) && (x.from == r && EndOf(w, r).own == Some(x.cipher.sid) ==> Adopted(EndOf(n, Other(n, r)), EndOf(n, r)))
            ==> Reaching(n, r)
  {
  }

  lemma {:induction false} RunKeepsInv(w: World, steps: seq<Step>)
    requires Start(w)
    ensures Inv(Run(w, steps)) && Run(w, steps).lo == w.lo && Run(w, steps).hi == w.hi
  {
    if steps == [] {
      StartInv(w);
    } else {
      var k := |steps| - 1;
      RunKeepsInv(w, steps[..k]);
      var before := Run(w, steps[..k]);
      if Enabled(before, steps[k]) {
        match steps[k] {
          case Ready(p) => ReadyKeepsInv(before, p);
          case Send(p, body) => SendKeepsInv(before, p, body);
          case Deliver(i) => DeliverKeepsInv(before, i);
        }
      }
    }
  }

  /** Over every interleaving of sends by both ends and every delivery order: each delivered ciphertext
      decrypts at its receiver, to the body that was encrypted. */
  lemma EveryDeliveryDecrypts(w: World, steps: seq<Step>, x: Mail)
    requires Start(w) && x in Run(w, steps).net && x.to in Run(w, steps).ready
    ensures x.to in Run(w, steps).nodes
    ensures var r := DecryptPayload(Run(w, steps).nodes[x.to], x.to, x.from, x.cipher);
      r.Some? && r.value.body == x.cipher.body
  {
    RunKeepsInv(w, steps);
    assert MailGood(Run(w, steps), x);
    MailDecrypts(Run(w, steps), x);
  }

  /** With nothing in flight the two primaries are one and the same session - the lower end's whenever
      the lower end opened one. */
  lemma QuietPrimariesAgree(w: World, steps: seq<Step>)
    requires Start(w) && Run(w, steps).net == [] && Run(w, steps).ready == {w.lo, w.hi}
    ensures var n := Run(w, steps); Shape(n) && n.lo == w.lo && n.hi == w.hi
    ensures var n := Run(w, steps); var lo, hi := EndOf(n, w.lo).primary, EndOf(n, w.hi).primary;
      && (lo.Some? <==> hi.Some?) && (lo.Some? ==> lo.value.sid == hi.value.sid)
      && (w.lo in n.initiated ==> lo.Some? && lo.value.sid == n.initiated[w.lo])
      && (n.initiated == map[] ==> lo.None?)
  {
    RunKeepsInv(w, steps);
    var n := Run(w, steps);
    assert w.lo in n.initiated ==> Adopted(EndOf(n, n.hi), EndOf(n, n.lo));
    assert w.hi in n.initiated && w.lo !in n.initiated ==> Adopted(EndOf(n, n.lo), EndOf(n, n.hi));
  }
}
