/** Session bookkeeping over a symbolic Double Ratchet. A ciphertext opens on exactly the session that
    made it; a handshake can be accepted while the one-time key it names is unused; an initiator sends
    handshake (pre-key) ciphertexts until it has decrypted something on that session. */
module Ratchet {
  import opened Wire

  datatype Bundle = Bundle(identity: nat, oneTimeKey: nat)

  /** `prekey`: the next ciphertext sent on this session is still a handshake message. */
  datatype Session = Session(sid: nat, oneTimeKey: nat, prekey: bool)

  datatype Cipher = Cipher(sid: nat, oneTimeKey: nat, prekey: bool, sender: nat, body: nat)

  /** The parts of the node state and messaging account that session handling uses. */
  datatype Keys = Keys(
    identity: nat,
    oneTime: set<nat>,
    sessions: map<PeerKey, Session>,
    inbound: map<PeerKey, Session>,
    bundles: map<PeerKey, Bundle>)

  datatype Sealed = Sealed(keys: Keys, cipher: Cipher)
  datatype Opened = Opened(keys: Keys, body: nat)

  function Encrypt(s: Session, sender: nat, body: nat): Cipher
  {
    Cipher(s.sid, s.oneTimeKey, s.prekey, sender, body)
  }

  function Heard(s: Session): Session { s.(prekey := false) }

  /** `encrypt_for` taken as one step; `sid` names the session if one has to be initiated. */
  function EncryptFor(k: Keys, peer: PeerKey, sid: nat, body: nat): Option<Sealed>
  {
    if peer in k.sessions then
      Some(Sealed(k, Encrypt(k.sessions[peer], k.identity, body)))
    else if peer in k.bundles then
      var s := Session(sid, k.bundles[peer].oneTimeKey, true);
      Some(Sealed(k.(sessions := k.sessions[peer := s]), Encrypt(s, k.identity, body)))
    else
      None
  }

  predicate Opens(sessions: map<PeerKey, Session>, peer: PeerKey, c: Cipher)
  {
    peer in sessions && sessions[peer].sid == c.sid
  }

  /** `RatchetSession::accept` succeeds. */
  predicate Acceptable(k: Keys, peer: PeerKey, c: Cipher)
  {
    peer in k.bundles && c.prekey && c.oneTimeKey in k.oneTime && c.sender == k.bundles[peer].identity
  }

  function Accepted(c: Cipher): Session { Session(c.sid, c.oneTimeKey, false) }

  /** `decrypt_payload` taken as one step: the primary session, then the retained inbound one, then a
      fresh accept whose place the lower id decides. */
  function DecryptPayload(k: Keys, me: PeerKey, peer: PeerKey, c: Cipher): Option<Opened>
  {
    if Opens(k.sessions, peer, c) then
      Some(Opened(k.(sessions := k.sessions[peer := Heard(k.sessions[peer])]), c.body))
    else if Opens(k.inbound, peer, c) then
      Some(Opened(k.(inbound := k.inbound[peer := Heard(k.inbound[peer])]), c.body))
    else if !Acceptable(k, peer, c) then
      None
    else
      var burnt := k.(oneTime := k.oneTime - {c.oneTimeKey});
      if peer !in k.sessions && peer !in k.inbound then
        Some(Opened(burnt.(sessions := k.sessions[peer := Accepted(c)]), c.body))
      else if peer < me then
        Some(Opened(burnt.(sessions := k.sessions[peer := Accepted(c)], inbound := k.inbound - {peer}), c.body))
      else
        Some(Opened(burnt.(inbound := k.inbound[peer := Accepted(c)]), c.body))
  }

  /** A new connection starts from a clean slate: the peer's fresh bundle and no session. */
  function SetUp(k: Keys, peer: PeerKey, bundle: Bundle): Keys
  {
    k.(bundles := k.bundles[peer := bundle], sessions := k.sessions - {peer}, inbound := k.inbound - {peer})
  }

  /** A later Hello on the same connection brings a new bundle. */
  function Renew(k: Keys, peer: PeerKey, bundle: Bundle): Keys { k.(bundles := k.bundles[peer := bundle]) }

  /** A ciphertext is read exactly if it is on one of the two sessions held with its sender, or opens one: a handshake
      to an unused key, from the identity that goes with the sender's bundle. What is read is what was sealed. */
  lemma ReadIff(k: Keys, me: PeerKey, peer: PeerKey, c: Cipher)
    ensures var r := DecryptPayload(k, me, peer, c);
      && (r.Some? <==>
            || (peer in k.sessions && k.sessions[peer].sid == c.sid)
            || (peer in k.inbound && k.inbound[peer].sid == c.sid)
            || (c.prekey && c.oneTimeKey in k.oneTime && peer in k.bundles && k.bundles[peer].identity == c.sender))
      && (r.Some? ==> r.value.body == c.body)
  {
  }

  /** What was read once stays readable: later ciphertexts of the same session are read, too. */
  lemma ReadAgain(k: Keys, me: PeerKey, peer: PeerKey, c: Cipher, d: Cipher)
    requires DecryptPayload(k, me, peer, c).Some? && d.sid == c.sid
    ensures DecryptPayload(DecryptPayload(k, me, peer, c).value.keys, me, peer, d).Some?
  {
  }

  /** A one-time key opens one session: after a handshake was accepted, no other handshake to its key is, from
      anybody. No other key is spent, and reading on a session spends none. */
  lemma KeyOpensOnce(k: Keys, me: PeerKey, peer: PeerKey, c: Cipher, other: PeerKey, d: Cipher)
    requires DecryptPayload(k, me, peer, c).Some?
    ensures var n := DecryptPayload(k, me, peer, c).value.keys;
      if Opens(k.sessions, peer, c) || Opens(k.inbound, peer, c) then n.oneTime == k.oneTime
      else
        && (forall x :: x in n.oneTime <==> x in k.oneTime && x != c.oneTimeKey)
        && (d.oneTimeKey == c.oneTimeKey && !Opens(n.sessions, other, d) && !Opens(n.inbound, other, d) ==>
              DecryptPayload(n, me, other, d) == None)
  {
  }

  /** Reading leaves what is held with everyone else alone. */
  lemma ReadLeavesOthers(k: Keys, me: PeerKey, peer: PeerKey, c: Cipher, other: PeerKey)
    requires DecryptPayload(k, me, peer, c).Some? && other != peer
    ensures var n := DecryptPayload(k, me, peer, c).value.keys;
      && Lookup(n.sessions, other) == Lookup(k.sessions, other) && Lookup(n.inbound, other) == Lookup(k.inbound, other)
      && n.bundles == k.bundles && n.identity == k.identity
  {
  }

  /** Whoever has read on the session it sends on sends no more handshakes on it. */
  lemma ReadingEndsHandshakes(k: Keys, me: PeerKey, peer: PeerKey, c: Cipher, sid: nat, body: nat)
    requires DecryptPayload(k, me, peer, c).Some?
    ensures var n := DecryptPayload(k, me, peer, c).value.keys;
      peer in n.sessions && n.sessions[peer].sid == c.sid ==>
        EncryptFor(n, peer, sid, body).Some?
        && EncryptFor(n, peer, sid, body).value.cipher.sid == c.sid && !EncryptFor(n, peer, sid, body).value.cipher.prekey
  {
  }

  /** Sending opens at most one session: the next ciphertext is on the same one, and is a handshake if the first was. */
  lemma SendsOnOneSession(k: Keys, peer: PeerKey, sid: nat, body: nat, sid2: nat, body2: nat)
    requires EncryptFor(k, peer, sid, body).Some?
    ensures var one := EncryptFor(k, peer, sid, body).value; var two := EncryptFor(one.keys, peer, sid2, body2);
      && one.cipher.body == body && one.cipher.sender == k.identity
      && two.Some? && two.value.keys == one.keys
      && two.value.cipher == one.cipher.(body := body2)
  {
  }

  /** Retained sessions are only ever held beside a primary one. */
  predicate HasPrimary(k: Keys, peer: PeerKey) { peer in k.inbound ==> peer in k.sessions }

  /** So whoever has read a ciphertext can send: there is a primary session with its sender. */
  lemma ReadingGivesSession(k: Keys, me: PeerKey, peer: PeerKey, c: Cipher, other: PeerKey)
    requires HasPrimary(k, other) && DecryptPayload(k, me, peer, c).Some?
    ensures HasPrimary(DecryptPayload(k, me, peer, c).value.keys, other)
    ensures other == peer ==> peer in DecryptPayload(k, me, peer, c).value.keys.sessions
  {
  }

  lemma OthersKeepPrimary(k: Keys, peer: PeerKey, sid: nat, body: nat, bundle: Bundle, other: PeerKey)
    requires HasPrimary(k, other)
    ensures HasPrimary(SetUp(k, peer, bundle), other) && HasPrimary(Renew(k, peer, bundle), other)
    ensures EncryptFor(k, peer, sid, body).Some? ==> HasPrimary(EncryptFor(k, peer, sid, body).value.keys, other)
  {
  }

  /** A later Hello leaves everything that runs on existing sessions as it was. Only what begins a session changes:
      the next initiation names the renewed one-time key, and handshakes are accepted from the renewed identity. */
  lemma HelloRenews(k: Keys, me: PeerKey, peer: PeerKey, bundle: Bundle, sid: nat, body: nat, c: Cipher)
    ensures EncryptFor(Renew(k, peer, bundle), peer, sid, body).Some?
    ensures EncryptFor(Renew(k, peer, bundle), peer, sid, body).value.cipher ==
      if peer in k.sessions then Encrypt(k.sessions[peer], k.identity, body)
      else Cipher(sid, bundle.oneTimeKey, true, k.identity, body)
    ensures Opens(k.sessions, peer, c) || Opens(k.inbound, peer, c) ==>
      DecryptPayload(Renew(k, peer, bundle), me, peer, c).Some? && DecryptPayload(k, me, peer, c).Some?
    ensures !Opens(k.sessions, peer, c) && !Opens(k.inbound, peer, c) ==>
      (DecryptPayload(Renew(k, peer, bundle), me, peer, c).Some? <==>
        c.prekey && c.oneTimeKey in k.oneTime && c.sender == bundle.identity)
  {
  }

  /** And nothing about any other peer changes. */
  lemma HelloLeavesOthers(k: Keys, me: PeerKey, peer: PeerKey, bundle: Bundle, other: PeerKey, c: Cipher)
    requires other != peer
    ensures Acceptable(Renew(k, peer, bundle), other, c) == Acceptable(k, other, c)
    ensures DecryptPayload(Renew(k, peer, bundle), me, other, c).Some? == DecryptPayload(k, me, other, c).Some?
  {
  }
}
