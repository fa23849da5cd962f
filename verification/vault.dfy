/** Unlocking the vault: a wrong passphrase is always recognised as one and damages nothing, and the right
    one always brings back the same identity - over any sequence of attempts, including ones cut short. */
module Vault {
  import opened Wire
  import opened Stores

  const IDENTITY_KEY := "identity_sk"
  const VAULT_CHECK_KEY := "vault_check"
  /** The bytes of "vartalaap vault v1". */
  const VAULT_CHECK_VALUE: Bytes :=
    [118, 97, 114, 116, 97, 108, 97, 97, 112, 32, 118, 97, 117, 108, 116, 32, 118, 49]

  const SALT_LEN := 16
  const SEED_LEN := 32

  /** The data directory: the salt file and the table of sealed entries. */
  datatype Disk = Disk(salt: Option<Bytes>, table: Table)

  datatype OpenError = WrongPassphrase | CorruptIdentity | Interrupted

  /** Where an attempt is cut short: while writing the salt file (leaving `kept` bytes), or after the salt
      or the identity has been written. */
  datatype Cut = Never | DuringSalt(kept: nat) | AfterSalt | AfterIdentity

  datatype Attempt = Attempt(passphrase: string, freshSalt: Bytes, freshSeed: Bytes, cut: Cut)

  /** `writes` lists the entries put, in order. */
  datatype Opened = Opened(disk: Disk, result: Result<Bytes, OpenError>, writes: seq<string>)

  function With(d: Disk, key: VaultKey, name: string, plain: Bytes): Disk
  {
    d.(table := Put(d.table, key, name, plain))
  }

  /** The sentinel check: present and right, absent, or proof of a wrong passphrase. */
  function Sentinel(t: Table, key: VaultKey): Option<bool>
  {
    if VAULT_CHECK_KEY !in t then Some(false)
    else if Open(key, t[VAULT_CHECK_KEY]) == Ok(VAULT_CHECK_VALUE) then Some(true)
    else None
  }

  function Finish(d: Disk, key: VaultKey, seed: Bytes, present: bool, writes: seq<string>, cut: Cut): Opened
  {
    if present then Opened(d, Ok(seed), writes)
    else if cut == AfterIdentity then Opened(d, Err(Interrupted), writes)
    else Opened(With(d, key, VAULT_CHECK_KEY, VAULT_CHECK_VALUE), Ok(seed), writes + [VAULT_CHECK_KEY])
  }

  function Unlock(d: Disk, a: Attempt, salt: Bytes): Opened
  {
    var key := DerivedKey(a.passphrase, salt);
    var present := Sentinel(d.table, key);
    if present.None? then Opened(d, Err(WrongPassphrase), [])
    else if IDENTITY_KEY !in d.table then
      Finish(With(d, key, IDENTITY_KEY, a.freshSeed), key, a.freshSeed, present.value, [IDENTITY_KEY], a.cut)
    else
      var seed := Open(key, d.table[IDENTITY_KEY]);
      if seed.Err? then Opened(d, Err(WrongPassphrase), [])
      else if |seed.value| != SEED_LEN then Opened(d, Err(CorruptIdentity), [])
      else Finish(d, key, seed.value, present.value, [], a.cut)
  }

  /** `Engine::open`. */
  function OpenVault(d: Disk, a: Attempt): Opened
  {
    match d.salt
    case Some(salt) => if |salt| == SALT_LEN then Unlock(d, a, salt) else Opened(d, Err(CorruptIdentity), [])
    case None =>
      match a.cut
      case DuringSalt(kept) =>
        Opened(d.(salt := Some(if kept <= |a.freshSalt| then a.freshSalt[..kept] else a.freshSalt)), Err(Interrupted), [])
      case AfterSalt => Opened(d.(salt := Some(a.freshSalt)), Err(Interrupted), [])
      case _ => Unlock(d.(salt := Some(a.freshSalt)), a, a.freshSalt)
  }

  class Engine {
    var salt: Option<Bytes>
    var table: Table
    var written: seq<string>

    ghost function Value(): Disk
      reads this`salt, this`table
    {
      Disk(salt, table)
    }

    method LoadOrCreateSalt(a: Attempt) returns (r: Result<Bytes, OpenError>)
      modifies this`salt
      ensures old(salt).Some? ==> salt == old(salt)
      ensures old(salt).Some? ==> r == if |old(salt).value| == SALT_LEN then Ok(old(salt).value) else Err(CorruptIdentity)
      ensures old(salt).None? && !a.cut.DuringSalt? && !a.cut.AfterSalt? ==> salt == Some(a.freshSalt) && r == Ok(a.freshSalt)
      ensures old(salt).None? && (a.cut.DuringSalt? || a.cut.AfterSalt?) ==>
        r == Err(Interrupted) && Value() == OpenVault(Disk(None, table), a).disk
    {
      match salt {
        case Some(bytes) =>
          if |bytes| == SALT_LEN { return Ok(bytes); }
          return Err(CorruptIdentity);
        case None =>
          match a.cut {
            case DuringSalt(kept) =>
              salt := Some(if kept <= |a.freshSalt| then a.freshSalt[..kept] else a.freshSalt);
              return Err(Interrupted);
            case AfterSalt =>
              salt := Some(a.freshSalt);
              return Err(Interrupted);
            case _ =>
              salt := Some(a.freshSalt);
              return Ok(a.freshSalt);
          }
      }
    }

    /** Step by step, with its early returns, through the store; `written` logs the entries put. */
    method OpenWith(a: Attempt) returns (r: Result<Bytes, OpenError>)
      modifies this
      ensures r == OpenVault(old(Value()), a).result
      ensures Value() == OpenVault(old(Value()), a).disk
      ensures written == old(written) + OpenVault(old(Value()), a).writes
      ensures Proper(Try(a)) ==> Accounted(old(Value()), a, Value(), r)
    {
      if Proper(Try(a)) { AttemptAccounted(Value(), a); }
      var s := LoadOrCreateSalt(a);
      if s.Err? { return Err(s.error); }
      r := UnlockWith(a, s.value);
    }

    /** With the salt at hand: sentinel, identity, sentinel again. */
    method UnlockWith(a: Attempt, s: Bytes) returns (r: Result<Bytes, OpenError>)
      modifies this`table, this`written
      ensures r == Unlock(old(Value()), a, s).result
      ensures Value() == Unlock(old(Value()), a, s).disk
      ensures written == old(written) + Unlock(old(Value()), a, s).writes
    {
      var store := new Store(DerivedKey(a.passphrase, s), table);
      var present := false;
      var check := store.GetSecret(VAULT_CHECK_KEY);
      match check {
        case Ok(None) =>
        case Ok(Some(v)) =>
          if v != VAULT_CHECK_VALUE { return Err(WrongPassphrase); }
          present := true;
        case Err(_) => return Err(WrongPassphrase);
      }
      var seed: Bytes;
      var stored := store.GetSecret(IDENTITY_KEY);
      match stored {
        case Ok(Some(bytes)) =>
          if |bytes| != SEED_LEN { return Err(CorruptIdentity); }
          seed := bytes;
        case Ok(None) =>
          seed := a.freshSeed;
          store.PutSecret(IDENTITY_KEY, seed);
          table, written := store.table, written + [IDENTITY_KEY];
        case Err(_) => return Err(WrongPassphrase);
      }
      if !present {
        if a.cut == AfterIdentity { return Err(Interrupted); }
        store.PutSecret(VAULT_CHECK_KEY, VAULT_CHECK_VALUE);
        table, written := store.table, written + [VAULT_CHECK_KEY];
      }
      return Ok(seed);
    }
  }

  // ------------------------------------------------------------------ runs

  /** Between attempts the application saves, deletes and quarantines entries under other names. */
  datatype Event = Try(a: Attempt) | Save(name: string, blob: Blob) | Drop(name: string)

  predicate Proper(e: Event)
  {
    match e
    case Try(a) => |a.freshSalt| == SALT_LEN && |a.freshSeed| == SEED_LEN
    case Save(name, _) => name != IDENTITY_KEY && name != VAULT_CHECK_KEY
    case Drop(name) => name != IDENTITY_KEY && name != VAULT_CHECK_KEY
  }

  function Next(d: Disk, e: Event): Disk
  {
    match e
    case Try(a) => OpenVault(d, a).disk
    case Save(name, blob) => d.(table := d.table[name := blob])
    case Drop(name) => d.(table := d.table - {name})
  }

  function Run(d: Disk, es: seq<Event>): Disk
  {
    if es == [] then d else Next(Run(d, es[..|es| - 1]), es[|es| - 1])
  }

  /** How often the run puts the entry `name` while opening. */
  function Writes(d: Disk, es: seq<Event>, name: string): nat
  {
    if es == [] then 0
    else
      var n := |es| - 1;
      Writes(d, es[..n], name) + WritesOf(Run(d, es[..n]), es[n], name)
  }

  /** An identity is stored under `key`; the sentinel, if written, is under the same key. A vault from
      before sentinels existed satisfies this too. */
  ghost predicate Holds(d: Disk, key: VaultKey, seed: Bytes)
  {
    && d.salt == Some(key.salt) && |key.salt| == SALT_LEN && |seed| == SEED_LEN
    && Lookup(d.table, IDENTITY_KEY) == Some(Sealed(key, seed))
    && (VAULT_CHECK_KEY in d.table ==> d.table[VAULT_CHECK_KEY] == Sealed(key, VAULT_CHECK_VALUE))
  }

  ghost predicate Blank(d: Disk) { IDENTITY_KEY !in d.table && VAULT_CHECK_KEY !in d.table }

  /** Whatever the directory was, an attempt that succeeds hands out the identity that is stored afterwards, under the
      key it derived, with the sentinel beside it. */
  lemma OpenedIsStored(d: Disk, a: Attempt)
    requires Proper(Try(a)) && OpenVault(d, a).result.Ok?
    ensures var o := OpenVault(d, a);
      && o.disk.salt.Some? && Holds(o.disk, DerivedKey(a.passphrase, o.disk.salt.value), o.result.value)
      && VAULT_CHECK_KEY in o.disk.table
      && (d.salt.Some? ==> o.disk.salt == d.salt)
  {
  }

  /** An attempt that is refused, for whatever reason, leaves every entry as it was. */
  lemma RefusedChangesNothing(d: Disk, a: Attempt)
    requires OpenVault(d, a).result.Err? && OpenVault(d, a).result.error != Interrupted
    ensures OpenVault(d, a).disk.table == d.table && OpenVault(d, a).writes == []
    ensures d.salt.Some? ==> OpenVault(d, a).disk == d
  {
  }

  /** How an attempt `a` on `d` may end: in the identity that is then stored; refused, with every entry as it was; or
      cut short. On an empty directory, uncut, it ends in the fresh seed. */
  ghost predicate Accounted(d: Disk, a: Attempt, n: Disk, r: Result<Bytes, OpenError>)
  {
    && (r.Ok? ==> n.salt.Some? && Holds(n, DerivedKey(a.passphrase, n.salt.value), r.value))
    && (r.Err? && r.error != Interrupted ==> n.table == d.table)
    && (r == Err(Interrupted) ==> a.cut != Never)
    && (Blank(d) && d.salt.None? && a.cut == Never ==> r == Ok(a.freshSeed))
  }

  lemma AttemptAccounted(d: Disk, a: Attempt)
    requires Proper(Try(a))
    ensures Accounted(d, a, OpenVault(d, a).disk, OpenVault(d, a).result)
  {
    if OpenVault(d, a).result.Ok? {
      OpenedIsStored(d, a);
    } else if OpenVault(d, a).result.error != Interrupted {
      RefusedChangesNothing(d, a);
    }
    if Blank(d) && d.salt.None? && a.cut == Never { FirstOpen(d, a); }
  }

  /** The first open of an empty directory hands out the fresh seed. */
  lemma FirstOpen(d: Disk, a: Attempt)
    requires Blank(d) && Proper(Try(a)) && a.cut == Never && (d.salt.Some? ==> |d.salt.value| == SALT_LEN)
    ensures OpenVault(d, a).result == Ok(a.freshSeed)
    ensures OpenVault(d, a).disk.salt == Some(if d.salt.Some? then d.salt.value else a.freshSalt)
    ensures Holds(OpenVault(d, a).disk, DerivedKey(a.passphrase, OpenVault(d, a).disk.salt.value), a.freshSeed)
  {
    OpenedIsStored(d, a);
  }

  /** Every successful attempt after a successful one - whatever happened in between - hands out the same identity, and
      every uncut attempt with the same passphrase is successful. */
  lemma SameIdentityEverAfter(d: Disk, first: Attempt, es: seq<Event>, again: Attempt)
    requires Proper(Try(first)) && Proper(Try(again)) && OpenVault(d, first).result.Ok?
    requires forall e :: e in es ==> Proper(e)
    ensures var n := OpenVault(Run(OpenVault(d, first).disk, es), again);
      && (n.result.Ok? ==> n.result == OpenVault(d, first).result)
      && (again.passphrase == first.passphrase && again.cut == Never ==> n.result.Ok?)
  {
    var o := OpenVault(d, first);
    OpenedIsStored(d, first);
    UnlockOverRuns(o.disk, es, DerivedKey(first.passphrase, o.disk.salt.value), o.result.value, again);
    IdentityIsFinal(o.disk, es, DerivedKey(first.passphrase, o.disk.salt.value), o.result.value);
    if DerivedKey(again.passphrase, o.disk.salt.value) == DerivedKey(first.passphrase, o.disk.salt.value) {
      RightKeyOpens(Run(o.disk, es), DerivedKey(first.passphrase, o.disk.salt.value), o.result.value, again);
    }
  }

  /** Under any other key the attempt is refused as such and changes nothing. */
  lemma WrongKeyRefused(d: Disk, key: VaultKey, seed: Bytes, a: Attempt)
    requires Holds(d, key, seed) && DerivedKey(a.passphrase, key.salt) != key
    ensures OpenVault(d, a) == Opened(d, Err(WrongPassphrase), [])
  {
  }

  /** Under the right key it returns the stored identity, and at most adds the missing sentinel. */
  lemma RightKeyOpens(d: Disk, key: VaultKey, seed: Bytes, a: Attempt)
    requires Holds(d, key, seed) && DerivedKey(a.passphrase, key.salt) == key
    ensures var o := OpenVault(d, a);
      && Holds(o.disk, key, seed) && o.disk.table - {VAULT_CHECK_KEY} == d.table - {VAULT_CHECK_KEY}
      && (a.cut != AfterIdentity || VAULT_CHECK_KEY in d.table ==> o.result == Ok(seed) && VAULT_CHECK_KEY in o.disk.table)
      && o.writes == if VAULT_CHECK_KEY in d.table || a.cut == AfterIdentity then [] else [VAULT_CHECK_KEY]
  {
  }

  lemma BlankOpens(d: Disk, a: Attempt)
    requires Blank(d) && Proper(Try(a))
    ensures var o := OpenVault(d, a);
      && ((Blank(o.disk) && o.writes == []) || exists key :: Holds(o.disk, key, a.freshSeed))
      && multiset(o.writes)[IDENTITY_KEY] == (if IDENTITY_KEY in o.disk.table then 1 else 0)
      && multiset(o.writes)[VAULT_CHECK_KEY] == (if VAULT_CHECK_KEY in o.disk.table then 1 else 0)
  {
    var salt := if d.salt.Some? then d.salt.value else a.freshSalt;
    var o := OpenVault(d, a);
    if !Blank(o.disk) {
      assert Holds(o.disk, DerivedKey(a.passphrase, salt), a.freshSeed);
    }
  }

  lemma HoldsLasts(d: Disk, key: VaultKey, seed: Bytes, e: Event)
    requires Holds(d, key, seed) && Proper(e)
    ensures Holds(Next(d, e), key, seed)
    ensures VAULT_CHECK_KEY in d.table ==> VAULT_CHECK_KEY in Next(d, e).table
  {
    if e.Try? {
      if DerivedKey(e.a.passphrase, key.salt) == key {
        RightKeyOpens(d, key, seed, e.a);
      } else {
        WrongKeyRefused(d, key, seed, e.a);
      }
    }
  }

  /** Once an identity is stored it stays, under the same key, whatever is attempted afterwards. */
  lemma {:induction false} IdentityIsFinal(d: Disk, es: seq<Event>, key: VaultKey, seed: Bytes)
    requires Holds(d, key, seed) && forall e :: e in es ==> Proper(e)
    ensures Holds(Run(d, es), key, seed)
  {
    if es != [] {
      var n := |es| - 1;
      assert es == es[..n] + [es[n]];
      IdentityIsFinal(d, es[..n], key, seed);
      HoldsLasts(Run(d, es[..n]), key, seed, es[n]);
    }
  }

  /** After any events at all on a vault that holds an identity: an attempt with any other key returns
      `WrongPassphrase` and leaves every entry as it was; one with the right key that is not cut short
      returns that same identity. */
  lemma UnlockOverRuns(d: Disk, es: seq<Event>, key: VaultKey, seed: Bytes, a: Attempt)
    requires Holds(d, key, seed) && forall e :: e in es ==> Proper(e)
    ensures var n := Run(d, es);
      && (DerivedKey(a.passphrase, key.salt) != key ==> OpenVault(n, a) == Opened(n, Err(WrongPassphrase), []))
      && (DerivedKey(a.passphrase, key.salt) == key && a.cut == Never ==> OpenVault(n, a).result == Ok(seed))
  {
    IdentityIsFinal(d, es, key, seed);
    if DerivedKey(a.passphrase, key.salt) == key {
      RightKeyOpens(Run(d, es), key, seed, a);
    } else {
      WrongKeyRefused(Run(d, es), key, seed, a);
    }
  }

  /** What a run from a blank directory has reached, and how often it has written each entry. */
  ghost predicate Tracked(d: Disk, identityWrites: nat, checkWrites: nat)
  {
    && (Blank(d) || exists key, seed :: Holds(d, key, seed))
    && identityWrites == (if IDENTITY_KEY in d.table then 1 else 0)
    && checkWrites == (if VAULT_CHECK_KEY in d.table then 1 else 0)
  }

  function WritesOf(d: Disk, e: Event, name: string): nat
  {
    if e.Try? then multiset(OpenVault(d, e.a).writes)[name] else 0
  }

  lemma StepTracked(d: Disk, e: Event, identityWrites: nat, checkWrites: nat)
    requires Tracked(d, identityWrites, checkWrites) && Proper(e)
    ensures Tracked(Next(d, e), identityWrites + WritesOf(d, e, IDENTITY_KEY), checkWrites + WritesOf(d, e, VAULT_CHECK_KEY))
  {
    if Blank(d) {
      if e.Try? { BlankOpens(d, e.a); }
    } else {
      var key, seed :| Holds(d, key, seed);
      HoldsLasts(d, key, seed, e);
      if e.Try? {
        if DerivedKey(e.a.passphrase, key.salt) == key {
          RightKeyOpens(d, key, seed, e.a);
        } else {
          WrongKeyRefused(d, key, seed, e.a);
        }
      }
    }
  }

  lemma {:induction false} RunTracked(d: Disk, es: seq<Event>)
    requires Blank(d) && forall e :: e in es ==> Proper(e)
    ensures Tracked(Run(d, es), Writes(d, es, IDENTITY_KEY), Writes(d, es, VAULT_CHECK_KEY))
  {
    if es != [] {
      var n := |es| - 1;
      assert es == es[..n] + [es[n]];
      RunTracked(d, es[..n]);
      StepTracked(Run(d, es[..n]), es[n], Writes(d, es[..n], IDENTITY_KEY), Writes(d, es[..n], VAULT_CHECK_KEY));
    }
  }

  /** Over a whole run from an empty directory, identity and sentinel are each written at most once. */
  lemma WrittenAtMostOnce(d: Disk, es: seq<Event>)
    requires Blank(d) && forall e :: e in es ==> Proper(e)
    ensures Writes(d, es, IDENTITY_KEY) <= 1 && Writes(d, es, VAULT_CHECK_KEY) <= 1
  {
    RunTracked(d, es);
  }

  /** A salt file cut short while being written is refused ever after - by then no identity exists. */
  lemma TornSaltIsRefused(d: Disk, a: Attempt, b: Attempt)
    requires d.salt.None? && a.cut.DuringSalt? && a.cut.kept < SALT_LEN && |a.freshSalt| == SALT_LEN
    ensures var torn := OpenVault(d, a).disk;
      torn.table == d.table && OpenVault(torn, b) == Opened(torn, Err(CorruptIdentity), [])
  {
  }
}
