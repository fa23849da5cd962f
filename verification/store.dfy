/** The encrypted key-value store, and loading every entry under a prefix with the unreadable ones moved
    aside. Encryption is symbolic: a blob opens under the key that sealed it and under no other. */
module Stores {
  import opened Wire
  import opened Ordering

  type Byte = n: int | 0 <= n < 256
  type Bytes = seq<Byte>

  /** `derive_key` as a free constructor: different inputs give different keys. */
  datatype VaultKey = DerivedKey(passphrase: string, salt: Bytes)

  datatype Blob = Sealed(key: VaultKey, plain: Bytes) | Junk(raw: Bytes)

  datatype CryptoError = Decrypt | Format

  datatype Result<+T, +E> = Ok(value: T) | Err(error: E)

  const NONCE_LEN := 24

  function Open(key: VaultKey, b: Blob): Result<Bytes, CryptoError>
  {
    match b
    case Sealed(k, plain) => if k == key then Ok(plain) else Err(Decrypt)
    case Junk(raw) => if |raw| < NONCE_LEN then Err(Format) else Err(Decrypt)
  }

  type Table = map<string, Blob>

  datatype Entry = Entry(key: string, value: Result<Bytes, CryptoError>)

  function Slot(name: string): string { "corrupt/" + name }

  /** Move an entry's raw bytes to its `corrupt/` slot. */
  function Quarantined(t: Table, name: string): Table
  {
    if name in t then t[Slot(name) := t[name]] - {name} else t
  }

  function Under(t: Table, prefix: string): set<string> { set k | k in t && prefix <= k }

  function Entries(t: Table, key: VaultKey, names: seq<string>): seq<Entry>
    requires forall k :: k in names ==> k in t
  {
    if names == [] then []
    else
      var n := |names| - 1;
      assert names == names[..n] + [names[n]];
      Entries(t, key, names[..n]) + [Entry(names[n], Open(key, t[names[n]]))]
  }

  /** The keys a range scan starting at `prefix` visits, in order. */
  function RangeFrom(t: Table, prefix: string): (q: seq<string>)
    ensures SameElements(q, set k | k in t && !Less(Codes(k), Codes(prefix))) && Ascending(q, Codes)
  {
    SortedStrings(set k | k in t && !Less(Codes(k), Codes(prefix)))
  }

  lemma ScanStops(q: seq<string>, i: nat, prefix: string)
    requires Ascending(q, Codes) && i < |q| && !(prefix <= q[i]) && !Less(Codes(q[i]), Codes(prefix))
    ensures forall j :: i <= j < |q| ==> !(prefix <= q[j])
  {
    forall j | i <= j < |q| ensures !(prefix <= q[j]) {
      CodesPrefix(prefix, q[i]);
      CodesPrefix(prefix, q[j]);
      if i < j && prefix <= q[j] { PrefixesContiguous(Codes(prefix), Codes(q[i]), Codes(q[j])); }
    }
  }

  /** One more key visited, one more entry listed. */
  lemma EntriesNext(t: Table, key: VaultKey, q: seq<string>, i: nat)
    requires i < |q| && forall k :: k in q ==> k in t
    ensures Entries(t, key, q[..i + 1]) == Entries(t, key, q[..i]) + [Entry(q[i], Open(key, t[q[i]]))]
  {
    assert q[..i + 1][..i] == q[..i];
  }

  lemma ScanFindsAll(t: Table, prefix: string, q: seq<string>, i: nat)
    requires q == RangeFrom(t, prefix) && i <= |q|
    requires forall j :: 0 <= j < i ==> prefix <= q[j]
    requires forall j :: i <= j < |q| ==> !(prefix <= q[j])
    ensures q[..i] == SortedStrings(Under(t, prefix))
  {
    forall k ensures k in q[..i] <==> k in Under(t, prefix) {
      if k in Under(t, prefix) {
        CodesPrefix(prefix, k);
        PrefixNotAbove(Codes(prefix), Codes(k));
        assert k in q;
        var j :| 0 <= j < |q| && q[j] == k;
        assert q[..i][j] == k;
      }
      assert k in q[..i] ==> k in q;
    }
    SortedUnique(q[..i], SortedStrings(Under(t, prefix)), Under(t, prefix), Codes);
  }

  /** What looking an entry up under a key yields. */
  function Secret(t: Table, key: VaultKey, name: string): Result<Option<Bytes>, CryptoError>
  {
    if name !in t then Ok(None)
    else match Open(key, t[name])
      case Ok(plain) => Ok(Some(plain))
      case Err(e) => Err(e)
  }

  function Put(t: Table, key: VaultKey, name: string, plain: Bytes): Table { t[name := Sealed(key, plain)] }

  /** What is put can be got under the same key and under no other; nothing else changes; what is deleted
      is gone under every key. */
  lemma SecretAfterPut(t: Table, key: VaultKey, name: string, plain: Bytes, other: VaultKey, elsewhere: string)
    ensures Secret(Put(t, key, name, plain), key, name) == Ok(Some(plain))
    ensures other != key ==> Secret(Put(t, key, name, plain), other, name) == Err(Decrypt)
    ensures Secret(t - {name}, other, name) == Ok(None)
    ensures elsewhere != name ==> Secret(Put(t, key, name, plain), other, elsewhere) == Secret(t, other, elsewhere)
    ensures elsewhere != name ==> Secret(t - {name}, other, elsewhere) == Secret(t, other, elsewhere)
  {
  }

  class Store {
    const key: VaultKey
    var table: Table

    constructor (key: VaultKey, table: Table)
      ensures this.key == key && this.table == table
    {
      this.key := key;
      this.table := table;
    }

    method PutSecret(name: string, plain: Bytes)
      modifies this`table
      ensures table == Put(old(table), key, name, plain)
      ensures Secret(table, key, name) == Ok(Some(plain))
    {
      table := table[name := Sealed(key, plain)];
    }

    method GetSecret(name: string) returns (r: Result<Option<Bytes>, CryptoError>)
      ensures r == Secret(table, key, name)
    {
      if name !in table { return Ok(None); }
      var plain := Open(key, table[name]);
      if plain.Err? { return Err(plain.error); }
      return Ok(Some(plain.value));
    }

    method DeleteSecret(name: string)
      modifies this`table
      ensures table == old(table) - {name} && Secret(table, key, name) == Ok(None)
    {
      table := table - {name};
    }

    method Quarantine(name: string)
      modifies this`table
      ensures table == Quarantined(old(table), name)
    {
      if name !in table { return; }
      var raw := table[name];
      table := table[Slot(name) := raw];
      table := table - {name};
    }

    /** The range scan with its early break returns exactly the entries under the prefix, in key order. */
    method ListSecrets(prefix: string) returns (out: seq<Entry>)
      ensures forall k :: k in SortedStrings(Under(table, prefix)) ==> k in table
      ensures out == Entries(table, key, SortedStrings(Under(table, prefix)))
    {
      out := [];
      var range := RangeFrom(table, prefix);
      assert forall k :: k in range ==> k in table;
      var i := 0;
      while i < |range|
        invariant 0 <= i <= |range|
        invariant forall j :: 0 <= j < i ==> prefix <= range[j]
        invariant forall k :: k in range[..i] ==> k in table
        invariant out == Entries(table, key, range[..i])
      {
        if !(prefix <= range[i]) {
          assert range[i] in range;
          ScanStops(range, i, prefix);
          break;
        }
        EntriesNext(table, key, range, i);
        out := out + [Entry(range[i], Open(key, table[range[i]]))];
        i := i + 1;
      }
      ScanFindsAll(table, prefix, range, i);
    }
  }
}
