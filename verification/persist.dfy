/** Loading a family of vault entries at startup: every readable one is returned, every unreadable one is
    moved aside byte for byte, and loading again finds nothing more to complain about. */
module Persist {
  import opened Wire
  import opened Ordering
  import opened Stores

  datatype Item<+T> = Item(key: string, value: T)

  /** Decrypt, then decode. */
  function ReadAs<T>(key: VaultKey, b: Blob, parse: Bytes -> Option<T>): Option<T>
  {
    var plain := Open(key, b);
    if plain.Ok? then parse(plain.value) else None
  }

  function Items<T>(t: Table, key: VaultKey, parse: Bytes -> Option<T>, names: seq<string>): seq<Item<T>>
    requires forall k :: k in names ==> k in t
  {
    if names == [] then []
    else
      var n := |names| - 1;
      assert names == names[..n] + [names[n]];
      var v := ReadAs(key, t[names[n]], parse);
      Items(t, key, parse, names[..n]) + if v.Some? then [Item(names[n], v.value)] else []
  }

  /** The names whose entries read (`good`), or do not, in order. */
  function Pick<T>(t: Table, key: VaultKey, parse: Bytes -> Option<T>, names: seq<string>, good: bool): (q: seq<string>)
    requires forall k :: k in names ==> k in t
    ensures forall k :: k in q <==> k in names && ReadAs(key, t[k], parse).Some? == good
  {
    if names == [] then []
    else
      var n := |names| - 1;
      assert names == names[..n] + [names[n]];
      Pick(t, key, parse, names[..n], good)
      + if ReadAs(key, t[names[n]], parse).Some? == good then [names[n]] else []
  }

  function QuarantineAll(t: Table, names: seq<string>): Table
  {
    if names == [] then t else Quarantined(QuarantineAll(t, names[..|names| - 1]), names[|names| - 1])
  }

  function Listed(t: Table, prefix: string): (names: seq<string>)
    ensures SameElements(names, Under(t, prefix)) && Ascending(names, Codes)
    ensures forall k :: k in names ==> k in t
  {
    SortedStrings(Under(t, prefix))
  }

  function Bad<T>(t: Table, key: VaultKey, parse: Bytes -> Option<T>, prefix: string): seq<string>
  {
    Pick(t, key, parse, Listed(t, prefix), false)
  }

  lemma {:induction false} EntriesAre(t: Table, key: VaultKey, names: seq<string>)
    requires forall k :: k in names ==> k in t
    ensures |Entries(t, key, names)| == |names|
    ensures forall i :: 0 <= i < |names| ==> Entries(t, key, names)[i] == Entry(names[i], Open(key, t[names[i]]))
  {
    if names != [] {
      var n := |names| - 1;
      assert names == names[..n] + [names[n]];
      EntriesAre(t, key, names[..n]);
    }
  }

  lemma ItemsNext<T>(t: Table, key: VaultKey, parse: Bytes -> Option<T>, names: seq<string>, i: nat)
    requires i < |names| && forall k :: k in names ==> k in t
    ensures Items(t, key, parse, names[..i + 1]) == Items(t, key, parse, names[..i])
      + match ReadAs(key, t[names[i]], parse) { case Some(v) => [Item(names[i], v)] case None => [] }
  {
    assert names[..i + 1][..i] == names[..i];
  }

  lemma BadNext<T>(t: Table, key: VaultKey, parse: Bytes -> Option<T>, names: seq<string>, i: nat)
    requires i < |names| && forall k :: k in names ==> k in t
    ensures Pick(t, key, parse, names[..i + 1], false) == Pick(t, key, parse, names[..i], false)
      + if ReadAs(key, t[names[i]], parse).None? then [names[i]] else []
  {
    assert names[..i + 1][..i] == names[..i];
  }

  lemma QuarantineNext(t: Table, names: seq<string>, name: string)
    ensures QuarantineAll(t, names + [name]) == Quarantined(QuarantineAll(t, names), name)
  {
    assert (names + [name])[..|names|] == names;
  }

  /** One entry: decoded, or moved aside. */
  method LoadEntry<T>(store: Store, e: Entry, parse: Bytes -> Option<T>) returns (v: Option<T>)
    modifies store`table
    ensures v == if e.value.Ok? then parse(e.value.value) else None
    ensures store.table == if v.Some? then old(store.table) else Quarantined(old(store.table), e.key)
  {
    v := if e.value.Ok? then parse(e.value.value) else None;
    if v.None? { store.Quarantine(e.key); }
  }

  /** `load_prefix`, entry by entry. A warning is recorded by the key it names. */
  method LoadPrefix<T>(store: Store, prefix: string, parse: Bytes -> Option<T>)
    returns (items: seq<Item<T>>, warnings: seq<string>)
    modifies store`table
    ensures items == Items(old(store.table), store.key, parse, Listed(old(store.table), prefix))
    ensures warnings == Bad(old(store.table), store.key, parse, prefix)
    ensures store.table == QuarantineAll(old(store.table), warnings)
  {
    ghost var t, names := store.table, Listed(store.table, prefix);
    items, warnings := [], [];
    var entries := store.ListSecrets(prefix);
    EntriesAre(t, store.key, names);
    for i := 0 to |entries|
      invariant items == Items(t, store.key, parse, names[..i])
      invariant warnings == Pick(t, store.key, parse, names[..i], false)
      invariant store.table == QuarantineAll(t, warnings)
    {
      var e := entries[i];
      ItemsNext(t, store.key, parse, names, i);
      BadNext(t, store.key, parse, names, i);
      QuarantineNext(t, warnings, e.key);
      assert ReadAs(store.key, t[names[i]], parse) == if e.value.Ok? then parse(e.value.value) else None;
      var v := LoadEntry(store, e, parse);
      if v.Some? {
        items := items + [Item(e.key, v.value)];
      } else {
        warnings := warnings + [e.key];
      }
    }
    assert names[..|names|] == names;
  }

  // ------------------------------------------------------------------ what loading returns

  /** The entry was sealed under `key` and what is in it parses as `v`. */
  ghost predicate Readable<T(!new)>(key: VaultKey, b: Blob, parse: Bytes -> Option<T>, v: T)
  {
    b.Sealed? && b.key == key && parse(b.plain) == Some(v)
  }

  lemma {:induction false} ItemsAre<T(!new)>(t: Table, key: VaultKey, parse: Bytes -> Option<T>, names: seq<string>)
    requires forall k :: k in names ==> k in t
    ensures forall x :: x in Items(t, key, parse, names) <==> x.key in names && Readable(key, t[x.key], parse, x.value)
  {
    if names != [] {
      var n := |names| - 1;
      assert names == names[..n] + [names[n]];
      ItemsAre(t, key, parse, names[..n]);
    }
  }

  /** The items carry the names of the entries that read, in the same order. */
  lemma {:induction false} ItemNames<T(!new)>(t: Table, key: VaultKey, parse: Bytes -> Option<T>, names: seq<string>)
    requires forall k :: k in names ==> k in t
    ensures var items, good := Items(t, key, parse, names), Pick(t, key, parse, names, true);
      |items| == |good| && forall i :: 0 <= i < |items| ==> items[i].key == good[i]
  {
    if names != [] {
      var n := |names| - 1;
      assert names == names[..n] + [names[n]];
      ItemNames(t, key, parse, names[..n]);
    }
  }

  /** Exactly the entries under the prefix that were sealed under the key and parse, in ascending order of their
      names; and a warning for each of the others. */
  lemma LoadedExactly<T(!new)>(t: Table, key: VaultKey, parse: Bytes -> Option<T>, prefix: string)
    ensures var items, bad := Items(t, key, parse, Listed(t, prefix)), Bad(t, key, parse, prefix);
      && (forall x :: x in items <==> prefix <= x.key && x.key in t && Readable(key, t[x.key], parse, x.value))
      && (forall i, j :: 0 <= i < j < |items| ==> Less(Codes(items[i].key), Codes(items[j].key)))
      && (forall k :: k in bad <==> prefix <= k && k in t && forall v :: !Readable(key, t[k], parse, v))
      && (forall i, j :: 0 <= i < j < |bad| ==> Less(Codes(bad[i]), Codes(bad[j])))
  {
    var names := Listed(t, prefix);
    ItemsAre(t, key, parse, names);
    ItemNames(t, key, parse, names);
    PickKeepsOrder(t, key, parse, names, true);
    PickKeepsOrder(t, key, parse, names, false);
    forall k ensures k in Bad(t, key, parse, prefix) <==> prefix <= k && k in t && forall v :: !Readable(key, t[k], parse, v) {
      assert k in names <==> k in t && prefix <= k;
      if k in names && ReadAs(key, t[k], parse).Some? { assert Readable(key, t[k], parse, ReadAs(key, t[k], parse).value); }
    }
  }

  // ------------------------------------------------------------------ what quarantining does

  lemma SlotInjective(a: string, b: string)
    requires Slot(a) == Slot(b)
    ensures a == b
  {
    assert Slot(a)[8..] == a && Slot(b)[8..] == b;
  }

  /** No moved entry lands on the name of another entry being moved. */
  ghost predicate SlotsApart(names: seq<string>)
  {
    forall a, b :: a in names && b in names ==> Slot(a) != b
  }

  predicate IsSlotOf(k: string, names: seq<string>) { exists a :: a in names && Slot(a) == k }

  /** Each listed entry sits, byte for byte, in its slot and nowhere else; the rest is as it was. */
  ghost predicate Moved(t: Table, q: Table, names: seq<string>)
    requires forall k :: k in names ==> k in t
  {
    && (forall k :: k in names ==> k !in q && Lookup(q, Slot(k)) == Some(t[k]))
    && (forall k :: k !in names && !IsSlotOf(k, names) ==> Lookup(q, k) == Lookup(t, k))
  }

  lemma MoveOneMore(t: Table, p: Table, front: seq<string>, last: string)
    requires last in t && last !in front && (forall k :: k in front ==> k in t) && Moved(t, p, front)
    requires SlotsApart(front + [last])
    ensures Moved(t, Quarantined(p, last), front + [last])
  {
    var names, q := front + [last], Quarantined(p, last);
    assert last in names && forall k :: k in front ==> k in names;
    assert !IsSlotOf(last, front) && Lookup(p, last) == Lookup(t, last);
    forall k | k in names ensures k !in q && Lookup(q, Slot(k)) == Some(t[k]) {
      if k != last && Slot(k) == Slot(last) { SlotInjective(k, last); }
    }
    forall k | k !in names && !IsSlotOf(k, names) ensures Lookup(q, k) == Lookup(t, k) {
      assert !IsSlotOf(k, front);
    }
  }

  lemma {:induction false} QuarantineMoves(t: Table, names: seq<string>)
    requires Distinct(names) && SlotsApart(names) && forall k :: k in names ==> k in t
    ensures Moved(t, QuarantineAll(t, names), names)
  {
    if names != [] {
      var n := |names| - 1;
      assert names == names[..n] + [names[n]];
      assert forall k :: k in names[..n] ==> k in names;
      QuarantineMoves(t, names[..n]);
      MoveOneMore(t, QuarantineAll(t, names[..n]), names[..n], names[n]);
    }
  }

  lemma {:induction false} PickKeepsOrder<T>(t: Table, key: VaultKey, parse: Bytes -> Option<T>, names: seq<string>, good: bool)
    requires Ascending(names, Codes) && forall k :: k in names ==> k in t
    ensures Ascending(Pick(t, key, parse, names, good), Codes)
  {
    if names != [] {
      var n := |names| - 1;
      assert names == names[..n] + [names[n]];
      PickKeepsOrder(t, key, parse, names[..n], good);
      var q := Pick(t, key, parse, names[..n], good);
      forall i | 0 <= i < |q| ensures Less(Codes(q[i]), Codes(names[n])) {
        assert q[i] in q;
        var j :| 0 <= j < n && names[..n][j] == q[i];
        assert names[j] == q[i];
      }
    }
  }

  lemma AscendingIsDistinct(q: seq<string>)
    requires Ascending(q, Codes)
    ensures Distinct(q)
  {
    AscendingDistinct(q, Codes);
  }

  /** The unreadable entries are moved to slots outside the prefix, so a later scan does not meet them. */
  ghost predicate OutOfTheWay(bad: seq<string>, prefix: string)
  {
    forall k :: k in bad ==> !(prefix <= Slot(k))
  }

  /** Loading moves exactly the unreadable entries under the prefix, and leaves everything else alone. */
  lemma LoadMovesUnreadable<T>(t: Table, key: VaultKey, parse: Bytes -> Option<T>, prefix: string)
    requires SlotsApart(Bad(t, key, parse, prefix))
    ensures var bad, q := Bad(t, key, parse, prefix), QuarantineAll(t, Bad(t, key, parse, prefix));
      && (forall k :: k in t && prefix <= k && ReadAs(key, t[k], parse).None? ==> k !in q && Lookup(q, Slot(k)) == Some(t[k]))
      && (forall k :: k in t && (prefix <= k ==> ReadAs(key, t[k], parse).Some?) && !IsSlotOf(k, bad) ==>
            Lookup(q, k) == Some(t[k]))
  {
    var bad := Bad(t, key, parse, prefix);
    PickKeepsOrder(t, key, parse, Listed(t, prefix), false);
    AscendingIsDistinct(bad);
    QuarantineMoves(t, bad);
  }

  lemma {:induction false} ItemsOfGood<T>(t: Table, u: Table, key: VaultKey, parse: Bytes -> Option<T>, names: seq<string>)
    requires forall k :: k in names ==> k in t
    requires forall k :: k in names && ReadAs(key, t[k], parse).Some? ==> k in u && u[k] == t[k]
    ensures Items(t, key, parse, names) == Items(u, key, parse, Pick(t, key, parse, names, true))
  {
    if names != [] {
      var n := |names| - 1;
      assert names == names[..n] + [names[n]];
      ItemsOfGood(t, u, key, parse, names[..n]);
      var q := Pick(t, key, parse, names[..n], true);
      if ReadAs(key, t[names[n]], parse).Some? {
        assert (q + [names[n]])[..|q|] == q;
        assert Pick(t, key, parse, names, true) == q + [names[n]];
      } else {
        assert Pick(t, key, parse, names, true) == q;
      }
    }
  }

  lemma RescanKeys<T>(t: Table, key: VaultKey, parse: Bytes -> Option<T>, prefix: string)
    requires OutOfTheWay(Bad(t, key, parse, prefix), prefix)
    ensures var u := QuarantineAll(t, Bad(t, key, parse, prefix));
      && Listed(u, prefix) == Pick(t, key, parse, Listed(t, prefix), true)
      && forall k :: k in Listed(u, prefix) ==> k in t && u[k] == t[k]
  {
    var names, bad := Listed(t, prefix), Bad(t, key, parse, prefix);
    var good, u := Pick(t, key, parse, names, true), QuarantineAll(t, bad);
    PickKeepsOrder(t, key, parse, names, false);
    PickKeepsOrder(t, key, parse, names, true);
    AscendingIsDistinct(bad);
    QuarantineMoves(t, bad);
    forall k ensures k in good <==> k in Under(u, prefix) {
      assert k in names <==> k in Under(t, prefix);
    }
    SortedUnique(good, Listed(u, prefix), Under(u, prefix), Codes);
  }

  /** If the slots are out of the prefix's way, a second load returns the same items and warns of nothing. */
  lemma SecondLoadQuiet<T>(t: Table, key: VaultKey, parse: Bytes -> Option<T>, prefix: string)
    requires OutOfTheWay(Bad(t, key, parse, prefix), prefix)
    ensures var u := QuarantineAll(t, Bad(t, key, parse, prefix));
      && Items(u, key, parse, Listed(u, prefix)) == Items(t, key, parse, Listed(t, prefix))
      && Bad(u, key, parse, prefix) == []
  {
    var u := QuarantineAll(t, Bad(t, key, parse, prefix));
    RescanKeys(t, key, parse, prefix);
    ItemsOfGood(t, u, key, parse, Listed(t, prefix));
    ItemsOfGood(u, u, key, parse, Listed(u, prefix));
    HasElement(Bad(u, key, parse, prefix));
  }

  /** And with free slots that is exactly when it does. */
  lemma SecondLoadQuietIff<T>(t: Table, key: VaultKey, parse: Bytes -> Option<T>, prefix: string)
    requires forall k :: k in Bad(t, key, parse, prefix) ==> Slot(k) !in t
    ensures Bad(QuarantineAll(t, Bad(t, key, parse, prefix)), key, parse, prefix) == [] <==>
            OutOfTheWay(Bad(t, key, parse, prefix), prefix)
  {
    var bad := Bad(t, key, parse, prefix);
    if OutOfTheWay(bad, prefix) {
      SecondLoadQuiet(t, key, parse, prefix);
    } else {
      var k :| k in bad && prefix <= Slot(k);
      PickKeepsOrder(t, key, parse, Listed(t, prefix), false);
      AscendingIsDistinct(bad);
      QuarantineMoves(t, bad);
      assert Slot(k) in Bad(QuarantineAll(t, bad), key, parse, prefix);
    }
  }

  const FAMILIES := {"contact/", "convo/", "group/", "gconvo/"}

  /** No family's prefix begins like `corrupt/`. */
  lemma FamilyLetters(prefix: string)
    requires prefix in FAMILIES
    ensures |prefix| > 2 && (prefix[0] != 'c' || prefix[2] != 'r')
  {
  }

  lemma SlotOutside(prefix: string, name: string)
    requires |prefix| > 2 && (prefix[0] != 'c' || prefix[2] != 'r')
    ensures !(prefix <= Slot(name))
  {
    assert Slot(name)[0] == 'c' && Slot(name)[2] == 'r';
  }

  /** The families the node stores are all out of the way of `corrupt/`. */
  lemma FamiliesOutOfTheWay<T>(t: Table, key: VaultKey, parse: Bytes -> Option<T>, prefix: string)
    requires prefix in FAMILIES
    ensures OutOfTheWay(Bad(t, key, parse, prefix), prefix)
  {
    FamilyLetters(prefix);
    forall k | k in Bad(t, key, parse, prefix) ensures !(prefix <= Slot(k)) {
      SlotOutside(prefix, k);
    }
  }

  /** Quarantining leaves every other entry as it was exactly when no slot held something else: an
      occupied slot is overwritten. */
  lemma OthersKeptIff<T>(t: Table, key: VaultKey, parse: Bytes -> Option<T>, prefix: string)
    requires SlotsApart(Bad(t, key, parse, prefix))
    ensures var bad, u := Bad(t, key, parse, prefix), QuarantineAll(t, Bad(t, key, parse, prefix));
      (forall k :: k in t && k !in bad ==> Lookup(u, k) == Some(t[k])) <==>
      (forall k :: k in bad && Slot(k) in t ==> t[Slot(k)] == t[k])
  {
    var bad := Bad(t, key, parse, prefix);
    PickKeepsOrder(t, key, parse, Listed(t, prefix), false);
    AscendingIsDistinct(bad);
    QuarantineMoves(t, bad);
  }

  /** The slot held something else, which is gone after loading. */
  ghost predicate Overwritten<T>(t: Table, key: VaultKey, parse: Bytes -> Option<T>, prefix: string, slot: string)
  {
    && slot in t && !(prefix <= slot)
    && Lookup(QuarantineAll(t, Bad(t, key, parse, prefix)), slot) != Some(t[slot])
  }

  /** A slot still occupied from an earlier failure loses what it held. */
  lemma OccupiedSlotOverwritten<T>(key: VaultKey, parse: Bytes -> Option<T>, name: string, older: Blob)
    requires "contact/" <= name && older != Junk([])
    ensures exists t: Table :: Overwritten(t, key, parse, "contact/", Slot(name)) && t[Slot(name)] == older
  {
    FamilyLetters("contact/");
    SlotOutside("contact/", name);
    var t: Table := map[name := Junk([]), Slot(name) := older];
    ApartIn(t, key, parse, name);
    LoadMovesUnreadable(t, key, parse, "contact/");
    assert ReadAs(key, t[name], parse).None?;
    assert Overwritten(t, key, parse, "contact/", Slot(name)) && t[Slot(name)] == older;
  }

  lemma ApartIn<T>(t: Table, key: VaultKey, parse: Bytes -> Option<T>, name: string)
    requires t.Keys == {name, Slot(name)} && !("contact/" <= Slot(name)) && Slot(name) != name
    ensures SlotsApart(Bad(t, key, parse, "contact/"))
  {
    forall a, b | a in Bad(t, key, parse, "contact/") && b in Bad(t, key, parse, "contact/") ensures Slot(a) != b {
      assert a in Listed(t, "contact/") && b in Listed(t, "contact/");
      assert a == name && b == name;
    }
  }
}
