/** Sorted enumeration of a finite set. Rust's `BTreeMap` and `BTreeSet` iterate in key order and
    `sort_by` sorts by a comparator; both are the one function `Sorted`, which orders elements by a
    key compared lexicographically. */
module Ordering {

  type Key = seq<int>

  /** Lexicographic order on keys: a proper prefix comes first. */
  predicate Less(a: Key, b: Key)
  {
    if b == [] then false
    else if a == [] then true
    else a[0] < b[0] || (a[0] == b[0] && Less(a[1..], b[1..]))
  }

  lemma {:induction false} LessIrreflexive(a: Key)
    ensures !Less(a, a)
  {
    if a != [] {
      LessIrreflexive(a[1..]);
    }
  }

  lemma {:induction false} LessTransitive(a: Key, b: Key, c: Key)
    requires Less(a, b) && Less(b, c)
    ensures Less(a, c)
  {
    if a != [] && a[0] == b[0] == c[0] {
      LessTransitive(a[1..], b[1..], c[1..]);
    }
  }

  lemma {:induction false} LessConnected(a: Key, b: Key)
    requires a != b
    ensures Less(a, b) || Less(b, a)
  {
    if a != [] && b != [] && a[0] == b[0] {
      assert a == [a[0]] + a[1..] && b == [b[0]] + b[1..];
      LessConnected(a[1..], b[1..]);
    }
  }

  ghost predicate Injective<T>(s: set<T>, key: T -> Key)
  {
    forall x, y :: x in s && y in s && key(x) == key(y) ==> x == y
  }

  /** `x` comes before every other element of `s`. */
  predicate IsFirst<T(==)>(x: T, s: set<T>, key: T -> Key)
  {
    x in s && forall y | y in s :: y == x || Less(key(x), key(y))
  }

  lemma {:induction false} FirstExists<T(!new)>(s: set<T>, key: T -> Key)
    requires s != {} && Injective(s, key)
    ensures exists x :: IsFirst(x, s, key)
  {
    var x :| x in s;
    var rest := s - {x};
    if rest == {} {
      assert s == {x};
      assert IsFirst(x, s, key);
    } else {
      FirstExists(rest, key);
      var y :| IsFirst(y, rest, key);
      LessConnected(key(x), key(y));
      if Less(key(x), key(y)) {
        forall z | z in s ensures z == x || Less(key(x), key(z)) {
          if z != x && z != y {
            LessTransitive(key(x), key(y), key(z));
          }
        }
        assert IsFirst(x, s, key);
      } else {
        assert IsFirst(y, s, key);
      }
    }
  }

  lemma FirstUnique<T>(x: T, y: T, s: set<T>, key: T -> Key)
    requires IsFirst(x, s, key) && IsFirst(y, s, key)
    ensures x == y
  {
    if x != y {
      LessTransitive(key(x), key(y), key(x));
      LessIrreflexive(key(x));
    }
  }

  lemma FirstUniqueAll<T(!new)>(s: set<T>, key: T -> Key)
    ensures forall x, y :: IsFirst(x, s, key) && IsFirst(y, s, key) ==> x == y
  {
    forall x, y | IsFirst(x, s, key) && IsFirst(y, s, key) ensures x == y {
      FirstUnique(x, y, s, key);
    }
  }

  ghost predicate Ascending<T>(q: seq<T>, key: T -> Key)
  {
    forall i, j :: 0 <= i < j < |q| ==> Less(key(q[i]), key(q[j]))
  }

  ghost predicate SameElements<T(!new)>(q: seq<T>, s: set<T>)
  {
    forall x :: x in q <==> x in s
  }

  /** The elements of `s`, ascending by `key`. */
  function Sorted<T(==,!new)>(s: set<T>, key: T -> Key): (q: seq<T>)
    requires Injective(s, key)
    ensures |q| == |s| && SameElements(q, s) && Ascending(q, key)
  {
    if s == {} then []
    else
      FirstExists(s, key);
      FirstUniqueAll(s, key);
      var x :| IsFirst(x, s, key);
      var rest := Sorted(s - {x}, key);
      assert forall y :: y in rest ==> y in s - {x};
      [x] + rest
  }

  lemma AscendingDistinct<T>(q: seq<T>, key: T -> Key)
    requires Ascending(q, key)
    ensures forall i, j :: 0 <= i < |q| && 0 <= j < |q| && q[i] == q[j] ==> i == j
  {
    forall i, j | 0 <= i < |q| && 0 <= j < |q| && q[i] == q[j] ensures i == j {
      LessIrreflexive(key(q[i]));
    }
  }

  /** Sorting has one answer: an ascending sequence is determined by its elements. */
  lemma {:induction false} SortedUnique<T(!new)>(p: seq<T>, q: seq<T>, s: set<T>, key: T -> Key)
    requires Ascending(p, key) && Ascending(q, key)
    requires SameElements(p, s) && SameElements(q, s)
    ensures p == q
    decreases s
  {
    assert p != [] ==> p[0] in p;
    assert q != [] ==> q[0] in q;
    if s != {} {
      var w :| w in s;
      assert w in p && w in q;
      assert IsFirst(p[0], s, key) by { HeadIsFirst(p, s, key); }
      assert IsFirst(q[0], s, key) by { HeadIsFirst(q, s, key); }
      FirstUnique(p[0], q[0], s, key);
      TailElements(p, s, key);
      TailElements(q, s, key);
      SortedUnique(p[1..], q[1..], s - {p[0]}, key);
    }
  }

  lemma HeadIsFirst<T(!new)>(q: seq<T>, s: set<T>, key: T -> Key)
    requires q != [] && Ascending(q, key) && SameElements(q, s)
    ensures IsFirst(q[0], s, key)
  {
    forall y | y in s ensures y == q[0] || Less(key(q[0]), key(y)) {
      assert y in q;
    }
    assert q[0] in q;
  }

  lemma TailElements<T(!new)>(q: seq<T>, s: set<T>, key: T -> Key)
    requires q != [] && Ascending(q, key) && SameElements(q, s)
    ensures SameElements(q[1..], s - {q[0]})
  {
    AscendingDistinct(q, key);
    forall x ensures x in q[1..] <==> x in s - {q[0]} {
      if x in q[1..] {
        assert x in q;
      }
    }
  }

  function IdKey(n: nat): Key { [n] }

  lemma IdsLess(a: nat, b: nat)
    requires Less(IdKey(a), IdKey(b))
    ensures a < b
  {
    assert IdKey(a)[1..] == [] && IdKey(b)[1..] == [];
    assert !Less([], []);
  }

  /** Ids in ascending order. */
  function SortedIds(s: set<nat>): (q: seq<nat>)
    ensures |q| == |s| && SameElements(q, s) && Ascending(q, IdKey)
  {
    assert forall x: nat, y: nat :: IdKey(x) == IdKey(y) ==> IdKey(x)[0] == IdKey(y)[0];
    Sorted(s, IdKey)
  }

  lemma {:induction false} HighestExists(s: set<nat>)
    requires s != {}
    ensures exists h :: h in s && forall x :: x in s ==> x <= h
  {
    var x :| x in s;
    if s - {x} == {} {
      assert s == {x};
    } else {
      HighestExists(s - {x});
      var h :| h in s - {x} && forall y :: y in s - {x} ==> y <= h;
      var top := if x <= h then h else x;
      forall y | y in s ensures y <= top { assert y == x || y in s - {x}; }
    }
  }

  /** The largest element of `s`, or 0 for the empty set. */
  ghost function Highest(s: set<nat>): (h: nat)
    ensures forall x :: x in s ==> x <= h
    ensures h in s || (s == {} && h == 0)
  {
    if s == {} then 0
    else
      HighestExists(s);
      var h :| h in s && forall x :: x in s ==> x <= h;
      h
  }

  /** The character codes of a string: comparing them is comparing the strings' UTF-8 bytes. */
  function Codes(s: string): Key { seq(|s|, i requires 0 <= i < |s| => s[i] as int) }

  lemma CodesInjective(s: string, t: string)
    requires Codes(s) == Codes(t)
    ensures s == t
  {
    assert |s| == |Codes(s)| == |Codes(t)| == |t|;
    forall i | 0 <= i < |s| ensures s[i] == t[i] {
      assert Codes(s)[i] == Codes(t)[i];
    }
  }

  /** Strings in ascending order. */
  function SortedStrings(s: set<string>): (q: seq<string>)
    ensures |q| == |s| && SameElements(q, s) && Ascending(q, Codes)
  {
    assert Injective(s, Codes) by {
      forall x, y | x in s && y in s && Codes(x) == Codes(y) ensures x == y { CodesInjective(x, y); }
    }
    Sorted(s, Codes)
  }

  /** A string is not below any of its prefixes. */
  lemma {:induction false} PrefixNotAbove(p: Key, k: Key)
    requires p <= k
    ensures !Less(k, p)
  {
    if p != [] {
      assert p[0] == k[0] && p[1..] <= k[1..];
      PrefixNotAbove(p[1..], k[1..]);
    }
  }

  /** The keys with a given prefix are contiguous: whatever lies between the prefix and such a key has
      the prefix too. */
  lemma {:induction false} PrefixesContiguous(p: Key, a: Key, b: Key)
    requires !Less(a, p) && Less(a, b) && p <= b
    ensures p <= a
  {
    if p != [] {
      assert a != [] && p[0] == b[0] && a[0] == p[0] && p[1..] <= b[1..];
      PrefixesContiguous(p[1..], a[1..], b[1..]);
      assert p == [p[0]] + p[1..] && a == [a[0]] + a[1..];
    }
  }

  lemma CodesPrefix(p: string, k: string)
    ensures Codes(p) <= Codes(k) <==> p <= k
  {
    if Codes(p) <= Codes(k) {
      forall i | 0 <= i < |p| ensures p[i] == k[i] { assert Codes(p)[i] == Codes(k)[i]; }
    }
  }

  // ------------------------------------------------------------------ sequences

  ghost predicate Distinct<T>(q: seq<T>)
  {
    forall i, j :: 0 <= i < j < |q| ==> q[i] != q[j]
  }

  function Without<T>(q: seq<T>, i: nat): (rest: seq<T>)
    requires i < |q|
    ensures |rest| == |q| - 1
    ensures forall x :: x in rest ==> x in q
    ensures forall x :: x in q && x != q[i] ==> x in rest
  {
    var rest := q[..i] + q[i + 1..];
    assert forall x :: x in q && x != q[i] ==> x in rest by {
      forall x | x in q && x != q[i] ensures x in rest {
        var k :| 0 <= k < |q| && q[k] == x;
        assert k < i ==> rest[k] == x;
        assert k > i ==> rest[k - 1] == x;
      }
    }
    rest
  }

  lemma HasElement<T>(q: seq<T>)
    ensures q == [] || exists x :: x in q
  {
    if q != [] { assert q[0] in q; }
  }
}
