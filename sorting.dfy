/** Python's `sorted` as the core uses it: a stable sort by a key, either
    descending on a real-valued key (`reverse=True`) or ascending on a string
    key compared by code points. Both are insertion sorts, stated by three
    properties: the output is ordered, it is a permutation of the input, and
    elements with equal keys keep their input order. */
module Sorting {
  import opened Collections

  // ---------------------------------------------------------------------
  // Lexicographic order on strings (Python's `<` on `str`)
  // ---------------------------------------------------------------------

  /** `a < b` on Python strings: a proper prefix is smaller, otherwise the
      first differing character decides. */
  predicate StrLt(a: string, b: string) {
    if b == [] then false
    else if a == [] then true
    else if a[0] != b[0] then a[0] < b[0]
    else StrLt(a[1..], b[1..])
  }

  lemma {:induction false} StrLtIrreflexive(a: string)
    ensures !StrLt(a, a)
  {
    if a != [] {
      StrLtIrreflexive(a[1..]);
    }
  }

  lemma {:induction false} StrLtAsymmetric(a: string, b: string)
    ensures !(StrLt(a, b) && StrLt(b, a))
  {
    if a != [] && b != [] && a[0] == b[0] {
      StrLtAsymmetric(a[1..], b[1..]);
    }
  }

  lemma {:induction false} StrLtTransitive(a: string, b: string, c: string)
    requires StrLt(a, b) && StrLt(b, c)
    ensures StrLt(a, c)
  {
    if a != [] && a[0] == b[0] && b[0] == c[0] {
      StrLtTransitive(a[1..], b[1..], c[1..]);
    }
  }

  lemma {:induction false} StrLtTotal(a: string, b: string)
    requires a != b
    ensures StrLt(a, b) || StrLt(b, a)
  {
    if a != [] && b != [] && a[0] == b[0] {
      assert a == [a[0]] + a[1..] && b == [b[0]] + b[1..];
      StrLtTotal(a[1..], b[1..]);
    }
  }

  /** `a <= b` on Python strings. */
  predicate StrLe(a: string, b: string) {
    !StrLt(b, a)
  }

  lemma StrLeTransitive(a: string, b: string, c: string)
    requires StrLe(a, b) && StrLe(b, c)
    ensures StrLe(a, c)
  {
    if StrLt(c, a) && a != b && b != c {
      StrLtTotal(a, b);
      StrLtTotal(b, c);
      StrLtTransitive(a, b, c);
      StrLtAsymmetric(a, c);
    }
  }

  // ---------------------------------------------------------------------
  // Stable sort, descending on a real key
  // ---------------------------------------------------------------------

  predicate SortedDesc<T>(s: seq<T>, key: T -> real) {
    forall i, j :: 0 <= i < j < |s| ==> key(s[i]) >= key(s[j])
  }

  /** The elements of `s` whose key is `v`, in their order in `s`. */
  function WithRealKey<T>(s: seq<T>, key: T -> real, v: real): seq<T> {
    if s == [] then []
    else (if key(s[0]) == v then [s[0]] else []) + WithRealKey(s[1..], key, v)
  }

  /** Inserts `x` in front of the first element whose key is not above its own. */
  function InsertDesc<T>(x: T, t: seq<T>, key: T -> real): seq<T> {
    if t == [] || key(x) >= key(t[0]) then [x] + t
    else [t[0]] + InsertDesc(x, t[1..], key)
  }

  /** `sorted(s, key=key, reverse=True)` */
  function SortDesc<T>(s: seq<T>, key: T -> real): seq<T> {
    if s == [] then [] else InsertDesc(s[0], SortDesc(s[1..], key), key)
  }

  lemma {:induction false} InsertDescPerm<T>(x: T, t: seq<T>, key: T -> real)
    ensures multiset(InsertDesc(x, t, key)) == multiset(t) + multiset{x}
    ensures |InsertDesc(x, t, key)| == |t| + 1
    decreases |t|
  {
    if t != [] && key(x) < key(t[0]) {
      InsertDescPerm(x, t[1..], key);
      assert t == [t[0]] + t[1..];
    }
  }

  /** A prefix of a sorted list of distinct items is one too. */
  lemma TakeSortedDesc<T>(s: seq<T>, m: nat, key: T -> real)
    requires m <= |s| && NoDup(s) && SortedDesc(s, key)
    ensures NoDup(s[..m]) && SortedDesc(s[..m], key)
    ensures forall x :: x in s[..m] ==> x in s
  {
    assert forall i :: 0 <= i < m ==> s[..m][i] == s[i];
  }

  lemma TailSortedDesc<T>(t: seq<T>, key: T -> real)
    requires t != [] && SortedDesc(t, key)
    ensures SortedDesc(t[1..], key)
    ensures forall i :: 0 <= i < |t[1..]| ==> key(t[1..][i]) <= key(t[0])
  {
    assert forall i :: 0 <= i < |t[1..]| ==> t[1..][i] == t[i + 1];
  }

  lemma ConsSortedDesc<T>(a: T, s: seq<T>, key: T -> real)
    requires SortedDesc(s, key)
    requires forall i :: 0 <= i < |s| ==> key(s[i]) <= key(a)
    ensures SortedDesc([a] + s, key)
  {
    assert forall i :: 0 < i < |[a] + s| ==> ([a] + s)[i] == s[i - 1];
  }

  lemma {:induction false} InsertDescBounded<T>(x: T, t: seq<T>, key: T -> real, b: real)
    requires forall i :: 0 <= i < |t| ==> key(t[i]) <= b
    requires key(x) <= b
    ensures forall i :: 0 <= i < |InsertDesc(x, t, key)| ==> key(InsertDesc(x, t, key)[i]) <= b
    decreases |t|
  {
    if t != [] && key(x) < key(t[0]) {
      assert forall i :: 0 <= i < |t[1..]| ==> t[1..][i] == t[i + 1];
      InsertDescBounded(x, t[1..], key, b);
      var rest := InsertDesc(x, t[1..], key);
      assert forall i :: 0 < i < |[t[0]] + rest| ==> ([t[0]] + rest)[i] == rest[i - 1];
    } else {
      assert forall i :: 0 < i < |[x] + t| ==> ([x] + t)[i] == t[i - 1];
    }
  }

  lemma {:induction false} InsertDescSorted<T>(x: T, t: seq<T>, key: T -> real)
    requires SortedDesc(t, key)
    ensures SortedDesc(InsertDesc(x, t, key), key)
    decreases |t|
  {
    if t != [] && key(x) < key(t[0]) {
      TailSortedDesc(t, key);
      InsertDescSorted(x, t[1..], key);
      InsertDescBounded(x, t[1..], key, key(t[0]));
      ConsSortedDesc(t[0], InsertDesc(x, t[1..], key), key);
    } else {
      ConsSortedDesc(x, t, key);
    }
  }

  lemma WithRealKeyCons<T>(a: T, s: seq<T>, key: T -> real, v: real)
    ensures WithRealKey([a] + s, key, v) == (if key(a) == v then [a] else []) + WithRealKey(s, key, v)
  {
    assert ([a] + s)[0] == a;
    assert ([a] + s)[1..] == s;
  }

  /** Inserting moves `x` only past elements with a strictly larger key, so
      among the elements of any one key the order is unchanged. */
  lemma {:induction false} InsertDescStable<T>(x: T, t: seq<T>, key: T -> real, v: real)
    ensures WithRealKey(InsertDesc(x, t, key), key, v)
            == (if key(x) == v then [x] else []) + WithRealKey(t, key, v)
    decreases |t|
  {
    if t != [] && key(x) < key(t[0]) {
      InsertDescStable(x, t[1..], key, v);
      WithRealKeyCons(t[0], InsertDesc(x, t[1..], key), key, v);
      WithRealKeyCons(t[0], t[1..], key, v);
      assert [t[0]] + t[1..] == t;
      SwapOneEmpty(if key(t[0]) == v then [t[0]] else [], if key(x) == v then [x] else [],
                   WithRealKey(t[1..], key, v));
    } else {
      WithRealKeyCons(x, t, key, v);
    }
  }

  /** When one of two pieces is empty they commute in front of a third. */
  lemma SwapOneEmpty<T>(a: seq<T>, b: seq<T>, r: seq<T>)
    requires a == [] || b == []
    ensures a + (b + r) == b + (a + r)
  {
    if a == [] {
      assert a + (b + r) == b + r && a + r == r;
    } else {
      assert b + (a + r) == a + r && b + r == r;
    }
  }


  /** Sorted descending, a permutation of the input, and stable: for every key
      value, the elements carrying it appear in their input order. */
  lemma SortDescProps<T>(s: seq<T>, key: T -> real)
    ensures SortedDesc(SortDesc(s, key), key)
    ensures multiset(SortDesc(s, key)) == multiset(s)
    ensures |SortDesc(s, key)| == |s|
    ensures forall v :: WithRealKey(SortDesc(s, key), key, v) == WithRealKey(s, key, v)
  {
    SortDescSorted(s, key);
    SortDescPerm(s, key);
    forall v ensures WithRealKey(SortDesc(s, key), key, v) == WithRealKey(s, key, v) {
      SortDescStable(s, key, v);
    }
  }

  lemma {:induction false} SortDescPerm<T>(s: seq<T>, key: T -> real)
    ensures multiset(SortDesc(s, key)) == multiset(s)
    ensures |SortDesc(s, key)| == |s|
  {
    if s != [] {
      SortDescPerm(s[1..], key);
      InsertDescPerm(s[0], SortDesc(s[1..], key), key);
      MultisetCons(s);
    }
  }

  lemma {:induction false} SortDescSorted<T>(s: seq<T>, key: T -> real)
    ensures SortedDesc(SortDesc(s, key), key)
  {
    if s != [] {
      SortDescSorted(s[1..], key);
      InsertDescSorted(s[0], SortDesc(s[1..], key), key);
    }
  }

  lemma {:induction false} SortDescStable<T>(s: seq<T>, key: T -> real, v: real)
    ensures WithRealKey(SortDesc(s, key), key, v) == WithRealKey(s, key, v)
  {
    if s != [] {
      SortDescStable(s[1..], key, v);
      InsertDescStable(s[0], SortDesc(s[1..], key), key, v);
      WithRealKeyCons(s[0], s[1..], key, v);
      assert s == [s[0]] + s[1..];
    }
  }

  // ---------------------------------------------------------------------
  // Stable sort, ascending on a string key
  // ---------------------------------------------------------------------

  predicate SortedAsc<T>(s: seq<T>, key: T -> string) {
    forall i, j :: 0 <= i < j < |s| ==> StrLe(key(s[i]), key(s[j]))
  }

  predicate StrictlyAsc<T>(s: seq<T>, key: T -> string) {
    forall i, j :: 0 <= i < j < |s| ==> StrLt(key(s[i]), key(s[j]))
  }

  /** The elements of `s` whose key is `v`, in their order in `s`. */
  function WithStrKey<T>(s: seq<T>, key: T -> string, v: string): seq<T> {
    if s == [] then []
    else (if key(s[0]) == v then [s[0]] else []) + WithStrKey(s[1..], key, v)
  }

  /** Inserts `x` in front of the first element whose key is not below its own. */
  function InsertAsc<T>(x: T, t: seq<T>, key: T -> string): seq<T> {
    if t == [] || StrLe(key(x), key(t[0])) then [x] + t
    else [t[0]] + InsertAsc(x, t[1..], key)
  }

  /** `sorted(s, key=key)` */
  function SortAsc<T>(s: seq<T>, key: T -> string): seq<T> {
    if s == [] then [] else InsertAsc(s[0], SortAsc(s[1..], key), key)
  }

  lemma {:induction false} InsertAscPerm<T>(x: T, t: seq<T>, key: T -> string)
    ensures multiset(InsertAsc(x, t, key)) == multiset(t) + multiset{x}
    ensures |InsertAsc(x, t, key)| == |t| + 1
    decreases |t|
  {
    if t != [] && !StrLe(key(x), key(t[0])) {
      InsertAscPerm(x, t[1..], key);
      assert t == [t[0]] + t[1..];
    }
  }

  lemma TailSortedAsc<T>(t: seq<T>, key: T -> string)
    requires t != [] && SortedAsc(t, key)
    ensures SortedAsc(t[1..], key)
    ensures forall i :: 0 <= i < |t[1..]| ==> StrLe(key(t[0]), key(t[1..][i]))
  {
    assert forall i :: 0 <= i < |t[1..]| ==> t[1..][i] == t[i + 1];
  }

  lemma ConsSortedAsc<T>(a: T, s: seq<T>, key: T -> string)
    requires SortedAsc(s, key)
    requires forall i :: 0 <= i < |s| ==> StrLe(key(a), key(s[i]))
    ensures SortedAsc([a] + s, key)
  {
    assert forall i :: 0 < i < |[a] + s| ==> ([a] + s)[i] == s[i - 1];
  }

  lemma {:induction false} InsertAscBounded<T>(x: T, t: seq<T>, key: T -> string, b: string)
    requires forall i :: 0 <= i < |t| ==> StrLe(b, key(t[i]))
    requires StrLe(b, key(x))
    ensures forall i :: 0 <= i < |InsertAsc(x, t, key)| ==> StrLe(b, key(InsertAsc(x, t, key)[i]))
    decreases |t|
  {
    if t != [] && !StrLe(key(x), key(t[0])) {
      assert forall i :: 0 <= i < |t[1..]| ==> t[1..][i] == t[i + 1];
      InsertAscBounded(x, t[1..], key, b);
      var rest := InsertAsc(x, t[1..], key);
      assert forall i :: 0 < i < |[t[0]] + rest| ==> ([t[0]] + rest)[i] == rest[i - 1];
    } else {
      assert forall i :: 0 < i < |[x] + t| ==> ([x] + t)[i] == t[i - 1];
    }
  }

  lemma {:induction false} InsertAscSorted<T>(x: T, t: seq<T>, key: T -> string)
    requires SortedAsc(t, key)
    ensures SortedAsc(InsertAsc(x, t, key), key)
    decreases |t|
  {
    if t != [] && !StrLe(key(x), key(t[0])) {
      TailSortedAsc(t, key);
      InsertAscSorted(x, t[1..], key);
      StrLtAsymmetric(key(t[0]), key(x));
      InsertAscBounded(x, t[1..], key, key(t[0]));
      ConsSortedAsc(t[0], InsertAsc(x, t[1..], key), key);
    } else {
      forall i | 0 <= i < |t| ensures StrLe(key(x), key(t[i])) {
        if i > 0 {
          StrLeTransitive(key(x), key(t[0]), key(t[i]));
        }
      }
      ConsSortedAsc(x, t, key);
    }
  }

  lemma WithStrKeyCons<T>(a: T, s: seq<T>, key: T -> string, v: string)
    ensures WithStrKey([a] + s, key, v) == (if key(a) == v then [a] else []) + WithStrKey(s, key, v)
  {
    assert ([a] + s)[0] == a;
    assert ([a] + s)[1..] == s;
  }

  lemma {:induction false} InsertAscStable<T>(x: T, t: seq<T>, key: T -> string, v: string)
    ensures WithStrKey(InsertAsc(x, t, key), key, v)
            == (if key(x) == v then [x] else []) + WithStrKey(t, key, v)
    decreases |t|
  {
    if t != [] && !StrLe(key(x), key(t[0])) {
      InsertAscStable(x, t[1..], key, v);
      WithStrKeyCons(t[0], InsertAsc(x, t[1..], key), key, v);
      WithStrKeyCons(t[0], t[1..], key, v);
      assert [t[0]] + t[1..] == t;
      StrLtIrreflexive(key(x));
      SwapOneEmpty(if key(t[0]) == v then [t[0]] else [], if key(x) == v then [x] else [],
                   WithStrKey(t[1..], key, v));
    } else {
      WithStrKeyCons(x, t, key, v);
    }
  }

  /** Sorted ascending, a permutation of the input, and stable. */
  lemma SortAscProps<T>(s: seq<T>, key: T -> string)
    ensures SortedAsc(SortAsc(s, key), key)
    ensures multiset(SortAsc(s, key)) == multiset(s)
    ensures |SortAsc(s, key)| == |s|
    ensures forall v :: WithStrKey(SortAsc(s, key), key, v) == WithStrKey(s, key, v)
  {
    SortAscSorted(s, key);
    SortAscPerm(s, key);
    forall v ensures WithStrKey(SortAsc(s, key), key, v) == WithStrKey(s, key, v) {
      SortAscStable(s, key, v);
    }
  }

  lemma {:induction false} SortAscSorted<T>(s: seq<T>, key: T -> string)
    ensures SortedAsc(SortAsc(s, key), key)
  {
    if s != [] {
      SortAscSorted(s[1..], key);
      InsertAscSorted(s[0], SortAsc(s[1..], key), key);
    }
  }

  lemma {:induction false} SortAscPerm<T>(s: seq<T>, key: T -> string)
    ensures multiset(SortAsc(s, key)) == multiset(s)
    ensures |SortAsc(s, key)| == |s|
  {
    if s != [] {
      SortAscPerm(s[1..], key);
      InsertAscPerm(s[0], SortAsc(s[1..], key), key);
      MultisetCons(s);
    }
  }

  lemma {:induction false} SortAscStable<T>(s: seq<T>, key: T -> string, v: string)
    ensures WithStrKey(SortAsc(s, key), key, v) == WithStrKey(s, key, v)
  {
    if s != [] {
      SortAscStable(s[1..], key, v);
      InsertAscStable(s[0], SortAsc(s[1..], key), key, v);
      WithStrKeyCons(s[0], s[1..], key, v);
      assert s == [s[0]] + s[1..];
    }
  }

  /** Sorting preserves distinct keys, and then the order is strict. */
  lemma SortAscStrict<T>(s: seq<T>, key: T -> string)
    requires DistinctUnder(s, key)
    ensures StrictlyAsc(SortAsc(s, key), key)
  {
    var r := SortAsc(s, key);
    SortAscProps(s, key);
    forall i, j | 0 <= i < j < |r| ensures StrLt(key(r[i]), key(r[j])) {
      if key(r[i]) == key(r[j]) {
        var v := key(r[i]);
        TwoWithKey(r, key, v, i, j);
        OneWithKey(s, key, v);
        assert false;
      }
      assert StrLe(key(r[i]), key(r[j]));
      StrLtTotal(key(r[i]), key(r[j]));
    }
  }

  lemma {:induction false} TwoWithKey<T>(s: seq<T>, key: T -> string, v: string, i: nat, j: nat)
    requires i < j < |s| && key(s[i]) == v && key(s[j]) == v
    ensures |WithStrKey(s, key, v)| >= 2
  {
    if i == 0 {
      AtLeastOneWithKey(s[1..], key, v, j - 1);
    } else {
      TwoWithKey(s[1..], key, v, i - 1, j - 1);
    }
  }

  lemma {:induction false} AtLeastOneWithKey<T>(s: seq<T>, key: T -> string, v: string, j: nat)
    requires j < |s| && key(s[j]) == v
    ensures |WithStrKey(s, key, v)| >= 1
  {
    if j > 0 {
      AtLeastOneWithKey(s[1..], key, v, j - 1);
    }
  }

  lemma {:induction false} OneWithKey<T>(s: seq<T>, key: T -> string, v: string)
    requires DistinctUnder(s, key)
    ensures |WithStrKey(s, key, v)| <= 1
  {
    if s != [] {
      assert DistinctUnder(s[1..], key) by {
        forall i, j | 0 <= i < j < |s[1..]| ensures key(s[1..][i]) != key(s[1..][j]) {
          assert s[1..][i] == s[i + 1] && s[1..][j] == s[j + 1];
        }
      }
      OneWithKey(s[1..], key, v);
      if key(s[0]) == v {
        NoneWithKey(s[1..], key, v);
      }
    }
  }

  lemma {:induction false} NoneWithKey<T>(s: seq<T>, key: T -> string, v: string)
    requires forall i :: 0 <= i < |s| ==> key(s[i]) != v
    ensures WithStrKey(s, key, v) == []
  {
    if s != [] {
      NoneWithKey(s[1..], key, v);
    }
  }

  // ---------------------------------------------------------------------
  // Plain strings: `sorted(set_of_strings)`
  // ---------------------------------------------------------------------

  function Id(x: string): string { x }

  predicate StrictlyAscending(s: seq<string>) {
    forall i, j :: 0 <= i < j < |s| ==> StrLt(s[i], s[j])
  }

  /** `sorted(values)` for a duplicate-free collection of strings. */
  function SortStrings(s: seq<string>): (r: seq<string>)
    requires NoDup(s)
    ensures StrictlyAscending(r)
    ensures multiset(r) == multiset(s)
    ensures |r| == |s| && forall x :: x in r <==> x in s
  {
    SortAscProps(s, Id);
    SortAscStrict(s, Id);
    var r := SortAsc(s, Id);
    assert forall x :: x in r <==> x in multiset(r);
    r
  }
}
