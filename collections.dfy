/** Sequence helpers shared by the model: an optional value (Python's `None`
    or a value), flattening a list of lists, and first-occurrence
    deduplication (what an insertion-ordered `dict` or the `seen`-set idiom
    keeps). */
module Collections {

  datatype Option<T> = None | Some(value: T) {
    function GetOr(default: T): T {
      match this
      case Some(v) => v
      case None => default
    }
  }

  predicate NoDup<T(==)>(s: seq<T>) {
    forall i, j :: 0 <= i < j < |s| ==> s[i] != s[j]
  }

  /** A Python `dict`: the entries, and the keys in insertion order.
      Assigning to a present key replaces its value and keeps its place. */
  datatype OrderedMap<K(==), V> = OrderedMap(keys: seq<K>, entries: map<K, V>) {

    predicate Valid() {
      NoDup(keys) && (forall k :: k in entries ==> k in keys) && (forall k :: k in keys ==> k in entries)
    }

    /** `d[k] = v` */
    function Put(k: K, v: V): (r: OrderedMap<K, V>)
      requires Valid()
      ensures r.Valid()
      ensures r.entries == entries[k := v]
      ensures k in entries ==> r.keys == keys
      ensures k !in entries ==> r.keys == keys + [k]
    {
      OrderedMap(if k in entries then keys else keys + [k], entries[k := v])
    }

    /** `list(d.values())` */
    function Values(): (vs: seq<V>)
      requires Valid()
      ensures |vs| == |keys|
      ensures forall i :: 0 <= i < |keys| ==> vs[i] == entries[keys[i]]
    {
      seq(|keys|, i requires 0 <= i < |keys| => entries[keys[i]])
    }
  }

  function EmptyMap<K(==), V>(): (r: OrderedMap<K, V>)
    ensures r.Valid() && r.keys == []
  {
    OrderedMap([], map[])
  }

  // ---------------------------------------------------------------------
  // Flattening: `for x in xs: out.extend(f(x))`
  // ---------------------------------------------------------------------

  function FlatMap<T, U>(s: seq<T>, f: T -> seq<U>): seq<U> {
    if s == [] then [] else FlatMap(s[..|s| - 1], f) + f(s[|s| - 1])
  }

  /** Flattening distributes over concatenation. */
  lemma {:induction false} FlatMapAppend<T, U>(a: seq<T>, b: seq<T>, f: T -> seq<U>)
    ensures FlatMap(a + b, f) == FlatMap(a, f) + FlatMap(b, f)
    decreases |b|
  {
    if b != [] {
      var b' := b[..|b| - 1];
      assert (a + b)[..|a + b| - 1] == a + b';
      assert (a + b)[|a + b| - 1] == b[|b| - 1];
      FlatMapAppend(a, b', f);
    } else {
      assert a + b == a;
    }
  }

  /** A non-empty sequence is its front followed by its last element. */
  lemma SnocFront<T>(s: seq<T>)
    requires s != []
    ensures s == s[..|s| - 1] + [s[|s| - 1]]
  {
  }

  /** A prefix of `b` extended by the next element of `b`. */
  lemma PrefixNext<T>(b: seq<T>, j: nat)
    requires j < |b|
    ensures b[..j + 1] == b[..j] + [b[j]]
  {
  }

  /** Some element of a non-empty `s` satisfies `P` exactly when one of its
      front does or its last one does. */
  lemma ExistsSnoc<T>(s: seq<T>, front: seq<T>, P: T -> bool)
    requires s != [] && front == s[..|s| - 1]
    ensures (exists i :: 0 <= i < |s| && P(s[i])) <==>
            (exists i :: 0 <= i < |front| && P(front[i])) || P(s[|s| - 1])
  {
    if exists i :: 0 <= i < |front| && P(front[i]) {
      var i :| 0 <= i < |front| && P(front[i]);
      assert s[i] == front[i];
    }
    if exists i :: 0 <= i < |s| && P(s[i]) {
      var i :| 0 <= i < |s| && P(s[i]);
      if i < |front| {
        assert front[i] == s[i];
      }
    }
  }

  /** Appending an item that satisfies `P` to a list whose items all do. */
  lemma AllSnoc<T>(s: seq<T>, x: T, P: T -> bool)
    requires forall k :: 0 <= k < |s| ==> P(s[k])
    requires P(x)
    ensures forall k :: 0 <= k < |s + [x]| ==> P((s + [x])[k])
  {
    forall k | 0 <= k < |s + [x]| ensures P((s + [x])[k]) {
      if k < |s| {
        assert (s + [x])[k] == s[k];
      }
    }
  }

  /** The empty and the whole prefix of `b`. */
  lemma WholePrefix<T>(b: seq<T>)
    ensures b[..0] == [] && b[..|b|] == b
  {
  }

  /** `a` followed by the empty prefix of `b`, and by all of `b`. */
  lemma PrefixEnds<T>(a: seq<T>, b: seq<T>)
    ensures a + b[..0] == a && a + b[..|b|] == a + b
  {
    assert b[..0] == [] && b[..|b|] == b;
  }

  /** The same, after a fixed `a`. */
  lemma PrefixStep<T>(a: seq<T>, b: seq<T>, j: nat)
    requires j < |b|
    ensures a + b[..j + 1] == (a + b[..j]) + [b[j]]
  {
    PrefixNext(b, j);
  }

  lemma AppendAssoc<T>(a: seq<T>, b: seq<T>, c: seq<T>)
    ensures (a + b) + c == a + (b + c)
  {
  }

  lemma FlatMapSingle<T, U>(x: T, f: T -> seq<U>)
    ensures FlatMap([x], f) == f(x)
  {
    assert [x][..0] == [];
  }

  lemma FlatMapSnoc<T, U>(a: seq<T>, x: T, f: T -> seq<U>)
    ensures FlatMap(a + [x], f) == FlatMap(a, f) + f(x)
  {
    assert (a + [x])[..|a|] == a;
  }

  /** Every element an input element contributes is in the flattened list. */
  lemma {:induction false} FlatMapContains<T, U>(s: seq<T>, f: T -> seq<U>, i: nat, y: U)
    requires i < |s| && y in f(s[i])
    ensures y in FlatMap(s, f)
  {
    if i < |s| - 1 {
      assert s[..|s| - 1][i] == s[i];
      FlatMapContains(s[..|s| - 1], f, i, y);
    }
  }

  /** Every element of the flattened list comes from some input element. */
  lemma {:induction false} FlatMapMember<T, U>(s: seq<T>, f: T -> seq<U>, y: U)
    requires y in FlatMap(s, f)
    ensures exists i :: 0 <= i < |s| && y in f(s[i])
  {
    if s != [] {
      var front := s[..|s| - 1];
      if y in FlatMap(front, f) {
        FlatMapMember(front, f, y);
        var i :| 0 <= i < |front| && y in f(front[i]);
        assert s[i] == front[i];
      } else {
        assert y in f(s[|s| - 1]);
      }
    }
  }

  // ---------------------------------------------------------------------
  // First-occurrence deduplication
  // ---------------------------------------------------------------------

  /** The distinct elements of `s`, each at the place of its first occurrence. */
  function Dedup<T(==)>(s: seq<T>): seq<T> {
    if s == [] then []
    else
      var d := Dedup(s[..|s| - 1]);
      if s[|s| - 1] in d then d else d + [s[|s| - 1]]
  }

  /** The index of the first occurrence of `x` in `s`. */
  function FirstIndex<T(==)>(s: seq<T>, x: T): (i: nat)
    requires x in s
    ensures i < |s| && s[i] == x
    ensures forall j :: 0 <= j < i ==> s[j] != x
  {
    if s[0] == x then 0 else 1 + FirstIndex(s[1..], x)
  }

  /** A non-empty sequence holds its head and its tail. */
  lemma MultisetCons<T>(s: seq<T>)
    requires s != []
    ensures multiset(s) == multiset{s[0]} + multiset(s[1..])
  {
    assert s == [s[0]] + s[1..];
  }

  /** An index holding `x` with no `x` before it is the first index. */
  lemma FirstIndexAt<T>(s: seq<T>, x: T, k: nat)
    requires k < |s| && s[k] == x
    requires forall j :: 0 <= j < k ==> s[j] != x
    ensures FirstIndex(s, x) == k
  {
  }

  /** `Dedup` keeps exactly the elements of `s`, once each, in the order of
      their first occurrences. */
  lemma {:induction false} DedupProps<T>(s: seq<T>)
    ensures NoDup(Dedup(s))
    ensures forall x :: x in Dedup(s) <==> x in s
    ensures |Dedup(s)| <= |s|
    ensures forall i, j :: 0 <= i < j < |Dedup(s)| ==>
              FirstIndex(s, Dedup(s)[i]) < FirstIndex(s, Dedup(s)[j])
  {
    if s != [] {
      var front := s[..|s| - 1];
      var x := s[|s| - 1];
      var d := Dedup(front);
      DedupProps(front);
      SnocFront(s);
      forall y | y in front ensures FirstIndex(s, y) == FirstIndex(front, y) {
        FirstIndexPrefix(front, [x], y);
      }
      if x !in d {
        var r := d + [x];
        forall i, j | 0 <= i < j < |r| ensures FirstIndex(s, r[i]) < FirstIndex(s, r[j]) {
          if j == |d| {
            assert r[i] == d[i];
            assert FirstIndex(s, x) == |front| by {
              assert forall k :: 0 <= k < |front| ==> s[k] == front[k];
            }
          } else {
            assert r[i] == d[i] && r[j] == d[j];
          }
        }
      }
    }
  }

  lemma {:induction false} FirstIndexPrefix<T>(a: seq<T>, b: seq<T>, x: T)
    requires x in a
    ensures FirstIndex(a + b, x) == FirstIndex(a, x)
  {
    if a[0] != x {
      assert (a + b)[1..] == a[1..] + b;
      FirstIndexPrefix(a[1..], b, x);
    }
  }

  /** A value new to `a` is first found right after `a`. */
  lemma FirstIndexAppended<T>(a: seq<T>, x: T)
    requires x !in a
    ensures FirstIndex(a + [x], x) == |a|
  {
    assert forall k :: 0 <= k < |a| ==> (a + [x])[k] == a[k];
  }

  lemma DedupSnoc<T>(s: seq<T>, x: T)
    ensures Dedup(s + [x]) == if x in Dedup(s) then Dedup(s) else Dedup(s) + [x]
  {
    assert (s + [x])[..|s|] == s;
  }

  // ---------------------------------------------------------------------
  // Distinct keys survive a permutation
  // ---------------------------------------------------------------------

  predicate DistinctUnder<T, K(==)>(s: seq<T>, f: T -> K) {
    forall i, j :: 0 <= i < j < |s| ==> f(s[i]) != f(s[j])
  }

  lemma {:induction false} NoDupCount<T>(s: seq<T>, x: T)
    requires NoDup(s)
    ensures multiset(s)[x] <= 1
  {
    if s != [] {
      assert s == [s[0]] + s[1..];
      NoDupCount(s[1..], x);
      if s[0] == x {
        assert x !in s[1..];
      }
    }
  }

  lemma {:induction false} CountNoDup<T>(s: seq<T>)
    requires forall x :: multiset(s)[x] <= 1
    ensures NoDup(s)
  {
    if s != [] {
      assert s == [s[0]] + s[1..];
      assert multiset(s)[s[0]] == 1 + multiset(s[1..])[s[0]];
      assert s[0] !in multiset(s[1..]);
      forall x ensures multiset(s[1..])[x] <= 1 {
        assert multiset(s)[x] == multiset([s[0]])[x] + multiset(s[1..])[x];
      }
      CountNoDup(s[1..]);
      forall i, j | 0 <= i < j < |s| ensures s[i] != s[j] {
        if i == 0 {
          assert s[j] == s[1..][j - 1];
        } else {
          assert s[i] == s[1..][i - 1] && s[j] == s[1..][j - 1];
        }
      }
    }
  }

  lemma DistinctValues<T, K>(a: seq<T>, f: T -> K, x: T, y: T)
    requires DistinctUnder(a, f)
    requires x in a && y in a && x != y
    ensures f(x) != f(y)
  {
    var p :| 0 <= p < |a| && a[p] == x;
    var q :| 0 <= q < |a| && a[q] == y;
    if p < q {
      assert f(a[p]) != f(a[q]);
    } else {
      assert f(a[q]) != f(a[p]);
    }
  }

  lemma PermutationKeepsDistinct<T, K>(a: seq<T>, b: seq<T>, f: T -> K)
    requires multiset(a) == multiset(b)
    requires DistinctUnder(a, f)
    ensures DistinctUnder(b, f)
  {
    assert NoDup(a) by {
      forall i, j | 0 <= i < j < |a| ensures a[i] != a[j] {
        assert f(a[i]) != f(a[j]);
      }
    }
    forall x ensures multiset(b)[x] <= 1 {
      NoDupCount(a, x);
    }
    CountNoDup(b);
    forall i, j | 0 <= i < j < |b| ensures f(b[i]) != f(b[j]) {
      assert b[i] in multiset(a) && b[j] in multiset(a);
      DistinctValues(a, f, b[i], b[j]);
    }
  }
}
