/**
 * The Python list built-ins the scripts rely on: list.index (first
 * occurrence), list.remove (first occurrence), `in`, sorted() over strings
 * (code-point order, stable), and list(set(...)), whose order Python leaves
 * to the hash of the elements.
 */
module PySeq {
  import opened Wrappers

  predicate NoDup<T(==)>(s: seq<T>)
  {
    forall i, j :: 0 <= i < j < |s| ==> s[i] != s[j]
  }

  /** list.index(x): the first position holding x. */
  function IndexOf<T(==)>(s: seq<T>, x: T): (r: nat)
    requires x in s
    ensures r < |s| && s[r] == x
    ensures forall i :: 0 <= i < r ==> s[i] != x
  {
    if s[0] == x then 0 else 1 + IndexOf(s[1..], x)
  }

  /** The first value of a list that is not among the choices. */
  function FirstNotIn<T(==)>(vs: seq<T>, choices: seq<T>): (r: Option<T>)
    ensures r.None? <==> forall v :: v in vs ==> v in choices
    ensures r.Some? ==> r.value in vs && r.value !in choices
    ensures r.Some? ==> forall i :: 0 <= i < IndexOf(vs, r.value) ==> vs[i] in choices
  {
    if |vs| == 0 then None
    else if vs[0] !in choices then Some(vs[0])
    else
      var rest := FirstNotIn(vs[1..], choices);
      assert vs == [vs[0]] + vs[1..];
      rest
  }

  /** list.remove(x) when x is present: drops its first occurrence. */
  function RemoveFirst<T(==)>(s: seq<T>, x: T): (r: seq<T>)
    requires x in s
    ensures |r| == |s| - 1
  {
    assert s == [s[0]] + s[1..];
    if s[0] == x then s[1..] else [s[0]] + RemoveFirst(s[1..], x)
  }

  /** list.remove drops exactly one occurrence of x. */
  lemma {:induction false} RemoveFirstMultiset<T>(s: seq<T>, x: T)
    requires x in s
    ensures multiset(RemoveFirst(s, x)) == multiset(s) - multiset{x}
  {
    assert s == [s[0]] + s[1..];
    if s[0] != x {
      RemoveFirstMultiset(s[1..], x);
    }
  }

  /** Elements kept in order when `keep` holds: [x for x in s if keep(x)]. */
  function Filter<T(!new)>(s: seq<T>, keep: T -> bool): (r: seq<T>)
    ensures |r| <= |s|
    ensures forall x :: x in r <==> x in s && keep(x)
  {
    if |s| == 0 then []
    else if keep(s[0]) then [s[0]] + Filter(s[1..], keep)
    else Filter(s[1..], keep)
  }

  lemma {:induction false} FilterSnoc<T(!new)>(s: seq<T>, x: T, keep: T -> bool)
    ensures Filter(s + [x], keep) == Filter(s, keep) + (if keep(x) then [x] else [])
  {
    if |s| > 0 {
      assert (s + [x])[1..] == s[1..] + [x];
      FilterSnoc(s[1..], x, keep);
    }
  }

  /** Filter over a prefix grown by one element. */
  lemma FilterPrefix<T(!new)>(s: seq<T>, i: nat, keep: T -> bool)
    requires i < |s|
    ensures Filter(s[..i + 1], keep) == Filter(s[..i], keep) + (if keep(s[i]) then [s[i]] else [])
  {
    assert s[..i + 1] == s[..i] + [s[i]];
    FilterSnoc(s[..i], s[i], keep);
  }

  /** Some element of s + [x] satisfies p exactly when one of s does or x does. */
  lemma SomeSnoc<T>(s: seq<T>, x: T, p: T -> bool)
    ensures (exists y :: y in s + [x] && p(y)) <==> (exists y :: y in s && p(y)) || p(x)
  {
    if exists y :: y in s + [x] && p(y) {
      var y :| y in s + [x] && p(y);
      if y != x {
        assert y in s;
      }
    }
    if exists y :: y in s && p(y) {
      var y :| y in s && p(y);
      assert y in s + [x];
    }
    assert x in s + [x];
  }

  /** Removing x from a list whose first occurrence of x follows `a`
      leaves `a` and the rest around it. */
  lemma {:induction false} RemoveFirstAfter<T>(a: seq<T>, x: T, b: seq<T>)
    requires x !in a
    ensures RemoveFirst(a + [x] + b, x) == a + b
  {
    var s := a + [x] + b;
    if |a| > 0 {
      var tail := a[1..] + [x] + b;
      calc {
        RemoveFirst(s, x);
        { assert s[1..] == tail && s[0] == a[0] && a[0] != x; }
        [a[0]] + RemoveFirst(tail, x);
        { RemoveFirstAfter(a[1..], x, b); }
        [a[0]] + (a[1..] + b);
        { assert a == [a[0]] + a[1..]; }
        a + b;
      }
    } else {
      assert s[1..] == b && s[0] == x;
    }
  }

  // ------------------------------------------------------- string order

  /** Python's `<` on str: the first differing code point decides, and a
      proper prefix is smaller. */
  predicate StrLess(a: string, b: string)
  {
    if |a| == 0 then |b| > 0
    else if |b| == 0 then false
    else if a[0] != b[0] then a[0] < b[0]
    else StrLess(a[1..], b[1..])
  }

  predicate StrLeq(a: string, b: string) { a == b || StrLess(a, b) }

  lemma {:induction false} StrLessIrreflexive(a: string)
    ensures !StrLess(a, a)
  {
    if |a| > 0 {
      StrLessIrreflexive(a[1..]);
    }
  }

  lemma {:induction false} StrLessTotal(a: string, b: string)
    ensures a == b || StrLess(a, b) || StrLess(b, a)
  {
    if |a| > 0 && |b| > 0 && a[0] == b[0] {
      StrLessTotal(a[1..], b[1..]);
      if a[1..] == b[1..] {
        assert a == [a[0]] + a[1..] && b == [b[0]] + b[1..];
      }
    }
  }

  lemma {:induction false} StrLessTransitive(a: string, b: string, c: string)
    requires StrLess(a, b) && StrLess(b, c)
    ensures StrLess(a, c)
  {
    if |a| > 0 && a[0] == b[0] && b[0] == c[0] {
      StrLessTransitive(a[1..], b[1..], c[1..]);
    }
  }

  lemma StrLeqTransitive(a: string, b: string, c: string)
    requires StrLeq(a, b) && StrLeq(b, c)
    ensures StrLeq(a, c)
  {
    if a != b && b != c {
      StrLessTransitive(a, b, c);
    }
  }

  /** [f(x) for x in s]. */
  function MapSeq<T, U>(s: seq<T>, f: T -> U): (r: seq<U>)
    ensures |r| == |s| && forall i :: 0 <= i < |s| ==> r[i] == f(s[i])
  {
    seq(|s|, i requires 0 <= i < |s| => f(s[i]))
  }

  lemma MapSeqAppend<T, U>(a: seq<T>, b: seq<T>, f: T -> U)
    ensures MapSeq(a + b, f) == MapSeq(a, f) + MapSeq(b, f)
  {
  }

  lemma MapSeqTakeOneMore<T, U>(s: seq<T>, i: nat, f: T -> U)
    requires i < |s|
    ensures MapSeq(s[..i + 1], f) == MapSeq(s[..i], f) + [f(s[i])]
  {
    assert s[..i + 1] == s[..i] + [s[i]];
    MapSeqAppend(s[..i], [s[i]], f);
  }

  /** Taking the last element of a and an equal element of b out of two
      rearrangements of one list leaves rearrangements of one list. */
  lemma MultisetTakeOut<T>(a: seq<T>, b: seq<T>, j: nat)
    requires multiset(a) == multiset(b) && |a| > 0 && j < |b| && b[j] == a[|a| - 1]
    ensures multiset(a[..|a| - 1]) == multiset(b[..j] + b[j + 1..])
  {
    var x := a[|a| - 1];
    assert multiset(a[..|a| - 1]) == multiset(a) - multiset{x} by {
      assert a == a[..|a| - 1] + [x];
    }
    assert multiset(b[..j] + b[j + 1..]) == multiset(b) - multiset{x} by {
      assert b == b[..j] + [x] + b[j + 1..];
    }
  }

  /** Mapping two rearrangements of one list gives rearrangements of one
      list. */
  lemma {:induction false} MapMultiset<T, U>(a: seq<T>, b: seq<T>, f: T -> U)
    requires multiset(a) == multiset(b)
    ensures multiset(MapSeq(a, f)) == multiset(MapSeq(b, f))
    decreases |a|
  {
    if |a| == 0 {
      assert |b| == |multiset(b)| == 0;
    } else {
      var n := |a| - 1;
      var x := a[n];
      assert x in multiset(b);
      var j :| 0 <= j < |b| && b[j] == x;
      var b' := b[..j] + b[j + 1..];
      MultisetTakeOut(a, b, j);
      MapMultiset(a[..n], b', f);
      MapSeqDropLast(a, f);
      MapSeqDropAt(b, j, f);
    }
  }

  /** The mapped list without its last element. */
  lemma MapSeqDropLast<T, U>(a: seq<T>, f: T -> U)
    requires |a| > 0
    ensures multiset(MapSeq(a, f)) == multiset(MapSeq(a[..|a| - 1], f)) + multiset{f(a[|a| - 1])}
  {
    var n := |a| - 1;
    assert a == a[..n] + [a[n]];
    MapSeqAppend(a[..n], [a[n]], f);
  }

  /** The mapped list without its j-th element. */
  lemma MapSeqDropAt<T, U>(b: seq<T>, j: nat, f: T -> U)
    requires j < |b|
    ensures multiset(MapSeq(b, f)) == multiset(MapSeq(b[..j] + b[j + 1..], f)) + multiset{f(b[j])}
  {
    var p, q := MapSeq(b[..j], f), MapSeq(b[j + 1..], f);
    assert MapSeq(b, f) == p + [f(b[j])] + q by {
      assert b == b[..j] + [b[j]] + b[j + 1..];
      MapSeqAppend(b[..j] + [b[j]], b[j + 1..], f);
      MapSeqAppend(b[..j], [b[j]], f);
    }
    assert MapSeq(b[..j] + b[j + 1..], f) == p + q by {
      MapSeqAppend(b[..j], b[j + 1..], f);
    }
    assert multiset(p + [f(b[j])] + q) == multiset(p + q) + multiset{f(b[j])};
  }

  /** {x for x in s if s.count(x) > 1}. */
  function Duplicates<T(==)>(s: seq<T>): set<T>
  {
    set x | x in s && multiset(s)[x] > 1
  }

  /** The set of repeated elements is empty exactly when nothing repeats. */
  lemma DuplicatesEmpty<T>(s: seq<T>)
    ensures Duplicates(s) == {} <==> NoDup(s)
  {
    if NoDup(s) {
      forall x | x in s ensures multiset(s)[x] <= 1 {
        MultiplicityOfNoDup(s, x);
      }
    } else {
      var i, j :| 0 <= i < j < |s| && s[i] == s[j];
      MultiplicityOfRepeat(s, i, j);
      assert s[i] in Duplicates(s);
    }
  }

  // ---------------------------------------------------------- sorting

  predicate SortedBy<T>(s: seq<T>, key: T -> string)
  {
    forall i, j :: 0 <= i < j < |s| ==> StrLeq(key(s[i]), key(s[j]))
  }

  /** An element whose key is at most every key of a sorted list can go
      in front of it. */
  lemma SortedCons<T>(h: T, s: seq<T>, key: T -> string)
    requires SortedBy(s, key)
    requires forall j :: 0 <= j < |s| ==> StrLeq(key(h), key(s[j]))
    ensures SortedBy([h] + s, key)
  {
    var t := [h] + s;
    forall i, j | 0 <= i < j < |t| ensures StrLeq(key(t[i]), key(t[j])) {
      assert t[j] == s[j - 1];
      if i > 0 {
        assert t[i] == s[i - 1];
      }
    }
  }

  /** Putting the head of a sorted list back in front of the rest with x
      inserted, when x's key is not below the head's. */
  lemma InsertAfterHead<T>(x: T, s: seq<T>, key: T -> string, rest: seq<T>)
    requires |s| > 0 && SortedBy(s, key) && !StrLeq(key(x), key(s[0]))
    requires SortedBy(rest, key) && multiset(rest) == multiset(s[1..]) + multiset{x}
    ensures SortedBy([s[0]] + rest, key)
    ensures multiset([s[0]] + rest) == multiset(s) + multiset{x}
  {
    assert multiset(s) == multiset{s[0]} + multiset(s[1..]) by {
      assert s == [s[0]] + s[1..];
    }
    assert forall j :: 0 <= j < |rest| ==> StrLeq(key(s[0]), key(rest[j])) by {
      StrLessTotal(key(x), key(s[0]));
      forall j | 0 <= j < |rest| ensures StrLeq(key(s[0]), key(rest[j])) {
        var y := rest[j];
        assert y in multiset(rest);
        if y != x {
          assert y in multiset(s[1..]);
          var k :| 0 <= k < |s[1..]| && s[1..][k] == y;
          assert s[k + 1] == y;
        }
      }
    }
    SortedCons(s[0], rest, key);
  }

  /** Inserts x before the first element whose key is not smaller. */
  function InsertBy<T>(x: T, s: seq<T>, key: T -> string): (r: seq<T>)
    requires SortedBy(s, key)
    ensures multiset(r) == multiset(s) + multiset{x}
    ensures SortedBy(r, key)
  {
    if |s| == 0 then [x]
    else if StrLeq(key(x), key(s[0])) then
      assert forall j :: 0 <= j < |s| ==> StrLeq(key(x), key(s[j])) by {
        forall j | 0 <= j < |s| ensures StrLeq(key(x), key(s[j])) {
          if j > 0 { StrLeqTransitive(key(x), key(s[0]), key(s[j])); }
        }
      }
      SortedCons(x, s, key);
      [x] + s
    else
      var rest := InsertBy(x, s[1..], key);
      InsertAfterHead(x, s, key, rest);
      [s[0]] + rest
  }

  /** sorted(s, key=key): insertion sort in string order of keys (every use
      here has distinct keys, so stability is not stated). */
  function SortBy<T>(s: seq<T>, key: T -> string): (r: seq<T>)
    ensures multiset(r) == multiset(s)
    ensures SortedBy(r, key)
  {
    if |s| == 0 then []
    else
      assert s == [s[0]] + s[1..];
      InsertBy(s[0], SortBy(s[1..], key), key)
  }

  function Identity(s: string): string { s }

  /** sorted(s) on a list of strings. */
  function SortStrings(s: seq<string>): (r: seq<string>)
    ensures multiset(r) == multiset(s)
    ensures SortedBy(r, Identity)
  {
    SortBy(s, Identity)
  }

  lemma {:induction false} NoDupOfMultiset<T>(a: seq<T>, b: seq<T>)
    requires multiset(a) == multiset(b) && NoDup(a)
    ensures NoDup(b)
  {
    if !NoDup(b) {
      var i, j :| 0 <= i < j < |b| && b[i] == b[j];
      MultiplicityOfRepeat(b, i, j);
      MultiplicityOfNoDup(a, b[i]);
    }
  }

  lemma MultiplicityOfRepeat<T>(b: seq<T>, i: int, j: int)
    requires 0 <= i < j < |b| && b[i] == b[j]
    ensures multiset(b)[b[i]] >= 2
  {
    assert b == b[..i] + [b[i]] + b[i + 1..j] + [b[j]] + b[j + 1..];
  }

  lemma {:induction false} MultiplicityOfNoDup<T>(a: seq<T>, x: T)
    requires NoDup(a)
    ensures multiset(a)[x] <= 1
  {
    if |a| > 0 {
      assert a == [a[0]] + a[1..];
      MultiplicityOfNoDup(a[1..], x);
      if a[0] == x {
        assert x !in a[1..];
      }
    }
  }

  // ----------------------------------------------------- list(set(...))

  /** list(set(...)): the members of `elems`, each once, in an order the
      model does not fix (Python's depends on string hashing). */
  method SetToList<T(!new)>(elems: set<T>) returns (r: seq<T>)
    ensures NoDup(r)
    ensures forall x :: x in r <==> x in elems
    ensures |r| == |elems|
  {
    r := [];
    var rest := elems;
    while rest != {}
      invariant NoDup(r)
      invariant forall x :: x in r <==> x in elems && x !in rest
      invariant rest <= elems
      invariant |r| + |rest| == |elems|
      decreases |rest|
    {
      var x :| x in rest;
      r := r + [x];
      rest := rest - {x};
    }
  }

  // ------------------------------------------------- sorted(set(...))

  /** [item for sublist in lists for item in sublist]. */
  function Flatten<T(!new)>(lists: seq<seq<T>>): (r: seq<T>)
    ensures forall x :: x in r <==> exists i :: 0 <= i < |lists| && x in lists[i]
  {
    if |lists| == 0 then []
    else
      var init := lists[..|lists| - 1];
      assert forall i :: 0 <= i < |init| ==> init[i] == lists[i];
      Flatten(init) + lists[|lists| - 1]
  }

  /** The elements of s, each once, in order of first occurrence. */
  function Dedup<T(==,!new)>(s: seq<T>): (r: seq<T>)
    ensures NoDup(r)
    ensures forall x :: x in r <==> x in s
  {
    if |s| == 0 then []
    else
      var d := Dedup(s[..|s| - 1]);
      assert forall x :: x in s <==> x in s[..|s| - 1] || x == s[|s| - 1] by {
        assert s == s[..|s| - 1] + [s[|s| - 1]];
      }
      if s[|s| - 1] in d then d else d + [s[|s| - 1]]
  }

  /** sorted(list(set(s))): a sorted list of the distinct elements. */
  function SortedSet(s: seq<string>): (r: seq<string>)
    ensures SortedBy(r, Identity) && NoDup(r)
    ensures forall x :: x in r <==> x in s
  {
    var d := Dedup(s);
    var r := SortStrings(d);
    NoDupOfMultiset(d, r);
    assert forall x :: x in r <==> x in d by {
      forall x ensures x in r <==> x in d {
        assert x in r <==> x in multiset(r);
      }
    }
    r
  }

  /** Lists holding the same elements are empty together. */
  lemma SameElementsEmpty<T>(a: seq<T>, b: seq<T>)
    requires forall x :: x in a <==> x in b
    ensures |a| == 0 <==> |b| == 0
  {
    if |a| > 0 {
      assert a[0] in b;
    }
    if |b| > 0 {
      assert b[0] in a;
    }
  }

  /** Two sorted lists without repeats that hold the same strings are the
      same list: the order set() happens to produce cannot show through
      sorted(). */
  lemma {:induction false} SortedUnique(a: seq<string>, b: seq<string>)
    requires SortedBy(a, Identity) && SortedBy(b, Identity) && NoDup(a) && NoDup(b)
    requires forall x :: x in a <==> x in b
    ensures a == b
    decreases |a|
  {
    SameElementsEmpty(a, b);
    if |a| > 0 {
      assert a[0] in b;
      var i :| 0 <= i < |b| && b[i] == a[0];
      assert b[0] in a;
      var j :| 0 <= j < |a| && a[j] == b[0];
      assert StrLeq(b[0], a[0]) by {
        if i > 0 { assert StrLeq(Identity(b[0]), Identity(b[i])); }
      }
      assert StrLeq(a[0], b[0]) by {
        if j > 0 { assert StrLeq(Identity(a[0]), Identity(a[j])); }
      }
      if a[0] != b[0] {
        StrLessTransitive(a[0], b[0], a[0]);
        StrLessIrreflexive(a[0]);
      }
      var ta, tb := a[1..], b[1..];
      forall x ensures x in ta <==> x in tb {
        assert x in ta <==> x in a && x != a[0] by {
          assert a == [a[0]] + ta;
          if x in ta {
            var k :| 0 <= k < |ta| && ta[k] == x;
            assert a[k + 1] == x;
          }
        }
        assert x in tb <==> x in b && x != b[0] by {
          assert b == [b[0]] + tb;
          if x in tb {
            var k :| 0 <= k < |tb| && tb[k] == x;
            assert b[k + 1] == x;
          }
        }
      }
      assert SortedBy(ta, Identity) by {
        forall p, q | 0 <= p < q < |ta| ensures StrLeq(Identity(ta[p]), Identity(ta[q])) {
          assert ta[p] == a[p + 1] && ta[q] == a[q + 1];
        }
      }
      assert SortedBy(tb, Identity) by {
        forall p, q | 0 <= p < q < |tb| ensures StrLeq(Identity(tb[p]), Identity(tb[q])) {
          assert tb[p] == b[p + 1] && tb[q] == b[q + 1];
        }
      }
      SortedUnique(ta, tb);
      assert a == [a[0]] + ta && b == [b[0]] + tb;
    }
  }

  /** sorted(list(set(s))) does not depend on the order list() picks: any
      duplicate-free list of the same elements sorts to the same list. */
  lemma SortedSetOfAnyOrder(d: seq<string>, s: seq<string>)
    requires NoDup(d) && forall x :: x in d <==> x in s
    ensures SortStrings(d) == SortedSet(s)
  {
    var r := SortStrings(d);
    NoDupOfMultiset(d, r);
    forall x
      ensures x in r <==> x in s
    {
      assert x in r <==> x in multiset(r);
      assert x in d <==> x in multiset(d);
    }
    SortedUnique(r, SortedSet(s));
  }

  /** A duplicate-free list has as many distinct elements as entries. */
  lemma {:induction false} CardOfNoDup<T>(s: seq<T>)
    requires NoDup(s)
    ensures |set x | x in s| == |s|
  {
    if |s| > 0 {
      var t := s[..|s| - 1];
      CardOfNoDup(t);
      assert (set x | x in s) == (set x | x in t) + {s[|s| - 1]};
      assert s[|s| - 1] !in (set x | x in t);
    }
  }

  // ------------------------------------------------- ordered dictionaries

  /** A Python dict as the list of its entries in insertion order; `key`
      gives an entry's key. */
  function KeysOf<E, K>(d: seq<E>, key: E -> K): (r: seq<K>)
    ensures |r| == |d|
  {
    seq(|d|, i requires 0 <= i < |d| => key(d[i]))
  }

  /** One more entry adds its key at the end; keys stay distinct when the
      new one is new. */
  lemma KeysOfSnoc<E, K>(d: seq<E>, key: E -> K, e: E)
    ensures KeysOf(d + [e], key) == KeysOf(d, key) + [key(e)]
    ensures NoDup(KeysOf(d + [e], key)) <==> NoDup(KeysOf(d, key)) && key(e) !in KeysOf(d, key)
  {
    var ks := KeysOf(d + [e], key);
    assert ks == KeysOf(d, key) + [key(e)];
    if NoDup(ks) {
      assert forall i, j :: 0 <= i < j < |d| ==> KeysOf(d, key)[i] == ks[i] && KeysOf(d, key)[j] == ks[j];
      forall k | 0 <= k < |d| ensures KeysOf(d, key)[k] != key(e) {
        assert ks[k] == KeysOf(d, key)[k] && ks[|d|] == key(e);
      }
    }
  }

  /** The position of key k, -1 when absent. */
  function KeyIndex<E, K(==)>(d: seq<E>, key: E -> K, k: K): (r: int)
    ensures r == -1 <==> k !in KeysOf(d, key)
    ensures r >= 0 ==> r < |d| && key(d[r]) == k
  {
    if k in KeysOf(d, key) then IndexOf(KeysOf(d, key), k) else -1
  }

  /** d[key(e)] = e: an existing key keeps its place and takes the new
      value; a new key goes last. */
  function DictSet<E, K(==)>(d: seq<E>, key: E -> K, e: E): (r: seq<E>)
    ensures e in r
  {
    var i := KeyIndex(d, key, key(e));
    if i >= 0 then assert d[i := e][i] == e; d[i := e] else d + [e]
  }

  /** Assignment adds the key at the end when it is new and leaves the key
      order alone otherwise. */
  lemma DictSetKeys<E, K>(d: seq<E>, key: E -> K, e: E)
    ensures KeysOf(DictSet(d, key, e), key)
            == if key(e) in KeysOf(d, key) then KeysOf(d, key) else KeysOf(d, key) + [key(e)]
  {
  }

  /** Assignment keeps keys distinct, and the entries after it are the new
      one and those of the old entries with other keys. */
  lemma DictSetMembers<E, K>(d: seq<E>, key: E -> K, e: E)
    requires NoDup(KeysOf(d, key))
    ensures NoDup(KeysOf(DictSet(d, key, e), key))
    ensures forall x :: x in DictSet(d, key, e) <==> x == e || (x in d && key(x) != key(e))
  {
    var r := DictSet(d, key, e);
    var i := KeyIndex(d, key, key(e));
    DictSetKeys(d, key, e);
    forall x ensures x in r <==> x == e || (x in d && key(x) != key(e)) {
      if x in d && key(x) != key(e) {
        var j :| 0 <= j < |d| && d[j] == x;
        assert i < 0 || j != i;
        assert r[j] == x;
      }
      if x in r && x != e {
        var j :| 0 <= j < |r| && r[j] == x;
        if i >= 0 {
          assert j != i && d[j] == x;
          assert KeysOf(d, key)[j] != KeysOf(d, key)[i];
        } else {
          assert j < |d| && d[j] == x;
          assert key(e) !in KeysOf(d, key);
          assert KeysOf(d, key)[j] == key(x);
        }
      }
    }
  }

  /** The dict built by assigning d[key(e)] = e for each e of es in turn. */
  function Assigned<E, K(==)>(es: seq<E>, key: E -> K): (r: seq<E>)
    ensures |r| <= |es|
  {
    if |es| == 0 then [] else DictSet(Assigned(es[..|es| - 1], key), key, es[|es| - 1])
  }

  lemma AssignedSnoc<E, K>(es: seq<E>, key: E -> K, e: E)
    ensures Assigned(es + [e], key) == DictSet(Assigned(es, key), key, e)
  {
    assert (es + [e])[..|es|] == es;
  }

  /** No entry after es[i] has its key. */
  ghost predicate LastOfKey<E, K>(es: seq<E>, key: E -> K, i: nat)
    requires i < |es|
  {
    forall j :: i < j < |es| ==> key(es[j]) != key(es[i])
  }

  /** Before a new last entry, the last of its key is the last of its key
      before and has another key than the new entry. */
  lemma LastOfKeyInit<E, K>(init: seq<E>, last: E, key: E -> K, i: nat)
    requires i < |init|
    ensures LastOfKey(init + [last], key, i) <==> LastOfKey(init, key, i) && key(last) != key(init[i])
  {
    var es := init + [last];
    if LastOfKey(init, key, i) && key(last) != key(init[i]) {
      forall j | i < j < |es| ensures key(es[j]) != key(es[i]) {
        if j < |init| {
          assert es[j] == init[j];
        }
      }
    }
    if LastOfKey(es, key, i) {
      forall j | i < j < |init| ensures key(init[j]) != key(init[i]) {
        assert es[j] == init[j];
      }
      assert es[|init|] == last;
    }
  }

  /** The last assignment to a key wins: the keys are distinct and an entry
      survives exactly when no later entry has its key. */
  lemma {:induction false} AssignedLastWins<E, K>(es: seq<E>, key: E -> K)
    ensures NoDup(KeysOf(Assigned(es, key), key))
    ensures forall x :: x in Assigned(es, key) <==> exists i :: 0 <= i < |es| && x == es[i] && LastOfKey(es, key, i)
    decreases |es|
  {
    if |es| > 0 {
      var n := |es| - 1;
      var init := es[..n];
      var last := es[n];
      assert es == init + [last];
      AssignedLastWins(init, key);
      AssignedSnoc(init, key, last);
      DictSetMembers(Assigned(init, key), key, last);
      forall x ensures x in Assigned(es, key) <==> exists i :: 0 <= i < |es| && x == es[i] && LastOfKey(es, key, i) {
        AssignedStep(Assigned(init, key), Assigned(es, key), init, last, key, x);
      }
    }
  }

  /** One entry of the step of AssignedLastWins: before is the dict built
      from init, after the dict once last is assigned too. */
  lemma AssignedStep<E, K>(before: seq<E>, after: seq<E>, init: seq<E>, last: E, key: E -> K, x: E)
    requires x in before <==> exists i :: 0 <= i < |init| && x == init[i] && LastOfKey(init, key, i)
    requires x in after <==> x == last || (x in before && key(x) != key(last))
    ensures x in after <==> exists i :: 0 <= i < |init| + 1 && x == (init + [last])[i] && LastOfKey(init + [last], key, i)
  {
    var es := init + [last];
    var n := |init|;
    if x in after {
      if x == last {
        assert es[n] == x && LastOfKey(es, key, n);
      } else {
        var i :| 0 <= i < n && x == init[i] && LastOfKey(init, key, i);
        LastOfKeyInit(init, last, key, i);
        assert es[i] == x && LastOfKey(es, key, i);
      }
    }
    if exists i :: 0 <= i < n + 1 && x == es[i] && LastOfKey(es, key, i) {
      var i :| 0 <= i < n + 1 && x == es[i] && LastOfKey(es, key, i);
      if i < n {
        LastOfKeyInit(init, last, key, i);
        assert x == init[i];
      }
    }
  }

  /** With distinct keys every assignment adds a new entry, so the dict is
      the list itself. */
  lemma {:induction false} AssignedDistinct<E, K>(es: seq<E>, key: E -> K)
    requires NoDup(KeysOf(es, key))
    ensures Assigned(es, key) == es
    decreases |es|
  {
    if |es| > 0 {
      var n := |es| - 1;
      var init := es[..n];
      assert es == init + [es[n]];
      KeysOfSnoc(init, key, es[n]);
      AssignedDistinct(init, key);
      AssignedSnoc(init, key, es[n]);
    }
  }

  /** The keys of the dict depend only on the keys assigned. */
  lemma {:induction false} AssignedKeys<E, K>(a: seq<E>, b: seq<E>, key: E -> K)
    requires KeysOf(a, key) == KeysOf(b, key)
    ensures KeysOf(Assigned(a, key), key) == KeysOf(Assigned(b, key), key)
    decreases |a|
  {
    if |a| > 0 {
      var n := |a| - 1;
      assert a == a[..n] + [a[n]] && b == b[..n] + [b[n]];
      KeysOfSnoc(a[..n], key, a[n]);
      KeysOfSnoc(b[..n], key, b[n]);
      assert KeysOf(a[..n], key) == KeysOf(a, key)[..n];
      assert KeysOf(b[..n], key) == KeysOf(b, key)[..n];
      assert key(a[n]) == KeysOf(a, key)[n] == key(b[n]);
      AssignedKeys(a[..n], b[..n], key);
      AssignedSnoc(a[..n], key, a[n]);
      AssignedSnoc(b[..n], key, b[n]);
      DictSetKeys(Assigned(a[..n], key), key, a[n]);
      DictSetKeys(Assigned(b[..n], key), key, b[n]);
    }
  }
}
