/**
 * Python's ordering of strings (code point by code point, a proper prefix first)
 * and its `sorted`, which the source applies to every directory listing it walks.
 */
module Ordering {

  /** `a <= b` on Python `str`. */
  predicate StrLe(a: string, b: string)
    decreases |a|
  {
    if a == [] then true
    else if b == [] then false
    else a[0] < b[0] || (a[0] == b[0] && StrLe(a[1..], b[1..]))
  }

  lemma {:induction false} StrLeTotal(a: string, b: string)
    ensures StrLe(a, b) || StrLe(b, a)
    decreases |a|
  {
    if a != [] && b != [] && a[0] == b[0] {
      StrLeTotal(a[1..], b[1..]);
    }
  }

  lemma {:induction false} StrLeTransitive(a: string, b: string, c: string)
    requires StrLe(a, b) && StrLe(b, c)
    ensures StrLe(a, c)
    decreases |a|
  {
    if a != [] && b != [] && c != [] && a[0] == b[0] && b[0] == c[0] {
      StrLeTransitive(a[1..], b[1..], c[1..]);
    }
  }

  lemma {:induction false} StrLeAntisymmetric(a: string, b: string)
    requires StrLe(a, b) && StrLe(b, a)
    ensures a == b
    decreases |a|
  {
    if a != [] {
      StrLeAntisymmetric(a[1..], b[1..]);
      assert a == [a[0]] + a[1..] && b == [b[0]] + b[1..];
    }
  }

  /** `s` is in non-decreasing order of `key`. */
  ghost predicate SortedBy<T>(s: seq<T>, key: T -> string)
  {
    forall i, j :: 0 <= i < j < |s| ==> StrLe(key(s[i]), key(s[j]))
  }

  /** Inserts `x` before the first element whose key is not below it (so before its equals). */
  function InsertBy<T>(x: T, s: seq<T>, key: T -> string): (r: seq<T>)
    ensures multiset(r) == multiset(s) + multiset{x}
    ensures |r| == |s| + 1
  {
    if s == [] then [x]
    else if StrLe(key(x), key(s[0])) then [x] + s
    else
      assert s == [s[0]] + s[1..];
      [s[0]] + InsertBy(x, s[1..], key)
  }

  lemma {:induction false} InsertBySorted<T>(x: T, s: seq<T>, key: T -> string)
    requires SortedBy(s, key)
    ensures SortedBy(InsertBy(x, s, key), key)
    decreases |s|
  {
    var r := InsertBy(x, s, key);
    if s == [] {
    } else if StrLe(key(x), key(s[0])) {
      forall j | 0 < j < |r| ensures StrLe(key(r[0]), key(r[j])) {
        if j > 1 { StrLeTransitive(key(x), key(s[0]), key(s[j - 1])); }
      }
    } else {
      var t := InsertBy(x, s[1..], key);
      InsertBySorted(x, s[1..], key);
      InsertByAfterHead(x, s, key);
      assert r == [s[0]] + t;
    }
  }

  /** Inserting behind the head of a sorted `s` keeps every key at or above the head's. */
  lemma InsertByAfterHead<T>(x: T, s: seq<T>, key: T -> string)
    requires SortedBy(s, key) && s != [] && !StrLe(key(x), key(s[0]))
    ensures forall k :: 0 <= k < |InsertBy(x, s[1..], key)| ==> StrLe(key(s[0]), key(InsertBy(x, s[1..], key)[k]))
  {
    var t := InsertBy(x, s[1..], key);
    StrLeTotal(key(x), key(s[0]));
    forall k | 0 <= k < |t| ensures StrLe(key(s[0]), key(t[k])) {
      assert t[k] in multiset(t);
      if t[k] != x {
        assert t[k] in multiset(s[1..]);
        var m :| 0 <= m < |s[1..]| && s[1..][m] == t[k];
        assert s[m + 1] == t[k];
      }
    }
  }

  /**
   * Python's `sorted(s, key=key)`: a stable sort, so an element of `s` stays in front of the
   * later elements with an equal key.
   */
  function SortBy<T>(s: seq<T>, key: T -> string): seq<T>
  {
    if s == [] then [] else InsertBy(s[0], SortBy(s[1..], key), key)
  }

  /** `SortBy` yields its input in order: sorted by `key`, and a permutation of `s`. */
  lemma SortByFacts<T>(s: seq<T>, key: T -> string)
    ensures SortedBy(SortBy(s, key), key)
    ensures multiset(SortBy(s, key)) == multiset(s)
    ensures |SortBy(s, key)| == |s|
  {
    SortBySorted(s, key);
    SortByPermutes(s, key);
  }

  lemma {:induction false} SortBySorted<T>(s: seq<T>, key: T -> string)
    ensures SortedBy(SortBy(s, key), key)
    decreases |s|
  {
    if s != [] {
      SortBySorted(s[1..], key);
      InsertBySorted(s[0], SortBy(s[1..], key), key);
    }
  }

  lemma {:induction false} SortByPermutes<T>(s: seq<T>, key: T -> string)
    ensures multiset(SortBy(s, key)) == multiset(s)
    ensures |SortBy(s, key)| == |s|
    decreases |s|
  {
    if s != [] {
      SortByPermutes(s[1..], key);
      assert s == [s[0]] + s[1..];
    }
  }

  /** The sum of `f` over the elements of `s`. */
  function Sum<T>(s: seq<T>, f: T -> nat): nat
  {
    if s == [] then 0 else f(s[0]) + Sum(s[1..], f)
  }

  lemma {:induction false} SumAppend<T>(s: seq<T>, x: T, f: T -> nat)
    ensures Sum(s + [x], f) == Sum(s, f) + f(x)
    decreases |s|
  {
    if s != [] {
      assert (s + [x])[0] == s[0] && (s + [x])[1..] == s[1..] + [x];
      SumAppend(s[1..], x, f);
    }
  }

  lemma SumLast<T>(s: seq<T>, f: T -> nat)
    requires s != []
    ensures Sum(s, f) == Sum(s[..|s| - 1], f) + f(s[|s| - 1])
  {
    SumAppend(s[..|s| - 1], s[|s| - 1], f);
    assert s[..|s| - 1] + [s[|s| - 1]] == s;
  }

  lemma {:induction false} SumConcat<T>(a: seq<T>, b: seq<T>, f: T -> nat)
    ensures Sum(a + b, f) == Sum(a, f) + Sum(b, f)
    decreases |a|
  {
    if a == [] {
      assert a + b == b;
    } else {
      assert (a + b)[0] == a[0] && (a + b)[1..] == a[1..] + b;
      SumConcat(a[1..], b, f);
    }
  }

  /** A sum does not depend on the order of its terms. */
  lemma {:induction false} SumPermutation<T>(a: seq<T>, b: seq<T>, f: T -> nat)
    requires multiset(a) == multiset(b)
    ensures Sum(a, f) == Sum(b, f)
    decreases |a|
  {
    if a == [] {
      assert |multiset(b)| == 0;
    } else {
      var x := a[0];
      assert x in multiset(b);
      var i :| 0 <= i < |b| && b[i] == x;
      var b' := b[..i] + b[i + 1..];
      assert b == b[..i] + [x] + b[i + 1..];
      assert a == [x] + a[1..];
      assert multiset(b) == multiset(b[..i]) + multiset{x} + multiset(b[i + 1..]);
      assert multiset(b') == multiset(b[..i]) + multiset(b[i + 1..]);
      assert multiset(a) == multiset{x} + multiset(a[1..]);
      assert multiset(b') == multiset(b) - multiset{x};
      assert multiset(a[1..]) == multiset(a) - multiset{x};
      SumPermutation(a[1..], b', f);
      SumConcat(b[..i] + [x], b[i + 1..], f);
      SumAppend(b[..i], x, f);
      SumConcat(b[..i], b[i + 1..], f);
    }
  }

  /** A sum is zero exactly when every term is. */
  lemma {:induction false} SumZero<T>(s: seq<T>, f: T -> nat)
    ensures Sum(s, f) == 0 <==> forall e :: e in s ==> f(e) == 0
    decreases |s|
  {
    if s != [] {
      SumZero(s[1..], f);
      assert forall e :: e in s <==> e == s[0] || e in s[1..];
    }
  }

  function Id(s: string): string { s }

  /** `sorted(keys)` for a set of strings, such as the keys of a dictionary. */
  ghost function SortedSet(keys: set<string>): (r: seq<string>)
    ensures SortedBy(r, Id)
    ensures |r| == |keys|
    ensures forall x :: x in r <==> x in keys
    ensures multiset(r) == multiset(keys)
    decreases keys
  {
    if keys == {} then []
    else
      var k :| k in keys;
      var rest := SortedSet(keys - {k});
      InsertBySorted(k, rest, Id);
      var r := InsertBy(k, rest, Id);
      assert multiset(keys - {k}) + multiset{k} == multiset(keys);
      assert forall x :: x in r <==> x in multiset(r);
      r
  }
}
