/**
 * Sorting by a key, as LINQ's `OrderBy` does. Keys are sequences of integers
 * compared lexicographically: a date becomes [year, month, day, time] and a
 * string the codes of its characters (ordinal comparison).
 */
module Ordering {

  /** Lexicographic order on integer sequences; a proper prefix comes first. */
  predicate LexLe(a: seq<int>, b: seq<int>)
    decreases |a|
  {
    a == [] || (b != [] && (a[0] < b[0] || (a[0] == b[0] && LexLe(a[1..], b[1..]))))
  }

  lemma {:induction false} LexLeReflexive(a: seq<int>)
    ensures LexLe(a, a)
    decreases |a|
  {
    if a != [] { LexLeReflexive(a[1..]); }
  }

  lemma {:induction false} LexLeTotal(a: seq<int>, b: seq<int>)
    ensures LexLe(a, b) || LexLe(b, a)
    decreases |a|
  {
    if a != [] && b != [] && a[0] == b[0] { LexLeTotal(a[1..], b[1..]); }
  }

  lemma {:induction false} LexLeTransitive(a: seq<int>, b: seq<int>, c: seq<int>)
    requires LexLe(a, b) && LexLe(b, c)
    ensures LexLe(a, c)
    decreases |a|
  {
    if a != [] && a[0] == b[0] && b[0] == c[0] { LexLeTransitive(a[1..], b[1..], c[1..]); }
  }

  lemma {:induction false} LexLeAntisymmetric(a: seq<int>, b: seq<int>)
    requires LexLe(a, b) && LexLe(b, a)
    ensures a == b
    decreases |a|
  {
    if a != [] {
      LexLeAntisymmetric(a[1..], b[1..]);
      assert a == [a[0]] + a[1..] && b == [b[0]] + b[1..];
    }
  }

  /** Ascending order of `s` by `key`. */
  predicate SortedBy<T>(s: seq<T>, key: T -> seq<int>) {
    forall i, j :: 0 <= i < j < |s| ==> LexLe(key(s[i]), key(s[j]))
  }

  /** Inserts `x` after every element whose key is not greater than its own. */
  function Insert<T>(x: T, s: seq<T>, key: T -> seq<int>): (r: seq<T>)
    requires SortedBy(s, key)
    ensures multiset(r) == multiset(s) + multiset{x}
    ensures SortedBy(r, key)
    decreases |s|
  {
    if s == [] then [x]
    else if LexLe(key(s[0]), key(x)) then
      var t := Insert(x, s[1..], key);
      InsertHead(s[0], s[1..], x, t, key);
      assert s == [s[0]] + s[1..];
      [s[0]] + t
    else
      LexLeTotal(key(s[0]), key(x));
      HeadSorted(x, s, key);
      [x] + s
  }

  lemma HeadSorted<T>(x: T, s: seq<T>, key: T -> seq<int>)
    requires SortedBy(s, key) && s != [] && LexLe(key(x), key(s[0]))
    ensures SortedBy([x] + s, key)
  {
    forall j | 0 < j < |[x] + s| ensures LexLe(key(x), key(([x] + s)[j])) {
      if j > 1 { LexLeTransitive(key(x), key(s[0]), key(s[j - 1])); }
    }
  }

  lemma InsertHead<T>(h: T, s: seq<T>, x: T, t: seq<T>, key: T -> seq<int>)
    requires SortedBy([h] + s, key) && SortedBy(t, key)
    requires LexLe(key(h), key(x))
    requires multiset(t) == multiset(s) + multiset{x}
    ensures SortedBy([h] + t, key)
  {
    forall j | 0 <= j < |t| ensures LexLe(key(h), key(t[j])) {
      assert t[j] in multiset(t);
      if t[j] != x {
        assert t[j] in multiset(s);
        var k :| 0 <= k < |s| && s[k] == t[j];
        assert ([h] + s)[0] == h && ([h] + s)[k + 1] == s[k];
        assert LexLe(key(([h] + s)[0]), key(([h] + s)[k + 1]));
      }
    }
    forall a, b | 0 <= a < b < |[h] + t| ensures LexLe(key(([h] + t)[a]), key(([h] + t)[b])) {
      if a > 0 { assert ([h] + t)[a] == t[a - 1] && ([h] + t)[b] == t[b - 1]; }
      else { assert ([h] + t)[b] == t[b - 1]; }
    }
  }

  /** `OrderBy(key)`: a sorted permutation of `s`. */
  function SortBy<T>(s: seq<T>, key: T -> seq<int>): (r: seq<T>)
    ensures multiset(r) == multiset(s)
    ensures SortedBy(r, key)
    decreases |s|
  {
    if s == [] then []
    else
      assert s == s[..|s| - 1] + [s[|s| - 1]];
      Insert(s[|s| - 1], SortBy(s[..|s| - 1], key), key)
  }

  /** The elements of `s` whose key is `k`, in their order in `s`. */
  function ComChave<T>(s: seq<T>, key: T -> seq<int>, k: seq<int>): (r: seq<T>)
    ensures |r| <= |s|
    decreases |s|
  {
    if s == [] then [] else (if key(s[0]) == k then [s[0]] else []) + ComChave(s[1..], key, k)
  }

  lemma {:induction false} ComChaveConcat<T>(a: seq<T>, b: seq<T>, key: T -> seq<int>, k: seq<int>)
    ensures ComChave(a + b, key, k) == ComChave(a, key, k) + ComChave(b, key, k)
    decreases |a|
  {
    if a == [] {
      assert a + b == b;
    } else {
      var h := if key(a[0]) == k then [a[0]] else [];
      assert (a + b)[0] == a[0] && (a + b)[1..] == a[1..] + b;
      assert ComChave(a + b, key, k) == h + ComChave(a[1..] + b, key, k);
      ComChaveConcat(a[1..], b, key, k);
      assert h + (ComChave(a[1..], key, k) + ComChave(b, key, k)) == (h + ComChave(a[1..], key, k)) + ComChave(b, key, k);
    }
  }

  lemma {:induction false} ComChaveVazia<T>(s: seq<T>, key: T -> seq<int>, k: seq<int>)
    requires forall i :: 0 <= i < |s| ==> key(s[i]) != k
    ensures ComChave(s, key, k) == []
    decreases |s|
  {
    if s != [] {
      ComChaveVazia(s[1..], key, k);
    }
  }

  /** `x` joins the elements with its key after those already there. */
  lemma {:induction false} InsertEstavel<T>(x: T, s: seq<T>, key: T -> seq<int>, k: seq<int>)
    requires SortedBy(s, key)
    ensures ComChave(Insert(x, s, key), key, k) == ComChave(s, key, k) + (if key(x) == k then [x] else [])
    decreases |s|
  {
    if s == [] {
      ComChaveUnica(x, key, k);
    } else if LexLe(key(s[0]), key(x)) {
      InsertEstavel(x, s[1..], key, k);
      EstavelAposCabeca(s[0], s[1..], Insert(x, s[1..], key), x, key, k);
      assert s == [s[0]] + s[1..];
    } else {
      EstavelNaFrente(x, s, key, k);
    }
  }

  lemma ComChaveUnica<T>(x: T, key: T -> seq<int>, k: seq<int>)
    ensures ComChave([x], key, k) == (if key(x) == k then [x] else [])
  {
    assert [x][1..] == [];
  }

  lemma EstavelAposCabeca<T>(h: T, s: seq<T>, t: seq<T>, x: T, key: T -> seq<int>, k: seq<int>)
    requires ComChave(t, key, k) == ComChave(s, key, k) + (if key(x) == k then [x] else [])
    ensures ComChave([h] + t, key, k) == ComChave([h] + s, key, k) + (if key(x) == k then [x] else [])
  {
    assert ([h] + t)[0] == h && ([h] + t)[1..] == t;
    assert ([h] + s)[0] == h && ([h] + s)[1..] == s;
  }

  /** An element placed before a sorted sequence whose first key is greater than its own is the first with its key. */
  lemma EstavelNaFrente<T>(x: T, s: seq<T>, key: T -> seq<int>, k: seq<int>)
    requires SortedBy(s, key) && s != [] && !LexLe(key(s[0]), key(x))
    ensures ComChave([x] + s, key, k) == ComChave(s, key, k) + (if key(x) == k then [x] else [])
  {
    assert ([x] + s)[0] == x && ([x] + s)[1..] == s;
    if key(x) == k {
      LexLeReflexive(k);
      forall i | 0 <= i < |s| ensures key(s[i]) != k {
        if i > 0 {
          assert LexLe(key(s[0]), key(s[i]));
        }
      }
      ComChaveVazia(s, key, k);
    }
  }

  /** `OrderBy` is stable: the elements with any one key keep their relative order. */
  lemma {:induction false} SortByEstavel<T>(s: seq<T>, key: T -> seq<int>, k: seq<int>)
    ensures ComChave(SortBy(s, key), key, k) == ComChave(s, key, k)
    decreases |s|
  {
    if s != [] {
      var p, x := s[..|s| - 1], s[|s| - 1];
      assert s == p + [x];
      var ordenado := SortBy(p, key);
      SortByEstavel(p, key, k);
      InsertEstavel(x, ordenado, key, k);
      EstavelNoFim(p, ordenado, Insert(x, ordenado, key), x, key, k);
    }
  }

  lemma EstavelNoFim<T>(p: seq<T>, a: seq<T>, b: seq<T>, x: T, key: T -> seq<int>, k: seq<int>)
    requires ComChave(a, key, k) == ComChave(p, key, k)
    requires ComChave(b, key, k) == ComChave(a, key, k) + (if key(x) == k then [x] else [])
    ensures ComChave(b, key, k) == ComChave(p + [x], key, k)
  {
    ComChaveConcat(p, [x], key, k);
    ComChaveUnica(x, key, k);
  }
}
