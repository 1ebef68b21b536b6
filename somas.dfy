/**
 * Sums of an integer-valued term over a sequence (LINQ's `Sum`, and the running
 * totals of the screens' loops), with the facts the aggregations rest on:
 * concatenation, reordering, replacing one element, filtering and partitioning.
 */
module Somas {

  /** The sum of `f` over `xs`, added up from the first element to the last. */
  function Soma<T>(xs: seq<T>, f: T -> int): int
    decreases |xs|
  {
    if xs == [] then 0 else Soma(xs[..|xs| - 1], f) + f(xs[|xs| - 1])
  }

  lemma {:induction false} SomaConcat<T>(a: seq<T>, b: seq<T>, f: T -> int)
    ensures Soma(a + b, f) == Soma(a, f) + Soma(b, f)
    decreases |b|
  {
    if b == [] {
      assert a + b == a;
    } else {
      assert (a + b)[..|a + b| - 1] == a + b[..|b| - 1];
      assert (a + b)[|a + b| - 1] == b[|b| - 1];
      SomaConcat(a, b[..|b| - 1], f);
    }
  }

  lemma SomaUnitaria<T>(x: T, f: T -> int)
    ensures Soma([x], f) == f(x)
  {
    assert [x][..0] == [];
  }

  /** A sum does not depend on the order of the elements. */
  lemma {:induction false} SomaPermutacao<T>(a: seq<T>, b: seq<T>, f: T -> int)
    requires multiset(a) == multiset(b)
    ensures Soma(a, f) == Soma(b, f)
    decreases |a|
  {
    if a != [] {
      var x := a[|a| - 1];
      assert a == a[..|a| - 1] + [x];
      assert x in multiset(b);
      var k :| 0 <= k < |b| && b[k] == x;
      assert b == b[..k] + [x] + b[k + 1..];
      var b' := b[..k] + b[k + 1..];
      assert multiset(b') == multiset(b) - multiset{x};
      assert multiset(a[..|a| - 1]) == multiset(a) - multiset{x};
      SomaPermutacao(a[..|a| - 1], b', f);
      SomaConcat(b[..k] + [x], b[k + 1..], f);
      SomaConcat(b[..k], [x], f);
      SomaConcat(b[..k], b[k + 1..], f);
      SomaUnitaria(x, f);
    }
  }

  /** Replacing one element changes a sum by the difference of that element's terms. */
  lemma SomaSubstituir<T>(xs: seq<T>, k: int, n: T, f: T -> int)
    requires 0 <= k < |xs|
    ensures Soma(xs[k := n], f) == Soma(xs, f) - f(xs[k]) + f(n)
  {
    assert xs == xs[..k] + [xs[k]] + xs[k + 1..];
    assert xs[k := n] == xs[..k] + [n] + xs[k + 1..];
    SomaConcat(xs[..k] + [xs[k]], xs[k + 1..], f);
    SomaConcat(xs[..k] + [n], xs[k + 1..], f);
    SomaConcat(xs[..k], [xs[k]], f);
    SomaConcat(xs[..k], [n], f);
    SomaUnitaria(n, f);
    SomaUnitaria(xs[k], f);
  }

  /**
   * Sums over two sequences of the same length agree when their terms agree
   * position by position (in particular, two terms that agree on every element
   * of one sequence give the same sum over it).
   */
  lemma {:induction false} SomaCorrespondente<A, B>(xs: seq<A>, ys: seq<B>, f: A -> int, g: B -> int)
    requires |xs| == |ys| && forall i :: 0 <= i < |xs| ==> f(xs[i]) == g(ys[i])
    ensures Soma(xs, f) == Soma(ys, g)
    decreases |xs|
  {
    if xs != [] {
      SomaCorrespondente(xs[..|xs| - 1], ys[..|ys| - 1], f, g);
    }
  }

  /** A term that is the difference of two others sums to the difference of their sums. */
  lemma {:induction false} SomaDiferenca<T>(xs: seq<T>, f: T -> int, g: T -> int, h: T -> int)
    requires forall i :: 0 <= i < |xs| ==> h(xs[i]) == f(xs[i]) - g(xs[i])
    ensures Soma(xs, h) == Soma(xs, f) - Soma(xs, g)
    decreases |xs|
  {
    if xs != [] {
      SomaDiferenca(xs[..|xs| - 1], f, g, h);
    }
  }

  /** `Where(p)`: the elements satisfying `p`, in their order. */
  function Filtrar<T(!new)>(xs: seq<T>, p: T -> bool): (r: seq<T>)
    ensures |r| <= |xs|
    ensures forall i :: 0 <= i < |r| ==> p(r[i])
    ensures forall x :: x in r <==> x in xs && p(x)
    decreases |xs|
  {
    if xs == [] then []
    else
      var x := xs[|xs| - 1];
      assert xs == xs[..|xs| - 1] + [x];
      Filtrar(xs[..|xs| - 1], p) + (if p(x) then [x] else [])
  }

  /** Filtering one element more appends it when it is kept. */
  lemma FiltrarPasso<T(!new)>(xs: seq<T>, i: int, p: T -> bool)
    requires 0 <= i < |xs|
    ensures Filtrar(xs[..i + 1], p) == Filtrar(xs[..i], p) + (if p(xs[i]) then [xs[i]] else [])
  {
    assert xs[..i + 1][..i] == xs[..i];
  }

  /** The elements of a non-empty sequence: those before the last, and the last. */
  lemma MultisetUltimo<T>(xs: seq<T>)
    requires xs != []
    ensures multiset(xs) == multiset(xs[..|xs| - 1]) + multiset{xs[|xs| - 1]}
  {
    assert xs == xs[..|xs| - 1] + [xs[|xs| - 1]];
  }

  /** Two complementary filters split a sequence: together they hold each element exactly as often. */
  lemma {:induction false} FiltrarParticao<T(!new)>(xs: seq<T>, p: T -> bool, q: T -> bool)
    requires forall i :: 0 <= i < |xs| ==> q(xs[i]) == !p(xs[i])
    ensures multiset(Filtrar(xs, p)) + multiset(Filtrar(xs, q)) == multiset(xs)
    decreases |xs|
  {
    if xs != [] {
      var n := |xs| - 1;
      var ys := xs[..n];
      var x := xs[n];
      assert forall i :: 0 <= i < |ys| ==> ys[i] == xs[i];
      FiltrarParticao(ys, p, q);
      FiltrarUltimo(xs, p);
      FiltrarUltimo(xs, q);
      MultisetUltimo(xs);
    }
  }

  /** Filtering a non-empty sequence adds its last element, when kept, to the elements filtered before it. */
  lemma FiltrarUltimo<T(!new)>(xs: seq<T>, p: T -> bool)
    requires xs != []
    ensures multiset(Filtrar(xs, p)) ==
      multiset(Filtrar(xs[..|xs| - 1], p)) + (if p(xs[|xs| - 1]) then multiset{xs[|xs| - 1]} else multiset{})
  {
  }

  /** `Where(p).Sum(f)` is the sum of a term that is `f` on the elements satisfying `p` and 0 elsewhere. */
  lemma {:induction false} SomaFiltrada<T(!new)>(xs: seq<T>, p: T -> bool, f: T -> int, g: T -> int)
    requires forall i :: 0 <= i < |xs| ==> g(xs[i]) == if p(xs[i]) then f(xs[i]) else 0
    ensures Soma(Filtrar(xs, p), f) == Soma(xs, g)
    decreases |xs|
  {
    if xs != [] {
      var x := xs[|xs| - 1];
      SomaFiltrada(xs[..|xs| - 1], p, f, g);
      SomaConcat(Filtrar(xs[..|xs| - 1], p), if p(x) then [x] else [], f);
      if p(x) {
        SomaUnitaria(x, f);
      }
    }
  }

  /** The elements of `xs` whose key is `k`: one group of a `GroupBy`, in the order of `xs`. */
  function Grupo<T(!new), K(==)>(xs: seq<T>, chave: T -> K, k: K): (r: seq<T>)
    ensures forall i :: 0 <= i < |r| ==> chave(r[i]) == k
    ensures forall x :: x in r <==> x in xs && chave(x) == k
  {
    Filtrar(xs, x => chave(x) == k)
  }

  /** The sum over the groups `ks` of each group's sum. */
  function SomaGrupos<T(!new), K(==)>(xs: seq<T>, chave: T -> K, ks: seq<K>, f: T -> int): int
    decreases |ks|
  {
    if ks == [] then 0 else SomaGrupos(xs, chave, ks[..|ks| - 1], f) + Soma(Grupo(xs, chave, ks[|ks| - 1]), f)
  }

  /**
   * Partition: when `ks` lists every key of `xs` exactly once, the group sums add
   * up to the sum over all of `xs`.
   */
  lemma {:induction false} SomaGruposParticao<T(!new), K>(xs: seq<T>, chave: T -> K, ks: seq<K>, f: T -> int)
    requires forall i, j :: 0 <= i < j < |ks| ==> ks[i] != ks[j]
    requires forall i :: 0 <= i < |xs| ==> chave(xs[i]) in ks
    ensures SomaGrupos(xs, chave, ks, f) == Soma(xs, f)
    decreases |xs|
  {
    if xs == [] {
      SomaGruposVazio(chave, ks, f);
    } else {
      var ys := xs[..|xs| - 1];
      var x := xs[|xs| - 1];
      assert xs == ys + [x];
      assert forall i :: 0 <= i < |ys| ==> ys[i] == xs[i];
      SomaGruposParticao(ys, chave, ks, f);
      SomaGruposUltimo(ys, x, chave, ks, f);
    }
  }

  lemma {:induction false} SomaGruposVazio<T(!new), K>(chave: T -> K, ks: seq<K>, f: T -> int)
    ensures SomaGrupos([], chave, ks, f) == 0
    decreases |ks|
  {
    if ks != [] {
      SomaGruposVazio(chave, ks[..|ks| - 1], f);
    }
  }

  /** Appending `x` adds `f(x)` to the sum of the group of `k` when `x` has key `k`, and nothing otherwise. */
  lemma SomaGrupoUltimo<T(!new), K>(ys: seq<T>, x: T, chave: T -> K, k: K, f: T -> int)
    ensures Soma(Grupo(ys + [x], chave, k), f) == Soma(Grupo(ys, chave, k), f) + (if chave(x) == k then f(x) else 0)
  {
    assert (ys + [x])[..|ys + [x]| - 1] == ys;
    var g := Grupo(ys, chave, k);
    assert Grupo(ys + [x], chave, k) == g + (if chave(x) == k then [x] else []);
    SomaConcat(g, if chave(x) == k then [x] else [], f);
    if chave(x) == k {
      SomaUnitaria(x, f);
    }
  }

  /** Appending `x` adds `f(x)` to the one group of its key, when that key occurs once in `ks`. */
  lemma {:induction false} SomaGruposUltimo<T(!new), K>(ys: seq<T>, x: T, chave: T -> K, ks: seq<K>, f: T -> int)
    requires forall i, j :: 0 <= i < j < |ks| ==> ks[i] != ks[j]
    ensures SomaGrupos(ys + [x], chave, ks, f)
         == SomaGrupos(ys, chave, ks, f) + (if chave(x) in ks then f(x) else 0)
    decreases |ks|
  {
    if ks != [] {
      var ks' := ks[..|ks| - 1];
      var k := ks[|ks| - 1];
      assert forall i, j :: 0 <= i < j < |ks'| ==> ks'[i] != ks'[j];
      SomaGruposUltimo(ys, x, chave, ks', f);
      SomaGrupoUltimo(ys, x, chave, k, f);
      assert chave(x) in ks <==> chave(x) in ks' || chave(x) == k by {
        assert ks == ks' + [k];
      }
      if chave(x) == k {
        assert chave(x) !in ks' by {
          forall i | 0 <= i < |ks'| ensures ks'[i] != k {
            assert ks'[i] == ks[i];
          }
        }
      }
    }
  }

  /** `SomaGrupos` is the plain sum, over the keys, of each group's sum. */
  lemma {:induction false} SomaGruposPorChave<T(!new), K>(xs: seq<T>, chave: T -> K, ks: seq<K>, f: T -> int)
    ensures SomaGrupos(xs, chave, ks, f) == Soma(ks, k => Soma(Grupo(xs, chave, k), f))
    decreases |ks|
  {
    if ks != [] {
      SomaGruposPorChave(xs, chave, ks[..|ks| - 1], f);
    }
  }
}
