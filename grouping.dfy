/**
 * `GroupBy(key).Select(g => new { key = g.Key, cantidad = g.Count() })` and
 * `Count(predicate)` over a column, with groups listed in order of first appearance.
 */
module Grouping {

  /** The number of occurrences of `k` in `ks`. */
  function Count<K(==)>(ks: seq<K>, k: K): (n: nat)
    ensures n <= |ks|
    ensures n > 0 <==> k in ks
  {
    if ks == [] then 0
    else
      assert ks == ks[..|ks| - 1] + [ks[|ks| - 1]];
      Count(ks[..|ks| - 1], k) + (if ks[|ks| - 1] == k then 1 else 0)
  }

  /** Every element is either `true` or `false`: the two counts make up the length. */
  lemma {:induction false} CountBoth(bs: seq<bool>)
    ensures Count(bs, true) + Count(bs, false) == |bs|
  {
    if bs != [] {
      var init := bs[..|bs| - 1];
      CountBoth(init);
      assert Count(bs, true) == Count(init, true) + (if bs[|bs| - 1] then 1 else 0);
      assert Count(bs, false) == Count(init, false) + (if bs[|bs| - 1] then 0 else 1);
    }
  }

  /** The number of elements of `ks` whose normal form under `norm` is `n`. */
  function CountBy<K, N(==)>(ks: seq<K>, norm: K -> N, n: N): (c: nat)
    ensures c <= |ks|
    ensures c > 0 <==> exists i :: 0 <= i < |ks| && norm(ks[i]) == n
  {
    if ks == [] then 0
    else
      var last := |ks| - 1;
      var c0 := CountBy(ks[..last], norm, n);
      assert forall i :: 0 <= i < last ==> ks[..last][i] == ks[i];
      c0 + (if norm(ks[last]) == n then 1 else 0)
  }

  /**
   * A group of the rows whose keys share one normal form: `clave` is one of
   * those keys, and `cantidad` the number of rows.
   */
  datatype Grupo<K> = Grupo(clave: K, cantidad: nat)

  /** The sum of the group sizes. */
  function Total<K>(g: seq<Grupo<K>>): nat {
    if g == [] then 0 else g[0].cantidad + Total(g[1..])
  }

  ghost predicate ClavesDistintas<K, N>(g: seq<Grupo<K>>, norm: K -> N) {
    forall i, j :: 0 <= i < j < |g| ==> norm(g[i].clave) != norm(g[j].clave)
  }

  /** The size of the group whose key has normal form `n`, 0 when there is none. */
  function CantidadDe<K, N(==)>(g: seq<Grupo<K>>, norm: K -> N, n: N): nat {
    if g == [] then 0 else if norm(g[0].clave) == n then g[0].cantidad else CantidadDe(g[1..], norm, n)
  }

  /**
   * Counts one more `k`: the group whose key has `k`'s normal form grows by one,
   * or a new group of one, keyed `k`, is appended.
   */
  function Agregar<K, N(==)>(g: seq<Grupo<K>>, norm: K -> N, k: K): (r: seq<Grupo<K>>)
    ensures Total(r) == Total(g) + 1
    ensures |r| == |g| || (|r| == |g| + 1 && r[|g|] == Grupo(k, 1))
    ensures forall i :: 0 <= i < |g| ==> r[i].clave == g[i].clave && r[i].cantidad >= g[i].cantidad
    ensures |r| == |g| + 1 ==> forall i :: 0 <= i < |g| ==> norm(g[i].clave) != norm(k)
  {
    if g == [] then [Grupo(k, 1)]
    else if norm(g[0].clave) == norm(k) then
      var r := [g[0].(cantidad := g[0].cantidad + 1)] + g[1..];
      assert r[1..] == g[1..];
      r
    else
      var rest := Agregar(g[1..], norm, k);
      var r := [g[0]] + rest;
      assert r[1..] == rest;
      r
  }

  /** With distinct normal forms, `Agregar` keeps them distinct and adds one to exactly the size of `k`'s group. */
  lemma {:induction false} AgregarCuenta<K, N(!new)>(g: seq<Grupo<K>>, norm: K -> N, k: K)
    requires ClavesDistintas(g, norm)
    ensures ClavesDistintas(Agregar(g, norm, k), norm)
    ensures forall n :: CantidadDe(Agregar(g, norm, k), norm, n) == CantidadDe(g, norm, n) + (if n == norm(k) then 1 else 0)
  {
    var r := Agregar(g, norm, k);
    if g != [] {
      if norm(g[0].clave) == norm(k) {
        assert r[1..] == g[1..];
        NoClaveNoCantidad(g[1..], norm, norm(k));
      } else {
        AgregarCuenta(g[1..], norm, k);
        assert r[1..] == Agregar(g[1..], norm, k);
      }
    }
  }

  /** Without a group for normal form `n` its size reads as 0. */
  lemma {:induction false} NoClaveNoCantidad<K, N>(g: seq<Grupo<K>>, norm: K -> N, n: N)
    requires forall i :: 0 <= i < |g| ==> norm(g[i].clave) != n
    ensures CantidadDe(g, norm, n) == 0
  {
    if g != [] {
      NoClaveNoCantidad(g[1..], norm, n);
    }
  }

  /** The groups of `ks` under `norm`, built one element at a time. */
  function GroupCount<K, N(==)>(ks: seq<K>, norm: K -> N): (g: seq<Grupo<K>>)
    ensures Total(g) == |ks|
  {
    if ks == [] then [] else Agregar(GroupCount(ks[..|ks| - 1], norm), norm, ks[|ks| - 1])
  }

  /**
   * The groups have distinct normal forms, each group is non-empty and keyed by
   * one of the elements, and the group of any normal form `n` has exactly as
   * many members as `ks` has elements of that normal form.
   */
  lemma {:induction false} GroupCountMeaning<K, N(!new)>(ks: seq<K>, norm: K -> N)
    ensures ClavesDistintas(GroupCount(ks, norm), norm)
    ensures forall i :: 0 <= i < |GroupCount(ks, norm)| ==> GroupCount(ks, norm)[i].cantidad >= 1
    ensures forall i :: 0 <= i < |GroupCount(ks, norm)| ==> GroupCount(ks, norm)[i].clave in ks
    ensures forall n :: CantidadDe(GroupCount(ks, norm), norm, n) == CountBy(ks, norm, n)
  {
    if ks != [] {
      var init := ks[..|ks| - 1];
      GroupCountMeaning(init, norm);
      AgregarCuenta(GroupCount(init, norm), norm, ks[|ks| - 1]);
      assert forall x :: x in init ==> x in ks;
    }
  }

  /** With distinct normal forms, a group's size is what `CantidadDe` reads for its key. */
  lemma {:induction false} CantidadDeGrupo<K, N>(g: seq<Grupo<K>>, norm: K -> N, i: nat)
    requires ClavesDistintas(g, norm) && i < |g|
    ensures CantidadDe(g, norm, norm(g[i].clave)) == g[i].cantidad
  {
    if i > 0 {
      CantidadDeGrupo(g[1..], norm, i - 1);
    }
  }

  /** Every group's key is one of the elements, and `cantidad` elements share its normal form. */
  lemma GroupsAreCounts<K, N(!new)>(ks: seq<K>, norm: K -> N, i: nat)
    requires i < |GroupCount(ks, norm)|
    ensures GroupCount(ks, norm)[i].cantidad == CountBy(ks, norm, norm(GroupCount(ks, norm)[i].clave))
    ensures GroupCount(ks, norm)[i].clave in ks
  {
    GroupCountMeaning(ks, norm);
    CantidadDeGrupo(GroupCount(ks, norm), norm, i);
  }
}
