/** Ordering of query results (`ORDER BY <key> DESC`). */
module Orden {

  /** `s` is ordered by `clave`, largest first. */
  ghost predicate Descendente<T>(s: seq<T>, clave: T -> int) {
    forall i, j :: 0 <= i < j < |s| ==> clave(s[i]) >= clave(s[j])
  }

  /** Inserts `x` into a sequence already ordered by `clave`, largest first. */
  function InsertarDescendente<T>(s: seq<T>, x: T, clave: T -> int): (r: seq<T>)
    requires Descendente(s, clave)
    ensures Descendente(r, clave)
    ensures multiset(r) == multiset(s) + multiset{x}
  {
    if s == [] || clave(x) >= clave(s[0]) then
      [x] + s
    else
      var resto := InsertarDescendente(s[1..], x, clave);
      assert s == [s[0]] + s[1..];
      CotaDelPrimero(s, x, clave, resto);
      [s[0]] + resto
  }

  /** Every element of `s[1..]` plus `x` ranks no higher than the head of `s`. */
  lemma CotaDelPrimero<T>(s: seq<T>, x: T, clave: T -> int, resto: seq<T>)
    requires Descendente(s, clave) && s != [] && clave(x) < clave(s[0])
    requires multiset(resto) == multiset(s[1..]) + multiset{x}
    ensures forall k :: 0 <= k < |resto| ==> clave(resto[k]) <= clave(s[0])
  {
    forall k | 0 <= k < |resto|
      ensures clave(resto[k]) <= clave(s[0])
    {
      var y := resto[k];
      assert y in multiset(resto);
      if y != x {
        assert y in s[1..];
      }
    }
  }
}
