// Kotlin's `filter` and `distinct` over lists, with the properties the screens
// rely on: a filter keeps order, `distinct` keeps first occurrences; and the
// first match of a scan, as a `LIMIT 1` query returns it.
module Listas {
  import opened Opciones

  /** `filter(p)`. */
  function Filtrar<T(!new)>(s: seq<T>, p: T -> bool): (r: seq<T>)
    ensures |r| <= |s|
    ensures forall x :: x in r <==> x in s && p(x)
  {
    if s == [] then []
    else (if p(s[0]) then [s[0]] else []) + Filtrar(s[1..], p)
  }

  /** `a` is `b` with some elements left out, order kept. */
  predicate EsSubsecuencia<T(==)>(a: seq<T>, b: seq<T>)
    decreases |b|
  {
    a == [] || (b != [] && ((a[0] == b[0] && EsSubsecuencia(a[1..], b[1..])) || EsSubsecuencia(a, b[1..])))
  }

  /** A filter keeps the order of what it keeps. */
  lemma {:induction false} FiltrarEsSubsecuencia<T(!new)>(s: seq<T>, p: T -> bool)
    ensures EsSubsecuencia(Filtrar(s, p), s)
  {
    if s != [] {
      FiltrarEsSubsecuencia(s[1..], p);
      var r := Filtrar(s, p);
      if p(s[0]) {
        assert r[0] == s[0] && r[1..] == Filtrar(s[1..], p);
      } else {
        assert r == Filtrar(s[1..], p);
      }
    }
  }

  /** A filter whose predicate holds everywhere keeps everything. */
  lemma {:induction false} FiltrarTodo<T(!new)>(s: seq<T>, p: T -> bool)
    requires forall i :: 0 <= i < |s| ==> p(s[i])
    ensures Filtrar(s, p) == s
  {
    if s != [] {
      assert forall i :: 0 <= i < |s[1..]| ==> s[1..][i] == s[i + 1];
      FiltrarTodo(s[1..], p);
    }
  }

  predicate SinRepetidos<T(==)>(s: seq<T>) {
    forall i, j :: 0 <= i < j < |s| ==> s[i] != s[j]
  }

  /** `distinct()`: each element once, at the place it first occurs. */
  function Distintas<T(==,!new)>(s: seq<T>): (r: seq<T>)
    ensures forall x :: x in r <==> x in s
    ensures SinRepetidos(r)
    ensures |r| <= |s|
    decreases |s|
  {
    if s == [] then []
    else
      var d := Distintas(s[..|s| - 1]);
      assert s == s[..|s| - 1] + [s[|s| - 1]];
      if s[|s| - 1] in d then d else d + [s[|s| - 1]]
  }

  /** `indexOf(x)` for an element that is present. */
  function PrimeraPosicion<T(==)>(s: seq<T>, x: T): (i: nat)
    requires x in s
    ensures i < |s| && s[i] == x
    ensures forall k :: 0 <= k < i ==> s[k] != x
  {
    if s[0] == x then 0 else 1 + PrimeraPosicion(s[1..], x)
  }

  /** The first occurrence in a prefix is the first occurrence in the whole. */
  lemma {:induction false} PrimeraPosicionPrefijo<T>(s: seq<T>, n: nat, x: T)
    requires n <= |s| && x in s[..n]
    ensures PrimeraPosicion(s[..n], x) == PrimeraPosicion(s, x)
  {
    var i := PrimeraPosicion(s[..n], x);
    var j := PrimeraPosicion(s, x);
    assert s[..n][i] == s[i];
    assert j <= i;
    assert s[..n][j] == s[j];
  }

  /** `distinct()` lists elements in the order of their first occurrence. */
  lemma {:induction false} DistintasEnOrden<T(!new)>(s: seq<T>)
    ensures forall i, j :: 0 <= i < j < |Distintas(s)| ==>
      PrimeraPosicion(s, Distintas(s)[i]) < PrimeraPosicion(s, Distintas(s)[j])
  {
    if s != [] {
      var n := |s| - 1;
      var pre := s[..n];
      var d := Distintas(pre);
      DistintasEnOrden(pre);
      var r := Distintas(s);
      forall i, j | 0 <= i < j < |r| ensures PrimeraPosicion(s, r[i]) < PrimeraPosicion(s, r[j]) {
        assert r[i] in d;
        PrimeraPosicionPrefijo(s, n, r[i]);
        if j < |d| {
          PrimeraPosicionPrefijo(s, n, r[j]);
        } else {
          assert r[j] == s[n] && s[n] !in pre;
          assert PrimeraPosicion(s, r[j]) == n;
        }
      }
    }
  }

  /** A non-empty list of one repeated value has that value as its only
      distinct element. */
  lemma {:induction false} DistintasConstante<T(!new)>(s: seq<T>, c: T)
    requires s != []
    requires forall i :: 0 <= i < |s| ==> s[i] == c
    ensures Distintas(s) == [c]
    decreases |s|
  {
    if |s| > 1 {
      DistintasConstante(s[..|s| - 1], c);
    }
  }

  /** The first element satisfying `p`, if any. */
  function Primero<T>(s: seq<T>, p: T -> bool): (r: Option<T>)
    ensures r.None? <==> forall i :: 0 <= i < |s| ==> !p(s[i])
    ensures r.Some? ==> exists i :: 0 <= i < |s| && s[i] == r.value && p(s[i]) &&
                                    forall j :: 0 <= j < i ==> !p(s[j])
  {
    if s == [] then None
    else if p(s[0]) then Some(s[0])
    else
      var r := Primero(s[1..], p);
      assert forall i :: 0 < i < |s| ==> s[i] == s[1..][i - 1];
      r
  }

  /** Appending an element changes the first match only when there was none. */
  lemma {:induction false} PrimeroAlFinal<T>(s: seq<T>, x: T, p: T -> bool)
    ensures Primero(s + [x], p) == match Primero(s, p)
                                   case Some(y) => Some(y)
                                   case None => if p(x) then Some(x) else None
  {
    if s != [] {
      assert (s + [x])[1..] == s[1..] + [x];
      PrimeroAlFinal(s[1..], x, p);
    }
  }
}
