// Kotlin's `sumOf` in its two overloads: over `Int` selectors and over
// `Double` selectors (the latter modelled on `real`).
module Sumas {

  /** `sumOf { f(it) }` with a `Double` selector. */
  function SumaR<T>(s: seq<T>, f: T -> real): real {
    if s == [] then 0.0 else f(s[0]) + SumaR(s[1..], f)
  }

  /** `sumOf { f(it) }` with an `Int` selector. */
  function SumaZ<T>(s: seq<T>, f: T -> int): int {
    if s == [] then 0 else f(s[0]) + SumaZ(s[1..], f)
  }

  lemma {:induction false} SumaRConcat<T>(a: seq<T>, b: seq<T>, f: T -> real)
    ensures SumaR(a + b, f) == SumaR(a, f) + SumaR(b, f)
  {
    if a != [] {
      assert (a + b)[1..] == a[1..] + b;
      SumaRConcat(a[1..], b, f);
    } else {
      assert a + b == b;
    }
  }

  lemma {:induction false} SumaZConcat<T>(a: seq<T>, b: seq<T>, f: T -> int)
    ensures SumaZ(a + b, f) == SumaZ(a, f) + SumaZ(b, f)
  {
    if a != [] {
      assert (a + b)[1..] == a[1..] + b;
      SumaZConcat(a[1..], b, f);
    } else {
      assert a + b == b;
    }
  }

  /** The first element of `a` sits somewhere in a permutation `b` of it, and
      taking it out of both leaves two permutations of each other. */
  lemma QuitarPrimero<T>(a: seq<T>, b: seq<T>) returns (j: nat)
    requires a != [] && multiset(a) == multiset(b)
    ensures j < |b| && b[j] == a[0]
    ensures multiset(a[1..]) == multiset(b[..j] + b[j + 1..])
  {
    var x := a[0];
    assert x in multiset(b);
    j :| 0 <= j < |b| && b[j] == x;
    assert b == b[..j] + ([x] + b[j + 1..]);
    assert a == [x] + a[1..];
    assert multiset(a[1..]) == multiset(a) - multiset{x};
    assert multiset(b[..j] + b[j + 1..]) == multiset(b) - multiset{x};
  }

  /** A sum does not depend on the order of the elements. */
  lemma {:induction false} SumaRPermutacion<T>(a: seq<T>, b: seq<T>, f: T -> real)
    requires multiset(a) == multiset(b)
    ensures SumaR(a, f) == SumaR(b, f)
  {
    if a != [] {
      var j := QuitarPrimero(a, b);
      SumaRPermutacion(a[1..], b[..j] + b[j + 1..], f);
      assert SumaR(b, f) == f(b[j]) + SumaR(b[..j] + b[j + 1..], f) by {
        assert b == b[..j] + ([b[j]] + b[j + 1..]);
        SumaRConcat(b[..j], [b[j]] + b[j + 1..], f);
        assert ([b[j]] + b[j + 1..])[1..] == b[j + 1..];
        SumaRConcat(b[..j], b[j + 1..], f);
      }
    } else {
      assert |b| == |multiset(b)| == 0;
    }
  }

  /** A sum does not depend on the order of the elements. */
  lemma {:induction false} SumaZPermutacion<T>(a: seq<T>, b: seq<T>, f: T -> int)
    requires multiset(a) == multiset(b)
    ensures SumaZ(a, f) == SumaZ(b, f)
  {
    if a != [] {
      var j := QuitarPrimero(a, b);
      SumaZPermutacion(a[1..], b[..j] + b[j + 1..], f);
      assert SumaZ(b, f) == f(b[j]) + SumaZ(b[..j] + b[j + 1..], f) by {
        assert b == b[..j] + ([b[j]] + b[j + 1..]);
        SumaZConcat(b[..j], [b[j]] + b[j + 1..], f);
        assert ([b[j]] + b[j + 1..])[1..] == b[j + 1..];
        SumaZConcat(b[..j], b[j + 1..], f);
      }
    } else {
      assert |b| == |multiset(b)| == 0;
    }
  }

  /** Non-negative terms give a non-negative sum. */
  lemma {:induction false} SumaRNoNegativa<T>(s: seq<T>, f: T -> real)
    requires forall i :: 0 <= i < |s| ==> f(s[i]) >= 0.0
    ensures SumaR(s, f) >= 0.0
  {
    if s != [] {
      assert forall i :: 0 <= i < |s[1..]| ==> s[1..][i] == s[i + 1];
      SumaRNoNegativa(s[1..], f);
    }
  }
}
