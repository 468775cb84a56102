// Thousands grouping of prices: `toInt()`, then `toString()`, `reversed()`,
// `chunked(3)`, `joinToString(".")`, `reversed()` (Producto.kt:23-26 and
// CarritoScreen.kt:226-234 run the same chain).
module Formato {
  import opened Texto

  /** `Double.toInt()`: truncation toward zero. */
  function TruncarAEntero(x: real): (n: int)
    ensures x >= 0.0 ==> 0 <= n && n as real <= x < n as real + 1.0
    ensures x < 0.0 ==> n <= 0 && n as real - 1.0 < x <= n as real
  {
    if x >= 0.0 then x.Floor else -((-x).Floor)
  }

  /** `chunked(n)`: consecutive pieces of length `n`, the last one possibly shorter. */
  function Trozos<T>(s: seq<T>, n: nat): seq<seq<T>>
    requires n > 0
    decreases |s|
  {
    if s == [] then [] else if |s| <= n then [s] else [s[..n]] + Trozos(s[n..], n)
  }

  /** `joinToString(sep)`. */
  function Unir(sep: string, partes: seq<string>): string {
    if |partes| == 0 then ""
    else if |partes| == 1 then partes[0]
    else partes[0] + sep + Unir(sep, partes[1..])
  }

  /** The chain as the source writes it. */
  function AgruparMiles(s: string): string {
    Invertir(Unir(".", Trozos(Invertir(s), 3)))
  }

  /** Reference reading: groups of three digits counted from the right. */
  function Agrupado(s: string): string {
    if |s| <= 3 then s else Agrupado(s[..|s| - 3]) + "." + s[|s| - 3..]
  }

  lemma InvertirConcat<T>(a: seq<T>, b: seq<T>)
    ensures Invertir(a + b) == Invertir(b) + Invertir(a)
  {
    var l, r := Invertir(a + b), Invertir(b) + Invertir(a);
    assert |l| == |r|;
    forall i | 0 <= i < |l| ensures l[i] == r[i] {
      if i < |b| {} else {}
    }
  }

  lemma InvertirInvolutiva<T>(a: seq<T>)
    ensures Invertir(Invertir(a)) == a
  {
  }

  /** The reverse/chunk/join/reverse chain groups the digits in threes from the
      right. */
  lemma {:induction false} AgruparMilesEsAgrupado(s: string)
    ensures AgruparMiles(s) == Agrupado(s)
  {
    if |s| <= 3 {
      InvertirInvolutiva(s);
    } else {
      var t, u := s[..|s| - 3], s[|s| - 3..];
      assert s == t + u;
      InvertirConcat(t, u);
      var v := Invertir(s);
      assert v[..3] == Invertir(u) && v[3..] == Invertir(t);
      var resto := Trozos(Invertir(t), 3);
      assert Trozos(v, 3) == [Invertir(u)] + resto;
      assert |resto| >= 1;
      assert Unir(".", Trozos(v, 3)) == Invertir(u) + ("." + Unir(".", resto));
      InvertirConcat(Invertir(u), "." + Unir(".", resto));
      InvertirConcat(".", Unir(".", resto));
      InvertirInvolutiva(u);
      AgruparMilesEsAgrupado(t);
    }
  }

  function QuitarPuntos(s: string): (r: string)
    ensures '.' !in r
  {
    if s == [] then [] else (if s[0] == '.' then [] else [s[0]]) + QuitarPuntos(s[1..])
  }

  lemma {:induction false} QuitarPuntosConcat(a: string, b: string)
    ensures QuitarPuntos(a + b) == QuitarPuntos(a) + QuitarPuntos(b)
  {
    if a != [] {
      assert (a + b)[1..] == a[1..] + b;
      QuitarPuntosConcat(a[1..], b);
    } else {
      assert a + b == b;
    }
  }

  lemma {:induction false} QuitarPuntosSinPuntos(s: string)
    requires '.' !in s
    ensures QuitarPuntos(s) == s
  {
    if s != [] {
      assert s[0] in s;
      assert forall c :: c in s[1..] ==> c in s;
      QuitarPuntosSinPuntos(s[1..]);
    }
  }

  /** First group of one to three characters, then groups of exactly three, each
      after a ".". */
  predicate BienAgrupado(r: string)
    decreases |r|
  {
    (1 <= |r| <= 3 && '.' !in r) ||
    (|r| >= 5 && r[|r| - 4] == '.' && '.' !in r[|r| - 3..] && BienAgrupado(r[..|r| - 4]))
  }

  /** Grouping a non-empty run of digits: deleting the dots gives the run back,
      the groups have the shape above, and there is a dot exactly when the run
      is longer than three. */
  lemma AgrupadoCorrecto(s: string)
    requires |s| > 0 && '.' !in s
    ensures QuitarPuntos(Agrupado(s)) == s
    ensures BienAgrupado(Agrupado(s))
    ensures ('.' in Agrupado(s)) <==> |s| > 3
  {
    AgrupadoQuitarPuntos(s);
    AgrupadoBienAgrupado(s);
  }

  lemma {:induction false} AgrupadoQuitarPuntos(s: string)
    requires '.' !in s
    ensures QuitarPuntos(Agrupado(s)) == s
  {
    if |s| <= 3 {
      QuitarPuntosSinPuntos(s);
    } else {
      var t, u := s[..|s| - 3], s[|s| - 3..];
      assert s == t + u;
      assert '.' !in t && '.' !in u;
      AgrupadoQuitarPuntos(t);
      QuitarPuntosTrasPunto(Agrupado(t), u);
    }
  }

  /** Deleting the dots of `g + "." + u`, where `u` has none. */
  lemma {:induction false} QuitarPuntosTrasPunto(g: string, u: string)
    requires '.' !in u
    ensures QuitarPuntos(g + "." + u) == QuitarPuntos(g) + u
  {
    var punto: string := ".";
    assert punto[0] == '.' && punto[1..] == [];
    assert QuitarPuntos(punto) == [];
    QuitarPuntosConcat(g, punto);
    QuitarPuntosConcat(g + punto, u);
    QuitarPuntosSinPuntos(u);
  }

  lemma {:induction false} AgrupadoBienAgrupado(s: string)
    requires |s| > 0 && '.' !in s
    ensures BienAgrupado(Agrupado(s))
    ensures ('.' in Agrupado(s)) <==> |s| > 3
  {
    if |s| > 3 {
      var t, u := s[..|s| - 3], s[|s| - 3..];
      assert forall c :: c in t ==> c in s;
      assert forall c :: c in u ==> c in s;
      AgrupadoBienAgrupado(t);
      var r := Agrupado(s);
      assert r[..|r| - 4] == Agrupado(t) && r[|r| - 3..] == u && r[|r| - 4] == '.';
    }
  }

  function Pot10(k: nat): nat {
    if k == 0 then 1 else 10 * Pot10(k - 1)
  }

  /** The decimal text of `n` has at most `k` digits exactly when `n < 10^k`. */
  lemma {:induction false} LongitudDecimal(n: nat, k: nat)
    requires k >= 1
    ensures |NatADecimal(n)| <= k <==> n < Pot10(k)
  {
    if n >= 10 {
      assert |NatADecimal(n)| == |NatADecimal(n / 10)| + 1;
      if k == 1 {
        assert |NatADecimal(n / 10)| >= 1;
      } else {
        LongitudDecimal(n / 10, k - 1);
      }
    } else if k > 1 {
      assert Pot10(k) == 10 * Pot10(k - 1);
      PotPositiva(k - 1);
    }
  }

  lemma {:induction false} PotPositiva(k: nat)
    ensures Pot10(k) >= 1
  {
    if k > 0 { PotPositiva(k - 1); }
  }
}
