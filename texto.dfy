// The Kotlin standard-library text operations the app relies on: character
// classes, trimming, case mapping, `contains(…, ignoreCase = true)`,
// `Int.toString()` and `String.toIntOrNull()`.
//
// Kotlin classifies characters by the full Unicode tables; this model covers
// ASCII and Latin-1 (U+0000..U+00FF) plus the Unicode spaces, which is every
// character the app's own data and messages use.
module Texto {
  import opened Opciones

  // ---------------------------------------------------------------------
  // Character classes
  // ---------------------------------------------------------------------

  /** `Char.isWhitespace()`: Java whitespace plus the Unicode space separators. */
  predicate EsEspacio(c: char) {
    c == ' ' || ('\t' <= c <= '\r') || ('\U{1C}' <= c <= '\U{1F}') ||
    c == '\U{A0}' || c == '\U{1680}' || ('\U{2000}' <= c <= '\U{200A}') ||
    c == '\U{2028}' || c == '\U{2029}' || c == '\U{202F}' || c == '\U{205F}' ||
    c == '\U{3000}'
  }

  /** `CharSequence.isBlank()`: empty or only whitespace. */
  predicate EsBlanco(s: string) {
    forall i :: 0 <= i < |s| ==> EsEspacio(s[i])
  }

  /** `Char.isDigit()` restricted to the ASCII digits. */
  predicate EsDigito(c: char) {
    '0' <= c <= '9'
  }

  predicate TodosDigitos(s: string) {
    forall i :: 0 <= i < |s| ==> EsDigito(s[i])
  }

  /** `String.length`: the number of UTF-16 code units, so a character above
      U+FFFF (a surrogate pair) counts twice. */
  function Longitud(s: string): (n: nat)
    ensures |s| <= n <= 2 * |s|
    ensures n == |s| <==> forall i :: 0 <= i < |s| ==> s[i] < '\U{10000}'
  {
    if s == [] then 0
    else
      var n := (if s[0] < '\U{10000}' then 1 else 2) + Longitud(s[1..]);
      assert forall i :: 0 < i < |s| ==> s[i] == s[1..][i - 1];
      n
  }

  /** Strings of ASCII digits are as long in code units as in characters. */
  lemma LongitudDigitos(s: string)
    requires TodosDigitos(s)
    ensures Longitud(s) == |s|
  {
    assert forall i :: 0 <= i < |s| ==> s[i] < '\U{10000}' by {
      forall i | 0 <= i < |s| ensures s[i] < '\U{10000}' {
        assert EsDigito(s[i]);
      }
    }
  }

  /** An emoji followed by a space: two characters, three code units. */
  lemma LongitudEmoji()
    ensures var s := "\U{1F600} "; |s| == 2 && Longitud(s) == 3
  {
    var s := "\U{1F600} ";
    assert s[1..] == " " && s[1..][1..] == [];
  }

  /** `Char.isLetter()` on ASCII and Latin-1. */
  predicate EsLetra(c: char) {
    ('A' <= c <= 'Z') || ('a' <= c <= 'z') || c == '\U{AA}' || c == '\U{B5}' ||
    c == '\U{BA}' || ('\U{C0}' <= c <= '\U{D6}') || ('\U{D8}' <= c <= '\U{F6}') ||
    ('\U{F8}' <= c <= '\U{FF}')
  }

  /** `Char.uppercaseChar()`. */
  function MayusculaChar(c: char): char {
    if 'a' <= c <= 'z' then (c as int - 32) as char
    else if '\U{E0}' <= c <= '\U{FE}' && c != '\U{F7}' then (c as int - 32) as char
    else if c == '\U{FF}' then '\U{178}'
    else if c == '\U{B5}' then '\U{39C}'
    else c
  }

  /** `Char.lowercaseChar()`. */
  function MinusculaChar(c: char): char {
    if 'A' <= c <= 'Z' then (c as int + 32) as char
    else if '\U{C0}' <= c <= '\U{DE}' && c != '\U{D7}' then (c as int + 32) as char
    else if c == '\U{178}' then '\U{FF}'
    else if c == '\U{39C}' then '\U{3BC}'
    else c
  }

  /** `String.uppercase()` of one character: the sharp s becomes "SS", so the
      result can be longer than the input. */
  function MayusculasDe(c: char): string {
    if c == '\U{DF}' then "SS" else [MayusculaChar(c)]
  }

  /** `String.uppercase()`. */
  function Mayusculas(s: string): string {
    if s == [] then [] else MayusculasDe(s[0]) + Mayusculas(s[1..])
  }

  /** Without a sharp s, upper-casing keeps the length. */
  lemma {:induction false} MayusculasLongitud(s: string)
    requires forall i :: 0 <= i < |s| ==> s[i] != '\U{DF}'
    ensures |Mayusculas(s)| == |s|
  {
    if s != [] {
      assert forall i :: 0 <= i < |s[1..]| ==> s[1..][i] == s[i + 1];
      MayusculasLongitud(s[1..]);
    }
  }

  /** `String.lowercase()`. */
  function Minusculas(s: string): (r: string)
    ensures |r| == |s|
    ensures forall i :: 0 <= i < |s| ==> r[i] == MinusculaChar(s[i])
  {
    if s == [] then [] else [MinusculaChar(s[0])] + Minusculas(s[1..])
  }

  /** `Char.equals(other, ignoreCase = true)`. */
  predicate IgualIgnorandoMayusculas(a: char, b: char) {
    a == b || MayusculaChar(a) == MayusculaChar(b) ||
    MinusculaChar(MayusculaChar(a)) == MinusculaChar(MayusculaChar(b))
  }

  // ---------------------------------------------------------------------
  // Searching and trimming
  // ---------------------------------------------------------------------

  /** `regionMatches(i, t, 0, t.length, ignoreCase = true)`. */
  predicate CoincideEn(s: string, i: int, t: string) {
    0 <= i && i + |t| <= |s| &&
    forall j :: 0 <= j < |t| ==> IgualIgnorandoMayusculas(s[i + j], t[j])
  }

  /** `s.contains(t, ignoreCase = true)`. */
  predicate ContieneIgnorandoMayusculas(s: string, t: string) {
    exists i | 0 <= i <= |s| - |t| :: CoincideEn(s, i, t)
  }

  function QuitarEspaciosInicio(s: string): string {
    if |s| > 0 && EsEspacio(s[0]) then QuitarEspaciosInicio(s[1..]) else s
  }

  function QuitarEspaciosFin(s: string): string {
    if |s| > 0 && EsEspacio(s[|s| - 1]) then QuitarEspaciosFin(s[..|s| - 1]) else s
  }

  /** `String.trim()`. */
  function Recortar(s: string): string {
    QuitarEspaciosFin(QuitarEspaciosInicio(s))
  }

  /** `trim()` keeps a contiguous slice of the input and leaves no whitespace at
      either end; the result is empty exactly when the input is blank. */
  lemma {:induction false} RecortarEsTramo(s: string)
    ensures exists i, j :: 0 <= i <= j <= |s| && Recortar(s) == s[i..j]
    ensures var r := Recortar(s); |r| > 0 ==> !EsEspacio(r[0]) && !EsEspacio(r[|r| - 1])
    ensures Recortar(s) == [] <==> EsBlanco(s)
  {
    var a := QuitarEspaciosInicio(s);
    var i := InicioEsSufijo(s);
    var j := FinEsPrefijo(a);
    assert Recortar(s) == s[i..][..j] == s[i..i + j];
    if Recortar(s) == [] {
      assert i == |s|;
    }
  }

  /** `trim()` is idempotent. */
  lemma RecortarIdempotente(s: string)
    ensures Recortar(Recortar(s)) == Recortar(s)
  {
    RecortarEsTramo(s);
  }

  lemma {:induction false} InicioEsSufijo(s: string) returns (i: nat)
    ensures i <= |s| && QuitarEspaciosInicio(s) == s[i..]
    ensures forall k :: 0 <= k < i ==> EsEspacio(s[k])
    ensures i < |s| ==> !EsEspacio(s[i])
  {
    if |s| > 0 && EsEspacio(s[0]) {
      var i' := InicioEsSufijo(s[1..]);
      i := i' + 1;
      assert s[1..][i'..] == s[i..];
    } else {
      i := 0;
    }
  }

  lemma {:induction false} FinEsPrefijo(a: string) returns (j: nat)
    ensures j <= |a| && QuitarEspaciosFin(a) == a[..j]
    ensures forall k :: j <= k < |a| ==> EsEspacio(a[k])
    ensures j > 0 ==> !EsEspacio(a[j - 1])
    ensures (|a| > 0 ==> !EsEspacio(a[0])) ==> (j == 0 <==> a == [])
  {
    if |a| > 0 && EsEspacio(a[|a| - 1]) {
      j := FinEsPrefijo(a[..|a| - 1]);
      assert a[..|a| - 1][..j] == a[..j];
    } else {
      j := |a|;
    }
  }

  // ---------------------------------------------------------------------
  // Decimal text of integers
  // ---------------------------------------------------------------------

  const MIN_INT: int := -0x8000_0000
  const MAX_INT: int := 0x7FFF_FFFF

  function DigitoChar(d: int): char
    requires 0 <= d < 10
  {
    ('0' as int + d) as char
  }

  function ValorDigito(c: char): int
    requires EsDigito(c)
  {
    c as int - '0' as int
  }

  /** `n.toString()` for a non-negative `n`. */
  function NatADecimal(n: nat): (r: string)
    ensures |r| > 0 && TodosDigitos(r)
    ensures r[0] == '0' ==> n == 0
  {
    if n < 10 then [DigitoChar(n)] else NatADecimal(n / 10) + [DigitoChar(n % 10)]
  }

  /** `Int.toString()`. */
  function IntADecimal(i: int): string {
    if i < 0 then "-" + NatADecimal(-i) else NatADecimal(i)
  }

  /** The number a string of decimal digits denotes. */
  function ValorDecimal(s: string): nat
    requires TodosDigitos(s)
  {
    if s == [] then 0 else ValorDecimal(s[..|s| - 1]) * 10 + ValorDigito(s[|s| - 1])
  }

  lemma {:induction false} ValorDeNatADecimal(n: nat)
    ensures ValorDecimal(NatADecimal(n)) == n
  {
    if n >= 10 {
      var r := NatADecimal(n);
      assert r[..|r| - 1] == NatADecimal(n / 10);
      ValorDeNatADecimal(n / 10);
    }
  }

  /** Distinct integers have distinct decimal texts. */
  lemma IntADecimalInyectiva(a: int, b: int)
    requires IntADecimal(a) == IntADecimal(b)
    ensures a == b
  {
    if a < 0 && b < 0 {
      assert NatADecimal(-a) == IntADecimal(a)[1..] == NatADecimal(-b);
      ValorDeNatADecimal(-a);
      ValorDeNatADecimal(-b);
    } else if a >= 0 && b >= 0 {
      ValorDeNatADecimal(a);
      ValorDeNatADecimal(b);
    }
  }

  /** `String.toIntOrNull()`: an optional sign and one or more digits whose value
      fits in a 32-bit `Int`; anything else is `null`. */
  function AIntONull(s: string): (r: Option<int>)
    ensures r.Some? ==> MIN_INT <= r.value <= MAX_INT
  {
    if |s| == 0 then None
    else if s[0] == '-' || s[0] == '+' then
      if |s| == 1 || !TodosDigitos(s[1..]) then None
      else
        var v: int := if s[0] == '-' then -(ValorDecimal(s[1..]) as int) else ValorDecimal(s[1..]);
        if MIN_INT <= v <= MAX_INT then Some(v) else None
    else if TodosDigitos(s) && ValorDecimal(s) <= MAX_INT then Some(ValorDecimal(s))
    else None
  }

  /** Every 32-bit integer reads back from its own decimal text. */
  lemma AIntONullDeIntADecimal(n: int)
    requires MIN_INT <= n <= MAX_INT
    ensures AIntONull(IntADecimal(n)) == Some(n)
  {
    if n < 0 {
      assert IntADecimal(n)[1..] == NatADecimal(-n);
      ValorDeNatADecimal(-n);
    } else {
      ValorDeNatADecimal(n);
    }
  }

  // ---------------------------------------------------------------------
  // Sequence helpers
  // ---------------------------------------------------------------------

  /** `reversed()`. */
  function Invertir<T>(s: seq<T>): (r: seq<T>)
    ensures |r| == |s|
    ensures forall i :: 0 <= i < |s| ==> r[i] == s[|s| - 1 - i]
  {
    if s == [] then [] else Invertir(s[1..]) + [s[0]]
  }

  /** `filter { it.isDigit() }`. */
  function FiltrarDigitos(s: string): (r: string)
    ensures TodosDigitos(r) && |r| <= |s|
    ensures TodosDigitos(s) ==> r == s
    ensures forall c :: c in r ==> c in s
  {
    if s == [] then []
    else if EsDigito(s[0]) then [s[0]] + FiltrarDigitos(s[1..])
    else FiltrarDigitos(s[1..])
  }

  /** `take(n)`. */
  function Tomar<T>(s: seq<T>, n: nat): seq<T> {
    if |s| <= n then s else s[..n]
  }

  /** `takeWhile { it.isLetter() }`. */
  function TomarLetras(s: string): (r: string)
    ensures |r| <= |s| && r == s[..|r|]
    ensures forall i :: 0 <= i < |r| ==> EsLetra(r[i])
    ensures |r| < |s| ==> !EsLetra(s[|r|])
  {
    if |s| > 0 && EsLetra(s[0]) then [s[0]] + TomarLetras(s[1..]) else []
  }

  /** `padEnd(n, c)`. */
  function RellenarFin(s: string, n: nat, c: char): (r: string)
    ensures |r| == if |s| >= n then |s| else n
    ensures r[..|s|] == s
    ensures forall i :: |s| <= i < |r| ==> r[i] == c
  {
    if |s| >= n then s else s + seq(n - |s|, _ => c)
  }
}
