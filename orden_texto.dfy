// Text order as SQLite's default BINARY collation sees it: code point by code
// point, a proper prefix first.
module OrdenTexto {

  /** `a` sorts before or together with `b`. */
  predicate NoMayor(a: string, b: string)
    decreases |a|
  {
    a == [] || (b != [] && (a[0] < b[0] || (a[0] == b[0] && NoMayor(a[1..], b[1..]))))
  }

  lemma {:induction false} NoMayorTotal(a: string, b: string)
    ensures NoMayor(a, b) || NoMayor(b, a)
    decreases |a|
  {
    if a != [] && b != [] && a[0] == b[0] {
      NoMayorTotal(a[1..], b[1..]);
    }
  }

  lemma {:induction false} NoMayorTransitiva(a: string, b: string, c: string)
    requires NoMayor(a, b) && NoMayor(b, c)
    ensures NoMayor(a, c)
    decreases |a|
  {
    if a != [] && a[0] == b[0] && b[0] == c[0] {
      NoMayorTransitiva(a[1..], b[1..], c[1..]);
    }
  }
}
