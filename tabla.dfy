// A table with an integer primary key, as SQLite stores one: rows kept in
// ascending key order, at most one row per key.
module Tabla {
  import opened Opciones

  /** Keys strictly increase along the rows, so no key repeats. */
  predicate Ordenada<T>(filas: seq<T>, clave: T -> int) {
    forall i, j :: 0 <= i < j < |filas| ==> clave(filas[i]) < clave(filas[j])
  }

  predicate TieneClave<T>(filas: seq<T>, clave: T -> int, k: int) {
    exists i :: 0 <= i < |filas| && clave(filas[i]) == k
  }

  /** Lookup by primary key (`WHERE id = :k`). */
  function Buscar<T>(filas: seq<T>, clave: T -> int, k: int): (r: Option<T>)
    ensures r.None? <==> !TieneClave(filas, clave, k)
    ensures r.Some? ==> clave(r.value) == k && exists i :: 0 <= i < |filas| && filas[i] == r.value
  {
    if filas == [] then None
    else if clave(filas[0]) == k then Some(filas[0])
    else
      var r := Buscar(filas[1..], clave, k);
      assert forall i :: 0 <= i < |filas[1..]| ==> filas[1..][i] == filas[i + 1];
      assert TieneClave(filas, clave, k) ==> TieneClave(filas[1..], clave, k);
      r
  }

  /** Write a row under its key: it replaces the row with the same key, or is
      placed in key order when the key is new. */
  function Colocar<T>(filas: seq<T>, e: T, clave: T -> int): seq<T> {
    if filas == [] then [e]
    else if clave(filas[0]) == clave(e) then [e] + filas[1..]
    else if clave(filas[0]) > clave(e) then [e] + filas
    else [filas[0]] + Colocar(filas[1..], e, clave)
  }

  /** Delete the row with key `k`, if any. */
  function QuitarClave<T>(filas: seq<T>, clave: T -> int, k: int): (r: seq<T>)
    ensures |r| <= |filas|
    ensures forall i :: 0 <= i < |r| ==> clave(r[i]) != k
  {
    if filas == [] then []
    else if clave(filas[0]) == k then QuitarClave(filas[1..], clave, k)
    else [filas[0]] + QuitarClave(filas[1..], clave, k)
  }

  /** The keys of a written table are the old keys plus the written one. */
  lemma {:induction false} ClavesDeColocar<T>(filas: seq<T>, e: T, clave: T -> int)
    ensures forall x :: x in Colocar(filas, e, clave) ==> x == e || x in filas
    ensures |Colocar(filas, e, clave)| > 0
  {
    if filas != [] && clave(filas[0]) < clave(e) {
      ClavesDeColocar(filas[1..], e, clave);
    }
  }

  /** Writing keeps the table ordered. */
  lemma {:induction false} ColocarOrdenada<T>(filas: seq<T>, e: T, clave: T -> int)
    requires Ordenada(filas, clave)
    ensures Ordenada(Colocar(filas, e, clave), clave)
  {
    if filas != [] && clave(filas[0]) < clave(e) {
      var cola := filas[1..];
      ColocarOrdenada(cola, e, clave);
      ClavesDeColocar(cola, e, clave);
      var rc := Colocar(cola, e, clave);
      assert Colocar(filas, e, clave) == [filas[0]] + rc;
      forall i | 0 <= i < |rc| ensures clave(filas[0]) < clave(rc[i]) {
        assert rc[i] in rc;
        if rc[i] != e {
          var j :| 0 <= j < |cola| && cola[j] == rc[i];
          assert cola[j] == filas[j + 1];
        }
      }
    }
  }

  /** After a write, the written row is the one found under its key and every
      other key finds what it found before. */
  lemma {:induction false} ColocarBuscar<T>(filas: seq<T>, e: T, clave: T -> int, k: int)
    ensures Buscar(Colocar(filas, e, clave), clave, k) ==
            if k == clave(e) then Some(e) else Buscar(filas, clave, k)
  {
    if filas != [] && clave(filas[0]) < clave(e) {
      ColocarBuscar(filas[1..], e, clave, k);
      var r := Colocar(filas, e, clave);
      assert r[1..] == Colocar(filas[1..], e, clave);
    } else if filas != [] && clave(filas[0]) == clave(e) {
      var r := Colocar(filas, e, clave);
      assert r[1..] == filas[1..];
    } else if filas != [] {
      var r := Colocar(filas, e, clave);
      assert r[1..] == filas;
    }
  }

  /** Writing a key larger than every key in the table appends the row. */
  lemma {:induction false} ColocarAlFinal<T>(filas: seq<T>, e: T, clave: T -> int)
    requires forall i :: 0 <= i < |filas| ==> clave(filas[i]) < clave(e)
    ensures Colocar(filas, e, clave) == filas + [e]
  {
    if filas != [] {
      ColocarAlFinal(filas[1..], e, clave);
      assert filas == [filas[0]] + filas[1..];
    }
  }

  /** Deleting keeps the order, removes exactly key `k` and keeps every other
      key's row. */
  lemma {:induction false} QuitarClaveCorrecto<T>(filas: seq<T>, clave: T -> int, k: int)
    requires Ordenada(filas, clave)
    ensures Ordenada(QuitarClave(filas, clave, k), clave)
    ensures Buscar(QuitarClave(filas, clave, k), clave, k) == None
    ensures forall k' :: k' != k ==> Buscar(QuitarClave(filas, clave, k), clave, k') == Buscar(filas, clave, k')
  {
    if filas != [] {
      QuitarClaveCorrecto(filas[1..], clave, k);
      SubconjuntoDeQuitarClave(filas[1..], clave, k);
      var r := QuitarClave(filas, clave, k);
      if clave(filas[0]) != k {
        var rc := QuitarClave(filas[1..], clave, k);
        assert r[1..] == rc;
        forall i | 0 <= i < |rc| ensures clave(filas[0]) < clave(rc[i]) {
          assert rc[i] in rc;
          var j :| 0 <= j < |filas[1..]| && filas[1..][j] == rc[i];
          assert filas[1..][j] == filas[j + 1];
        }
      }
    }
  }

  lemma {:induction false} SubconjuntoDeQuitarClave<T>(filas: seq<T>, clave: T -> int, k: int)
    ensures forall x :: x in QuitarClave(filas, clave, k) ==> x in filas
  {
    if filas != [] {
      SubconjuntoDeQuitarClave(filas[1..], clave, k);
    }
  }
}
