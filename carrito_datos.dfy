// The `carrito` table (rows in key order, keys generated with AUTOINCREMENT),
// its DAO queries and updates, and the repository that keeps one row per
// product by looking a product up before writing.
module CarritoDatos {
  import opened Opciones
  import opened Sumas
  import opened Dominio
  import opened Entidades
  import Tabla

  function ClaveFila(e: CarritoEntity): int { e.id }

  function ImporteFila(e: CarritoEntity): real { e.precio * e.cantidad as real }

  function CantidadFila(e: CarritoEntity): int { e.cantidad }

  // ---------------------------------------------------------------------
  // What each SQL statement does to the rows
  // ---------------------------------------------------------------------

  /** `SELECT * FROM carrito WHERE productoId = :productoId LIMIT 1`: the first
      row of the product in storage order, or null. */
  function PrimeroPorProducto(filas: seq<CarritoEntity>, pid: int): Option<CarritoEntity> {
    if filas == [] then None
    else if filas[0].productoId == pid then Some(filas[0])
    else PrimeroPorProducto(filas[1..], pid)
  }

  /** The lookup finds nothing exactly when no row has the product; what it
      finds is a row of the table with that product. */
  lemma {:induction false} PrimeroPorProductoCorrecto(filas: seq<CarritoEntity>, pid: int)
    ensures PrimeroPorProducto(filas, pid).None? <==> forall i :: 0 <= i < |filas| ==> filas[i].productoId != pid
    ensures PrimeroPorProducto(filas, pid).Some? ==>
      PrimeroPorProducto(filas, pid).value.productoId == pid && PrimeroPorProducto(filas, pid).value in filas
  {
    if filas != [] && filas[0].productoId != pid {
      PrimeroPorProductoCorrecto(filas[1..], pid);
      assert forall i :: 1 <= i < |filas| ==> filas[i] == filas[1..][i - 1];
    }
  }

  /** The row found is the first of the product's rows. */
  lemma {:induction false} PrimeroPorProductoEsPrimero(filas: seq<CarritoEntity>, pid: int) returns (i: nat)
    requires PrimeroPorProducto(filas, pid).Some?
    ensures i < |filas| && filas[i] == PrimeroPorProducto(filas, pid).value
    ensures forall j :: 0 <= j < i ==> filas[j].productoId != pid
  {
    if filas[0].productoId == pid {
      i := 0;
    } else {
      var i' := PrimeroPorProductoEsPrimero(filas[1..], pid);
      i := i' + 1;
      assert filas[1..][i'] == filas[i];
      assert forall j :: 1 <= j < i ==> filas[j] == filas[1..][j - 1];
    }
  }

  /** `UPDATE carrito SET cantidad = :cantidad WHERE productoId = :productoId`. */
  function FijarCantidad(filas: seq<CarritoEntity>, pid: int, cantidad: int): (r: seq<CarritoEntity>)
    ensures |r| == |filas|
    ensures forall i :: 0 <= i < |filas| ==>
      r[i] == if filas[i].productoId == pid then filas[i].(cantidad := cantidad) else filas[i]
  {
    if filas == [] then []
    else [if filas[0].productoId == pid then filas[0].(cantidad := cantidad) else filas[0]]
         + FijarCantidad(filas[1..], pid, cantidad)
  }

  /** `DELETE FROM carrito WHERE productoId = :productoId`. */
  function QuitarProducto(filas: seq<CarritoEntity>, pid: int): (r: seq<CarritoEntity>)
    ensures forall x :: x in r <==> x in filas && x.productoId != pid
    ensures |r| <= |filas|
  {
    if filas == [] then []
    else if filas[0].productoId == pid then QuitarProducto(filas[1..], pid)
    else [filas[0]] + QuitarProducto(filas[1..], pid)
  }

  /** `SELECT SUM(precio * cantidad) FROM carrito`: SQL's SUM is null on an
      empty table. */
  function TotalSql(filas: seq<CarritoEntity>): (r: Option<real>)
    ensures r.None? <==> filas == []
  {
    if filas == [] then None else Some(SumaR(filas, ImporteFila))
  }

  /** The cart lines the rows stand for, one per row, in row order. */
  function ItemsDeFilas(filas: seq<CarritoEntity>): (r: seq<ItemCarrito>)
    ensures |r| == |filas|
    ensures forall i :: 0 <= i < |filas| ==>
      r[i].producto == filas[i].ToDomain() && r[i].cantidad == filas[i].cantidad
  {
    if filas == [] then []
    else [ItemCarrito(filas[0].ToDomain(), filas[0].cantidad)] + ItemsDeFilas(filas[1..])
  }

  /** At most one row per product. The schema does not enforce it; only the
      look-up-then-write of the callers keeps it. */
  predicate UnaFilaPorProducto(filas: seq<CarritoEntity>) {
    forall i, j :: 0 <= i < j < |filas| ==> filas[i].productoId != filas[j].productoId
  }

  /** The row a freshly generated key gets. */
  function ClaveNueva(secuencia: int, e: CarritoEntity): int {
    if e.id == 0 then secuencia + 1 else e.id
  }

  /** The table after adding `cantidad` units of `p` the way the repository and
      the view model do it: look the product up; if it has a row, set that
      product's quantity to the found quantity plus `cantidad`; if not, insert
      a new row with a generated key. */
  function Agregado(filas: seq<CarritoEntity>, secuencia: int, p: Producto, cantidad: int): seq<CarritoEntity> {
    match PrimeroPorProducto(filas, p.id)
    case Some(x) => FijarCantidad(filas, p.id, x.cantidad + cantidad)
    case None => filas + [FilaNueva(p, cantidad).(id := secuencia + 1)]
  }

  // ---------------------------------------------------------------------
  // The DAO
  // ---------------------------------------------------------------------

  /** The `carrito` table. `secuencia` is SQLite's AUTOINCREMENT counter: the
      largest key the table has ever held. */
  class CarritoDao {
    var filas: seq<CarritoEntity>
    var secuencia: int

    ghost predicate Valid()
      reads this
    {
      Tabla.Ordenada(filas, ClaveFila) &&
      forall i :: 0 <= i < |filas| ==> filas[i].id <= secuencia
    }

    constructor()
      ensures filas == [] && secuencia == 0 && Valid()
    {
      filas := [];
      secuencia := 0;
    }

    /** `SELECT * FROM carrito`. */
    function ObtenerTodo(): seq<CarritoEntity>
      reads this
    {
      filas
    }

    function ObtenerTotal(): Option<real>
      reads this
    {
      TotalSql(filas)
    }

    function ObtenerPorProductoId(pid: int): Option<CarritoEntity>
      reads this
    {
      PrimeroPorProducto(filas, pid)
    }

    /** `@Insert` with the default ABORT strategy: key 0 asks for a fresh key,
        which always lands after every existing row; an explicit key already in
        the table aborts the statement (`ok` false) and changes nothing. Rows are
        never merged by product. */
    method Insertar(e: CarritoEntity) returns (ok: bool)
      requires Valid()
      modifies this
      ensures Valid()
      ensures ok <==> e.id == 0 || !Tabla.TieneClave(old(filas), ClaveFila, e.id)
      ensures ok ==> filas == Tabla.Colocar(old(filas), e.(id := ClaveNueva(old(secuencia), e)), ClaveFila)
      ensures ok ==> secuencia == if ClaveNueva(old(secuencia), e) > old(secuencia) then ClaveNueva(old(secuencia), e) else old(secuencia)
      ensures e.id == 0 ==> filas == old(filas) + [e.(id := old(secuencia) + 1)] && secuencia == old(secuencia) + 1
      ensures !ok ==> filas == old(filas) && secuencia == old(secuencia)
    {
      if e.id != 0 && Tabla.Buscar(filas, ClaveFila, e.id).Some? {
        return false;
      }
      var k := ClaveNueva(secuencia, e);
      var fila := e.(id := k);
      if e.id == 0 {
        Tabla.ColocarAlFinal(filas, fila, ClaveFila);
      }
      Tabla.ColocarOrdenada(filas, fila, ClaveFila);
      Tabla.ClavesDeColocar(filas, fila, ClaveFila);
      filas := Tabla.Colocar(filas, fila, ClaveFila);
      if k > secuencia {
        secuencia := k;
      }
      ok := true;
      forall i | 0 <= i < |filas| ensures filas[i].id <= secuencia {
        assert filas[i] in filas;
      }
    }

    /** `DELETE FROM carrito`. */
    method Vaciar()
      requires Valid()
      modifies this
      ensures Valid()
      ensures filas == [] && secuencia == old(secuencia)
    {
      filas := [];
    }

    method ActualizarCantidad(pid: int, cantidad: int)
      requires Valid()
      modifies this
      ensures Valid()
      ensures filas == FijarCantidad(old(filas), pid, cantidad) && secuencia == old(secuencia)
    {
      filas := FijarCantidad(filas, pid, cantidad);
    }

    method EliminarProducto(pid: int)
      requires Valid()
      modifies this
      ensures Valid()
      ensures filas == QuitarProducto(old(filas), pid) && secuencia == old(secuencia)
    {
      QuitarProductoOrdenada(filas, pid);
      filas := QuitarProducto(filas, pid);
      forall i | 0 <= i < |filas| ensures filas[i].id <= secuencia {
        assert filas[i] in filas;
      }
    }
  }

  // ---------------------------------------------------------------------
  // The repository
  // ---------------------------------------------------------------------

  class CarritoRepository {
    const dao: CarritoDao

    constructor(dao: CarritoDao)
      ensures this.dao == dao
    {
      this.dao := dao;
    }

    /** `obtenerCarrito()`: one line per row, in row order. */
    function ObtenerCarrito(): seq<ItemCarrito>
      reads this, dao
    {
      ItemsDeFilas(dao.filas)
    }

    /** `obtenerTotal()`: the SQL sum, 0.0 when it is null. */
    function ObtenerTotal(): real
      reads this, dao
    {
      TotalSql(dao.filas).GetOr(0.0)
    }

    method AgregarProducto(p: Producto, cantidad: int := 1)
      requires dao.Valid()
      modifies dao
      ensures dao.Valid()
      ensures dao.filas == Agregado(old(dao.filas), old(dao.secuencia), p, cantidad)
    {
      var existente := dao.ObtenerPorProductoId(p.id);
      if existente.Some? {
        dao.ActualizarCantidad(p.id, existente.value.cantidad + cantidad);
      } else {
        var fila := FilaNueva(p, cantidad);
        assert fila.id == 0;
        var ok := dao.Insertar(fila);
      }
    }

    method ModificarCantidad(pid: int, nuevaCantidad: int)
      requires dao.Valid()
      modifies dao
      ensures dao.Valid()
      ensures dao.filas == if nuevaCantidad <= 0 then QuitarProducto(old(dao.filas), pid)
                           else FijarCantidad(old(dao.filas), pid, nuevaCantidad)
    {
      if nuevaCantidad <= 0 {
        EliminarProducto(pid);
      } else {
        dao.ActualizarCantidad(pid, nuevaCantidad);
      }
    }

    method EliminarProducto(pid: int)
      requires dao.Valid()
      modifies dao
      ensures dao.Valid()
      ensures dao.filas == QuitarProducto(old(dao.filas), pid)
    {
      dao.EliminarProducto(pid);
    }

    method VaciarCarrito()
      requires dao.Valid()
      modifies dao
      ensures dao.Valid()
      ensures dao.filas == [] && ObtenerTotal() == 0.0
    {
      dao.Vaciar();
    }
  }

  // ---------------------------------------------------------------------
  // Properties
  // ---------------------------------------------------------------------

  lemma {:induction false} QuitarProductoOrdenada(filas: seq<CarritoEntity>, pid: int)
    requires Tabla.Ordenada(filas, ClaveFila)
    ensures Tabla.Ordenada(QuitarProducto(filas, pid), ClaveFila)
  {
    if filas != [] {
      QuitarProductoOrdenada(filas[1..], pid);
      var rc := QuitarProducto(filas[1..], pid);
      if filas[0].productoId != pid {
        forall i | 0 <= i < |rc| ensures filas[0].id < rc[i].id {
          assert rc[i] in rc;
          var j :| 0 <= j < |filas[1..]| && filas[1..][j] == rc[i];
          assert filas[1..][j] == filas[j + 1];
        }
      }
    }
  }

  /** Adding to a table with one row per product keeps one row per product. */
  lemma {:induction false} AgregadoMantieneUnicidad(filas: seq<CarritoEntity>, secuencia: int, p: Producto, cantidad: int)
    requires UnaFilaPorProducto(filas)
    ensures UnaFilaPorProducto(Agregado(filas, secuencia, p, cantidad))
  {
    var r := Agregado(filas, secuencia, p, cantidad);
    PrimeroPorProductoCorrecto(filas, p.id);
    if PrimeroPorProducto(filas, p.id).Some? {
      assert forall i :: 0 <= i < |r| ==> r[i].productoId == filas[i].productoId;
    }
  }

  /** Adding a product that has no row appends exactly one line: the product
      itself with the requested quantity. */
  lemma {:induction false} AgregadoNuevo(filas: seq<CarritoEntity>, secuencia: int, p: Producto, cantidad: int)
    requires PrimeroPorProducto(filas, p.id).None?
    ensures |Agregado(filas, secuencia, p, cantidad)| == |filas| + 1
    ensures ItemsDeFilas(Agregado(filas, secuencia, p, cantidad)) == ItemsDeFilas(filas) + [ItemCarrito(p, cantidad)]
  {
    var r := Agregado(filas, secuencia, p, cantidad);
    FilaNuevaToDomain(p, cantidad);
    assert r[|filas|].ToDomain() == FilaNueva(p, cantidad).ToDomain();
  }

  /** Adding a product that already has a row inserts nothing and changes only
      that product's quantity, to the old quantity plus the requested one. */
  lemma {:induction false} AgregadoExistente(filas: seq<CarritoEntity>, secuencia: int, p: Producto, cantidad: int, i: int)
    requires UnaFilaPorProducto(filas)
    requires 0 <= i < |filas| && filas[i].productoId == p.id
    ensures var r := Agregado(filas, secuencia, p, cantidad);
      |r| == |filas| && r[i] == filas[i].(cantidad := filas[i].cantidad + cantidad) &&
      forall j :: 0 <= j < |filas| && j != i ==> r[j] == filas[j]
  {
    PrimeroPorProductoCorrecto(filas, p.id);
    var k := PrimeroPorProductoEsPrimero(filas, p.id);
    assert k == i;
  }

  /** The item quantity total of a table grows by exactly the added quantity,
      whichever branch the add takes, as long as there is one row per product. */
  lemma {:induction false} AgregadoCantidadTotal(filas: seq<CarritoEntity>, secuencia: int, p: Producto, cantidad: int)
    requires UnaFilaPorProducto(filas)
    ensures Carrito(ItemsDeFilas(Agregado(filas, secuencia, p, cantidad))).CantidadTotal() ==
            Carrito(ItemsDeFilas(filas)).CantidadTotal() + cantidad
  {
    SumaAgregado(filas, secuencia, p, cantidad);
    CantidadTotalDeFilas(filas);
    CantidadTotalDeFilas(Agregado(filas, secuencia, p, cantidad));
  }

  lemma {:induction false} SumaAgregado(filas: seq<CarritoEntity>, secuencia: int, p: Producto, cantidad: int)
    requires UnaFilaPorProducto(filas)
    ensures SumaZ(Agregado(filas, secuencia, p, cantidad), CantidadFila) == SumaZ(filas, CantidadFila) + cantidad
  {
    var r := Agregado(filas, secuencia, p, cantidad);
    var x := PrimeroPorProducto(filas, p.id);
    if x.None? {
      var nueva := FilaNueva(p, cantidad).(id := secuencia + 1);
      assert r == filas + [nueva];
      SumaZConcat(filas, [nueva], CantidadFila);
      assert SumaZ([nueva], CantidadFila) == cantidad;
    } else {
      var q := x.value.cantidad + cantidad;
      assert r == FijarCantidad(filas, p.id, q);
      PrimeroPorProductoCorrecto(filas, p.id);
      var k := PrimeroPorProductoEsPrimero(filas, p.id);
      SumaFijarCantidadUnica(filas, p.id, q, k);
    }
  }

  lemma {:induction false} CantidadTotalDeFilas(filas: seq<CarritoEntity>)
    ensures Carrito(ItemsDeFilas(filas)).CantidadTotal() == SumaZ(filas, CantidadFila)
  {
    if filas != [] {
      CantidadTotalDeFilas(filas[1..]);
      assert ItemsDeFilas(filas)[1..] == ItemsDeFilas(filas[1..]);
    }
  }

  /** Setting the quantity of the only row of a product changes the quantity
      sum by the difference. */
  lemma {:induction false} SumaFijarCantidadUnica(filas: seq<CarritoEntity>, pid: int, q: int, k: int)
    requires UnaFilaPorProducto(filas)
    requires 0 <= k < |filas| && filas[k].productoId == pid
    ensures SumaZ(FijarCantidad(filas, pid, q), CantidadFila) == SumaZ(filas, CantidadFila) - filas[k].cantidad + q
  {
    var r := FijarCantidad(filas, pid, q);
    assert r[1..] == FijarCantidad(filas[1..], pid, q);
    if k == 0 {
      assert forall j :: 0 <= j < |filas[1..]| ==> filas[1..][j].productoId != pid;
      FijarCantidadSinCoincidencia(filas[1..], pid, q);
    } else {
      assert filas[0].productoId != pid;
      SumaFijarCantidadUnica(filas[1..], pid, q, k - 1);
    }
  }

  /** Setting or deleting a product that has no row changes nothing. */
  lemma {:induction false} FijarCantidadSinCoincidencia(filas: seq<CarritoEntity>, pid: int, q: int)
    requires forall i :: 0 <= i < |filas| ==> filas[i].productoId != pid
    ensures FijarCantidad(filas, pid, q) == filas
    ensures QuitarProducto(filas, pid) == filas
  {
    if filas != [] {
      FijarCantidadSinCoincidencia(filas[1..], pid, q);
    }
  }

  /** Changing a quantity through the repository keeps one row per product. */
  lemma ModificarMantieneUnicidad(filas: seq<CarritoEntity>, pid: int, q: int)
    requires UnaFilaPorProducto(filas)
    ensures UnaFilaPorProducto(FijarCantidad(filas, pid, q))
    ensures UnaFilaPorProducto(QuitarProducto(filas, pid))
  {
    var r := FijarCantidad(filas, pid, q);
    assert forall i :: 0 <= i < |r| ==> r[i].productoId == filas[i].productoId;
    QuitarProductoSubsecuencia(filas, pid);
  }

  lemma {:induction false} QuitarProductoSubsecuencia(filas: seq<CarritoEntity>, pid: int)
    requires UnaFilaPorProducto(filas)
    ensures UnaFilaPorProducto(QuitarProducto(filas, pid))
  {
    if filas != [] {
      assert UnaFilaPorProducto(filas[1..]) by {
        forall i, j | 0 <= i < j < |filas[1..]| ensures filas[1..][i].productoId != filas[1..][j].productoId {
          assert filas[1..][i] == filas[i + 1] && filas[1..][j] == filas[j + 1];
        }
      }
      QuitarProductoSubsecuencia(filas[1..], pid);
      var rc := QuitarProducto(filas[1..], pid);
      if filas[0].productoId != pid {
        forall j | 0 <= j < |rc| ensures filas[0].productoId != rc[j].productoId {
          assert rc[j] in rc;
          var m :| 0 <= m < |filas[1..]| && filas[1..][m] == rc[j];
          assert filas[1..][m] == filas[m + 1];
        }
      }
    }
  }

  /** The total the view model sums over the cart lines equals the repository's
      SQL total, with null read as 0.0. */
  lemma {:induction false} TotalesCoinciden(filas: seq<CarritoEntity>)
    ensures TotalSql(filas).GetOr(0.0) == Carrito(ItemsDeFilas(filas)).PrecioTotal()
  {
    if filas != [] {
      TotalesCoinciden(filas[1..]);
      assert ItemsDeFilas(filas)[1..] == ItemsDeFilas(filas[1..]);
      if filas[1..] == [] {
        assert SumaR(filas[1..], ImporteFila) == 0.0;
      }
    }
  }
}
