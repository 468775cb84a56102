// The `productos` table (REPLACE inserts, key generation with AUTOINCREMENT,
// listing ordered by name), its repository, and the merge of the remote
// catalogue into it.
module ProductoDatos {
  import opened Opciones
  import opened Dominio
  import opened Entidades
  import opened Dto
  import opened OrdenTexto
  import Tabla

  function ClaveProducto(e: ProductoEntity): int { e.id }

  /** The rows together with SQLite's AUTOINCREMENT counter. */
  datatype Almacen = Almacen(filas: seq<ProductoEntity>, secuencia: int)

  /** Keys in order, none above the counter. */
  predicate AlmacenValido(a: Almacen) {
    Tabla.Ordenada(a.filas, ClaveProducto) &&
    forall i :: 0 <= i < |a.filas| ==> a.filas[i].id <= a.secuencia
  }

  /** Key 0 asks SQLite for the next key after the counter. */
  function ClaveAsignada(secuencia: int, e: ProductoEntity): int {
    if e.id == 0 then secuencia + 1 else e.id
  }

  /** One `INSERT OR REPLACE`. */
  function InsertarUno(a: Almacen, e: ProductoEntity): Almacen {
    var k := ClaveAsignada(a.secuencia, e);
    Almacen(Tabla.Colocar(a.filas, e.(id := k), ClaveProducto), if k > a.secuencia then k else a.secuencia)
  }

  /** A list insert: one `INSERT OR REPLACE` per element, in list order. */
  function InsertarVarios(a: Almacen, es: seq<ProductoEntity>): Almacen
    decreases |es|
  {
    if es == [] then a else InsertarUno(InsertarVarios(a, es[..|es| - 1]), es[|es| - 1])
  }

  /** `SELECT * FROM productos ORDER BY nombre ASC`: rows with equal names keep
      their key order. */
  function OrdenarPorNombre(filas: seq<ProductoEntity>): (r: seq<ProductoEntity>)
    ensures |r| == |filas|
    ensures multiset(r) == multiset(filas)
    decreases |filas|
  {
    if filas == [] then []
    else
      assert filas == filas[..|filas| - 1] + [filas[|filas| - 1]];
      InsertarPorNombre(filas[|filas| - 1], OrdenarPorNombre(filas[..|filas| - 1]))
  }

  predicate OrdenadaPorNombre(s: seq<ProductoEntity>) {
    forall i, j :: 0 <= i < j < |s| ==> NoMayor(s[i].nombre, s[j].nombre)
  }

  /** Place `x` after every leading row whose name is not greater than its own. */
  function InsertarPorNombre(x: ProductoEntity, s: seq<ProductoEntity>): (r: seq<ProductoEntity>)
    ensures |r| == |s| + 1
    ensures multiset(r) == multiset(s) + multiset{x}
  {
    if s == [] then [x]
    else if !NoMayor(s[0].nombre, x.nombre) then [x] + s
    else
      assert s == [s[0]] + s[1..];
      [s[0]] + InsertarPorNombre(x, s[1..])
  }

  /** The listing is ordered by name. */
  lemma {:induction false} OrdenarPorNombreOrdenada(filas: seq<ProductoEntity>)
    ensures OrdenadaPorNombre(OrdenarPorNombre(filas))
    decreases |filas|
  {
    if filas != [] {
      OrdenarPorNombreOrdenada(filas[..|filas| - 1]);
      InsertarPorNombreOrdenada(filas[|filas| - 1], OrdenarPorNombre(filas[..|filas| - 1]));
    }
  }

  lemma {:induction false} InsertarPorNombreOrdenada(x: ProductoEntity, s: seq<ProductoEntity>)
    requires OrdenadaPorNombre(s)
    ensures OrdenadaPorNombre(InsertarPorNombre(x, s))
  {
    if s == [] {
    } else if !NoMayor(s[0].nombre, x.nombre) {
      NoMayorTotal(s[0].nombre, x.nombre);
      var r := [x] + s;
      forall i, j | 0 <= i < j < |r| ensures NoMayor(r[i].nombre, r[j].nombre) {
        if i == 0 && j > 1 {
          NoMayorTransitiva(x.nombre, s[0].nombre, s[j - 1].nombre);
        }
      }
    } else {
      var cola := InsertarPorNombre(x, s[1..]);
      assert OrdenadaPorNombre(s[1..]) by {
        forall i, j | 0 <= i < j < |s[1..]| ensures NoMayor(s[1..][i].nombre, s[1..][j].nombre) {
          assert s[1..][i] == s[i + 1] && s[1..][j] == s[j + 1];
        }
      }
      InsertarPorNombreOrdenada(x, s[1..]);
      var r := [s[0]] + cola;
      forall j | 0 <= j < |cola| ensures NoMayor(s[0].nombre, cola[j].nombre) {
        assert cola[j] in multiset(cola);
        if cola[j] != x {
          assert cola[j] in multiset(s[1..]);
          var m :| 0 <= m < |s[1..]| && s[1..][m] == cola[j];
          assert s[1..][m] == s[m + 1];
        }
      }
      forall i, j | 0 <= i < j < |r| ensures NoMayor(r[i].nombre, r[j].nombre) {
        if i > 0 {
          assert r[i] == cola[i - 1] && r[j] == cola[j - 1];
        } else {
          assert r[j] == cola[j - 1];
        }
      }
    }
  }

  class ProductoDao {
    var filas: seq<ProductoEntity>
    var secuencia: int

    ghost predicate Valid()
      reads this
    {
      AlmacenValido(Almacen(filas, secuencia))
    }

    constructor()
      ensures filas == [] && secuencia == 0 && Valid()
    {
      filas := [];
      secuencia := 0;
    }

    function ObtenerTodosLosProductos(): seq<ProductoEntity>
      reads this
    {
      OrdenarPorNombre(filas)
    }

    function ObtenerProductoPorId(id: int): Option<ProductoEntity>
      reads this
    {
      Tabla.Buscar(filas, ClaveProducto, id)
    }

    /** `insertarProducto`: REPLACE on the key; returns the key used. */
    method InsertarProducto(e: ProductoEntity) returns (id: int)
      requires Valid()
      modifies this
      ensures Valid()
      ensures id == ClaveAsignada(old(secuencia), e)
      ensures Almacen(filas, secuencia) == InsertarUno(Almacen(old(filas), old(secuencia)), e)
    {
      InsertarUnoValido(Almacen(filas, secuencia), e);
      id := ClaveAsignada(secuencia, e);
      filas := Tabla.Colocar(filas, e.(id := id), ClaveProducto);
      if id > secuencia {
        secuencia := id;
      }
    }

    /** `insertarProductos`: the list's rows, one after another. */
    method InsertarProductos(es: seq<ProductoEntity>)
      requires Valid()
      modifies this
      ensures Valid()
      ensures Almacen(filas, secuencia) == InsertarVarios(Almacen(old(filas), old(secuencia)), es)
    {
      for i := 0 to |es|
        invariant Valid()
        invariant Almacen(filas, secuencia) == InsertarVarios(Almacen(old(filas), old(secuencia)), es[..i])
      {
        assert es[..i + 1][..i] == es[..i];
        var _ := InsertarProducto(es[i]);
      }
      assert es[..|es|] == es;
    }

    /** `@Update`: rewrites the row with the entity's key; no row, no change. */
    method ActualizarProducto(e: ProductoEntity)
      requires Valid()
      modifies this`filas
      ensures Valid()
      ensures filas == if Tabla.TieneClave(old(filas), ClaveProducto, e.id)
                       then Tabla.Colocar(old(filas), e, ClaveProducto) else old(filas)
    {
      var actual := Tabla.Buscar(filas, ClaveProducto, e.id);
      if actual.Some? {
        Tabla.ColocarOrdenada(filas, e, ClaveProducto);
        Tabla.ClavesDeColocar(filas, e, ClaveProducto);
        var i :| 0 <= i < |filas| && filas[i] == actual.value;
        assert e.id <= secuencia;
        filas := Tabla.Colocar(filas, e, ClaveProducto);
        forall j | 0 <= j < |filas| ensures filas[j].id <= secuencia {
          assert filas[j] in filas;
        }
      }
    }

    /** `@Delete`: removes the row with the entity's key. */
    method EliminarProducto(e: ProductoEntity)
      requires Valid()
      modifies this`filas
      ensures Valid()
      ensures filas == Tabla.QuitarClave(old(filas), ClaveProducto, e.id)
    {
      Tabla.QuitarClaveCorrecto(filas, ClaveProducto, e.id);
      Tabla.SubconjuntoDeQuitarClave(filas, ClaveProducto, e.id);
      filas := Tabla.QuitarClave(filas, ClaveProducto, e.id);
      forall i | 0 <= i < |filas| ensures filas[i].id <= secuencia {
        assert filas[i] in filas;
      }
    }

    method EliminarTodosLosProductos()
      requires Valid()
      modifies this`filas
      ensures Valid()
      ensures filas == []
    {
      filas := [];
    }
  }

  // ---------------------------------------------------------------------
  // Properties of the table
  // ---------------------------------------------------------------------

  /** One REPLACE keeps the table well formed, files the row under its key
      (a fresh one above every other when the key is 0) and leaves every other
      key's row alone. */
  lemma InsertarUnoValido(a: Almacen, e: ProductoEntity)
    requires AlmacenValido(a)
    ensures AlmacenValido(InsertarUno(a, e))
    ensures var k := ClaveAsignada(a.secuencia, e);
      Tabla.Buscar(InsertarUno(a, e).filas, ClaveProducto, k) == Some(e.(id := k)) &&
      (e.id == 0 ==> !Tabla.TieneClave(a.filas, ClaveProducto, k) && InsertarUno(a, e).filas == a.filas + [e.(id := k)])
  {
    var k := ClaveAsignada(a.secuencia, e);
    var fila := e.(id := k);
    Tabla.ColocarOrdenada(a.filas, fila, ClaveProducto);
    Tabla.ClavesDeColocar(a.filas, fila, ClaveProducto);
    Tabla.ColocarBuscar(a.filas, fila, ClaveProducto, k);
    if e.id == 0 {
      Tabla.ColocarAlFinal(a.filas, fila, ClaveProducto);
    }
    var r := InsertarUno(a, e);
    forall i | 0 <= i < |r.filas| ensures r.filas[i].id <= r.secuencia {
      assert r.filas[i] in r.filas;
    }
  }

  /** REPLACE never loses a key: every key present before is present after. */
  lemma ConservaClaves(a: Almacen, e: ProductoEntity, k: int)
    requires Tabla.TieneClave(a.filas, ClaveProducto, k)
    ensures Tabla.TieneClave(InsertarUno(a, e).filas, ClaveProducto, k)
  {
    var c := ClaveAsignada(a.secuencia, e);
    Tabla.ColocarBuscar(a.filas, e.(id := c), ClaveProducto, k);
  }

  /** After a list insert every non-zero key of the list is in the table, and
      so is every key that was there before. */
  lemma {:induction false} InsertarVariosContiene(a: Almacen, es: seq<ProductoEntity>, k: int)
    requires AlmacenValido(a)
    requires Tabla.TieneClave(a.filas, ClaveProducto, k) ||
             exists i :: 0 <= i < |es| && es[i].id == k && k != 0
    ensures AlmacenValido(InsertarVarios(a, es))
    ensures Tabla.TieneClave(InsertarVarios(a, es).filas, ClaveProducto, k)
    decreases |es|
  {
    if es != [] {
      var pre := es[..|es| - 1];
      var ult := es[|es| - 1];
      var b := InsertarVarios(a, pre);
      if Tabla.TieneClave(a.filas, ClaveProducto, k) || exists i :: 0 <= i < |pre| && pre[i].id == k && k != 0 {
        InsertarVariosContiene(a, pre, k);
        InsertarUnoValido(b, ult);
        ConservaClaves(b, ult, k);
      } else {
        InsertarVariosValido(a, pre);
        InsertarUnoValido(b, ult);
        assert ult.id == k;
      }
    }
  }

  lemma {:induction false} InsertarVariosValido(a: Almacen, es: seq<ProductoEntity>)
    requires AlmacenValido(a)
    ensures AlmacenValido(InsertarVarios(a, es))
    decreases |es|
  {
    if es != [] {
      InsertarVariosValido(a, es[..|es| - 1]);
      InsertarUnoValido(InsertarVarios(a, es[..|es| - 1]), es[|es| - 1]);
    }
  }

  /** A key is in the table exactly when the repository's listing shows a
      product with that id. */
  lemma IdLocalSii(filas: seq<ProductoEntity>, k: int)
    ensures IdLocal(ToProductos(OrdenarPorNombre(filas)), k) <==> Tabla.TieneClave(filas, ClaveProducto, k)
  {
    var r := OrdenarPorNombre(filas);
    var l := ToProductos(r);
    if Tabla.TieneClave(filas, ClaveProducto, k) {
      var i :| 0 <= i < |filas| && ClaveProducto(filas[i]) == k;
      assert filas[i] in multiset(r);
      var m :| 0 <= m < |r| && r[m] == filas[i];
      assert l[m].id == k;
    }
    if IdLocal(l, k) {
      var m :| 0 <= m < |l| && l[m].id == k;
      assert r[m] in multiset(filas);
      var j :| 0 <= j < |filas| && filas[j] == r[m];
      assert ClaveProducto(filas[j]) == k;
    }
  }

  // ---------------------------------------------------------------------
  // The repository
  // ---------------------------------------------------------------------

  class ProductoRepositoryImpl {
    const dao: ProductoDao

    constructor(dao: ProductoDao)
      ensures this.dao == dao
    {
      this.dao := dao;
    }

    /** `obtenerProductos()`: the DAO's listing converted row by row, so every
        row of the table appears once, as a product, in ascending name order. */
    function ObtenerProductos(): (r: seq<Producto>)
      reads this, dao
      ensures |r| == |dao.filas|
      ensures multiset(ToEntities(r)) == multiset(dao.filas)
      ensures forall i, j :: 0 <= i < j < |r| ==> NoMayor(r[i].nombre, r[j].nombre)
    {
      var s := dao.ObtenerTodosLosProductos();
      OrdenarPorNombreOrdenada(dao.filas);
      assert ToEntities(ToProductos(s)) == s by {
        forall i | 0 <= i < |s| ensures ToEntities(ToProductos(s))[i] == s[i] {
          ProductoEntityVuelta(s[i]);
        }
      }
      ToProductos(s)
    }

    function ObtenerProductoPorId(id: int): (r: Option<Producto>)
      reads this, dao
      ensures r.None? <==> dao.ObtenerProductoPorId(id).None?
      ensures r.Some? ==> r.value == ToProducto(dao.ObtenerProductoPorId(id).value) && r.value.id == id
    {
      match dao.ObtenerProductoPorId(id)
      case Some(e) => Some(ToProducto(e))
      case None => None
    }

    method InsertarProductos(ps: seq<Producto>)
      requires dao.Valid()
      modifies dao
      ensures dao.Valid()
      ensures Almacen(dao.filas, dao.secuencia) == InsertarVarios(Almacen(old(dao.filas), old(dao.secuencia)), ToEntities(ps))
    {
      dao.InsertarProductos(ToEntities(ps));
    }

    method InsertarProducto(p: Producto) returns (id: int)
      requires dao.Valid()
      modifies dao
      ensures dao.Valid()
      ensures id == ClaveAsignada(old(dao.secuencia), ToEntity(p))
      ensures Almacen(dao.filas, dao.secuencia) == InsertarUno(Almacen(old(dao.filas), old(dao.secuencia)), ToEntity(p))
    {
      id := dao.InsertarProducto(ToEntity(p));
    }

    method ActualizarProducto(p: Producto)
      requires dao.Valid()
      modifies dao
      ensures dao.Valid() && dao.secuencia == old(dao.secuencia)
      ensures dao.filas == if Tabla.TieneClave(old(dao.filas), ClaveProducto, p.id)
                           then Tabla.Colocar(old(dao.filas), ToEntity(p), ClaveProducto) else old(dao.filas)
    {
      dao.ActualizarProducto(ToEntity(p));
    }

    method EliminarProducto(p: Producto)
      requires dao.Valid()
      modifies dao
      ensures dao.Valid() && dao.secuencia == old(dao.secuencia)
      ensures dao.filas == Tabla.QuitarClave(old(dao.filas), ClaveProducto, p.id)
    {
      dao.EliminarProducto(ToEntity(p));
    }

    method EliminarTodosLosProductos()
      requires dao.Valid()
      modifies dao
      ensures dao.Valid() && dao.secuencia == old(dao.secuencia)
      ensures ObtenerProductos() == []
    {
      dao.EliminarTodosLosProductos();
    }
  }

  // ---------------------------------------------------------------------
  // The hybrid catalogue
  // ---------------------------------------------------------------------

  const DESPLAZAMIENTO_ID: int := 100_000
  const PESOS_POR_DOLAR: real := 950.0
  const DESCRIPCION_IMPORTADO: string := "Producto importado - Garant\U{ED}a nacional"

  /** A remote product as stored locally: id shifted, price in pesos, fixed
      description, everything else as mapped by `aModelo`. */
  function Convertir(d: ProductoDto): (p: Producto)
    ensures p == AModelo(d).(id := d.identificador + DESPLAZAMIENTO_ID,
                             precio := d.precio * PESOS_POR_DOLAR,
                             descripcion := DESCRIPCION_IMPORTADO)
  {
    var m := AModelo(d);
    m.(id := m.id + 100_000, precio := m.precio * 950.0, descripcion := "Producto importado - Garant\U{ED}a nacional")
  }

  function Convertidos(api: seq<ProductoDto>): (r: seq<Producto>)
    ensures |r| == |api|
    ensures forall i :: 0 <= i < |api| ==> r[i] == Convertir(api[i])
  {
    if api == [] then [] else [Convertir(api[0])] + Convertidos(api[1..])
  }

  predicate IdLocal(locales: seq<Producto>, id: int) {
    exists j :: 0 <= j < |locales| && locales[j].id == id
  }

  /** The converted products whose id no local product has, in order. */
  function Nuevos(convertidos: seq<Producto>, locales: seq<Producto>): (r: seq<Producto>)
    ensures forall p :: p in r <==> p in convertidos && !IdLocal(locales, p.id)
  {
    if convertidos == [] then []
    else (if IdLocal(locales, convertidos[0].id) then [] else [convertidos[0]]) + Nuevos(convertidos[1..], locales)
  }

  /** The table after a successful merge of the remote list `api`. */
  function TrasCombinar(a: Almacen, api: seq<ProductoDto>): Almacen {
    var nuevos := Nuevos(Convertidos(api), ToProductos(OrdenarPorNombre(a.filas)));
    if |nuevos| > 0 then InsertarVarios(a, ToEntities(nuevos)) else a
  }

  class ProductoHibridoRepository {
    const repositorioLocal: ProductoRepositoryImpl

    constructor(repositorioLocal: ProductoRepositoryImpl)
      ensures this.repositorioLocal == repositorioLocal
    {
      this.repositorioLocal := repositorioLocal;
    }

    /** `obtenerProductosCombinados()`. `api` is the remote response, `None` when
        the call throws: then the local list read first is returned and the
        table is untouched. Otherwise the new products are stored and the
        listing is read again. */
    method ObtenerProductosCombinados(api: Option<seq<ProductoDto>>) returns (r: seq<Producto>)
      requires repositorioLocal.dao.Valid()
      modifies repositorioLocal.dao
      ensures repositorioLocal.dao.Valid()
      ensures api.None? ==> r == old(repositorioLocal.ObtenerProductos()) &&
                            repositorioLocal.dao.filas == old(repositorioLocal.dao.filas)
      ensures api.Some? ==>
        Almacen(repositorioLocal.dao.filas, repositorioLocal.dao.secuencia) ==
          TrasCombinar(Almacen(old(repositorioLocal.dao.filas), old(repositorioLocal.dao.secuencia)), api.value) &&
        r == repositorioLocal.ObtenerProductos()
    {
      var productosLocales := repositorioLocal.ObtenerProductos();
      if api.None? {
        return productosLocales;
      }
      var productosConvertidos := Convertidos(api.value);
      var productosNuevos := Nuevos(productosConvertidos, productosLocales);
      if |productosNuevos| > 0 {
        repositorioLocal.InsertarProductos(productosNuevos);
      }
      r := repositorioLocal.ObtenerProductos();
    }
  }

  /** Merging the same remote list a second time finds nothing new, as long as
      no shifted id is 0 (key 0 would ask for a fresh key every time). */
  lemma {:induction false} SegundaCombinacionNoInserta(a: Almacen, api: seq<ProductoDto>)
    requires AlmacenValido(a)
    requires forall i :: 0 <= i < |api| ==> api[i].identificador + DESPLAZAMIENTO_ID != 0
    ensures var b := TrasCombinar(a, api);
      Nuevos(Convertidos(api), ToProductos(OrdenarPorNombre(b.filas))) == []
  {
    var conv := Convertidos(api);
    var locales2 := ToProductos(OrdenarPorNombre(TrasCombinar(a, api).filas));
    forall i | 0 <= i < |conv| ensures IdLocal(locales2, conv[i].id) {
      ConvertidoQuedaLocal(a, api, i);
    }
    NuevosVacio(conv, locales2);
  }

  /** After a merge, every converted product's id is in the local listing. */
  lemma ConvertidoQuedaLocal(a: Almacen, api: seq<ProductoDto>, i: int)
    requires AlmacenValido(a)
    requires 0 <= i < |api| && api[i].identificador + DESPLAZAMIENTO_ID != 0
    ensures IdLocal(ToProductos(OrdenarPorNombre(TrasCombinar(a, api).filas)), Convertir(api[i]).id)
  {
    var conv := Convertidos(api);
    var nuevos := Nuevos(conv, ToProductos(OrdenarPorNombre(a.filas)));
    var es := ToEntities(nuevos);
    var b := TrasCombinar(a, api);
    var p := conv[i];
    IdLocalSii(a.filas, p.id);
    IdLocalSii(b.filas, p.id);
    if Tabla.TieneClave(a.filas, ClaveProducto, p.id) {
      if |nuevos| > 0 {
        InsertarVariosContiene(a, es, p.id);
      }
    } else {
      assert p in nuevos;
      var m :| 0 <= m < |nuevos| && nuevos[m] == p;
      assert es[m].id == p.id;
      InsertarVariosContiene(a, es, p.id);
    }
  }

  lemma {:induction false} NuevosVacio(convertidos: seq<Producto>, locales: seq<Producto>)
    requires forall j :: 0 <= j < |convertidos| ==> IdLocal(locales, convertidos[j].id)
    ensures Nuevos(convertidos, locales) == []
  {
    if convertidos != [] {
      assert IdLocal(locales, convertidos[0].id);
      assert forall j :: 0 <= j < |convertidos[1..]| ==> convertidos[1..][j] == convertidos[j + 1];
      NuevosVacio(convertidos[1..], locales);
    }
  }

}
