// The catalogue screen state and the view model that fills it from the local
// repository.
module VistaProductos {
  import opened Opciones
  import opened Dominio
  import opened ProductoDatos
  import Tabla

  datatype ProductoUiState = ProductoUiState(
    estaCargando: bool := false,
    productos: seq<Producto> := [],
    error: Option<string> := None)
  {
    predicate HayProductos() {
      |productos| > 0
    }
  }

  const ERROR_DESCONOCIDO: string := "Error desconocido"

  /** A load starts: only the loading flag changes. */
  function AlCargar(s: ProductoUiState): (r: ProductoUiState)
    ensures r.estaCargando
    ensures r.productos == s.productos && r.error == s.error
  {
    s.(estaCargando := true)
  }

  /** An emission of the repository's flow replaces the list and clears any
      error. */
  function AlRecibir(s: ProductoUiState, productos: seq<Producto>): (r: ProductoUiState)
    ensures !r.estaCargando && r.productos == productos && r.error.None?
    ensures r.HayProductos() <==> |productos| > 0
  {
    s.(estaCargando := false, productos := productos, error := None)
  }

  /** The flow fails: the list shown so far stays, the exception's message (or
      the fallback text when it has none) is the error. */
  function AlFallar(s: ProductoUiState, mensaje: Option<string>): (r: ProductoUiState)
    ensures !r.estaCargando && r.productos == s.productos
    ensures r.error.Some?
    ensures mensaje.Some? ==> r.error.value == mensaje.value
    ensures mensaje.None? ==> r.error.value == ERROR_DESCONOCIDO
  {
    s.(estaCargando := false, error := Some(mensaje.GetOr("Error desconocido")))
  }

  class ProductoViewModel {
    const repositorio: ProductoRepositoryImpl
    var uiState: ProductoUiState

    /** Creating the view model starts one load; the flow's first emission
        arrives later, through `RecibirProductos`. */
    constructor(repositorio: ProductoRepositoryImpl)
      ensures this.repositorio == repositorio
      ensures uiState == AlCargar(ProductoUiState())
    {
      this.repositorio := repositorio;
      uiState := ProductoUiState(estaCargando := true);
    }

    /** `cargarProductos()`, up to the subscription to the flow. */
    method CargarProductos()
      modifies this`uiState
      ensures uiState == AlCargar(old(uiState))
    {
      uiState := uiState.(estaCargando := true);
    }

    /** One emission of `obtenerProductos()`: the repository's current listing. */
    method RecibirProductos()
      modifies this`uiState
      ensures uiState == AlRecibir(old(uiState), repositorio.ObtenerProductos())
    {
      var productos := repositorio.ObtenerProductos();
      uiState := uiState.(estaCargando := false, productos := productos, error := None);
    }

    /** The flow throws an exception whose message is `mensaje`. */
    method RecibirError(mensaje: Option<string>)
      modifies this`uiState
      ensures uiState == AlFallar(old(uiState), mensaje)
    {
      var texto := match mensaje case Some(m) => m case None => "Error desconocido";
      uiState := uiState.(estaCargando := false, error := Some(texto));
    }

    function ObtenerProductoPorId(id: int): (r: Option<Producto>)
      reads this, repositorio, repositorio.dao
      ensures r == repositorio.ObtenerProductoPorId(id)
    {
      repositorio.ObtenerProductoPorId(id)
    }

    /** `agregarProducto`: one insert into the repository; the screen state
        changes only when the flow emits again. */
    method AgregarProducto(p: Producto)
      requires repositorio.dao.Valid()
      modifies repositorio.dao
      ensures repositorio.dao.Valid()
      ensures Almacen(repositorio.dao.filas, repositorio.dao.secuencia) ==
              InsertarUno(Almacen(old(repositorio.dao.filas), old(repositorio.dao.secuencia)), Entidades.ToEntity(p))
    {
      var _ := repositorio.InsertarProducto(p);
    }

    method ActualizarProducto(p: Producto)
      requires repositorio.dao.Valid()
      modifies repositorio.dao
      ensures repositorio.dao.Valid() && repositorio.dao.secuencia == old(repositorio.dao.secuencia)
      ensures repositorio.dao.filas ==
              if Tabla.TieneClave(old(repositorio.dao.filas), ClaveProducto, p.id)
              then Tabla.Colocar(old(repositorio.dao.filas), Entidades.ToEntity(p), ClaveProducto)
              else old(repositorio.dao.filas)
    {
      repositorio.ActualizarProducto(p);
    }

    method EliminarProducto(p: Producto)
      requires repositorio.dao.Valid()
      modifies repositorio.dao
      ensures repositorio.dao.Valid() && repositorio.dao.secuencia == old(repositorio.dao.secuencia)
      ensures repositorio.dao.filas == Tabla.QuitarClave(old(repositorio.dao.filas), ClaveProducto, p.id)
    {
      repositorio.EliminarProducto(p);
    }
  }

  // ---------------------------------------------------------------------
  // Properties of the screen state
  // ---------------------------------------------------------------------

  /** The default state: not loading, no products, no error. */
  lemma EstadoInicial()
    ensures !ProductoUiState().estaCargando && ProductoUiState().error.None?
    ensures !ProductoUiState().HayProductos()
  {
  }

  /** `hayProductos` depends on the list alone, not on the loading flag or the
      error; a copy that leaves the list alone keeps it. */
  lemma HayProductosSoloDeLaLista(s: ProductoUiState, cargando: bool, error: Option<string>)
    ensures s.HayProductos() <==> s.productos != []
    ensures s.(estaCargando := cargando, error := error).HayProductos() == s.HayProductos()
    ensures s.(estaCargando := cargando, error := error).productos == s.productos
  {
  }

  /** A failure after an emission still shows the emitted list; a later
      emission clears the failure. */
  lemma FalloConservaLista(s: ProductoUiState, productos: seq<Producto>, mensaje: Option<string>, nuevos: seq<Producto>)
    ensures AlFallar(AlRecibir(s, productos), mensaje).productos == productos
    ensures AlRecibir(AlFallar(s, mensaje), nuevos) == AlRecibir(s, nuevos)
  {
  }

  /** The state after an emission depends only on what was emitted. */
  lemma EmisionReemplaza(s: ProductoUiState, t: ProductoUiState, productos: seq<Producto>)
    ensures AlRecibir(s, productos) == AlRecibir(t, productos)
  {
  }
}
