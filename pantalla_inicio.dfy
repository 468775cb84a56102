// The home screen's decisions: the search and category filter over the
// catalogue, the category chips, the cart badge and the account button.
module PantallaInicio {
  import opened Opciones
  import opened Texto
  import opened Dominio
  import opened Entidades
  import opened Listas
  import opened VistaProductos

  /** The filter's condition for one product: blank search text or a match in
      name or description, ignoring case; and no category chosen or exactly
      the chosen one. */
  predicate Coincide(p: Producto, texto: string, categoria: Option<string>) {
    (EsBlanco(texto) ||
     ContieneIgnorandoMayusculas(p.nombre, texto) ||
     ContieneIgnorandoMayusculas(p.descripcion, texto)) &&
    (categoria.None? || p.categoria == categoria.value)
  }

  /** `productosFiltrados`. */
  function ProductosFiltrados(productos: seq<Producto>, texto: string, categoria: Option<string>): seq<Producto> {
    Filtrar(productos, p => Coincide(p, texto, categoria))
  }

  /** `categorias`: the products' categories, each once. */
  function Categorias(productos: seq<Producto>): seq<string> {
    Distintas(seq(|productos|, i requires 0 <= i < |productos| => productos[i].categoria))
  }

  /** What the body of the screen shows. */
  datatype Contenido =
    | Indicador
    | SinProductos
    | Lista(categorias: seq<string>, productos: seq<Producto>)

  function ContenidoInicio(s: ProductoUiState, texto: string, categoria: Option<string>): (c: Contenido)
    ensures c.Indicador? <==> s.estaCargando
    ensures c.SinProductos? <==> !s.estaCargando && !s.HayProductos()
  {
    if s.estaCargando then Indicador
    else if |s.productos| == 0 then SinProductos
    else Lista(Categorias(s.productos), ProductosFiltrados(s.productos, texto, categoria))
  }

  /** The cart badge: the number of lines, shown only for a non-empty cart. */
  function Insignia(items: seq<ItemCarrito>): (r: Option<string>)
    ensures r.None? <==> items == []
    ensures r.Some? ==> r.value == NatADecimal(|items|)
  {
    if |items| > 0 then Some(IntADecimal(|items|)) else None
  }

  datatype DestinoCuenta = IrALogin | IrAMiCuenta

  /** The account button. */
  function BotonCuenta(usuarioActual: Option<UsuarioEntity>): (d: DestinoCuenta)
    ensures d == IrALogin <==> usuarioActual.None?
  {
    if usuarioActual.None? then IrALogin else IrAMiCuenta
  }

  /** The search text and the selected category chip. */
  class FiltroInicio {
    var textoBusqueda: string
    var categoriaSeleccionada: Option<string>

    constructor()
      ensures textoBusqueda == "" && categoriaSeleccionada.None?
    {
      textoBusqueda := "";
      categoriaSeleccionada := None;
    }

    function Visibles(productos: seq<Producto>): seq<Producto>
      reads this
    {
      ProductosFiltrados(productos, textoBusqueda, categoriaSeleccionada)
    }

    method CambiarTexto(t: string)
      modifies this`textoBusqueda
      ensures textoBusqueda == t
    {
      textoBusqueda := t;
    }

    /** A category chip (`Some`) or the "Todos" chip (`None`). */
    method ElegirCategoria(c: Option<string>)
      modifies this`categoriaSeleccionada
      ensures categoriaSeleccionada == c
    {
      categoriaSeleccionada := c;
    }
  }

  // ---------------------------------------------------------------------
  // Properties of the filter
  // ---------------------------------------------------------------------

  /** The filtered list keeps the catalogue's order and holds exactly the
      products that meet the condition. */
  lemma FiltradoEsSubsecuencia(productos: seq<Producto>, texto: string, categoria: Option<string>)
    ensures EsSubsecuencia(ProductosFiltrados(productos, texto, categoria), productos)
    ensures forall p :: p in ProductosFiltrados(productos, texto, categoria) <==>
                        p in productos && Coincide(p, texto, categoria)
  {
    FiltrarEsSubsecuencia(productos, p => Coincide(p, texto, categoria));
  }

  /** A fresh screen (blank text, "Todos") shows the whole catalogue. */
  lemma SinFiltroMuestraTodo(productos: seq<Producto>, texto: string)
    requires EsBlanco(texto)
    ensures ProductosFiltrados(productos, texto, None) == productos
  {
    FiltrarTodo(productos, p => Coincide(p, texto, None));
  }

  /** With a chosen category every shown product has exactly that category. */
  lemma CategoriaExacta(productos: seq<Producto>, texto: string, c: string)
    ensures forall p :: p in ProductosFiltrados(productos, texto, Some(c)) ==> p.categoria == c
  {
  }

  /** With non-blank text every shown product mentions it, ignoring case, in
      its name or its description. */
  lemma BusquedaEncuentra(productos: seq<Producto>, texto: string, categoria: Option<string>)
    requires !EsBlanco(texto)
    ensures forall p :: p in ProductosFiltrados(productos, texto, categoria) ==>
      ContieneIgnorandoMayusculas(p.nombre, texto) || ContieneIgnorandoMayusculas(p.descripcion, texto)
  {
  }

  /** The category chips: every category once, in order of first appearance,
      never more chips than products. */
  lemma CategoriasDistintas(productos: seq<Producto>)
    ensures forall c :: c in Categorias(productos) <==> exists i :: 0 <= i < |productos| && productos[i].categoria == c
    ensures SinRepetidos(Categorias(productos))
    ensures |Categorias(productos)| <= |productos|
    ensures var cs := seq(|productos|, i requires 0 <= i < |productos| => productos[i].categoria);
      forall i, j :: 0 <= i < j < |Categorias(productos)| ==>
        PrimeraPosicion(cs, Categorias(productos)[i]) < PrimeraPosicion(cs, Categorias(productos)[j])
  {
    var cs := seq(|productos|, i requires 0 <= i < |productos| => productos[i].categoria);
    DistintasEnOrden(cs);
    forall c | c in Categorias(productos) ensures exists i :: 0 <= i < |productos| && productos[i].categoria == c {
      var i :| 0 <= i < |cs| && cs[i] == c;
    }
    forall c | exists i :: 0 <= i < |productos| && productos[i].categoria == c ensures c in Categorias(productos) {
      var i :| 0 <= i < |productos| && productos[i].categoria == c;
      assert cs[i] == c;
    }
  }

  /** The badge counts lines, not units: one line of three units shows "1". */
  lemma InsigniaCuentaLineas(it: ItemCarrito)
    ensures Insignia([it]) == Some("1")
    ensures Insignia([it, it.(cantidad := 3)]) == Some("2")
  {
  }
}
