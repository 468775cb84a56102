// The admin panel: the statistics tab and the delete-confirmation dialog.
module PantallaAdmin {
  import opened Opciones
  import opened Dominio
  import opened Sumas
  import opened Listas

  function StockDe(p: Producto): int { p.stock }

  function ValorDe(p: Producto): real { p.precio * p.stock as real }

  /** The four figures of `EstadisticasPanel`. */
  datatype Estadisticas = Estadisticas(
    totalProductos: int,
    stockTotal: int,
    valorInventario: real,
    categorias: int)

  function CategoriasDe(productos: seq<Producto>): seq<string> {
    seq(|productos|, i requires 0 <= i < |productos| => productos[i].categoria)
  }

  function EstadisticasDe(productos: seq<Producto>): (e: Estadisticas)
    ensures e.totalProductos == |productos|
    ensures 0 <= e.categorias <= e.totalProductos
    ensures e.categorias == 0 <==> productos == []
  {
    var cs := CategoriasDe(productos);
    var d := Distintas(cs);
    assert productos != [] ==> cs[0] in d;
    Estadisticas(|productos|, SumaZ(productos, StockDe), SumaR(productos, ValorDe), |d|)
  }

  /** Stock and inventory value of a catalogue split in two are the sums over
      the parts, whichever part is listed first. */
  lemma EstadisticasAditivas(a: seq<Producto>, b: seq<Producto>)
    ensures EstadisticasDe(a + b).stockTotal == EstadisticasDe(a).stockTotal + EstadisticasDe(b).stockTotal
    ensures EstadisticasDe(a + b).valorInventario == EstadisticasDe(a).valorInventario + EstadisticasDe(b).valorInventario
    ensures EstadisticasDe(a + b).stockTotal == EstadisticasDe(b + a).stockTotal
    ensures EstadisticasDe(a + b).valorInventario == EstadisticasDe(b + a).valorInventario
  {
    SumaZConcat(a, b, StockDe);
    SumaRConcat(a, b, ValorDe);
    SumaZConcat(b, a, StockDe);
    SumaRConcat(b, a, ValorDe);
  }

  /** The figures do not depend on the order of the catalogue: any reordering
      of the same products gives the same count, stock total and inventory
      value. */
  lemma EstadisticasPermutacion(a: seq<Producto>, b: seq<Producto>)
    requires multiset(a) == multiset(b)
    ensures EstadisticasDe(a).totalProductos == EstadisticasDe(b).totalProductos
    ensures EstadisticasDe(a).stockTotal == EstadisticasDe(b).stockTotal
    ensures EstadisticasDe(a).valorInventario == EstadisticasDe(b).valorInventario
  {
    assert |a| == |multiset(a)| == |multiset(b)| == |b|;
    SumaZPermutacion(a, b, StockDe);
    SumaRPermutacion(a, b, ValorDe);
  }

  /** With non-negative prices and stocks the inventory is worth at least 0. */
  lemma ValorNoNegativo(productos: seq<Producto>)
    requires forall i :: 0 <= i < |productos| ==> productos[i].precio >= 0.0 && productos[i].stock >= 0
    ensures EstadisticasDe(productos).valorInventario >= 0.0
  {
    forall i | 0 <= i < |productos| ensures ValorDe(productos[i]) >= 0.0 {
      var p := productos[i];
      assert p.precio * p.stock as real >= 0.0;
    }
    SumaRNoNegativa(productos, ValorDe);
  }

  /** A catalogue whose products all share one category counts one category. */
  lemma {:induction false} UnaSolaCategoria(productos: seq<Producto>, c: string)
    requires productos != []
    requires forall i :: 0 <= i < |productos| ==> productos[i].categoria == c
    ensures EstadisticasDe(productos).categorias == 1
  {
    DistintasConstante(CategoriasDe(productos), c);
  }

  const PESTANA_PRODUCTOS: int := 0
  const PESTANA_ESTADISTICAS: int := 1

  /** The panel's screen state, with the calls it has made to
      `onEliminarProducto`. */
  class PanelAdmin {
    var mostrarDialogoEliminar: Option<Producto>
    var pestanaSeleccionada: int
    var mostrarUsuarios: bool
    var eliminados: seq<Producto>

    constructor()
      ensures mostrarDialogoEliminar.None? && pestanaSeleccionada == PESTANA_PRODUCTOS
      ensures !mostrarUsuarios && eliminados == []
    {
      mostrarDialogoEliminar := None;
      pestanaSeleccionada := 0;
      mostrarUsuarios := false;
      eliminados := [];
    }

    /** The add button shows only on the products tab. */
    predicate BotonAgregarVisible()
      reads this
    {
      pestanaSeleccionada == 0
    }

    method ElegirPestana(i: int)
      requires i == PESTANA_PRODUCTOS || i == PESTANA_ESTADISTICAS
      modifies this`pestanaSeleccionada
      ensures pestanaSeleccionada == i
      ensures BotonAgregarVisible() <==> i == PESTANA_PRODUCTOS
    {
      pestanaSeleccionada := i;
    }

    method AlternarUsuarios()
      modifies this`mostrarUsuarios
      ensures mostrarUsuarios == !old(mostrarUsuarios)
    {
      mostrarUsuarios := !mostrarUsuarios;
    }

    /** The delete icon of a card opens the dialog for that product; nothing is
        deleted yet. */
    method PedirEliminar(p: Producto)
      modifies this`mostrarDialogoEliminar
      ensures mostrarDialogoEliminar == Some(p)
    {
      mostrarDialogoEliminar := Some(p);
    }

    /** "Eliminar" in the dialog: the pending product is deleted once and the
        dialog closes. */
    method Confirmar()
      requires mostrarDialogoEliminar.Some?
      modifies this`mostrarDialogoEliminar, this`eliminados
      ensures eliminados == old(eliminados) + [old(mostrarDialogoEliminar).value]
      ensures mostrarDialogoEliminar.None?
    {
      eliminados := eliminados + [mostrarDialogoEliminar.value];
      mostrarDialogoEliminar := None;
    }

    /** "Cancelar" or a tap outside: the dialog closes, nothing is deleted. */
    method Descartar()
      modifies this`mostrarDialogoEliminar
      ensures mostrarDialogoEliminar.None?
    {
      mostrarDialogoEliminar := None;
    }
  }
}
