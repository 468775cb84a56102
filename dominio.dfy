// Domain records of the shop: products, cart lines, the cart with its
// derived totals, and the cart screen state.
module Dominio {
  import opened Texto
  import opened Formato
  import opened Sumas

  /** A catalogue product; prices are pesos, modelled exactly as `real`. */
  datatype Producto = Producto(
    id: int := 0,
    nombre: string,
    descripcion: string,
    precio: real,
    imagenUrl: string,
    categoria: string,
    stock: int)
  {
    /** `precioFormateado()`: "$" and the integer part grouped in threes. */
    function PrecioFormateado(): string {
      "$" + AgruparMiles(IntADecimal(TruncarAEntero(precio)))
    }

    predicate HayStock() {
      stock > 0
    }
  }

  /** One cart line: a product and how many units of it. */
  datatype ItemCarrito = ItemCarrito(producto: Producto, cantidad: int := 1) {
    function Subtotal(): real {
      producto.precio * cantidad as real
    }
  }

  function CantidadDe(it: ItemCarrito): int { it.cantidad }

  function SubtotalDe(it: ItemCarrito): real { it.Subtotal() }

  /** The whole cart with its derived totals. */
  datatype Carrito = Carrito(items: seq<ItemCarrito> := []) {
    function CantidadTotal(): int {
      SumaZ(items, CantidadDe)
    }

    function PrecioTotal(): real {
      SumaR(items, SubtotalDe)
    }

    predicate EstaVacio() {
      |items| == 0
    }
  }

  /** State of the cart screen; the cart is derived from the items. */
  datatype CarritoUiState = CarritoUiState(items: seq<ItemCarrito> := [], estaCargando: bool := false) {
    function CarritoActual(): (c: Carrito)
      ensures c.items == items
      ensures c.EstaVacio() <==> items == []
    {
      Carrito(items)
    }
  }

  // ---------------------------------------------------------------------
  // Properties of the records
  // ---------------------------------------------------------------------

  /** Formatting a whole, non-negative price: "$", then the decimal digits of
      the price grouped in threes from the right, with a "." between groups
      exactly when the price reaches 1000. */
  lemma PrecioFormateadoAgrupa(p: Producto, n: nat)
    requires p.precio == n as real
    ensures var r := p.PrecioFormateado();
      r[0] == '$' && QuitarPuntos(r[1..]) == NatADecimal(n) && BienAgrupado(r[1..]) &&
      (('.' in r) <==> n >= 1000)
  {
    var d := NatADecimal(n);
    assert TruncarAEntero(p.precio) == n;
    assert '.' !in d by {
      forall k | 0 <= k < |d| ensures d[k] != '.' { assert EsDigito(d[k]); }
    }
    AgruparMilesEsAgrupado(d);
    AgrupadoCorrecto(d);
    LongitudDecimal(n, 3);
    var r := p.PrecioFormateado();
    assert r == "$" + Agrupado(d);
    assert r[1..] == Agrupado(d);
    assert ('.' in r) <==> ('.' in r[1..]);
  }

  /** The documented example: 25000.0 is shown as "$25.000". */
  lemma PrecioFormateadoEjemplo(p: Producto)
    requires p.precio == 25000.0
    ensures p.PrecioFormateado() == "$25.000"
  {
    assert TruncarAEntero(p.precio) == 25000;
    DecimalDe25000();
    AgrupadoDe25000();
  }

  /** The digits of the example price. */
  lemma DecimalDe25000()
    ensures NatADecimal(25000) == "25000"
  {
    assert NatADecimal(2) == "2";
    assert NatADecimal(25) == "25";
    assert NatADecimal(250) == "250";
    assert NatADecimal(2500) == "2500";
  }

  /** The example's digits, grouped. */
  lemma AgrupadoDe25000()
    ensures AgruparMiles("25000") == "25.000"
  {
    var d: string := "25000";
    AgruparMilesEsAgrupado(d);
    assert d[..2] == "25" && d[2..] == "000";
  }

  /** With the default quantity a line costs exactly its product's price, and a
      line of zero units costs nothing. */
  lemma SubtotalCasos(p: Producto)
    ensures ItemCarrito(p).Subtotal() == p.precio
    ensures ItemCarrito(p, 0).Subtotal() == 0.0
  {
  }

  /** The subtotal is additive in the quantity. */
  lemma SubtotalAditivo(p: Producto, a: int, b: int)
    ensures ItemCarrito(p, a + b).Subtotal() == ItemCarrito(p, a).Subtotal() + ItemCarrito(p, b).Subtotal()
  {
  }

  /** The default cart is empty and both of its totals are zero. */
  lemma CarritoPorDefecto()
    ensures Carrito().EstaVacio()
    ensures Carrito().CantidadTotal() == 0 && Carrito().PrecioTotal() == 0.0
  {
  }

  /** The totals of a cart do not depend on the order of its lines. */
  lemma TotalesPermutacion(a: Carrito, b: Carrito)
    requires multiset(a.items) == multiset(b.items)
    ensures a.CantidadTotal() == b.CantidadTotal()
    ensures a.PrecioTotal() == b.PrecioTotal()
  {
    SumaZPermutacion(a.items, b.items, CantidadDe);
    SumaRPermutacion(a.items, b.items, SubtotalDe);
  }

  /** Totals of a cart split in two are the sums of the totals of the parts. */
  lemma TotalesConcat(a: seq<ItemCarrito>, b: seq<ItemCarrito>)
    ensures Carrito(a + b).CantidadTotal() == Carrito(a).CantidadTotal() + Carrito(b).CantidadTotal()
    ensures Carrito(a + b).PrecioTotal() == Carrito(a).PrecioTotal() + Carrito(b).PrecioTotal()
  {
    SumaZConcat(a, b, CantidadDe);
    SumaRConcat(a, b, SubtotalDe);
  }

  /** Lines with non-negative prices and quantities never total below zero. */
  lemma PrecioTotalNoNegativo(c: Carrito)
    requires forall i :: 0 <= i < |c.items| ==> c.items[i].producto.precio >= 0.0 && c.items[i].cantidad >= 0
    ensures c.PrecioTotal() >= 0.0
  {
    forall i | 0 <= i < |c.items| ensures SubtotalDe(c.items[i]) >= 0.0 {
      var it := c.items[i];
      assert it.producto.precio * it.cantidad as real >= 0.0;
    }
    SumaRNoNegativa(c.items, SubtotalDe);
  }

  /** The default screen state holds no lines and is not loading; the derived
      cart ignores the loading flag. */
  lemma CarritoUiStatePropiedades(s: CarritoUiState, cargando: bool)
    ensures CarritoUiState().items == [] && !CarritoUiState().estaCargando
    ensures s.(estaCargando := cargando).CarritoActual() == s.CarritoActual()
  {
  }
}
