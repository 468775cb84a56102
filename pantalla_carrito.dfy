// The decisions the cart screen takes: price text, the quantity buttons, the
// checkout button, the discount display and the reaction to events.
module PantallaCarrito {
  import opened Opciones
  import opened Texto
  import opened Formato
  import opened Dominio
  import opened Entidades
  import opened CarritoDatos
  import opened VistaCarrito

  /** `formatearPrecio(precio)`. */
  function FormatearPrecio(precio: real): string {
    "$" + AgruparMiles(IntADecimal(TruncarAEntero(precio)))
  }

  /** The screen's formatter and the product's own one agree on every price. */
  lemma FormatearPrecioEsPrecioFormateado(p: Producto)
    ensures FormatearPrecio(p.precio) == p.PrecioFormateado()
  {
  }

  /** A whole, non-negative amount is shown as "$" and its decimal digits in
      groups of three from the right; deleting "$" and the dots gives the
      digits back, and a dot appears exactly from 1000 on. */
  lemma FormatearPrecioAgrupa(n: nat)
    ensures var r := FormatearPrecio(n as real);
      r[0] == '$' && QuitarPuntos(r[1..]) == NatADecimal(n) && BienAgrupado(r[1..]) &&
      (('.' in r) <==> n >= 1000)
  {
    var p := Producto(nombre := "", descripcion := "", precio := n as real, imagenUrl := "", categoria := "", stock := 0);
    PrecioFormateadoAgrupa(p, n);
  }

  /** `usuario?.esDuoc == true`. */
  predicate EsDuoc(usuario: Option<UsuarioEntity>) {
    usuario.Some? && usuario.value.esDuoc
  }

  /** The quantity the "−" button asks for; `None` while it is disabled. */
  function PeticionMenos(it: ItemCarrito): (r: Option<int>)
    ensures r.Some? <==> it.cantidad > 1
    ensures r.Some? ==> r.value == it.cantidad - 1 && r.value >= 1
  {
    if it.cantidad > 1 then Some(it.cantidad - 1) else None
  }

  /** The quantity the "+" button asks for. */
  function PeticionMas(it: ItemCarrito): (r: int)
    ensures it.cantidad >= 0 ==> r >= 1
  {
    it.cantidad + 1
  }

  /** "IR A PAGAR" is enabled with lines in the cart and no checkout running. */
  predicate IrAPagarHabilitado(items: seq<ItemCarrito>, estaProcesando: bool) {
    |items| > 0 && !estaProcesando
  }

  /** The struck-through subtotal shows only for a Duoc user with a discount. */
  predicate MuestraSubtotalTachado(esDuoc: bool, subtotal: real) {
    esDuoc && MontoDescuento(subtotal, esDuoc) > 0.0
  }

  lemma SubtotalTachadoSii(esDuoc: bool, subtotal: real)
    ensures MuestraSubtotalTachado(esDuoc, subtotal) <==> esDuoc && subtotal > 0.0
  {
  }

  /** Every quantity row stays at 1 or more. */
  predicate CantidadesPositivas(filas: seq<CarritoEntity>) {
    forall i :: 0 <= i < |filas| ==> filas[i].cantidad >= 1
  }

  /** The view model writes quantities as given, so only the screen keeps them
      positive: a request from either button leaves every row at 1 or more. */
  lemma PeticionesMantienenPositivas(filas: seq<CarritoEntity>, i: int, masUno: bool)
    requires CantidadesPositivas(filas) && 0 <= i < |filas|
    requires masUno || PeticionMenos(ItemsDeFilas(filas)[i]).Some?
    ensures var it := ItemsDeFilas(filas)[i];
      var q := if masUno then PeticionMas(it) else PeticionMenos(it).value;
      CantidadesPositivas(FijarCantidad(filas, it.producto.id, q))
  {
    var it := ItemsDeFilas(filas)[i];
    var q := if masUno then PeticionMas(it) else PeticionMenos(it).value;
    assert q >= 1;
  }

  /** What the screen does with one event. */
  datatype Reaccion = Snackbar(mensaje: string) | IrACheckout(destino: string)

  function ReaccionA(ev: CarritoEvento): (r: Reaccion)
    ensures ev.MostrarMensaje? <==> r.Snackbar?
    ensures ev.MostrarMensaje? ==> r.mensaje == ev.mensaje
    ensures ev.NavegarAPagoExitoso? ==> r.destino == ev.idTransaccion
  {
    match ev
    case MostrarMensaje(m) => Snackbar(m)
    case NavegarAPagoExitoso(id) => IrACheckout(id)
  }

  /** The reaction to pressing "IR A PAGAR". */
  const IR_A_PAGAR: Reaccion := IrACheckout("checkout")
}
