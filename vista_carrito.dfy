// The cart view model: it talks to the `carrito` DAO directly, derives the
// cart lines and their total, and announces what it did on an event channel.
module VistaCarrito {
  import opened Opciones
  import opened Texto
  import opened Sumas
  import opened Dominio
  import opened Entidades
  import opened CarritoDatos

  /** What the view model sends to the screens. */
  datatype CarritoEvento =
    | MostrarMensaje(mensaje: string)
    | NavegarAPagoExitoso(idTransaccion: string)

  /** The order recorded by a checkout. */
  datatype DatosOrden = DatosOrden(
    idTransaccion: string,
    items: seq<ItemCarrito>,
    subtotal: real,
    montoDescuento: real,
    totalFinal: real,
    fecha: string,
    cliente: string,
    direccion: string,
    metodoPago: string,
    esDuoc: bool)

  function MensajeAgregado(nombre: string): string {
    "\U{2705} " + nombre + " agregado"
  }

  const MENSAJE_VACIADO: string := "\U{1F5D1}\U{FE0F} Carrito vaciado"
  const MENSAJE_ELIMINADO: string := "\U{274C} Producto eliminado"

  /** The Duoc discount: a tenth of the subtotal for Duoc users, nothing for
      anybody else (the same expression on the cart and checkout screens). */
  function MontoDescuento(subtotal: real, esDuoc: bool): real {
    if esDuoc then subtotal * 0.10 else 0.0
  }

  function TotalFinal(subtotal: real, esDuoc: bool): real {
    subtotal - MontoDescuento(subtotal, esDuoc)
  }

  /** The discount never exceeds a non-negative subtotal: Duoc users pay nine
      tenths, everybody else pays the subtotal, and discount plus total is
      always the subtotal. */
  lemma DescuentoPropiedades(subtotal: real, esDuoc: bool)
    requires subtotal >= 0.0
    ensures 0.0 <= MontoDescuento(subtotal, esDuoc) <= subtotal
    ensures MontoDescuento(subtotal, esDuoc) + TotalFinal(subtotal, esDuoc) == subtotal
    ensures esDuoc ==> TotalFinal(subtotal, esDuoc) == subtotal * 9.0 / 10.0
    ensures !esDuoc ==> TotalFinal(subtotal, esDuoc) == subtotal
    ensures MontoDescuento(subtotal, esDuoc) > 0.0 <==> esDuoc && subtotal > 0.0
  {
  }

  /** A lower-case hexadecimal digit, as `UUID.toString()` writes them. */
  predicate EsHex(c: char) {
    ('0' <= c <= '9') || ('a' <= c <= 'f')
  }

  /** The text of a random UUID: 36 characters, hyphens at 8, 13, 18 and 23. */
  predicate EsUuid(u: string) {
    |u| == 36 &&
    forall i :: 0 <= i < 36 ==> if i == 8 || i == 13 || i == 18 || i == 23 then u[i] == '-' else EsHex(u[i])
  }

  /** `"TRX-" + uuid.take(8).uppercase()`. */
  function IdTransaccion(uuid: string): string {
    "TRX-" + Mayusculas(Tomar(uuid, 8))
  }

  /** For a UUID the transaction id is "TRX-" and eight characters. */
  lemma IdTransaccionForma(uuid: string)
    requires EsUuid(uuid)
    ensures |IdTransaccion(uuid)| == 12 && IdTransaccion(uuid)[..4] == "TRX-"
  {
    var t := Tomar(uuid, 8);
    assert forall i :: 0 <= i < |t| ==> t[i] == uuid[i] && EsHex(uuid[i]);
    MayusculasLongitud(t);
  }

  /** The order a checkout records from the values read when it started. */
  function Orden(items: seq<ItemCarrito>, subtotal: real, cliente: string, direccion: string,
                 metodoPago: string, esDuoc: bool, fecha: string, uuid: string): DatosOrden
  {
    DatosOrden(IdTransaccion(uuid), items, subtotal, MontoDescuento(subtotal, esDuoc),
               TotalFinal(subtotal, esDuoc), fecha, cliente, direccion, metodoPago, esDuoc)
  }

  /** The recorded order keeps the lines and their total, applies the discount
      of the buyer's kind and carries the transaction id. */
  lemma OrdenCorrecta(items: seq<ItemCarrito>, cliente: string, direccion: string,
                      metodoPago: string, esDuoc: bool, fecha: string, uuid: string)
    ensures var o := Orden(items, Carrito(items).PrecioTotal(), cliente, direccion, metodoPago, esDuoc, fecha, uuid);
      o.items == items && o.subtotal == Carrito(items).PrecioTotal() &&
      o.montoDescuento + o.totalFinal == o.subtotal &&
      (esDuoc ==> o.montoDescuento == o.subtotal / 10.0) && (!esDuoc ==> o.montoDescuento == 0.0) &&
      o.idTransaccion == IdTransaccion(uuid)
  {
  }

  class CarritoViewModel {
    const dao: CarritoDao
    /** Everything sent on the event channel, oldest first. */
    var eventos: seq<CarritoEvento>
    var estaProcesando: bool
    var ordenFinal: Option<DatosOrden>
    /** A checkout waiting out its two-second delay, with the order it computed
        before the delay. */
    var pagoSuspendido: Option<DatosOrden>

    ghost predicate Valid()
      reads this, dao
    {
      dao.Valid() && (pagoSuspendido.Some? ==> estaProcesando)
    }

    constructor(dao: CarritoDao)
      requires dao.Valid()
      ensures this.dao == dao && Valid()
      ensures eventos == [] && !estaProcesando && ordenFinal == None && pagoSuspendido == None
    {
      this.dao := dao;
      eventos := [];
      estaProcesando := false;
      ordenFinal := None;
      pagoSuspendido := None;
    }

    /** `itemsCarrito`: one line per row, product rebuilt from the row. */
    function ItemsCarrito(): seq<ItemCarrito>
      reads this, dao
    {
      ItemsDeFilas(dao.filas)
    }

    /** `totalCarrito`: the sum of the lines' subtotals. */
    function TotalCarrito(): (t: real)
      reads this, dao
      ensures t == Carrito(ItemsCarrito()).PrecioTotal()
      ensures t == TotalSql(dao.filas).GetOr(0.0)
    {
      TotalesCoinciden(dao.filas);
      SumaR(ItemsCarrito(), SubtotalDe)
    }

    method AgregarAlCarrito(p: Producto)
      requires Valid()
      modifies dao, this`eventos
      ensures Valid()
      ensures dao.filas == Agregado(old(dao.filas), old(dao.secuencia), p, 1)
      ensures eventos == old(eventos) + [MostrarMensaje(MensajeAgregado(p.nombre))]
    {
      var existente := dao.ObtenerPorProductoId(p.id);
      if existente.None? {
        var ok := dao.Insertar(FilaNueva(p, 1));
      } else {
        dao.ActualizarCantidad(p.id, existente.value.cantidad + 1);
      }
      eventos := eventos + [MostrarMensaje(MensajeAgregado(p.nombre))];
    }

    method VaciarCarrito()
      requires Valid()
      modifies dao, this`eventos
      ensures Valid()
      ensures dao.filas == [] && TotalCarrito() == 0.0
      ensures eventos == old(eventos) + [MostrarMensaje(MENSAJE_VACIADO)]
    {
      dao.Vaciar();
      eventos := eventos + [MostrarMensaje(MENSAJE_VACIADO)];
    }

    /** Writes the quantity as given, even zero or negative, and sends nothing. */
    method ModificarCantidad(pid: int, cantidad: int)
      requires Valid()
      modifies dao
      ensures Valid()
      ensures dao.filas == FijarCantidad(old(dao.filas), pid, cantidad)
    {
      dao.ActualizarCantidad(pid, cantidad);
    }

    method EliminarProducto(pid: int)
      requires Valid()
      modifies dao, this`eventos
      ensures Valid()
      ensures dao.filas == QuitarProducto(old(dao.filas), pid)
      ensures eventos == old(eventos) + [MostrarMensaje(MENSAJE_ELIMINADO)]
    {
      dao.EliminarProducto(pid);
      eventos := eventos + [MostrarMensaje(MENSAJE_ELIMINADO)];
    }

    /** First half of `procesarPago`, up to its two-second delay: raise the
        flag and compute the order from the lines and total read now. The caller
        must not start a checkout while one is in progress (the buttons that
        start one are disabled while `estaProcesando`). */
    method IniciarPago(nombreCliente: string, direccion: string, metodoPago: string, esDuoc: bool,
                       fecha: string, uuid: string)
      requires Valid() && !estaProcesando
      modifies this`estaProcesando, this`pagoSuspendido
      ensures Valid() && estaProcesando
      ensures pagoSuspendido == Some(Orden(ItemsCarrito(), TotalCarrito(), nombreCliente, direccion,
                                           metodoPago, esDuoc, fecha, uuid))
    {
      estaProcesando := true;
      var itemsActuales := ItemsCarrito();
      var subtotalActual := TotalCarrito();
      pagoSuspendido := Some(Orden(itemsActuales, subtotalActual, nombreCliente, direccion,
                                   metodoPago, esDuoc, fecha, uuid));
    }

    /** Second half of `procesarPago`, after the delay: record the order, empty
        the table, lower the flag and announce the transaction. */
    method CompletarPago()
      requires Valid() && pagoSuspendido.Some?
      modifies dao, this
      ensures Valid()
      ensures ordenFinal == old(pagoSuspendido) && pagoSuspendido == None
      ensures dao.filas == [] && !estaProcesando
      ensures eventos == old(eventos) + [NavegarAPagoExitoso(old(pagoSuspendido).value.idTransaccion)]
    {
      ordenFinal := pagoSuspendido;
      dao.Vaciar();
      estaProcesando := false;
      eventos := eventos + [NavegarAPagoExitoso(pagoSuspendido.value.idTransaccion)];
      pagoSuspendido := None;
    }

    /** `procesarPago` run without anything interleaved in its delay: the order
        holds the lines and total from before, the cart ends empty, and exactly
        one navigation event carries the order's transaction id. */
    method ProcesarPago(nombreCliente: string, direccion: string, metodoPago: string, esDuoc: bool,
                        fecha: string, uuid: string)
      requires Valid() && !estaProcesando
      modifies dao, this
      ensures Valid() && !estaProcesando && pagoSuspendido == None
      ensures ordenFinal == Some(Orden(ItemsDeFilas(old(dao.filas)), TotalSql(old(dao.filas)).GetOr(0.0),
                                       nombreCliente, direccion, metodoPago, esDuoc, fecha, uuid))
      ensures dao.filas == [] && TotalCarrito() == 0.0
      ensures eventos == old(eventos) + [NavegarAPagoExitoso(IdTransaccion(uuid))]
    {
      IniciarPago(nombreCliente, direccion, metodoPago, esDuoc, fecha, uuid);
      CompletarPago();
    }
  }
}
