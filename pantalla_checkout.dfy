// The checkout form: its fields, the filters on the card fields, the checks
// that enable the pay button, and what the screen does with events.
module PantallaCheckout {
  import opened Opciones
  import opened Texto
  import opened Entidades
  import opened VistaCarrito
  import opened PantallaCarrito

  const DEBITO: string := "Debito"
  const TRANSFERENCIA: string := "Transf"

  class FormularioCheckout {
    var nombre: string
    var direccion: string
    var telefono: string
    var metodoPago: string
    var numeroTarjeta: string
    var fechaVencimiento: string
    var cvv: string

    /** What the card-field filters guarantee. */
    ghost predicate Valid()
      reads this
    {
      Longitud(numeroTarjeta) <= 16 && TodosDigitos(numeroTarjeta) &&
      Longitud(fechaVencimiento) <= 5 &&
      Longitud(cvv) <= 3 && TodosDigitos(cvv)
    }

    /** The shipping fields start from the signed-in user, if any; payment is
        by debit card until changed. */
    constructor(usuario: Option<UsuarioEntity>)
      ensures Valid()
      ensures nombre == (if usuario.Some? then usuario.value.nombreCompleto else "")
      ensures direccion == (if usuario.Some? then usuario.value.direccion else "")
      ensures telefono == (if usuario.Some? then usuario.value.telefono else "")
      ensures metodoPago == DEBITO && numeroTarjeta == "" && fechaVencimiento == "" && cvv == ""
    {
      nombre := if usuario.Some? then usuario.value.nombreCompleto else "";
      direccion := if usuario.Some? then usuario.value.direccion else "";
      telefono := if usuario.Some? then usuario.value.telefono else "";
      metodoPago := DEBITO;
      numeroTarjeta := "";
      fechaVencimiento := "";
      cvv := "";
    }

    predicate EsEnvioValido()
      reads this
    {
      Longitud(nombre) > 3 && Longitud(direccion) > 5 && Longitud(telefono) >= 8
    }

    /** Card data counts only for debit; any other method needs none. */
    predicate EsTarjetaValida()
      reads this
    {
      if metodoPago == DEBITO then Longitud(numeroTarjeta) == 16 && Longitud(fechaVencimiento) == 5 && Longitud(cvv) == 3
      else true
    }

    predicate PagoHabilitado(estaProcesando: bool)
      reads this
    {
      !estaProcesando && EsEnvioValido() && EsTarjetaValida()
    }

    method CambiarNombre(v: string)
      modifies this`nombre
      ensures nombre == v
    {
      nombre := v;
    }

    method CambiarDireccion(v: string)
      modifies this`direccion
      ensures direccion == v
    {
      direccion := v;
    }

    method CambiarTelefono(v: string)
      modifies this`telefono
      ensures telefono == v
    {
      telefono := v;
    }

    method ElegirMetodo(v: string)
      requires v == DEBITO || v == TRANSFERENCIA
      modifies this`metodoPago
      ensures metodoPago == v
    {
      metodoPago := v;
    }

    /** An edit of the card number is taken only if it is all digits and at
        most 16 long; otherwise the field keeps its value. */
    method CambiarNumeroTarjeta(v: string)
      requires Valid()
      modifies this`numeroTarjeta
      ensures Valid()
      ensures numeroTarjeta == if Longitud(v) <= 16 && TodosDigitos(v) then v else old(numeroTarjeta)
    {
      if Longitud(v) <= 16 && TodosDigitos(v) {
        numeroTarjeta := v;
      }
    }

    method CambiarFechaVencimiento(v: string)
      requires Valid()
      modifies this`fechaVencimiento
      ensures Valid()
      ensures fechaVencimiento == if Longitud(v) <= 5 then v else old(fechaVencimiento)
    {
      if Longitud(v) <= 5 {
        fechaVencimiento := v;
      }
    }

    method CambiarCvv(v: string)
      requires Valid()
      modifies this`cvv
      ensures Valid()
      ensures cvv == if Longitud(v) <= 3 && TodosDigitos(v) then v else old(cvv)
    {
      if Longitud(v) <= 3 && TodosDigitos(v) {
        cvv := v;
      }
    }

    /** Pressing "CONFIRMAR PAGO": an enabled button starts the checkout with the
        form's data and the buyer's Duoc status; a disabled one does nothing.
        So a checkout never starts while another is running. */
    method PulsarConfirmar(vm: CarritoViewModel, usuario: Option<UsuarioEntity>, fecha: string, uuid: string)
      requires vm.Valid()
      modifies vm, vm.dao
      ensures vm.Valid()
      ensures old(PagoHabilitado(vm.estaProcesando)) ==>
        vm.ordenFinal == Some(Orden(old(vm.ItemsCarrito()), old(vm.TotalCarrito()), nombre, direccion,
                                    metodoPago, EsDuoc(usuario), fecha, uuid)) &&
        vm.eventos == old(vm.eventos) + [NavegarAPagoExitoso(IdTransaccion(uuid))] &&
        vm.dao.filas == [] && !vm.estaProcesando
      ensures !old(PagoHabilitado(vm.estaProcesando)) ==>
        vm.ordenFinal == old(vm.ordenFinal) && vm.eventos == old(vm.eventos) && vm.dao.filas == old(vm.dao.filas) &&
        vm.estaProcesando == old(vm.estaProcesando)
    {
      if PagoHabilitado(vm.estaProcesando) {
        vm.ProcesarPago(nombre, direccion, metodoPago, EsDuoc(usuario), fecha, uuid);
      }
    }
  }

  /** The transaction ids the checkout screen navigates with: one per
      navigation event, in order; messages are ignored. */
  function Navegaciones(eventos: seq<CarritoEvento>): (ids: seq<string>)
    ensures |ids| <= |eventos|
    ensures forall id :: id in ids ==> NavegarAPagoExitoso(id) in eventos
  {
    if eventos == [] then []
    else (if eventos[0].NavegarAPagoExitoso? then [eventos[0].idTransaccion] else [])
         + Navegaciones(eventos[1..])
  }

  lemma {:induction false} NavegacionesConcat(a: seq<CarritoEvento>, b: seq<CarritoEvento>)
    ensures Navegaciones(a + b) == Navegaciones(a) + Navegaciones(b)
  {
    if a != [] {
      assert (a + b)[1..] == a[1..] + b;
      NavegacionesConcat(a[1..], b);
    } else {
      assert a + b == b;
    }
  }

  /** A finished checkout makes the screen navigate exactly once more, with the
      recorded order's transaction id; a message makes it navigate nowhere. */
  lemma NavegaTrasPago(previos: seq<CarritoEvento>, uuid: string, m: string)
    ensures Navegaciones(previos + [NavegarAPagoExitoso(IdTransaccion(uuid))]) == Navegaciones(previos) + [IdTransaccion(uuid)]
    ensures Navegaciones(previos + [MostrarMensaje(m)]) == Navegaciones(previos)
  {
    NavegacionesConcat(previos, [NavegarAPagoExitoso(IdTransaccion(uuid))]);
    NavegacionesConcat(previos, [MostrarMensaje(m)]);
  }
}
