// The navigation routes: fixed names and the three routes built from an
// argument, read back the way the navigation graph extracts the argument.
module Navegacion {
  import opened Opciones
  import opened Texto

  const PORTADA: string := "portada"
  const HOME: string := "home"
  const DETALLE: string := "detalle"
  const CARRITO: string := "carrito"
  const MI_CUENTA: string := "mi_cuenta"
  const LOGIN_UNIVERSAL: string := "login_universal"
  const REGISTRO_USUARIO: string := "registro_usuario"
  const CHECKOUT: string := "checkout"
  const PAGO_EXITOSO: string := "pago_exitoso"
  const PANEL_ADMIN: string := "panel_admin"
  const PRODUCTOS_API: string := "productos_api"
  const FORMULARIO_PRODUCTO: string := "formulario_producto?productoId={productoId}"

  /** What `formularioEditar` puts before the id. */
  const PREFIJO_FORMULARIO: string := "formulario_producto?productoId="

  /** The routes named by a constant. */
  function RutasFijas(): seq<string> {
    [PORTADA, HOME, DETALLE, CARRITO, MI_CUENTA, LOGIN_UNIVERSAL, REGISTRO_USUARIO,
     CHECKOUT, PAGO_EXITOSO, PANEL_ADMIN, PRODUCTOS_API, FORMULARIO_PRODUCTO]
  }

  /** `detalleConId` for a 32-bit `id`. */
  function DetalleConId(id: int): (r: string)
    requires MIN_INT <= id <= MAX_INT
    ensures ArgumentoEntero(DETALLE + "/", r) == Some(id)
  {
    var r := DETALLE + "/" + IntADecimal(id);
    assert r[..|DETALLE + "/"|] == DETALLE + "/" && r[|DETALLE + "/"|..] == IntADecimal(id);
    AIntONullDeIntADecimal(id);
    r
  }

  /** `formularioEditar` for a 32-bit `id`. */
  function FormularioEditar(id: int): (r: string)
    requires MIN_INT <= id <= MAX_INT
    ensures ArgumentoEntero(PREFIJO_FORMULARIO, r) == Some(id)
  {
    var r := PREFIJO_FORMULARIO + IntADecimal(id);
    assert r[..|PREFIJO_FORMULARIO|] == PREFIJO_FORMULARIO && r[|PREFIJO_FORMULARIO|..] == IntADecimal(id);
    AIntONullDeIntADecimal(id);
    r
  }

  function PagoExitosoConId(idTransaccion: string): (r: string)
    ensures ArgumentoTras(PAGO_EXITOSO + "/", r) == Some(idTransaccion)
  {
    var r := PAGO_EXITOSO + "/" + idTransaccion;
    assert r[..|PAGO_EXITOSO + "/"|] == PAGO_EXITOSO + "/";
    r
  }

  /** The text after `prefijo`, when the route starts with it. */
  function ArgumentoTras(prefijo: string, ruta: string): (r: Option<string>)
    ensures r.Some? <==> |prefijo| <= |ruta| && ruta[..|prefijo|] == prefijo
    ensures r.Some? ==> ruta == prefijo + r.value
  {
    if |prefijo| <= |ruta| && ruta[..|prefijo|] == prefijo then
      assert ruta == ruta[..|prefijo|] + ruta[|prefijo|..];
      Some(ruta[|prefijo|..])
    else None
  }

  /** An `IntType` argument: the text after the prefix read as a 32-bit
      integer. */
  function ArgumentoEntero(prefijo: string, ruta: string): Option<int> {
    match ArgumentoTras(prefijo, ruta)
    case Some(t) => AIntONull(t)
    case None => None
  }

  /** Different products have different detail routes, and different
      edit-form routes. */
  lemma RutasConIdInyectivas(a: int, b: int)
    requires MIN_INT <= a <= MAX_INT && MIN_INT <= b <= MAX_INT && a != b
    ensures DetalleConId(a) != DetalleConId(b)
    ensures FormularioEditar(a) != FormularioEditar(b)
  {
  }

  /** The edit route is the form's route pattern with the placeholder
      replaced by the id. */
  lemma FormularioEditarSigueElPatron(id: int)
    requires MIN_INT <= id <= MAX_INT
    ensures FORMULARIO_PRODUCTO == PREFIJO_FORMULARIO + "{productoId}"
    ensures FormularioEditar(id) == PREFIJO_FORMULARIO + IntADecimal(id)
  {
  }

  /** The fixed routes are pairwise distinct: any two differ in length or
      in their first character. */
  lemma RutasFijasDistintas()
    ensures forall i, j :: 0 <= i < j < |RutasFijas()| ==> RutasFijas()[i] != RutasFijas()[j]
  {
    var f := RutasFijas();
    forall i, j | 0 <= i < j < |f| ensures f[i] != f[j] {
      assert |f[i]| != |f[j]| || f[i][0] != f[j][0];
    }
  }

  /** No detail route or payment route is one of the fixed routes: each
      has a '/' where no fixed route has one. */
  lemma RutasConArgumentoNoSonFijas(id: int, idTransaccion: string)
    requires MIN_INT <= id <= MAX_INT
    ensures DetalleConId(id) !in RutasFijas()
    ensures PagoExitosoConId(idTransaccion) !in RutasFijas()
  {
    var f := RutasFijas();
    var d, p := |DETALLE|, |PAGO_EXITOSO|;
    assert forall i :: 0 <= i < |f| && d < |f[i]| ==> f[i][d] != '/';
    assert forall i :: 0 <= i < |f| && p < |f[i]| ==> f[i][p] != '/';
    assert DetalleConId(id)[d] == '/';
    assert PagoExitosoConId(idTransaccion)[p] == '/';
  }
}
