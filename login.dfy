// The two sign-in screens: the universal one (admin credentials or a
// customer's email) and the admin-only one.
module Login {
  import opened Opciones
  import opened Texto
  import opened Preferencias
  import opened VistaUsuario

  // ---------------------------------------------------------------------
  // Universal sign-in
  // ---------------------------------------------------------------------

  const MSG_COMPLETA_DATOS: string := "Completa los datos"

  /** What pressing "Ingresar" does. */
  datatype AccionIngreso =
    | EntrarAdmin(username: string)
    | BuscarCliente(email: string)
    | FaltanDatos

  /** The admin credentials win; otherwise a non-blank input is looked up
      as a customer email and the password is ignored. */
  function Ingresar(input: string, password: string): (a: AccionIngreso)
    ensures a.EntrarAdmin? <==> input == ADMIN_USERNAME && password == ADMIN_PASSWORD
    ensures a.EntrarAdmin? ==> a.username == input
    ensures a.BuscarCliente? <==> !ValidarCredencialesAdmin(input, password) && !EsBlanco(input)
    ensures a.BuscarCliente? ==> a.email == input
    ensures a.FaltanDatos? <==> EsBlanco(input)
  {
    if ValidarCredencialesAdmin(input, password) then
      assert !EsEspacio(input[0]);
      EntrarAdmin(input)
    else if !EsBlanco(input) then BuscarCliente(input)
    else FaltanDatos
  }

  /** The effect that moves on to the customer's home: a user is set and
      nothing is loading. */
  predicate DebeEntrarCliente(a: AuthState) {
    a.usuarioActual.Some? && !a.estaCargando
  }

  class LoginUniversal {
    var input: string
    var password: string
    var mensajeError: Option<string>

    constructor()
      ensures input == "" && password == "" && mensajeError.None?
    {
      input := "";
      password := "";
      mensajeError := None;
    }

    method CambiarInput(valor: string)
      modifies this
      ensures input == valor && password == old(password) && mensajeError.None?
    {
      input := valor;
      mensajeError := None;
    }

    method CambiarPassword(valor: string)
      modifies this
      ensures password == valor && input == old(input) && mensajeError.None?
    {
      password := valor;
      mensajeError := None;
    }

    /** Saves the admin session or reports missing data; a customer lookup
      is returned for the view model to run. */
    method PulsarIngresar(preferencias: PreferenciasManager) returns (accion: AccionIngreso)
      modifies this`mensajeError, preferencias
      ensures accion == Ingresar(input, password)
      ensures preferencias.prefs == if accion.EntrarAdmin? then ConSesionAdmin(old(preferencias.prefs), input)
                                    else old(preferencias.prefs)
      ensures mensajeError == if accion.FaltanDatos? then Some(MSG_COMPLETA_DATOS) else old(mensajeError)
    {
      accion := Ingresar(input, password);
      if ValidarCredencialesAdmin(input, password) {
        preferencias.GuardarSesionAdmin(input);
        return;
      }
      if EsBlanco(input) {
        mensajeError := Some(MSG_COMPLETA_DATOS);
      }
    }
  }

  /** A customer found by the lookup moves on; one not found does not. */
  lemma IngresoClienteAvanza(u: Entidades.UsuarioEntity)
    ensures DebeEntrarCliente(AuthState(false, Some(u), None))
    ensures !DebeEntrarCliente(AuthState(false, None, Some(ERROR_SIN_CUENTA)))
    ensures !DebeEntrarCliente(AuthState(true, Some(u), None))
  {
  }

  // ---------------------------------------------------------------------
  // Admin sign-in
  // ---------------------------------------------------------------------

  const MSG_COMPLETA_CAMPOS: string := "Completa todos los campos"
  const MSG_CREDENCIALES_INCORRECTAS: string := "Credenciales incorrectas"

  datatype ResultadoAdmin = CamposIncompletos | CredencialesIncorrectas | Exitoso

  /** The `when` of the button: blank fields first, then the check. */
  function IniciarSesionAdmin(username: string, password: string, validar: (string, string) -> bool): (r: ResultadoAdmin)
    ensures r.CamposIncompletos? <==> EsBlanco(username) || EsBlanco(password)
    ensures r.Exitoso? <==> !EsBlanco(username) && !EsBlanco(password) && validar(username, password)
  {
    if EsBlanco(username) || EsBlanco(password) then CamposIncompletos
    else if validar(username, password) then Exitoso
    else CredencialesIncorrectas
  }

  /** With the stored credentials as the check, the admin screen lets in
      exactly "admin" / "admin123". */
  lemma AdminSoloConCredenciales(username: string, password: string)
    ensures IniciarSesionAdmin(username, password, ValidarCredencialesAdmin).Exitoso? <==>
            username == ADMIN_USERNAME && password == ADMIN_PASSWORD
  {
    if username == ADMIN_USERNAME && password == ADMIN_PASSWORD {
      assert !EsEspacio(username[0]) && !EsEspacio(password[0]);
    }
  }

  class LoginAdmin {
    var username: string
    var password: string
    var mostrarPassword: bool
    var mensajeError: Option<string>

    constructor()
      ensures username == "" && password == "" && !mostrarPassword && mensajeError.None?
    {
      username := "";
      password := "";
      mostrarPassword := false;
      mensajeError := None;
    }

    method CambiarUsername(valor: string)
      modifies this
      ensures username == valor && password == old(password) && mensajeError.None?
      ensures mostrarPassword == old(mostrarPassword)
    {
      username := valor;
      mensajeError := None;
    }

    method CambiarPassword(valor: string)
      modifies this
      ensures password == valor && username == old(username) && mensajeError.None?
      ensures mostrarPassword == old(mostrarPassword)
    {
      password := valor;
      mensajeError := None;
    }

    /** `sesion` is the name handed to `onGuardarSesion` before
        `onLoginExitoso`, when the sign-in succeeds. */
    method PulsarIniciarSesion(validar: (string, string) -> bool) returns (sesion: Option<string>)
      modifies this`mensajeError
      ensures var r := IniciarSesionAdmin(username, password, validar);
        (sesion.Some? <==> r.Exitoso?) && (sesion.Some? ==> sesion.value == username) &&
        mensajeError == match r
                        case CamposIncompletos => Some(MSG_COMPLETA_CAMPOS)
                        case CredencialesIncorrectas => Some(MSG_CREDENCIALES_INCORRECTAS)
                        case Exitoso => old(mensajeError)
    {
      if EsBlanco(username) || EsBlanco(password) {
        mensajeError := Some(MSG_COMPLETA_CAMPOS);
        sesion := None;
      } else if validar(username, password) {
        sesion := Some(username);
      } else {
        mensajeError := Some(MSG_CREDENCIALES_INCORRECTAS);
        sesion := None;
      }
    }
  }
}
