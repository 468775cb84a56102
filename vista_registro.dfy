// The registration screen's state holder: every edit stores the field and
// re-validates that field alone.
module VistaRegistro {
  import opened Opciones
  import opened Texto
  import opened Validacion

  datatype RegistroUiState = RegistroUiState(
    formulario: FormularioRegistro := FormularioRegistro(),
    errores: ErroresFormulario := ErroresFormulario(),
    estaGuardando: bool := false,
    registroExitoso: bool := false)

  /** One `on...Change` call and its argument. */
  datatype Edicion =
    | Nombre(nombre: string)
    | Email(email: string)
    | Telefono(telefono: string)
    | Direccion(direccion: string)
    | Password(password: string)
    | ConfirmarPassword(confirmar: string)
    | Terminos(acepta: bool)

  /** The state after one edit: the field takes the new value and its own
      error slot is recomputed; the confirmation is checked against the
      password stored at that moment. */
  function Aplicar(s: RegistroUiState, e: Edicion): (r: RegistroUiState)
    ensures r.estaGuardando == s.estaGuardando && r.registroExitoso == s.registroExitoso
    ensures !e.Password? ==> r.formulario.password == s.formulario.password
    ensures !e.ConfirmarPassword? ==> r.formulario.confirmarPassword == s.formulario.confirmarPassword &&
                                      r.errores.confirmarPasswordError == s.errores.confirmarPasswordError
    ensures e.ConfirmarPassword? ==>
      (r.errores.confirmarPasswordError.None? <==> !EsBlanco(e.confirmar) && e.confirmar == s.formulario.password)
  {
    var f, x := s.formulario, s.errores;
    match e
    case Nombre(v) =>
      s.(formulario := f.(nombreCompleto := v), errores := x.(nombreCompletoError := ValidarNombreCompleto(v)))
    case Email(v) =>
      s.(formulario := f.(email := v), errores := x.(emailError := ValidarEmail(v)))
    case Telefono(v) =>
      s.(formulario := f.(telefono := v), errores := x.(telefonoError := ValidarTelefono(v)))
    case Direccion(v) =>
      s.(formulario := f.(direccion := v), errores := x.(direccionError := ValidarDireccion(v)))
    case Password(v) =>
      s.(formulario := f.(password := v), errores := x.(passwordError := ValidarPassword(v)))
    case ConfirmarPassword(v) =>
      s.(formulario := f.(confirmarPassword := v),
         errores := x.(confirmarPasswordError := ValidarConfirmarPassword(f.password, v)))
    case Terminos(v) =>
      s.(formulario := f.(aceptaTerminos := v), errores := x.(terminosError := ValidarTerminos(v)))
  }

  /** A sequence of edits, in order. */
  function AplicarTodas(s: RegistroUiState, es: seq<Edicion>): (r: RegistroUiState)
    ensures r.estaGuardando == s.estaGuardando && r.registroExitoso == s.registroExitoso
    decreases |es|
  {
    if es == [] then s else Aplicar(AplicarTodas(s, es[..|es| - 1]), es[|es| - 1])
  }

  /** `esFormularioValido`: six non-blank fields, the terms accepted and no
      error slot set. */
  predicate Valido(s: RegistroUiState) {
    var f := s.formulario;
    !EsBlanco(f.nombreCompleto) && !EsBlanco(f.email) && !EsBlanco(f.telefono) &&
    !EsBlanco(f.direccion) && !EsBlanco(f.password) && !EsBlanco(f.confirmarPassword) &&
    f.aceptaTerminos && !s.errores.HayErrores()
  }

  /** The state after a successful `registrar`. */
  function Registrado(s: RegistroUiState): (r: RegistroUiState)
    ensures r.formulario == s.formulario && r.errores == s.errores
    ensures r.registroExitoso && !r.estaGuardando
  {
    s.(estaGuardando := false, registroExitoso := true)
  }

  class RegistroViewModel {
    var uiState: RegistroUiState

    constructor()
      ensures uiState == RegistroUiState()
    {
      uiState := RegistroUiState();
    }

    method OnNombreChange(nombre: string)
      modifies this
      ensures uiState == Aplicar(old(uiState), Nombre(nombre))
    {
      var errores := uiState.errores.(nombreCompletoError := ValidarNombreCompleto(nombre));
      uiState := uiState.(formulario := uiState.formulario.(nombreCompleto := nombre), errores := errores);
    }

    method OnEmailChange(email: string)
      modifies this
      ensures uiState == Aplicar(old(uiState), Email(email))
    {
      var errores := uiState.errores.(emailError := ValidarEmail(email));
      uiState := uiState.(formulario := uiState.formulario.(email := email), errores := errores);
    }

    method OnTelefonoChange(telefono: string)
      modifies this
      ensures uiState == Aplicar(old(uiState), Telefono(telefono))
    {
      var errores := uiState.errores.(telefonoError := ValidarTelefono(telefono));
      uiState := uiState.(formulario := uiState.formulario.(telefono := telefono), errores := errores);
    }

    method OnDireccionChange(direccion: string)
      modifies this
      ensures uiState == Aplicar(old(uiState), Direccion(direccion))
    {
      var errores := uiState.errores.(direccionError := ValidarDireccion(direccion));
      uiState := uiState.(formulario := uiState.formulario.(direccion := direccion), errores := errores);
    }

    method OnPasswordChange(password: string)
      modifies this
      ensures uiState == Aplicar(old(uiState), Password(password))
    {
      var errores := uiState.errores.(passwordError := ValidarPassword(password));
      uiState := uiState.(formulario := uiState.formulario.(password := password), errores := errores);
    }

    method OnConfirmarPasswordChange(confirmarPassword: string)
      modifies this
      ensures uiState == Aplicar(old(uiState), ConfirmarPassword(confirmarPassword))
    {
      var errores := uiState.errores.(
        confirmarPasswordError := ValidarConfirmarPassword(uiState.formulario.password, confirmarPassword));
      uiState := uiState.(formulario := uiState.formulario.(confirmarPassword := confirmarPassword), errores := errores);
    }

    method OnTerminosChange(acepta: bool)
      modifies this
      ensures uiState == Aplicar(old(uiState), Terminos(acepta))
    {
      var errores := uiState.errores.(terminosError := ValidarTerminos(acepta));
      uiState := uiState.(formulario := uiState.formulario.(aceptaTerminos := acepta), errores := errores);
    }

    predicate EsFormularioValido()
      reads this
    {
      Valido(uiState)
    }

    /** `exito` says whether `onExito` was called. */
    method Registrar() returns (exito: bool)
      modifies this
      ensures exito == Valido(old(uiState))
      ensures uiState == if exito then Registrado(old(uiState)) else old(uiState)
    {
      exito := EsFormularioValido();
      if exito {
        uiState := uiState.(estaGuardando := true);
        uiState := uiState.(estaGuardando := false, registroExitoso := true);
      }
    }
  }

  // ---------------------------------------------------------------------
  // What the edits keep
  // ---------------------------------------------------------------------

  /** A field either was never edited (its default value and no message) or
      its message is its validator's verdict. */
  predicate AlDia<T(==)>(mensaje: Option<string>, veredicto: Option<string>, valor: T, inicial: T) {
    mensaje == veredicto || (valor == inicial && mensaje.None?)
  }

  /** Every field other than the confirmation is in step with its message. */
  predicate Sincronizado(s: RegistroUiState) {
    var f, x := s.formulario, s.errores;
    AlDia(x.nombreCompletoError, ValidarNombreCompleto(f.nombreCompleto), f.nombreCompleto, "") &&
    AlDia(x.emailError, ValidarEmail(f.email), f.email, "") &&
    AlDia(x.telefonoError, ValidarTelefono(f.telefono), f.telefono, "") &&
    AlDia(x.direccionError, ValidarDireccion(f.direccion), f.direccion, "") &&
    AlDia(x.passwordError, ValidarPassword(f.password), f.password, "") &&
    AlDia(x.terminosError, ValidarTerminos(f.aceptaTerminos), f.aceptaTerminos, false)
  }

  lemma SincronizadoInicial()
    ensures Sincronizado(RegistroUiState())
    ensures !Valido(RegistroUiState())
  {
  }

  lemma {:induction false} AplicarSincronizado(s: RegistroUiState, e: Edicion)
    requires Sincronizado(s)
    ensures Sincronizado(Aplicar(s, e))
  {
    match e
    case Nombre(_) =>
    case Email(_) =>
    case Telefono(_) =>
    case Direccion(_) =>
    case Password(_) =>
    case ConfirmarPassword(_) =>
    case Terminos(_) =>
  }

  lemma {:induction false} AplicarTodasSincronizado(es: seq<Edicion>)
    ensures Sincronizado(AplicarTodas(RegistroUiState(), es))
    decreases |es|
  {
    if es == [] {
      SincronizadoInicial();
    } else {
      AplicarTodasSincronizado(es[..|es| - 1]);
      AplicarSincronizado(AplicarTodas(RegistroUiState(), es[..|es| - 1]), es[|es| - 1]);
    }
  }

  /** A valid state whose messages are in step has every field but the
      confirmation accepted by its validator. */
  lemma ValidoSincronizadoAcepta(s: RegistroUiState)
    requires Sincronizado(s) && Valido(s)
    ensures ValidarNombreCompleto(s.formulario.nombreCompleto).None?
    ensures EmailBienFormado(s.formulario.email) && TelefonoBienFormado(s.formulario.telefono)
    ensures ValidarDireccion(s.formulario.direccion).None?
    ensures PasswordBienFormada(s.formulario.password)
    ensures s.formulario.aceptaTerminos && !EsBlanco(s.formulario.confirmarPassword)
  {
    assert !EsBlanco(s.formulario.nombreCompleto) && !EsBlanco(s.formulario.email);
    assert "" == [] && EsBlanco([]);
  }

  /** Whatever the order of edits, once the screen reports the form valid,
      every field except the confirmation passes its validator. */
  lemma AlcanzableValidoAcepta(es: seq<Edicion>)
    requires Valido(AplicarTodas(RegistroUiState(), es))
    ensures var f := AplicarTodas(RegistroUiState(), es).formulario;
      ValidarNombreCompleto(f.nombreCompleto).None? && EmailBienFormado(f.email) &&
      TelefonoBienFormado(f.telefono) && ValidarDireccion(f.direccion).None? &&
      PasswordBienFormada(f.password) && f.aceptaTerminos
  {
    AplicarTodasSincronizado(es);
    ValidoSincronizadoAcepta(AplicarTodas(RegistroUiState(), es));
  }

  /** When the messages are those of validating the whole form, the form is
      valid exactly when every field is accepted. */
  lemma ValidoSiiAceptado(s: RegistroUiState)
    requires s.errores == ValidarFormulario(s.formulario)
    ensures Valido(s) <==> FormularioAceptado(s.formulario)
  {
    SinErroresSiiAceptado(s.formulario);
  }

  /** One more edit at the end of a sequence. */
  lemma AplicarTodasAlFinal(s: RegistroUiState, es: seq<Edicion>, e: Edicion)
    ensures AplicarTodas(s, es + [e]) == Aplicar(AplicarTodas(s, es), e)
  {
    assert (es + [e])[..|es|] == es;
  }

  /** Filling the form top to bottom, once per field, leaves exactly the
      messages of validating the whole form. */
  lemma LlenadoEnOrden(n: string, m: string, t: string, d: string, p: string, c: string, a: bool)
    ensures var s := AplicarTodas(RegistroUiState(),
                       [Nombre(n), Email(m), Telefono(t), Direccion(d), Password(p), ConfirmarPassword(c), Terminos(a)]);
      s.formulario == FormularioRegistro(n, m, t, d, p, c, a) &&
      s.errores == ValidarFormulario(s.formulario)
  {
    var i := RegistroUiState();
    AplicarSiete(i, Nombre(n), Email(m), Telefono(t), Direccion(d), Password(p), ConfirmarPassword(c), Terminos(a));
  }

  /** Seven edits in a row, one after the other. */
  lemma {:induction false} AplicarSiete(s: RegistroUiState, e1: Edicion, e2: Edicion, e3: Edicion, e4: Edicion,
                                        e5: Edicion, e6: Edicion, e7: Edicion)
    ensures AplicarTodas(s, [e1, e2, e3, e4, e5, e6, e7]) ==
      Aplicar(Aplicar(Aplicar(Aplicar(Aplicar(Aplicar(Aplicar(s, e1), e2), e3), e4), e5), e6), e7)
  {
    var es := [e1, e2, e3, e4, e5, e6, e7];
    assert es[..1][..0] == [];
    assert AplicarTodas(s, es[..1]) == Aplicar(s, e1);
    assert es[..2][..1] == es[..1];
    assert AplicarTodas(s, es[..2]) == Aplicar(AplicarTodas(s, es[..1]), e2);
    assert es[..3][..2] == es[..2];
    assert AplicarTodas(s, es[..3]) == Aplicar(AplicarTodas(s, es[..2]), e3);
    assert es[..4][..3] == es[..3];
    assert AplicarTodas(s, es[..4]) == Aplicar(AplicarTodas(s, es[..3]), e4);
    assert es[..5][..4] == es[..4];
    assert AplicarTodas(s, es[..5]) == Aplicar(AplicarTodas(s, es[..4]), e5);
    assert es[..6][..5] == es[..5];
    assert AplicarTodas(s, es[..6]) == Aplicar(AplicarTodas(s, es[..5]), e6);
    assert es[..7][..6] == es[..6];
    assert es[..7] == es;
  }

  // ---------------------------------------------------------------------
  // The stale confirmation
  // ---------------------------------------------------------------------

  /** Changing the password leaves the confirmation's verdict as it was: a
      valid form stays valid after the password is replaced by any other
      acceptable one, though the confirmation no longer matches it. */
  lemma PasswordNuevaConservaValidez(s: RegistroUiState, q: string)
    requires Valido(s) && PasswordBienFormada(q)
    ensures var r := Aplicar(s, Password(q));
      Valido(r) && r.formulario.password == q &&
      r.formulario.confirmarPassword == s.formulario.confirmarPassword
  {
    PatronesRechazanBlancos(q);
  }

  /** A second acceptable password for the sample. */
  lemma OtraPasswordAceptada()
    ensures PasswordBienFormada("Otra4567")
  {
    assert "Otra4567"[0] == 'O' && EsDigito("Otra4567"[4]);
  }

  /** A sample form that every validator accepts. */
  lemma EjemploAceptado()
    ensures FormularioAceptado(
      FormularioRegistro("Ana Soto", "ana@mail.cl", "912345678", "Los Olmos 1234", "Clave123", "Clave123", true))
  {
    var n, t, d := "Ana Soto", "912345678", "Los Olmos 1234";
    assert !EsBlanco(n) && |n| >= 3 && ' ' in n by {
      assert n[3] == ' ' && !EsEspacio(n[0]);
    }
    EmailDeEjemplo();
    assert TelefonoBienFormado(t);
    assert !EsBlanco(d) && |d| >= 10 by {
      assert !EsEspacio(d[0]);
    }
    ClaveDeEjemplo();
  }

  /** The sample's address has the pattern's four parts. */
  lemma EmailDeEjemplo()
    ensures EmailBienFormado("ana@mail.cl")
  {
    assert PartesEmail("ana@mail.cl", 3, 8, 9);
  }

  /** The sample's password has a capital and a digit. */
  lemma ClaveDeEjemplo()
    ensures PasswordBienFormada("Clave123") && !EsBlanco("Clave123")
  {
    var p := "Clave123";
    assert p[0] == 'C' && EsDigito(p[5]) && !EsEspacio(p[0]);
  }

  /** The edits that fill `f` top to bottom. */
  function EdicionesDe(f: FormularioRegistro): (es: seq<Edicion>)
    ensures |es| == 7
  {
    [Nombre(f.nombreCompleto), Email(f.email), Telefono(f.telefono), Direccion(f.direccion),
     Password(f.password), ConfirmarPassword(f.confirmarPassword), Terminos(f.aceptaTerminos)]
  }

  /** Any accepted form, filled top to bottom and then given another
      acceptable password, is still reported valid although the
      confirmation no longer matches; `EjemploAceptado` and
      `OtraPasswordAceptada` show such a form and password. */
  lemma ConfirmacionDesfasada(f: FormularioRegistro, q: string)
    requires FormularioAceptado(f) && PasswordBienFormada(q) && q != f.password
    ensures var s := AplicarTodas(RegistroUiState(), EdicionesDe(f) + [Password(q)]);
      Valido(s) && s.formulario.password != s.formulario.confirmarPassword
  {
    var es := EdicionesDe(f);
    LlenadoEnOrden(f.nombreCompleto, f.email, f.telefono, f.direccion, f.password, f.confirmarPassword, f.aceptaTerminos);
    var s := AplicarTodas(RegistroUiState(), es);
    ValidoSiiAceptado(s);
    PasswordNuevaConservaValidez(s, q);
    AplicarTodasAlFinal(RegistroUiState(), es, Password(q));
  }

  /** The evident intent: a password edit also re-checks a confirmation that
      has already been typed. */
  function AplicarCorregido(s: RegistroUiState, e: Edicion): (r: RegistroUiState)
    ensures !e.Password? ==> r == Aplicar(s, e)
    ensures e.Password? ==> r.formulario == Aplicar(s, e).formulario
  {
    match e
    case Password(v) =>
      var r := Aplicar(s, e);
      if EsBlanco(s.formulario.confirmarPassword) then r
      else r.(errores := r.errores.(
        confirmarPasswordError := ValidarConfirmarPassword(v, s.formulario.confirmarPassword)))
    case _ => Aplicar(s, e)
  }

  function AplicarTodasCorregido(s: RegistroUiState, es: seq<Edicion>): (r: RegistroUiState)
    ensures r.estaGuardando == s.estaGuardando && r.registroExitoso == s.registroExitoso
    decreases |es|
  {
    if es == [] then s else AplicarCorregido(AplicarTodasCorregido(s, es[..|es| - 1]), es[|es| - 1])
  }

  /** A typed confirmation with no message matches the password. */
  predicate ConfirmacionAlDia(s: RegistroUiState) {
    s.errores.confirmarPasswordError.None? && !EsBlanco(s.formulario.confirmarPassword) ==>
      s.formulario.confirmarPassword == s.formulario.password
  }

  lemma AplicarCorregidoConserva(s: RegistroUiState, e: Edicion)
    requires Sincronizado(s) && ConfirmacionAlDia(s)
    ensures Sincronizado(AplicarCorregido(s, e)) && ConfirmacionAlDia(AplicarCorregido(s, e))
  {
    AplicarSincronizado(s, e);
  }

  lemma {:induction false} AplicarTodasCorregidoConserva(es: seq<Edicion>)
    ensures Sincronizado(AplicarTodasCorregido(RegistroUiState(), es))
    ensures ConfirmacionAlDia(AplicarTodasCorregido(RegistroUiState(), es))
    decreases |es|
  {
    if es == [] {
      SincronizadoInicial();
    } else {
      AplicarTodasCorregidoConserva(es[..|es| - 1]);
      AplicarCorregidoConserva(AplicarTodasCorregido(RegistroUiState(), es[..|es| - 1]), es[|es| - 1]);
    }
  }

  /** With the correction, whatever the order of edits, a form reported valid
      is accepted field by field, the confirmation included. */
  lemma CorregidoValidoAcepta(es: seq<Edicion>)
    requires Valido(AplicarTodasCorregido(RegistroUiState(), es))
    ensures FormularioAceptado(AplicarTodasCorregido(RegistroUiState(), es).formulario)
  {
    var s := AplicarTodasCorregido(RegistroUiState(), es);
    AplicarTodasCorregidoConserva(es);
    ValidoSincronizadoAcepta(s);
  }
}
