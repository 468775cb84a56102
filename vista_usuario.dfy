// The customer account state holder: registration, e-mail sign-in, sign-out,
// session restore and the user list, over the `usuarios` table and the
// session store.
module VistaUsuario {
  import opened Opciones
  import opened Texto
  import opened Entidades
  import opened UsuarioDatos
  import opened Preferencias
  import Tabla

  datatype AuthState = AuthState(
    estaCargando: bool := false,
    usuarioActual: Option<UsuarioEntity> := None,
    error: Option<string> := None)

  const ERROR_REGISTRO: string := "Error registrando usuario"
  const ERROR_LOGIN: string := "Error iniciando sesi\U{F3}n"
  const ERROR_SIN_CUENTA: string := "No existe una cuenta con ese correo"

  /** An exception's text: its message, or the fallback when it has none. */
  function MensajeDe(mensaje: Option<string>, porDefecto: string): string {
    match mensaje
    case Some(m) => m
    case None => porDefecto
  }

  // ---------------------------------------------------------------------
  // The referral code
  // ---------------------------------------------------------------------

  /** The leading letters of the trimmed name, at most three, upper-cased and
      padded with 'X' to three characters. */
  function PrefijoCodigo(nombre: string): (r: string)
    ensures |r| >= 3
  {
    RellenarFin(Mayusculas(LetrasCodigo(nombre)), 3, 'X')
  }

  /** `trim().takeWhile { it.isLetter() }.take(3)`. */
  function LetrasCodigo(nombre: string): (l: string)
    ensures |l| <= 3 && forall i :: 0 <= i < |l| ==> EsLetra(l[i])
  {
    Tomar(TomarLetras(Recortar(nombre)), 3)
  }

  /** `generarCodigo`: the prefix followed by `numeros`, which stands for the
      value of `Random.nextInt(100, 999)`. */
  function GenerarCodigo(nombre: string, numeros: int): (r: string)
    requires 100 <= numeros < 999
    ensures |r| >= 6
    ensures r[..|r| - 3] == PrefijoCodigo(nombre)
    ensures TodosDigitos(r[|r| - 3..]) && ValorDecimal(r[|r| - 3..]) == numeros
  {
    TresCifras(numeros);
    ValorDeNatADecimal(numeros);
    var p := PrefijoCodigo(nombre);
    var r := p + NatADecimal(numeros);
    assert r[..|r| - 3] == p && r[|r| - 3..] == NatADecimal(numeros);
    r
  }

  lemma TresCifras(n: nat)
    requires 100 <= n < 1000
    ensures |NatADecimal(n)| == 3
  {
    assert NatADecimal(n) == NatADecimal(n / 10) + [DigitoChar(n % 10)];
    assert NatADecimal(n / 10) == NatADecimal(n / 100) + [DigitoChar(n / 10 % 10)];
  }

  /** Without a sharp s among the letters taken, the prefix is exactly three
      characters: the upper-cased letters, then 'X's; so the code has six. */
  lemma CodigoDeSeis(nombre: string, numeros: int)
    requires 100 <= numeros < 999
    requires '\U{DF}' !in LetrasCodigo(nombre)
    ensures var l := LetrasCodigo(nombre);
      var p := PrefijoCodigo(nombre);
      |p| == 3 && p[..|l|] == Mayusculas(l) && (forall i :: |l| <= i < 3 ==> p[i] == 'X') &&
      |GenerarCodigo(nombre, numeros)| == 6
  {
    var l := LetrasCodigo(nombre);
    assert forall i :: 0 <= i < |l| ==> l[i] != '\U{DF}';
    MayusculasLongitud(l);
  }

  lemma LetrasDeVeronica()
    ensures LetrasCodigo("Veronica") == "Ver"
  {
    var n := "Veronica";
    assert QuitarEspaciosInicio(n) == n;
    assert QuitarEspaciosFin(n) == n;
    var t := TomarLetras(n);
    assert EsLetra(n[0]) && EsLetra(n[1]) && EsLetra(n[2]);
    assert t[..3] == n[..3];
  }

  lemma MayusculasDeVer()
    ensures Mayusculas("Ver") == "VER"
  {
    assert Mayusculas("r") == MayusculasDe('r') + Mayusculas("");
    assert Mayusculas("er") == MayusculasDe('e') + Mayusculas("r");
  }

  /** The example in the source's comment. */
  lemma CodigoEjemplo()
    ensures GenerarCodigo("Veronica", 123) == "VER123"
  {
    PrefijoDeVeronica();
    DecimalDe123();
    assert GenerarCodigo("Veronica", 123) == PrefijoCodigo("Veronica") + NatADecimal(123);
  }

  lemma PrefijoDeVeronica()
    ensures PrefijoCodigo("Veronica") == "VER"
  {
    LetrasDeVeronica();
    MayusculasDeVer();
  }

  lemma DecimalDe123()
    ensures NatADecimal(123) == "123"
  {
    assert NatADecimal(12) == NatADecimal(1) + [DigitoChar(2)];
  }

  /** A name that starts with three sharp s letters gets a nine-character
      code, since each upper-cases to "SS". */
  lemma CodigoConEseLarga()
    ensures |GenerarCodigo("\U{DF}\U{DF}\U{DF}", 100)| == 9
  {
    var n := "\U{DF}\U{DF}\U{DF}";
    assert Recortar(n) == n;
    assert TomarLetras(n) == n;
    assert Mayusculas(n) == "SSSSSS";
  }

  // ---------------------------------------------------------------------
  // The account built at registration
  // ---------------------------------------------------------------------

  function NuevoUsuario(nombreCompleto: string, email: string, telefono: string, direccion: string,
                        anioNacimiento: int, esDuoc: bool, codigoReferido: Option<string>,
                        numeros: int): (u: UsuarioEntity)
    requires 100 <= numeros < 999
    ensures u.id == 0 && u.puntosLevelUp == 0 && u.nivel == 1
    ensures u.nombreCompleto == Recortar(nombreCompleto) && u.email == Recortar(email) &&
            u.telefono == Recortar(telefono) && u.direccion == Recortar(direccion)
    ensures u.anioNacimiento == anioNacimiento && u.esDuoc == esDuoc
    ensures u.codigoPropio == GenerarCodigo(nombreCompleto, numeros)
    ensures u.codigoReferido.None? <==> codigoReferido.None? || EsBlanco(codigoReferido.value)
    ensures u.codigoReferido.Some? ==> u.codigoReferido == codigoReferido
  {
    UsuarioEntity(
      nombreCompleto := Recortar(nombreCompleto),
      email := Recortar(email),
      telefono := Recortar(telefono),
      direccion := Recortar(direccion),
      anioNacimiento := anioNacimiento,
      esDuoc := esDuoc,
      codigoPropio := GenerarCodigo(nombreCompleto, numeros),
      codigoReferido := match codigoReferido
                        case Some(c) => if EsBlanco(c) then None else Some(c)
                        case None => None,
      puntosLevelUp := 0,
      nivel := 1)
  }

  // ---------------------------------------------------------------------
  // The view model
  // ---------------------------------------------------------------------

  /** Coroutines run to completion inside each call. A thrown exception is
      an argument: `None` when nothing is thrown, `Some(m)` when the
      repository call throws with message `m` (`None` for no message). */
  class UsuarioViewModel {
    const repository: UsuarioRepository
    const sesionUsuarioManager: SesionUsuarioManager
    var authState: AuthState
    var listaUsuarios: seq<UsuarioEntity>

    /** `init`: restores the stored session's user, if any. */
    constructor(repository: UsuarioRepository, sesionUsuarioManager: SesionUsuarioManager)
      ensures this.repository == repository && this.sesionUsuarioManager == sesionUsuarioManager
      ensures listaUsuarios == []
      ensures authState == match sesionUsuarioManager.ObtenerUsuarioActivoId()
                           case None => AuthState()
                           case Some(id) => AuthState(usuarioActual := repository.ObtenerUsuarioPorId(id))
    {
      this.repository := repository;
      this.sesionUsuarioManager := sesionUsuarioManager;
      listaUsuarios := [];
      var estado := AuthState();
      var idGuardado := sesionUsuarioManager.ObtenerUsuarioActivoId();
      if idGuardado.Some? {
        var usuario := repository.ObtenerUsuarioPorId(idGuardado.value);
        estado := estado.(usuarioActual := usuario);
      }
      authState := estado;
    }

    method RegistrarUsuario(nombreCompleto: string, email: string, telefono: string, direccion: string,
                            anioNacimiento: int, esDuoc: bool, codigoReferido: Option<string>,
                            numeros: int, excepcion: Option<Option<string>>)
      requires 100 <= numeros < 999
      requires repository.usuarioDao.Valid()
      modifies this`authState, repository.usuarioDao, sesionUsuarioManager
      ensures repository.usuarioDao.Valid()
      ensures excepcion.None? ==>
        var u := NuevoUsuario(nombreCompleto, email, telefono, direccion, anioNacimiento, esDuoc, codigoReferido, numeros);
        var id := ClaveNueva(old(repository.usuarioDao.secuencia), u);
        TablaUsuarios(repository.usuarioDao.filas, repository.usuarioDao.secuencia) ==
          Insertar(TablaUsuarios(old(repository.usuarioDao.filas), old(repository.usuarioDao.secuencia)), u) &&
        sesionUsuarioManager.prefs == old(sesionUsuarioManager.prefs)[KEY_USUARIO_ID := id] &&
        authState == AuthState(false, Some(u.(id := id)), None)
      ensures excepcion.Some? ==>
        unchanged(repository.usuarioDao, sesionUsuarioManager) &&
        authState == old(authState).(estaCargando := false, error := Some(MensajeDe(excepcion.value, ERROR_REGISTRO)))
    {
      authState := authState.(estaCargando := true, error := None);
      var nuevoUsuario := NuevoUsuario(nombreCompleto, email, telefono, direccion, anioNacimiento, esDuoc,
                                       codigoReferido, numeros);
      if excepcion.Some? {
        authState := authState.(estaCargando := false, error := Some(MensajeDe(excepcion.value, ERROR_REGISTRO)));
        return;
      }
      var idNuevo := repository.RegistrarUsuario(nuevoUsuario);
      var usuarioConId := nuevoUsuario.(id := idNuevo);
      sesionUsuarioManager.GuardarUsuarioActivo(idNuevo);
      authState := AuthState(estaCargando := false, usuarioActual := Some(usuarioConId), error := None);
    }

    method LoginPorEmail(email: string, excepcion: Option<Option<string>>)
      modifies this`authState, sesionUsuarioManager
      ensures excepcion.None? ==>
        match old(repository.ObtenerUsuarioPorEmail(Recortar(email)))
        case Some(u) =>
          sesionUsuarioManager.prefs == old(sesionUsuarioManager.prefs)[KEY_USUARIO_ID := u.id] &&
          authState == AuthState(false, Some(u), None)
        case None =>
          unchanged(sesionUsuarioManager) && authState == AuthState(false, None, Some(ERROR_SIN_CUENTA))
      ensures excepcion.Some? ==>
        unchanged(sesionUsuarioManager) &&
        authState == old(authState).(estaCargando := false, error := Some(MensajeDe(excepcion.value, ERROR_LOGIN)))
    {
      authState := authState.(estaCargando := true, error := None);
      if excepcion.Some? {
        authState := authState.(estaCargando := false, error := Some(MensajeDe(excepcion.value, ERROR_LOGIN)));
        return;
      }
      var usuario := repository.ObtenerUsuarioPorEmail(Recortar(email));
      if usuario.Some? {
        sesionUsuarioManager.GuardarUsuarioActivo(usuario.value.id);
        authState := AuthState(estaCargando := false, usuarioActual := usuario, error := None);
      } else {
        authState := AuthState(estaCargando := false, usuarioActual := None, error := Some(ERROR_SIN_CUENTA));
      }
    }

    method CerrarSesion()
      modifies this`authState, sesionUsuarioManager
      ensures sesionUsuarioManager.prefs == map[]
      ensures authState == AuthState()
    {
      sesionUsuarioManager.CerrarSesion();
      authState := AuthState();
    }

    /** `excepcion` says whether the query throws. */
    method CargarUsuarios(excepcion: bool)
      modifies this`listaUsuarios
      ensures listaUsuarios == if excepcion then [] else repository.ObtenerUsuarios()
    {
      if excepcion {
        listaUsuarios := [];
      } else {
        listaUsuarios := repository.ObtenerUsuarios();
      }
    }
  }

  // ---------------------------------------------------------------------
  // Registration, then sign-in and session restore
  // ---------------------------------------------------------------------

  /** Someone who registers with an email no account has yet can sign in
      with that email as typed, or typed with other surrounding blanks, and
      gets the new account with its generated key; that key is what the
      session stores, and restoring the session finds the same account. */
  lemma RegistroLuegoIngreso(t: TablaUsuarios, nombreCompleto: string, email: string, telefono: string,
                             direccion: string, anioNacimiento: int, esDuoc: bool,
                             codigoReferido: Option<string>, numeros: int, tecleado: string,
                             prefs: map<string, int>)
    requires 100 <= numeros < 999
    requires TablaValida(t) && PorEmail(t.filas, Recortar(email)).None?
    requires Recortar(tecleado) == Recortar(email)
    ensures var u := NuevoUsuario(nombreCompleto, email, telefono, direccion, anioNacimiento, esDuoc, codigoReferido, numeros);
      var id := ClaveNueva(t.secuencia, u);
      var t' := Insertar(t, u);
      PorEmail(t'.filas, Recortar(tecleado)) == Some(u.(id := id)) &&
      LeerUsuarioActivo(prefs[KEY_USUARIO_ID := id]) == Some(id) &&
      Tabla.Buscar(t'.filas, ClaveUsuario, id) == Some(u.(id := id))
  {
    var u := NuevoUsuario(nombreCompleto, email, telefono, direccion, anioNacimiento, esDuoc, codigoReferido, numeros);
    RegistroEncontrable(t, u);
    InsertarValida(t, u);
  }
}
