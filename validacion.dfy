// The registration form's field validators, with the three regular
// expressions written out as string predicates, and the error record.
module Validacion {
  import opened Opciones
  import opened Texto

  /** The registration form as typed. */
  datatype FormularioRegistro = FormularioRegistro(
    nombreCompleto: string := "",
    email: string := "",
    telefono: string := "",
    direccion: string := "",
    password: string := "",
    confirmarPassword: string := "",
    aceptaTerminos: bool := false)

  /** One message slot per field; `None` is no error. */
  datatype ErroresFormulario = ErroresFormulario(
    nombreCompletoError: Option<string> := None,
    emailError: Option<string> := None,
    telefonoError: Option<string> := None,
    direccionError: Option<string> := None,
    passwordError: Option<string> := None,
    confirmarPasswordError: Option<string> := None,
    terminosError: Option<string> := None)
  {
    predicate HayErrores() {
      nombreCompletoError.Some? || emailError.Some? || telefonoError.Some? ||
      direccionError.Some? || passwordError.Some? || confirmarPasswordError.Some? ||
      terminosError.Some?
    }
  }

  // ---------------------------------------------------------------------
  // The regular expressions
  // ---------------------------------------------------------------------

  /** `[a-zA-Z0-9._-]`. */
  predicate EsCharLocal(c: char) {
    ('a' <= c <= 'z') || ('A' <= c <= 'Z') || ('0' <= c <= '9') || c == '.' || c == '_' || c == '-'
  }

  /** `[a-z]`. */
  predicate EsMinuscula(c: char) {
    'a' <= c <= 'z'
  }

  predicate EsPunto(c: char) {
    c == '.'
  }

  predicate Todos(s: string, p: char -> bool) {
    forall k :: 0 <= k < |s| ==> p(s[k])
  }

  /** `s` splits at `i`, `j` and `k` into the four parts of the email pattern:
      a local part, "@", lower-case letters, dots, lower-case letters. */
  predicate PartesEmail(s: string, i: int, j: int, k: int) {
    0 < i && i + 1 < j < k < |s| &&
    Todos(s[..i], EsCharLocal) && s[i] == '@' && Todos(s[i + 1..j], EsMinuscula) &&
    Todos(s[j..k], EsPunto) && Todos(s[k..], EsMinuscula)
  }

  /** The whole string matches `[a-zA-Z0-9._-]+@[a-z]+\.+[a-z]+`. */
  predicate EmailBienFormado(s: string) {
    exists i, j, k | 0 < i < j < k < |s| :: PartesEmail(s, i, j, k)
  }

  /** Where the longest run of characters satisfying `p` that starts at `a`
      ends. */
  function FinDeRacha(s: string, p: char -> bool, a: nat): (r: nat)
    requires a <= |s|
    ensures a <= r <= |s|
    ensures forall q :: a <= q < r ==> p(s[q])
    ensures r < |s| ==> !p(s[r])
    decreases |s| - a
  {
    if a < |s| && p(s[a]) then FinDeRacha(s, p, a + 1) else a
  }

  /** A run of satisfying characters from `a` to `b`, ended by the end or by a
      failing character, is the longest such run. */
  lemma {:induction false} FinDeRachaExacto(s: string, p: char -> bool, a: nat, b: nat)
    requires a <= b <= |s|
    requires forall q :: a <= q < b ==> p(s[q])
    requires b < |s| ==> !p(s[b])
    ensures FinDeRacha(s, p, a) == b
    decreases b - a
  {
    if a < b {
      FinDeRachaExacto(s, p, a + 1, b);
    }
  }

  /** The matcher: each part of the pattern eats the longest run it can, the
      first from the start, each other one from where the previous stopped. */
  predicate CoincideEmail(s: string) {
    var i := FinDeRacha(s, EsCharLocal, 0);
    0 < i < |s| && s[i] == '@' &&
    var j := FinDeRacha(s, EsMinuscula, i + 1);
    i + 1 < j < |s| &&
    var k := FinDeRacha(s, EsPunto, j);
    j < k < |s| && Todos(s[k..], EsMinuscula)
  }

  /** Every character of `s[a..b]` satisfies `p` when those of `s` there do. */
  lemma TodosTramo(s: string, a: nat, b: nat, p: char -> bool)
    requires a <= b <= |s|
    requires forall q :: a <= q < b ==> p(s[q])
    ensures Todos(s[a..b], p)
  {
    var t := s[a..b];
    forall q | 0 <= q < |t| ensures p(t[q]) {
      assert t[q] == s[a + q];
    }
  }

  /** Every character of `s[a..b]` satisfies `p` exactly when those of `s`
      there do. */
  lemma TodosDelTramo(s: string, a: nat, b: nat, p: char -> bool)
    requires a <= b <= |s| && Todos(s[a..b], p)
    ensures forall q :: a <= q < b ==> p(s[q])
  {
    forall q | a <= q < b ensures p(s[q]) {
      assert s[a..b][q - a] == s[q];
    }
  }

  /** What the matcher accepts has the pattern's shape. */
  lemma CoincideEmailBienFormado(s: string)
    requires CoincideEmail(s)
    ensures EmailBienFormado(s)
  {
    var i := FinDeRacha(s, EsCharLocal, 0);
    var j := FinDeRacha(s, EsMinuscula, i + 1);
    var k := FinDeRacha(s, EsPunto, j);
    TodosTramo(s, 0, i, EsCharLocal);
    assert s[0..i] == s[..i];
    TodosTramo(s, i + 1, j, EsMinuscula);
    TodosTramo(s, j, k, EsPunto);
    assert PartesEmail(s, i, j, k);
  }

  /** A string of the pattern's shape is accepted by the matcher. */
  lemma PartesCoincideEmail(s: string, i: int, j: int, k: int)
    requires PartesEmail(s, i, j, k)
    ensures CoincideEmail(s)
  {
    assert s[..i] == s[0..i];
    TodosDelTramo(s, 0, i, EsCharLocal);
    FinDeRachaExacto(s, EsCharLocal, 0, i);
    TodosDelTramo(s, i + 1, j, EsMinuscula);
    assert s[j] == s[j..k][0];
    FinDeRachaExacto(s, EsMinuscula, i + 1, j);
    TodosDelTramo(s, j, k, EsPunto);
    assert s[k] == s[k..][0];
    FinDeRachaExacto(s, EsPunto, j, k);
  }

  /** The longest-run matcher accepts exactly the strings of the pattern. */
  lemma CoincideEmailCorrecto(s: string)
    ensures CoincideEmail(s) <==> EmailBienFormado(s)
  {
    if CoincideEmail(s) {
      CoincideEmailBienFormado(s);
    }
    if EmailBienFormado(s) {
      var i, j, k :| 0 < i < j < k < |s| && PartesEmail(s, i, j, k);
      PartesCoincideEmail(s, i, j, k);
    }
  }

  /** `^[0-9]{9}$`: exactly nine ASCII digits. */
  predicate TelefonoBienFormado(s: string) {
    |s| == 9 && TodosDigitos(s)
  }

  /** The characters `.` does not match: the Java line terminators. */
  predicate EsFinDeLinea(c: char) {
    c == '\n' || c == '\r' || c == '\U{85}' || c == '\U{2028}' || c == '\U{2029}'
  }

  /** `^(?=.*[A-Z])(?=.*[0-9]).{8,}$`: at least eight characters, none a line
      terminator, with an ASCII capital and an ASCII digit somewhere. */
  predicate PasswordBienFormada(s: string) {
    |s| >= 8 && (forall k :: 0 <= k < |s| ==> !EsFinDeLinea(s[k])) &&
    (exists k :: 0 <= k < |s| && 'A' <= s[k] <= 'Z') &&
    (exists k :: 0 <= k < |s| && EsDigito(s[k]))
  }

  // ---------------------------------------------------------------------
  // The validators
  // ---------------------------------------------------------------------

  const MSG_NOMBRE_VACIO: string := "El nombre es obligatorio"
  const MSG_NOMBRE_CORTO: string := "El nombre debe tener al menos 3 caracteres"
  const MSG_NOMBRE_INCOMPLETO: string := "Ingresa tu nombre completo"
  const MSG_EMAIL_VACIO: string := "El email es obligatorio"
  const MSG_EMAIL_INVALIDO: string := "Email inv\U{E1}lido (ejemplo: usuario@mail.com)"
  const MSG_TELEFONO_VACIO: string := "El tel\U{E9}fono es obligatorio"
  const MSG_TELEFONO_INVALIDO: string := "Tel\U{E9}fono inv\U{E1}lido (debe tener 9 d\U{ED}gitos)"
  const MSG_DIRECCION_VACIA: string := "La direcci\U{F3}n es obligatoria"
  const MSG_DIRECCION_CORTA: string := "La direcci\U{F3}n debe ser m\U{E1}s completa"
  const MSG_PASSWORD_VACIA: string := "La contrase\U{F1}a es obligatoria"
  const MSG_PASSWORD_DEBIL: string := "Contrase\U{F1}a d\U{E9}bil (m\U{ED}nimo 8 caracteres, 1 may\U{FA}scula y 1 n\U{FA}mero)"
  const MSG_CONFIRMAR_VACIA: string := "Confirma tu contrase\U{F1}a"
  const MSG_CONFIRMAR_DISTINTA: string := "Las contrase\U{F1}as no coinciden"
  const MSG_TERMINOS: string := "Debes aceptar los t\U{E9}rminos y condiciones"

  function ValidarNombreCompleto(nombre: string): (r: Option<string>)
    ensures r.None? <==> !EsBlanco(nombre) && Longitud(nombre) >= 3 && ' ' in nombre
    ensures EsBlanco(nombre) ==> r == Some(MSG_NOMBRE_VACIO)
  {
    if EsBlanco(nombre) then Some(MSG_NOMBRE_VACIO)
    else if Longitud(nombre) < 3 then Some(MSG_NOMBRE_CORTO)
    else if ' ' !in nombre then Some(MSG_NOMBRE_INCOMPLETO)
    else None
  }

  function ValidarEmail(email: string): (r: Option<string>)
    ensures r.None? <==> EmailBienFormado(email)
    ensures EsBlanco(email) ==> r == Some(MSG_EMAIL_VACIO)
  {
    CoincideEmailCorrecto(email);
    if EsBlanco(email) then PatronesRechazanBlancos(email); Some(MSG_EMAIL_VACIO)
    else if !CoincideEmail(email) then Some(MSG_EMAIL_INVALIDO)
    else None
  }

  function ValidarTelefono(telefono: string): (r: Option<string>)
    ensures r.None? <==> TelefonoBienFormado(telefono)
    ensures EsBlanco(telefono) ==> r == Some(MSG_TELEFONO_VACIO)
  {
    if EsBlanco(telefono) then PatronesRechazanBlancos(telefono); Some(MSG_TELEFONO_VACIO)
    else if !TelefonoBienFormado(telefono) then Some(MSG_TELEFONO_INVALIDO)
    else None
  }

  function ValidarDireccion(direccion: string): (r: Option<string>)
    ensures r.None? <==> !EsBlanco(direccion) && Longitud(direccion) >= 10
    ensures EsBlanco(direccion) ==> r == Some(MSG_DIRECCION_VACIA)
  {
    if EsBlanco(direccion) then Some(MSG_DIRECCION_VACIA)
    else if Longitud(direccion) < 10 then Some(MSG_DIRECCION_CORTA)
    else None
  }

  function ValidarPassword(password: string): (r: Option<string>)
    ensures r.None? <==> PasswordBienFormada(password)
    ensures EsBlanco(password) ==> r == Some(MSG_PASSWORD_VACIA)
  {
    if EsBlanco(password) then PatronesRechazanBlancos(password); Some(MSG_PASSWORD_VACIA)
    else if !PasswordBienFormada(password) then Some(MSG_PASSWORD_DEBIL)
    else None
  }

  function ValidarConfirmarPassword(password: string, confirmar: string): (r: Option<string>)
    ensures r.None? <==> !EsBlanco(confirmar) && confirmar == password
    ensures EsBlanco(confirmar) ==> r == Some(MSG_CONFIRMAR_VACIA)
  {
    if EsBlanco(confirmar) then Some(MSG_CONFIRMAR_VACIA)
    else if confirmar != password then Some(MSG_CONFIRMAR_DISTINTA)
    else None
  }

  function ValidarTerminos(acepta: bool): (r: Option<string>)
    ensures r.None? <==> acepta
  {
    if !acepta then Some(MSG_TERMINOS) else None
  }

  /** `validarFormulario`: each slot holds its own field's verdict. */
  function ValidarFormulario(f: FormularioRegistro): ErroresFormulario {
    ErroresFormulario(
      ValidarNombreCompleto(f.nombreCompleto),
      ValidarEmail(f.email),
      ValidarTelefono(f.telefono),
      ValidarDireccion(f.direccion),
      ValidarPassword(f.password),
      ValidarConfirmarPassword(f.password, f.confirmarPassword),
      ValidarTerminos(f.aceptaTerminos))
  }

  /** Every field is accepted by its own validator. */
  predicate FormularioAceptado(f: FormularioRegistro) {
    !EsBlanco(f.nombreCompleto) && Longitud(f.nombreCompleto) >= 3 && ' ' in f.nombreCompleto &&
    EmailBienFormado(f.email) && TelefonoBienFormado(f.telefono) &&
    !EsBlanco(f.direccion) && Longitud(f.direccion) >= 10 &&
    PasswordBienFormada(f.password) &&
    !EsBlanco(f.confirmarPassword) && f.confirmarPassword == f.password &&
    f.aceptaTerminos
  }

  // ---------------------------------------------------------------------
  // Properties
  // ---------------------------------------------------------------------

  /** The default record has no error; setting any one slot makes one. */
  lemma ErroresPorDefecto(m: string)
    ensures !ErroresFormulario().HayErrores()
    ensures ErroresFormulario(nombreCompletoError := Some(m)).HayErrores()
    ensures ErroresFormulario(emailError := Some(m)).HayErrores()
    ensures ErroresFormulario(telefonoError := Some(m)).HayErrores()
    ensures ErroresFormulario(direccionError := Some(m)).HayErrores()
    ensures ErroresFormulario(passwordError := Some(m)).HayErrores()
    ensures ErroresFormulario(confirmarPasswordError := Some(m)).HayErrores()
    ensures ErroresFormulario(terminosError := Some(m)).HayErrores()
  {
  }

  /** Validating a form finds no error exactly when every field is accepted. */
  lemma SinErroresSiiAceptado(f: FormularioRegistro)
    ensures !ValidarFormulario(f).HayErrores() <==> FormularioAceptado(f)
  {
  }

  /** Each of the three patterns rejects a blank string, so a non-blank check
      before them never changes the verdict, only the message. */
  lemma PatronesRechazanBlancos(s: string)
    ensures EsBlanco(s) ==> !EmailBienFormado(s) && !TelefonoBienFormado(s) && !PasswordBienFormada(s)
  {
    if EsBlanco(s) && |s| > 0 {
      assert EsEspacio(s[0]);
    }
  }

  /** Lengths are counted in UTF-16 code units: an emoji and a space make a
      name of length 3, which passes the length check. */
  lemma NombreEmojiAceptado()
    ensures ValidarNombreCompleto("\U{1F600} ").None?
  {
    var n := "\U{1F600} ";
    LongitudEmoji();
    assert n[1] == ' ' && !EsEspacio(n[0]);
  }

  /** The sample address the error message shows is accepted. */
  lemma EmailEjemplo()
    ensures ValidarEmail("usuario@mail.com").None?
  {
    var s := "usuario@mail.com";
    assert PartesEmail(s, 7, 12, 13);
  }
}
