// The two key-value stores: the admin session (with the profile photo) and
// the signed-in customer's id.
module Preferencias {
  import opened Opciones

  // ---------------------------------------------------------------------
  // The customer session ("sesion_usuario")
  // ---------------------------------------------------------------------

  const KEY_USUARIO_ID: string := "usuario_id"

  /** The value `getLong` falls back to, read back as "no session". */
  const SIN_USUARIO: int := -1

  /** `obtenerUsuarioActivoId` on a given store. */
  function LeerUsuarioActivo(prefs: map<string, int>): (r: Option<int>)
    ensures r.None? <==> KEY_USUARIO_ID !in prefs || prefs[KEY_USUARIO_ID] == SIN_USUARIO
    ensures r.Some? ==> KEY_USUARIO_ID in prefs && r.value == prefs[KEY_USUARIO_ID]
  {
    var id := if KEY_USUARIO_ID in prefs then prefs[KEY_USUARIO_ID] else SIN_USUARIO;
    if id == SIN_USUARIO then None else Some(id)
  }

  class SesionUsuarioManager {
    var prefs: map<string, int>

    constructor(guardado: map<string, int>)
      ensures prefs == guardado
    {
      prefs := guardado;
    }

    method GuardarUsuarioActivo(idUsuario: int)
      modifies this
      ensures prefs == old(prefs)[KEY_USUARIO_ID := idUsuario]
    {
      prefs := prefs[KEY_USUARIO_ID := idUsuario];
    }

    function ObtenerUsuarioActivoId(): Option<int>
      reads this
    {
      LeerUsuarioActivo(prefs)
    }

    /** `clear()`: the whole store. */
    method CerrarSesion()
      modifies this
      ensures prefs == map[]
      ensures ObtenerUsuarioActivoId().None?
    {
      prefs := map[];
    }
  }

  /** Storing an id reads it back, except the id -1, which reads back as no
      session; the last id stored wins; an empty or cleared store has no
      session. */
  lemma GuardarLeerUsuario(prefs: map<string, int>, id: int, otro: int)
    ensures LeerUsuarioActivo(prefs[KEY_USUARIO_ID := id]) == if id == SIN_USUARIO then None else Some(id)
    ensures LeerUsuarioActivo(prefs[KEY_USUARIO_ID := otro][KEY_USUARIO_ID := id]) ==
            LeerUsuarioActivo(prefs[KEY_USUARIO_ID := id])
    ensures LeerUsuarioActivo(map[]).None?
  {
  }

  // ---------------------------------------------------------------------
  // The admin session ("Verocommerce_prefs")
  // ---------------------------------------------------------------------

  const NOMBRE_ARCHIVO: string := "Verocommerce_prefs"
  const KEY_ADMIN_LOGUEADO: string := "admin_logueado"
  const KEY_USERNAME_ADMIN: string := "username_admin"
  const KEY_FOTO_PERFIL: string := "foto_perfil"
  const ADMIN_USERNAME: string := "admin"
  const ADMIN_PASSWORD: string := "admin123"

  /** A stored preference. */
  datatype Valor = Cadena(s: string) | Booleano(b: bool)

  /** `getString(key, null)`. */
  function LeerCadena(prefs: map<string, Valor>, clave: string): (r: Option<string>)
    ensures r.Some? <==> clave in prefs && prefs[clave].Cadena?
    ensures r.Some? ==> prefs[clave] == Cadena(r.value)
  {
    if clave in prefs && prefs[clave].Cadena? then Some(prefs[clave].s) else None
  }

  /** `getBoolean(key, false)`. */
  function LeerBooleano(prefs: map<string, Valor>, clave: string): (r: bool)
    ensures r <==> clave in prefs && prefs[clave] == Booleano(true)
  {
    clave in prefs && prefs[clave].Booleano? && prefs[clave].b
  }

  function ConSesionAdmin(prefs: map<string, Valor>, username: string): map<string, Valor> {
    prefs[KEY_ADMIN_LOGUEADO := Booleano(true)][KEY_USERNAME_ADMIN := Cadena(username)]
  }

  function SinSesionAdmin(prefs: map<string, Valor>): map<string, Valor> {
    prefs - {KEY_ADMIN_LOGUEADO, KEY_USERNAME_ADMIN}
  }

  /** The one pair of credentials the app accepts. */
  predicate ValidarCredencialesAdmin(usuario: string, password: string) {
    usuario == ADMIN_USERNAME && password == ADMIN_PASSWORD
  }

  class PreferenciasManager {
    var prefs: map<string, Valor>

    constructor(guardado: map<string, Valor>)
      ensures prefs == guardado
    {
      prefs := guardado;
    }

    method GuardarFotoPerfil(uri: string)
      modifies this
      ensures prefs == old(prefs)[KEY_FOTO_PERFIL := Cadena(uri)]
    {
      prefs := prefs[KEY_FOTO_PERFIL := Cadena(uri)];
    }

    function ObtenerFotoPerfil(): Option<string>
      reads this
    {
      LeerCadena(prefs, KEY_FOTO_PERFIL)
    }

    method GuardarSesionAdmin(username: string)
      modifies this
      ensures prefs == ConSesionAdmin(old(prefs), username)
    {
      prefs := ConSesionAdmin(prefs, username);
    }

    predicate EstaAdminLogueado()
      reads this
    {
      LeerBooleano(prefs, KEY_ADMIN_LOGUEADO)
    }

    function ObtenerUsernameAdmin(): Option<string>
      reads this
    {
      LeerCadena(prefs, KEY_USERNAME_ADMIN)
    }

    method CerrarSesionAdmin()
      modifies this
      ensures prefs == SinSesionAdmin(old(prefs))
    {
      prefs := SinSesionAdmin(prefs);
    }
  }

  /** A fresh store has no admin session and no photo; a saved photo reads
      back; saving the admin session marks it open under that name and keeps
      the photo; closing it clears both, whatever was stored, and keeps the
      photo. */
  lemma SesionAdmin(prefs: map<string, Valor>, username: string, uri: string)
    ensures !LeerBooleano(map[], KEY_ADMIN_LOGUEADO) && LeerCadena(map[], KEY_FOTO_PERFIL).None?
    ensures LeerCadena(prefs[KEY_FOTO_PERFIL := Cadena(uri)], KEY_FOTO_PERFIL) == Some(uri)
    ensures LeerBooleano(ConSesionAdmin(prefs, username), KEY_ADMIN_LOGUEADO)
    ensures LeerCadena(ConSesionAdmin(prefs, username), KEY_USERNAME_ADMIN) == Some(username)
    ensures LeerCadena(ConSesionAdmin(prefs, username), KEY_FOTO_PERFIL) == LeerCadena(prefs, KEY_FOTO_PERFIL)
    ensures !LeerBooleano(SinSesionAdmin(prefs), KEY_ADMIN_LOGUEADO)
    ensures LeerCadena(SinSesionAdmin(prefs), KEY_USERNAME_ADMIN).None?
    ensures LeerCadena(SinSesionAdmin(prefs), KEY_FOTO_PERFIL) == LeerCadena(prefs, KEY_FOTO_PERFIL)
  {
  }
}
