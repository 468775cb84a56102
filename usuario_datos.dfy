// The `usuarios` table (REPLACE inserts with generated keys, lookups that
// return the first matching row) and its repository.
module UsuarioDatos {
  import opened Opciones
  import opened Entidades
  import opened Listas
  import Tabla

  function ClaveUsuario(u: UsuarioEntity): int { u.id }

  /** The rows in key order together with the AUTOINCREMENT counter. */
  datatype TablaUsuarios = TablaUsuarios(filas: seq<UsuarioEntity>, secuencia: int)

  /** Keys in order, none above the counter, which never goes below 0. */
  predicate TablaValida(t: TablaUsuarios) {
    0 <= t.secuencia && Tabla.Ordenada(t.filas, ClaveUsuario) &&
    forall i :: 0 <= i < |t.filas| ==> t.filas[i].id <= t.secuencia
  }

  /** Key 0 asks for the next key after the counter. */
  function ClaveNueva(secuencia: int, u: UsuarioEntity): int {
    if u.id == 0 then secuencia + 1 else u.id
  }

  /** One `INSERT OR REPLACE`. */
  function Insertar(t: TablaUsuarios, u: UsuarioEntity): TablaUsuarios {
    var k := ClaveNueva(t.secuencia, u);
    TablaUsuarios(Tabla.Colocar(t.filas, u.(id := k), ClaveUsuario), if k > t.secuencia then k else t.secuencia)
  }

  function ConEmail(email: string): UsuarioEntity -> bool {
    (u: UsuarioEntity) => u.email == email
  }

  function ConCodigo(codigo: string): UsuarioEntity -> bool {
    (u: UsuarioEntity) => u.codigoPropio == codigo
  }

  /** `WHERE email = :email LIMIT 1`, scanning in key order. */
  function PorEmail(filas: seq<UsuarioEntity>, email: string): Option<UsuarioEntity> {
    Primero(filas, ConEmail(email))
  }

  /** `WHERE codigoPropio = :codigo LIMIT 1`, scanning in key order. */
  function PorCodigo(filas: seq<UsuarioEntity>, codigo: string): Option<UsuarioEntity> {
    Primero(filas, ConCodigo(codigo))
  }

  class UsuarioDao {
    var filas: seq<UsuarioEntity>
    var secuencia: int

    ghost predicate Valid()
      reads this
    {
      TablaValida(TablaUsuarios(filas, secuencia))
    }

    constructor()
      ensures filas == [] && secuencia == 0 && Valid()
    {
      filas := [];
      secuencia := 0;
    }

    /** `insertarUsuario`: REPLACE on the key; returns the key used. */
    method InsertarUsuario(u: UsuarioEntity) returns (id: int)
      requires Valid()
      modifies this
      ensures Valid()
      ensures id == ClaveNueva(old(secuencia), u)
      ensures TablaUsuarios(filas, secuencia) == Insertar(TablaUsuarios(old(filas), old(secuencia)), u)
    {
      InsertarValida(TablaUsuarios(filas, secuencia), u);
      id := ClaveNueva(secuencia, u);
      filas := Tabla.Colocar(filas, u.(id := id), ClaveUsuario);
      if id > secuencia {
        secuencia := id;
      }
    }

    function ObtenerUsuarioPorId(id: int): Option<UsuarioEntity>
      reads this
    {
      Tabla.Buscar(filas, ClaveUsuario, id)
    }

    function ObtenerUsuarioPorEmail(email: string): Option<UsuarioEntity>
      reads this
    {
      PorEmail(filas, email)
    }

    function ObtenerUsuarioPorCodigo(codigo: string): Option<UsuarioEntity>
      reads this
    {
      PorCodigo(filas, codigo)
    }

    function ObtenerUsuarios(): seq<UsuarioEntity>
      reads this
    {
      filas
    }

    /** `@Delete`: removes the row with the entity's key. */
    method EliminarUsuario(u: UsuarioEntity)
      requires Valid()
      modifies this`filas
      ensures Valid()
      ensures filas == Tabla.QuitarClave(old(filas), ClaveUsuario, u.id)
      ensures ObtenerUsuarioPorId(u.id).None?
      ensures forall k :: k != u.id ==> ObtenerUsuarioPorId(k) == old(ObtenerUsuarioPorId(k))
    {
      Tabla.QuitarClaveCorrecto(filas, ClaveUsuario, u.id);
      Tabla.SubconjuntoDeQuitarClave(filas, ClaveUsuario, u.id);
      filas := Tabla.QuitarClave(filas, ClaveUsuario, u.id);
      forall i | 0 <= i < |filas| ensures filas[i].id <= secuencia {
        assert filas[i] in filas;
      }
    }
  }

  /** Every call goes straight to the DAO. */
  class UsuarioRepository {
    const usuarioDao: UsuarioDao

    constructor(dao: UsuarioDao)
      ensures usuarioDao == dao
    {
      usuarioDao := dao;
    }

    method RegistrarUsuario(u: UsuarioEntity) returns (id: int)
      requires usuarioDao.Valid()
      modifies usuarioDao
      ensures usuarioDao.Valid()
      ensures id == ClaveNueva(old(usuarioDao.secuencia), u)
      ensures TablaUsuarios(usuarioDao.filas, usuarioDao.secuencia) ==
              Insertar(TablaUsuarios(old(usuarioDao.filas), old(usuarioDao.secuencia)), u)
    {
      id := usuarioDao.InsertarUsuario(u);
    }

    function ObtenerUsuarioPorId(id: int): Option<UsuarioEntity>
      reads usuarioDao
    {
      usuarioDao.ObtenerUsuarioPorId(id)
    }

    function ObtenerUsuarioPorEmail(email: string): Option<UsuarioEntity>
      reads usuarioDao
    {
      usuarioDao.ObtenerUsuarioPorEmail(email)
    }

    function ObtenerUsuarioPorCodigo(codigo: string): Option<UsuarioEntity>
      reads usuarioDao
    {
      usuarioDao.ObtenerUsuarioPorCodigo(codigo)
    }

    function ObtenerUsuarios(): seq<UsuarioEntity>
      reads usuarioDao
    {
      usuarioDao.ObtenerUsuarios()
    }

    method EliminarUsuario(u: UsuarioEntity)
      requires usuarioDao.Valid()
      modifies usuarioDao`filas
      ensures usuarioDao.Valid()
      ensures usuarioDao.filas == Tabla.QuitarClave(old(usuarioDao.filas), ClaveUsuario, u.id)
    {
      usuarioDao.EliminarUsuario(u);
    }
  }

  // ---------------------------------------------------------------------
  // Properties
  // ---------------------------------------------------------------------

  /** One REPLACE keeps the table well formed and files the row under its
      key; with key 0 the key is fresh and the row goes last. */
  lemma {:induction false} InsertarValida(t: TablaUsuarios, u: UsuarioEntity)
    requires TablaValida(t)
    ensures TablaValida(Insertar(t, u))
    ensures var k := ClaveNueva(t.secuencia, u);
      Tabla.Buscar(Insertar(t, u).filas, ClaveUsuario, k) == Some(u.(id := k)) &&
      (u.id == 0 ==> !Tabla.TieneClave(t.filas, ClaveUsuario, k) && Insertar(t, u).filas == t.filas + [u.(id := k)])
  {
    var k := ClaveNueva(t.secuencia, u);
    InsertarConservaValida(t, u);
    Tabla.ColocarBuscar(t.filas, u.(id := k), ClaveUsuario, k);
    if u.id == 0 {
      InsertarAlFinal(t, u);
    }
  }

  lemma {:induction false} InsertarConservaValida(t: TablaUsuarios, u: UsuarioEntity)
    requires TablaValida(t)
    ensures TablaValida(Insertar(t, u))
  {
    var fila := u.(id := ClaveNueva(t.secuencia, u));
    Tabla.ColocarOrdenada(t.filas, fila, ClaveUsuario);
    Tabla.ClavesDeColocar(t.filas, fila, ClaveUsuario);
    var r := Insertar(t, u);
    forall i | 0 <= i < |r.filas| ensures r.filas[i].id <= r.secuencia {
      assert r.filas[i] in r.filas;
    }
  }

  /** A row with key 0 goes after every existing row, under the next key,
      which no row has. */
  lemma {:induction false} InsertarAlFinal(t: TablaUsuarios, u: UsuarioEntity)
    requires TablaValida(t) && u.id == 0
    ensures !Tabla.TieneClave(t.filas, ClaveUsuario, t.secuencia + 1)
    ensures Insertar(t, u).filas == t.filas + [u.(id := t.secuencia + 1)]
  {
    Tabla.ColocarAlFinal(t.filas, u.(id := t.secuencia + 1), ClaveUsuario);
  }

  /** A new account (key 0) whose email no row has yet is what the email
      lookup returns afterwards, with its generated key. */
  lemma {:induction false} RegistroEncontrable(t: TablaUsuarios, u: UsuarioEntity)
    requires TablaValida(t) && u.id == 0 && PorEmail(t.filas, u.email).None?
    ensures PorEmail(Insertar(t, u).filas, u.email) == Some(u.(id := t.secuencia + 1))
  {
    InsertarAlFinal(t, u);
    PrimeroAlFinal(t.filas, u.(id := t.secuencia + 1), ConEmail(u.email));
  }

  /** Emails are not unique: registering again with an email already in the
      table adds a second row, and the lookup keeps returning the older one. */
  lemma {:induction false} EmailRepetidoDevuelveElAntiguo(t: TablaUsuarios, u: UsuarioEntity)
    requires TablaValida(t) && u.id == 0 && PorEmail(t.filas, u.email).Some?
    ensures |Insertar(t, u).filas| == |t.filas| + 1
    ensures PorEmail(Insertar(t, u).filas, u.email) == PorEmail(t.filas, u.email)
  {
    InsertarAlFinal(t, u);
    PrimeroAlFinal(t.filas, u.(id := t.secuencia + 1), ConEmail(u.email));
  }

  /** The same holds for the referral code lookup. */
  lemma {:induction false} CodigoRepetidoDevuelveElAntiguo(t: TablaUsuarios, u: UsuarioEntity)
    requires TablaValida(t) && u.id == 0 && PorCodigo(t.filas, u.codigoPropio).Some?
    ensures PorCodigo(Insertar(t, u).filas, u.codigoPropio) == PorCodigo(t.filas, u.codigoPropio)
  {
    InsertarAlFinal(t, u);
    PrimeroAlFinal(t.filas, u.(id := t.secuencia + 1), ConCodigo(u.codigoPropio));
  }
}
