/** The usuario table (app/repositories/usuario_repository.py, record shape from app/models/usuario.py). */
module UsuarioRepositorio {
  import opened Comun

  /**
   * One user row. `passwordHash` is None only on an in-memory object: the
   * column is NOT NULL, and `actualizar` reads None as "keep the stored hash".
   */
  datatype Usuario = Usuario(
    id: int,
    nombre: string,
    username: string,
    passwordHash: Option<string>,
    rol: string,
    activo: bool)

  /** The dictionary `to_dict` builds: every field but the hash. */
  datatype UsuarioDict = UsuarioDict(id: int, nombre: string, username: string, rol: string, activo: bool)

  /** What SQLite raises when a write breaks a column constraint. */
  datatype ErrorIntegridad = IntegrityError

  type TablaUsuarios = map<int, Usuario>

  function ToDict(u: Usuario): (d: UsuarioDict)
    ensures d.id == u.id && d.nombre == u.nombre && d.username == u.username
    ensures d.rol == u.rol && d.activo == u.activo
  {
    UsuarioDict(u.id, u.nombre, u.username, u.rol, u.activo)
  }

  /** The roles the CHECK constraint on `rol` admits. */
  predicate RolValido(rol: string) {
    rol == "Admin" || rol == "Cajero" || rol == "Auxiliar"
  }

  /** No row other than `excepto`, active or not, holds `username` (the UNIQUE constraint). */
  predicate UsernameLibre(t: TablaUsuarios, username: string, excepto: int) {
    forall k :: k in t && k != excepto ==> t[k].username != username
  }

  /** Python truthiness of the hash: present and not the empty string. */
  predicate HashPresente(h: Option<string>) {
    h.Some? && h.value != ""
  }

  /** The schema of a stored row: a hash, an admitted role. */
  predicate FilaConforme(u: Usuario) {
    u.passwordHash.Some? && RolValido(u.rol)
  }

  /** A table whose keys are fresh below `siguienteId`, match each row's id, and meet the schema. */
  ghost predicate TablaValida(t: TablaUsuarios, siguienteId: int) {
    && 1 <= siguienteId
    && (forall id :: id in t ==> 1 <= id < siguienteId && t[id].id == id && FilaConforme(t[id]))
    && (forall a, b :: a in t && b in t && t[a].username == t[b].username ==> a == b)
  }

  /** `listar`: the rows with activo = 1. */
  function Activos(t: TablaUsuarios): (r: TablaUsuarios)
    ensures forall id :: id in r <==> id in t && t[id].activo
    ensures forall id :: id in r ==> r[id] == t[id]
  {
    map id | id in t && t[id].activo :: t[id]
  }

  /** `obtener_por_id`: the row whether or not it is active. */
  function BuscarUsuario(t: TablaUsuarios, id: int): (r: Option<Usuario>)
    ensures r == None <==> id !in t
    ensures r != None ==> r.value == t[id]
  {
    if id in t then Some(t[id]) else None
  }

  /**
   * The row `actualizar` writes over `actual`: name, username and role from
   * `u`; the hash from `u` only when it is present; id and activo untouched.
   */
  function FilaActualizada(actual: Usuario, u: Usuario): (r: Usuario)
    ensures r.id == actual.id && r.activo == actual.activo
    ensures r.nombre == u.nombre && r.username == u.username && r.rol == u.rol
    ensures HashPresente(u.passwordHash) ==> r.passwordHash == u.passwordHash
    ensures !HashPresente(u.passwordHash) ==> r.passwordHash == actual.passwordHash
  {
    if HashPresente(u.passwordHash) then
      actual.(nombre := u.nombre, username := u.username, passwordHash := u.passwordHash, rol := u.rol)
    else
      actual.(nombre := u.nombre, username := u.username, rol := u.rol)
  }

  /** `eliminar`: soft delete, only activo becomes false. */
  function ConBaja(t: TablaUsuarios, id: int): (r: TablaUsuarios)
    ensures r.Keys == t.Keys
    ensures forall k :: k in t && k != id ==> r[k] == t[k]
    ensures id in t ==> r[id] == t[id].(activo := false)
  {
    if id in t then t[id := t[id].(activo := false)] else t
  }

  /** A deactivated user leaves the listing but is still found by id. */
  lemma BajaOcultaPeroConserva(t: TablaUsuarios, id: int)
    requires id in t
    ensures id !in Activos(ConBaja(t, id)) && id in ConBaja(t, id)
    ensures forall k :: k != id ==> (k in Activos(ConBaja(t, id)) <==> k in Activos(t))
    ensures BuscarUsuario(ConBaja(t, id), id) == Some(t[id].(activo := false))
  {
  }

  /** An update without a hash keeps the stored one, so a stored row keeps meeting the schema. */
  lemma ActualizarConservaEsquema(actual: Usuario, u: Usuario)
    requires FilaConforme(actual) && RolValido(u.rol)
    ensures FilaConforme(FilaActualizada(actual, u))
  {
  }

  class UsuarioRepository {
    var filas: TablaUsuarios
    var siguienteId: int

    ghost predicate Valid()
      reads this
    {
      TablaValida(filas, siguienteId)
    }

    constructor ()
      ensures Valid() && filas == map[] && siguienteId == 1
    {
      filas := map[];
      siguienteId := 1;
    }

    /**
     * `crear`: stores `u` under a fresh id; when the row breaks the schema
     * (no hash, a role outside the CHECK, a username any row already holds)
     * the insert is rolled back and the error re-raised.
     */
    method Crear(u: Usuario) returns (r: Result<Usuario, ErrorIntegridad>)
      requires Valid()
      modifies this
      ensures Valid()
      ensures r.Err? <==> !(FilaConforme(u) && UsernameLibre(old(filas), u.username, 0))
      ensures r.Err? ==> filas == old(filas) && siguienteId == old(siguienteId)
      ensures r.Ok? ==> r.value == u.(id := old(siguienteId)) && r.value.id !in old(filas)
                        && filas == old(filas)[r.value.id := r.value] && siguienteId == old(siguienteId) + 1
    {
      var libre := true;
      for id := 1 to siguienteId
        invariant libre <==> forall k :: k in filas && k < id ==> filas[k].username != u.username
      {
        if id in filas && filas[id].username == u.username {
          libre := false;
        }
      }
      if !FilaConforme(u) || !libre {
        return Err(IntegrityError);
      }
      var v := u.(id := siguienteId);
      filas := filas[v.id := v];
      siguienteId := siguienteId + 1;
      return Ok(v);
    }

    function ObtenerPorId(id: int): (r: Option<Usuario>)
      reads this
      ensures r == None <==> id !in filas
      ensures r != None ==> r.value == filas[id]
    {
      BuscarUsuario(filas, id)
    }

    /** `obtener_por_username`: the active row holding `username`, if any. */
    method ObtenerPorUsername(username: string) returns (r: Option<Usuario>)
      requires Valid()
      ensures r == None <==> forall k :: k in filas ==> !(filas[k].username == username && filas[k].activo)
      ensures r != None ==> r.value.id in filas && filas[r.value.id] == r.value
                            && r.value.username == username && r.value.activo
    {
      r := None;
      for id := 1 to siguienteId
        invariant r == None ==> forall k :: k in filas && k < id ==> !(filas[k].username == username && filas[k].activo)
        invariant r != None ==> r.value.id in filas && filas[r.value.id] == r.value
                                && r.value.username == username && r.value.activo
      {
        if r == None && id in filas && filas[id].username == username && filas[id].activo {
          r := Some(filas[id]);
        }
      }
    }

    /** `listar`: the active rows, each as stored. */
    function Listar(): (r: TablaUsuarios)
      reads this
      ensures forall id :: id in r <==> id in filas && filas[id].activo
      ensures forall id :: id in r ==> r[id] == filas[id]
    {
      Activos(filas)
    }

    /**
     * `actualizar`: rewrites row `u.id` as `FilaActualizada` says; a new
     * username another row holds breaks UNIQUE and raises, as does a role
     * outside the CHECK. An absent id matches no row and changes nothing.
     */
    method Actualizar(u: Usuario) returns (r: Result<(), ErrorIntegridad>)
      requires Valid()
      modifies this
      ensures Valid() && siguienteId == old(siguienteId)
      ensures u.id !in old(filas) ==> r.Ok? && filas == old(filas)
      ensures u.id in old(filas) ==>
                (r.Err? <==> !(RolValido(u.rol) && UsernameLibre(old(filas), u.username, u.id)))
      ensures r.Err? ==> filas == old(filas)
      ensures u.id in old(filas) && r.Ok? ==> filas == old(filas)[u.id := FilaActualizada(old(filas)[u.id], u)]
    {
      if u.id !in filas {
        return Ok(());
      }
      var libre := true;
      for id := 1 to siguienteId
        invariant libre <==> forall k :: k in filas && k < id && k != u.id ==> filas[k].username != u.username
      {
        if id in filas && id != u.id && filas[id].username == u.username {
          libre := false;
        }
      }
      if !RolValido(u.rol) || !libre {
        return Err(IntegrityError);
      }
      filas := filas[u.id := FilaActualizada(filas[u.id], u)];
      return Ok(());
    }

    method Eliminar(id: int)
      requires Valid()
      modifies this
      ensures Valid() && siguienteId == old(siguienteId)
      ensures filas == ConBaja(old(filas), id)
    {
      filas := ConBaja(filas, id);
    }
  }
}
