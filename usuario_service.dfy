/** User administration (app/services/usuario_service.py); `bcrypt` is the passlib hash. */
module UsuarioServicio {
  import opened Comun
  import opened UsuarioRepositorio

  /** The exceptions the user service raises itself; the store's IntegrityError is passed on. */
  datatype UsuarioError = UsernameYaExiste | UsernameEnUso | UsuarioNoEncontrado | Integridad(e: ErrorIntegridad)

  /** Some active user holds `username`. */
  predicate UsernameActivo(t: TablaUsuarios, username: string) {
    exists k :: k in t && t[k].username == username && t[k].activo
  }

  /** The hash `actualizar_usuario` hands to the store: a fresh one for a non-empty password, None otherwise. */
  function HashNuevo(bcrypt: string -> string, password: string): (h: Option<string>)
    ensures password != "" ==> h == Some(bcrypt(password))
    ensures password == "" ==> h == None
  {
    if password != "" then Some(bcrypt(password)) else None
  }

  /**
   * `agregar_usuario`: a username an active user holds is refused; otherwise
   * the user is stored with its bcrypt hash, and the store may still refuse
   * it (a role outside the three, a username an inactive user holds).
   */
  method AgregarUsuario(usuarios: UsuarioRepository, nombre: string, username: string, password: string,
                        rol: string, bcrypt: string -> string)
    returns (r: Result<Usuario, UsuarioError>)
    requires usuarios.Valid()
    modifies usuarios
    ensures usuarios.Valid()
    ensures UsernameActivo(old(usuarios.filas), username) ==> r == Err(UsernameYaExiste)
    ensures r.Ok? <==> RolValido(rol) && UsernameLibre(old(usuarios.filas), username, 0)
    ensures r.Err? ==> usuarios.filas == old(usuarios.filas)
    ensures r.Ok? ==> r.value == Usuario(old(usuarios.siguienteId), nombre, username, Some(bcrypt(password)), rol, true)
                      && usuarios.filas == old(usuarios.filas)[r.value.id := r.value]
  {
    var existente := usuarios.ObtenerPorUsername(username);
    if existente != None {
      return Err(UsernameYaExiste);
    }
    var creado := usuarios.Crear(Usuario(0, nombre, username, Some(bcrypt(password)), rol, true));
    match creado
    case Err(e) =>
      return Err(Integridad(e));
    case Ok(u) =>
      return Ok(u);
  }

  /**
   * `actualizar_usuario`: an unknown id is refused; a changed username an
   * active user holds is refused; then name, username and role are set, the
   * hash only for a non-empty password, and the store may still refuse the
   * row. Returns the object as assigned, with hash None for an empty password.
   */
  method ActualizarUsuario(usuarios: UsuarioRepository, id: int, nombre: string, username: string,
                           password: string, rol: string, bcrypt: string -> string)
    returns (r: Result<Usuario, UsuarioError>)
    requires usuarios.Valid()
    modifies usuarios
    ensures usuarios.Valid()
    ensures id !in old(usuarios.filas) ==> r == Err(UsuarioNoEncontrado)
    ensures (id in old(usuarios.filas) && old(usuarios.filas)[id].username != username
             && UsernameActivo(old(usuarios.filas), username)) ==> r == Err(UsernameEnUso)
    ensures r.Ok? <==> (id in old(usuarios.filas)
                        && !(old(usuarios.filas)[id].username != username && UsernameActivo(old(usuarios.filas), username))
                        && RolValido(rol) && UsernameLibre(old(usuarios.filas), username, id))
    ensures (id in old(usuarios.filas)
             && !(old(usuarios.filas)[id].username != username && UsernameActivo(old(usuarios.filas), username))
             && r.Err?) ==> r.error.Integridad?
    ensures r.Err? ==> usuarios.filas == old(usuarios.filas)
    ensures r.Ok? ==> id in old(usuarios.filas)
                      && r.value == old(usuarios.filas)[id].(nombre := nombre, username := username, rol := rol,
                                                             passwordHash := HashNuevo(bcrypt, password))
                      && usuarios.filas == old(usuarios.filas)[id := FilaActualizada(old(usuarios.filas)[id], r.value)]
    ensures r.Ok? && password == "" ==> usuarios.filas[id].passwordHash == old(usuarios.filas)[id].passwordHash
    ensures r.Ok? && password != "" && bcrypt(password) != "" ==>
              usuarios.filas[id].passwordHash == Some(bcrypt(password))
  {
    var actual := usuarios.ObtenerPorId(id);
    if actual == None {
      return Err(UsuarioNoEncontrado);
    }
    if actual.value.username != username {
      var otro := usuarios.ObtenerPorUsername(username);
      if otro != None {
        return Err(UsernameEnUso);
      }
    }
    var u := actual.value.(nombre := nombre, username := username, rol := rol,
                           passwordHash := HashNuevo(bcrypt, password));
    var escrito := usuarios.Actualizar(u);
    if escrito.Err? {
      return Err(Integridad(escrito.error));
    }
    return Ok(u);
  }

  /** `eliminar_usuario`: an unknown id is refused; otherwise the user is deactivated. */
  method EliminarUsuario(usuarios: UsuarioRepository, id: int) returns (r: Result<(), UsuarioError>)
    requires usuarios.Valid()
    modifies usuarios
    ensures usuarios.Valid()
    ensures r.Err? <==> id !in old(usuarios.filas)
    ensures r.Err? ==> r.error == UsuarioNoEncontrado && usuarios.filas == old(usuarios.filas)
    ensures r.Ok? ==> usuarios.filas == ConBaja(old(usuarios.filas), id)
  {
    if usuarios.ObtenerPorId(id) == None {
      return Err(UsuarioNoEncontrado);
    }
    usuarios.Eliminar(id);
    return Ok(());
  }

  /** `listar_usuarios`: the active users as dictionaries, without hashes. */
  function ListarUsuarios(usuarios: UsuarioRepository): (r: map<int, UsuarioDict>)
    reads usuarios
    ensures forall id :: id in r <==> id in usuarios.filas && usuarios.filas[id].activo
    ensures forall id :: id in r ==> r[id] == ToDict(usuarios.filas[id])
  {
    var activos := usuarios.Listar();
    map id | id in activos :: ToDict(activos[id])
  }

  /** `buscar_usuario`: the dictionary of the row, active or not; None when absent. */
  function BuscarUsuarioDict(usuarios: UsuarioRepository, id: int): (r: Option<UsuarioDict>)
    reads usuarios
    ensures r == None <==> id !in usuarios.filas
    ensures r != None ==> r.value == ToDict(usuarios.filas[id])
  {
    match usuarios.ObtenerPorId(id)
    case None => None
    case Some(u) => Some(ToDict(u))
  }

  /** An update with an empty password keeps the stored hash; a non-empty one replaces it. */
  lemma ClaveVaciaConservaHash(actual: Usuario, u: Usuario, bcrypt: string -> string, password: string)
    requires u.passwordHash == HashNuevo(bcrypt, password)
    ensures password == "" ==> FilaActualizada(actual, u).passwordHash == actual.passwordHash
    ensures password != "" && bcrypt(password) != "" ==> FilaActualizada(actual, u).passwordHash == Some(bcrypt(password))
  {
  }
}
