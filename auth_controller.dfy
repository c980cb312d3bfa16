/** Login, registration and token checks (app/controllers/auth_controller.py). */
module AuthControlador {
  import opened Comun
  import opened UsuarioRepositorio
  import opened AuthServicio

  /** The dictionaries `login` answers with. */
  datatype RespuestaLogin =
    | Exito(token: string, usuario: UsuarioDict)
    | UsuarioNoEncontrado
    | UsuarioDesactivado
    | ContrasenaIncorrecta

  /** The dictionaries `registrar_usuario` answers with when it does not raise. */
  datatype Registro = Registrado(usuario: UsuarioDict) | UsernameExiste | RolInvalido

  /** The decision chain of `login` once the lookup by username has answered `encontrado`. */
  function DecidirLogin(encontrado: Option<Usuario>, password: string, sha256: string -> string,
                        codificar: Payload -> string, ahora: int): (r: RespuestaLogin)
    ensures encontrado == None ==> r == UsuarioNoEncontrado
    ensures encontrado != None && !encontrado.value.activo ==> r == UsuarioDesactivado
    ensures r.Exito? <==> encontrado != None && encontrado.value.activo
                          && encontrado.value.passwordHash == Some(HashPassword(sha256, password))
    ensures r.Exito? ==> r.usuario == ToDict(encontrado.value)
                         && r.token == GenerarToken(codificar, encontrado.value.id, encontrado.value.username,
                                                    encontrado.value.rol, ahora)
  {
    match encontrado
    case None => UsuarioNoEncontrado
    case Some(u) =>
      if !u.activo then UsuarioDesactivado
      else if u.passwordHash != Some(HashPassword(sha256, password)) then ContrasenaIncorrecta
      else Exito(GenerarToken(codificar, u.id, u.username, u.rol, ahora), ToDict(u))
  }

  /**
   * `login`: looks the username up among ACTIVE users, so an inactive user
   * is "not found" and the "deactivated" answer never comes back.
   */
  method Login(usuarios: UsuarioRepository, username: string, password: string,
               sha256: string -> string, codificar: Payload -> string, ahora: int) returns (r: RespuestaLogin)
    requires usuarios.Valid()
    ensures (forall k :: k in usuarios.filas ==> !(usuarios.filas[k].username == username && usuarios.filas[k].activo))
              ==> r == UsuarioNoEncontrado
    ensures forall k :: k in usuarios.filas && usuarios.filas[k].username == username && usuarios.filas[k].activo ==>
              r == DecidirLogin(Some(usuarios.filas[k]), password, sha256, codificar, ahora)
    ensures r != UsuarioDesactivado
  {
    var encontrado := usuarios.ObtenerPorUsername(username);
    r := DecidirLogin(encontrado, password, sha256, codificar, ahora);
  }

  /**
   * A user stored with a hash other than SHA-256 of the password (as
   * `UsuarioService` stores bcrypt hashes) cannot log in with that password.
   */
  lemma OtroHashNoAbreSesion(u: Usuario, password: string, sha256: string -> string,
                             bcrypt: string -> string, codificar: Payload -> string, ahora: int)
    requires u.activo && u.passwordHash == Some(bcrypt(password)) && bcrypt(password) != sha256(password)
    ensures DecidirLogin(Some(u), password, sha256, codificar, ahora) == ContrasenaIncorrecta
  {
  }

  /**
   * `registrar_usuario`: an active holder of the username is reported
   * before the role is checked; a role outside the three is reported; then
   * the user is stored with the SHA-256 hash, and an inactive holder of the
   * username makes the insert raise.
   */
  method RegistrarUsuario(usuarios: UsuarioRepository, nombre: string, username: string, password: string,
                          rol: string, sha256: string -> string)
    returns (r: Result<Registro, ErrorIntegridad>)
    requires usuarios.Valid()
    modifies usuarios
    ensures usuarios.Valid()
    ensures (exists k :: k in old(usuarios.filas) && old(usuarios.filas)[k].username == username
                         && old(usuarios.filas)[k].activo) ==> r == Ok(UsernameExiste)
    ensures && (forall k :: k in old(usuarios.filas) ==> !(old(usuarios.filas)[k].username == username
                                                          && old(usuarios.filas)[k].activo))
            && !RolValido(rol)
            ==> r == Ok(RolInvalido)
    ensures && RolValido(rol)
            && (forall k :: k in old(usuarios.filas) ==> old(usuarios.filas)[k].username != username)
            ==> r.Ok? && r.value.Registrado?
    ensures && RolValido(rol)
            && (forall k :: k in old(usuarios.filas) ==> !(old(usuarios.filas)[k].username == username
                                                          && old(usuarios.filas)[k].activo))
            && (exists k :: k in old(usuarios.filas) && old(usuarios.filas)[k].username == username)
            ==> r.Err?
    ensures r.Err? ==> RolValido(rol)
    ensures r.Err? ==> exists k :: && k in old(usuarios.filas)
                                   && old(usuarios.filas)[k].username == username
                                   && !old(usuarios.filas)[k].activo
    ensures !(r.Ok? && r.value.Registrado?) ==> usuarios.filas == old(usuarios.filas)
    ensures r.Ok? && r.value.Registrado? ==>
              var id := old(usuarios.siguienteId);
              && r.value.usuario.id == id && id !in old(usuarios.filas)
              && usuarios.filas == old(usuarios.filas)[id := Usuario(id, nombre, username,
                                                              Some(HashPassword(sha256, password)), rol, true)]
              && r.value.usuario == ToDict(usuarios.filas[id])
  {
    var existente := usuarios.ObtenerPorUsername(username);
    if existente != None {
      return Ok(UsernameExiste);
    }
    if !RolValido(rol) {
      return Ok(RolInvalido);
    }
    var creado := usuarios.Crear(Usuario(0, nombre, username, Some(HashPassword(sha256, password)), rol, true));
    match creado
    case Err(e) =>
      return Err(e);
    case Ok(u) =>
      return Ok(Registrado(ToDict(u)));
  }

  /** `validar_token`: the payload of a token that decodes and has not expired. */
  function ValidarToken(decodificar: string -> Option<Payload>, token: string, ahora: int): (r: Option<Payload>)
    ensures r != None <==> decodificar(token) != None && ahora <= decodificar(token).value.exp
    ensures r != None ==> r == decodificar(token)
  {
    DecodificarToken(decodificar, token, ahora)
  }

  /** `verificar_permiso`: false for a bad or expired token, the role check otherwise. */
  function VerificarPermiso(decodificar: string -> Option<Payload>, token: string, rolRequerido: string,
                            ahora: int): (b: bool)
    ensures DecodificarToken(decodificar, token, ahora) == None ==> !b
    ensures b <==> ValidarToken(decodificar, token, ahora) != None
                   && Permitido(rolRequerido, ValidarToken(decodificar, token, ahora).value.rol)
  {
    match DecodificarToken(decodificar, token, ahora)
    case None => false
    case Some(p) =>
      VerificarRolEsTabla(rolRequerido, p.rol);
      VerificarRol(rolRequerido, p.rol)
  }
}
