/**
 * Password hashing, tokens and the role hierarchy (app/services/auth_service.py).
 * SHA-256 and the base64/JSON token codec are library code, so they enter as
 * function parameters; the clock is an integer of seconds.
 */
module AuthServicio {
  import opened Comun

  /** What a token carries: the user, the role and the expiry instant. */
  datatype Payload = Payload(id: int, username: string, rol: string, exp: int)

  /** The lifetime of a token: 24 hours. */
  const DuracionToken: int := 24 * 60 * 60

  /** `hash_password`: the hex digest of the password under `sha256`. */
  function HashPassword(sha256: string -> string, password: string): (h: string)
    ensures h == sha256(password)
  {
    sha256(password)
  }

  /** `verify_password`: a password matches a stored hash when it hashes to it. */
  function VerifyPassword(sha256: string -> string, password: string, hash: string): (b: bool)
    ensures b <==> sha256(password) == hash
  {
    HashPassword(sha256, password) == hash
  }

  /** Every password matches its own hash. */
  lemma VerificaSuPropioHash(sha256: string -> string, password: string)
    ensures VerifyPassword(sha256, password, HashPassword(sha256, password))
  {
  }

  /** With an injective hash, no other password (not even one differing in case only) matches. */
  lemma OtraClaveNoVerifica(sha256: string -> string, p: string, q: string)
    requires forall a, b :: sha256(a) == sha256(b) ==> a == b
    ensures VerifyPassword(sha256, q, HashPassword(sha256, p)) <==> q == p
  {
  }

  /** `generate_token`: the payload of `(id, username, rol)` expiring 24 hours after `ahora`, encoded. */
  function GenerarToken(codificar: Payload -> string, id: int, username: string, rol: string, ahora: int): (t: string)
    ensures t == codificar(Payload(id, username, rol, ahora + 86400))
  {
    codificar(Payload(id, username, rol, ahora + DuracionToken))
  }

  /**
   * `decode_token`: None when the text does not decode or the expiry lies
   * before `ahora`; the payload otherwise.
   */
  function DecodificarToken(decodificar: string -> Option<Payload>, token: string, ahora: int): (r: Option<Payload>)
    ensures r != None ==> decodificar(token) == r && ahora <= r.value.exp
    ensures r == None <==> decodificar(token) == None || decodificar(token).value.exp < ahora
  {
    match decodificar(token)
    case None => None
    case Some(p) => if p.exp < ahora then None else Some(p)
  }

  /**
   * With a codec that reads back what it writes, a token decodes to its
   * own payload for exactly 24 hours after it was issued.
   */
  lemma TokenValido24Horas(codificar: Payload -> string, decodificar: string -> Option<Payload>,
                           id: int, username: string, rol: string, emitido: int, ahora: int)
    requires forall p :: decodificar(codificar(p)) == Some(p)
    ensures var token := GenerarToken(codificar, id, username, rol, emitido);
            DecodificarToken(decodificar, token, ahora) != None <==> ahora <= emitido + DuracionToken
    ensures var token := GenerarToken(codificar, id, username, rol, emitido);
            ahora <= emitido + DuracionToken ==>
              DecodificarToken(decodificar, token, ahora) == Some(Payload(id, username, rol, emitido + DuracionToken))
  {
    var p := Payload(id, username, rol, emitido + DuracionToken);
    assert decodificar(codificar(p)) == Some(p);
  }

  /** The level of a role in `roles_jerarquia`; any other string has level 0. */
  function Nivel(rol: string): (n: int)
    ensures 0 <= n <= 3
    ensures n == 3 <==> rol == "Admin"
    ensures n == 2 <==> rol == "Cajero"
    ensures n == 1 <==> rol == "Auxiliar"
  {
    if rol == "Admin" then 3
    else if rol == "Cajero" then 2
    else if rol == "Auxiliar" then 1
    else 0
  }

  /** `verificar_rol`: the user's level reaches the required one. */
  function VerificarRol(requerido: string, rolUsuario: string): (b: bool)
    ensures b <==> Permitido(requerido, rolUsuario)
  {
    Nivel(rolUsuario) >= Nivel(requerido)
  }

  /** A role the hierarchy knows. */
  predicate Conocido(rol: string) {
    rol == "Admin" || rol == "Cajero" || rol == "Auxiliar"
  }

  /** The hierarchy spelt out case by case, independently of the levels. */
  predicate Permitido(requerido: string, rolUsuario: string) {
    || !Conocido(requerido)
    || rolUsuario == "Admin"
    || (rolUsuario == "Cajero" && requerido != "Admin")
    || (rolUsuario == "Auxiliar" && requerido == "Auxiliar")
  }

  /** The level comparison grants exactly the pairs of the case-by-case table. */
  lemma VerificarRolEsTabla(requerido: string, rolUsuario: string)
    ensures VerificarRol(requerido, rolUsuario) <==> Permitido(requerido, rolUsuario)
  {
  }

  /** Admin passes every check. */
  lemma AdminPasaTodo(requerido: string)
    ensures VerificarRol(requerido, "Admin")
  {
  }

  /** Auxiliar passes only an Auxiliar or an unknown requirement. */
  lemma AuxiliarSoloAuxiliar(requerido: string)
    ensures VerificarRol(requerido, "Auxiliar") <==> requerido == "Auxiliar" || !Conocido(requerido)
  {
  }

  /** An unknown or empty user role fails every known requirement and passes every unknown one. */
  lemma RolDesconocido(requerido: string, rolUsuario: string)
    requires !Conocido(rolUsuario)
    ensures VerificarRol(requerido, rolUsuario) <==> !Conocido(requerido)
  {
  }

  /** The check is a preorder: reflexive and transitive. */
  lemma VerificarRolPreorden(a: string, b: string, c: string)
    ensures VerificarRol(a, a)
    ensures VerificarRol(a, b) && VerificarRol(b, c) ==> VerificarRol(a, c)
  {
  }
}
