/** Client administration (app/services/cliente_service.py). */
module ClienteServicio {
  import opened Comun
  import opened ClienteRepositorio

  datatype ClienteError = NombreObligatorio | ClienteNoEncontrado

  /** `agregar_cliente`: an empty name is refused; otherwise one active client is stored. */
  method AgregarCliente(clientes: ClienteRepository, nombre: string,
                        telefono: Option<string> := None, email: Option<string> := None)
    returns (r: Result<Cliente, ClienteError>)
    requires clientes.Valid()
    modifies clientes
    ensures clientes.Valid()
    ensures r.Err? <==> nombre == ""
    ensures r.Err? ==> r.error == NombreObligatorio && clientes.filas == old(clientes.filas)
                       && clientes.siguienteId == old(clientes.siguienteId)
    ensures r.Ok? ==> r.value == Cliente(old(clientes.siguienteId), nombre, telefono, email, true)
                      && clientes.filas == old(clientes.filas)[r.value.id := r.value]
  {
    if nombre == "" {
      return Err(NombreObligatorio);
    }
    var c := clientes.Crear(Cliente(0, nombre, telefono, email, true));
    return Ok(c);
  }

  /**
   * `actualizar_cliente`: an unknown id is refused; otherwise name, phone
   * and email are overwritten (the name is not checked here).
   */
  method ActualizarCliente(clientes: ClienteRepository, id: int, nombre: string,
                           telefono: Option<string> := None, email: Option<string> := None)
    returns (r: Result<Cliente, ClienteError>)
    requires clientes.Valid()
    modifies clientes
    ensures clientes.Valid() && clientes.siguienteId == old(clientes.siguienteId)
    ensures r.Err? <==> id !in old(clientes.filas)
    ensures r.Err? ==> r.error == ClienteNoEncontrado && clientes.filas == old(clientes.filas)
    ensures r.Ok? ==> r.value == old(clientes.filas)[id].(nombre := nombre, telefono := telefono, email := email)
                      && clientes.filas == old(clientes.filas)[id := r.value]
  {
    var actual := clientes.ObtenerPorId(id);
    if actual == None {
      return Err(ClienteNoEncontrado);
    }
    var c := actual.value.(nombre := nombre, telefono := telefono, email := email);
    clientes.Actualizar(c);
    return Ok(c);
  }

  /** `eliminar_cliente`: an unknown id is refused; otherwise the client is deactivated and true returned. */
  method EliminarCliente(clientes: ClienteRepository, id: int) returns (r: Result<bool, ClienteError>)
    requires clientes.Valid()
    modifies clientes
    ensures clientes.Valid()
    ensures r.Err? <==> id !in old(clientes.filas)
    ensures r.Err? ==> r.error == ClienteNoEncontrado && clientes.filas == old(clientes.filas)
    ensures r.Ok? ==> r.value && clientes.filas == ConBaja(old(clientes.filas), id)
    ensures r.Ok? ==> id !in Activos(clientes.filas) && id in clientes.filas
  {
    if clientes.ObtenerPorId(id) == None {
      return Err(ClienteNoEncontrado);
    }
    clientes.Eliminar(id);
    return Ok(true);
  }

  /** `listar_clientes`: the active clients (`to_dict` copies every field). */
  function ListarClientes(clientes: ClienteRepository): (r: TablaClientes)
    reads clientes
    ensures forall id :: id in r <==> id in clientes.filas && clientes.filas[id].activo
    ensures forall id :: id in r ==> r[id] == clientes.filas[id]
  {
    clientes.Listar()
  }

  /** `buscar_cliente`: the row, active or not; None when absent. */
  function BuscarClienteDict(clientes: ClienteRepository, id: int): (r: Option<Cliente>)
    reads clientes
    ensures r == None <==> id !in clientes.filas
    ensures r != None ==> r.value == clientes.filas[id]
  {
    clientes.ObtenerPorId(id)
  }
}
