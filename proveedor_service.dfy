/** Supplier administration (app/services/proveedor_service.py). */
module ProveedorServicio {
  import opened Comun
  import opened ProveedorRepositorio

  datatype ProveedorError = NombreObligatorio | ProveedorNoEncontrado

  /** `agregar_proveedor`: an empty name is refused; otherwise one active supplier is stored. */
  method AgregarProveedor(proveedores: ProveedorRepository, nombre: string,
                          telefono: Option<string>, direccion: Option<string>)
    returns (r: Result<Proveedor, ProveedorError>)
    requires proveedores.Valid()
    modifies proveedores
    ensures proveedores.Valid()
    ensures r.Err? <==> nombre == ""
    ensures r.Err? ==> r.error == NombreObligatorio && proveedores.filas == old(proveedores.filas)
                       && proveedores.siguienteId == old(proveedores.siguienteId)
    ensures r.Ok? ==> r.value == Proveedor(old(proveedores.siguienteId), nombre, telefono, direccion, true)
                      && proveedores.filas == old(proveedores.filas)[r.value.id := r.value]
  {
    if nombre == "" {
      return Err(NombreObligatorio);
    }
    var p := proveedores.Crear(Proveedor(0, nombre, telefono, direccion, true));
    return Ok(p);
  }

  /** `actualizar_proveedor`: an unknown id is refused; otherwise name, phone and address are overwritten. */
  method ActualizarProveedor(proveedores: ProveedorRepository, id: int, nombre: string,
                             telefono: Option<string>, direccion: Option<string>)
    returns (r: Result<Proveedor, ProveedorError>)
    requires proveedores.Valid()
    modifies proveedores
    ensures proveedores.Valid() && proveedores.siguienteId == old(proveedores.siguienteId)
    ensures r.Err? <==> id !in old(proveedores.filas)
    ensures r.Err? ==> r.error == ProveedorNoEncontrado && proveedores.filas == old(proveedores.filas)
    ensures r.Ok? ==> r.value == old(proveedores.filas)[id].(nombre := nombre, telefono := telefono, direccion := direccion)
                      && proveedores.filas == old(proveedores.filas)[id := r.value]
  {
    var actual := proveedores.ObtenerPorId(id);
    if actual == None {
      return Err(ProveedorNoEncontrado);
    }
    var p := actual.value.(nombre := nombre, telefono := telefono, direccion := direccion);
    proveedores.Actualizar(p);
    return Ok(p);
  }

  /** `eliminar_proveedor`: an unknown id is refused; otherwise the supplier is deactivated and true returned. */
  method EliminarProveedor(proveedores: ProveedorRepository, id: int) returns (r: Result<bool, ProveedorError>)
    requires proveedores.Valid()
    modifies proveedores
    ensures proveedores.Valid()
    ensures r.Err? <==> id !in old(proveedores.filas)
    ensures r.Err? ==> r.error == ProveedorNoEncontrado && proveedores.filas == old(proveedores.filas)
    ensures r.Ok? ==> r.value && proveedores.filas == ConBaja(old(proveedores.filas), id)
    ensures r.Ok? ==> id !in Activos(proveedores.filas) && id in proveedores.filas
  {
    if proveedores.ObtenerPorId(id) == None {
      return Err(ProveedorNoEncontrado);
    }
    proveedores.Eliminar(id);
    return Ok(true);
  }

  /** `listar_proveedores`: the active suppliers (`to_dict` copies every field). */
  function ListarProveedores(proveedores: ProveedorRepository): (r: TablaProveedores)
    reads proveedores
    ensures forall id :: id in r <==> id in proveedores.filas && proveedores.filas[id].activo
    ensures forall id :: id in r ==> r[id] == proveedores.filas[id]
  {
    proveedores.Listar()
  }

  /** `buscar_proveedor`: the row, active or not; None when absent. */
  function BuscarProveedorDict(proveedores: ProveedorRepository, id: int): (r: Option<Proveedor>)
    reads proveedores
    ensures r == None <==> id !in proveedores.filas
    ensures r != None ==> r.value == proveedores.filas[id]
  {
    proveedores.ObtenerPorId(id)
  }
}
