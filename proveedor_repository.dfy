/** The proveedor table (app/repositories/proveedor_repository.py, record shape from app/models/proveedor.py). */
module ProveedorRepositorio {
  import opened Comun

  datatype Proveedor = Proveedor(id: int, nombre: string, telefono: Option<string>, direccion: Option<string>, activo: bool)

  type TablaProveedores = map<int, Proveedor>

  /** `listar`: the rows with activo = 1. */
  function Activos(t: TablaProveedores): (r: TablaProveedores)
    ensures forall id :: id in r <==> id in t && t[id].activo
    ensures forall id :: id in r ==> r[id] == t[id]
  {
    map id | id in t && t[id].activo :: t[id]
  }

  /** `obtener_por_id`: the row whatever its activo value. */
  function BuscarProveedor(t: TablaProveedores, id: int): (r: Option<Proveedor>)
    ensures r == None <==> id !in t
    ensures r != None ==> r.value == t[id]
  {
    if id in t then Some(t[id]) else None
  }

  /** `actualizar`: name, phone and address of row `p.id` from `p`; id and activo stay. */
  function ConDatos(t: TablaProveedores, p: Proveedor): (r: TablaProveedores)
    ensures r.Keys == t.Keys
    ensures forall k :: k in t && k != p.id ==> r[k] == t[k]
    ensures p.id in t ==> r[p.id] == p.(id := t[p.id].id, activo := t[p.id].activo)
  {
    if p.id in t then t[p.id := t[p.id].(nombre := p.nombre, telefono := p.telefono, direccion := p.direccion)] else t
  }

  /** `eliminar`: soft delete, only activo becomes false. */
  function ConBaja(t: TablaProveedores, id: int): (r: TablaProveedores)
    ensures r.Keys == t.Keys
    ensures forall k :: k in t && k != id ==> r[k] == t[k]
    ensures id in t ==> r[id] == t[id].(activo := false)
  {
    if id in t then t[id := t[id].(activo := false)] else t
  }

  /** A deactivated supplier leaves the listing but is still found by id. */
  lemma BajaOcultaPeroConserva(t: TablaProveedores, id: int)
    requires id in t
    ensures id !in Activos(ConBaja(t, id))
    ensures forall k :: k != id ==> (k in Activos(ConBaja(t, id)) <==> k in Activos(t))
    ensures BuscarProveedor(ConBaja(t, id), id) == Some(t[id].(activo := false))
  {
  }

  ghost predicate TablaValida(t: TablaProveedores, siguienteId: int) {
    1 <= siguienteId && forall id :: id in t ==> 1 <= id < siguienteId && t[id].id == id
  }

  class ProveedorRepository {
    var filas: TablaProveedores
    var siguienteId: int

    ghost predicate Valid()
      reads this
    {
      TablaValida(filas, siguienteId)
    }

    constructor ()
      ensures Valid() && filas == map[] && siguienteId == 1
    {
      filas := map[];
      siguienteId := 1;
    }

    /** `crear`: stores `p` under a fresh id and writes the id back. */
    method Crear(p: Proveedor) returns (q: Proveedor)
      requires Valid()
      modifies this
      ensures Valid()
      ensures q == p.(id := old(siguienteId)) && q.id !in old(filas)
      ensures filas == old(filas)[q.id := q] && siguienteId == old(siguienteId) + 1
    {
      q := p.(id := siguienteId);
      filas := filas[q.id := q];
      siguienteId := siguienteId + 1;
    }

    function ObtenerPorId(id: int): (r: Option<Proveedor>)
      reads this
      ensures r == None <==> id !in filas
      ensures r != None ==> r.value == filas[id]
    {
      BuscarProveedor(filas, id)
    }

    /** `listar`: the active rows, each as stored. */
    function Listar(): (r: TablaProveedores)
      reads this
      ensures forall id :: id in r <==> id in filas && filas[id].activo
      ensures forall id :: id in r ==> r[id] == filas[id]
    {
      Activos(filas)
    }

    method Actualizar(p: Proveedor)
      requires Valid()
      modifies this
      ensures Valid() && siguienteId == old(siguienteId)
      ensures filas == ConDatos(old(filas), p)
    {
      filas := ConDatos(filas, p);
    }

    method Eliminar(id: int)
      requires Valid()
      modifies this
      ensures Valid() && siguienteId == old(siguienteId)
      ensures filas == ConBaja(old(filas), id)
    {
      filas := ConBaja(filas, id);
    }
  }
}
