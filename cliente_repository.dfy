/** The cliente table (app/repositories/cliente_repository.py, record shape from app/models/cliente.py). */
module ClienteRepositorio {
  import opened Comun

  datatype Cliente = Cliente(id: int, nombre: string, telefono: Option<string>, email: Option<string>, activo: bool)

  type TablaClientes = map<int, Cliente>

  /** `listar`: the rows with activo = 1. */
  function Activos(t: TablaClientes): (r: TablaClientes)
    ensures forall id :: id in r <==> id in t && t[id].activo
    ensures forall id :: id in r ==> r[id] == t[id]
  {
    map id | id in t && t[id].activo :: t[id]
  }

  /** `obtener_por_id`: the row whatever its activo value. */
  function BuscarCliente(t: TablaClientes, id: int): (r: Option<Cliente>)
    ensures r == None <==> id !in t
    ensures r != None ==> r.value == t[id]
  {
    if id in t then Some(t[id]) else None
  }

  /** `actualizar`: name, phone and email of row `c.id` from `c`; id and activo stay. */
  function ConDatos(t: TablaClientes, c: Cliente): (r: TablaClientes)
    ensures r.Keys == t.Keys
    ensures forall k :: k in t && k != c.id ==> r[k] == t[k]
    ensures c.id in t ==> r[c.id] == c.(id := t[c.id].id, activo := t[c.id].activo)
  {
    if c.id in t then t[c.id := t[c.id].(nombre := c.nombre, telefono := c.telefono, email := c.email)] else t
  }

  /** `eliminar`: soft delete, only activo becomes false. */
  function ConBaja(t: TablaClientes, id: int): (r: TablaClientes)
    ensures r.Keys == t.Keys
    ensures forall k :: k in t && k != id ==> r[k] == t[k]
    ensures id in t ==> r[id] == t[id].(activo := false)
  {
    if id in t then t[id := t[id].(activo := false)] else t
  }

  /** A deactivated client leaves the listing but is still found by id. */
  lemma BajaOcultaPeroConserva(t: TablaClientes, id: int)
    requires id in t
    ensures id !in Activos(ConBaja(t, id))
    ensures forall k :: k != id ==> (k in Activos(ConBaja(t, id)) <==> k in Activos(t))
    ensures BuscarCliente(ConBaja(t, id), id) == Some(t[id].(activo := false))
  {
  }

  ghost predicate TablaValida(t: TablaClientes, siguienteId: int) {
    1 <= siguienteId && forall id :: id in t ==> 1 <= id < siguienteId && t[id].id == id
  }

  class ClienteRepository {
    var filas: TablaClientes
    var siguienteId: int

    ghost predicate Valid()
      reads this
    {
      TablaValida(filas, siguienteId)
    }

    constructor ()
      ensures Valid() && filas == map[] && siguienteId == 1
    {
      filas := map[];
      siguienteId := 1;
    }

    /** `crear`: stores `c` under a fresh id and writes the id back. */
    method Crear(c: Cliente) returns (d: Cliente)
      requires Valid()
      modifies this
      ensures Valid()
      ensures d == c.(id := old(siguienteId)) && d.id !in old(filas)
      ensures filas == old(filas)[d.id := d] && siguienteId == old(siguienteId) + 1
    {
      d := c.(id := siguienteId);
      filas := filas[d.id := d];
      siguienteId := siguienteId + 1;
    }

    function ObtenerPorId(id: int): (r: Option<Cliente>)
      reads this
      ensures r == None <==> id !in filas
      ensures r != None ==> r.value == filas[id]
    {
      BuscarCliente(filas, id)
    }

    /** `listar`: the active rows, each as stored. */
    function Listar(): (r: TablaClientes)
      reads this
      ensures forall id :: id in r <==> id in filas && filas[id].activo
      ensures forall id :: id in r ==> r[id] == filas[id]
    {
      Activos(filas)
    }

    method Actualizar(c: Cliente)
      requires Valid()
      modifies this
      ensures Valid() && siguienteId == old(siguienteId)
      ensures filas == ConDatos(old(filas), c)
    {
      filas := ConDatos(filas, c);
    }

    method Eliminar(id: int)
      requires Valid()
      modifies this
      ensures Valid() && siguienteId == old(siguienteId)
      ensures filas == ConBaja(old(filas), id)
    {
      filas := ConBaja(filas, id);
    }
  }
}
