/** The producto table (app/repositories/producto_repository.py). */
module ProductoRepositorio {
  import opened Comun
  import opened ProductoModelo

  /** The producto table, keyed by row id. */
  type TablaProductos = map<int, Producto>

  /** `listar`: the rows with activo = 1. */
  function Activos(t: TablaProductos): (r: TablaProductos)
    ensures forall id :: id in r <==> id in t && t[id].activo
    ensures forall id :: id in r ==> r[id] == t[id]
  {
    map id | id in t && t[id].activo :: t[id]
  }

  /** `obtener_por_id`: the row whether or not it is active; None when absent. */
  function BuscarProducto(t: TablaProductos, id: int): (r: Option<Producto>)
    ensures r == None <==> id !in t
    ensures r != None ==> r.value == t[id]
  {
    if id in t then Some(t[id]) else None
  }

  /**
   * `obtener_productos_bajo_stock`, which the repository file does not define:
   * the active rows whose stock is at or below their minimum.
   */
  function BajoStock(t: TablaProductos): (r: TablaProductos)
    ensures forall id :: id in r <==> id in t && t[id].activo && AlertaStock(t[id])
    ensures forall id :: id in r ==> r[id] == t[id]
  {
    map id | id in t && t[id].activo && t[id].stock <= t[id].stockMinimo :: t[id]
  }

  /**
   * `actualizar`: row `p.id` takes every column of `p` except its id and its
   * activo flag; an absent id changes nothing.
   */
  function ConDatos(t: TablaProductos, p: Producto): (r: TablaProductos)
    ensures r.Keys == t.Keys
    ensures forall id :: id in t && id != p.id ==> r[id] == t[id]
    ensures p.id in t ==> r[p.id] == p.(id := t[p.id].id, activo := t[p.id].activo)
  {
    if p.id in t then
      t[p.id := t[p.id].(nombre := p.nombre, precio := p.precio, stock := p.stock,
                         stockMinimo := p.stockMinimo, fkProveedor := p.fkProveedor,
                         codigoBarras := p.codigoBarras)]
    else t
  }

  /**
   * `actualizar_stock` in the delta form its callers and its test rely on:
   * the stock of row `id` moves by `delta`; an absent id changes nothing.
   */
  function ConStock(t: TablaProductos, id: int, delta: int): (r: TablaProductos)
    ensures r.Keys == t.Keys
    ensures forall k :: k in t && k != id ==> r[k] == t[k]
    ensures id in t ==> r[id] == t[id].(stock := t[id].stock + delta) && r[id].stock - t[id].stock == delta
  {
    if id in t then t[id := t[id].(stock := t[id].stock + delta)] else t
  }

  /** `actualizar_stock` as the repository writes it: the argument becomes the stock. */
  function ConStockAbsoluto(t: TablaProductos, id: int, nuevoStock: int): (r: TablaProductos)
    ensures r.Keys == t.Keys
    ensures forall k :: k in t && k != id ==> r[k] == t[k]
    ensures id in t ==> r[id] == t[id].(stock := nuevoStock)
  {
    if id in t then t[id := t[id].(stock := nuevoStock)] else t
  }

  /** `eliminar`: soft delete, only activo becomes false. */
  function ConBaja(t: TablaProductos, id: int): (r: TablaProductos)
    ensures r.Keys == t.Keys
    ensures forall k :: k in t && k != id ==> r[k] == t[k]
    ensures id in t ==> r[id] == t[id].(activo := false)
  {
    if id in t then t[id := t[id].(activo := false)] else t
  }

  /** A deleted product leaves the listing but is still found by id. */
  lemma BajaOcultaPeroConserva(t: TablaProductos, id: int)
    requires id in t
    ensures id !in Activos(ConBaja(t, id))
    ensures Activos(ConBaja(t, id)) == Activos(t) - {id}
    ensures BuscarProducto(ConBaja(t, id), id) == Some(t[id].(activo := false))
  {
    assert Activos(ConBaja(t, id)).Keys == (Activos(t) - {id}).Keys;
  }

  /**
   * The absolute form breaks the debit its callers expect: selling `c` units
   * of a product whose stock is not zero does not leave `stock - c`.
   */
  lemma StockAbsolutoNoDebita(t: TablaProductos, id: int, c: int)
    requires id in t && t[id].stock != 0
    ensures ConStockAbsoluto(t, id, -c)[id].stock != t[id].stock - c
    ensures ConStock(t, id, -c)[id].stock == t[id].stock - c
  {
  }

  /** The same on numbers: stock 10, a sale of 2 leaves -2 instead of 8, a restock of 5 leaves 5 instead of 15. */
  lemma StockAbsolutoEjemplo(p: Producto)
    ensures var t := map[1 := p.(id := 1, stock := 10)];
            ConStockAbsoluto(t, 1, -2)[1].stock == -2 && ConStock(t, 1, -2)[1].stock == 8 &&
            ConStockAbsoluto(t, 1, 5)[1].stock == 5 && ConStock(t, 1, 5)[1].stock == 15
  {
  }

  /** A row table whose keys are fresh below `siguienteId` and match each row's id. */
  ghost predicate TablaValida(t: TablaProductos, siguienteId: int) {
    1 <= siguienteId && forall id :: id in t ==> 1 <= id < siguienteId && t[id].id == id
  }

  class ProductoRepository {
    var filas: TablaProductos
    var siguienteId: int

    ghost predicate Valid()
      reads this
    {
      TablaValida(filas, siguienteId)
    }

    constructor ()
      ensures Valid() && filas == map[] && siguienteId == 1
    {
      filas := map[];
      siguienteId := 1;
    }

    /** `crear`: stores `p` under a fresh id and returns it with that id. */
    method Crear(p: Producto) returns (q: Producto)
      requires Valid()
      modifies this
      ensures Valid()
      ensures q == p.(id := old(siguienteId)) && q.id !in old(filas)
      ensures filas == old(filas)[q.id := q] && siguienteId == old(siguienteId) + 1
    {
      q := p.(id := siguienteId);
      filas := filas[q.id := q];
      siguienteId := siguienteId + 1;
    }

    /** `listar`: the active rows, each as stored. */
    function Listar(): (r: TablaProductos)
      reads this
      ensures forall id :: id in r <==> id in filas && filas[id].activo
      ensures forall id :: id in r ==> r[id] == filas[id]
    {
      Activos(filas)
    }

    function ObtenerPorId(id: int): (r: Option<Producto>)
      reads this
      ensures r == None <==> id !in filas
      ensures r != None ==> r.value == filas[id]
    {
      BuscarProducto(filas, id)
    }

    /** `obtener_productos_bajo_stock`: the active rows at or below their minimum. */
    function ObtenerProductosBajoStock(): (r: TablaProductos)
      reads this
      ensures forall id :: id in r <==> id in filas && filas[id].activo && filas[id].stock <= filas[id].stockMinimo
      ensures forall id :: id in r ==> r[id] == filas[id]
    {
      BajoStock(filas)
    }

    method Actualizar(p: Producto)
      requires Valid()
      modifies this
      ensures Valid() && siguienteId == old(siguienteId)
      ensures filas == ConDatos(old(filas), p)
    {
      filas := ConDatos(filas, p);
    }

    /** `actualizar_stock(id, delta)`, delta form. */
    method ActualizarStock(id: int, delta: int)
      requires Valid()
      modifies this
      ensures Valid() && siguienteId == old(siguienteId)
      ensures filas == ConStock(old(filas), id, delta)
    {
      filas := ConStock(filas, id, delta);
    }

    method Eliminar(id: int)
      requires Valid()
      modifies this
      ensures Valid() && siguienteId == old(siguienteId)
      ensures filas == ConBaja(old(filas), id)
      ensures id !in Listar()
      ensures id in old(filas) ==> ObtenerPorId(id) == Some(old(filas)[id].(activo := false))
    {
      filas := ConBaja(filas, id);
    }
  }
}
