/**
 * The append-only sale ledger: the venta and detalle_venta tables
 * (app/repositories/venta_repository.py, record shapes from app/models/venta.py).
 */
module VentaRepositorio {
  import opened Comun
  import opened Orden

  /** A sale header; money in integer cents, the date as a clock reading. */
  datatype Venta = Venta(
    id: int,
    fecha: int,
    total: int,
    fkCliente: Option<int>,
    fkUsuario: int,
    fkCaja: int)

  /** One line of a sale, with the unit price captured when it was sold. */
  datatype DetalleVenta = DetalleVenta(
    id: int,
    fkVenta: int,
    fkProducto: int,
    cantidad: int,
    precioUnitario: int,
    subtotal: int)

  type TablaVentas = map<int, Venta>
  type TablaDetalles = map<int, DetalleVenta>

  /** The ordering key of `listar`. */
  function Fecha(v: Venta): int {
    v.fecha
  }

  /** `obtener_por_id`: None for an absent id. */
  function BuscarVenta(t: TablaVentas, id: int): (r: Option<Venta>)
    ensures r == None <==> id !in t
    ensures r != None ==> r.value == t[id]
  {
    if id in t then Some(t[id]) else None
  }

  /** `obtener_detalles`: exactly the lines whose fk_venta is `idVenta`. */
  function DetallesDe(t: TablaDetalles, idVenta: int): (r: TablaDetalles)
    ensures forall k :: k in r <==> k in t && t[k].fkVenta == idVenta
    ensures forall k :: k in r ==> r[k] == t[k]
  {
    map k | k in t && t[k].fkVenta == idVenta :: t[k]
  }

  /** `t2` keeps every row of `t` unchanged: nothing was updated or deleted. */
  ghost predicate SoloAgrega<K, V>(t: map<K, V>, t2: map<K, V>) {
    forall k :: k in t ==> k in t2 && t2[k] == t[k]
  }

  /** Appending never loses or changes a row, so the ledger only grows. */
  lemma SoloAgregaTransitivo<K, V>(t1: map<K, V>, t2: map<K, V>, t3: map<K, V>)
    requires SoloAgrega(t1, t2) && SoloAgrega(t2, t3)
    ensures SoloAgrega(t1, t3)
  {
  }

  /** A table whose keys are fresh below `siguienteId` and match each row's id. */
  ghost predicate VentasValidas(t: TablaVentas, siguienteId: int) {
    1 <= siguienteId && forall id :: id in t ==> 1 <= id < siguienteId && t[id].id == id
  }

  ghost predicate DetallesValidos(t: TablaDetalles, siguienteId: int) {
    1 <= siguienteId && forall id :: id in t ==> 1 <= id < siguienteId && t[id].id == id
  }

  class VentaRepository {
    var ventas: TablaVentas
    var siguienteVenta: int
    var detalles: TablaDetalles
    var siguienteDetalle: int

    ghost predicate Valid()
      reads this
    {
      VentasValidas(ventas, siguienteVenta) && DetallesValidos(detalles, siguienteDetalle)
    }

    constructor ()
      ensures Valid() && ventas == map[] && detalles == map[]
      ensures siguienteVenta == 1 && siguienteDetalle == 1
    {
      ventas, siguienteVenta := map[], 1;
      detalles, siguienteDetalle := map[], 1;
    }

    /** `crear`: appends the header under a fresh id; existing sales stay as they were. */
    method Crear(v: Venta) returns (w: Venta)
      requires Valid()
      modifies this
      ensures Valid()
      ensures w == v.(id := old(siguienteVenta)) && w.id !in old(ventas)
      ensures ventas == old(ventas)[w.id := w] && siguienteVenta == old(siguienteVenta) + 1
      ensures SoloAgrega(old(ventas), ventas)
      ensures detalles == old(detalles) && siguienteDetalle == old(siguienteDetalle)
    {
      w := v.(id := siguienteVenta);
      ventas := ventas[w.id := w];
      siguienteVenta := siguienteVenta + 1;
    }

    /** `crear_detalle`: appends one line under a fresh id. */
    method CrearDetalle(d: DetalleVenta) returns (e: DetalleVenta)
      requires Valid()
      modifies this
      ensures Valid()
      ensures e == d.(id := old(siguienteDetalle)) && e.id !in old(detalles)
      ensures detalles == old(detalles)[e.id := e] && siguienteDetalle == old(siguienteDetalle) + 1
      ensures SoloAgrega(old(detalles), detalles)
      ensures ventas == old(ventas) && siguienteVenta == old(siguienteVenta)
    {
      e := d.(id := siguienteDetalle);
      detalles := detalles[e.id := e];
      siguienteDetalle := siguienteDetalle + 1;
    }

    function ObtenerPorId(id: int): (r: Option<Venta>)
      reads this
      ensures r == None <==> id !in ventas
      ensures r != None ==> r.value == ventas[id]
    {
      BuscarVenta(ventas, id)
    }

    /** `obtener_detalles`: the detail rows of sale `idVenta`. */
    function ObtenerDetalles(idVenta: int): (r: TablaDetalles)
      reads this
      ensures forall k :: k in r <==> k in detalles && detalles[k].fkVenta == idVenta
      ensures forall k :: k in r ==> r[k] == detalles[k]
    {
      DetallesDe(detalles, idVenta)
    }

    /** `listar`: every sale exactly once, latest date first. */
    method Listar() returns (r: seq<Venta>)
      requires Valid()
      ensures Descendente(r, Fecha)
      ensures forall k :: k in ventas ==> multiset(r)[ventas[k]] == 1
      ensures forall v :: v in r ==> v.id in ventas && ventas[v.id] == v
    {
      r := [];
      for id := 1 to siguienteVenta
        invariant Descendente(r, Fecha)
        invariant forall k :: k in ventas && k < id ==> multiset(r)[ventas[k]] == 1
        invariant forall v :: v in multiset(r) ==> v.id in ventas && v.id < id && ventas[v.id] == v
      {
        if id in ventas {
          r := InsertarDescendente(r, ventas[id], Fecha);
        }
      }
    }
  }
}
