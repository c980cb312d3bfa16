/** The sale processor (app/services/venta_service.py). */
module VentaServicio {
  import opened Comun
  import opened ProductoModelo
  import opened ProductoRepositorio
  import opened CajaRepositorio
  import opened VentaRepositorio

  /** One requested line: a product id and a quantity. */
  datatype Item = Item(productoId: int, cantidad: int)

  /** The exceptions `procesar_venta` raises. */
  datatype VentaError =
    | NoHayCajaAbierta
    | ProductoNoExiste(productoId: int)
    | StockInsuficiente(nombre: string, disponible: int)

  /** What the first loop keeps about a line for the writes that follow. */
  datatype InfoDetalle = InfoDetalle(producto: Producto, cantidad: int, subtotal: int)

  // ---------------------------------------------------------------------
  // Validation

  /** The check the validation loop makes on one line, against the table before any write. */
  function ErrorDeItem(t: TablaProductos, it: Item): (e: Option<VentaError>)
    ensures e == None <==> it.productoId in t && it.cantidad <= t[it.productoId].stock
    ensures it.productoId !in t ==> e == Some(ProductoNoExiste(it.productoId))
    ensures it.productoId in t && t[it.productoId].stock < it.cantidad ==>
              e == Some(StockInsuficiente(t[it.productoId].nombre, t[it.productoId].stock))
  {
    if it.productoId !in t then Some(ProductoNoExiste(it.productoId))
    else if t[it.productoId].stock < it.cantidad then
      Some(StockInsuficiente(t[it.productoId].nombre, t[it.productoId].stock))
    else None
  }

  /** The error the sale raises: that of the first failing line, or None when every line passes. */
  function PrimerError(t: TablaProductos, items: seq<Item>): (e: Option<VentaError>)
    ensures e == None <==> forall i :: 0 <= i < |items| ==> ErrorDeItem(t, items[i]) == None
    ensures e != None ==> exists i :: 0 <= i < |items| && e == ErrorDeItem(t, items[i])
                                      && forall j :: 0 <= j < i ==> ErrorDeItem(t, items[j]) == None
  {
    if items == [] then None
    else if ErrorDeItem(t, items[0]) != None then
      ErrorDeItem(t, items[0])
    else
      var e := PrimerError(t, items[1..]);
      assert e != None ==> exists i :: 1 <= i < |items| && e == ErrorDeItem(t, items[i])
                                       && forall j :: 0 <= j < i ==> ErrorDeItem(t, items[j]) == None by {
        if e != None {
          var i :| 0 <= i < |items[1..]| && e == ErrorDeItem(t, items[1..][i])
                   && forall j :: 0 <= j < i ==> ErrorDeItem(t, items[1..][j]) == None;
          assert forall j :: 0 <= j < i + 1 ==> ErrorDeItem(t, items[j]) == None by {
            forall j | 0 <= j < i + 1 ensures ErrorDeItem(t, items[j]) == None {
              if j > 0 { assert items[j] == items[1..][j - 1]; }
            }
          }
        }
      }
      e
  }

  /** Every line names a stored product. */
  predicate Existen(t: TablaProductos, items: seq<Item>) {
    forall i :: 0 <= i < |items| ==> items[i].productoId in t
  }

  /** A sale that passes validation only names stored products. */
  lemma ValidadosExisten(t: TablaProductos, items: seq<Item>)
    requires PrimerError(t, items) == None
    ensures Existen(t, items)
  {
  }

  /** The validation loop (lines 26-31): returns the error of the first failing line. */
  method ValidarItems(productos: ProductoRepository, items: seq<Item>) returns (e: Option<VentaError>)
    ensures e == PrimerError(productos.filas, items)
  {
    for i := 0 to |items|
      invariant forall j :: 0 <= j < i ==> ErrorDeItem(productos.filas, items[j]) == None
    {
      var producto := productos.ObtenerPorId(items[i].productoId);
      if producto == None {
        return Some(ProductoNoExiste(items[i].productoId));
      }
      if producto.value.stock < items[i].cantidad {
        return Some(StockInsuficiente(producto.value.nombre, producto.value.stock));
      }
    }
    return None;
  }

  // ---------------------------------------------------------------------
  // Pricing

  /** What the pricing loop records for one line: the product as read, the quantity and the subtotal. */
  function InfoDe(t: TablaProductos, it: Item): (info: InfoDetalle)
    requires it.productoId in t
    ensures info.producto == t[it.productoId] && info.cantidad == it.cantidad
    ensures info.subtotal == info.producto.precio * info.cantidad
  {
    InfoDetalle(t[it.productoId], it.cantidad, t[it.productoId].precio * it.cantidad)
  }

  /** The order total: the sum of price times quantity over the lines. */
  function Total(t: TablaProductos, items: seq<Item>): int
    requires Existen(t, items)
  {
    if items == [] then 0
    else Total(t, items[..|items| - 1]) + InfoDe(t, items[|items| - 1]).subtotal
  }

  /** The pricing loop (lines 34-44): the total and the per-line information. */
  method CalcularTotal(productos: ProductoRepository, items: seq<Item>)
    returns (total: int, info: seq<InfoDetalle>)
    requires Existen(productos.filas, items)
    ensures total == Total(productos.filas, items)
    ensures |info| == |items|
    ensures forall i :: 0 <= i < |items| ==> info[i] == InfoDe(productos.filas, items[i])
  {
    total, info := 0, [];
    for i := 0 to |items|
      invariant total == Total(productos.filas, items[..i])
      invariant |info| == i
      invariant forall j :: 0 <= j < i ==> info[j] == InfoDe(productos.filas, items[j])
    {
      assert items[..i + 1][..i] == items[..i];
      var producto := productos.ObtenerPorId(items[i].productoId);
      var subtotal := producto.value.precio * items[i].cantidad;
      total := total + subtotal;
      info := info + [InfoDetalle(producto.value, items[i].cantidad, subtotal)];
    }
    assert items[..|items|] == items;
  }

  // ---------------------------------------------------------------------
  // Writing the lines and debiting stock

  /** The detail row written for one line of sale `idVenta`, under id `idDetalle`. */
  function LineaDe(info: InfoDetalle, idVenta: int, idDetalle: int): (d: DetalleVenta)
    ensures d.id == idDetalle && d.fkVenta == idVenta && d.fkProducto == info.producto.id
    ensures d.cantidad == info.cantidad && d.precioUnitario == info.producto.precio
    ensures d.subtotal == info.subtotal
  {
    DetalleVenta(idDetalle, idVenta, info.producto.id, info.cantidad, info.producto.precio, info.subtotal)
  }

  /** The detail rows of a sale, the i-th line under id `primerId + i`. */
  function Lineas(t: TablaProductos, items: seq<Item>, idVenta: int, primerId: int): (ls: seq<DetalleVenta>)
    requires Existen(t, items)
    ensures |ls| == |items|
  {
    seq(|items|, i requires 0 <= i < |items| => LineaDe(InfoDe(t, items[i]), idVenta, primerId + i))
  }

  /** The sum of the subtotals of some detail rows. */
  function SumaSubtotales(ls: seq<DetalleVenta>): int {
    if ls == [] then 0 else SumaSubtotales(ls[..|ls| - 1]) + ls[|ls| - 1].subtotal
  }

  /** The (product id, quantity) pairs the write loop debits. */
  function ItemsDe(info: seq<InfoDetalle>): (items: seq<Item>)
    ensures |items| == |info|
    ensures forall i :: 0 <= i < |info| ==> items[i] == Item(info[i].producto.id, info[i].cantidad)
  {
    seq(|info|, i requires 0 <= i < |info| => Item(info[i].producto.id, info[i].cantidad))
  }

  /** The product table after each line's delta debit, in line order. */
  function Debitar(t: TablaProductos, items: seq<Item>): TablaProductos {
    if items == [] then t
    else
      var ultimo := items[|items| - 1];
      ConStock(Debitar(t, items[..|items| - 1]), ultimo.productoId, -ultimo.cantidad)
  }

  /** The quantity all lines of `items` request of product `id`. */
  function CantidadDe(items: seq<Item>, id: int): int {
    if items == [] then 0
    else
      var ultimo := items[|items| - 1];
      CantidadDe(items[..|items| - 1], id) + (if ultimo.productoId == id then ultimo.cantidad else 0)
  }

  /** Debiting one more line applies that line's delta to the table debited so far. */
  lemma DebitarUnaLinea(t: TablaProductos, info: seq<InfoDetalle>, i: int)
    requires 0 <= i < |info|
    ensures Debitar(t, ItemsDe(info)[..i + 1])
            == ConStock(Debitar(t, ItemsDe(info)[..i]), info[i].producto.id, -info[i].cantidad)
  {
    var items := ItemsDe(info);
    assert items[..i + 1][..i] == items[..i];
  }

  /**
   * `d` is `d0` with the rows `ls` appended, row `i` under id `primerId + i`:
   * no earlier row changed, and no other row added.
   */
  ghost predicate Anexadas(d0: TablaDetalles, d: TablaDetalles, ls: seq<DetalleVenta>, primerId: int) {
    && SoloAgrega(d0, d)
    && (forall k :: primerId <= k < primerId + |ls| ==> k in d && d[k] == ls[k - primerId])
    && (forall k :: k in d ==> k in d0 || primerId <= k < primerId + |ls|)
  }

  /**
   * After `n` lines the detail table is the old one plus line `i` under id
   * `primerId + i` for every `i < n`, and nothing else.
   */
  ghost predicate DetallesEscritos(d0: TablaDetalles, d: TablaDetalles, info: seq<InfoDetalle>, idVenta: int,
                                   primerId: int, n: int)
    requires 0 <= n <= |info|
  {
    && SoloAgrega(d0, d)
    && (forall k :: primerId <= k < primerId + n ==> k in d && d[k] == LineaDe(info[k - primerId], idVenta, k))
    && (forall k :: k in d ==> k in d0 || primerId <= k < primerId + n)
  }

  /** Storing line `n` under the next fresh id extends the written lines by one. */
  lemma DetallesEscritosPaso(d0: TablaDetalles, d: TablaDetalles, info: seq<InfoDetalle>, idVenta: int,
                             primerId: int, n: int)
    requires 0 <= n < |info| && DetallesEscritos(d0, d, info, idVenta, primerId, n)
    requires DetallesValidos(d, primerId + n)
    ensures DetallesEscritos(d0, d[primerId + n := LineaDe(info[n], idVenta, primerId + n)], info, idVenta, primerId, n + 1)
  {
  }

  /** One pass of the write loop: the line's detail row, then its delta debit. */
  method RegistrarLinea(productos: ProductoRepository, ventas: VentaRepository, l: InfoDetalle, idVenta: int)
    requires productos.Valid() && ventas.Valid()
    modifies productos, ventas
    ensures productos.Valid() && ventas.Valid()
    ensures productos.filas == ConStock(old(productos.filas), l.producto.id, -l.cantidad)
    ensures productos.siguienteId == old(productos.siguienteId)
    ensures ventas.ventas == old(ventas.ventas) && ventas.siguienteVenta == old(ventas.siguienteVenta)
    ensures ventas.siguienteDetalle == old(ventas.siguienteDetalle) + 1
    ensures ventas.detalles == old(ventas.detalles)[old(ventas.siguienteDetalle) :=
                                 LineaDe(l, idVenta, old(ventas.siguienteDetalle))]
  {
    var detalle := DetalleVenta(0, idVenta, l.producto.id, l.cantidad, l.producto.precio, l.subtotal);
    var guardado := ventas.CrearDetalle(detalle);
    productos.ActualizarStock(l.producto.id, -l.cantidad);
  }

  /** The write loop (lines 57-68): one detail row and one delta debit per line. */
  method RegistrarDetalles(productos: ProductoRepository, ventas: VentaRepository,
                           info: seq<InfoDetalle>, idVenta: int)
    requires productos.Valid() && ventas.Valid()
    modifies productos, ventas
    ensures productos.Valid() && ventas.Valid()
    ensures productos.filas == Debitar(old(productos.filas), ItemsDe(info))
    ensures productos.siguienteId == old(productos.siguienteId)
    ensures ventas.ventas == old(ventas.ventas) && ventas.siguienteVenta == old(ventas.siguienteVenta)
    ensures ventas.siguienteDetalle == old(ventas.siguienteDetalle) + |info|
    ensures DetallesEscritos(old(ventas.detalles), ventas.detalles, info, idVenta, old(ventas.siguienteDetalle), |info|)
  {
    ghost var filas0 := productos.filas;
    ghost var detalles0 := ventas.detalles;
    ghost var primerId := ventas.siguienteDetalle;
    for i := 0 to |info|
      invariant productos.Valid() && ventas.Valid()
      invariant productos.filas == Debitar(filas0, ItemsDe(info)[..i])
      invariant productos.siguienteId == old(productos.siguienteId)
      invariant ventas.ventas == old(ventas.ventas) && ventas.siguienteVenta == old(ventas.siguienteVenta)
      invariant ventas.siguienteDetalle == primerId + i
      invariant DetallesEscritos(detalles0, ventas.detalles, info, idVenta, primerId, i)
    {
      DetallesEscritosPaso(detalles0, ventas.detalles, info, idVenta, primerId, i);
      DebitarUnaLinea(filas0, info, i);
      RegistrarLinea(productos, ventas, info[i], idVenta);
    }
    assert ItemsDe(info)[..|info|] == ItemsDe(info);
  }

  // ---------------------------------------------------------------------
  // The whole sale

  /**
   * `procesar_venta`: with an open till and every line valid, appends one
   * header and one detail row per line and debits each line's quantity;
   * otherwise raises the first error and writes nothing.
   */
  method ProcesarVenta(productos: ProductoRepository, cajas: CajaRepository, ventas: VentaRepository,
                       items: seq<Item>, fkCliente: Option<int>, fkUsuario: int, ahora: int)
    returns (r: Result<Venta, VentaError>)
    requires productos.Valid() && cajas.Valid() && ventas.Valid()
    modifies productos, ventas
    ensures productos.Valid() && ventas.Valid()
    ensures SinCajaAbierta(cajas.filas) ==> r == Err(NoHayCajaAbierta)
    ensures !SinCajaAbierta(cajas.filas) && PrimerError(old(productos.filas), items) != None ==>
              r == Err(PrimerError(old(productos.filas), items).value)
    ensures r.Ok? <==> !SinCajaAbierta(cajas.filas) && PrimerError(old(productos.filas), items) == None
    ensures r.Err? ==> productos.filas == old(productos.filas) && ventas.ventas == old(ventas.ventas)
                       && ventas.detalles == old(ventas.detalles)
    ensures r.Ok? ==> Existen(old(productos.filas), items)
    ensures r.Ok? ==>
              && r.value.id == old(ventas.siguienteVenta) && r.value.id !in old(ventas.ventas)
              && r.value.fecha == ahora && r.value.total == Total(old(productos.filas), items)
              && r.value.fkCliente == fkCliente && r.value.fkUsuario == fkUsuario
              && r.value.fkCaja in cajas.filas && EsAbiertaMasReciente(cajas.filas, cajas.filas[r.value.fkCaja])
              && ventas.ventas == old(ventas.ventas)[r.value.id := r.value]
    ensures r.Ok? ==>
              && ventas.siguienteDetalle == old(ventas.siguienteDetalle) + |items|
              && Anexadas(old(ventas.detalles), ventas.detalles,
                          Lineas(old(productos.filas), items, r.value.id, old(ventas.siguienteDetalle)),
                          old(ventas.siguienteDetalle))
    ensures r.Ok? ==> productos.filas == Debitar(old(productos.filas), items)
  {
    var caja := cajas.ObtenerCajaAbierta();
    if caja == None {
      return Err(NoHayCajaAbierta);
    }
    var error := ValidarItems(productos, items);
    if error != None {
      return Err(error.value);
    }
    ValidadosExisten(productos.filas, items);
    var total, info := CalcularTotal(productos, items);
    var venta := ventas.Crear(Venta(0, ahora, total, fkCliente, fkUsuario, caja.value.id));
    ghost var filas0 := productos.filas;
    ghost var detalles0 := ventas.detalles;
    ghost var primerId := ventas.siguienteDetalle;
    RegistrarDetalles(productos, ventas, info, venta.id);
    DetallesSonLineas(filas0, items, info, venta.id, primerId, detalles0, ventas.detalles);
    return Ok(venta);
  }

  /** The rows the write loop stores from the priced lines are the lines `Lineas` describes. */
  lemma DetallesSonLineas(t: TablaProductos, items: seq<Item>, info: seq<InfoDetalle>, idVenta: int,
                          primerId: int, d0: TablaDetalles, detalles: TablaDetalles)
    requires Existen(t, items) && forall id :: id in t ==> t[id].id == id
    requires |info| == |items| && forall i :: 0 <= i < |items| ==> info[i] == InfoDe(t, items[i])
    requires DetallesEscritos(d0, detalles, info, idVenta, primerId, |info|)
    ensures ItemsDe(info) == items
    ensures Anexadas(d0, detalles, Lineas(t, items, idVenta, primerId), primerId)
  {
    assert forall i :: 0 <= i < |items| ==> ItemsDe(info)[i] == items[i];
  }

  /** `obtener_venta_completa`: the header and all of its detail rows, or None for an unknown id. */
  function ObtenerVentaCompleta(ventas: VentaRepository, idVenta: int): (r: Option<(Venta, TablaDetalles)>)
    reads ventas
    ensures r == None <==> idVenta !in ventas.ventas
    ensures r != None ==> r.value.0 == ventas.ventas[idVenta]
    ensures r != None ==> forall k :: k in r.value.1 <==> k in ventas.detalles && ventas.detalles[k].fkVenta == idVenta
    ensures r != None ==> forall k :: k in r.value.1 ==> r.value.1[k] == ventas.detalles[k]
  {
    match ventas.ObtenerPorId(idVenta)
    case None => None
    case Some(v) => Some((v, ventas.ObtenerDetalles(idVenta)))
  }

  /** `listar_ventas`: every sale once, latest first. */
  method ListarVentas(ventas: VentaRepository) returns (r: seq<Venta>)
    requires ventas.Valid()
    ensures Orden.Descendente(r, Fecha)
    ensures forall k :: k in ventas.ventas ==> multiset(r)[ventas.ventas[k]] == 1
    ensures forall v :: v in r ==> v.id in ventas.ventas && ventas.ventas[v.id] == v
  {
    r := ventas.Listar();
  }

  // ---------------------------------------------------------------------
  // Properties of the sale

  /** The header total is the sum of the subtotals written on the detail rows. */
  lemma {:induction false} TotalEsSumaDeSubtotales(t: TablaProductos, items: seq<Item>, idVenta: int, primerId: int)
    requires Existen(t, items)
    ensures SumaSubtotales(Lineas(t, items, idVenta, primerId)) == Total(t, items)
  {
    if items != [] {
      var n := |items|;
      var ls := Lineas(t, items, idVenta, primerId);
      assert Existen(t, items[..n - 1]);
      assert Lineas(t, items[..n - 1], idVenta, primerId) == ls[..n - 1];
      TotalEsSumaDeSubtotales(t, items[..n - 1], idVenta, primerId);
    }
  }

  /**
   * The debits of a sale: every product keeps its row, its stock drops by
   * the total quantity the lines request of it, and nothing else changes.
   */
  lemma {:induction false} DebitarEfecto(t: TablaProductos, items: seq<Item>)
    ensures Debitar(t, items).Keys == t.Keys
    ensures forall id :: id in t ==>
              Debitar(t, items)[id] == t[id].(stock := t[id].stock - CantidadDe(items, id))
  {
    if items != [] {
      DebitarEfecto(t, items[..|items| - 1]);
    }
  }

  /** No two lines name the same product. */
  predicate SinRepetidos(items: seq<Item>) {
    forall i, j :: 0 <= i < j < |items| ==> items[i].productoId != items[j].productoId
  }

  /** Without repeated products, a product's requested quantity is that of its one line. */
  lemma {:induction false} CantidadDeUnica(items: seq<Item>, i: int)
    requires SinRepetidos(items) && 0 <= i < |items|
    ensures CantidadDe(items, items[i].productoId) == items[i].cantidad
  {
    var n := |items|;
    var id := items[i].productoId;
    var pre := items[..n - 1];
    if i == n - 1 {
      CantidadDeAusente(pre, id);
    } else {
      assert pre[i] == items[i];
      CantidadDeUnica(pre, i);
    }
  }

  /** A product no line names is requested in quantity zero. */
  lemma {:induction false} CantidadDeAusente(items: seq<Item>, id: int)
    requires forall i :: 0 <= i < |items| ==> items[i].productoId != id
    ensures CantidadDe(items, id) == 0
  {
    if items != [] {
      CantidadDeAusente(items[..|items| - 1], id);
    }
  }

  /**
   * When no product appears on two lines, validation is enough: every
   * product sold is left with a stock of zero or more.
   */
  lemma SinRepetidosNoSobregira(t: TablaProductos, items: seq<Item>)
    requires SinRepetidos(items) && PrimerError(t, items) == None
    ensures forall i :: 0 <= i < |items| ==>
              items[i].productoId in Debitar(t, items) && Debitar(t, items)[items[i].productoId].stock >= 0
  {
    DebitarEfecto(t, items);
    forall i | 0 <= i < |items|
      ensures Debitar(t, items)[items[i].productoId].stock >= 0
    {
      CantidadDeUnica(items, i);
      assert ErrorDeItem(t, items[i]) == None;
    }
  }

  /**
   * Each line is checked against the stock before the sale, not against what
   * earlier lines already took: two lines of 2 units pass on a stock of 3
   * and leave it at -1.
   */
  lemma LineaRepetidaSobregira(p: Producto)
    ensures var t := map[1 := p.(id := 1, stock := 3)];
            var items := [Item(1, 2), Item(1, 2)];
            PrimerError(t, items) == None && 1 in Debitar(t, items) && Debitar(t, items)[1].stock == -1
  {
    var t := map[1 := p.(id := 1, stock := 3)];
    var items := [Item(1, 2), Item(1, 2)];
    assert items[..1] == [Item(1, 2)];
    assert items[..1][..0] == [];
    assert Debitar(t, items[..1]) == ConStock(t, 1, -2);
  }

  /** Quantities are not checked for sign: a line of -5 passes and adds 5 units. */
  lemma CantidadNegativaRepone(p: Producto)
    ensures var t := map[1 := p.(id := 1, stock := 3)];
            var items := [Item(1, -5)];
            PrimerError(t, items) == None && 1 in Debitar(t, items) && Debitar(t, items)[1].stock == 8
  {
    var items := [Item(1, -5)];
    assert items[..0] == [];
  }

  /** Validation does not look at `activo`: a deleted product is still sold. */
  lemma ProductoInactivoSeVende(t: TablaProductos, it: Item)
    requires it.productoId in t && !t[it.productoId].activo && it.cantidad <= t[it.productoId].stock
    ensures PrimerError(t, [it]) == None
  {
  }

  /** A sale with no lines passes, totals 0 and touches no stock. */
  lemma VentaVacia(t: TablaProductos)
    ensures PrimerError(t, []) == None && Total(t, []) == 0 && Debitar(t, []) == t
  {
  }

  /** Two units at 50 and three at 75 total 325. */
  lemma EjemploTotal(a: Producto, b: Producto)
    ensures var t := map[1 := a.(id := 1, precio := 50), 2 := b.(id := 2, precio := 75)];
            var items := [Item(1, 2), Item(2, 3)];
            Existen(t, items) && Total(t, items) == 325
  {
    var t := map[1 := a.(id := 1, precio := 50), 2 := b.(id := 2, precio := 75)];
    var items := [Item(1, 2), Item(2, 3)];
    assert items[..1] == [Item(1, 2)];
    assert items[..1][..0] == [];
    assert Total(t, items[..1]) == 100;
  }
}
