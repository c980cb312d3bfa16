/** Stock management on top of the producto table (app/services/inventario_service.py). */
module InventarioServicio {
  import opened Comun
  import opened ProductoModelo
  import opened ProductoRepositorio

  /** The exceptions the inventory service raises. */
  datatype InventarioError = PrecioNegativo | StockNegativo | ProductoNoEncontrado | CantidadNoPositiva

  /**
   * `agregar_producto`: a negative price is refused first, then a negative
   * stock; otherwise the product is stored with the constructor's defaults.
   */
  method AgregarProducto(productos: ProductoRepository, nombre: string, precio: int, stock: int,
                         stockMinimo: int, fkProveedor: Option<int>)
    returns (r: Result<Producto, InventarioError>)
    requires productos.Valid()
    modifies productos
    ensures productos.Valid()
    ensures precio < 0 ==> r == Err(PrecioNegativo)
    ensures precio >= 0 && stock < 0 ==> r == Err(StockNegativo)
    ensures r.Ok? <==> precio >= 0 && stock >= 0
    ensures r.Err? ==> productos.filas == old(productos.filas) && productos.siguienteId == old(productos.siguienteId)
    ensures r.Ok? ==> r.value == NuevoProducto(nombre, precio, stock, stockMinimo, fkProveedor).(id := old(productos.siguienteId))
                      && productos.filas == old(productos.filas)[r.value.id := r.value]
  {
    if precio < 0 {
      return Err(PrecioNegativo);
    }
    if stock < 0 {
      return Err(StockNegativo);
    }
    var p := productos.Crear(NuevoProducto(nombre, precio, stock, stockMinimo, fkProveedor));
    return Ok(p);
  }

  /**
   * `actualizar_producto`: name, price and minimum change; stock, supplier,
   * barcode and the activo flag keep their stored values. No value is checked.
   */
  method ActualizarProducto(productos: ProductoRepository, id: int, nombre: string, precio: int, stockMinimo: int)
    returns (r: Result<Producto, InventarioError>)
    requires productos.Valid()
    modifies productos
    ensures productos.Valid() && productos.siguienteId == old(productos.siguienteId)
    ensures r.Err? <==> id !in old(productos.filas)
    ensures r.Err? ==> r.error == ProductoNoEncontrado && productos.filas == old(productos.filas)
    ensures r.Ok? ==> r.value == old(productos.filas)[id].(nombre := nombre, precio := precio, stockMinimo := stockMinimo)
                      && productos.filas == old(productos.filas)[id := r.value]
  {
    var encontrado := productos.ObtenerPorId(id);
    if encontrado == None {
      return Err(ProductoNoEncontrado);
    }
    var p := encontrado.value.(nombre := nombre, precio := precio, stockMinimo := stockMinimo);
    productos.Actualizar(p);
    return Ok(p);
  }

  /**
   * `agregar_stock`: an unknown product is refused before the quantity is
   * looked at; a quantity of zero or less is refused; otherwise the stock
   * grows by the quantity and the re-read row is returned.
   */
  method AgregarStock(productos: ProductoRepository, id: int, cantidad: int)
    returns (r: Result<Producto, InventarioError>)
    requires productos.Valid()
    modifies productos
    ensures productos.Valid() && productos.siguienteId == old(productos.siguienteId)
    ensures id !in old(productos.filas) ==> r == Err(ProductoNoEncontrado)
    ensures id in old(productos.filas) && cantidad <= 0 ==> r == Err(CantidadNoPositiva)
    ensures r.Ok? <==> id in old(productos.filas) && cantidad > 0
    ensures r.Err? ==> productos.filas == old(productos.filas)
    ensures r.Ok? ==> r.value == old(productos.filas)[id].(stock := old(productos.filas)[id].stock + cantidad)
                      && productos.filas == old(productos.filas)[id := r.value]
  {
    var encontrado := productos.ObtenerPorId(id);
    if encontrado == None {
      return Err(ProductoNoEncontrado);
    }
    if cantidad <= 0 {
      return Err(CantidadNoPositiva);
    }
    productos.ActualizarStock(id, cantidad);
    var actualizado := productos.ObtenerPorId(id);
    return Ok(actualizado.value);
  }

  /** The dictionaries of the rows of `t`, keyed like the rows. */
  function Diccionarios(t: TablaProductos): (r: map<int, ProductoDict>)
    ensures r.Keys == t.Keys
    ensures forall id :: id in t ==> r[id] == ToDict(t[id])
  {
    map id | id in t :: ToDict(t[id])
  }

  /** `obtener_alertas_stock`: the active products at or below their minimum, as dictionaries. */
  function ObtenerAlertasStock(productos: ProductoRepository): (r: map<int, ProductoDict>)
    reads productos
    ensures forall id :: id in r <==> id in productos.filas && productos.filas[id].activo
                                      && productos.filas[id].stock <= productos.filas[id].stockMinimo
    ensures forall id :: id in r ==> r[id] == ToDict(productos.filas[id]) && r[id].alertaStock
  {
    Diccionarios(productos.ObtenerProductosBajoStock())
  }

  /** `listar_productos`: the active products as dictionaries. */
  function ListarProductos(productos: ProductoRepository): (r: map<int, ProductoDict>)
    reads productos
    ensures forall id :: id in r <==> id in productos.filas && productos.filas[id].activo
    ensures forall id :: id in r ==> r[id] == ToDict(productos.filas[id])
  {
    Diccionarios(productos.Listar())
  }

  /** `buscar_producto`: the dictionary of the row, active or not; None when absent. */
  function BuscarProductoDict(productos: ProductoRepository, id: int): (r: Option<ProductoDict>)
    reads productos
    ensures r == None <==> id !in productos.filas
    ensures r != None ==> r.value == ToDict(productos.filas[id])
  {
    match productos.ObtenerPorId(id)
    case None => None
    case Some(p) => Some(ToDict(p))
  }

  /** An alert is exactly a listed product whose dictionary carries the flag. */
  lemma AlertasSonListadosMarcados(productos: ProductoRepository, id: int)
    ensures id in ObtenerAlertasStock(productos) <==>
            id in ListarProductos(productos) && ListarProductos(productos)[id].alertaStock
  {
  }
}
