/** The Producto record (app/models/producto.py) and its low-stock flag. */
module ProductoModelo {
  import opened Comun

  /**
   * One row of the producto table. Money is in integer cents; `id` is 0
   * until the row is stored (Python's `None`), stored ids start at 1.
   * `codigoBarras` is the column the repository reads and writes.
   */
  datatype Producto = Producto(
    id: int,
    nombre: string,
    precio: int,
    stock: int,
    stockMinimo: int,
    fkProveedor: Option<int>,
    activo: bool,
    codigoBarras: Option<string>)

  /** The dictionary `to_dict` builds: the stored fields plus `alerta_stock`. */
  datatype ProductoDict = ProductoDict(
    id: int,
    nombre: string,
    precio: int,
    stock: int,
    stockMinimo: int,
    fkProveedor: Option<int>,
    activo: bool,
    alertaStock: bool)

  /** A product built with the constructor's defaults for the omitted fields. */
  function NuevoProducto(nombre: string, precio: int, stock: int := 0, stockMinimo: int := 5,
                         fkProveedor: Option<int> := None): (p: Producto)
    ensures p.id == 0 && p.activo && p.codigoBarras == None
    ensures p.nombre == nombre && p.precio == precio && p.stock == stock
    ensures p.stockMinimo == stockMinimo && p.fkProveedor == fkProveedor
  {
    Producto(0, nombre, precio, stock, stockMinimo, fkProveedor, true, None)
  }

  /** The keyword parameters of `Producto.__init__` as written: there is no `codigo_barras`. */
  const ParametrosConstructor: seq<string> :=
    ["id", "nombre", "precio", "stock", "stock_minimo", "fk_proveedor", "activo"]

  /** The parameters with the column the repository reads and writes, which the model's record carries. */
  const ParametrosCorregidos: seq<string> := ParametrosConstructor + ["codigo_barras"]

  /** The keywords the repository's reads pass to the constructor. */
  const ArgumentosLectura: seq<string> :=
    ["id", "nombre", "precio", "stock", "stock_minimo", "fk_proveedor", "activo", "codigo_barras"]

  /** Python's rule for a keyword call: it raises TypeError unless every keyword names a parameter. */
  predicate LlamadaAceptada(parametros: seq<string>, argumentos: seq<string>) {
    forall a :: a in argumentos ==> a in parametros
  }

  /** As written, every product read raises TypeError: `codigo_barras` is not a parameter. */
  lemma LecturaRechazada()
    ensures !LlamadaAceptada(ParametrosConstructor, ArgumentosLectura)
    ensures "codigo_barras" in ArgumentosLectura && "codigo_barras" !in ParametrosConstructor
  {
    assert ArgumentosLectura[7] == "codigo_barras";
    forall i | 0 <= i < |ParametrosConstructor|
      ensures ParametrosConstructor[i] != "codigo_barras"
    {
      assert |ParametrosConstructor[i]| < |"codigo_barras"|;
    }
    assert "codigo_barras" in ArgumentosLectura && "codigo_barras" !in ParametrosConstructor;
  }

  /** With the column added to the parameters, the repository's reads are accepted. */
  lemma LecturaAceptadaCorregida()
    ensures LlamadaAceptada(ParametrosCorregidos, ArgumentosLectura)
  {
    assert ParametrosCorregidos == ArgumentosLectura;
  }

  /** The low-stock alert: stock at or below the minimum. */
  function AlertaStock(p: Producto): (b: bool)
    ensures b <==> p.stock <= p.stockMinimo
  {
    p.stock <= p.stockMinimo
  }

  function ToDict(p: Producto): (d: ProductoDict)
    ensures d.id == p.id && d.nombre == p.nombre && d.precio == p.precio
    ensures d.stock == p.stock && d.stockMinimo == p.stockMinimo
    ensures d.fkProveedor == p.fkProveedor && d.activo == p.activo
    ensures d.alertaStock <==> AlertaStock(p)
  {
    ProductoDict(p.id, p.nombre, p.precio, p.stock, p.stockMinimo, p.fkProveedor, p.activo,
                 p.stock <= p.stockMinimo)
  }

  /** A fresh product has no stock, minimum 5, is active, and so raises the alert. */
  lemma ValoresPorDefecto(nombre: string, precio: int)
    ensures var p := NuevoProducto(nombre, precio);
            p.stock == 0 && p.stockMinimo == 5 && p.activo && AlertaStock(p)
  {
  }

  /** The alert on the examples 5/10, 10/10, 15/10 and 0/5. */
  lemma AlertaStockEjemplos(p: Producto)
    ensures AlertaStock(p.(stock := 5, stockMinimo := 10))
    ensures AlertaStock(p.(stock := 10, stockMinimo := 10))
    ensures !AlertaStock(p.(stock := 15, stockMinimo := 10))
    ensures AlertaStock(p.(stock := 0, stockMinimo := 5))
  {
  }

  /** Adding stock can switch the alert off, never on. */
  lemma ReponerSoloApagaAlerta(p: Producto, cantidad: int)
    requires cantidad > 0
    ensures AlertaStock(p.(stock := p.stock + cantidad)) ==> AlertaStock(p)
    ensures !AlertaStock(p) ==> !AlertaStock(p.(stock := p.stock + cantidad))
  {
  }
}
