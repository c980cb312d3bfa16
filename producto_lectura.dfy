/**
 * How the product reads of app/repositories/producto_repository.py turn a
 * `SELECT *` row tuple into a record: by position, against the column order
 * of the schema in app/database/connection.py.
 */
module ProductoLectura {
  /** A value of a row tuple as SQLite returns it. */
  datatype Valor = Numero(n: int) | Texto(s: string) | Nulo

  /** The columns of `producto` in CREATE TABLE order, which is the order `SELECT *` returns. */
  const ColumnasProducto: seq<string> :=
    ["id", "nombre", "precio", "stock", "stock_minimo", "fk_proveedor", "codigo_barras", "activo"]

  /** The field the reads fill from each position as written: `activo=r[6]`, `codigo_barras=r[7]`. */
  const CamposLeidos: seq<string> :=
    ["id", "nombre", "precio", "stock", "stock_minimo", "fk_proveedor", "activo", "codigo_barras"]

  predicate NombresDistintos(campos: seq<string>) {
    forall i, j :: 0 <= i < j < |campos| ==> campos[i] != campos[j]
  }

  /** A positional read: field `campos[i]` gets the value at position `i` of the row. */
  function LeerPorPosicion(campos: seq<string>, fila: seq<Valor>): map<string, Valor>
    requires |campos| == |fila|
  {
    if campos == [] then map[]
    else
      var n := |campos| - 1;
      LeerPorPosicion(campos[..n], fila[..n])[campos[n] := fila[n]]
  }

  /** With distinct names, a positional read gives each named field its own position, and fills nothing else. */
  lemma {:induction false} LeerPorPosicionEfecto(campos: seq<string>, fila: seq<Valor>)
    requires |campos| == |fila| && NombresDistintos(campos)
    ensures forall i :: 0 <= i < |campos| ==>
              campos[i] in LeerPorPosicion(campos, fila) && LeerPorPosicion(campos, fila)[campos[i]] == fila[i]
    ensures forall c :: c in LeerPorPosicion(campos, fila) ==> c in campos
  {
    if campos != [] {
      var n := |campos| - 1;
      assert NombresDistintos(campos[..n]);
      LeerPorPosicionEfecto(campos[..n], fila[..n]);
      forall i | 0 <= i < n
        ensures campos[i] in LeerPorPosicion(campos, fila) && LeerPorPosicion(campos, fila)[campos[i]] == fila[i]
      {
        assert campos[..n][i] == campos[i] && fila[..n][i] == fila[i];
        assert campos[i] != campos[n];
      }
    }
  }

  /** The reads as written, over a row of the table the schema creates. */
  function LeerComoEscrito(fila: seq<Valor>): (r: map<string, Valor>)
    requires |fila| == |ColumnasProducto|
    ensures forall i :: 0 <= i < |fila| ==> CamposLeidos[i] in r && r[CamposLeidos[i]] == fila[i]
  {
    LeerPorPosicionEfecto(CamposLeidos, fila);
    LeerPorPosicion(CamposLeidos, fila)
  }

  /** The intended read: every field gets the column of its own name. */
  function LeerPorColumna(fila: seq<Valor>): (r: map<string, Valor>)
    requires |fila| == |ColumnasProducto|
    ensures forall i :: 0 <= i < |fila| ==> ColumnasProducto[i] in r && r[ColumnasProducto[i]] == fila[i]
    ensures r.Keys == set c | c in ColumnasProducto
  {
    LeerPorPosicionEfecto(ColumnasProducto, fila);
    LeerPorPosicion(ColumnasProducto, fila)
  }

  /**
   * As written, a row of the schema's table comes back with `activo` and
   * `codigo_barras` swapped: a product with barcode "7701234" that is active
   * reads as activo "7701234" and barcode 1.
   */
  lemma LecturaIntercambiaColumnas()
    ensures var fila := [Numero(1), Texto("Leche"), Numero(1200), Numero(10), Numero(5), Nulo,
                         Texto("7701234"), Numero(1)];
            && LeerPorColumna(fila)["activo"] == Numero(1)
            && LeerPorColumna(fila)["codigo_barras"] == Texto("7701234")
            && LeerComoEscrito(fila)["activo"] == Texto("7701234")
            && LeerComoEscrito(fila)["codigo_barras"] == Numero(1)
  {
    var fila := [Numero(1), Texto("Leche"), Numero(1200), Numero(10), Numero(5), Nulo,
                 Texto("7701234"), Numero(1)];
    LecturaPorColumnaCorrecta(fila);
  }

  /** The intended read gives `activo` and `codigo_barras` their own columns, for every row. */
  lemma LecturaPorColumnaCorrecta(fila: seq<Valor>)
    requires |fila| == |ColumnasProducto|
    ensures LeerPorColumna(fila)["activo"] == fila[7] && LeerPorColumna(fila)["codigo_barras"] == fila[6]
    ensures LeerComoEscrito(fila)["activo"] == fila[6] && LeerComoEscrito(fila)["codigo_barras"] == fila[7]
  {
    assert ColumnasProducto[6] == "codigo_barras" && ColumnasProducto[7] == "activo";
    assert CamposLeidos[6] == "activo" && CamposLeidos[7] == "codigo_barras";
  }
}
