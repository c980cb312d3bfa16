/** Opening and closing the till (app/services/caja_service.py). */
module CajaServicio {
  import opened Comun
  import opened Orden
  import opened CajaRepositorio
  import ProductoRepositorio
  import VentaRepositorio
  import VentaServicio

  /** The exceptions the till service raises. */
  datatype CajaError = YaHayCajaAbierta | MontoInicialNegativo | NoHayCajaParaCerrar | MontoFinalNegativo

  /** The summary `cerrar_caja` returns: the amounts and the difference between them. */
  datatype Cierre = Cierre(id: int, montoInicial: int, montoFinal: int, diferencia: int)

  /** The till `abrir_caja` stores, before the repository gives it an id. */
  function NuevaCaja(montoInicial: int, fkUsuario: int, ahora: int): (c: Caja)
    ensures c.estado == Abierta && c.fechaApertura == ahora && c.fechaCierre == None && c.montoFinal == None
    ensures c.montoInicial == montoInicial && c.fkUsuario == fkUsuario
  {
    Caja(0, ahora, None, montoInicial, None, fkUsuario, Abierta)
  }

  /** The closing summary for till `c`: what was counted minus what the till started with. */
  function ResumenCierre(c: Caja, montoFinal: int): (r: Cierre)
    ensures r.id == c.id && r.montoInicial == c.montoInicial && r.montoFinal == montoFinal
    ensures r.montoInicial + r.diferencia == r.montoFinal
  {
    Cierre(c.id, c.montoInicial, montoFinal, montoFinal - c.montoInicial)
  }

  /**
   * `abrir_caja`: refused while any till is open, then refused for a
   * negative float; otherwise stores a new open till.
   */
  method AbrirCaja(cajas: CajaRepository, montoInicial: int, fkUsuario: int, ahora: int)
    returns (r: Result<Caja, CajaError>)
    requires cajas.Valid()
    modifies cajas
    ensures cajas.Valid()
    ensures !SinCajaAbierta(old(cajas.filas)) ==> r == Err(YaHayCajaAbierta)
    ensures SinCajaAbierta(old(cajas.filas)) && montoInicial < 0 ==> r == Err(MontoInicialNegativo)
    ensures r.Ok? <==> SinCajaAbierta(old(cajas.filas)) && montoInicial >= 0
    ensures r.Err? ==> cajas.filas == old(cajas.filas) && cajas.siguienteId == old(cajas.siguienteId)
    ensures r.Ok? ==> r.value == NuevaCaja(montoInicial, fkUsuario, ahora).(id := old(cajas.siguienteId))
                      && cajas.filas == old(cajas.filas)[r.value.id := r.value]
    ensures r.Ok? ==> EsAbiertaMasReciente(cajas.filas, r.value) && AlMasUnaAbierta(cajas.filas)
    ensures AlMasUnaAbierta(old(cajas.filas)) ==> AlMasUnaAbierta(cajas.filas)
  {
    var abierta := cajas.ObtenerCajaAbierta();
    if abierta != None {
      return Err(YaHayCajaAbierta);
    }
    if montoInicial < 0 {
      return Err(MontoInicialNegativo);
    }
    var c := cajas.Crear(NuevaCaja(montoInicial, fkUsuario, ahora));
    return Ok(c);
  }

  /**
   * `cerrar_caja`: closes the most recently opened open till and reports
   * the difference between its final and initial amounts.
   */
  method CerrarCaja(cajas: CajaRepository, montoFinal: int, ahora: int)
    returns (r: Result<Cierre, CajaError>)
    requires cajas.Valid()
    modifies cajas
    ensures cajas.Valid() && cajas.siguienteId == old(cajas.siguienteId)
    ensures SinCajaAbierta(old(cajas.filas)) ==> r == Err(NoHayCajaParaCerrar)
    ensures !SinCajaAbierta(old(cajas.filas)) && montoFinal < 0 ==> r == Err(MontoFinalNegativo)
    ensures r.Ok? <==> !SinCajaAbierta(old(cajas.filas)) && montoFinal >= 0
    ensures r.Err? ==> cajas.filas == old(cajas.filas)
    ensures r.Ok? ==> r.value.id in old(cajas.filas)
                      && EsAbiertaMasReciente(old(cajas.filas), old(cajas.filas)[r.value.id])
                      && r.value == ResumenCierre(old(cajas.filas)[r.value.id], montoFinal)
                      && cajas.filas == ConCierre(old(cajas.filas), r.value.id, ahora, montoFinal)
    ensures AlMasUnaAbierta(old(cajas.filas)) ==> AlMasUnaAbierta(cajas.filas)
    ensures r.Ok? && AlMasUnaAbierta(old(cajas.filas)) ==> SinCajaAbierta(cajas.filas)
  {
    var abierta := cajas.ObtenerCajaAbierta();
    if abierta == None {
      return Err(NoHayCajaParaCerrar);
    }
    if montoFinal < 0 {
      return Err(MontoFinalNegativo);
    }
    var c := abierta.value;
    cajas.CerrarCaja(c.id, ahora, montoFinal);
    if AlMasUnaAbierta(old(cajas.filas)) {
      CierreDejaSinAbierta(old(cajas.filas), c, ahora, montoFinal);
    }
    return Ok(ResumenCierre(c, montoFinal));
  }

  /** `obtener_caja_actual`: the till sales are charged to, or None. */
  method ObtenerCajaActual(cajas: CajaRepository) returns (r: Option<Caja>)
    requires cajas.Valid()
    ensures r == None <==> SinCajaAbierta(cajas.filas)
    ensures r != None ==> EsAbiertaMasReciente(cajas.filas, r.value)
  {
    r := cajas.ObtenerCajaAbierta();
  }

  /** `listar_cajas`: every till once, most recently opened first. */
  method ListarCajas(cajas: CajaRepository) returns (r: seq<Caja>)
    requires cajas.Valid()
    ensures Descendente(r, FechaApertura)
    ensures forall k :: k in cajas.filas ==> multiset(r)[cajas.filas[k]] == 1
    ensures forall c :: c in r ==> c.id in cajas.filas && cajas.filas[c.id] == c
  {
    r := cajas.Listar();
  }

  /**
   * The till lifecycle end to end: once the open till is closed, a sale is
   * refused for want of a till and writes nothing, and a new till can be opened.
   */
  method CierreBloqueaVentasHastaReabrir(cajas: CajaRepository, productos: ProductoRepositorio.ProductoRepository,
                                         ventas: VentaRepositorio.VentaRepository, montoFinal: int,
                                         items: seq<VentaServicio.Item>, fkCliente: Option<int>, fkUsuario: int,
                                         montoInicial: int, ahora: int)
    returns (cierre: Result<Cierre, CajaError>, venta: Result<VentaRepositorio.Venta, VentaServicio.VentaError>,
             reapertura: Result<Caja, CajaError>)
    requires cajas.Valid() && productos.Valid() && ventas.Valid()
    requires AlMasUnaAbierta(cajas.filas) && !SinCajaAbierta(cajas.filas)
    requires montoFinal >= 0 && montoInicial >= 0
    modifies cajas, productos, ventas
    ensures cierre.Ok? && venta == Err(VentaServicio.NoHayCajaAbierta) && reapertura.Ok?
    ensures productos.filas == old(productos.filas) && ventas.ventas == old(ventas.ventas)
    ensures AlMasUnaAbierta(cajas.filas) && EsAbiertaMasReciente(cajas.filas, reapertura.value)
  {
    cierre := CerrarCaja(cajas, montoFinal, ahora);
    venta := VentaServicio.ProcesarVenta(productos, cajas, ventas, items, fkCliente, fkUsuario, ahora);
    reapertura := AbrirCaja(cajas, montoInicial, fkUsuario, ahora);
  }
}
