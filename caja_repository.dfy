/** The caja (till) table (app/repositories/caja_repository.py, record shape from app/models/caja.py). */
module CajaRepositorio {
  import opened Comun
  import opened Orden

  /** The two values the schema allows for `estado`. */
  datatype Estado = Abierta | Cerrada

  /** One till session; money in integer cents, dates as clock readings. */
  datatype Caja = Caja(
    id: int,
    fechaApertura: int,
    fechaCierre: Option<int>,
    montoInicial: int,
    montoFinal: Option<int>,
    fkUsuario: int,
    estado: Estado)

  /** The caja table, keyed by row id. */
  type TablaCajas = map<int, Caja>

  /** The ordering key of `listar` and `obtener_caja_abierta`. */
  function FechaApertura(c: Caja): int {
    c.fechaApertura
  }

  /** No till of the table is open (whoever owns it). */
  predicate SinCajaAbierta(t: TablaCajas) {
    forall k :: k in t ==> t[k].estado == Cerrada
  }

  /** `c` is a stored open till, and no open till was opened later. */
  ghost predicate EsAbiertaMasReciente(t: TablaCajas, c: Caja) {
    && c.id in t && t[c.id] == c && c.estado == Abierta
    && forall k :: k in t && t[k].estado == Abierta ==> t[k].fechaApertura <= c.fechaApertura
  }

  /** The service-level invariant: at most one open till in the whole table. */
  ghost predicate AlMasUnaAbierta(t: TablaCajas) {
    forall a, b :: a in t && b in t && t[a].estado == Abierta && t[b].estado == Abierta ==> a == b
  }

  /** `obtener_por_id`: None for an absent id. */
  function BuscarCaja(t: TablaCajas, id: int): (r: Option<Caja>)
    ensures r == None <==> id !in t
    ensures r != None ==> r.value == t[id]
  {
    if id in t then Some(t[id]) else None
  }

  /**
   * `cerrar_caja`: row `id` gets its closing date and amount and becomes
   * Cerrada; its opening data and every other row stay as they were.
   */
  function ConCierre(t: TablaCajas, id: int, fechaCierre: int, montoFinal: int): (r: TablaCajas)
    ensures r.Keys == t.Keys
    ensures forall k :: k in t && k != id ==> r[k] == t[k]
    ensures id in t ==> r[id].estado == Cerrada && r[id].fechaCierre == Some(fechaCierre)
                        && r[id].montoFinal == Some(montoFinal)
    ensures id in t ==> r[id].id == t[id].id && r[id].fechaApertura == t[id].fechaApertura
                        && r[id].montoInicial == t[id].montoInicial && r[id].fkUsuario == t[id].fkUsuario
  {
    if id in t then
      t[id := t[id].(fechaCierre := Some(fechaCierre), montoFinal := Some(montoFinal), estado := Cerrada)]
    else t
  }

  /** With at most one open till, `obtener_caja_abierta` has only one possible answer. */
  lemma AbiertaMasRecienteUnica(t: TablaCajas, c: Caja, d: Caja)
    requires AlMasUnaAbierta(t) && EsAbiertaMasReciente(t, c) && EsAbiertaMasReciente(t, d)
    ensures c == d
  {
  }

  /** Closing the one open till leaves none open. */
  lemma CierreDejaSinAbierta(t: TablaCajas, c: Caja, fechaCierre: int, montoFinal: int)
    requires AlMasUnaAbierta(t) && EsAbiertaMasReciente(t, c)
    ensures SinCajaAbierta(ConCierre(t, c.id, fechaCierre, montoFinal))
    ensures AlMasUnaAbierta(ConCierre(t, c.id, fechaCierre, montoFinal))
  {
  }

  /** A table whose keys are fresh below `siguienteId` and match each row's id. */
  ghost predicate TablaValida(t: TablaCajas, siguienteId: int) {
    1 <= siguienteId && forall id :: id in t ==> 1 <= id < siguienteId && t[id].id == id
  }

  class CajaRepository {
    var filas: TablaCajas
    var siguienteId: int

    ghost predicate Valid()
      reads this
    {
      TablaValida(filas, siguienteId)
    }

    constructor ()
      ensures Valid() && filas == map[] && siguienteId == 1
    {
      filas := map[];
      siguienteId := 1;
    }

    /**
     * `crear`: inserts `c` under a fresh id and returns it with that id; the
     * INSERT names no closing columns, so the stored row has none.
     */
    method Crear(c: Caja) returns (d: Caja)
      requires Valid()
      modifies this
      ensures Valid()
      ensures d == c.(id := old(siguienteId)) && d.id !in old(filas)
      ensures filas == old(filas)[d.id := d.(fechaCierre := None, montoFinal := None)]
      ensures siguienteId == old(siguienteId) + 1
    {
      d := c.(id := siguienteId);
      filas := filas[d.id := d.(fechaCierre := None, montoFinal := None)];
      siguienteId := siguienteId + 1;
    }

    function ObtenerPorId(id: int): (r: Option<Caja>)
      reads this
      ensures r == None <==> id !in filas
      ensures r != None ==> r.value == filas[id]
    {
      BuscarCaja(filas, id)
    }

    /**
     * `obtener_caja_abierta`: the open till opened last, of any user; when
     * two share that date either may be returned, as with `LIMIT 1`.
     */
    method ObtenerCajaAbierta() returns (r: Option<Caja>)
      requires Valid()
      ensures r == None <==> SinCajaAbierta(filas)
      ensures r != None ==> EsAbiertaMasReciente(filas, r.value)
    {
      r := None;
      for id := 1 to siguienteId
        invariant r == None ==> forall k :: k in filas && k < id ==> filas[k].estado == Cerrada
        invariant r != None ==> r.value.id in filas && filas[r.value.id] == r.value && r.value.estado == Abierta
        invariant r != None ==> forall k :: k in filas && k < id && filas[k].estado == Abierta
                                           ==> filas[k].fechaApertura <= r.value.fechaApertura
      {
        if id in filas && filas[id].estado == Abierta
           && (r == None || filas[id].fechaApertura > r.value.fechaApertura) {
          r := Some(filas[id]);
        }
      }
    }

    method CerrarCaja(id: int, fechaCierre: int, montoFinal: int)
      requires Valid()
      modifies this
      ensures Valid() && siguienteId == old(siguienteId)
      ensures filas == ConCierre(old(filas), id, fechaCierre, montoFinal)
    {
      filas := ConCierre(filas, id, fechaCierre, montoFinal);
    }

    /** `listar`: every till, most recently opened first. */
    method Listar() returns (r: seq<Caja>)
      requires Valid()
      ensures Descendente(r, FechaApertura)
      ensures forall k :: k in filas ==> multiset(r)[filas[k]] == 1
      ensures forall c :: c in r ==> c.id in filas && filas[c.id] == c
    {
      r := [];
      for id := 1 to siguienteId
        invariant Descendente(r, FechaApertura)
        invariant forall k :: k in filas && k < id ==> multiset(r)[filas[k]] == 1
        invariant forall c :: c in multiset(r) ==> c.id in filas && c.id < id && filas[c.id] == c
      {
        if id in filas {
          r := InsertarDescendente(r, filas[id], FechaApertura);
        }
      }
    }
  }
}
