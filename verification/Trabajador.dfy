/**
 * One claimed item through the two steps of the retry worker: the SFC unless it already has the content, then the
 * CRM webhook. External answers and whether each durable write gets through are inputs.
 */
module Trabajador {
  import opened Comun
  import C = Cola
  import opened ColaInvariantes
  import opened AlmacenCola
  import opened Despacho
  import L = DistributedLock

  /** `SfcError` covers error results and exceptions; `infra` is how `_es_falla_infraestructura` classifies it. */
  datatype RespSfc = SfcAcepta(cuerpo: string) | SfcError(error: string, infra: bool)
  datatype RespCrm = CrmConfirma | CrmFalla(error: string, infra: bool)
  datatype Externo = Externo(sfc: RespSfc, crm: RespCrm, persisteSfc: bool, persisteExito: bool)

  datatype Llamada = ALaSfc | AlCrm

  /** `_ResultadoItemReintento`. */
  datatype Resultado = Resultado(despachadoExito: bool, fallido: bool, infra: bool)

  /** Whatever happens to item `id`, every other one keeps its content, its status and its claim. */
  ghost predicate OtrosIgual(r: C.Redis, r': C.Redis, id: nat) {
    forall j: nat :: j != id ==> MismoItem(r, r', j)
  }

  predicate MismoItem(r: C.Redis, r': C.Redis, j: nat) {
    && (j in r'.items <==> j in r.items) && (j in r.items ==> r'.items[j] == r.items[j])
    && (j in r'.pendientes <==> j in r.pendientes) && (j in r'.exitosos <==> j in r.exitosos)
    && (j in r'.fallidos <==> j in r.fallidos)
    && (j in r'.claims <==> j in r.claims) && (j in r.claims ==> r'.claims[j] == r.claims[j])
  }

  /** The case lock taken at `t` and given back at `tFin`; a lease that ran out meanwhile is nobody's to delete. */
  function TrasUsar(c: L.Cerrojo, q: L.Token, lease: nat, t: Instante, tFin: Instante): L.Cerrojo {
    if tFin < t + lease then L.LIBRE else L.Cerrojo(Some(q), t + lease)
  }

  predicate Autorizado(r: C.Redis, copia: C.Item, w: Worker) { C.Cerca(r, copia.id, w, copia.version).Aplicado? }

  /** The SFC has the content and the store knows it. */
  predicate Hecho(copia: C.Item, x: Externo) { copia.sfcCompletado || (x.sfc.SfcAcepta? && x.persisteSfc) }

  function Definitivo(copia: C.Item): bool { copia.intentos + 1 >= copia.maxIntentos }

  /** The same content at the same version, in the same slot. */
  predicate MismoContenido(it: C.Item, otro: C.Item) {
    it.id == otro.id && it.payload == otro.payload && it.payloadHash == otro.payloadHash && it.version == otro.version
    && it.Ranura() == otro.Ranura() && it.maxIntentos == otro.maxIntentos
  }

  /**
   * A consuming failure: one attempt more and the claim gone. With attempts left the item waits again, longer each
   * time; the last one ends it, frees its slot and its record.
   */
  predicate FalloConsumido(c: C.Config, r: C.Redis, copia: C.Item, error: string, ahora: Instante) {
    && copia.id in r.items && MismoContenido(r.items[copia.id], copia)
    && r.items[copia.id].intentos == copia.intentos + 1 && r.items[copia.id].ultimoError == error
    && r.items[copia.id].updatedAt == ahora && copia.id !in r.claims && copia.id !in r.exitosos
    && if Definitivo(copia) then
         && r.items[copia.id].estado == C.FALLIDO_DEFINITIVO && copia.id in r.fallidos && copia.id !in r.pendientes
         && C.ClaveDe(copia) !in r.idem && copia.Ranura() !in r.indice
       else
         && r.items[copia.id].estado == C.PENDIENTE && copia.id in r.pendientes && copia.id !in r.fallidos
         && r.items[copia.id].proximoReintentoAt == ahora + c.intervalo * (copia.intentos + 1)
  }

  /** A failure of the webhook's infrastructure: the same attempts, one plain interval to wait. */
  predicate FalloSinConsumir(c: C.Config, r: C.Redis, copia: C.Item, error: string, ahora: Instante) {
    && copia.id in r.items && MismoContenido(r.items[copia.id], copia)
    && r.items[copia.id].intentos == copia.intentos && r.items[copia.id].ultimoError == error
    && r.items[copia.id].updatedAt == ahora && copia.id !in r.claims
    && r.items[copia.id].estado == C.PENDIENTE && copia.id in r.pendientes && copia.id !in r.fallidos
    && r.items[copia.id].proximoReintentoAt == ahora + c.intervalo
  }

  /** SFC and CRM have it and both writes got through. */
  predicate Entregado(r: C.Redis, copia: C.Item, ahora: Instante) {
    && copia.id in r.items && MismoContenido(r.items[copia.id], copia) && r.items[copia.id].intentos == copia.intentos
    && r.items[copia.id].estado == C.EXITOSO && r.items[copia.id].updatedAt == ahora
    && copia.id in r.exitosos && copia.id !in r.pendientes && copia.id !in r.fallidos && copia.id !in r.claims
    && copia.Ranura() !in r.indice
  }

  /** A durable write did not get through: the item stays under the worker's claim until the lease runs out. */
  predicate EnSuspenso(r: C.Redis, copia: C.Item, w: Worker) {
    && copia.id in r.items && MismoContenido(r.items[copia.id], copia) && r.items[copia.id].intentos == copia.intentos
    && r.items[copia.id].estado in {C.PROCESSING, C.SFC_DONE} && copia.id in r.pendientes
    && copia.id in r.claims && r.claims[copia.id] == w
    && copia.Ranura() in r.indice && r.indice[copia.Ranura()] == copia.id
  }

  /**
   * What the two steps make of the stored item `it`, from the answers alone: the calls made, the result reported,
   * where the item ends, and what becomes of its idempotency record.
   */
  ghost predicate Desenlace(c: C.Config, r: C.Redis, r': C.Redis, it: C.Item, w: Worker, x: Externo, ahora: Instante,
                            res: Resultado, llamadas: seq<Llamada>)
  {
    var hecho := it.sfcCompletado || (x.sfc.SfcAcepta? && x.persisteSfc);
    && llamadas == (if it.sfcCompletado then [] else [ALaSfc]) + (if hecho then [AlCrm] else [])
    && (res.despachadoExito <==> hecho && x.crm.CrmConfirma? && x.persisteExito)
    && (res.fallido <==> (!it.sfcCompletado && x.sfc.SfcError?) || (hecho && x.crm.CrmFalla?))
    && (res.infra <==> !it.sfcCompletado && x.sfc.SfcError? && x.sfc.infra)
    && it.id in r'.items && r'.items[it.id].sfcCompletado == hecho
    && (if !it.sfcCompletado && x.sfc.SfcError? then FalloConsumido(c, r', it, x.sfc.error, ahora)
        else if !hecho then EnSuspenso(r', it, w)
        else match x.crm
          case CrmFalla(error, infra) =>
            if infra then FalloSinConsumir(c, r', it, error, ahora) else FalloConsumido(c, r', it, error, ahora)
          case CrmConfirma => if x.persisteExito then Entregado(r', it, ahora) else EnSuspenso(r', it, w))
    && RegistroTras(r, r', it, x, hecho)
  }

  /** COMPLETED exactly once the SFC's acceptance is durable; gone only with the item's last attempt. */
  ghost predicate RegistroTras(r: C.Redis, r': C.Redis, it: C.Item, x: Externo, hecho: bool) {
    var k := C.ClaveDe(it);
    && OtrosRegistrosIgual(r, r', k)
    && (k !in r'.idem || it.id !in r'.fallidos)
    && (it.id !in r'.fallidos && hecho && !it.sfcCompletado && x.sfc.SfcAcepta? ==>
          k in r'.idem && r'.idem[k] == C.Completed(Some(x.sfc.cuerpo)))
    && (it.id !in r'.fallidos && !(hecho && !it.sfcCompletado) ==> MismoRegistro(r, r', k))
  }

  // ---------------------------------------------------------------- the scripts run, one after another

  function TrasFallo(c: C.Config, r: C.Redis, copia: C.Item, w: Worker, error: string, consumir: bool,
                     ahora: Instante): C.Redis
  {
    var (r1, res) := C.RegistrarFallo(r, copia.id, w, copia.version, C.ArgsDeFallo(c, copia, error, consumir, ahora));
    if res.Aplicado? && consumir && Definitivo(copia) then r1.(idem := C.Quitar(r1.idem, C.ClaveDe(copia))) else r1
  }

  function TrasPasoSfc(c: C.Config, r: C.Redis, copia: C.Item, w: Worker, x: Externo, ahora: Instante): C.Redis {
    if copia.sfcCompletado then r
    else match x.sfc
      case SfcError(error, _) => TrasFallo(c, r, copia, w, error, true, ahora)
      case SfcAcepta(cuerpo) =>
        if x.persisteSfc
        then C.MarcarSfcCompletado(r, copia.id, w, copia.version, C.ClaveDe(copia), Some(cuerpo), ahora).0 else r
  }

  function TrasPasoCrm(c: C.Config, r: C.Redis, copia: C.Item, w: Worker, x: Externo, ahora: Instante): C.Redis {
    match x.crm
    case CrmFalla(error, infra) => TrasFallo(c, r, copia, w, error, !infra, ahora)
    case CrmConfirma => if x.persisteExito then C.MarcarExitoso(r, copia.id, w, copia.version, ahora).0 else r
  }

  function TrasPasos(c: C.Config, r: C.Redis, copia: C.Item, w: Worker, x: Externo, ahora: Instante): C.Redis {
    var r1 := TrasPasoSfc(c, r, copia, w, x, ahora);
    if Hecho(copia, x) then TrasPasoCrm(c, r1, copia, w, x, ahora) else r1
  }

  /** A turn that gets its claim. */
  function TrasTurno(c: C.Config, r: C.Redis, id: nat, w: Worker, x: Externo, ahora: Instante): C.Redis {
    var (r1, copia) := C.Reclamar(r, id, w);
    if copia.None? then r else TrasPasos(c, r1, copia.value, w, x, ahora)
  }

  predicate MismoRegistro(r: C.Redis, r': C.Redis, k: C.ClaveIdem) {
    (k in r'.idem <==> k in r.idem) && (k in r.idem ==> r'.idem[k] == r.idem[k])
  }

  ghost predicate OtrosRegistrosIgual(r: C.Redis, r': C.Redis, k: C.ClaveIdem) {
    forall j :: j != k ==> MismoRegistro(r, r', j)
  }

  lemma OtrosEnCadena(r: C.Redis, r1: C.Redis, r2: C.Redis, id: nat)
    requires OtrosIgual(r, r1, id) && OtrosIgual(r1, r2, id)
    ensures OtrosIgual(r, r2, id)
  {
    forall j: nat | j != id ensures MismoItem(r, r2, j) {
      assert MismoItem(r, r1, j) && MismoItem(r1, r2, j);
    }
  }

  lemma RegistrosEnCadena(r: C.Redis, r1: C.Redis, r2: C.Redis, k: C.ClaveIdem)
    requires OtrosRegistrosIgual(r, r1, k) && OtrosRegistrosIgual(r1, r2, k)
    ensures OtrosRegistrosIgual(r, r2, k)
  {
    forall j | j != k ensures MismoRegistro(r, r2, j) {
      assert MismoRegistro(r, r1, j) && MismoRegistro(r1, r2, j);
    }
  }

  lemma FalloDejaOtros(r: C.Redis, id: nat, w: Worker, ver: nat, a: C.ArgsFallo, idem: map<C.ClaveIdem, C.Registro>)
    ensures OtrosIgual(r, C.RegistrarFallo(r, id, w, ver, a).0.(idem := idem), id)
  {
    forall j: nat | j != id ensures MismoItem(r, C.RegistrarFallo(r, id, w, ver, a).0.(idem := idem), j) {
      FalloDejaItem(r, id, w, ver, a, j);
    }
  }

  lemma FalloDejaItem(r: C.Redis, id: nat, w: Worker, ver: nat, a: C.ArgsFallo, j: nat)
    requires j != id
    ensures MismoItem(r, C.RegistrarFallo(r, id, w, ver, a).0, j)
  {
  }

  /** The outcome of the claimed copy, told of the item as it was stored before the claim. */
  lemma DesenlaceDesdeAntes(c: C.Config, r: C.Redis, medio: C.Redis, r': C.Redis, id: nat, w: Worker, x: Externo,
                            ahora: Instante, res: Resultado, llamadas: seq<Llamada>)
    requires C.Reclamable(r, id) && medio == C.Reclamar(r, id, w).0
    requires Desenlace(c, medio, r', medio.items[id], w, x, ahora, res, llamadas)
    ensures Desenlace(c, r, r', r.items[id], w, x, ahora, res, llamadas)
  {
    assert forall k :: MismoRegistro(medio, r', k) <==> MismoRegistro(r, r', k);
  }

  class RetryWorker {
    const store: QueueStore
    const idem: IdempotencyService

    ghost predicate Valid()
      reads this, store
    {
      idem.store == store && store.Valid()
    }

    constructor (store: QueueStore)
      requires store.Valid()
      ensures Valid() && this.store == store
    {
      this.store := store;
      var servicio := new IdempotencyService(store);
      this.idem := servicio;
    }

    /** The stored item is the claimed copy, up to what this session itself wrote. */
    ghost predicate Vigente(copia: C.Item, w: Worker)
      reads this, store
    {
      Autorizado(store.Estado(), copia, w) ==>
        && MismoContenido(store.items[copia.id], copia) && store.items[copia.id].intentos == copia.intentos
        && (copia.sfcCompletado ==> store.items[copia.id].sfcCompletado)
    }

    /** `registrar_fallo`, which frees the idempotency record when the failure is the last one. */
    method Fallar(copia: C.Item, w: Worker, error: string, consumir: bool, ahora: Instante) returns (aplicado: bool)
      requires Valid() && Vigente(copia, w) && copia.maxIntentos >= 2
      modifies store
      ensures Valid() && (aplicado <==> old(Autorizado(store.Estado(), copia, w)))
      ensures store.Estado() == TrasFallo(store.c, old(store.Estado()), copia, w, error, consumir, ahora)
      ensures !aplicado ==> store.Estado() == old(store.Estado()).(claims := store.claims)
      ensures !Autorizado(store.Estado(), copia, w)
      ensures !(aplicado && consumir && Definitivo(copia)) ==> store.idem == old(store.idem)
      ensures aplicado && consumir ==> FalloConsumido(store.c, store.Estado(), copia, error, ahora)
      ensures aplicado && !consumir ==> FalloSinConsumir(store.c, store.Estado(), copia, error, ahora)
      ensures aplicado ==> store.items[copia.id].sfcCompletado == old(store.items)[copia.id].sfcCompletado
                           && OtrosRegistrosIgual(old(store.Estado()), store.Estado(), C.ClaveDe(copia))
      ensures OtrosIgual(old(store.Estado()), store.Estado(), copia.id)
    {
      assert IdOk(store.c, store.Estado(), copia.id);
      FalloDejaOtros(store.Estado(), copia.id, w, copia.version,
                     C.ArgsDeFallo(store.c, copia, error, consumir, ahora), store.idem);
      FalloDejaOtros(store.Estado(), copia.id, w, copia.version,
                     C.ArgsDeFallo(store.c, copia, error, consumir, ahora), C.Quitar(store.idem, C.ClaveDe(copia)));
      var res := store.RegistrarFallo(copia, error, w, consumir, ahora);
      aplicado := res.Aplicado?;
      if aplicado && consumir && Definitivo(copia) {
        idem.Liberar(C.ClaveDe(copia));
      }
    }

    /** `_ejecutar_paso_sfc`. */
    method PasoSfc(copia: C.Item, w: Worker, x: Externo, ahora: Instante)
      returns (continuar: bool, res: Resultado, ghost llamo: bool)
      requires Valid() && Vigente(copia, w) && copia.maxIntentos >= 2
      modifies store
      ensures Valid() && Vigente(copia, w) && (llamo <==> !copia.sfcCompletado) && !res.despachadoExito
      ensures store.Estado() == TrasPasoSfc(store.c, old(store.Estado()), copia, w, x, ahora)
      ensures continuar <==> Hecho(copia, x) && (copia.sfcCompletado || old(Autorizado(store.Estado(), copia, w)))
      ensures continuar ==> res == Resultado(false, false, false)
      ensures OtrosIgual(old(store.Estado()), store.Estado(), copia.id)
      ensures copia.sfcCompletado ==> store.Estado() == old(store.Estado())
      ensures llamo ==> (res.infra <==> x.sfc.SfcError? && x.sfc.infra)
      ensures !old(Autorizado(store.Estado(), copia, w)) ==>
                store.Estado() == old(store.Estado()).(claims := store.claims) && !res.fallido
                && !Autorizado(store.Estado(), copia, w)
      ensures old(Autorizado(store.Estado(), copia, w)) ==>
                && (continuar && llamo ==>
                      Autorizado(store.Estado(), copia, w)
                      && var it := old(store.items)[copia.id];
                         store.Estado() == old(store.Estado()).(items := store.items, idem := store.idem)
                         && store.items[copia.id]
                            == it.(sfcCompletado := true, estado := C.SFC_DONE, updatedAt := ahora,
                                   sfcResponse := Some(x.sfc.cuerpo))
                         && store.idem == old(store.idem)[C.ClaveDe(copia) := C.Completed(Some(x.sfc.cuerpo))])
                && (llamo && x.sfc.SfcError? ==> FalloConsumido(store.c, store.Estado(), copia, x.sfc.error, ahora)
                                                 && OtrosRegistrosIgual(old(store.Estado()), store.Estado(),
                                                                        C.ClaveDe(copia))
                                                 && (!Definitivo(copia) ==> store.idem == old(store.idem))
                                                 && store.items[copia.id].sfcCompletado
                                                    == old(store.items)[copia.id].sfcCompletado
                                                 && res == Resultado(false, true, x.sfc.infra))
                && (llamo && x.sfc.SfcAcepta? && !x.persisteSfc ==> store.Estado() == old(store.Estado())
                                                                    && res == Resultado(false, false, false))
    {
      res := Resultado(false, false, false);
      llamo := !copia.sfcCompletado;
      if copia.sfcCompletado {
        return true, res, llamo;
      }
      match x.sfc {
        case SfcError(error, infra) =>
          var aplicado := Fallar(copia, w, error, true, ahora);
          return false, Resultado(false, aplicado, infra), llamo;
        case SfcAcepta(cuerpo) =>
          if !x.persisteSfc {
            return false, res, llamo;
          }
          var done := store.MarcarSfcCompletado(copia.id, w, copia.version, C.ClaveDe(copia), Some(cuerpo), ahora);
          return done.Aplicado?, res, llamo;
      }
    }

    /** `_ejecutar_paso_notificacion_crm`. */
    method PasoCrm(copia: C.Item, w: Worker, x: Externo, ahora: Instante) returns (res: Resultado)
      requires Valid() && Vigente(copia, w) && copia.maxIntentos >= 2
      modifies store
      ensures Valid() && !res.infra && OtrosIgual(old(store.Estado()), store.Estado(), copia.id)
      ensures store.Estado() == TrasPasoCrm(store.c, old(store.Estado()), copia, w, x, ahora)
      ensures !old(Autorizado(store.Estado(), copia, w)) ==>
                store.Estado() == old(store.Estado()).(claims := store.claims) && res == Resultado(false, false, false)
      ensures old(Autorizado(store.Estado(), copia, w)) ==>
                && (x.crm.CrmFalla? && !x.crm.infra ==>
                      FalloConsumido(store.c, store.Estado(), copia, x.crm.error, ahora)
                      && OtrosRegistrosIgual(old(store.Estado()), store.Estado(), C.ClaveDe(copia))
                      && (!Definitivo(copia) ==> store.idem == old(store.idem)))
                && (x.crm.CrmFalla? && x.crm.infra ==>
                      FalloSinConsumir(store.c, store.Estado(), copia, x.crm.error, ahora)
                      && store.idem == old(store.idem))
                && (x.crm.CrmFalla? ==>
                      res == Resultado(false, true, false)
                      && store.items[copia.id].sfcCompletado == old(store.items)[copia.id].sfcCompletado)
                && (x.crm.CrmConfirma? && x.persisteExito ==>
                      Entregado(store.Estado(), copia, ahora)
                      && store.items[copia.id].sfcCompletado == old(store.items)[copia.id].sfcCompletado
                      && store.idem == old(store.idem) && res == Resultado(true, false, false))
                && (x.crm.CrmConfirma? && !x.persisteExito ==>
                      store.Estado() == old(store.Estado()) && res == Resultado(false, false, false))
    {
      res := Resultado(false, false, false);
      assert IdOk(store.c, store.Estado(), copia.id);
      match x.crm {
        case CrmFalla(error, infra) =>
          var aplicado := Fallar(copia, w, error, !infra, ahora);
          res := Resultado(false, aplicado, false);
        case CrmConfirma =>
          if !x.persisteExito {
            return;
          }
          var fin := store.MarcarExitoso(copia.id, w, copia.version, ahora);
          res := Resultado(fin.Aplicado?, false, false);
      }
    }

    /**
     * `_procesar_item_reclamado` while the session keeps its claim: the SFC is called only for a content it does not
     * have, the CRM only for one it has durably, and the item ends exactly where the answers say.
     */
    method ProcesarItemReclamado(copia: C.Item, w: Worker, x: Externo, ahora: Instante)
      returns (res: Resultado, ghost llamadas: seq<Llamada>)
      requires Valid() && copia.maxIntentos >= 2 && Autorizado(store.Estado(), copia, w)
      requires store.items[copia.id] == copia && copia.estado == C.PROCESSING
      modifies store
      ensures Valid() && OtrosIgual(old(store.Estado()), store.Estado(), copia.id)
      ensures Desenlace(store.c, old(store.Estado()), store.Estado(), copia, w, x, ahora, res, llamadas)
      ensures store.Estado() == TrasPasos(store.c, old(store.Estado()), copia, w, x, ahora)
    {
      assert IdOk(store.c, store.Estado(), copia.id);
      var continuar;
      ghost var llamo;
      continuar, res, llamo := PasoSfc(copia, w, x, ahora);
      llamadas := if llamo then [ALaSfc] else [];
      if !continuar {
        assert IdOk(store.c, store.Estado(), copia.id);
        return;
      }
      llamadas := llamadas + [AlCrm];
      ghost var medio := store.Estado();
      res := PasoCrm(copia, w, x, ahora);
      OtrosEnCadena(old(store.Estado()), medio, store.Estado(), copia.id);
      assert IdOk(store.c, store.Estado(), copia.id);
      RegistrosEnCadena(old(store.Estado()), medio, store.Estado(), C.ClaveDe(copia));
    }

    /**
     * `_reclamar_y_procesar_si_lock_disponible`: without the case lock, or without the claim, the item is left exactly
     * as it was and counts for nothing; otherwise it goes through the two steps as it was stored. The lock is given
     * back in every case.
     */
    method ReclamarYProcesar(id: nat, w: Worker, lock: L.RedisLock, red: L.Red, t: Instante, tFin: Instante,
                             x: Externo, ahora: Instante) returns (res: Option<Resultado>, ghost llamadas: seq<Llamada>)
      requires Valid() && !lock.acquired
      modifies store, lock, lock.clave
      ensures Valid() && !lock.acquired && OtrosIgual(old(store.Estado()), store.Estado(), id)
      ensures var libre := red.Responde? && L.DuenoVivo(old(lock.clave.c), t).None?;
              && (res.Some? <==> libre && id in old(store.pendientes) && id in old(store.items)
                                 && id !in old(store.claims))
              && (libre ==> L.DuenoVivo(lock.clave.c, tFin).None?)
              && lock.clave.c == if libre then TrasUsar(old(lock.clave.c), lock.dueno, lock.lease, t, tFin)
                                 else old(lock.clave.c)
      ensures res.None? ==> store.Estado() == old(store.Estado()) && llamadas == []
      ensures res.Some? ==> store.Estado() == TrasTurno(store.c, old(store.Estado()), id, w, x, ahora)
      ensures res.Some? ==> Desenlace(store.c, old(store.Estado()), store.Estado(), old(store.items)[id], w, x, ahora,
                                      res.value, llamadas)
    {
      llamadas := [];
      var tomado := lock.Acquire(red, t);
      if !tomado {
        return None, llamadas;
      }
      assert IdOk(store.c, store.Estado(), id);
      var copia := store.Reclamar(id, w);
      if copia.None? {
        res := None;
      } else {
        var r;
        ghost var medio := store.Estado();
        r, llamadas := ProcesarItemReclamado(copia.value, w, x, ahora);
        OtrosEnCadena(old(store.Estado()), medio, store.Estado(), id);
        DesenlaceDesdeAntes(store.c, old(store.Estado()), medio, store.Estado(), id, w, x, ahora, r, llamadas);
        res := Some(r);
      }
      lock.Release(red, tFin);
    }
  }
}
