/**
 * The synchronous endpoint over the idempotency store, the case lock and the contingency queue, run without
 * interference: `despachar_queja_crm` with its flag and its `finally`.
 */
module Despacho {
  import opened Comun
  import opened Clasificacion
  import C = Cola
  import opened ColaInvariantes
  import opened AlmacenCola
  import opened DistributedLock
  import P = Protocolo

  /** What verification answers before anything is sent. */
  datatype Verificacion = Nueva | YaHecha(resp: Option<string>) | EnProceso | YaEncolada

  function Veredicto(r: C.Redis, clave: C.ClaveIdem): Verificacion {
    if clave !in r.idem then Nueva
    else match r.idem[clave]
      case Completed(resp) => YaHecha(resp)
      case Processing => EnProceso
      case Queued(id) => if P.SigueVigente(r, id, clave.hash) then YaEncolada else Nueva
  }

  /** The item a QUEUED record names still waits, with content of this hash. */
  predicate SigueEsperando(r: C.Redis, id: nat, hash: int) {
    id in r.items && r.items[id].estado == C.PENDIENTE && r.items[id].payloadHash == hash
  }

  /** Nobody answers for this key yet: no record, or a QUEUED one whose item no longer waits with this content. */
  predicate SinDueno(r: C.Redis, clave: C.ClaveIdem) {
    clave !in r.idem || (r.idem[clave].Queued? && !SigueEsperando(r, r.idem[clave].itemId, clave.hash))
  }

  /** A verdict for what is stored: who is done, in process or still waiting is answered, the rest is new. */
  lemma VeredictoPorRegistro(r: C.Redis, clave: C.ClaveIdem)
    ensures Veredicto(r, clave) == Nueva <==> SinDueno(r, clave)
    ensures Veredicto(r, clave) == EnProceso <==> clave in r.idem && r.idem[clave] == C.Processing
    ensures Veredicto(r, clave) == YaEncolada
            <==> clave in r.idem && r.idem[clave].Queued? && SigueEsperando(r, r.idem[clave].itemId, clave.hash)
    ensures forall resp :: Veredicto(r, clave) == YaHecha(resp)
                           <==> clave in r.idem && r.idem[clave] == C.Completed(resp)
    ensures !Veredicto(r, clave).Nueva? <==> P.FaseVerificada(r, clave) == P.Finalizada
  {
  }

  class IdempotencyService {
    const store: QueueStore

    constructor (store: QueueStore)
      ensures this.store == store
    {
      this.store := store;
    }

    /**
     * `verificar_o_iniciar_operacion`: a hit leaves the record alone; otherwise, stale QUEUED record deleted or not,
     * PROCESSING is written under the key.
     */
    method VerificarOIniciar(clave: C.ClaveIdem) returns (v: Verificacion)
      requires store.Valid()
      modifies store`idem
      ensures store.Valid()
      ensures v == Veredicto(old(store.Estado()), clave)
      ensures v.Nueva? <==> SinDueno(old(store.Estado()), clave)
      ensures clave in old(store.idem) ==>
                match old(store.idem)[clave]
                case Completed(resp) => v == YaHecha(resp)
                case Processing => v == EnProceso
                case Queued(id) =>
                  v == if SigueEsperando(old(store.Estado()), id, clave.hash) then YaEncolada else Nueva
      ensures store.Estado() == if v.Nueva? then old(store.Estado()).(idem := old(store.idem)[clave := C.Processing])
                                else old(store.Estado())
    {
      SoloRegistrosConserva(store.c, store.Estado(), store.idem[clave := C.Processing]);
      if clave in store.idem {
        var reg := store.idem[clave];
        match reg {
          case Completed(resp) => return YaHecha(resp);
          case Processing => return EnProceso;
          case Queued(id) =>
            if ItemSigueVigente(id, clave.hash) {
              return YaEncolada;
            }
            store.idem := C.Quitar(store.idem, clave);
        }
      }
      assert C.Quitar(old(store.idem), clave)[clave := C.Processing] == old(store.idem)[clave := C.Processing];
      store.idem := store.idem[clave := C.Processing];
      return Nueva;
    }

    /** `_item_de_cola_sigue_vigente`. */
    predicate ItemSigueVigente(id: nat, hash: int)
      reads store
    {
      id in store.items && store.items[id].estado == C.PENDIENTE && store.items[id].payloadHash == hash
    }

    /** `registrar_exito` and `registrar_encolado`, once the write gets through. */
    method Registrar(clave: C.ClaveIdem, reg: C.Registro)
      requires store.Valid()
      modifies store`idem
      ensures store.Valid() && store.Estado() == old(store.Estado()).(idem := old(store.idem)[clave := reg])
    {
      SoloRegistrosConserva(store.c, store.Estado(), store.idem[clave := reg]);
      store.idem := store.idem[clave := reg];
    }

    /** `liberar_operacion_por_error` and `liberar_por_fallo_definitivo`. */
    method Liberar(clave: C.ClaveIdem)
      requires store.Valid()
      modifies store`idem
      ensures store.Valid() && store.Estado() == old(store.Estado()).(idem := C.Quitar(old(store.idem), clave))
    {
      SoloRegistrosConserva(store.c, store.Estado(), C.Quitar(store.idem, clave));
      store.idem := C.Quitar(store.idem, clave);
    }
  }

  // ---------------------------------------------------------------- the endpoint

  datatype RespuestaSfc = Acepta(resp: Option<string>) | Transitoria(detalle: string) | Rechaza

  /** What else can go wrong: Redis while asking for the lock, and the four best-effort or retried writes. */
  datatype Entorno = Entorno(lock: Red, persisteExito: bool, cancela: bool, encola: bool, registraEncolado: bool)

  datatype Http =
    | Ok200(resp: Option<string>)
    | Encolado202(duplicado: bool)
    | Hit(v: Verificacion)
    | Error400
    | Error503

  /** A pending item in the slot holds exactly this content, unsent, with a fresh budget. */
  predicate Encolada(r: C.Redis, s: C.Slot, payload: Queja, hash: int) {
    && s in r.indice && r.indice[s] in r.pendientes && r.indice[s] in r.items
    && var it := r.items[r.indice[s]];
       it.payload == payload && it.payloadHash == hash && it.Ranura() == s && !it.sfcCompletado && it.intentos == 1
       && it.estado == C.PENDIENTE
  }

  lemma EncolarDeja(c: C.Config, r: C.Redis, sc: string, payload: Queja, error: string, ahora: Instante)
    requires Inv(c, r)
    ensures var (r', it) := C.Encolar(r, C.ArgsDeEncolar(c, sc, payload, error, ahora));
            var s := C.Slot(sc, c.operacion(payload));
            Encolada(r', s, payload, c.hash(payload)) && r'.indice[s] == it.id && it.esDuplicado == C.Ocupado(r, s)
  {
    var s := C.Slot(sc, c.operacion(payload));
    if C.Ocupado(r, s) {
      assert SlotOk(r, s) && IdOk(c, r, r.indice[s]);
    }
  }

  ghost predicate OtrosRegistros(m: map<C.ClaveIdem, C.Registro>, m': map<C.ClaveIdem, C.Registro>,
                                 clave: C.ClaveIdem)
  {
    forall k :: k != clave ==> (k in m' <==> k in m) && (k in m ==> m'[k] == m[k])
  }

  /** The queue as it was, without the pending item of this slot if there was one. */
  ghost predicate SinElDe(r: C.Redis, r': C.Redis, s: C.Slot) {
    && r'.items == (map id | id in r.items && !(s in r.indice && r.indice[s] == id) :: r.items[id])
    && r'.indice == C.Quitar(r.indice, s) && r'.exitosos == r.exitosos && r'.fallidos == r.fallidos
    && r'.pendientes == r.pendientes - (if s in r.indice then {r.indice[s]} else {})
  }

  /** Whether the case was free and what the SFC answered decide the call and the reply. */
  predicate RespuestaSegun(r: Http, llamada: bool, libre: bool, sfc: RespuestaSfc, ent: Entorno) {
    && (llamada <==> libre)
    && (r.Ok200? <==> libre && sfc.Acepta?) && (r.Ok200? ==> sfc == Acepta(r.resp))
    && (r.Error400? <==> libre && sfc.Rechaza?)
    && (r.Encolado202? <==> (!libre || sfc.Transitoria?) && ent.encola && ent.registraEncolado)
    && (r.Error503? <==> (!libre || sfc.Transitoria?) && !(ent.encola && ent.registraEncolado))
  }

  /** And the reply tells what the request left: records of other keys are never touched. */
  ghost predicate AlmacenSegun(c: C.Config, antes: C.Redis, q: C.Redis, sc: string, payload: Queja, r: Http,
                               ent: Entorno)
  {
    var clave := C.ClaveIdem(sc, c.operacion(payload), c.hash(payload));
    var s := C.Slot(sc, clave.operacion);
    && OtrosRegistros(antes.idem, q.idem, clave)
    && (r.Ok200? ==> clave in q.idem
                     && q.idem[clave] == if ent.persisteExito then C.Completed(r.resp) else C.Processing)
    && (r.Ok200? && ent.cancela ==> s !in q.indice && SinElDe(antes, q, s))
    && (r.Ok200? && !ent.cancela ==> q == antes.(idem := q.idem))
    && (r.Encolado202? ==> Encolada(q, s, payload, clave.hash) && clave in q.idem
                           && q.idem[clave] == C.Queued(q.indice[s]) && r.duplicado == C.Ocupado(antes, s))
    && (r.Error400? || r.Error503? ==> clave !in q.idem)
    && (r.Error503? && ent.encola ==> Encolada(q, s, payload, clave.hash))
    && (r.Error400? || (r.Error503? && !ent.encola) ==> q == antes.(idem := q.idem))
  }

  /** The scripts run after the SFC accepted, one after another. */
  function TrasAceptar(q: C.Redis, clave: C.ClaveIdem, resp: Option<string>, ent: Entorno): C.Redis {
    var q1 := if ent.persisteExito then q.(idem := q.idem[clave := C.Completed(resp)]) else q;
    var leido := C.LeerPendiente(q1, C.Slot(clave.smartCode, clave.operacion));
    if ent.cancela && leido.Some?
    then C.Cancelar(q1, C.Slot(clave.smartCode, clave.operacion), leido.value.id, leido.value.payloadHash).0 else q1
  }

  /** The scripts run to enqueue, and the release if they did not both get through. */
  function TrasEncolar(c: C.Config, q: C.Redis, sc: string, payload: Queja, error: string, ahora: Instante,
                       ent: Entorno): C.Redis
  {
    var clave := C.ClaveIdem(sc, c.operacion(payload), c.hash(payload));
    if !ent.encola then q.(idem := C.Quitar(q.idem, clave)) else
    var (q1, it) := C.Encolar(q, C.ArgsDeEncolar(c, sc, payload, error, ahora));
    if ent.registraEncolado then q1.(idem := q1.idem[clave := C.Queued(it.id)])
    else q1.(idem := C.Quitar(q1.idem, clave))
  }

  const OCUPADO := "CONCURRENT_DISPATCH_LOCKED"

  /** All scripts of a request that got past verification, in order. */
  function TrasDespacho(c: C.Config, q: C.Redis, sc: string, payload: Queja, libre: bool, sfc: RespuestaSfc,
                        ent: Entorno, ahora: Instante): C.Redis
  {
    var clave := C.ClaveIdem(sc, c.operacion(payload), c.hash(payload));
    var q1 := q.(idem := q.idem[clave := C.Processing]);
    if !libre then TrasEncolar(c, q1, sc, payload, OCUPADO, ahora, ent)
    else match sfc
      case Acepta(resp) => TrasAceptar(q1, clave, resp, ent)
      case Transitoria(detalle) => TrasEncolar(c, q1, sc, payload, detalle, ahora, ent)
      case Rechaza => q1.(idem := C.Quitar(q1.idem, clave))
  }

  lemma AceptarDeja(c: C.Config, q: C.Redis, clave: C.ClaveIdem, resp: Option<string>, ent: Entorno)
    requires Inv(c, q)
    ensures var q' := TrasAceptar(q, clave, resp, ent);
            var s := C.Slot(clave.smartCode, clave.operacion);
            && q'.idem == (if ent.persisteExito then q.idem[clave := C.Completed(resp)] else q.idem)
            && (ent.cancela ==> s !in q'.indice && SinElDe(q, q', s))
            && (!ent.cancela ==> q' == q.(idem := q'.idem))
  {
    var s := C.Slot(clave.smartCode, clave.operacion);
    assert SlotOk(q, s);
    OcupadoSiiPendiente(c, q, s);
    assert s in q.indice ==> IdOk(c, q, q.indice[s]);
  }

  lemma EncolarDejaTodo(c: C.Config, q: C.Redis, sc: string, payload: Queja, error: string, ahora: Instante,
                        ent: Entorno)
    requires Inv(c, q)
    ensures var q' := TrasEncolar(c, q, sc, payload, error, ahora, ent);
            var clave := C.ClaveIdem(sc, c.operacion(payload), c.hash(payload));
            var s := C.Slot(sc, clave.operacion);
            && OtrosRegistros(q.idem, q'.idem, clave)
            && (ent.encola ==> Encolada(q', s, payload, clave.hash))
            && (!ent.encola ==> q' == q.(idem := q'.idem))
            && (ent.encola && ent.registraEncolado ==> clave in q'.idem && q'.idem[clave] == C.Queued(q'.indice[s]))
            && (!(ent.encola && ent.registraEncolado) ==> clave !in q'.idem)
  {
    EncolarDeja(c, q, sc, payload, error, ahora);
  }

  /** What the scripts of a request leave, told of its reply. */
  lemma DespachoDeja(c: C.Config, q: C.Redis, sc: string, payload: Queja, libre: bool, sfc: RespuestaSfc, ent: Entorno,
                     ahora: Instante, r: Http)
    requires Inv(c, q) && RespuestaSegun(r, libre, libre, sfc, ent)
    requires r.Encolado202? ==> r.duplicado == C.Ocupado(q, C.Slot(sc, c.operacion(payload)))
    ensures AlmacenSegun(c, q, TrasDespacho(c, q, sc, payload, libre, sfc, ent, ahora), sc, payload, r, ent)
  {
    var clave := C.ClaveIdem(sc, c.operacion(payload), c.hash(payload));
    var q1 := q.(idem := q.idem[clave := C.Processing]);
    SoloRegistrosConserva(c, q, q1.idem);
    if libre && sfc.Acepta? {
      AceptarDeja(c, q1, clave, sfc.resp, ent);
    } else if !(libre && sfc.Rechaza?) {
      EncolarDejaTodo(c, q1, sc, payload, if libre then sfc.detalle else OCUPADO, ahora, ent);
    }
  }

  class DespachoQueja {
    const store: QueueStore
    const idem: IdempotencyService

    ghost predicate Valid()
      reads this, store
    {
      idem.store == store && store.Valid()
    }

    constructor (store: QueueStore)
      requires store.Valid()
      ensures Valid() && this.store == store
    {
      this.store := store;
      var servicio := new IdempotencyService(store);
      this.idem := servicio;
    }

    /** `_encolar_despacho_por_contingencia`: 202 only if both the item and its QUEUED record were written. */
    method EncolarPorContingencia(sc: string, payload: Queja, clave: C.ClaveIdem, error: string, ent: Entorno,
                                  ahora: Instante) returns (r: Http, encolada: bool)
      requires Valid() && clave == C.ClaveIdem(sc, store.c.operacion(payload), store.c.hash(payload))
      modifies store
      ensures Valid()
      ensures encolada <==> ent.encola && ent.registraEncolado
      ensures r == if encolada then Encolado202(C.Ocupado(old(store.Estado()), C.Slot(sc, store.c.operacion(payload))))
                   else Error503
      ensures ent.encola ==> Encolada(store.Estado(), C.Slot(sc, clave.operacion), payload, clave.hash)
      ensures encolada ==> clave in store.idem
                           && store.idem[clave] == C.Queued(store.indice[C.Slot(sc, clave.operacion)])
      ensures !ent.encola ==> store.Estado() == old(store.Estado())
      ensures ent.encola ==>
                var q := C.Encolar(old(store.Estado()), C.ArgsDeEncolar(store.c, sc, payload, error, ahora)).0;
                store.Estado() == q.(idem := store.idem)
      ensures store.Estado().(idem := if encolada then store.idem else C.Quitar(store.idem, clave))
              == TrasEncolar(store.c, old(store.Estado()), sc, payload, error, ahora, ent)
      ensures forall k :: k != clave ==> (k in store.idem <==> k in old(store.idem))
                                         && (k in store.idem ==> store.idem[k] == old(store.idem)[k])
    {
      if !ent.encola {
        return Error503, false;
      }
      EncolarDeja(store.c, store.Estado(), sc, payload, error, ahora);
      var it, nuevo, previos := store.EncolarDespacho(sc, payload, error, ahora);
      if !ent.registraEncolado {
        return Error503, false;
      }
      idem.Registrar(clave, C.Queued(it.id));
      return Encolado202(it.esDuplicado), true;
    }

    /** After the SFC accepted: COMPLETED, if that write gets through, and whatever waits in the slot is cancelled. */
    method CerrarConExito(sc: string, payload: Queja, clave: C.ClaveIdem, resp: Option<string>, ent: Entorno)
      requires Valid() && clave == C.ClaveIdem(sc, store.c.operacion(payload), store.c.hash(payload))
      modifies store
      ensures Valid()
      ensures store.Estado() == TrasAceptar(old(store.Estado()), clave, resp, ent)
    {
      var s := C.Slot(sc, clave.operacion);
      if ent.persisteExito {
        idem.Registrar(clave, C.Completed(resp));
      }
      OcupadoSiiPendiente(store.c, store.Estado(), s);
      if ent.cancela {
        assert C.Ocupado(store.Estado(), s) ==> IdOk(store.c, store.Estado(), store.indice[s]);
        var cancelado := store.CancelarPendiente(sc, clave.operacion);
      }
    }

    /**
     * `despachar_queja_crm` from verification to its `finally`. What is done, in process or still waiting is answered
     * without touching anything; the SFC is called exactly for the rest, once the case is free. A 200 means the SFC
     * accepted and nothing of this obligation is left in the queue; a 202 that the content waits in its own slot under
     * a QUEUED record; an error that no record of the request is left. The lock is always given back.
     */
    method Despachar(sc: string, payload: Queja, lock: RedisLock, sfc: RespuestaSfc, ent: Entorno, t: Instante,
                     tFin: Instante, ahora: Instante) returns (r: Http, ghost llamada: bool)
      requires Valid() && !lock.acquired
      modifies store, lock, lock.clave
      ensures Valid() && !lock.acquired
      ensures var clave := C.ClaveIdem(sc, store.c.operacion(payload), store.c.hash(payload));
              && (!r.Hit? <==> SinDueno(old(store.Estado()), clave))
              && (clave in old(store.idem) ==>
                    match old(store.idem)[clave]
                    case Completed(resp) => r == Hit(YaHecha(resp))
                    case Processing => r == Hit(EnProceso)
                    case Queued(id) => SigueEsperando(old(store.Estado()), id, clave.hash) ==> r == Hit(YaEncolada))
      ensures r.Hit? ==> !llamada && store.Estado() == old(store.Estado()) && lock.clave.c == old(lock.clave.c)
      ensures var libre := ent.lock.Responde? && DuenoVivo(old(lock.clave.c), t).None?;
              && (!r.Hit? ==> RespuestaSegun(r, llamada, libre, sfc, ent))
              && (libre && !r.Hit? ==> DuenoVivo(lock.clave.c, tFin).None?)
              && (!libre ==> lock.clave.c == old(lock.clave.c))
      ensures !r.Hit? ==>
                && AlmacenSegun(store.c, old(store.Estado()), store.Estado(), sc, payload, r, ent)
                && store.Estado() == TrasDespacho(store.c, old(store.Estado()), sc, payload, llamada, sfc, ent, ahora)
    {
      var clave := C.ClaveIdem(sc, store.c.operacion(payload), store.c.hash(payload));
      var v := idem.VerificarOIniciar(clave);
      llamada := false;
      if !v.Nueva? {
        return Hit(v), llamada;
      }
      ghost var medio := store.Estado();
      assert medio.(idem := medio.idem[clave := C.Processing]) == medio;
      r, llamada := DespacharNueva(sc, payload, clave, lock, sfc, ent, t, tFin, ahora);
      DespachoDeja(store.c, old(store.Estado()), sc, payload, llamada, sfc, ent, ahora, r);
    }

    /** The `try` and the `finally`, with PROCESSING written under the key. */
    method DespacharNueva(sc: string, payload: Queja, clave: C.ClaveIdem, lock: RedisLock, sfc: RespuestaSfc,
                          ent: Entorno, t: Instante, tFin: Instante, ahora: Instante)
      returns (r: Http, ghost llamada: bool)
      requires Valid() && !lock.acquired && clave == C.ClaveIdem(sc, store.c.operacion(payload), store.c.hash(payload))
      requires clave in store.idem && store.idem[clave] == C.Processing
      modifies store, lock, lock.clave
      ensures Valid() && !lock.acquired && !r.Hit?
      ensures var libre := ent.lock.Responde? && DuenoVivo(old(lock.clave.c), t).None?;
              && RespuestaSegun(r, llamada, libre, sfc, ent)
              && (libre ==> DuenoVivo(lock.clave.c, tFin).None?)
              && (!libre ==> lock.clave.c == old(lock.clave.c))
      ensures r.Encolado202? ==> r.duplicado == C.Ocupado(old(store.Estado()), C.Slot(sc, clave.operacion))
      ensures store.Estado() == TrasDespacho(store.c, old(store.Estado()), sc, payload, llamada, sfc, ent, ahora)
    {
      assert store.idem[clave := C.Processing] == store.idem;
      llamada := false;
      var exitosaOEncolada := false;
      var tomado := lock.Acquire(ent.lock, t);
      if !tomado {
        r, exitosaOEncolada := EncolarPorContingencia(sc, payload, clave, OCUPADO, ent, ahora);
      } else {
        llamada := true;
        match sfc {
          case Acepta(resp) =>
            CerrarConExito(sc, payload, clave, resp, ent);
            exitosaOEncolada := true;
            r := Ok200(resp);
          case Transitoria(detalle) =>
            r, exitosaOEncolada := EncolarPorContingencia(sc, payload, clave, detalle, ent, ahora);
          case Rechaza =>
            r := Error400;
        }
      }
      lock.Release(ent.lock, tFin);
      if !exitosaOEncolada {
        idem.Liberar(clave);
      }
    }
  }
}
