/**
 * The endpoint and the worker's turn, each run alone, are runs of the protocol: from any state of any run, the steps
 * of one request, or of one session, lead to exactly the store the methods leave, and disturb nobody else.
 */
module Refinamiento {
  import opened Comun
  import opened Clasificacion
  import opened Cola
  import opened Protocolo
  import opened Avance
  import D = Despacho
  import T = Trabajador

  // ---------------------------------------------------------------- a request seen from its own side

  /** `w` is `w0` but for request `n`, the lock it may hold, the store and the history. */
  predicate En(w0: Mundo, w: Mundo, n: nat, p: Peticion, q: Redis) {
    && w.q == q && w.pet == w0.pet[n := p] && w.ses == w0.ses
    && w.locks == if p.conLock then w0.locks[p.smartCode := DePeticion(n)] else w0.locks
  }

  predicate LockSuyo(w0: Mundo, p: Peticion) { p.conLock ==> p.smartCode !in w0.locks }

  /** The run goes on by steps that leave request `n` there. */
  ghost predicate LlegaEn(c: Config, r: Corrida, r': Corrida, w0: Mundo, n: nat, p: Peticion, q: Redis)
    requires |r.estados| == |r.pasos| + 1
  {
    Avanza(c, r, r') && En(w0, Ultimo(r'), n, p, q)
  }

  lemma Da(c: Config, r: Corrida, w0: Mundo, n: nat, t: PasoPeticion, p: Peticion, q: Redis) returns (r': Corrida)
    requires EsCorrida(c, r) && PuedePeticion(Ultimo(r), n, t) && En(w0, TrasPeticion(c, Ultimo(r), n, t), n, p, q)
    ensures LlegaEn(c, r, r', w0, n, p, q)
  {
    r' := Pide(c, r, n, t, TrasPeticion(c, Ultimo(r), n, t));
  }

  // ---------------------------------------------------------------- verification

  /** Somebody answers: the request ends with the store untouched. */
  lemma RespondidaEsCorrida(c: Config, r: Corrida, n: nat, sc: string, payload: Queja) returns (r': Corrida)
    requires EsCorrida(c, r) && n !in Ultimo(r).pet
    requires !D.SinDueno(Ultimo(r).q, ClaveIdem(sc, c.operacion(payload), c.hash(payload)))
    ensures LlegaEn(c, r, r', Ultimo(r), n, Peticion(Finalizada, sc, payload, false), Ultimo(r).q)
  {
    var w := Ultimo(r);
    D.VeredictoPorRegistro(w.q, ClaveIdem(sc, c.operacion(payload), c.hash(payload)));
    var r1 := Da(c, r, w, n, Recibe(sc, payload), Peticion(Recibida, sc, payload, false), w.q);
    r' := Da(c, r1, w, n, Verifica, Peticion(Finalizada, sc, payload, false), w.q);
  }

  /** Nobody does: the request gets past verification, over a stale QUEUED record too. */
  lemma LlegaAProceso(c: Config, r: Corrida, n: nat, sc: string, payload: Queja) returns (r': Corrida)
    requires EsCorrida(c, r) && n !in Ultimo(r).pet
    requires D.SinDueno(Ultimo(r).q, ClaveIdem(sc, c.operacion(payload), c.hash(payload)))
    ensures var clave := ClaveIdem(sc, c.operacion(payload), c.hash(payload));
            LlegaEn(c, r, r', Ultimo(r), n, Peticion(EnProceso, sc, payload, false),
                    Ultimo(r).q.(idem := Ultimo(r).q.idem[clave := Processing]))
  {
    var w := Ultimo(r);
    var clave := ClaveIdem(sc, c.operacion(payload), c.hash(payload));
    D.VeredictoPorRegistro(w.q, clave);
    var r1 := Da(c, r, w, n, Recibe(sc, payload), Peticion(Recibida, sc, payload, false), w.q);
    if clave in w.q.idem {
      var r2 := Da(c, r1, w, n, Verifica, Peticion(Huerfana, sc, payload, false), w.q);
      r' := HuerfanaDa(c, r2, w, n, Peticion(Huerfana, sc, payload, false), w.q);
    } else {
      var r2 := Da(c, r1, w, n, Verifica, Peticion(Iniciando, sc, payload, false), w.q);
      r' := InicioDa(c, r2, w, n, Peticion(Iniciando, sc, payload, false), w.q);
    }
  }

  lemma HuerfanaDa(c: Config, r: Corrida, w0: Mundo, n: nat, p: Peticion, q: Redis) returns (r': Corrida)
    requires EsCorrida(c, r) && En(w0, Ultimo(r), n, p, q) && p.fase == Huerfana
    ensures LlegaEn(c, r, r', w0, n, p.(fase := EnProceso), q.(idem := q.idem[ClaveDePet(c, p) := Processing]))
  {
    var q1 := q.(idem := Quitar(q.idem, ClaveDePet(c, p)));
    var r1 := Da(c, r, w0, n, BorraHuerfano, p.(fase := Iniciando), q1);
    assert q1.idem[ClaveDePet(c, p) := Processing] == q.idem[ClaveDePet(c, p) := Processing];
    r' := InicioDa(c, r1, w0, n, p.(fase := Iniciando), q1);
  }

  lemma InicioDa(c: Config, r: Corrida, w0: Mundo, n: nat, p: Peticion, q: Redis) returns (r': Corrida)
    requires EsCorrida(c, r) && En(w0, Ultimo(r), n, p, q) && p.fase == Iniciando && ClaveDePet(c, p) !in q.idem
    ensures LlegaEn(c, r, r', w0, n, p.(fase := EnProceso), q.(idem := q.idem[ClaveDePet(c, p) := Processing]))
  {
    r' := Da(c, r, w0, n, IniciaProcessing, p.(fase := EnProceso), q.(idem := q.idem[ClaveDePet(c, p) := Processing]));
  }

  // ---------------------------------------------------------------- the `finally`

  /** The lock is given back, and the record freed if nothing answers for the request. */
  lemma CierraDa(c: Config, r: Corrida, w0: Mundo, n: nat, p: Peticion, q: Redis) returns (r': Corrida)
    requires EsCorrida(c, r) && En(w0, Ultimo(r), n, p, q) && p.fase.Soltando? && LockSuyo(w0, p)
    ensures LlegaEn(c, r, r', w0, n, p.(fase := Finalizada, conLock := false),
                    if p.fase.liberar then q.(idem := Quitar(q.idem, ClaveDePet(c, p))) else q)
  {
    var f := if p.fase.liberar then Liberando503 else Finalizada;
    SueltaElSuyo(w0, Ultimo(r), n, p, q);
    var r1 := Da(c, r, w0, n, PetSueltaLock, p.(fase := f, conLock := false), q);
    if p.fase.liberar {
      var p1 := p.(fase := Liberando503, conLock := false);
      r' := Da(c, r1, w0, n, PetLiberaIdem, p1.(fase := Finalizada), q.(idem := Quitar(q.idem, ClaveDePet(c, p))));
    } else {
      r' := r1;
    }
  }

  lemma SueltaElSuyo(w0: Mundo, w: Mundo, n: nat, p: Peticion, q: Redis)
    requires En(w0, w, n, p, q) && p.fase.Soltando? && LockSuyo(w0, p)
    ensures var f := if p.fase.liberar then Liberando503 else Finalizada;
            En(w0, SoltarLockEn(w, n), n, p.(fase := f, conLock := false), q)
  {
    assert SoltarLockEn(w, n).locks == w0.locks;
    var f := if p.fase.liberar then Liberando503 else Finalizada;
    assert SoltarLockEn(w, n).pet == w0.pet[n := p.(fase := f, conLock := false)];
  }

  // ---------------------------------------------------------------- enqueueing

  lemma EncolaDa(c: Config, r: Corrida, w0: Mundo, n: nat, p: Peticion, q: Redis, error: string, ahora: Instante,
                 ent: D.Entorno) returns (r': Corrida)
    requires EsCorrida(c, r) && En(w0, Ultimo(r), n, p, q) && p.fase == PorEncolar && LockSuyo(w0, p)
    ensures LlegaEn(c, r, r', w0, n, p.(fase := Finalizada, conLock := false),
                    D.TrasEncolar(c, q, p.smartCode, p.payload, error, ahora, ent))
  {
    if !ent.encola {
      var r1 := Da(c, r, w0, n, PetEncolaFalla, p.(fase := Soltando(true)), q);
      r' := CierraDa(c, r1, w0, n, p.(fase := Soltando(true)), q);
    } else {
      var (q1, it) := Encolar(q, ArgsDeEncolar(c, p.smartCode, p.payload, error, ahora));
      var r1 := Da(c, r, w0, n, PetEncola(error, ahora), p.(fase := PorRegistrar(it.id)), q1);
      r' := RegistraDa(c, r1, w0, n, p.(fase := PorRegistrar(it.id)), q1, ent.registraEncolado);
    }
  }

  lemma RegistraDa(c: Config, r: Corrida, w0: Mundo, n: nat, p: Peticion, q: Redis, persistio: bool)
    returns (r': Corrida)
    requires EsCorrida(c, r) && En(w0, Ultimo(r), n, p, q) && p.fase.PorRegistrar? && LockSuyo(w0, p)
    ensures LlegaEn(c, r, r', w0, n, p.(fase := Finalizada, conLock := false),
                    q.(idem := if persistio then q.idem[ClaveDePet(c, p) := Queued(p.fase.itemId)]
                               else Quitar(q.idem, ClaveDePet(c, p))))
  {
    var q2 := if persistio then q.(idem := q.idem[ClaveDePet(c, p) := Queued(p.fase.itemId)]) else q;
    var r2 := Da(c, r, w0, n, RegistraEncolado(persistio), p.(fase := Soltando(!persistio)), q2);
    r' := CierraDa(c, r2, w0, n, p.(fase := Soltando(!persistio)), q2);
  }

  // ---------------------------------------------------------------- after the SFC accepted

  lemma AceptaDa(c: Config, r: Corrida, w0: Mundo, n: nat, p: Peticion, q: Redis, resp: Option<string>, ent: D.Entorno)
    returns (r': Corrida)
    requires EsCorrida(c, r) && En(w0, Ultimo(r), n, p, q) && p.fase == EnVuelo && LockSuyo(w0, p)
    ensures LlegaEn(c, r, r', w0, n, p.(fase := Finalizada, conLock := false),
                    D.TrasAceptar(q, ClaveDePet(c, p), resp, ent))
  {
    var q1 := if ent.persisteExito then q.(idem := q.idem[ClaveDePet(c, p) := Completed(resp)]) else q;
    var r2 := ExitoDa(c, r, w0, n, p, q, resp, ent.persisteExito);
    if !ent.cancela {
      var r3 := Da(c, r2, w0, n, PetNoCancela, p.(fase := Soltando(false)), q1);
      r' := CierraDa(c, r3, w0, n, p.(fase := Soltando(false)), q1);
    } else {
      r' := CancelaDa(c, r2, w0, n, p.(fase := Registrada), q1);
    }
  }

  lemma ExitoDa(c: Config, r: Corrida, w0: Mundo, n: nat, p: Peticion, q: Redis, resp: Option<string>, persistio: bool)
    returns (r': Corrida)
    requires EsCorrida(c, r) && En(w0, Ultimo(r), n, p, q) && p.fase == EnVuelo
    ensures LlegaEn(c, r, r', w0, n, p.(fase := Registrada),
                    if persistio then q.(idem := q.idem[ClaveDePet(c, p) := Completed(resp)]) else q)
  {
    var r1 := Da(c, r, w0, n, PetAceptada(resp), p.(fase := Aceptada(resp)), q);
    var q1 := if persistio then q.(idem := q.idem[ClaveDePet(c, p) := Completed(resp)]) else q;
    r' := Da(c, r1, w0, n, RegistraExito(persistio), p.(fase := Registrada), q1);
  }

  lemma CancelaDa(c: Config, r: Corrida, w0: Mundo, n: nat, p: Peticion, q: Redis) returns (r': Corrida)
    requires EsCorrida(c, r) && En(w0, Ultimo(r), n, p, q) && p.fase == Registrada && LockSuyo(w0, p)
    ensures var leido := LeerPendiente(q, RanuraDePet(c, p));
            LlegaEn(c, r, r', w0, n, p.(fase := Finalizada, conLock := false),
                    if leido.Some? then Cancelar(q, RanuraDePet(c, p), leido.value.id, leido.value.payloadHash).0
                    else q)
  {
    var leido := LeerPendiente(q, RanuraDePet(c, p));
    if leido.None? {
      var r1 := Da(c, r, w0, n, LeeCancelable, p.(fase := Soltando(false)), q);
      r' := CierraDa(c, r1, w0, n, p.(fase := Soltando(false)), q);
    } else {
      var p1 := p.(fase := Cancelando(leido.value.id, leido.value.payloadHash));
      var r1 := Da(c, r, w0, n, LeeCancelable, p1, q);
      r' := BorraLeidoDa(c, r1, w0, n, p1, q);
    }
  }

  lemma BorraLeidoDa(c: Config, r: Corrida, w0: Mundo, n: nat, p: Peticion, q: Redis) returns (r': Corrida)
    requires EsCorrida(c, r) && En(w0, Ultimo(r), n, p, q) && p.fase.Cancelando? && LockSuyo(w0, p)
    ensures LlegaEn(c, r, r', w0, n, p.(fase := Finalizada, conLock := false),
                    Cancelar(q, RanuraDePet(c, p), p.fase.id, p.fase.hash).0)
  {
    var q2 := Cancelar(q, RanuraDePet(c, p), p.fase.id, p.fase.hash).0;
    CancelarVisto(c, w0, Ultimo(r), n, p, q);
    var r2 := Da(c, r, w0, n, Cancela, p.(fase := Soltando(false)), q2);
    r' := CierraDa(c, r2, w0, n, p.(fase := Soltando(false)), q2);
  }

  lemma CancelarVisto(c: Config, w0: Mundo, w: Mundo, n: nat, p: Peticion, q: Redis)
    requires En(w0, w, n, p, q) && p.fase.Cancelando?
    ensures En(w0, CancelarEn(c, w, n), n, p.(fase := Soltando(false)),
               Cancelar(q, RanuraDePet(c, p), p.fase.id, p.fase.hash).0)
  {
  }

  // ---------------------------------------------------------------- the whole request

  /** Redis answers and the case is free, or it does not answer, or the case is busy: what the lock can say. */
  predicate LockDice(w: Mundo, sc: string, libre: bool, ent: D.Entorno) {
    (libre ==> sc !in w.locks) && (!libre && ent.lock.Responde? ==> sc in w.locks)
  }

  /**
   * The endpoint run alone is a run of the protocol: from any state of any run where nobody answers for the request,
   * its steps lead to exactly the store the method leaves, with the locks and everybody else as they were.
   */
  lemma DespachoEsCorrida(c: Config, r: Corrida, n: nat, sc: string, payload: Queja, libre: bool, sfc: D.RespuestaSfc,
                          ent: D.Entorno, ahora: Instante) returns (r': Corrida)
    requires EsCorrida(c, r) && n !in Ultimo(r).pet && LockDice(Ultimo(r), sc, libre, ent)
    requires D.SinDueno(Ultimo(r).q, ClaveIdem(sc, c.operacion(payload), c.hash(payload)))
    ensures LlegaEn(c, r, r', Ultimo(r), n, Peticion(Finalizada, sc, payload, false),
                    D.TrasDespacho(c, Ultimo(r).q, sc, payload, libre, sfc, ent, ahora))
  {
    var w := Ultimo(r);
    var p := Peticion(EnProceso, sc, payload, false);
    var q := w.q.(idem := w.q.idem[ClaveDePet(c, p) := Processing]);
    var r1 := LlegaAProceso(c, r, n, sc, payload);
    if libre {
      var r2 := Da(c, r1, w, n, PideLock, p.(fase := EnVuelo, conLock := true), q);
      r' := LibreDa(c, r2, w, n, p.(fase := EnVuelo, conLock := true), q, sfc, ent, ahora);
    } else {
      var t := if ent.lock.Responde? then PideLock else PideLockFalla;
      var r2 := Da(c, r1, w, n, t, p.(fase := PorEncolar), q);
      r' := EncolaDa(c, r2, w, n, p.(fase := PorEncolar), q, D.OCUPADO, ahora, ent);
    }
  }

  lemma LibreDa(c: Config, r: Corrida, w0: Mundo, n: nat, p: Peticion, q: Redis, sfc: D.RespuestaSfc, ent: D.Entorno,
                ahora: Instante) returns (r': Corrida)
    requires EsCorrida(c, r) && En(w0, Ultimo(r), n, p, q) && p.fase == EnVuelo && LockSuyo(w0, p)
    ensures LlegaEn(c, r, r', w0, n, p.(fase := Finalizada, conLock := false),
                    match sfc
                    case Acepta(resp) => D.TrasAceptar(q, ClaveDePet(c, p), resp, ent)
                    case Transitoria(detalle) => D.TrasEncolar(c, q, p.smartCode, p.payload, detalle, ahora, ent)
                    case Rechaza => q.(idem := Quitar(q.idem, ClaveDePet(c, p))))
  {
    match sfc
    case Acepta(resp) => r' := AceptaDa(c, r, w0, n, p, q, resp, ent);
    case Transitoria(detalle) =>
      var r1 := Da(c, r, w0, n, PetTransitoria, p.(fase := PorEncolar), q);
      r' := EncolaDa(c, r1, w0, n, p.(fase := PorEncolar), q, detalle, ahora, ent);
    case Rechaza =>
      var r1 := Da(c, r, w0, n, PetRechazada, p.(fase := Soltando(true)), q);
      r' := CierraDa(c, r1, w0, n, p.(fase := Soltando(true)), q);
  }

  // ---------------------------------------------------------------- a session seen from its own side

  /** `w` is `w0` but for session `k`, the lock it may hold, the store and the history. */
  predicate EnSesion(w0: Mundo, w: Mundo, k: Clave, s: Sesion, q: Redis) {
    && w.q == q && w.ses == w0.ses[k := s] && w.pet == w0.pet
    && w.locks == if FaseConLock(s.fase) then w0.locks[s.copia.smartCode := DeWorker(k)] else w0.locks
  }

  ghost predicate LlegaSesion(c: Config, r: Corrida, r': Corrida, w0: Mundo, k: Clave, s: Sesion, q: Redis)
    requires |r.estados| == |r.pasos| + 1
  {
    Avanza(c, r, r') && EnSesion(w0, Ultimo(r'), k, s, q)
  }

  lemma Hace(c: Config, r: Corrida, w0: Mundo, k: Clave, p: PasoSesion, s: Sesion, q: Redis) returns (r': Corrida)
    requires EsCorrida(c, r) && PuedeSesion(Ultimo(r), k, p) && EnSesion(w0, TrasSesion(c, Ultimo(r), k, p), k, s, q)
    ensures LlegaSesion(c, r, r', w0, k, s, q)
  {
    r' := Trabaja(c, r, k, p, TrasSesion(c, Ultimo(r), k, p));
  }

  /** The session is over, its lock given back. */
  lemma CierraHace(c: Config, r: Corrida, w0: Mundo, k: Clave, s: Sesion, q: Redis) returns (r': Corrida)
    requires EsCorrida(c, r) && EnSesion(w0, Ultimo(r), k, s, q) && s.fase == Terminando
    requires s.copia.smartCode !in w0.locks
    ensures LlegaSesion(c, r, r', w0, k, s.(fase := Cerrado), q)
  {
    assert SoltarLock(Ultimo(r), s.copia.smartCode, DeWorker(k)).locks == w0.locks;
    r' := Hace(c, r, w0, k, SueltaLock, s.(fase := Cerrado), q);
  }

  /** A failure, the release of the record after the last one, and the end. */
  lemma FallaHace(c: Config, r: Corrida, w0: Mundo, k: Clave, s: Sesion, q: Redis, error: string, consumir: bool,
                  ahora: Instante) returns (r': Corrida)
    requires EsCorrida(c, r) && EnSesion(w0, Ultimo(r), k, s, q)
    requires s.fase in EN_CURSO && (!consumir ==> s.fase.SfcHecho?)
    requires s.copia.smartCode !in w0.locks && s.copia.id == k.id && s.copia.maxIntentos >= 2
    ensures LlegaSesion(c, r, r', w0, k, s.(fase := Cerrado),
                        T.TrasFallo(c, q, s.copia, k.worker, error, consumir, ahora))
  {
    var a := ArgsDeFallo(c, s.copia, error, consumir, ahora);
    var (q1, res) := RegistrarFallo(q, k.id, k.worker, s.copia.version, a);
    var fin := res.Aplicado? && a.definitivo;
    FallarVisto(c, w0, Ultimo(r), k, s, q, error, consumir, ahora);
    var r1 := Hace(c, r, w0, k, Falla(error, consumir, ahora), s.(fase := if fin then Liberando else Terminando), q1);
    if fin {
      r' := LiberaHace(c, r1, w0, k, s.(fase := Liberando), q1);
    } else {
      r' := CierraHace(c, r1, w0, k, s.(fase := Terminando), q1);
    }
  }

  lemma FallarVisto(c: Config, w0: Mundo, w: Mundo, k: Clave, s: Sesion, q: Redis, error: string, consumir: bool,
                    ahora: Instante)
    requires EnSesion(w0, w, k, s, q) && FaseConLock(s.fase)
    ensures var a := ArgsDeFallo(c, s.copia, error, consumir, ahora);
            var (q1, res) := RegistrarFallo(q, k.id, k.worker, s.copia.version, a);
            var f := if res.Aplicado? && a.definitivo then Liberando else Terminando;
            EnSesion(w0, FallarEn(c, w, k, error, consumir, ahora), k, s.(fase := f), q1)
  {
  }

  lemma LiberaHace(c: Config, r: Corrida, w0: Mundo, k: Clave, s: Sesion, q: Redis) returns (r': Corrida)
    requires EsCorrida(c, r) && EnSesion(w0, Ultimo(r), k, s, q) && s.fase == Liberando
    requires s.copia.smartCode !in w0.locks
    ensures LlegaSesion(c, r, r', w0, k, s.(fase := Cerrado), q.(idem := Quitar(q.idem, ClaveDe(s.copia))))
  {
    var q2 := q.(idem := Quitar(q.idem, ClaveDe(s.copia)));
    var r2 := Hace(c, r, w0, k, LiberaIdem, s.(fase := Terminando), q2);
    r' := CierraHace(c, r2, w0, k, s.(fase := Terminando), q2);
  }

  lemma DesisteHace(c: Config, r: Corrida, w0: Mundo, k: Clave, s: Sesion, q: Redis) returns (r': Corrida)
    requires EsCorrida(c, r) && EnSesion(w0, Ultimo(r), k, s, q) && s.fase in EN_CURSO
    requires s.copia.smartCode !in w0.locks
    ensures LlegaSesion(c, r, r', w0, k, s.(fase := Cerrado), q)
  {
    var r1 := Hace(c, r, w0, k, Desiste, s.(fase := Terminando), q);
    r' := CierraHace(c, r1, w0, k, s.(fase := Terminando), q);
  }

  lemma ExitoHace(c: Config, r: Corrida, w0: Mundo, k: Clave, s: Sesion, q: Redis, ahora: Instante)
    returns (r': Corrida)
    requires EsCorrida(c, r) && EnSesion(w0, Ultimo(r), k, s, q) && s.fase == Notificado
    requires s.copia.smartCode !in w0.locks
    ensures LlegaSesion(c, r, r', w0, k, s.(fase := Cerrado),
                        MarcarExitoso(q, k.id, k.worker, s.copia.version, ahora).0)
  {
    var q2 := MarcarExitoso(q, k.id, k.worker, s.copia.version, ahora).0;
    var r2 := Hace(c, r, w0, k, MarcaExito(ahora), s.(fase := Terminando), q2);
    r' := CierraHace(c, r2, w0, k, s.(fase := Terminando), q2);
  }

  /** The second step: webhook, then success or failure. */
  lemma CrmHace(c: Config, r: Corrida, w0: Mundo, k: Clave, s: Sesion, q: Redis, x: T.Externo, ahora: Instante)
    returns (r': Corrida)
    requires EsCorrida(c, r) && EnSesion(w0, Ultimo(r), k, s, q) && s.fase == SfcHecho
    requires s.copia.smartCode !in w0.locks && s.copia.id == k.id && s.copia.maxIntentos >= 2
    ensures LlegaSesion(c, r, r', w0, k, s.(fase := Cerrado), T.TrasPasoCrm(c, q, s.copia, k.worker, x, ahora))
  {
    match x.crm
    case CrmFalla(error, infra) => r' := FallaHace(c, r, w0, k, s, q, error, !infra, ahora);
    case CrmConfirma =>
      var r1 := Hace(c, r, w0, k, CrmConfirma, s.(fase := Notificado), q);
      if x.persisteExito {
        r' := ExitoHace(c, r1, w0, k, s.(fase := Notificado), q, ahora);
      } else {
        r' := DesisteHace(c, r1, w0, k, s.(fase := Notificado), q);
      }
  }

  /** SFC_DONE is durable: the session still owns the item at the version it claimed. */
  lemma SfcHace(c: Config, r: Corrida, w0: Mundo, k: Clave, s: Sesion, q: Redis, cuerpo: string, ahora: Instante)
    returns (r': Corrida)
    requires EsCorrida(c, r) && EnSesion(w0, Ultimo(r), k, s, q) && s.fase == Aceptado && s.resp == Some(cuerpo)
    requires Cerca(q, k.id, k.worker, s.copia.version).Aplicado?
    ensures LlegaSesion(c, r, r', w0, k, s.(fase := SfcHecho),
                        MarcarSfcCompletado(q, k.id, k.worker, s.copia.version, ClaveDe(s.copia), Some(cuerpo),
                                            ahora).0)
  {
    var q1 := MarcarSfcCompletado(q, k.id, k.worker, s.copia.version, ClaveDe(s.copia), Some(cuerpo), ahora).0;
    r' := Hace(c, r, w0, k, MarcaSfc(ahora), s.(fase := SfcHecho), q1);
  }

  /** From the claim to the end of the session. */
  lemma PasosHacen(c: Config, r: Corrida, w0: Mundo, k: Clave, s: Sesion, q: Redis, x: T.Externo, ahora: Instante)
    returns (r': Corrida, s': Sesion)
    requires EsCorrida(c, r) && EnSesion(w0, Ultimo(r), k, s, q) && s.fase == Reclamado
    requires s.copia.smartCode !in w0.locks && s.copia.id == k.id && s.copia.maxIntentos >= 2
    requires Cerca(q, k.id, k.worker, s.copia.version).Aplicado?
    ensures LlegaSesion(c, r, r', w0, k, s', T.TrasPasos(c, q, s.copia, k.worker, x, ahora))
    ensures s' == s.(fase := Cerrado, resp := s'.resp)
  {
    if s.copia.sfcCompletado {
      var r1 := Hace(c, r, w0, k, SaltaSfc, s.(fase := SfcHecho), q);
      r' := CrmHace(c, r1, w0, k, s.(fase := SfcHecho), q, x, ahora);
      s' := s.(fase := Cerrado);
    } else {
      var r1 := Hace(c, r, w0, k, Llama, s.(fase := Llamando), q);
      r', s' := EnviadoHace(c, r1, w0, k, s.(fase := Llamando), q, x, ahora);
    }
  }

  lemma EnviadoHace(c: Config, r: Corrida, w0: Mundo, k: Clave, s: Sesion, q: Redis, x: T.Externo, ahora: Instante)
    returns (r': Corrida, s': Sesion)
    requires EsCorrida(c, r) && EnSesion(w0, Ultimo(r), k, s, q) && s.fase == Llamando && !s.copia.sfcCompletado
    requires s.copia.smartCode !in w0.locks && s.copia.id == k.id && s.copia.maxIntentos >= 2
    requires Cerca(q, k.id, k.worker, s.copia.version).Aplicado?
    ensures LlegaSesion(c, r, r', w0, k, s', T.TrasPasos(c, q, s.copia, k.worker, x, ahora))
    ensures s' == s.(fase := Cerrado, resp := s'.resp)
  {
    match x.sfc
    case SfcError(error, infra) =>
      r' := FallaHace(c, r, w0, k, s, q, error, true, ahora);
      s' := s.(fase := Cerrado);
    case SfcAcepta(cuerpo) =>
      var s1 := s.(fase := Aceptado, resp := Some(cuerpo));
      var r1 := Hace(c, r, w0, k, SfcAcepta(cuerpo), s1, q);
      s' := s1.(fase := Cerrado);
      if x.persisteSfc {
        var q1 := MarcarSfcCompletado(q, k.id, k.worker, s.copia.version, ClaveDe(s.copia), Some(cuerpo), ahora).0;
        var r2 := SfcHace(c, r1, w0, k, s1, q, cuerpo, ahora);
        r' := CrmHace(c, r2, w0, k, s1.(fase := SfcHecho), q1, x, ahora);
      } else {
        r' := DesisteHace(c, r1, w0, k, s1, q);
      }
  }

  /**
   * The worker's turn run alone is a run of the protocol: from any state of any run where the item can be claimed and
   * its case is free, the steps of a new session lead to exactly the store the method leaves.
   */
  lemma TurnoEsCorrida(c: Config, r: Corrida, k: Clave, x: T.Externo, ahora: Instante) returns (r': Corrida, s: Sesion)
    requires EsCorrida(c, r) && k !in Ultimo(r).ses && Reclamable(Ultimo(r).q, k.id)
    requires Ultimo(r).q.items[k.id].smartCode !in Ultimo(r).locks
    requires Ultimo(r).q.items[k.id].id == k.id && Ultimo(r).q.items[k.id].maxIntentos >= 2
    ensures LlegaSesion(c, r, r', Ultimo(r), k, s, T.TrasTurno(c, Ultimo(r).q, k.id, k.worker, x, ahora))
    ensures s.fase == Cerrado
  {
    var w := Ultimo(r);
    var it := w.q.items[k.id];
    var r1 := Hace(c, r, w, k, Lista, Sesion(Listado, it, false, 0, None), w.q);
    var r2 := Hace(c, r1, w, k, TomaLock, Sesion(ConLock, it, false, 0, None), w.q);
    r', s := ReclamaHace(c, r2, w, k, Sesion(ConLock, it, false, 0, None), w.q, x, ahora);
  }

  lemma ReclamaHace(c: Config, r: Corrida, w0: Mundo, k: Clave, s: Sesion, q: Redis, x: T.Externo, ahora: Instante)
    returns (r': Corrida, s': Sesion)
    requires EsCorrida(c, r) && EnSesion(w0, Ultimo(r), k, s, q) && s.fase == ConLock && Reclamable(q, k.id)
    requires s.copia == q.items[k.id] && s.copia.smartCode !in w0.locks
    requires s.copia.id == k.id && s.copia.maxIntentos >= 2
    ensures LlegaSesion(c, r, r', w0, k, s', T.TrasTurno(c, q, k.id, k.worker, x, ahora)) && s'.fase == Cerrado
  {
    var (q1, copia) := Reclamar(q, k.id, k.worker);
    var s1 := Sesion(Reclamado, copia.value, true, TicketVigente(Ultimo(r), k.id), None);
    var r1 := Hace(c, r, w0, k, Reclama, s1, q1);
    r', s' := PasosHacen(c, r1, w0, k, s1, q1, x, ahora);
  }
}
