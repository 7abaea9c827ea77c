/** What holds in every state of every run of the protocol. */
module ProtocoloTeoremas {
  import opened Comun
  import opened Cola
  import opened ColaInvariantes
  import opened Protocolo
  import opened ProtocoloInvariante
  import opened ProtocoloPasos
  import opened ProtocoloTransiciones

  // ---------------------------------------------------------------- runs

  lemma {:induction false} CorridaConserva(c: Config, r: Corrida, i: nat)
    requires c.maxIntentos >= 2 && EsCorrida(c, r) && i < |r.estados|
    ensures InvM(c, r.estados[i])
  {
    if i == 0 {
      InicialInvM(c);
    } else {
      CorridaConserva(c, r, i - 1);
      PasoConserva(c, r.estados[i - 1], r.pasos[i - 1]);
    }
  }

  lemma {:induction false} CorridaSigue(c: Config, r: Corrida, i: nat, j: nat)
    requires c.maxIntentos >= 2 && EsCorrida(c, r) && i <= j < |r.estados|
    ensures Sigue(r.estados[i], r.estados[j])
    decreases j
  {
    if i == j {
      var w := r.estados[i];
      forall id: nat ensures Evoluciona(w, w, id) {}
    } else {
      CorridaSigue(c, r, i, j - 1);
      CorridaConserva(c, r, j - 1);
      PasoConserva(c, r.estados[j - 1], r.pasos[j - 1]);
      SigueTransitiva(r.estados[i], r.estados[j - 1], r.estados[j]);
    }
  }

  // ---------------------------------------------------------------- state of the store

  /** The three status sets partition the items, and `estado` tells which one. */
  lemma EstadosParticionan(c: Config, r: Corrida, i: nat)
    requires c.maxIntentos >= 2 && EsCorrida(c, r) && i < |r.estados|
    ensures var q := r.estados[i].q;
            && q.items.Keys == q.pendientes + q.exitosos + q.fallidos == q.creadosZ.Keys
            && q.pendientes !! q.exitosos !! q.fallidos
            && (forall id :: id in q.items && q.items[id].estado in {PROCESSING, SFC_DONE} ==> id in q.pendientes)
            && (forall id :: id in q.claims && id in q.items ==> id in q.pendientes)
  {
    CorridaConserva(c, r, i);
    var q := r.estados[i].q;
    forall id: nat
      ensures id in q.items <==> id in q.pendientes + q.exitosos + q.fallidos
      ensures id in q.items <==> id in q.creadosZ
      ensures (id in q.pendientes ==> id !in q.exitosos + q.fallidos) && !(id in q.exitosos && id in q.fallidos)
      ensures id in q.items && (q.items[id].estado in {PROCESSING, SFC_DONE} || id in q.claims) ==> id in q.pendientes
    {
      assert IdOk(c, q, id);
    }
  }

  /** The index is a bijection: its keys are the slots of the pending items, and there is one key per item. */
  lemma SlotsBiyectivos(c: Config, r: Corrida, i: nat)
    requires c.maxIntentos >= 2 && EsCorrida(c, r) && i < |r.estados|
    ensures var q := r.estados[i].q;
            && (forall s :: s in q.indice ==> q.indice[s] in q.pendientes && q.indice[s] in q.items
                                              && q.items[q.indice[s]].Ranura() == s)
            && (forall id :: id in q.pendientes ==> id in q.items && q.items[id].Ranura() in q.indice
                                                    && q.indice[q.items[id].Ranura()] == id)
            && |q.indice.Keys| == |q.pendientes|
  {
    CorridaConserva(c, r, i);
    var q := r.estados[i].q;
    assert forall s :: s in q.indice ==> SlotOk(q, s);
    assert forall id :: id in q.pendientes ==> IdOk(c, q, id);
    forall id | id in q.pendientes ensures exists s :: s in q.indice && q.indice[s] == id {
      assert q.items[id].Ranura() in q.indice;
    }
    ImagenInyectiva(q.indice, q.pendientes);
  }

  /** Retry budget: pending items always have attempts left, failed ones used exactly all of them. */
  lemma PresupuestoExacto(c: Config, r: Corrida, i: nat)
    requires c.maxIntentos >= 2 && EsCorrida(c, r) && i < |r.estados|
    ensures var q := r.estados[i].q;
            && (forall id :: id in q.pendientes && id in q.items ==>
                  0 <= q.items[id].intentos < q.items[id].maxIntentos)
            && (forall id :: id in q.fallidos && id in q.items ==> q.items[id].intentos == q.items[id].maxIntentos)
  {
    CorridaConserva(c, r, i);
    var q := r.estados[i].q;
    assert forall id :: id in q.items ==> IdOk(c, q, id);
  }

  /** The consuming failure that the fence lets through on item `id`. */
  predicate Consume(w: Mundo, p: Paso, id: nat) {
    p.Trabajador? && p.s.Falla? && p.s.consumir && p.k.id == id && p.k in w.ses
    && Cerca(w.q, id, p.k.worker, w.ses[p.k].copia.version).Aplicado?
  }

  predicate MarcaHecho(p: Paso) { p.Trabajador? && p.s.MarcaSfc? }

  /** What a step may do to the attempts and the SFC_DONE flag of an item that survives it. */
  predicate EfectoLegal(w: Mundo, w': Mundo, p: Paso, id: nat) {
    id in w.q.items && id in w'.q.items ==>
      var antes, despues := w.q.items[id], w'.q.items[id];
      && (despues.sfcCompletado && !antes.sfcCompletado ==> MarcaHecho(p))
      && despues.maxIntentos == antes.maxIntentos
      && (despues.version == antes.version ==>
            despues.intentos == antes.intentos + (if Consume(w, p, id) then 1 else 0))
  }

  /** A new id starts unsent. */
  predicate NuevoSinEnviar(w: Mundo, w': Mundo, id: nat) {
    id in w'.q.items && id !in w.q.items ==> !w'.q.items[id].sfcCompletado
  }

  lemma EfectoDeSesion(c: Config, w: Mundo, k: Clave, s: PasoSesion, id: nat)
    requires PuedeSesion(w, k, s)
    ensures var w' := TrasSesion(c, w, k, s);
            EfectoLegal(w, w', Trabajador(k, s), id) && NuevoSinEnviar(w, w', id)
  {
    match s
    case Reclama =>
    case MarcaSfc(ahora) =>
    case MarcaExito(ahora) => EfectoDeExito(c, w, k, ahora, id);
    case Falla(error, consumir, ahora) => EfectoDeFalla(c, w, k, s, id);
    case Difiere(error, ahora, proximo) =>
    case _ => assert TrasSesion(c, w, k, s).q.items == w.q.items;
  }

  lemma EfectoDeExito(c: Config, w: Mundo, k: Clave, ahora: Instante, id: nat)
    requires k in w.ses
    ensures var w' := MarcarExitoEn(w, k, ahora);
            EfectoLegal(w, w', Trabajador(k, MarcaExito(ahora)), id) && NuevoSinEnviar(w, w', id)
  {
    assert MarcarExitoEn(w, k, ahora).q == MarcarExitoso(w.q, k.id, k.worker, w.ses[k].copia.version, ahora).0;
  }

  lemma EfectoDeFalla(c: Config, w: Mundo, k: Clave, s: PasoSesion, id: nat)
    requires k in w.ses && s.Falla?
    ensures var w' := FallarEn(c, w, k, s.error, s.consumir, s.ahora);
            EfectoLegal(w, w', Trabajador(k, s), id) && NuevoSinEnviar(w, w', id)
  {
    var a := ArgsDeFallo(c, w.ses[k].copia, s.error, s.consumir, s.ahora);
    assert FallarEn(c, w, k, s.error, s.consumir, s.ahora).q
        == RegistrarFallo(w.q, k.id, k.worker, w.ses[k].copia.version, a).0;
  }

  lemma EfectoDePeticion(c: Config, w: Mundo, n: nat, t: PasoPeticion, id: nat)
    requires PuedePeticion(w, n, t) && PetOk(c, w, n) && w.q.contador + 1 !in w.q.items
    ensures var w' := TrasPeticion(c, w, n, t);
            EfectoLegal(w, w', Solicitud(n, t), id) && NuevoSinEnviar(w, w', id)
  {
    if !EnLaCola(t) {
      PeticionMenor(c, w, n, t);
    }
  }

  lemma EfectoDeEntorno(c: Config, w: Mundo, e: PasoEntorno, id: nat)
    requires PuedeEntorno(w, e)
    ensures EfectoLegal(w, TrasEntorno(w, e), Entorno(e), id) && NuevoSinEnviar(w, TrasEntorno(w, e), id)
  {
  }

  lemma Efecto(c: Config, w: Mundo, p: Paso, id: nat)
    requires InvM(c, w) && Habilitado(w, p)
    ensures EfectoLegal(w, Aplicar(c, w, p), p, id) && NuevoSinEnviar(w, Aplicar(c, w, p), id)
  {
    match p
    case Entorno(e) => EfectoDeEntorno(c, w, e, id);
    case Trabajador(k, s) => EfectoDeSesion(c, w, k, s, id);
    case Solicitud(n, t) =>
      assert PetOk(c, w, n) && IdOk(c, w.q, w.q.contador + 1);
      EfectoDePeticion(c, w, n, t, id);
  }

  /**
   * `max_intentos - intentos` measures consuming failures: an applied one lowers it by exactly one, and no other
   * step changes it except through a new version (overwrite or replay).
   */
  lemma MedidaDeFallos(c: Config, r: Corrida, i: nat, id: nat)
    requires c.maxIntentos >= 2 && EsCorrida(c, r) && i < |r.pasos|
    requires id in r.estados[i].q.items && id in r.estados[i + 1].q.items
    requires r.estados[i + 1].q.items[id].version == r.estados[i].q.items[id].version
    ensures var antes, despues := r.estados[i].q.items[id], r.estados[i + 1].q.items[id];
            despues.maxIntentos - despues.intentos
              == antes.maxIntentos - antes.intentos - (if Consume(r.estados[i], r.pasos[i], id) then 1 else 0)
  {
    CorridaConserva(c, r, i);
    Efecto(c, r.estados[i], r.pasos[i], id);
  }

  // ---------------------------------------------------------------- fence

  /**
   * Across any two states of a run, an id and a version determine the content, versions never go back, the slot
   * never changes, and an id that existed never denotes another item.
   */
  lemma VersionDeterminaContenido(c: Config, r: Corrida, i: nat, j: nat, id: nat)
    requires c.maxIntentos >= 2 && EsCorrida(c, r) && i <= j < |r.estados|
    requires id in r.estados[j].q.items && id <= r.estados[i].q.contador
    ensures id in r.estados[i].q.items
    ensures var a, b := r.estados[i].q.items[id], r.estados[j].q.items[id];
            a.Ranura() == b.Ranura() && a.version <= b.version
            && (a.version == b.version ==> a.payload == b.payload && a.payloadHash == b.payloadHash)
  {
    CorridaSigue(c, r, i, j);
    assert Evoluciona(r.estados[i], r.estados[j], id);
  }

  /** A worker that still owns the claim at the version it claimed is looking at exactly what is stored. */
  lemma DuenoVeLoVigente(c: Config, r: Corrida, i: nat, k: Clave)
    requires c.maxIntentos >= 2 && EsCorrida(c, r) && i < |r.estados|
    requires var w := r.estados[i]; k in w.ses && w.ses[k].reclamada && EsDueno(w, k) && MismaVersion(w, k)
    ensures var w := r.estados[i];
            var it, copia := w.q.items[k.id], w.ses[k].copia;
            && k.id in w.q.pendientes && it.Ranura() == copia.Ranura()
            && it.payload == copia.payload && it.payloadHash == copia.payloadHash
            && it.intentos == copia.intentos && it.maxIntentos == copia.maxIntentos
  {
    CorridaConserva(c, r, i);
    DuenoConoce(c, r.estados[i], k);
  }

  /**
   * A session that lost its lease, or whose item was overwritten, replayed, cancelled or purged, changes
   * nothing with SFC_DONE, success or failure: at most its own stale claim goes.
   */
  lemma RezagadoNoEscribe(c: Config, w: Mundo, k: Clave, s: PasoSesion)
    requires PuedeSesion(w, k, s) && (s.MarcaSfc? || s.MarcaExito? || s.Falla?)
    requires !(EsDueno(w, k) && MismaVersion(w, k))
    ensures var w' := TrasSesion(c, w, k, s);
            && w'.q == w.q.(claims := w'.q.claims)
            && (forall id :: id in w.q.claims && Clave(w.q.claims[id], id) != k ==>
                  id in w'.q.claims && w'.q.claims[id] == w.q.claims[id])
            && MismoLibro(w, w') && w'.log == w.log && w'.aceptadas == w.aceptadas
            && w'.ses[k].fase == Terminando
  {
    assert !Cerca(w.q, k.id, k.worker, w.ses[k].copia.version).Aplicado?;
    var w' := ConFase(w.(q := Rechazar(w.q, k.id, Cerca(w.q, k.id, k.worker, w.ses[k].copia.version))), k, Terminando);
    match s {
      case MarcaSfc(ahora) => assert TrasSesion(c, w, k, s) == w';
      case MarcaExito(ahora) => assert TrasSesion(c, w, k, s) == w';
      case Falla(_, _, _) => assert TrasSesion(c, w, k, s) == w';
    }
  }

  // ---------------------------------------------------------------- what was sent and confirmed

  /** Whatever an event needed had happened at an earlier position of the log. */
  lemma EventoTuvoAntes(log: seq<Evento>, j: nat)
    requires LogOk(log) && j < |log|
    ensures EventoOk(log[..j], log[j])
  {
  }

  lemma Posicion(log: seq<Evento>, e: Evento, hasta: nat) returns (j: nat)
    requires hasta <= |log| && e in log[..hasta]
    ensures j < hasta && log[j] == e
  {
    j :| j < hasta && log[..hasta][j] == e;
  }

  lemma HechoTuvoEnvio(log: seq<Evento>, t: nat, b: nat) returns (a: nat, k: Clave)
    requires LogOk(log) && b < |log| && log[b] == Hecho(t)
    ensures a < b && log[a] == Acepto(k, t) && Llamada(k, t) in log[..a]
  {
    EventoTuvoAntes(log, b);
    k :| Acepto(k, t) in log[..b];
    a := Posicion(log, Acepto(k, t), b);
    EventoTuvoAntes(log, a);
  }

  lemma ExitoTuvoCadena(log: seq<Evento>, t: nat, e: nat) returns (a: nat, b: nat, d: nat, k1: Clave, k2: Clave)
    requires LogOk(log) && e < |log| && log[e] == Exito(t)
    ensures a < b < d < e && log[a] == Acepto(k1, t) && log[b] == Hecho(t) && log[d] == Confirmo(k2, t)
  {
    EventoTuvoAntes(log, e);
    k2 :| Confirmo(k2, t) in log[..e];
    d := Posicion(log, Confirmo(k2, t), e);
    EventoTuvoAntes(log, d);
    b := Posicion(log, Hecho(t), d);
    a, k1 := HechoTuvoEnvio(log, t, b);
  }

  /** The stored content of an item is that of its ticket. */
  predicate GuardaSuTicket(w: Mundo, id: nat) {
    id in w.q.items && id in w.ticketDe && w.ticketDe[id] < |w.tickets|
    && w.tickets[w.ticketDe[id]] == Ticket(w.q.items[id].Ranura(), w.q.items[id].payload)
  }

  lemma TicketDeItem(c: Config, w: Mundo, id: nat)
    requires InvM(c, w) && id in w.q.items
    ensures GuardaSuTicket(w, id) && LogOk(w.log)
    ensures w.q.items[id].sfcCompletado <==> Hecho(w.ticketDe[id]) in w.log
    ensures id in w.q.exitosos <==> Exito(w.ticketDe[id]) in w.log
  {
    assert LibroOk(w, id) && HechoOk(w, id) && TicketOk(w, w.ticketDe[id]);
  }

  /**
   * `sfc_completado` never lies: the content stored now is that of its ticket, some session sent it, and the SFC
   * accepted it, through any overwrite, stolen lease, replay or deferral.
   */
  lemma NuncaMarcadoSinEnviar(c: Config, r: Corrida, i: nat, id: nat) returns (k: Clave)
    requires c.maxIntentos >= 2 && EsCorrida(c, r) && i < |r.estados|
    requires id in r.estados[i].q.items && r.estados[i].q.items[id].sfcCompletado
    ensures GuardaSuTicket(r.estados[i], id)
    ensures Llamada(k, r.estados[i].ticketDe[id]) in r.estados[i].log
    ensures Acepto(k, r.estados[i].ticketDe[id]) in r.estados[i].log
  {
    CorridaConserva(c, r, i);
    var w := r.estados[i];
    TicketDeItem(c, w, id);
    var b := Posicion(w.log, Hecho(w.ticketDe[id]), |w.log|);
    var a;
    a, k := HechoTuvoEnvio(w.log, w.ticketDe[id], b);
    var d := Posicion(w.log, Llamada(k, w.ticketDe[id]), a);
  }

  lemma UnReclamoPorSesion(w: Mundo, k: Clave, t1: nat, ya1: bool, t2: nat, ya2: bool)
    requires Bitacora(w) && Reclamo(k, t1, ya1) in w.log && Reclamo(k, t2, ya2) in w.log
    ensures t1 == t2 && ya1 == ya2
  {
    assert RegOk(w, Reclamo(k, t1, ya1)) && RegOk(w, Reclamo(k, t2, ya2));
  }

  /**
   * No session that claims a ticket after the SFC_DONE of that ticket ever calls the SFC. An equal content under
   * another ticket is not covered here: see `Reenvio`.
   */
  lemma NadieReenvia(c: Config, r: Corrida, i: nat, a: nat, b: nat, k: Clave, t: nat, ya: bool)
    requires c.maxIntentos >= 2 && EsCorrida(c, r) && i < |r.estados|
    requires a < b < |r.estados[i].log|
    requires r.estados[i].log[a] == Hecho(t) && r.estados[i].log[b] == Reclamo(k, t, ya)
    ensures forall t' :: Llamada(k, t') !in r.estados[i].log
  {
    CorridaConserva(c, r, i);
    var w := r.estados[i];
    EventoTuvoAntes(w.log, b);
    assert w.log[..b][a] == Hecho(t);
    forall t' ensures Llamada(k, t') !in w.log {
      if Llamada(k, t') in w.log {
        var d := Posicion(w.log, Llamada(k, t'), |w.log|);
        EventoTuvoAntes(w.log, d);
        UnReclamoPorSesion(w, k, t, ya, t', false);
      }
    }
  }

  /**
   * Commit order: behind every item in EXITOSO stand, in this order, the SFC's acceptance of the content it holds,
   * SFC_DONE, the CRM's confirmation and the success, although MARK_SUCCESS itself checks owner and version only.
   */
  lemma OrdenDeCompromiso(c: Config, r: Corrida, i: nat, id: nat)
    returns (a: nat, b: nat, d: nat, e: nat, k1: Clave, k2: Clave)
    requires c.maxIntentos >= 2 && EsCorrida(c, r) && i < |r.estados| && id in r.estados[i].q.exitosos
    ensures GuardaSuTicket(r.estados[i], id) && r.estados[i].q.items[id].sfcCompletado
    ensures var log, t := r.estados[i].log, r.estados[i].ticketDe[id];
            a < b < d < e < |log| && log[a] == Acepto(k1, t) && log[b] == Hecho(t)
            && log[d] == Confirmo(k2, t) && log[e] == Exito(t)
  {
    CorridaConserva(c, r, i);
    var w := r.estados[i];
    assert IdOk(c, w.q, id);
    TicketDeItem(c, w, id);
    e := Posicion(w.log, Exito(w.ticketDe[id]), |w.log|);
    a, b, d, k1, k2 := ExitoTuvoCadena(w.log, w.ticketDe[id], e);
  }

  // ---------------------------------------------------------------- idempotency store

  /**
   * `sfc_completado` becomes true only in the step that writes COMPLETED under the smart code, the operation and
   * the hash of the very content stored in the item.
   */
  lemma EscrituraConjunta(c: Config, r: Corrida, i: nat, id: nat)
    requires c.maxIntentos >= 2 && EsCorrida(c, r) && i < |r.pasos|
    requires id in r.estados[i + 1].q.items && r.estados[i + 1].q.items[id].sfcCompletado
    requires id in r.estados[i].q.items ==> !r.estados[i].q.items[id].sfcCompletado
    ensures MarcaHecho(r.pasos[i]) && r.pasos[i].k.id == id && id in r.estados[i].q.items
    ensures var w, w' := r.estados[i], r.estados[i + 1];
            var it := w'.q.items[id];
            var clave := ClaveIdem(it.smartCode, c.operacion(it.payload), c.hash(it.payload));
            && it.payload == w.q.items[id].payload && clave in w.aceptadas
            && w'.q.idem == w.q.idem[clave := Completed(w.ses[r.pasos[i].k].resp)]
  {
    CorridaConserva(c, r, i);
    var w, p := r.estados[i], r.pasos[i];
    Efecto(c, w, p, id);
    AceptadaAcredita(c, w, p.k);
    MarcaSfcEscribe(c, w, p.k, p.s.ahora, id);
  }

  /** What a session whose content was accepted knows of the item it may still write. */
  predicate Acreditada(c: Config, w: Mundo, k: Clave) {
    k in w.ses
    && var copia := w.ses[k].copia;
       && Fiel(c, copia) && ClaveDe(copia) in w.aceptadas
       && (Cerca(w.q, k.id, k.worker, copia.version).Aplicado? && k.id in w.q.items ==>
             w.q.items[k.id].payload == copia.payload && w.q.items[k.id].Ranura() == copia.Ranura())
  }

  lemma AceptadaAcredita(c: Config, w: Mundo, k: Clave)
    requires InvM(c, w) && EnFase(w, k, {Aceptado})
    ensures Acreditada(c, w, k)
  {
    assert SesOk(c, w, k);
    if Cerca(w.q, k.id, k.worker, w.ses[k].copia.version).Aplicado? {
      DuenoConoce(c, w, k);
    }
  }

  lemma MarcaSfcEscribe(c: Config, w: Mundo, k: Clave, ahora: Instante, id: nat)
    requires Acreditada(c, w, k)
    requires id in w.q.items && !w.q.items[id].sfcCompletado
    requires id in MarcarSfcEn(w, k, ahora).q.items && MarcarSfcEn(w, k, ahora).q.items[id].sfcCompletado
    ensures k.id == id
    ensures var w' := MarcarSfcEn(w, k, ahora);
            var it := w'.q.items[id];
            var clave := ClaveIdem(it.smartCode, c.operacion(it.payload), c.hash(it.payload));
            && it.payload == w.q.items[id].payload && clave in w.aceptadas
            && w'.q.idem == w.q.idem[clave := Completed(w.ses[k].resp)]
  {
    assert MarcarSfcEn(w, k, ahora).q
        == MarcarSfcCompletado(w.q, k.id, k.worker, w.ses[k].copia.version, ClaveDe(w.ses[k].copia), w.ses[k].resp,
                               ahora).0;
  }

  /** In every state, stored hash and operation are those of the stored payload, and COMPLETED was accepted. */
  lemma RegistrosVeraces(c: Config, r: Corrida, i: nat)
    requires c.maxIntentos >= 2 && EsCorrida(c, r) && i < |r.estados|
    ensures var w := r.estados[i];
            && (forall id :: id in w.q.items ==> w.q.items[id].payloadHash == c.hash(w.q.items[id].payload)
                                                 && w.q.items[id].operacion == c.operacion(w.q.items[id].payload))
            && (forall clave :: clave in w.q.idem && w.q.idem[clave].Completed? ==> clave in w.aceptadas)
  {
    CorridaConserva(c, r, i);
    var w := r.estados[i];
    assert forall id :: id in w.q.items ==> IdOk(c, w.q, id);
    assert forall clave :: clave in w.q.idem ==> IdemOk(w, clave);
  }

  /** The call to the SFC that came back accepted with the content of `clave`. */
  predicate LlamadaAceptada(c: Config, w: Mundo, p: Paso, clave: ClaveIdem) {
    || (p.Trabajador? && p.s.SfcAcepta? && p.k in w.ses && ClaveDe(w.ses[p.k].copia) == clave)
    || (p.Solicitud? && p.t.PetAceptada? && p.n in w.pet && ClaveDePet(c, w.pet[p.n]) == clave)
  }

  lemma SoloAceptadas(c: Config, w: Mundo, p: Paso, clave: ClaveIdem)
    requires Habilitado(w, p) && clave in Aplicar(c, w, p).aceptadas && clave !in w.aceptadas
    ensures LlamadaAceptada(c, w, p, clave)
  {
    match p
    case Entorno(e) =>
    case Trabajador(k, s) => AceptadasDeSesion(c, w, k, s, clave);
    case Solicitud(n, t) => AceptadasDePeticion(c, w, n, t, clave);
  }

  lemma AceptadasDeSesion(c: Config, w: Mundo, k: Clave, s: PasoSesion, clave: ClaveIdem)
    requires PuedeSesion(w, k, s) && clave in TrasSesion(c, w, k, s).aceptadas && clave !in w.aceptadas
    ensures LlamadaAceptada(c, w, Trabajador(k, s), clave)
  {
  }

  lemma AceptadasDePeticion(c: Config, w: Mundo, n: nat, t: PasoPeticion, clave: ClaveIdem)
    requires PuedePeticion(w, n, t) && clave in TrasPeticion(c, w, n, t).aceptadas && clave !in w.aceptadas
    ensures LlamadaAceptada(c, w, Solicitud(n, t), clave)
  {
  }

  /** A key counts as accepted only because a call to the SFC carrying that content came back accepted. */
  lemma {:induction false} AceptadaTieneOrigen(c: Config, r: Corrida, i: nat, clave: ClaveIdem) returns (j: nat)
    requires c.maxIntentos >= 2 && EsCorrida(c, r) && i < |r.estados| && clave in r.estados[i].aceptadas
    ensures j < i && LlamadaAceptada(c, r.estados[j], r.pasos[j], clave)
  {
    if clave in r.estados[i - 1].aceptadas {
      j := AceptadaTieneOrigen(c, r, i - 1, clave);
    } else {
      j := i - 1;
      SoloAceptadas(c, r.estados[j], r.pasos[j], clave);
    }
  }

  /**
   * "Already queued" is the truth: when verification answers a request with a QUEUED hit, the item it points at
   * is pending in the request's own slot, is what the index points at, and holds content with the request's hash.
   */
  lemma YaEncoladoEsVerdad(c: Config, r: Corrida, i: nat, n: nat)
    requires c.maxIntentos >= 2 && EsCorrida(c, r) && i < |r.estados|
    requires var w := r.estados[i];
             && PetEn(w, n, Recibida) && ClaveDePet(c, w.pet[n]) in w.q.idem
             && w.q.idem[ClaveDePet(c, w.pet[n])].Queued? && VerificarEn(c, w, n).pet[n].fase == Finalizada
    ensures var w := r.estados[i];
            var s := RanuraDePet(c, w.pet[n]);
            && s in w.q.indice && w.q.indice[s] in w.q.pendientes && w.q.indice[s] in w.q.items
            && w.q.indice[s] == w.q.idem[ClaveDePet(c, w.pet[n])].itemId
            && c.hash(w.q.items[w.q.indice[s]].payload) == c.hash(w.pet[n].payload)
  {
    CorridaConserva(c, r, i);
    var w := r.estados[i];
    var clave := ClaveDePet(c, w.pet[n]);
    var id := w.q.idem[clave].itemId;
    assert IdemOk(w, clave) && IdOk(c, w.q, id);
  }
}
