/**
 * Runs from the empty store on which a stronger claim fails, for any configuration, smart code and payload: each of
 * the exact conditions proved elsewhere is needed.
 */
module Contraejemplos {
  import opened Comun
  import opened Clasificacion
  import opened Cola
  import opened ColaInvariantes
  import opened Protocolo
  import opened ProtocoloTeoremas
  import opened Avance
  import opened Testigos

  // ---------------------------------------------------------------- a copy sends the content again after SFC_DONE

  const K2 := Clave(1, 1)

  /** A copy renewed the item under session `k`, which had the content recorded as done. */
  predicate Renovada(c: Config, w: Mundo, k: Clave, sc: string, q: Queja) {
    && w.q.pendientes == {1} && 1 in w.q.items && w.q.items[1].id == 1 && w.q.items[1].smartCode == sc
    && w.q.items[1].payload == q && w.q.items[1].payloadHash == c.hash(q)
    && w.q.items[1].version == 2 && w.q.items[1].estado == PENDIENTE && !w.q.items[1].sfcCompletado
    && Clave0(c, sc, q) in w.q.idem && w.q.idem[Clave0(c, sc, q)] == Queued(1)
    && w.tickets == [Ticket(Ranura0(c, sc, q), q), Ticket(Ranura0(c, sc, q), q)]
    && 1 in w.ticketDe && w.ticketDe[1] == 1
    && k.id == 1 && EnFase(w, k, {SfcHecho}) && w.ses[k].copia.version == 1 && w.ses[k].copia.smartCode == sc
    && w.q.claims == map[1 := k.worker] && w.locks == map[sc := DeWorker(k)]
    && forall j :: j in w.ses ==> j.worker <= k.worker
  }

  lemma CopiaRenueva(c: Config, w: Mundo, k: Clave, n: nat, sc: string, q: Queja, e: string, t: Instante)
    requires HechaSola(c, w, k, sc, q, 1)
    ensures Renovada(c, Encolada(c, w, n, sc, q, e, t), k, sc, q) && Encolada(c, w, n, sc, q, e, t).log == w.log
  {
    assert Ocupado(w.q, Ranura0(c, sc, q));
  }

  /** The copy takes QUEUED for stale, SFC_DONE is recorded, and then the copy deletes the record and enqueues. */
  lemma LlegaARenovar(c: Config, sc: string, q: Queja, e: string, t: Instante) returns (r: Corrida)
    ensures CorridaSinEntorno(c, r) && Renovada(c, Ultimo(r), K, sc, q) && Ultimo(r).pet.Keys == {0, 1}
    ensures Ultimo(r).log == [Reclamo(K, 0, false), Llamada(K, 0), Acepto(K, 0), Hecho(0)]
  {
    var r0 := AceptaSola(c, sc, q, e, t);
    var w0 := Ultimo(r0);
    var w1 := w0.(pet := w0.pet[1 := Peticion(Recibida, sc, q, false)]);
    var r1 := Pide(c, r0, 1, Recibe(sc, q), w1);
    var w2 := w0.(pet := w0.pet[1 := Peticion(Huerfana, sc, q, false)]);
    assert VerificarEn(c, w1, 1) == w2;
    var r2 := Pide(c, r1, 1, Verifica, w2);
    HechoSola(c, w2, K, sc, q, 1, t);
    var w3 := MarcarSfcEn(w2, K, t);
    var r3 := Trabaja(c, r2, K, MarcaSfc(t), w3);
    r := BorraYEncola(c, r3, K, 1, sc, q, e, t);
  }

  lemma BorraYEncola(c: Config, r: Corrida, k: Clave, n: nat, sc: string, q: Queja, e: string, t: Instante)
    returns (r': Corrida)
    requires EsCorrida(c, r) && HechaSola(c, Ultimo(r), k, sc, q, 1)
    requires n in Ultimo(r).pet && Ultimo(r).pet[n] == Peticion(Huerfana, sc, q, false)
    ensures Avanza(c, r, r') && Renovada(c, Ultimo(r'), k, sc, q)
    ensures Ultimo(r').log == Ultimo(r).log && Ultimo(r').pet.Keys == Ultimo(r).pet.Keys
  {
    var w := SinIdem(Ultimo(r), Clave0(c, sc, q));
    var r1 := Pide(c, r, n, BorraHuerfano, w.(pet := w.pet[n := Peticion(Iniciando, sc, q, false)]));
    r' := LlegaAEncolarDesdeInicio(c, r1, w, n, sc, q, e, t);
    CopiaRenueva(c, w, k, n, sc, q, e, t);
  }

  lemma FalloRechazado(c: Config, w: Mundo, k: Clave, sc: string, q: Queja, e: string, t: Instante)
    requires Renovada(c, w, k, sc, q)
    ensures FallarEn(c, w, k, e, true, t) == ConFase(w.(q := ExpirarClaim(w.q, 1)), k, Terminando)
  {
    assert Cerca(w.q, 1, k.worker, 1) == VersionDistinta;
  }

  /** The session's failure is rejected: it only drops the claim, and then gives the case back. */
  lemma RechazadaSuelta(c: Config, r: Corrida, k: Clave, sc: string, q: Queja, e: string, t: Instante)
    returns (r': Corrida)
    requires EsCorrida(c, r) && Renovada(c, Ultimo(r), k, sc, q)
    ensures var w := Ultimo(r);
            Llega(c, r, r', w.(q := ExpirarClaim(w.q, 1), locks := map[],
                               ses := w.ses[k := w.ses[k].(fase := Cerrado)]))
  {
    var w := Ultimo(r);
    var w1 := ConFase(w.(q := ExpirarClaim(w.q, 1)), k, Terminando);
    FalloRechazado(c, w, k, sc, q, e, t);
    var r1 := Trabaja(c, r, k, Falla(e, true, t), w1);
    var w2 := ConFase(SoltarLock(w1, sc, DeWorker(k)), k, Cerrado);
    assert w2.locks == map[] && w2.ses == w.ses[k := w.ses[k].(fase := Cerrado)];
    r' := Trabaja(c, r1, k, SueltaLock, w2);
  }

  /**
   * With nothing expiring, purged or replayed, a content recorded as done is claimed and sent again: a copy verified
   * before SFC_DONE deletes the COMPLETED record after it and enqueues the content as a new, unsent version.
   */
  lemma CopiaReenviaTrasHecho(c: Config, sc: string, q: Queja, e: string, t: Instante) returns (r: Corrida)
    ensures CorridaSinEntorno(c, r)
    ensures Ultimo(r).log == [Reclamo(K, 0, false), Llamada(K, 0), Acepto(K, 0), Hecho(0), Reclamo(K2, 1, false),
                              Llamada(K2, 1)]
    ensures Ultimo(r).tickets == [Ticket(Ranura0(c, sc, q), q), Ticket(Ranura0(c, sc, q), q)]
  {
    var r0 := LlegaARenovar(c, sc, q, e, t);
    var r1 := RechazadaSuelta(c, r0, K, sc, q, e, t);
    var r2 := LlegaAReclamar(c, r1, K2);
    r := Trabaja(c, r2, K2, Llama, LlamarEn(Ultimo(r2), K2));
  }

  // ---------------------------------------------------------------- pending is not waiting, claimed is not at work

  /** Pending, unclaimed, with the very content asked for and its QUEUED record, and yet taken for stale. */
  lemma PendienteSinReclamarEsHuerfana(c: Config, sc: string, q: Queja, e: string, t: Instante) returns (r: Corrida)
    ensures EsCorrida(c, r) && PetEn(Ultimo(r), 1, Huerfana) && Ultimo(r).pet[1].smartCode == sc
    ensures Ultimo(r).pet[1].payload == q && 1 in Ultimo(r).q.pendientes && 1 in Ultimo(r).q.items
    ensures 1 !in Ultimo(r).q.claims && Ultimo(r).q.items[1].payload == q
    ensures Clave0(c, sc, q) in Ultimo(r).q.idem && Ultimo(r).q.idem[Clave0(c, sc, q)] == Queued(1)
  {
    var r0 := AceptaSola(c, sc, q, e, t);
    MasSigue(c, r0, Entorno(ExpiraClaim(1)));
    var r1 := Mas(c, r0, Entorno(ExpiraClaim(1)));
    var w1 := Ultimo(r1);
    var w2 := w1.(pet := w1.pet[1 := Peticion(Recibida, sc, q, false)]);
    var r2 := Pide(c, r1, 1, Recibe(sc, q), w2);
    var w3 := w1.(pet := w1.pet[1 := Peticion(Huerfana, sc, q, false)]);
    assert VerificarEn(c, w2, 1) == w3;
    r := Pide(c, r2, 1, Verifica, w3);
  }

  /** A live claim on the item, and yet "already queued" is answered: a copy had renewed it under the claim. */
  lemma ReclamadaYYaEncolada(c: Config, sc: string, q: Queja, e: string, t: Instante) returns (r: Corrida, r': Corrida)
    ensures CorridaSinEntorno(c, r) && PetEn(Ultimo(r), 2, Recibida) && 1 in Ultimo(r).q.claims
    ensures Clave0(c, sc, q) in Ultimo(r).q.idem && Ultimo(r).q.idem[Clave0(c, sc, q)] == Queued(1)
    ensures Llega(c, r, r', VerificarEn(c, Ultimo(r), 2)) && VerificarEn(c, Ultimo(r), 2).pet[2].fase == Finalizada
  {
    var r0 := LlegaARenovar(c, sc, q, e, t);
    var w0 := Ultimo(r0);
    r := Pide(c, r0, 2, Recibe(sc, q), w0.(pet := w0.pet[2 := Peticion(Recibida, sc, q, false)]));
    r' := Pide(c, r, 2, Verifica, VerificarEn(c, Ultimo(r), 2));
  }

  // ---------------------------------------------------------------- a synchronous success cancels newer content

  /** Request 0 in flight with the case locked, request 1 of the same operation enqueued behind it. */
  lemma LlegaDetras(c: Config, sc: string, q: Queja, q2: Queja, e: string, t: Instante) returns (r: Corrida)
    requires c.operacion(q2) == c.operacion(q) && c.hash(q2) != c.hash(q)
    ensures CorridaSinEntorno(c, r) && 0 in Ultimo(r).pet && Ultimo(r).pet[0] == Peticion(EnVuelo, sc, q, true)
    ensures Ultimo(r).q.indice == map[Ranura0(c, sc, q) := 1] && Ultimo(r).q.pendientes == {1}
    ensures 1 in Ultimo(r).q.items && Ultimo(r).q.items[1].payloadHash == c.hash(q2) && Ultimo(r).q.items[1].id == 1
    ensures Ultimo(r).tickets == [Ticket(Ranura0(c, sc, q), q2)] && Ultimo(r).destinos == [EnItem(1)]
    ensures Ultimo(r).ticketDe == map[1 := 0] && Ultimo(r).log == []
  {
    var r0 := Vacia(c);
    var r1 := LlegaAVolar(c, r0, 0, sc, q);
    r := LlegaAEncolar(c, r1, 1, sc, q2, e, t);
  }

  /** A request that was sent before the other content arrived cancels it, and nothing of it was ever sent. */
  lemma CancelaLoMasNuevo(c: Config, sc: string, q: Queja, q2: Queja, e: string, t: Instante) returns (r: Corrida)
    requires c.operacion(q2) == c.operacion(q) && c.hash(q2) != c.hash(q)
    ensures CorridaSinEntorno(c, r) && Ultimo(r).tickets == [Ticket(Ranura0(c, sc, q), q2)]
    ensures Ultimo(r).destinos == [Cancelado(Clave0(c, sc, q))] && Ultimo(r).q.pendientes == {} && Ultimo(r).log == []
  {
    var r0 := LlegaDetras(c, sc, q, q2, e, t);
    var w0 := Ultimo(r0);
    var w1 := ConFasePet(w0.(aceptadas := w0.aceptadas + {Clave0(c, sc, q)}), 0, Aceptada(None));
    var r1 := Pide(c, r0, 0, PetAceptada(None), w1);
    var w2 := RegistrarExitoEn(c, w1, 0, true);
    var r2 := Pide(c, r1, 0, RegistraExito(true), w2);
    var w3 := ConFasePet(w2, 0, Cancelando(1, c.hash(q2)));
    assert LeerCancelableEn(c, w2, 0) == w3;
    var r3 := Pide(c, r2, 0, LeeCancelable, w3);
    assert Cancelar(w3.q, Ranura0(c, sc, q), 1, c.hash(q2)).1;
    var w4 := CancelarEn(c, w3, 0);
    assert w4.destinos == [Cancelado(Clave0(c, sc, q))] && w4.q.pendientes == {};
    r := Pide(c, r3, 0, Cancela, w4);
  }

  // ---------------------------------------------------------------- failing until the last attempt

  lemma UnFallo(c: Config, r: Corrida, sc: string, q: Queja, j: int, u: nat, e: string, t: Instante)
    returns (r': Corrida)
    requires EsCorrida(c, r) && 0 <= j && j + 1 < c.maxIntentos && Espera(c, Ultimo(r), sc, q, j, u)
    ensures Avanza(c, r, r') && Espera(c, Ultimo(r'), sc, q, j + 1, u + 1)
    ensures Ultimo(r').pet == Ultimo(r).pet
  {
    var k := Clave(u, 1);
    var r1 := LlegaAReclamar(c, r, k);
    var w1 := Ultimo(r1);
    var w2 := FallarEn(c, w1, k, e, true, t);
    assert Cerca(w1.q, 1, u, 1).Aplicado?;
    assert w2.q == RegistrarFallo(w1.q, 1, u, 1, ArgsDeFallo(c, w1.ses[k].copia, e, true, t)).0;
    assert w2.q.claims == map[];
    var r2 := Trabaja(c, r1, k, Falla(e, true, t), w2);
    var w3 := ConFase(SoltarLock(w2, sc, DeWorker(k)), k, Cerrado);
    assert w3.locks == map[];
    r' := Trabaja(c, r2, k, SueltaLock, w3);
  }

  /** All attempts but the last are used up. */
  lemma {:induction false} CasiAgotada(c: Config, r: Corrida, sc: string, q: Queja, j: int, u: nat, e: string,
                                       t: Instante) returns (r': Corrida, u': nat)
    requires EsCorrida(c, r) && 0 <= j < c.maxIntentos && Espera(c, Ultimo(r), sc, q, j, u)
    ensures Avanza(c, r, r') && Espera(c, Ultimo(r'), sc, q, c.maxIntentos - 1, u')
    ensures Ultimo(r').pet == Ultimo(r).pet
    decreases c.maxIntentos - j
  {
    if j + 1 == c.maxIntentos {
      r', u' := r, u;
    } else {
      var r1 := UnFallo(c, r, sc, q, j, u, e, t);
      r', u' := CasiAgotada(c, r1, sc, q, j + 1, u + 1, e, t);
    }
  }

  // ---------------------------------------------------------------- the last failure after SFC_DONE

  /**
   * The CRM fails for the last attempt of a content the SFC has just accepted and SFC_DONE recorded: its record goes
   * with the item, and the same content received again is in flight to the SFC.
   */
  lemma OlvidaLoAceptado(c: Config, sc: string, q: Queja, e: string, t: Instante) returns (r: Corrida, k: Clave)
    requires c.maxIntentos >= 2
    ensures CorridaSinEntorno(c, r) && Acepto(k, 0) in Ultimo(r).log && Hecho(0) in Ultimo(r).log
    ensures Ultimo(r).tickets == [Ticket(Ranura0(c, sc, q), q)] && 1 in Ultimo(r).q.fallidos && 1 in Ultimo(r).q.items
    ensures Ultimo(r).q.items[1].sfcCompletado
    ensures 1 in Ultimo(r).pet && Ultimo(r).pet[1] == Peticion(EnVuelo, sc, q, true)
  {
    var r0 := EncolaSola(c, sc, q, e, t);
    var r1, u := CasiAgotada(c, r0, sc, q, 1, 0, e, t);
    k := Clave(u, 1);
    var r2 := AceptaEsperando(c, r1, sc, q, c.maxIntentos - 1, k);
    HechoSola(c, Ultimo(r2), k, sc, q, c.maxIntentos - 1, t);
    var r3 := Trabaja(c, r2, k, MarcaSfc(t), MarcarSfcEn(Ultimo(r2), k, t));
    var r4 := UltimoFalloTrasHecho(c, r3, sc, q, k, e, t);
    r := LlegaAVolar(c, r4, 1, sc, q);
  }

  lemma UltimoFalloTrasHecho(c: Config, r: Corrida, sc: string, q: Queja, k: Clave, e: string, t: Instante)
    returns (r': Corrida)
    requires c.maxIntentos >= 2 && EsCorrida(c, r) && HechaSola(c, Ultimo(r), k, sc, q, c.maxIntentos - 1)
    ensures Avanza(c, r, r') && 1 in Ultimo(r').q.fallidos && 1 in Ultimo(r').q.items
    ensures Ultimo(r').q.items[1].sfcCompletado && Clave0(c, sc, q) !in Ultimo(r').q.idem
    ensures Ultimo(r').locks == map[] && Ultimo(r').pet == Ultimo(r).pet && Ultimo(r').tickets == Ultimo(r).tickets
    ensures Ultimo(r').log == Ultimo(r).log
  {
    var w := Ultimo(r);
    assert Cerca(w.q, 1, k.worker, 1).Aplicado?;
    var a := ArgsDeFallo(c, w.ses[k].copia, e, true, t);
    var w1 := FallarEn(c, w, k, e, true, t);
    assert w1.q == RegistrarFallo(w.q, 1, k.worker, 1, a).0 && a.definitivo;
    var r1 := Trabaja(c, r, k, Falla(e, true, t), w1);
    var w2 := SinIdem(ConFase(w1, k, Terminando), Clave0(c, sc, q));
    var r2 := Trabaja(c, r1, k, LiberaIdem, w2);
    var w3 := ConFase(SoltarLock(w2, sc, DeWorker(k)), k, Cerrado);
    assert w3.locks == map[];
    r' := Trabaja(c, r2, k, SueltaLock, w3);
  }

  // ---------------------------------------------------------------- given up unsent, and replayed

  /** Item 1 was given up without ever being sent; nobody is at work. */
  predicate Caida(c: Config, w: Mundo, sc: string, q: Queja, u: nat, t: Instante) {
    && 1 in w.q.items && w.q.items[1].id == 1 && w.q.items[1].smartCode == sc && w.q.items[1].payload == q
    && w.q.items[1].operacion == c.operacion(q) && w.q.items[1].estado == FALLIDO_DEFINITIVO
    && !w.q.items[1].sfcCompletado && w.q.items[1].updatedAt == t
    && w.q.fallidos == {1} && w.q.pendientes == {} && w.q.indice == map[] && w.q.contador == 1
    && w.q.claims == map[] && w.locks == map[] && 1 in w.ticketDe && w.ticketDe[1] == 0
    && w.tickets == [Ticket(Ranura0(c, sc, q), q)] && Clave0(c, sc, q) !in w.q.idem
    && forall k :: k in w.ses ==> k.worker < u
  }

  lemma UltimoFalloSinEnviar(c: Config, r: Corrida, sc: string, q: Queja, u: nat, e: string, t: Instante)
    returns (r': Corrida)
    requires c.maxIntentos >= 2 && EsCorrida(c, r) && Espera(c, Ultimo(r), sc, q, c.maxIntentos - 1, u)
    ensures Avanza(c, r, r') && Caida(c, Ultimo(r'), sc, q, u + 1, t)
    ensures Ultimo(r').pet == Ultimo(r).pet
  {
    var k := Clave(u, 1);
    var r1 := LlegaAReclamar(c, r, k);
    var w1 := Ultimo(r1);
    UltimoFalloDeja(c, Ultimo(r), sc, q, u, e, t);
    var w2 := FallarEn(c, w1, k, e, true, t);
    var r2 := Trabaja(c, r1, k, Falla(e, true, t), w2);
    var w3 := SinIdem(ConFase(w2, k, Terminando), Clave0(c, sc, q));
    var r3 := Trabaja(c, r2, k, LiberaIdem, w3);
    r' := Trabaja(c, r3, k, SueltaLock, ConFase(SoltarLock(w3, sc, DeWorker(k)), k, Cerrado));
  }

  lemma UltimoFalloDeja(c: Config, w: Mundo, sc: string, q: Queja, u: nat, e: string, t: Instante)
    requires c.maxIntentos >= 2 && Espera(c, w, sc, q, c.maxIntentos - 1, u)
    ensures var k := Clave(u, 1);
            var w2 := FallarEn(c, Tomada(w, k), k, e, true, t);
            && EnFase(w2, k, {Liberando}) && ClaveDe(w2.ses[k].copia) == Clave0(c, sc, q) && w2.pet == w.pet
            && w2.ses[k].copia.smartCode == sc
            && var w3 := SinIdem(ConFase(w2, k, Terminando), Clave0(c, sc, q));
               Caida(c, ConFase(SoltarLock(w3, sc, DeWorker(k)), k, Cerrado), sc, q, u + 1, t)
  {
    var k := Clave(u, 1);
    var w1 := Tomada(w, k);
    var a := ArgsDeFallo(c, w1.ses[k].copia, e, true, t);
    var w2 := FallarEn(c, w1, k, e, true, t);
    assert Cerca(w1.q, 1, u, 1).Aplicado?;
    assert w2.q == RegistrarFallo(w1.q, 1, u, 1, a).0 && a.definitivo;
    assert w2.q.claims == map[] && w2.q.indice == map[] && w2.q.pendientes == {} && w2.q.fallidos == {1};
    assert SoltarLock(w2, sc, DeWorker(k)).locks == map[];
  }

  lemma LlegaACaer(c: Config, sc: string, q: Queja, e: string, t: Instante) returns (r: Corrida, u: nat)
    requires c.maxIntentos >= 2
    ensures CorridaSinEntorno(c, r) && Caida(c, Ultimo(r), sc, q, u, t) && Ultimo(r).pet.Keys == {0}
  {
    var r0 := EncolaSola(c, sc, q, e, t);
    var r1, u1 := CasiAgotada(c, r0, sc, q, 1, 0, e, t);
    r := UltimoFalloSinEnviar(c, r1, sc, q, u1, e, t);
    u := u1 + 1;
  }

  /**
   * The admin replays a failed item between the purge's reading and its MULTI block: what the purge then deletes is
   * a pending obligation.
   */
  lemma PurgaPierdeLoReencolado(c: Config, sc: string, q: Queja, e: string, t: Instante)
    returns (r: Corrida, leidos: set<nat>)
    requires c.maxIntentos >= 2
    ensures EsCorrida(c, r) && |r.pasos| > 0 && r.pasos[|r.pasos| - 1] == Entorno(Reencola(1, t))
    ensures leidos == Purgables(r.estados[|r.pasos| - 1].q, DeFallidos, t)
    ensures var q' := Purgar(Ultimo(r).q, DeFallidos, leidos);
            1 in Ultimo(r).q.pendientes && 1 in Ultimo(r).q.items && 1 in q'.pendientes && 1 !in q'.items
  {
    var r0, u := LlegaACaer(c, sc, q, e, t);
    var w0 := Ultimo(r0);
    leidos := Purgables(w0.q, DeFallidos, t);
    CorridaConserva(c, r0, |r0.estados| - 1);
    PurgaTrasReplayPierde(c, w0.q, 1, t, t);
    MasSigue(c, r0, Entorno(Reencola(1, t)));
    r := Mas(c, r0, Entorno(Reencola(1, t)));
  }

  // ---------------------------------------------------------------- a replay sends the content again

  /** Item 2, an equal copy of the fallen item 1, was sent, confirmed and is over; nobody is at work. */
  predicate CaidaYCopiaLista(c: Config, w: Mundo, sc: string, q: Queja, u: nat, t: Instante) {
    && 1 in w.q.items && w.q.items[1].smartCode == sc && w.q.items[1].operacion == c.operacion(q)
    && w.q.items[1].estado == FALLIDO_DEFINITIVO && !w.q.items[1].sfcCompletado
    && Ranura0(c, sc, q) !in w.q.indice && 1 !in w.q.claims && w.locks == map[]
    && 1 in w.ticketDe && w.ticketDe[1] == 0
    && w.tickets == [Ticket(Ranura0(c, sc, q), q), Ticket(Ranura0(c, sc, q), q)] && Hecho(1) in w.log
    && forall k :: k in w.ses ==> k.worker < u
  }

  lemma CopiaDespachada(c: Config, r: Corrida, sc: string, q: Queja, u: nat, e: string, t: Instante)
    returns (r': Corrida)
    requires EsCorrida(c, r) && Caida(c, Ultimo(r), sc, q, u, t) && 1 !in Ultimo(r).pet
    ensures Avanza(c, r, r') && CaidaYCopiaLista(c, Ultimo(r'), sc, q, u + 1, t)
  {
    var k := Clave(u, 2);
    CopiaEncolada(c, Ultimo(r), sc, q, u, e, t);
    var r1 := LlegaAEncolar(c, r, 1, sc, q, e, t);
    var r2 := LlegaAReclamar(c, r1, k);
    var r3 := LlegaAAceptar(c, r2, k);
    r' := TerminaDeDespachar(c, r3, sc, q, u, t);
  }

  /** The copy of a fallen item is item 2 of the same slot; claimed and accepted it is as `CopiaAceptada` says. */
  lemma CopiaEncolada(c: Config, w: Mundo, sc: string, q: Queja, u: nat, e: string, t: Instante)
    requires Caida(c, w, sc, q, u, t)
    ensures var w1 := Encolada(c, w, 1, sc, q, e, t);
            && Reclamable(w1.q, 2) && w1.q.items[2].smartCode == sc && w1.locks == map[] && w1.ses == w.ses
            && !w1.q.items[2].sfcCompletado
            && var w2 := Tomada(w1, Clave(u, 2));
               Clave(u, 2) in w2.ses && w2.ses[Clave(u, 2)].fase == Reclamado
               && w2.ses[Clave(u, 2)].copia == w1.q.items[2].(estado := PROCESSING)
               && CopiaAceptada(c, Dicha(w2, Clave(u, 2)), sc, q, u)
  {
    assert !Ocupado(w.q, Ranura0(c, sc, q));
  }

  predicate CopiaAceptada(c: Config, w: Mundo, sc: string, q: Queja, u: nat) {
    var k := Clave(u, 2);
    && 1 in w.q.items && w.q.items[1].smartCode == sc && w.q.items[1].operacion == c.operacion(q)
    && w.q.items[1].estado == FALLIDO_DEFINITIVO && !w.q.items[1].sfcCompletado
    && 2 in w.q.items && w.q.items[2].version == 1 && w.q.items[2].Ranura() == Ranura0(c, sc, q)
    && w.q.indice == map[Ranura0(c, sc, q) := 2] && w.q.claims == map[2 := u] && w.locks == map[sc := DeWorker(k)]
    && 1 in w.ticketDe && w.ticketDe[1] == 0
    && w.tickets == [Ticket(Ranura0(c, sc, q), q), Ticket(Ranura0(c, sc, q), q)]
    && EnFase(w, k, {Aceptado}) && w.ses[k].ticket == 1 && w.ses[k].copia.version == 1
    && w.ses[k].copia.smartCode == sc
    && forall j :: j in w.ses ==> j.worker <= u
  }

  lemma TerminaDeDespachar(c: Config, r: Corrida, sc: string, q: Queja, u: nat, t: Instante) returns (r': Corrida)
    requires EsCorrida(c, r) && CopiaAceptada(c, Ultimo(r), sc, q, u)
    ensures Avanza(c, r, r') && CaidaYCopiaLista(c, Ultimo(r'), sc, q, u + 1, t)
  {
    var k := Clave(u, 2);
    var w := Ultimo(r);
    assert Cerca(w.q, 2, u, 1).Aplicado?;
    var w1 := MarcarSfcEn(w, k, t);
    var r1 := Trabaja(c, r, k, MarcaSfc(t), w1);
    var w2 := ConfirmarEn(w1, k);
    var r2 := Trabaja(c, r1, k, CrmConfirma, w2);
    assert Cerca(w2.q, 2, u, 1).Aplicado?;
    var w3 := MarcarExitoEn(w2, k, t);
    var r3 := Trabaja(c, r2, k, MarcaExito(t), w3);
    var w4 := ConFase(SoltarLock(w3, sc, DeWorker(k)), k, Cerrado);
    assert w4.locks == map[];
    r' := Trabaja(c, r3, k, SueltaLock, w4);
  }

  lemma ReplayDeja(c: Config, r: Corrida, sc: string, q: Queja, u: nat, t: Instante) returns (r': Corrida)
    requires EsCorrida(c, r) && CaidaYCopiaLista(c, Ultimo(r), sc, q, u, t)
    ensures EsCorrida(c, r') && Reclamable(Ultimo(r').q, 1) && Ultimo(r').q.items[1].smartCode == sc
    ensures !Ultimo(r').q.items[1].sfcCompletado
    ensures var w, w' := Ultimo(r), Ultimo(r');
            w'.locks == w.locks && w'.log == w.log && w'.tickets == w.tickets && w'.ticketDe == w.ticketDe
            && w'.ses == w.ses
  {
    MasSigue(c, r, Entorno(Reencola(1, t)));
    r' := Mas(c, r, Entorno(Reencola(1, t)));
    assert EstadoReplay(Ultimo(r).q, 1).Reencolado?;
  }

  /**
   * Nothing expires and no copy arrives after SFC_DONE, but the admin replays an older item that holds the same
   * content: it is claimed as unsent and sent again.
   */
  lemma ReplayReenviaTrasHecho(c: Config, sc: string, q: Queja, e: string, t: Instante)
    returns (r: Corrida, k: Clave)
    requires c.maxIntentos >= 2
    ensures EsCorrida(c, r) && |Ultimo(r).log| >= 2
    ensures var l := Ultimo(r).log;
            && l[|l| - 2] == Reclamo(k, 0, false) && l[|l| - 1] == Llamada(k, 0) && Hecho(1) in l[..|l| - 2]
    ensures Ultimo(r).tickets == [Ticket(Ranura0(c, sc, q), q), Ticket(Ranura0(c, sc, q), q)]
  {
    var r0, u := LlegaACaer(c, sc, q, e, t);
    var r1 := CopiaDespachada(c, r0, sc, q, u, e, t);
    var r2 := ReplayDeja(c, r1, sc, q, u + 1, t);
    k := Clave(u + 1, 1);
    var r3 := LlegaAReclamar(c, r2, k);
    r := Trabaja(c, r3, k, Llama, LlamarEn(Ultimo(r3), k));
    assert Ultimo(r).log == Ultimo(r2).log + [Reclamo(k, 0, false), Llamada(k, 0)];
  }
}
