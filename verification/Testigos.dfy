/**
 * Concrete runs, for any smart code and payload: the protocol does reach success, a lapsed lease does let dispatches
 * overlap, and a copy of a request does arrive while its content is accepted but not yet recorded.
 */
module Testigos {
  import opened Comun
  import opened Clasificacion
  import opened Cola
  import opened Protocolo
  import opened ProtocoloInvariante
  import opened ProtocoloTeoremas
  import opened Exclusion
  import opened Avance
  import opened Limites

  // ---------------------------------------------------------------- a request in flight

  function Clave0(c: Config, sc: string, q: Queja): ClaveIdem { ClaveIdem(sc, c.operacion(q), c.hash(q)) }

  /** `x` with request `p` on its way: its record, and its lock if it has it. */
  function EnCamino(c: Config, x: Mundo, n: nat, p: Peticion): Mundo {
    x.(pet := x.pet[n := p], locks := if p.conLock then x.locks[p.smartCode := DePeticion(n)] else x.locks,
       q := x.q.(idem := x.q.idem[ClaveDePet(c, p) := Processing]))
  }

  lemma LlegaAIniciar(c: Config, r: Corrida, n: nat, sc: string, q: Queja) returns (r': Corrida)
    requires EsCorrida(c, r) && n !in Ultimo(r).pet && Clave0(c, sc, q) !in Ultimo(r).q.idem
    ensures Llega(c, r, r', Ultimo(r).(pet := Ultimo(r).pet[n := Peticion(Iniciando, sc, q, false)]))
  {
    var w := Ultimo(r);
    var r1 := Pide(c, r, n, Recibe(sc, q), w.(pet := w.pet[n := Peticion(Recibida, sc, q, false)]));
    r' := Pide(c, r1, n, Verifica, w.(pet := w.pet[n := Peticion(Iniciando, sc, q, false)]));
  }

  lemma LlegaAPedir(c: Config, r: Corrida, w: Mundo, n: nat, sc: string, q: Queja) returns (r': Corrida)
    requires EsCorrida(c, r) && Clave0(c, sc, q) !in w.q.idem
    requires Ultimo(r) == w.(pet := w.pet[n := Peticion(Iniciando, sc, q, false)])
    ensures Llega(c, r, r', EnCamino(c, w, n, Peticion(EnProceso, sc, q, false)))
  {
    var w' := EnCamino(c, w, n, Peticion(EnProceso, sc, q, false));
    assert IniciarEn(c, Ultimo(r), n) == w';
    r' := Pide(c, r, n, IniciaProcessing, w');
  }

  lemma LlegaAVolar(c: Config, r: Corrida, n: nat, sc: string, q: Queja) returns (r': Corrida)
    requires EsCorrida(c, r) && n !in Ultimo(r).pet && sc !in Ultimo(r).locks && Clave0(c, sc, q) !in Ultimo(r).q.idem
    ensures Llega(c, r, r', EnCamino(c, Ultimo(r), n, Peticion(EnVuelo, sc, q, true)))
  {
    var w := Ultimo(r);
    var r1 := LlegaAIniciar(c, r, n, sc, q);
    var r2 := LlegaAPedir(c, r1, w, n, sc, q);
    r' := LlegaALock(c, r2, w, n, sc, q);
  }

  lemma LlegaALock(c: Config, r: Corrida, w: Mundo, n: nat, sc: string, q: Queja) returns (r': Corrida)
    requires EsCorrida(c, r) && sc !in w.locks && Ultimo(r) == EnCamino(c, w, n, Peticion(EnProceso, sc, q, false))
    ensures Llega(c, r, r', EnCamino(c, w, n, Peticion(EnVuelo, sc, q, true)))
  {
    r' := Pide(c, r, n, PideLock, EnCamino(c, w, n, Peticion(EnVuelo, sc, q, true)));
  }

  /** If a live holder's lease may lapse, two dispatches of one case do overlap. */
  lemma SinArriendoSeSolapan(c: Config, sc: string, q: Queja) returns (r: Corrida)
    ensures EsCorrida(c, r) && !ArriendosRenovados(r)
    ensures var w := Ultimo(r);
            PetEn(w, 0, EnVuelo) && PetEn(w, 1, EnVuelo) && w.pet[0].smartCode == w.pet[1].smartCode == sc
  {
    var r0 := Vacia(c);
    var r1 := LlegaAVolar(c, r0, 0, sc, q);
    var r2 := VenceElLock(c, r1, 0, sc);
    var olvida := Entorno(ExpiraIdem(Clave0(c, sc, q)));
    MasSigue(c, r2, olvida);
    r := LlegaAVolar(c, Mas(c, r2, olvida), 1, sc, q);
  }

  lemma VenceElLock(c: Config, r: Corrida, n: nat, sc: string) returns (r': Corrida)
    requires EsCorrida(c, r) && sc in Ultimo(r).locks && Ultimo(r).locks[sc] == DePeticion(n)
    requires n in Ultimo(r).pet && Ultimo(r).pet[n].conLock
    ensures EsCorrida(c, r') && Ultimo(r') == Ultimo(r).(locks := Quitar(Ultimo(r).locks, sc))
    ensures !ArriendosRenovados(r')
  {
    var vence := Entorno(ExpiraLock(sc));
    MasSigue(c, r, vence);
    r' := Mas(c, r, vence);
    var i := |r.pasos|;
    assert r'.pasos[i] == vence && r'.estados[i] == Ultimo(r);
    assert !ArriendoVivo(r'.estados[i], r'.pasos[i]);
  }

  // ---------------------------------------------------------------- enqueued, claimed, accepted

  /** `w` with the item written and its ticket opened, apart from request, lock and record. */
  function Escrita(c: Config, w: Mundo, sc: string, q: Queja, e: string, t: Instante): Mundo {
    RecibirEncolado(c, w.(pet := map[0 := Peticion(PorEncolar, sc, q, false)]), 0, e, t).(pet := w.pet)
  }

  function IdEscrito(c: Config, w: Mundo, sc: string, q: Queja, e: string, t: Instante): nat {
    Encolar(w.q, ArgsDeEncolar(c, sc, q, e, t)).1.id
  }

  /** `w` once request `n` got a 202 for this content: item, ticket and QUEUED record written, lock given back. */
  function Encolada(c: Config, w: Mundo, n: nat, sc: string, q: Queja, e: string, t: Instante): Mundo {
    var x := Escrita(c, w, sc, q, e, t);
    x.(pet := w.pet[n := Peticion(Finalizada, sc, q, false)],
       q := x.q.(idem := w.q.idem[Clave0(c, sc, q) := Queued(IdEscrito(c, w, sc, q, e, t))]))
  }

  lemma EncolarIgnoraRegistros(q: Redis, idem: map<ClaveIdem, Registro>, a: ArgsEncolar)
    ensures Encolar(q.(idem := idem), a) == (Encolar(q, a).0.(idem := idem), Encolar(q, a).1)
    ensures Encolar(q, a).0.idem == q.idem
  {
  }

  /** The ledger part of an enqueue looks at queue and ledger only. */
  lemma EncolarDeja(c: Config, w: Mundo, n: nat, p: Peticion, e: string, t: Instante)
    requires p.fase == PorEncolar
    ensures var id := IdEscrito(c, w, p.smartCode, p.payload, e, t);
            RecibirEncolado(c, EnCamino(c, w, n, p), n, e, t)
            == EnCamino(c, Escrita(c, w, p.smartCode, p.payload, e, t), n, p.(fase := PorRegistrar(id)))
  {
    var id := IdEscrito(c, w, p.smartCode, p.payload, e, t);
    var y := EnCamino(c, w, n, p);
    EncolarIgnoraRegistros(w.q, y.q.idem, ArgsDeEncolar(c, p.smartCode, p.payload, e, t));
    var v := RecibirEncolado(c, y, n, e, t);
    var v' := EnCamino(c, Escrita(c, w, p.smartCode, p.payload, e, t), n, p.(fase := PorRegistrar(id)));
    assert v.pet == v'.pet;
    assert v.q == v'.q && v.locks == v'.locks;
    assert v.ticketDe == v'.ticketDe && v.destinos == v'.destinos;
  }

  lemma ResponderDeja(c: Config, x: Mundo, n: nat, p: Peticion, id: nat)
    requires p.fase == PorRegistrar(id) && (p.conLock ==> p.smartCode !in x.locks)
    ensures var w3 := RegistrarEncoladoEn(c, EnCamino(c, x, n, p), n, true);
            && w3.pet[n].fase.Soltando?
            && SoltarLockEn(w3, n) == x.(pet := x.pet[n := p.(fase := Finalizada, conLock := false)],
                                         q := x.q.(idem := x.q.idem[ClaveDePet(c, p) := Queued(id)]))
  {
    var w3 := RegistrarEncoladoEn(c, EnCamino(c, x, n, p), n, true);
    var p3 := p.(fase := Soltando(false));
    var clave := ClaveDePet(c, p);
    assert w3.pet == x.pet[n := p3];
    assert w3.q == x.q.(idem := x.q.idem[clave := Queued(id)]) by {
      assert x.q.idem[clave := Processing][clave := Queued(id)] == x.q.idem[clave := Queued(id)];
    }
    SoltarDeja(x, w3, n, p3);
  }

  lemma SoltarDeja(x: Mundo, w: Mundo, n: nat, p: Peticion)
    requires p.fase == Soltando(false) && (p.conLock ==> p.smartCode !in x.locks)
    requires w == x.(pet := x.pet[n := p], q := w.q,
                     locks := if p.conLock then x.locks[p.smartCode := DePeticion(n)] else x.locks)
    ensures SoltarLockEn(w, n) == x.(pet := x.pet[n := p.(fase := Finalizada, conLock := false)], q := w.q)
  {
    var v := SoltarLockEn(w, n);
    assert v.pet == x.pet[n := p.(fase := Finalizada, conLock := false)];
    assert v.locks == x.locks;
  }

  lemma EncolaYResponde(c: Config, r: Corrida, w: Mundo, n: nat, p: Peticion, e: string, t: Instante)
    returns (r': Corrida)
    requires EsCorrida(c, r) && p.fase == PorEncolar && Ultimo(r) == EnCamino(c, w, n, p)
    requires p.conLock ==> p.smartCode !in w.locks
    ensures Llega(c, r, r', Encolada(c, w, n, p.smartCode, p.payload, e, t))
  {
    var id := IdEscrito(c, w, p.smartCode, p.payload, e, t);
    var x := Escrita(c, w, p.smartCode, p.payload, e, t);
    EncolarDeja(c, w, n, p, e, t);
    var w2 := EnCamino(c, x, n, p.(fase := PorRegistrar(id)));
    var r2 := Pide(c, r, n, PetEncola(e, t), w2);
    assert x.locks == w.locks && x.q.idem == w.q.idem && x.pet == w.pet;
    ResponderDeja(c, x, n, p.(fase := PorRegistrar(id)), id);
    r' := RespondeEncolado(c, r2, n, Encolada(c, w, n, p.smartCode, p.payload, e, t));
  }

  lemma RespondeEncolado(c: Config, r: Corrida, n: nat, w': Mundo) returns (r': Corrida)
    requires EsCorrida(c, r) && n in Ultimo(r).pet && Ultimo(r).pet[n].fase.PorRegistrar?
    requires RegistrarEncoladoEn(c, Ultimo(r), n, true).pet[n].fase.Soltando?
    requires w' == SoltarLockEn(RegistrarEncoladoEn(c, Ultimo(r), n, true), n)
    ensures Llega(c, r, r', w')
  {
    var w3 := RegistrarEncoladoEn(c, Ultimo(r), n, true);
    var r3 := Pide(c, r, n, RegistraEncolado(true), w3);
    r' := Pide(c, r3, n, PetSueltaLock, w');
  }

  /** A request just verified, `w` being the world before it, finds its case busy or gets no answer, and is enqueued. */
  lemma LlegaAEncolarDesdeInicio(c: Config, r: Corrida, w: Mundo, n: nat, sc: string, q: Queja, e: string, t: Instante)
    returns (r': Corrida)
    requires EsCorrida(c, r) && Clave0(c, sc, q) !in w.q.idem
    requires Ultimo(r) == w.(pet := w.pet[n := Peticion(Iniciando, sc, q, false)])
    ensures Llega(c, r, r', Encolada(c, w, n, sc, q, e, t))
  {
    var r2 := LlegaAPedir(c, r, w, n, sc, q);
    if sc in w.locks {
      var p := Peticion(PorEncolar, sc, q, false);
      var r3 := Pide(c, r2, n, PideLock, EnCamino(c, w, n, p));
      r' := EncolaYResponde(c, r3, w, n, p, e, t);
    } else {
      r' := LlegaAEncolarLibre(c, r2, w, n, sc, q, e, t);
    }
  }

  lemma LlegaAEncolarLibre(c: Config, r: Corrida, w: Mundo, n: nat, sc: string, q: Queja, e: string, t: Instante)
    returns (r': Corrida)
    requires EsCorrida(c, r) && sc !in w.locks && Ultimo(r) == EnCamino(c, w, n, Peticion(EnProceso, sc, q, false))
    ensures Llega(c, r, r', Encolada(c, w, n, sc, q, e, t))
  {
    var p := Peticion(PorEncolar, sc, q, true);
    var r3 := LlegaALock(c, r, w, n, sc, q);
    var r4 := Pide(c, r3, n, PetTransitoria, EnCamino(c, w, n, p));
    r' := EncolaYResponde(c, r4, w, n, p, e, t);
  }

  /** A request nobody answers for is enqueued, whether its case is busy or the SFC does not answer. */
  lemma LlegaAEncolar(c: Config, r: Corrida, n: nat, sc: string, q: Queja, e: string, t: Instante) returns (r': Corrida)
    requires EsCorrida(c, r) && n !in Ultimo(r).pet && Clave0(c, sc, q) !in Ultimo(r).q.idem
    ensures Llega(c, r, r', Encolada(c, Ultimo(r), n, sc, q, e, t))
  {
    var r1 := LlegaAIniciar(c, r, n, sc, q);
    r' := LlegaAEncolarDesdeInicio(c, r1, Ultimo(r), n, sc, q, e, t);
  }

  /** `w` once session `k` has the lock and the claim of its item. */
  function Tomada(w: Mundo, k: Clave): Mundo
    requires Reclamable(w.q, k.id)
  {
    var it := w.q.items[k.id].(estado := PROCESSING);
    var t := TicketVigente(w, k.id);
    w.(q := Reclamar(w.q, k.id, k.worker).0, locks := w.locks[it.smartCode := DeWorker(k)],
       ses := w.ses[k := Sesion(Reclamado, it, true, t, None)], log := w.log + [Reclamo(k, t, it.sfcCompletado)])
  }

  lemma LlegaAReclamar(c: Config, r: Corrida, k: Clave) returns (r': Corrida)
    requires EsCorrida(c, r) && k !in Ultimo(r).ses && Reclamable(Ultimo(r).q, k.id)
    requires Ultimo(r).q.items[k.id].smartCode !in Ultimo(r).locks
    ensures Llega(c, r, r', Tomada(Ultimo(r), k))
  {
    var w := Ultimo(r);
    var r2 := LlegaAConLock(c, r, k);
    TomadaDesdeLock(w, k);
    r' := Trabaja(c, r2, k, Reclama, Tomada(w, k));
  }

  /** `w` once session `k` has listed its item and locked the case. */
  function ConLockEn(w: Mundo, k: Clave): Mundo
    requires k.id in w.q.items
  {
    var it := w.q.items[k.id];
    w.(ses := w.ses[k := Sesion(ConLock, it, false, 0, None)], locks := w.locks[it.smartCode := DeWorker(k)])
  }

  lemma LlegaAConLock(c: Config, r: Corrida, k: Clave) returns (r': Corrida)
    requires EsCorrida(c, r) && k !in Ultimo(r).ses && k.id in Ultimo(r).q.items
    requires Ultimo(r).q.items[k.id].smartCode !in Ultimo(r).locks
    ensures Llega(c, r, r', ConLockEn(Ultimo(r), k))
  {
    var w := Ultimo(r);
    var w1 := w.(ses := w.ses[k := Sesion(Listado, w.q.items[k.id], false, 0, None)]);
    var r1 := Trabaja(c, r, k, Lista, w1);
    assert TomarLockEn(w1, k).ses == ConLockEn(w, k).ses;
    r' := Trabaja(c, r1, k, TomaLock, ConLockEn(w, k));
  }

  lemma TomadaDesdeLock(w: Mundo, k: Clave)
    requires Reclamable(w.q, k.id)
    ensures ReclamarEn(ConLockEn(w, k), k) == Tomada(w, k)
  {
    assert ReclamarEn(ConLockEn(w, k), k).ses == Tomada(w, k).ses;
  }

  /** `w` once the SFC has accepted what session `k` claimed. */
  function Dicha(w: Mundo, k: Clave): Mundo
    requires k in w.ses
  {
    var s := w.ses[k];
    w.(ses := w.ses[k := s.(fase := Aceptado, resp := Some(""))], aceptadas := w.aceptadas + {ClaveDe(s.copia)},
       log := w.log + [Llamada(k, s.ticket), Acepto(k, s.ticket)])
  }

  lemma LlegaAAceptar(c: Config, r: Corrida, k: Clave) returns (r': Corrida)
    requires EsCorrida(c, r) && EnFase(Ultimo(r), k, {Reclamado}) && !Ultimo(r).ses[k].copia.sfcCompletado
    ensures Llega(c, r, r', Dicha(Ultimo(r), k))
  {
    var w := Ultimo(r);
    var r1 := Trabaja(c, r, k, Llama, LlamarEn(w, k));
    var w2 := AceptarEn(LlamarEn(w, k), k, "");
    assert w2.ses == Dicha(w, k).ses && w2.log == Dicha(w, k).log;
    r' := Trabaja(c, r1, k, SfcAcepta(""), w2);
  }

  // ---------------------------------------------------------------- one content, queued and accepted

  const K := Clave(0, 1)

  function Ranura0(c: Config, sc: string, q: Queja): Slot { Slot(sc, c.operacion(q)) }

  /** Item 1 is the only pending one and holds this content, under ticket 0, with `j` attempts counted. */
  predicate Guarda(c: Config, w: Mundo, sc: string, q: Queja, j: int) {
    && w.q.pendientes == {1} && w.q.fallidos == {} && w.q.contador == 1 && 1 in w.q.items && w.q.items[1].id == 1
    && w.q.items[1].smartCode == sc && w.q.items[1].payload == q && w.q.items[1].version == 1
    && w.q.items[1].operacion == c.operacion(q) && w.q.items[1].payloadHash == c.hash(q)
    && !w.q.items[1].sfcCompletado && w.q.items[1].intentos == j && w.q.items[1].maxIntentos == c.maxIntentos
    && w.q.indice == map[Ranura0(c, sc, q) := 1]
    && w.tickets == [Ticket(Ranura0(c, sc, q), q)] && 1 in w.ticketDe && w.ticketDe[1] == 0 && |w.destinos| == 1
    && Clave0(c, sc, q) in w.q.idem && w.q.idem[Clave0(c, sc, q)] == Queued(1)
  }

  /** It waits, nobody is at work, and the workers up to `u` have had their turn. */
  predicate Espera(c: Config, w: Mundo, sc: string, q: Queja, j: int, u: nat) {
    Guarda(c, w, sc, q, j) && w.locks == map[] && w.q.claims == map[] && forall k :: k in w.ses ==> k.worker < u
  }

  lemma EncolaSola(c: Config, sc: string, q: Queja, e: string, t: Instante) returns (r: Corrida)
    ensures CorridaSinEntorno(c, r) && Espera(c, Ultimo(r), sc, q, 1, 0)
    ensures Ultimo(r).log == [] && Ultimo(r).pet.Keys == {0}
  {
    var r0 := Vacia(c);
    r := LlegaAEncolar(c, r0, 0, sc, q, e, t);
    EncoladaSola(c, sc, q, e, t);
  }

  lemma EncoladaSola(c: Config, sc: string, q: Queja, e: string, t: Instante)
    ensures Espera(c, Encolada(c, INICIAL, 0, sc, q, e, t), sc, q, 1, 0)
    ensures Encolada(c, INICIAL, 0, sc, q, e, t).log == [] && Encolada(c, INICIAL, 0, sc, q, e, t).pet.Keys == {0}
  {
  }

  /** Session `k` has the content accepted by the SFC and still owns the claim and the case. */
  predicate AceptadaSola(c: Config, w: Mundo, k: Clave, sc: string, q: Queja, j: int) {
    && Guarda(c, w, sc, q, j) && EnFase(w, k, {Aceptado}) && EsDueno(w, k) && w.q.items[1].estado == PROCESSING
    && k.id == 1 && w.ses[k].copia == w.q.items[1] && w.ses[k].ticket == 0 && w.locks == map[sc := DeWorker(k)]
    && (forall j :: j in w.ses ==> j.worker <= k.worker) && w.q.claims == map[1 := k.worker]
  }

  lemma AceptaEsperando(c: Config, r: Corrida, sc: string, q: Queja, j: int, k: Clave) returns (r': Corrida)
    requires EsCorrida(c, r) && k.id == 1 && Espera(c, Ultimo(r), sc, q, j, k.worker)
    ensures Avanza(c, r, r') && AceptadaSola(c, Ultimo(r'), k, sc, q, j)
    ensures Ultimo(r').pet == Ultimo(r).pet
    ensures Ultimo(r').log == Ultimo(r).log + [Reclamo(k, 0, false), Llamada(k, 0), Acepto(k, 0)]
  {
    var r1 := LlegaAReclamar(c, r, k);
    r' := LlegaAAceptar(c, r1, k);
  }

  lemma AceptaSola(c: Config, sc: string, q: Queja, e: string, t: Instante) returns (r: Corrida)
    ensures CorridaSinEntorno(c, r) && AceptadaSola(c, Ultimo(r), K, sc, q, 1)
    ensures Ultimo(r).log == [Reclamo(K, 0, false), Llamada(K, 0), Acepto(K, 0)] && Ultimo(r).pet.Keys == {0}
  {
    var r0 := EncolaSola(c, sc, q, e, t);
    r := AceptaEsperando(c, r0, sc, q, 1, K);
  }

  /** The family of `CopiaDuranteEnvioSeReenvia` is reached from the empty store with nothing expiring. */
  lemma LlegaLaCopia(c: Config, sc: string, q: Queja, e: string, t: Instante) returns (r: Corrida)
    requires c.maxIntentos >= 2
    ensures CorridaSinEntorno(c, r) && CopiaEnVuelo(c, Ultimo(r), K, 1)
  {
    var r0 := AceptaSola(c, sc, q, e, t);
    var w0 := Ultimo(r0);
    var w1 := w0.(pet := w0.pet[1 := Peticion(Recibida, sc, q, false)]);
    r := Pide(c, r0, 1, Recibe(sc, q), w1);
    CorridaConserva(c, r, |r.estados| - 1);
    EsCopiaEnVuelo(c, w0, w1, sc, q);
  }

  lemma EsCopiaEnVuelo(c: Config, w: Mundo, w': Mundo, sc: string, q: Queja)
    requires AceptadaSola(c, w, K, sc, q, 1) && InvM(c, w')
    requires w' == w.(pet := w.pet[1 := Peticion(Recibida, sc, q, false)])
    ensures CopiaEnVuelo(c, w', K, 1)
  {
  }

  /** The accepted content recorded: SFC_DONE and COMPLETED durable, the session still at work. */
  predicate HechaSola(c: Config, w: Mundo, k: Clave, sc: string, q: Queja, j: int) {
    && w.q.pendientes == {1} && 1 in w.q.items && w.q.items[1].id == 1 && w.q.items[1].smartCode == sc
    && w.q.items[1].payload == q && w.q.items[1].operacion == c.operacion(q) && w.q.items[1].payloadHash == c.hash(q)
    && w.q.items[1].version == 1 && w.q.items[1].sfcCompletado && w.q.items[1].estado == SFC_DONE
    && w.q.indice == map[Ranura0(c, sc, q) := 1] && w.tickets == [Ticket(Ranura0(c, sc, q), q)] && |w.destinos| == 1
    && 1 in w.ticketDe && w.ticketDe[1] == 0
    && k.id == 1 && EnFase(w, k, {SfcHecho}) && w.ses[k].copia.version == 1 && w.ses[k].copia.intentos == j
    && w.ses[k].copia.maxIntentos == c.maxIntentos && w.ses[k].copia.smartCode == sc
    && ClaveDe(w.ses[k].copia) == Clave0(c, sc, q)
    && w.q.claims == map[1 := k.worker] && w.locks == map[sc := DeWorker(k)]
    && forall j :: j in w.ses ==> j.worker <= k.worker
  }

  lemma HechoSola(c: Config, w: Mundo, k: Clave, sc: string, q: Queja, j: int, t: Instante)
    requires AceptadaSola(c, w, k, sc, q, j)
    ensures var w' := MarcarSfcEn(w, k, t);
            && HechaSola(c, w', k, sc, q, j) && w'.log == w.log + [Hecho(0)] && w'.pet == w.pet
            && w'.q.idem == w.q.idem[Clave0(c, sc, q) := Completed(w.ses[k].resp)]
  {
    assert Cerca(w.q, 1, k.worker, 1).Aplicado?;
  }

  /** A run that ends in success: what is proved of EXITOSO items is not about nothing. */
  lemma LlegaAlExito(c: Config, sc: string, q: Queja, e: string, t: Instante) returns (r: Corrida)
    ensures CorridaSinEntorno(c, r) && 1 in Ultimo(r).q.exitosos && 1 in Ultimo(r).q.items
    ensures Ultimo(r).q.items[1].payload == q && Ultimo(r).q.items[1].smartCode == sc
  {
    var r0 := AceptaSola(c, sc, q, e, t);
    var w0 := Ultimo(r0);
    HechoSola(c, w0, K, sc, q, 1, t);
    var w1 := MarcarSfcEn(w0, K, t);
    var r1 := Trabaja(c, r0, K, MarcaSfc(t), w1);
    var w2 := ConfirmarEn(w1, K);
    var r2 := Trabaja(c, r1, K, CrmConfirma, w2);
    var w3 := MarcarExitoEn(w2, K, t);
    r := Trabaja(c, r2, K, MarcaExito(t), w3);
    assert w3.q == MarcarExitoso(w2.q, 1, 0, 1, t).0;
  }
}
