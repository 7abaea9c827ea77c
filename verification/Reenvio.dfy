/**
 * When a content the SFC already has is sent again: exactly while some pending item holds it unmarked. After its
 * SFC_DONE only an enqueue of the same content, or the replay of an item that holds it, brings that back.
 */
module Reenvio {
  import opened Comun
  import opened Cola
  import opened ColaInvariantes
  import opened Protocolo
  import opened ProtocoloInvariante
  import opened ProtocoloTeoremas
  import P = ProtocoloPasos

  // ---------------------------------------------------------------- which step recorded an event

  predicate AnotaALoMasUno(w: Mundo, w': Mundo) {
    w'.log == w.log || (|w'.log| == |w.log| + 1 && w'.log[..|w.log|] == w.log)
  }

  /** The session step that can have recorded `e`. */
  predicate OrigenDe(w: Mundo, p: Paso, e: Evento) {
    && (e.Hecho? ==> p.Trabajador? && p.s.MarcaSfc? && EnFase(w, p.k, {Aceptado}) && w.ses[p.k].ticket == e.t
                     && Cerca(w.q, p.k.id, p.k.worker, w.ses[p.k].copia.version).Aplicado?)
    && (e.Reclamo? ==> p.Trabajador? && p.s.Reclama? && p.k == e.k && Reclamable(w.q, p.k.id)
                       && TicketVigente(w, p.k.id) == e.t && w.q.items[p.k.id].sfcCompletado == e.yaHecho)
  }

  lemma AnotaSesion(c: Config, w: Mundo, k: Clave, s: PasoSesion)
    requires PuedeSesion(w, k, s)
    ensures var w' := TrasSesion(c, w, k, s);
            AnotaALoMasUno(w, w') && (w'.log != w.log ==> OrigenDe(w, Trabajador(k, s), w'.log[|w.log|]))
  {
    match s
    case Reclama => assert ReclamarEn(w, k).log == w.log || |ReclamarEn(w, k).log| == |w.log| + 1;
    case MarcaSfc(ahora) => assert |MarcarSfcEn(w, k, ahora).log| <= |w.log| + 1;
    case MarcaExito(ahora) => assert |MarcarExitoEn(w, k, ahora).log| <= |w.log| + 1;
    case _ =>
  }

  lemma NoAnotaPeticion(c: Config, w: Mundo, n: nat, t: PasoPeticion)
    requires PuedePeticion(w, n, t)
    ensures TrasPeticion(c, w, n, t).log == w.log
  {
  }

  lemma AnotaPaso(c: Config, w: Mundo, p: Paso)
    requires Habilitado(w, p)
    ensures var w' := Aplicar(c, w, p);
            AnotaALoMasUno(w, w') && (w'.log != w.log ==> OrigenDe(w, p, w'.log[|w.log|]))
  {
    match p
    case Entorno(e) =>
    case Trabajador(k, s) => AnotaSesion(c, w, k, s);
    case Solicitud(n, t) => NoAnotaPeticion(c, w, n, t);
  }

  /** The step that recorded the `b`-th event of a later log. */
  lemma {:induction false} PasoDelEvento(c: Config, r: Corrida, i: nat, b: nat) returns (j: nat)
    requires EsCorrida(c, r) && i < |r.estados| && b < |r.estados[i].log|
    ensures j < i && r.estados[j].log == r.estados[i].log[..b] && b < |r.estados[j + 1].log|
    ensures r.estados[j + 1].log[b] == r.estados[i].log[b] && OrigenDe(r.estados[j], r.pasos[j], r.estados[i].log[b])
  {
    AnotaPaso(c, r.estados[i - 1], r.pasos[i - 1]);
    if b < |r.estados[i - 1].log| {
      j := PasoDelEvento(c, r, i - 1, b);
      assert r.estados[i].log[..b] == r.estados[i - 1].log[..b];
    } else {
      j := i - 1;
      assert r.estados[i].log[..b] == r.estados[j].log;
    }
  }

  // ---------------------------------------------------------------- exposed to a claim, step by step

  /** The step puts exactly this content, in this slot, into a pending item. */
  predicate Revive(c: Config, w: Mundo, p: Paso, tk: Ticket) {
    || (p.Solicitud? && p.t.PetEncola? && p.n in w.pet && Ticket(RanuraDePet(c, w.pet[p.n]), w.pet[p.n].payload) == tk)
    || (p.Entorno? && p.e.Reencola? && EstadoReplay(w.q, p.e.id).Reencolado? && p.e.id in w.ticketDe
        && w.ticketDe[p.e.id] < |w.tickets| && w.tickets[w.ticketDe[p.e.id]] == tk)
  }

  ghost predicate ReviveEn(c: Config, r: Corrida, m: nat, tk: Ticket)
    requires |r.estados| == |r.pasos| + 1
  {
    m < |r.pasos| && Revive(c, r.estados[m], r.pasos[m], tk)
  }

  /** Item `id` is pending under a ticket of this content, not marked as sent. */
  predicate ExpuestoEn(w: Mundo, id: nat, tk: Ticket) {
    && id in w.q.pendientes && id in w.q.items && !w.q.items[id].sfcCompletado
    && id in w.ticketDe && w.ticketDe[id] < |w.tickets| && w.tickets[w.ticketDe[id]] == tk
  }

  ghost predicate Expuesto(w: Mundo, tk: Ticket) { exists id: nat :: ExpuestoEn(w, id, tk) }

  lemma ExponeReclamar(w: Mundo, k: Clave, id: nat, tk: Ticket)
    requires k in w.ses && ExpuestoEn(ReclamarEn(w, k), id, tk)
    ensures ExpuestoEn(w, id, tk)
  {
  }

  lemma ExponeSfc(w: Mundo, k: Clave, ahora: Instante, id: nat, tk: Ticket)
    requires k in w.ses && ExpuestoEn(MarcarSfcEn(w, k, ahora), id, tk)
    ensures ExpuestoEn(w, id, tk)
  {
  }

  lemma ExponeExito(w: Mundo, k: Clave, ahora: Instante, id: nat, tk: Ticket)
    requires k in w.ses && ExpuestoEn(MarcarExitoEn(w, k, ahora), id, tk)
    ensures ExpuestoEn(w, id, tk)
  {
  }

  lemma ExponeFalla(c: Config, w: Mundo, k: Clave, error: string, consumir: bool, ahora: Instante, id: nat, tk: Ticket)
    requires k in w.ses && ExpuestoEn(FallarEn(c, w, k, error, consumir, ahora), id, tk)
    ensures ExpuestoEn(w, id, tk)
  {
    var a := ArgsDeFallo(c, w.ses[k].copia, error, consumir, ahora);
    assert FallarEn(c, w, k, error, consumir, ahora).q
        == RegistrarFallo(w.q, k.id, k.worker, w.ses[k].copia.version, a).0;
  }

  lemma ExponeSesion(c: Config, w: Mundo, k: Clave, s: PasoSesion, id: nat, tk: Ticket)
    requires PuedeSesion(w, k, s) && ExpuestoEn(TrasSesion(c, w, k, s), id, tk)
    ensures ExpuestoEn(w, id, tk)
  {
    match s
    case Reclama => ExponeReclamar(w, k, id, tk);
    case MarcaSfc(ahora) => ExponeSfc(w, k, ahora, id, tk);
    case MarcaExito(ahora) => ExponeExito(w, k, ahora, id, tk);
    case Falla(error, consumir, ahora) => ExponeFalla(c, w, k, error, consumir, ahora, id, tk);
    case _ =>
  }

  lemma ExponeEncolar(c: Config, w: Mundo, n: nat, t: PasoPeticion, id: nat, tk: Ticket)
    requires InvM(c, w) && n in w.pet && t.PetEncola? && !Revive(c, w, Solicitud(n, t), tk)
    requires ExpuestoEn(RecibirEncolado(c, w, n, t.error, t.ahora), id, tk)
    ensures ExpuestoEn(w, id, tk)
  {
    var s := RanuraDePet(c, w.pet[n]);
    assert SlotOk(w.q, s) && LibroOk(w, id);
    assert Ocupado(w.q, s) ==> IdOk(c, w.q, w.q.indice[s]);
  }

  lemma ExponePeticion(c: Config, w: Mundo, n: nat, t: PasoPeticion, id: nat, tk: Ticket)
    requires PuedePeticion(w, n, t) && PetOk(c, w, n) && !t.PetEncola? && ExpuestoEn(TrasPeticion(c, w, n, t), id, tk)
    ensures ExpuestoEn(w, id, tk)
  {
    if t.Cancela? {
      assert ExpuestoEn(CancelarEn(c, w, n), id, tk);
    } else {
      P.PeticionMenor(c, w, n, t);
    }
  }

  lemma ExponeEntorno(c: Config, w: Mundo, e: PasoEntorno, id: nat, tk: Ticket)
    requires PuedeEntorno(w, e) && !Revive(c, w, Entorno(e), tk) && ExpuestoEn(TrasEntorno(w, e), id, tk)
    ensures ExpuestoEn(w, id, tk)
  {
  }

  lemma ExponeUnPaso(c: Config, w: Mundo, p: Paso, id: nat, tk: Ticket)
    requires InvM(c, w) && Habilitado(w, p) && !Revive(c, w, p, tk) && ExpuestoEn(Aplicar(c, w, p), id, tk)
    ensures ExpuestoEn(w, id, tk)
  {
    match p
    case Entorno(e) => ExponeEntorno(c, w, e, id, tk);
    case Trabajador(k, s) => ExponeSesion(c, w, k, s, id, tk);
    case Solicitud(n, t) =>
      if t.PetEncola? {
        ExponeEncolar(c, w, n, t, id, tk);
      } else {
        assert PetOk(c, w, n);
        ExponePeticion(c, w, n, t, id, tk);
      }
  }

  // ---------------------------------------------------------------- over runs: after SFC_DONE

  /** What no step brought back was there before. */
  lemma {:induction false} ExpuestoDesde(c: Config, r: Corrida, i: nat, j: nat, tk: Ticket)
    requires c.maxIntentos >= 2 && EsCorrida(c, r) && i <= j < |r.estados| && Expuesto(r.estados[j], tk)
    requires forall m: nat :: i <= m < j ==> !ReviveEn(c, r, m, tk)
    ensures Expuesto(r.estados[i], tk)
    decreases j
  {
    if i < j {
      var id: nat :| ExpuestoEn(r.estados[j], id, tk);
      CorridaConserva(c, r, j - 1);
      assert !ReviveEn(c, r, j - 1, tk);
      ExponeUnPaso(c, r.estados[j - 1], r.pasos[j - 1], id, tk);
      ExpuestoDesde(c, r, i, j - 1, tk);
    }
  }

  /** SFC_DONE of a content ends its exposure: the slot's pending item is the one just marked. */
  lemma HechoTapa(c: Config, w: Mundo, p: Paso, t: nat)
    requires InvM(c, w) && Habilitado(w, p) && OrigenDe(w, p, Hecho(t)) && InvM(c, Aplicar(c, w, p))
    ensures t < |w.tickets| && !Expuesto(Aplicar(c, w, p), w.tickets[t])
  {
    var k := p.k;
    var w' := Aplicar(c, w, p);
    DuenoTieneElSlot(c, w, k);
    assert w' == MarcarSfcEn(w, k, p.s.ahora);
    forall id: nat ensures !ExpuestoEn(w', id, w.tickets[t]) {
      assert LibroOk(w', id) && IdOk(c, w'.q, id);
    }
  }

  lemma DuenoTieneElSlot(c: Config, w: Mundo, k: Clave)
    requires InvM(c, w) && EnFase(w, k, {Aceptado})
    requires Cerca(w.q, k.id, k.worker, w.ses[k].copia.version).Aplicado?
    ensures var t := w.ses[k].ticket;
            && k.id in w.q.pendientes && k.id in w.q.items && k.id in w.ticketDe && w.ticketDe[k.id] == t
            && t < |w.tickets| && w.tickets[t].slot in w.q.indice && w.q.indice[w.tickets[t].slot] == k.id
  {
    assert SesOk(c, w, k) && IdOk(c, w.q, k.id) && LibroOk(w, k.id);
  }

  /** The step of SFC_DONE in a run. */
  lemma HechoEnCorrida(c: Config, r: Corrida, i: nat, a: nat, t: nat) returns (h: nat)
    requires c.maxIntentos >= 2 && EsCorrida(c, r) && i < |r.estados|
    requires a < |r.estados[i].log| && r.estados[i].log[a] == Hecho(t) && t < |r.estados[i].tickets|
    ensures h < i && |r.estados[h].log| == a && |r.estados[h + 1].log| == a + 1
    ensures !Expuesto(r.estados[h + 1], r.estados[i].tickets[t])
  {
    h := PasoDelEvento(c, r, i, a);
    CorridaConserva(c, r, h);
    CorridaConserva(c, r, h + 1);
    CorridaSigue(c, r, h, i);
    AnotaPaso(c, r.estados[h], r.pasos[h]);
    HechoTapa(c, r.estados[h], r.pasos[h], t);
  }

  lemma ReviveEntre(c: Config, r: Corrida, i: nat, j: nat, tk: Ticket) returns (m: nat)
    requires c.maxIntentos >= 2 && EsCorrida(c, r) && i <= j < |r.estados|
    requires !Expuesto(r.estados[i], tk) && Expuesto(r.estados[j], tk)
    ensures i <= m < j && ReviveEn(c, r, m, tk)
  {
    if forall n: nat :: i <= n < j ==> !ReviveEn(c, r, n, tk) {
      ExpuestoDesde(c, r, i, j, tk);
    }
    m :| i <= m < j && ReviveEn(c, r, m, tk);
  }

  /** After its SFC_DONE a content is exposed only if it was enqueued again or an item that holds it was replayed. */
  lemma ExpuestoTrasHecho(c: Config, r: Corrida, i: nat, a: nat, t: nat) returns (m: nat)
    requires c.maxIntentos >= 2 && EsCorrida(c, r) && i < |r.estados|
    requires a < |r.estados[i].log| && r.estados[i].log[a] == Hecho(t) && t < |r.estados[i].tickets|
    requires Expuesto(r.estados[i], r.estados[i].tickets[t])
    ensures m < i && a < |r.estados[m].log| && ReviveEn(c, r, m, r.estados[i].tickets[t])
  {
    var h := HechoEnCorrida(c, r, i, a, t);
    m := ReviveEntre(c, r, h + 1, i, r.estados[i].tickets[t]);
    CorridaSigue(c, r, h + 1, m);
  }

  /** A session that calls claimed an item that did not have the flag. */
  lemma LlamadaTrasReclamoLimpio(c: Config, r: Corrida, i: nat, k: Clave, t: nat, ya: bool)
    requires c.maxIntentos >= 2 && EsCorrida(c, r) && i < |r.estados|
    requires Llamada(k, t) in r.estados[i].log && Reclamo(k, t, ya) in r.estados[i].log
    ensures !ya
  {
    CorridaConserva(c, r, i);
    var w := r.estados[i];
    var d := Posicion(w.log, Llamada(k, t), |w.log|);
    EventoTuvoAntes(w.log, d);
    UnReclamoPorSesion(w, k, t, ya, t, false);
  }

  /** The step of a claim whose content is then sent: the content was exposed. */
  lemma ReclamoEnCorrida(c: Config, r: Corrida, i: nat, b: nat, k: Clave, t: nat) returns (j: nat)
    requires c.maxIntentos >= 2 && EsCorrida(c, r) && i < |r.estados|
    requires b < |r.estados[i].log| && r.estados[i].log[b] == Reclamo(k, t, false) && t < |r.estados[i].tickets|
    ensures j < i && |r.estados[j].log| == b && Expuesto(r.estados[j], r.estados[i].tickets[t])
  {
    j := PasoDelEvento(c, r, i, b);
    CorridaConserva(c, r, j);
    CorridaSigue(c, r, j, i);
    assert LibroOk(r.estados[j], k.id);
    assert ExpuestoEn(r.estados[j], k.id, r.estados[i].tickets[t]);
  }

  /**
   * A session that claims a content after its SFC_DONE and still calls the SFC with it: in between, some step
   * enqueued that content again or replayed an item that holds it. Without such a step no call of that kind is made.
   */
  lemma ReenvioPideCopiaOReplay(c: Config, r: Corrida, i: nat, a: nat, b: nat, k: Clave, t1: nat, t2: nat, ya: bool)
    returns (m: nat)
    requires c.maxIntentos >= 2 && EsCorrida(c, r) && i < |r.estados| && a < b < |r.estados[i].log|
    requires r.estados[i].log[a] == Hecho(t1) && r.estados[i].log[b] == Reclamo(k, t2, ya)
    requires t1 < |r.estados[i].tickets| && t2 < |r.estados[i].tickets|
    requires r.estados[i].tickets[t1] == r.estados[i].tickets[t2]
    requires Llamada(k, t2) in r.estados[i].log
    ensures m < i && a < |r.estados[m].log| <= b && ReviveEn(c, r, m, r.estados[i].tickets[t1])
  {
    LlamadaTrasReclamoLimpio(c, r, i, k, t2, ya);
    var h := HechoEnCorrida(c, r, i, a, t1);
    var j := ReclamoEnCorrida(c, r, i, b, k, t2);
    if j <= h {
      CorridaSigue(c, r, j, h);
    }
    m := ReviveEntre(c, r, h + 1, j, r.estados[i].tickets[t1]);
    CorridaSigue(c, r, h + 1, m);
    CorridaSigue(c, r, m, j);
  }

  // ---------------------------------------------------------------- exactly when it can be sent again

  /** `r'` goes on from `r`, and in what it adds nobody enqueues this content or replays an item that holds it. */
  ghost predicate SigueSinRevivir(c: Config, r: Corrida, r': Corrida, tk: Ticket)
    requires |r.estados| == |r.pasos| + 1
  {
    && EsCorrida(c, r') && r.estados <= r'.estados && r.pasos <= r'.pasos
    && forall m: nat :: |r.pasos| <= m ==> !ReviveEn(c, r', m, tk)
  }

  /** In `r'` a session claims this content, unmarked, after the end of `r`, and calls the SFC with it. */
  ghost predicate LoReenvia(r: Corrida, r': Corrida, k: Clave, t: nat, b: nat, tk: Ticket)
    requires |r.estados| > 0 && |r'.estados| > 0
  {
    var w' := Ultimo(r');
    && |Ultimo(r).log| <= b < |w'.log| && w'.log[b] == Reclamo(k, t, false) && Llamada(k, t) in w'.log
    && t < |w'.tickets| && w'.tickets[t] == tk
  }

  /** A claim still to come can send the content only if it is exposed now. */
  lemma ReenvioPideExpuesto(c: Config, r: Corrida, r': Corrida, k: Clave, t: nat, b: nat, tk: Ticket)
    requires c.maxIntentos >= 2 && EsCorrida(c, r) && SigueSinRevivir(c, r, r', tk) && LoReenvia(r, r', k, t, b, tk)
    ensures Expuesto(Ultimo(r), tk)
  {
    var i := |r.pasos|;
    assert r'.estados[i] == Ultimo(r);
    var j := PasoDelEvento(c, r', |r'.pasos|, b);
    if j < i {
      CorridaSigue(c, r', j + 1, i);
    }
    CorridaConserva(c, r', j);
    CorridaSigue(c, r', j, |r'.pasos|);
    assert LibroOk(r'.estados[j], k.id);
    assert ExpuestoEn(r'.estados[j], k.id, tk);
    ExpuestoDesde(c, r', i, j, tk);
  }

  // ---------------------------------------------------------------- and if it is exposed, some run does send it

  lemma Empuja(c: Config, r: Corrida, x: Corrida, p: Paso, tk: Ticket, w': Mundo) returns (x': Corrida)
    requires EsCorrida(c, r) && SigueSinRevivir(c, r, x, tk) && !p.Solicitud? && (p.Entorno? ==> !p.e.Reencola?)
    requires Habilitado(Ultimo(x), p) && Aplicar(c, Ultimo(x), p) == w'
    ensures SigueSinRevivir(c, r, x', tk) && Ultimo(x') == w'
  {
    MasEsCorrida(c, x, p);
    x' := Mas(c, x, p);
    forall m: nat | |r.pasos| <= m ensures !ReviveEn(c, x', m, tk) {
      if m < |x.pasos| {
        assert !ReviveEn(c, x, m, tk);
        assert x'.pasos[m] == x.pasos[m] && x'.estados[m] == x.estados[m];
      }
    }
  }

  lemma {:induction false} WorkerNuevo(ks: set<Clave>) returns (u: nat)
    ensures forall k :: k in ks ==> k.worker < u
    decreases ks
  {
    u := 0;
    if k :| k in ks {
      var v := WorkerNuevo(ks - {k});
      u := if v <= k.worker then k.worker + 1 else v;
    }
  }

  lemma SeReenvia(c: Config, r: Corrida, id: nat, tk: Ticket) returns (x: Corrida, k: Clave, t: nat, b: nat)
    requires c.maxIntentos >= 2 && EsCorrida(c, r) && ExpuestoEn(Ultimo(r), id, tk)
    ensures SigueSinRevivir(c, r, x, tk) && LoReenvia(r, x, k, t, b, tk)
  {
    var w := Ultimo(r);
    var u := WorkerNuevo(w.ses.Keys);
    k, t, b := Clave(u, id), w.ticketDe[id], |w.log|;
    var it := w.q.items[id];
    var w1 := w.(q := ExpirarClaim(w.q, id));
    var x1 := Empuja(c, r, r, Entorno(ExpiraClaim(id)), tk, w1);
    var w2 := w1.(locks := Quitar(w1.locks, it.smartCode));
    var x2 := Empuja(c, r, x1, Entorno(ExpiraLock(it.smartCode)), tk, w2);
    x := ReclamaYLlama(c, r, x2, k, tk);
  }

  lemma ListaYLock(c: Config, r: Corrida, x: Corrida, k: Clave, tk: Ticket) returns (x': Corrida)
    requires EsCorrida(c, r) && SigueSinRevivir(c, r, x, tk) && k !in Ultimo(x).ses && k.id in Ultimo(x).q.items
    requires Ultimo(x).q.items[k.id].smartCode !in Ultimo(x).locks
    ensures SigueSinRevivir(c, r, x', tk) && EnFase(Ultimo(x'), k, {ConLock})
    ensures var w, w' := Ultimo(x), Ultimo(x');
            w'.q == w.q && w'.ticketDe == w.ticketDe && w'.log == w.log && w'.tickets == w.tickets
  {
    var w := Ultimo(x);
    var w1 := w.(ses := w.ses[k := Sesion(Listado, w.q.items[k.id], false, 0, None)]);
    var x1 := Empuja(c, r, x, Trabajador(k, Lista), tk, w1);
    x' := Empuja(c, r, x1, Trabajador(k, TomaLock), tk, TomarLockEn(w1, k));
  }

  lemma ReclamaYLlama(c: Config, r: Corrida, x: Corrida, k: Clave, tk: Ticket) returns (x': Corrida)
    requires EsCorrida(c, r) && SigueSinRevivir(c, r, x, tk) && k !in Ultimo(x).ses && Reclamable(Ultimo(x).q, k.id)
    requires Ultimo(x).q.items[k.id].smartCode !in Ultimo(x).locks && !Ultimo(x).q.items[k.id].sfcCompletado
    ensures SigueSinRevivir(c, r, x', tk) && Ultimo(x').tickets == Ultimo(x).tickets
    ensures var t := TicketVigente(Ultimo(x), k.id);
            Ultimo(x').log == Ultimo(x).log + [Reclamo(k, t, false), Llamada(k, t)]
  {
    var w := Ultimo(x);
    var x2 := ListaYLock(c, r, x, k, tk);
    var w2 := Ultimo(x2);
    var w3 := ReclamarEn(w2, k);
    var x3 := Empuja(c, r, x2, Trabajador(k, Reclama), tk, w3);
    x' := Empuja(c, r, x3, Trabajador(k, Llama), tk, LlamarEn(w3, k));
  }

  /**
   * Over every run, whether the SFC already accepted this content or not: some way of going on, without the content
   * being enqueued again or an item that holds it being replayed, has a session claim it and send it, if and only if
   * some pending item holds it unmarked now.
   */
  lemma ReenviableSii(c: Config, r: Corrida, tk: Ticket)
    requires c.maxIntentos >= 2 && EsCorrida(c, r)
    ensures Expuesto(Ultimo(r), tk)
            <==> exists r', k, t, b :: SigueSinRevivir(c, r, r', tk) && LoReenvia(r, r', k, t, b, tk)
  {
    if Expuesto(Ultimo(r), tk) {
      var id: nat :| ExpuestoEn(Ultimo(r), id, tk);
      var x, k, t, b := SeReenvia(c, r, id, tk);
    }
    if r', k, t, b :| SigueSinRevivir(c, r, r', tk) && LoReenvia(r, r', k, t, b, tk) {
      ReenvioPideExpuesto(c, r, r', k, t, b, tk);
    }
  }
}
