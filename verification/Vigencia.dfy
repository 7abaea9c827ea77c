/**
 * When a request is told "already queued": the answer depends on whether anybody has claimed the item since it last
 * went back to waiting, not on whether it waits or on who holds the claim now.
 */
module Vigencia {
  import opened Comun
  import opened Cola
  import opened ColaInvariantes
  import opened Protocolo
  import opened ProtocoloInvariante
  import opened ProtocoloPasos
  import opened ProtocoloTeoremas

  // ---------------------------------------------------------------- an owner at its version is at work

  /** Whoever still owns the claim at the version it claimed finds the item under way, never waiting. */
  predicate EnObra(w: Mundo, id: nat) {
    id in w.q.claims && id in w.q.items && Clave(w.q.claims[id], id) in w.ses
    && w.ses[Clave(w.q.claims[id], id)].copia.version == w.q.items[id].version
    ==> w.q.items[id].estado != PENDIENTE
  }

  ghost predicate Obras(w: Mundo) { forall id: nat :: EnObra(w, id) }

  /** What the step leaves of claim, item and copy of `id`, seen from the state before. */
  predicate SigueEnObra(w: Mundo, w': Mundo, id: nat) {
    id in w'.q.claims && id in w'.q.items && Clave(w'.q.claims[id], id) in w'.ses
    && w'.ses[Clave(w'.q.claims[id], id)].copia.version == w'.q.items[id].version
    && w'.q.items[id].estado == PENDIENTE
    ==>
      && id in w.q.claims && w.q.claims[id] == w'.q.claims[id] && id in w.q.items
      && Clave(w.q.claims[id], id) in w.ses
      && w.ses[Clave(w.q.claims[id], id)].copia.version == w.q.items[id].version
      && w.q.items[id].estado == PENDIENTE
  }

  lemma ObraDeReclamar(w: Mundo, k: Clave, id: nat)
    requires k in w.ses
    ensures SigueEnObra(w, ReclamarEn(w, k), id)
  {
  }

  lemma ObraDeSfc(w: Mundo, k: Clave, ahora: Instante, id: nat)
    requires k in w.ses
    ensures SigueEnObra(w, MarcarSfcEn(w, k, ahora), id)
  {
  }

  lemma ObraDeExito(w: Mundo, k: Clave, ahora: Instante, id: nat)
    requires k in w.ses
    ensures SigueEnObra(w, MarcarExitoEn(w, k, ahora), id)
  {
  }

  lemma ObraDeFalla(c: Config, w: Mundo, k: Clave, error: string, consumir: bool, ahora: Instante, id: nat)
    requires k in w.ses
    ensures SigueEnObra(w, FallarEn(c, w, k, error, consumir, ahora), id)
  {
    var a := ArgsDeFallo(c, w.ses[k].copia, error, consumir, ahora);
    assert FallarEn(c, w, k, error, consumir, ahora).q
        == RegistrarFallo(w.q, k.id, k.worker, w.ses[k].copia.version, a).0;
  }

  lemma ObraDeSesion(c: Config, w: Mundo, k: Clave, s: PasoSesion, id: nat)
    requires PuedeSesion(w, k, s) && ClaimOk(w, id)
    ensures SigueEnObra(w, TrasSesion(c, w, k, s), id)
  {
    match s
    case Reclama => ObraDeReclamar(w, k, id);
    case MarcaSfc(ahora) => ObraDeSfc(w, k, ahora, id);
    case MarcaExito(ahora) => ObraDeExito(w, k, ahora, id);
    case Falla(error, consumir, ahora) => ObraDeFalla(c, w, k, error, consumir, ahora, id);
    case _ =>
  }

  lemma ObraDeEncolar(c: Config, w: Mundo, n: nat, e: string, ahora: Instante, id: nat)
    requires InvM(c, w) && n in w.pet
    ensures SigueEnObra(w, RecibirEncolado(c, w, n, e, ahora), id)
  {
    var s := RanuraDePet(c, w.pet[n]);
    assert IdOk(c, w.q, w.q.contador + 1) && SlotOk(w.q, s) && ClaimOk(w, id);
    if id in w.q.claims {
      assert SesOk(c, w, Clave(w.q.claims[id], id));
    }
  }

  /** A step that writes no item: what remains of the queue is as it was. */
  predicate NoEscribe(w: Mundo, w': Mundo) {
    && w'.ses == w.ses && w'.q.claims == w.q.claims && w'.q.pendientes <= w.q.pendientes
    && w'.q.items.Keys <= w.q.items.Keys && (forall id :: id in w'.q.items ==> w'.q.items[id] == w.q.items[id])
  }

  lemma PeticionNoEscribe(c: Config, w: Mundo, n: nat, t: PasoPeticion)
    requires PuedePeticion(w, n, t) && !t.PetEncola? && PetOk(c, w, n)
    ensures NoEscribe(w, TrasPeticion(c, w, n, t))
  {
    if t.Cancela? {
      CancelarNoEscribe(c, w, n);
    } else {
      PeticionMenor(c, w, n, t);
    }
  }

  lemma CancelarNoEscribe(c: Config, w: Mundo, n: nat)
    requires n in w.pet && w.pet[n].fase.Cancelando?
    ensures NoEscribe(w, CancelarEn(c, w, n))
  {
  }

  lemma ObraDeEntorno(c: Config, w: Mundo, e: PasoEntorno, id: nat)
    requires InvM(c, w) && PuedeEntorno(w, e)
    ensures SigueEnObra(w, TrasEntorno(w, e), id)
  {
    assert ClaimOk(w, id) && IdOk(c, w.q, id);
    if id in w.q.claims {
      assert SesOk(c, w, Clave(w.q.claims[id], id));
    }
  }

  lemma ObrasUnPaso(c: Config, w: Mundo, p: Paso)
    requires InvM(c, w) && Habilitado(w, p) && Obras(w)
    ensures Obras(Aplicar(c, w, p))
  {
    forall id: nat ensures EnObra(Aplicar(c, w, p), id) {
      assert EnObra(w, id);
      ObraUnPaso(c, w, p, id);
    }
  }

  lemma ObraUnPaso(c: Config, w: Mundo, p: Paso, id: nat)
    requires InvM(c, w) && Habilitado(w, p)
    ensures SigueEnObra(w, Aplicar(c, w, p), id)
  {
    match p
    case Entorno(e) => ObraDeEntorno(c, w, e, id);
    case Trabajador(k, s) =>
      assert ClaimOk(w, id);
      ObraDeSesion(c, w, k, s, id);
    case Solicitud(n, t) =>
      if t.PetEncola? {
        ObraDeEncolar(c, w, n, t.error, t.ahora, id);
      } else {
        assert t.Recibe? || PetOk(c, w, n);
        PeticionNoEscribe(c, w, n, t);
      }
  }

  lemma {:induction false} CorridaObras(c: Config, r: Corrida, i: nat)
    requires c.maxIntentos >= 2 && EsCorrida(c, r) && i < |r.estados|
    ensures Obras(r.estados[i])
  {
    if i > 0 {
      CorridaObras(c, r, i - 1);
      CorridaConserva(c, r, i - 1);
      ObrasUnPaso(c, r.estados[i - 1], r.pasos[i - 1]);
    }
  }

  // ---------------------------------------------------------------- back to waiting, and claimed

  /** The step after which `id` waits afresh: an enqueue in it, its replay, or an applied failure, not the last. */
  predicate Vuelve(c: Config, w: Mundo, p: Paso, id: nat) {
    match p
    case Entorno(e) => e.Reencola? && e.id == id && EstadoReplay(w.q, id).Reencolado?
    case Trabajador(k, s) =>
      s.Falla? && k.id == id && k in w.ses && Cerca(w.q, id, k.worker, w.ses[k].copia.version).Aplicado?
      && !ArgsDeFallo(c, w.ses[k].copia, s.error, s.consumir, s.ahora).definitivo
    case Solicitud(n, t) =>
      t.PetEncola? && n in w.pet
      && Encolar(w.q, ArgsDeEncolar(c, w.pet[n].smartCode, w.pet[n].payload, t.error, t.ahora)).1.id == id
  }

  /** The step claims item `id`. */
  predicate LoReclama(w: Mundo, p: Paso, id: nat) {
    p.Trabajador? && p.s.Reclama? && p.k.id == id && Reclamable(w.q, id)
  }

  /** What one step does to "waiting": set by `Vuelve`, unset by a claim, else kept while the item stays pending. */
  predicate EsperaLegal(c: Config, w: Mundo, w': Mundo, p: Paso, id: nat) {
    && (Vuelve(c, w, p, id) ==> id in w'.q.items && w'.q.items[id].estado == PENDIENTE)
    && (LoReclama(w, p, id) ==> id in w'.q.items && w'.q.items[id].estado != PENDIENTE)
    && (!Vuelve(c, w, p, id) && !LoReclama(w, p, id) && id in w'.q.items && id in w'.q.pendientes ==>
          id in w.q.items && id in w.q.pendientes
          && (w'.q.items[id].estado == PENDIENTE <==> w.q.items[id].estado == PENDIENTE))
  }

  lemma EsperaDeSfc(c: Config, w: Mundo, k: Clave, ahora: Instante, id: nat)
    requires k in w.ses && EnObra(w, k.id)
    ensures EsperaLegal(c, w, MarcarSfcEn(w, k, ahora), Trabajador(k, MarcaSfc(ahora)), id)
  {
  }

  lemma EsperaDeExito(c: Config, w: Mundo, k: Clave, ahora: Instante, id: nat)
    requires k in w.ses
    ensures EsperaLegal(c, w, MarcarExitoEn(w, k, ahora), Trabajador(k, MarcaExito(ahora)), id)
  {
  }

  lemma EsperaDeFalla(c: Config, w: Mundo, k: Clave, s: PasoSesion, id: nat)
    requires k in w.ses && s.Falla?
    ensures EsperaLegal(c, w, FallarEn(c, w, k, s.error, s.consumir, s.ahora), Trabajador(k, s), id)
  {
    var a := ArgsDeFallo(c, w.ses[k].copia, s.error, s.consumir, s.ahora);
    assert FallarEn(c, w, k, s.error, s.consumir, s.ahora).q
        == RegistrarFallo(w.q, k.id, k.worker, w.ses[k].copia.version, a).0;
  }

  lemma EsperaDeSesion(c: Config, w: Mundo, k: Clave, s: PasoSesion, id: nat)
    requires PuedeSesion(w, k, s) && EnObra(w, k.id)
    ensures EsperaLegal(c, w, TrasSesion(c, w, k, s), Trabajador(k, s), id)
  {
    match s
    case Reclama => assert EsperaLegal(c, w, ReclamarEn(w, k), Trabajador(k, s), id);
    case MarcaSfc(ahora) => EsperaDeSfc(c, w, k, ahora, id);
    case MarcaExito(ahora) => EsperaDeExito(c, w, k, ahora, id);
    case Falla(error, consumir, ahora) => EsperaDeFalla(c, w, k, s, id);
    case _ =>
  }

  lemma EsperaDeEncolar(c: Config, w: Mundo, n: nat, t: PasoPeticion, id: nat)
    requires n in w.pet && t.PetEncola?
    requires var s := RanuraDePet(c, w.pet[n]); Ocupado(w.q, s) ==> w.q.items[w.q.indice[s]].id == w.q.indice[s]
    ensures EsperaLegal(c, w, RecibirEncolado(c, w, n, t.error, t.ahora), Solicitud(n, t), id)
  {
  }

  lemma EsperaDeEntorno(c: Config, w: Mundo, e: PasoEntorno, id: nat)
    requires PuedeEntorno(w, e) && IdOk(c, w.q, id)
    ensures EsperaLegal(c, w, TrasEntorno(w, e), Entorno(e), id)
  {
  }

  lemma EsperaUnPaso(c: Config, w: Mundo, p: Paso, id: nat)
    requires InvM(c, w) && Habilitado(w, p) && Obras(w)
    ensures EsperaLegal(c, w, Aplicar(c, w, p), p, id)
  {
    match p
    case Entorno(e) =>
      assert IdOk(c, w.q, id);
      EsperaDeEntorno(c, w, e, id);
    case Trabajador(k, s) =>
      assert EnObra(w, k.id);
      EsperaDeSesion(c, w, k, s, id);
    case Solicitud(n, t) =>
      if t.PetEncola? {
        assert Ocupado(w.q, RanuraDePet(c, w.pet[n])) ==> IdOk(c, w.q, w.q.indice[RanuraDePet(c, w.pet[n])]);
        EsperaDeEncolar(c, w, n, t, id);
      } else {
        assert t.Recibe? || PetOk(c, w, n);
        PeticionNoEscribe(c, w, n, t);
      }
  }

  // ---------------------------------------------------------------- over runs

  ghost predicate VuelveEn(c: Config, r: Corrida, m: nat, id: nat)
    requires |r.estados| == |r.pasos| + 1
  {
    m < |r.pasos| && Vuelve(c, r.estados[m], r.pasos[m], id)
  }

  ghost predicate ReclamadoEn(r: Corrida, m: nat, id: nat)
    requires |r.estados| == |r.pasos| + 1
  {
    m < |r.pasos| && LoReclama(r.estados[m], r.pasos[m], id)
  }

  /** Nobody has claimed the item since it last went back to waiting. */
  ghost predicate SinReclamarDesdeQueEspera(c: Config, r: Corrida, i: nat, id: nat)
    requires |r.estados| == |r.pasos| + 1
  {
    exists m: nat :: m < i && VuelveEn(c, r, m, id) && forall j: nat :: m < j < i ==> !ReclamadoEn(r, j, id)
  }

  ghost predicate VivoEn(r: Corrida, m: nat, id: nat) {
    m < |r.estados| && id in r.estados[m].q.items && id in r.estados[m].q.pendientes
  }

  ghost predicate EsperandoEn(r: Corrida, m: nat, id: nat) {
    m < |r.estados| && id in r.estados[m].q.items && r.estados[m].q.items[id].estado == PENDIENTE
  }

  ghost predicate PasoDeEspera(c: Config, r: Corrida, m: nat, id: nat)
    requires |r.estados| == |r.pasos| + 1
  {
    && (VuelveEn(c, r, m, id) ==> EsperandoEn(r, m + 1, id))
    && (ReclamadoEn(r, m, id) ==> !EsperandoEn(r, m + 1, id))
    && (!VuelveEn(c, r, m, id) && !ReclamadoEn(r, m, id) && VivoEn(r, m + 1, id) ==>
          VivoEn(r, m, id) && (EsperandoEn(r, m + 1, id) <==> EsperandoEn(r, m, id)))
  }

  lemma EsperaEn(c: Config, r: Corrida, m: nat, id: nat)
    requires c.maxIntentos >= 2 && EsCorrida(c, r) && m < |r.pasos|
    ensures PasoDeEspera(c, r, m, id)
  {
    CorridaConserva(c, r, m);
    CorridaObras(c, r, m);
    EsperaUnPaso(c, r.estados[m], r.pasos[m], id);
  }

  predicate PasoDeBandera(pone: nat -> bool, quita: nat -> bool, hay: nat -> bool, puesta: nat -> bool, m: nat) {
    && (pone(m) ==> puesta(m + 1))
    && (quita(m) ==> !puesta(m + 1))
    && (!pone(m) && !quita(m) && hay(m + 1) ==> hay(m) && (puesta(m + 1) <==> puesta(m)))
  }

  /** A flag that one kind of step sets, another unsets and the rest keep, read off the history of the steps. */
  lemma {:induction false} BanderaSegunHistoria(pone: nat -> bool, quita: nat -> bool, hay: nat -> bool,
                                                puesta: nat -> bool, i: nat)
    requires !hay(0) && hay(i)
    requires forall m: nat :: m < i ==> PasoDeBandera(pone, quita, hay, puesta, m)
    ensures puesta(i) <==> exists m: nat :: m < i && pone(m) && forall j: nat :: m < j < i ==> !quita(j)
    decreases i
  {
    var m := i - 1;
    assert PasoDeBandera(pone, quita, hay, puesta, m);
    if pone(m) {
      assert forall j: nat :: m < j < i ==> !quita(j);
    } else if !quita(m) {
      BanderaSegunHistoria(pone, quita, hay, puesta, m);
      if puesta(m) {
        var a: nat :| a < m && pone(a) && forall j: nat :: a < j < m ==> !quita(j);
        assert forall j: nat :: a < j < i ==> !quita(j);
      }
    }
  }

  /** A pending item is in `estado` PENDIENTE exactly when nobody has claimed it since it last went back to waiting. */
  lemma PendienteSii(c: Config, r: Corrida, i: nat, id: nat)
    requires c.maxIntentos >= 2 && EsCorrida(c, r) && i < |r.estados|
    requires id in r.estados[i].q.items && id in r.estados[i].q.pendientes
    ensures r.estados[i].q.items[id].estado == PENDIENTE <==> SinReclamarDesdeQueEspera(c, r, i, id)
  {
    HistoriaDe(c, r, i, id, (m: nat) => VuelveEn(c, r, m, id), (m: nat) => ReclamadoEn(r, m, id),
               (m: nat) => VivoEn(r, m, id), (m: nat) => EsperandoEn(r, m, id));
  }

  lemma HistoriaDe(c: Config, r: Corrida, i: nat, id: nat, pone: nat -> bool, quita: nat -> bool, hay: nat -> bool,
                   puesta: nat -> bool)
    requires c.maxIntentos >= 2 && EsCorrida(c, r) && i < |r.estados| && hay(i)
    requires forall m: nat :: pone(m) == VuelveEn(c, r, m, id) && quita(m) == ReclamadoEn(r, m, id)
    requires forall m: nat :: hay(m) == VivoEn(r, m, id) && puesta(m) == EsperandoEn(r, m, id)
    ensures puesta(i) <==> SinReclamarDesdeQueEspera(c, r, i, id)
  {
    forall m: nat | m < i ensures PasoDeBandera(pone, quita, hay, puesta, m) {
      EsperaEn(c, r, m, id);
    }
    assert !VivoEn(r, 0, id);
    BanderaSegunHistoria(pone, quita, hay, puesta, i);
    TraducirHistoria(c, r, i, id, pone, quita);
  }

  lemma TraducirHistoria(c: Config, r: Corrida, i: nat, id: nat, pone: nat -> bool, quita: nat -> bool)
    requires |r.estados| == |r.pasos| + 1
    requires forall m: nat :: pone(m) == VuelveEn(c, r, m, id) && quita(m) == ReclamadoEn(r, m, id)
    ensures SinReclamarDesdeQueEspera(c, r, i, id)
            <==> exists m: nat :: m < i && pone(m) && forall j: nat :: m < j < i ==> !quita(j)
  {
    if SinReclamarDesdeQueEspera(c, r, i, id) {
      var m: nat :| m < i && VuelveEn(c, r, m, id) && forall j: nat :: m < j < i ==> !ReclamadoEn(r, j, id);
      assert pone(m) && forall j: nat :: m < j < i ==> !quita(j);
    }
    if m: nat :| m < i && pone(m) && forall j: nat :: m < j < i ==> !quita(j) {
      assert VuelveEn(c, r, m, id);
      forall j: nat | m < j < i ensures !ReclamadoEn(r, j, id) { assert !quita(j); }
    }
  }

  /**
   * Verification answers "already queued" to a request with a QUEUED record if and only if the item it names is
   * pending with content of the request's hash and nobody has claimed it since it last went back to waiting.
   */
  lemma YaEncoladoSii(c: Config, r: Corrida, i: nat, n: nat)
    requires c.maxIntentos >= 2 && EsCorrida(c, r) && i < |r.estados|
    requires PetEn(r.estados[i], n, Recibida) && ClaveDePet(c, r.estados[i].pet[n]) in r.estados[i].q.idem
    requires r.estados[i].q.idem[ClaveDePet(c, r.estados[i].pet[n])].Queued?
    ensures var w := r.estados[i];
            var id := w.q.idem[ClaveDePet(c, w.pet[n])].itemId;
            VerificarEn(c, w, n).pet[n].fase == Finalizada
            <==> id in w.q.pendientes && id in w.q.items && w.q.items[id].payloadHash == c.hash(w.pet[n].payload)
                 && SinReclamarDesdeQueEspera(c, r, i, id)
  {
    var w := r.estados[i];
    var id := w.q.idem[ClaveDePet(c, w.pet[n])].itemId;
    CorridaConserva(c, r, i);
    assert IdOk(c, w.q, id);
    if id in w.q.items && id in w.q.pendientes {
      PendienteSii(c, r, i, id);
    }
  }
}
