/** Every step of the protocol keeps the invariant and advances every item's lineage lawfully. */
module ProtocoloPasos {
  import opened Comun
  import opened Cola
  import opened ColaInvariantes
  import opened Protocolo
  import opened ProtocoloInvariante

  // ---------------------------------------------------------------- steps outside the queue

  /** Every new record and phase is justified, and the queue is left alone. */
  ghost predicate Menor(c: Config, w: Mundo, w': Mundo) {
    && MismaCola(w, w') && MismoLibro(w, w') && w'.log == w.log && w'.ses == w.ses && w.aceptadas <= w'.aceptadas
    && (forall clave :: clave in w'.q.idem ==>
          (clave in w.q.idem && w'.q.idem[clave] == w.q.idem[clave]) || IdemOk(w', clave))
    && (forall n :: n in w'.pet ==> (n in w.pet && w.pet[n] == w'.pet[n]) || PetOk(c, w', n))
  }

  /** The step keeps the protocol invariant and every item's lineage. */
  ghost predicate Conserva(c: Config, w: Mundo, w': Mundo) { InvM(c, w') && Sigue(w, w') }

  lemma MenorConserva(c: Config, w: Mundo, w': Mundo)
    requires InvM(c, w) && Menor(c, w, w')
    ensures Conserva(c, w, w')
  {
    MismaColaSigue(w, w');
    IdemMarco(c, w, w');
    MismaColaConserva(c, w, w');
    SesionesMarco(c, w, w', {});
    LibroMarco(w, w');
    BitacoraMarco(w, w');
  }

  predicate EnLaCola(t: PasoPeticion) { t.Cancela? || t.PetEncola? }

  lemma VerificaMenor(c: Config, w: Mundo, n: nat)
    requires n in w.pet
    ensures Menor(c, w, VerificarEn(c, w, n))
  {
    assert FaseVerificada(w.q, ClaveDePet(c, w.pet[n])) in {Iniciando, Finalizada, Huerfana};
  }

  lemma IniciaMenor(c: Config, w: Mundo, n: nat)
    requires n in w.pet
    ensures Menor(c, w, IniciarEn(c, w, n))
  {
  }

  lemma RegistraExitoMenor(c: Config, w: Mundo, n: nat, persistio: bool)
    requires n in w.pet && w.pet[n].fase.Aceptada? && PetOk(c, w, n)
    ensures Menor(c, w, RegistrarExitoEn(c, w, n, persistio))
  {
  }

  lemma RegistraEncoladoMenor(c: Config, w: Mundo, n: nat, persistio: bool)
    requires n in w.pet && w.pet[n].fase.PorRegistrar? && PetOk(c, w, n)
    ensures Menor(c, w, RegistrarEncoladoEn(c, w, n, persistio))
  {
  }

  lemma LeeMenor(c: Config, w: Mundo, n: nat)
    requires n in w.pet && w.pet[n].fase.Registrada? && PetOk(c, w, n)
    ensures Menor(c, w, LeerCancelableEn(c, w, n))
  {
  }

  lemma SueltaMenor(c: Config, w: Mundo, n: nat)
    requires n in w.pet && w.pet[n].fase.Soltando?
    ensures Menor(c, w, SoltarLockEn(w, n))
  {
  }

  lemma PideMenor(c: Config, w: Mundo, n: nat)
    requires n in w.pet
    ensures Menor(c, w, PedirLockEn(w, n))
  {
  }

  /** Every request step but enqueue and cancellation leaves the queue alone. */
  lemma PeticionMenor(c: Config, w: Mundo, n: nat, t: PasoPeticion)
    requires PuedePeticion(w, n, t) && PetOk(c, w, n) && !EnLaCola(t)
    ensures Menor(c, w, TrasPeticion(c, w, n, t))
  {
    match t {
      case Verifica => VerificaMenor(c, w, n);
      case IniciaProcessing => IniciaMenor(c, w, n);
      case PideLock => PideMenor(c, w, n);
      case RegistraExito(persistio) => RegistraExitoMenor(c, w, n, persistio);
      case LeeCancelable => LeeMenor(c, w, n);
      case RegistraEncolado(persistio) => RegistraEncoladoMenor(c, w, n, persistio);
      case PetSueltaLock => SueltaMenor(c, w, n);
      case _ =>
    }
  }

  predicate EntornoMenor(e: PasoEntorno) { e.ExpiraLock? || e.ExpiraIdem? || e.RegistraReencolado? }

  lemma EntornoEsMenor(c: Config, w: Mundo, e: PasoEntorno)
    requires PuedeEntorno(w, e) && Inv(c, w.q) && EntornoMenor(e)
    ensures Menor(c, w, TrasEntorno(w, e))
  {
    if e.RegistraReencolado? {
      assert IdOk(c, w.q, e.id);
    }
  }

  // ---------------------------------------------------------------- a session moves on, the queue does not

  lemma SoloSesion(c: Config, w: Mundo, w': Mundo, k: Clave, nuevo: Option<Evento>)
    requires InvM(c, w) && MismaCola(w, w') && MismoLibro(w, w') && w'.pet == w.pet && w.aceptadas <= w'.aceptadas
    requires w'.log == if nuevo.Some? then w.log + [nuevo.value] else w.log
    requires nuevo.Some? ==> EventoOk(w.log, nuevo.value) && RegOk(w', nuevo.value)
                             && !nuevo.value.Hecho? && !nuevo.value.Exito?
    requires w'.ses.Keys == w.ses.Keys + {k} && (forall j :: j in w.ses && j != k ==> w'.ses[j] == w.ses[j])
    requires SesOk(c, w', k) && (k in w.ses && w.ses[k].reclamada ==>
               w'.ses[k].reclamada && w'.ses[k].ticket == w.ses[k].ticket && w'.ses[k].copia == w.ses[k].copia)
    requires forall clave :: clave in w'.q.idem ==> clave in w.q.idem && w'.q.idem[clave] == w.q.idem[clave]
    ensures Conserva(c, w, w')
  {
    MismaColaConserva(c, w, w');
    MismaColaSigue(w, w');
    assert EsDueno(w', k) ==> k in w'.ses && w'.ses[k].reclamada by {
      assert ClaimOk(w, k.id);
    }
    SesionesMarco(c, w, w', {k});
    LibroMarco(w, w');
    if nuevo.None? {
      BitacoraMarco(w, w');
    } else {
      BitacoraAnota(w, w', nuevo.value);
    }
    IdemMarco(c, w, w');
  }

  /** A session dropped to a phase that asks nothing new of it. */
  lemma Baja(c: Config, w: Mundo, k: Clave, f: Fase)
    requires InvM(c, w) && k in w.ses
    requires f in {Cerrado, Terminando} || (f == Liberando && w.ses[k].reclamada)
    ensures Conserva(c, w, ConFase(w, k, f))
  {
    assert SesOk(c, w, k);
    SoloSesion(c, w, ConFase(w, k, f), k, None);
  }

  /** Taking or giving back the case lock, or freeing the idempotency key after a definitive failure. */
  lemma PasoDeLock(c: Config, w: Mundo, k: Clave, s: PasoSesion)
    requires InvM(c, w) && PuedeSesion(w, k, s) && (s.TomaLock? || s.SueltaLock? || s.LiberaIdem?)
    ensures Conserva(c, w, TrasSesion(c, w, k, s))
  {
    assert SesOk(c, w, k);
    SoloSesion(c, w, TrasSesion(c, w, k, s), k, None);
  }

  lemma PasoLista(c: Config, w: Mundo, k: Clave)
    requires InvM(c, w) && PuedeSesion(w, k, Lista)
    ensures Conserva(c, w, TrasSesion(c, w, k, Lista))
  {
    assert IdOk(c, w.q, k.id);
    SoloSesion(c, w, TrasSesion(c, w, k, Lista), k, None);
  }

  lemma PasoLlama(c: Config, w: Mundo, k: Clave)
    requires InvM(c, w) && PuedeSesion(w, k, Llama)
    ensures Conserva(c, w, LlamarEn(w, k))
  {
    var w' := LlamarEn(w, k);
    assert SesOk(c, w, k);
    assert w'.log == w.log + [Llamada(k, w.ses[k].ticket)];
    SoloSesion(c, w, w', k, Some(Llamada(k, w.ses[k].ticket)));
  }

  lemma PasoSalta(c: Config, w: Mundo, k: Clave)
    requires InvM(c, w) && PuedeSesion(w, k, SaltaSfc)
    ensures Conserva(c, w, TrasSesion(c, w, k, SaltaSfc))
  {
    assert SesOk(c, w, k);
    ReclamoVioHecho(w, k, w.ses[k].ticket);
    SoloSesion(c, w, TrasSesion(c, w, k, SaltaSfc), k, None);
  }

  lemma AceptadoOk(c: Config, w: Mundo, k: Clave, cuerpo: string)
    requires EnFase(w, k, {Llamando}) && SesOk(c, w, k)
    ensures SesOk(c, AceptarEn(w, k, cuerpo), k)
  {
    var w' := AceptarEn(w, k, cuerpo);
    assert w'.log == w.log + [Acepto(k, w.ses[k].ticket)];
    assert forall e :: e in w.log ==> e in w'.log;
  }

  lemma PasoAcepta(c: Config, w: Mundo, k: Clave, cuerpo: string)
    requires InvM(c, w) && EnFase(w, k, {Llamando})
    ensures Conserva(c, w, AceptarEn(w, k, cuerpo))
  {
    var w' := AceptarEn(w, k, cuerpo);
    assert SesOk(c, w, k);
    AceptadoOk(c, w, k, cuerpo);
    assert w'.log == w.log + [Acepto(k, w.ses[k].ticket)];
    SoloSesion(c, w, w', k, Some(Acepto(k, w.ses[k].ticket)));
  }

  lemma ConfirmadoOk(c: Config, w: Mundo, k: Clave)
    requires EnFase(w, k, {SfcHecho}) && SesOk(c, w, k)
    ensures SesOk(c, ConfirmarEn(w, k), k)
  {
    var w' := ConfirmarEn(w, k);
    assert w'.log == w.log + [Confirmo(k, w.ses[k].ticket)];
    assert forall e :: e in w.log ==> e in w'.log;
  }

  lemma PasoConfirma(c: Config, w: Mundo, k: Clave)
    requires InvM(c, w) && EnFase(w, k, {SfcHecho})
    ensures Conserva(c, w, ConfirmarEn(w, k))
  {
    var w' := ConfirmarEn(w, k);
    assert SesOk(c, w, k);
    ConfirmadoOk(c, w, k);
    assert w'.log == w.log + [Confirmo(k, w.ses[k].ticket)];
    SoloSesion(c, w, w', k, Some(Confirmo(k, w.ses[k].ticket)));
  }

  /** A claim that saw `sfc_completado` came after SFC_DONE of that content. */
  lemma ReclamoVioHecho(w: Mundo, k: Clave, t: nat)
    requires LogOk(w.log) && Reclamo(k, t, true) in w.log
    ensures Hecho(t) in w.log
  {
    var j :| 0 <= j < |w.log| && w.log[j] == Reclamo(k, t, true);
    assert EventoOk(w.log[..j], w.log[j]);
  }

  // ---------------------------------------------------------------- queue transitions

  /** A transition that touches neither sessions, ledger, log, flags nor claims of others. */
  lemma SoloCola(c: Config, w: Mundo, w': Mundo)
    requires InvM(c, w) && Inv(c, w'.q) && w' == w.(q := w'.q) && w'.q.idem == w.q.idem
    requires w'.q.items.Keys == w.q.items.Keys && w'.q.exitosos == w.q.exitosos && w'.q.contador == w.q.contador
    requires forall id :: id in w'.q.claims ==> id in w.q.claims && w'.q.claims[id] == w.q.claims[id]
    requires forall id :: id in w.q.items ==>
               && Linea(w.q.items[id], w'.q.items[id])
               && w'.q.items[id].payload == w.q.items[id].payload
               && w'.q.items[id].sfcCompletado == w.q.items[id].sfcCompletado
               && (id in w'.q.claims && w'.q.items[id].version == w.q.items[id].version ==>
                     w'.q.items[id].intentos == w.q.items[id].intentos)
    ensures Conserva(c, w, w')
  {
    forall id: nat ensures Evoluciona(w, w', id) && IntentosFijos(w, w', id) {}
    SesionesMarco(c, w, w', {});
    LibroMarco(w, w');
    BitacoraMarco(w, w');
    IdemMarco(c, w, w');
  }

  lemma SigueTransitiva(w0: Mundo, w1: Mundo, w2: Mundo)
    requires Sigue(w0, w1) && Sigue(w1, w2)
    ensures Sigue(w0, w2)
  {
    forall id: nat ensures Evoluciona(w0, w2, id) {
      assert Evoluciona(w0, w1, id) && Evoluciona(w1, w2, id);
    }
  }

  lemma SigueReclama(w: Mundo, k: Clave)
    requires k in w.ses
    ensures Sigue(w, ReclamarEn(w, k))
    ensures forall id: nat :: IntentosFijos(w, ReclamarEn(w, k), id)
  {
    forall id: nat ensures Evoluciona(w, ReclamarEn(w, k), id) && IntentosFijos(w, ReclamarEn(w, k), id) {}
  }

  /** What a fresh claim knows. */
  lemma SesionReclamada(c: Config, w: Mundo, k: Clave)
    requires InvM(c, w) && EnFase(w, k, {ConLock}) && Reclamable(w.q, k.id)
    ensures SesOk(c, ReclamarEn(w, k), k)
  {
    var w' := ReclamarEn(w, k);
    assert SesOk(c, w, k) && IdOk(c, w.q, k.id) && LibroOk(w, k.id);
    assert Reclamo(k, TicketVigente(w, k.id), w.q.items[k.id].sfcCompletado) in w'.log;
  }

  lemma PasoReclama(c: Config, w: Mundo, k: Clave)
    requires InvM(c, w) && EnFase(w, k, {ConLock})
    ensures Conserva(c, w, ReclamarEn(w, k))
  {
    if Reclamable(w.q, k.id) {
      ReclamaConcedido(c, w, k);
    } else {
      Baja(c, w, k, Terminando);
    }
  }

  lemma ReclamaConcedido(c: Config, w: Mundo, k: Clave)
    requires InvM(c, w) && EnFase(w, k, {ConLock}) && Reclamable(w.q, k.id)
    ensures Conserva(c, w, ReclamarEn(w, k))
  {
    var w' := ReclamarEn(w, k);
    SigueReclama(w, k);
    ReclamarConserva(c, w.q, k.id, k.worker);
    SesionReclamada(c, w, k);
    SesionesMarco(c, w, w', {k});
    LibroMarco(w, w');
    BitacoraReclama(c, w, k);
    IdemMarco(c, w, w');
  }

  lemma BitacoraReclama(c: Config, w: Mundo, k: Clave)
    requires InvM(c, w) && EnFase(w, k, {ConLock}) && Reclamable(w.q, k.id)
    ensures Bitacora(ReclamarEn(w, k))
  {
    assert LibroOk(w, k.id) && HechoOk(w, k.id) && SesOk(c, w, k);
    BitacoraAnota(w, ReclamarEn(w, k), Reclamo(k, TicketVigente(w, k.id), w.q.items[k.id].sfcCompletado));
  }

  lemma PasoDifiere(c: Config, w: Mundo, k: Clave, error: string, ahora: Instante, proximo: Instante)
    requires InvM(c, w) && EnFase(w, k, {Listado})
    ensures Conserva(c, w, DiferirEn(w, k, error, ahora, proximo))
  {
    var w1 := w.(q := Diferir(w.q, k.id, w.ses[k].copia.version, error, ahora, proximo).0);
    DiferirConserva(c, w.q, k.id, w.ses[k].copia.version, error, ahora, proximo);
    SoloCola(c, w, w1);
    Baja(c, w1, k, Cerrado);
    SigueTransitiva(w, w1, ConFase(w1, k, Cerrado));
  }
}
