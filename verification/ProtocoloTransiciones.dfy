/** The steps that move content: SFC_DONE, success, failure, enqueue, cancellation and purge. */
module ProtocoloTransiciones {
  import opened Comun
  import opened Cola
  import opened ColaInvariantes
  import opened Protocolo
  import opened ProtocoloInvariante
  import opened ProtocoloPasos

  // ---------------------------------------------------------------- rejected transitions

  lemma RechazoConserva(c: Config, w: Mundo, k: Clave, motivo: Resultado)
    requires InvM(c, w) && k in w.ses
    ensures var w' := ConFase(w.(q := Rechazar(w.q, k.id, motivo)), k, Terminando);
            Conserva(c, w, w')
  {
    var w1 := w.(q := Rechazar(w.q, k.id, motivo));
    ExpirarConserva(c, w.q, k.id);
    SoloCola(c, w, w1);
    Baja(c, w1, k, Terminando);
    SigueTransitiva(w, w1, ConFase(w1, k, Terminando));
  }

  /** What the fence gives an accepted transition: the stored item is still the claimed one. */
  lemma DuenoConoce(c: Config, w: Mundo, k: Clave)
    requires InvM(c, w) && k in w.ses && w.ses[k].reclamada
    requires Cerca(w.q, k.id, k.worker, w.ses[k].copia.version).Aplicado?
    ensures MismaVersion(w, k) && EsDueno(w, k) && k.id in w.q.pendientes
    ensures var it := w.q.items[k.id];
            it.intentos == w.ses[k].copia.intentos && it.maxIntentos == w.ses[k].copia.maxIntentos
            && it.payload == w.ses[k].copia.payload && it.Ranura() == w.ses[k].copia.Ranura()
            && it.payloadHash == w.ses[k].copia.payloadHash
    ensures k.id in w.ticketDe && w.ticketDe[k.id] == w.ses[k].ticket && w.ses[k].ticket < |w.tickets|
    ensures w.ses[k].ticket < |w.destinos| && w.destinos[w.ses[k].ticket] == EnItem(k.id)
  {
    assert SesOk(c, w, k) && IdOk(c, w.q, k.id) && LibroOk(w, k.id);
  }

  // ---------------------------------------------------------------- SFC_DONE

  lemma SfcSigue(c: Config, w: Mundo, k: Clave, ahora: Instante)
    requires k in w.ses
    ensures Sigue(w, MarcarSfcEn(w, k, ahora))
    ensures forall id: nat :: IntentosFijos(w, MarcarSfcEn(w, k, ahora), id)
  {
    var w' := MarcarSfcEn(w, k, ahora);
    forall id: nat ensures Evoluciona(w, w', id) && IntentosFijos(w, w', id) {}
  }

  lemma SfcSesion(c: Config, w: Mundo, k: Clave, ahora: Instante)
    requires InvM(c, w) && EnFase(w, k, {Aceptado})
    requires Cerca(w.q, k.id, k.worker, w.ses[k].copia.version).Aplicado?
    ensures SesOk(c, MarcarSfcEn(w, k, ahora), k)
  {
    var w' := MarcarSfcEn(w, k, ahora);
    assert SesOk(c, w, k);
    assert Hecho(w.ses[k].ticket) in w'.log;
    assert forall e :: e in w.log ==> e in w'.log;
  }

  lemma SfcBitacora(c: Config, w: Mundo, k: Clave, ahora: Instante)
    requires InvM(c, w) && EnFase(w, k, {Aceptado})
    requires Cerca(w.q, k.id, k.worker, w.ses[k].copia.version).Aplicado?
    ensures Bitacora(MarcarSfcEn(w, k, ahora))
  {
    var w' := MarcarSfcEn(w, k, ahora);
    var t := w.ses[k].ticket;
    assert SesOk(c, w, k);
    DuenoConoce(c, w, k);
    assert Acepto(k, t) in w.log;
    LogAnota(w.log, Hecho(t));
    forall e ensures RegOk(w', e) { assert RegOk(w, e); }
    forall id: nat ensures HechoOk(w', id) { assert HechoOk(w, id) && LibroOk(w, id); }
  }

  lemma SfcLibro(c: Config, w: Mundo, k: Clave, ahora: Instante)
    requires InvM(c, w) && k in w.ses
    ensures Libro(MarcarSfcEn(w, k, ahora))
  {
    var w' := MarcarSfcEn(w, k, ahora);
    LibroMarco(w, w');
  }

  lemma SfcIdem(c: Config, w: Mundo, k: Clave, ahora: Instante)
    requires InvM(c, w) && EnFase(w, k, {Aceptado})
    requires Cerca(w.q, k.id, k.worker, w.ses[k].copia.version).Aplicado?
    ensures Idempotencia(c, MarcarSfcEn(w, k, ahora))
  {
    assert SesOk(c, w, k);
    SfcSigue(c, w, k, ahora);
    IdemMarco(c, w, MarcarSfcEn(w, k, ahora));
  }

  lemma SfcSesiones(c: Config, w: Mundo, k: Clave, ahora: Instante)
    requires InvM(c, w) && EnFase(w, k, {Aceptado})
    requires Cerca(w.q, k.id, k.worker, w.ses[k].copia.version).Aplicado?
    ensures Sesiones(c, MarcarSfcEn(w, k, ahora))
  {
    assert SesOk(c, w, k);
    SfcSigue(c, w, k, ahora);
    SfcSesion(c, w, k, ahora);
    SesionesMarco(c, w, MarcarSfcEn(w, k, ahora), {k});
  }

  lemma PasoMarcaSfc(c: Config, w: Mundo, k: Clave, ahora: Instante)
    requires InvM(c, w) && EnFase(w, k, {Aceptado})
    ensures Conserva(c, w, MarcarSfcEn(w, k, ahora))
  {
    var s := w.ses[k];
    var res := Cerca(w.q, k.id, k.worker, s.copia.version);
    if res.Aplicado? {
      SfcConserva(c, w.q, k.id, k.worker, s.copia.version, ClaveDe(s.copia), s.resp, ahora);
      SfcSigue(c, w, k, ahora);
      SfcSesiones(c, w, k, ahora);
      SfcLibro(c, w, k, ahora);
      SfcBitacora(c, w, k, ahora);
      SfcIdem(c, w, k, ahora);
    } else {
      RechazoConserva(c, w, k, res);
    }
  }

  // ---------------------------------------------------------------- success

  lemma ExitoSigue(c: Config, w: Mundo, k: Clave, ahora: Instante)
    requires k in w.ses
    ensures Sigue(w, MarcarExitoEn(w, k, ahora))
    ensures forall id: nat :: IntentosFijos(w, MarcarExitoEn(w, k, ahora), id)
  {
    var w' := MarcarExitoEn(w, k, ahora);
    forall id: nat ensures Evoluciona(w, w', id) && IntentosFijos(w, w', id) {}
  }

  lemma ExitoLibro(c: Config, w: Mundo, k: Clave, ahora: Instante)
    requires InvM(c, w) && EnFase(w, k, {Notificado})
    requires Cerca(w.q, k.id, k.worker, w.ses[k].copia.version).Aplicado?
    ensures Libro(MarcarExitoEn(w, k, ahora))
  {
    var w' := MarcarExitoEn(w, k, ahora);
    assert SesOk(c, w, k);
    DuenoConoce(c, w, k);
    assert forall t: nat :: ExitoRegistrado(w', t) <==> ExitoRegistrado(w, t) || t == w.ses[k].ticket;
    forall id: nat ensures LibroOk(w', id) { assert LibroOk(w, id); }
    forall t: nat ensures TicketOk(w', t) { assert TicketOk(w, t); }
  }

  lemma ExitoBitacora(c: Config, w: Mundo, k: Clave, ahora: Instante)
    requires InvM(c, w) && EnFase(w, k, {Notificado})
    requires Cerca(w.q, k.id, k.worker, w.ses[k].copia.version).Aplicado?
    ensures Bitacora(MarcarExitoEn(w, k, ahora))
  {
    assert SesOk(c, w, k);
    BitacoraAnota(w, MarcarExitoEn(w, k, ahora), Exito(w.ses[k].ticket));
  }

  lemma PasoMarcaExito(c: Config, w: Mundo, k: Clave, ahora: Instante)
    requires InvM(c, w) && EnFase(w, k, {Notificado})
    ensures Conserva(c, w, MarcarExitoEn(w, k, ahora))
  {
    var s := w.ses[k];
    var w' := MarcarExitoEn(w, k, ahora);
    var res := Cerca(w.q, k.id, k.worker, s.copia.version);
    if res.Aplicado? {
      ExitoConserva(c, w.q, k.id, k.worker, s.copia.version, ahora);
      ExitoSigue(c, w, k, ahora);
      ExitoSesion(c, w, k, ahora);
      SesionesMarco(c, w, w', {k});
      ExitoLibro(c, w, k, ahora);
      ExitoBitacora(c, w, k, ahora);
      IdemMarco(c, w, w');
    } else {
      RechazoConserva(c, w, k, res);
    }
  }

  lemma ExitoSesion(c: Config, w: Mundo, k: Clave, ahora: Instante)
    requires InvM(c, w) && EnFase(w, k, {Notificado})
    requires Cerca(w.q, k.id, k.worker, w.ses[k].copia.version).Aplicado?
    ensures SesOk(c, MarcarExitoEn(w, k, ahora), k) && !EsDueno(MarcarExitoEn(w, k, ahora), k)
  {
    assert SesOk(c, w, k);
    assert forall e :: e in w.log ==> e in MarcarExitoEn(w, k, ahora).log;
  }

  // ---------------------------------------------------------------- failure

  lemma FallaCola(c: Config, w: Mundo, k: Clave, error: string, consumir: bool, ahora: Instante)
    requires InvM(c, w) && k in w.ses && w.ses[k].reclamada
    requires Cerca(w.q, k.id, k.worker, w.ses[k].copia.version).Aplicado?
    ensures var a := ArgsDeFallo(c, w.ses[k].copia, error, consumir, ahora);
            var w1 := w.(q := RegistrarFallo(w.q, k.id, k.worker, w.ses[k].copia.version, a).0);
            Conserva(c, w, w1)
  {
    var s := w.ses[k];
    assert SesOk(c, w, k);
    DuenoConoce(c, w, k);
    var a := ArgsDeFallo(c, s.copia, error, consumir, ahora);
    FalloConserva(c, w.q, k.worker, s.copia, error, consumir, ahora);
    SoloCola(c, w, w.(q := RegistrarFallo(w.q, k.id, k.worker, s.copia.version, a).0));
  }

  lemma PasoFalla(c: Config, w: Mundo, k: Clave, error: string, consumir: bool, ahora: Instante)
    requires InvM(c, w) && EnFase(w, k, EN_CURSO)
    ensures var w' := FallarEn(c, w, k, error, consumir, ahora); Conserva(c, w, w')
  {
    var s := w.ses[k];
    var res := Cerca(w.q, k.id, k.worker, s.copia.version);
    assert SesOk(c, w, k);
    if res.Aplicado? {
      FallaCola(c, w, k, error, consumir, ahora);
      var a := ArgsDeFallo(c, s.copia, error, consumir, ahora);
      var w1 := w.(q := RegistrarFallo(w.q, k.id, k.worker, s.copia.version, a).0);
      Baja(c, w1, k, if a.definitivo then Liberando else Terminando);
      SigueTransitiva(w, w1, FallarEn(c, w, k, error, consumir, ahora));
    } else {
      RechazoConserva(c, w, k, res);
    }
  }

  // ---------------------------------------------------------------- enqueue

  lemma EncolaSigue(c: Config, w: Mundo, n: nat, e: string, ahora: Instante)
    requires InvM(c, w) && n in w.pet
    ensures Sigue(w, RecibirEncolado(c, w, n, e, ahora))
    ensures forall id: nat :: IntentosFijos(w, RecibirEncolado(c, w, n, e, ahora), id)
  {
    var w' := RecibirEncolado(c, w, n, e, ahora);
    var s := RanuraDePet(c, w.pet[n]);
    assert SlotOk(w.q, s) && IdOk(c, w.q, w.q.contador + 1);
    if Ocupado(w.q, s) { assert IdOk(c, w.q, w.q.indice[s]); }
    forall id: nat ensures Evoluciona(w, w', id) && IntentosFijos(w, w', id) { assert IdOk(c, w.q, id); }
  }

  lemma EncolaLibro(c: Config, w: Mundo, n: nat, e: string, ahora: Instante)
    requires InvM(c, w) && n in w.pet
    ensures Libro(RecibirEncolado(c, w, n, e, ahora))
  {
    var w' := RecibirEncolado(c, w, n, e, ahora);
    var s := RanuraDePet(c, w.pet[n]);
    var nuevo := |w.tickets|;
    assert SlotOk(w.q, s) && IdOk(c, w.q, w.q.contador + 1) && LibroOk(w, w.q.contador + 1);
    assert RegOk(w, Exito(nuevo));
    if Ocupado(w.q, s) {
      assert IdOk(c, w.q, w.q.indice[s]) && LibroOk(w, w.q.indice[s]) && TicketOk(w, w.ticketDe[w.q.indice[s]]);
    }
    assert forall t: nat :: ExitoRegistrado(w', t) == ExitoRegistrado(w, t);
    forall id: nat ensures LibroOk(w', id) { assert LibroOk(w, id); }
    forall t: nat ensures TicketOk(w', t) { assert TicketOk(w, t); }
  }

  lemma EncolaBitacora(c: Config, w: Mundo, n: nat, e: string, ahora: Instante)
    requires InvM(c, w) && n in w.pet
    ensures Bitacora(RecibirEncolado(c, w, n, e, ahora))
  {
    var w' := RecibirEncolado(c, w, n, e, ahora);
    var s := RanuraDePet(c, w.pet[n]);
    if Ocupado(w.q, s) { assert IdOk(c, w.q, w.q.indice[s]); }
    assert RegOk(w, Hecho(|w.tickets|));
    forall f ensures RegOk(w', f) { assert RegOk(w, f); }
    forall id: nat ensures HechoOk(w', id) { assert HechoOk(w, id) && LibroOk(w, id); }
  }

  /** The id handed to the idempotency record is in the slot of the request. */
  lemma EncolaPeticion(c: Config, w: Mundo, n: nat, e: string, ahora: Instante)
    requires InvM(c, w) && n in w.pet
    ensures PetOk(c, RecibirEncolado(c, w, n, e, ahora), n)
  {
    var s := RanuraDePet(c, w.pet[n]);
    if Ocupado(w.q, s) { assert SlotOk(w.q, s) && IdOk(c, w.q, w.q.indice[s]); }
  }

  lemma PasoPetEncola(c: Config, w: Mundo, n: nat, error: string, ahora: Instante)
    requires InvM(c, w) && n in w.pet
    ensures Conserva(c, w, RecibirEncolado(c, w, n, error, ahora))
  {
    var w' := RecibirEncolado(c, w, n, error, ahora);
    EncolarConserva(c, w.q, w.pet[n].smartCode, w.pet[n].payload, error, ahora);
    EncolaSigue(c, w, n, error, ahora);
    SesionesMarco(c, w, w', {});
    EncolaLibro(c, w, n, error, ahora);
    EncolaBitacora(c, w, n, error, ahora);
    EncolaPeticion(c, w, n, error, ahora);
    IdemMarco(c, w, w');
  }

  // ---------------------------------------------------------------- removal: cancellation and purge

  /** Items only disappear; their tickets are settled. */
  lemma RetiroConserva(c: Config, w: Mundo, w': Mundo)
    requires InvM(c, w) && Inv(c, w'.q) && Libro(w')
    requires w'.q.contador == w.q.contador && w'.q.claims == w.q.claims && w'.q.idem == w.q.idem
    requires w'.tickets == w.tickets && w'.log == w.log && w'.ses == w.ses && w'.aceptadas == w.aceptadas
    requires forall id :: id in w'.q.items ==>
               id in w.q.items && w'.q.items[id] == w.q.items[id]
               && (id in w.ticketDe ==> id in w'.ticketDe && w'.ticketDe[id] == w.ticketDe[id])
    requires forall n :: n in w'.pet ==> (n in w.pet && w.pet[n] == w'.pet[n]) || PetOk(c, w', n)
    ensures Conserva(c, w, w')
  {
    forall id: nat ensures Evoluciona(w, w', id) && IntentosFijos(w, w', id) {}
    SesionesMarco(c, w, w', {});
    forall id: nat | id in w'.q.items ensures id in w.ticketDe { assert LibroOk(w, id); }
    BitacoraMarco(w, w');
    IdemMarco(c, w, w');
  }

  lemma CancelaLibro(c: Config, w: Mundo, n: nat)
    requires InvM(c, w) && n in w.pet && w.pet[n].fase.Cancelando?
    ensures Libro(CancelarEn(c, w, n))
  {
    var w' := CancelarEn(c, w, n);
    var s := RanuraDePet(c, w.pet[n]);
    assert PetOk(c, w, n);
    if Cancelar(w.q, s, w.pet[n].fase.id, w.pet[n].fase.hash).1 {
      var id := w.q.indice[s];
      assert SlotOk(w.q, s) && IdOk(c, w.q, id) && LibroOk(w, id) && TicketOk(w, w.ticketDe[id]);
    }
    assert forall t: nat :: ExitoRegistrado(w', t) == ExitoRegistrado(w, t);
    forall id: nat ensures LibroOk(w', id) { assert LibroOk(w, id); }
    forall t: nat ensures TicketOk(w', t) { assert TicketOk(w, t); }
  }

  lemma PasoCancela(c: Config, w: Mundo, n: nat)
    requires InvM(c, w) && n in w.pet && w.pet[n].fase.Cancelando?
    ensures Conserva(c, w, CancelarEn(c, w, n))
  {
    var pet := w.pet[n];
    CancelarConserva(c, w.q, RanuraDePet(c, pet), pet.fase.id, pet.fase.hash);
    CancelaLibro(c, w, n);
    RetiroConserva(c, w, CancelarEn(c, w, n));
  }

  lemma PurgaLibro(c: Config, w: Mundo, de: Terminal, ids: set<nat>)
    requires InvM(c, w) && PuedeEntorno(w, Purga(de, ids))
    ensures Libro(PurgarEn(w, de, ids))
  {
    var w' := PurgarEn(w, de, ids);
    assert forall t: nat :: ExitoRegistrado(w', t) == ExitoRegistrado(w, t);
    forall id: nat ensures LibroOk(w', id) { assert LibroOk(w, id); }
    forall t: nat ensures TicketOk(w', t) {
      assert TicketOk(w, t);
      if t < |w.destinos| && w.destinos[t].EnItem? {
        assert IdOk(c, w.q, w.destinos[t].id);
      }
    }
  }

  lemma PasoPurga(c: Config, w: Mundo, de: Terminal, ids: set<nat>)
    requires InvM(c, w) && PuedeEntorno(w, Purga(de, ids))
    ensures Conserva(c, w, PurgarEn(w, de, ids))
  {
    PurgarConservaSii(c, w.q, de, ids);
    PurgaLibro(c, w, de, ids);
    RetiroConserva(c, w, PurgarEn(w, de, ids));
  }

  // ---------------------------------------------------------------- every step

  lemma EntornoConserva(c: Config, w: Mundo, e: PasoEntorno)
    requires InvM(c, w) && PuedeEntorno(w, e)
    ensures Conserva(c, w, TrasEntorno(w, e))
  {
    match e
    case ExpiraClaim(id) =>
      ExpirarConserva(c, w.q, id);
      SoloCola(c, w, w.(q := ExpirarClaim(w.q, id)));
    case Purga(de, ids) => PasoPurga(c, w, de, ids);
    case Reencola(id, ahora) =>
      ReencolarConserva(c, w.q, id, ahora);
      SoloCola(c, w, w.(q := Reencolar(w.q, id, ahora).0));
    case _ =>
      EntornoEsMenor(c, w, e);
      MenorConserva(c, w, TrasEntorno(w, e));
  }

  lemma SesionConserva(c: Config, w: Mundo, k: Clave, s: PasoSesion)
    requires InvM(c, w) && PuedeSesion(w, k, s)
    ensures Conserva(c, w, TrasSesion(c, w, k, s))
  {
    match s
    case Lista => PasoLista(c, w, k);
    case TomaLock => PasoDeLock(c, w, k, s);
    case Reclama => PasoReclama(c, w, k);
    case Llama => PasoLlama(c, w, k);
    case SaltaSfc => PasoSalta(c, w, k);
    case SfcAcepta(cuerpo) => PasoAcepta(c, w, k, cuerpo);
    case MarcaSfc(ahora) => PasoMarcaSfc(c, w, k, ahora);
    case CrmConfirma => PasoConfirma(c, w, k);
    case MarcaExito(ahora) => PasoMarcaExito(c, w, k, ahora);
    case Falla(error, consumir, ahora) => PasoFalla(c, w, k, error, consumir, ahora);
    case LiberaIdem => PasoDeLock(c, w, k, s);
    case Desiste => Baja(c, w, k, Terminando);
    case SueltaLock => PasoDeLock(c, w, k, s);
    case Cae => Baja(c, w, k, Cerrado);
    case Difiere(error, ahora, proximo) => PasoDifiere(c, w, k, error, ahora, proximo);
  }

  lemma PeticionConserva(c: Config, w: Mundo, n: nat, t: PasoPeticion)
    requires InvM(c, w) && PuedePeticion(w, n, t)
    ensures Conserva(c, w, TrasPeticion(c, w, n, t))
  {
    match t
    case Cancela => PasoCancela(c, w, n);
    case PetEncola(error, ahora) => PasoPetEncola(c, w, n, error, ahora);
    case _ =>
      assert PetOk(c, w, n);
      PeticionMenor(c, w, n, t);
      MenorConserva(c, w, TrasPeticion(c, w, n, t));
  }

  lemma PasoConserva(c: Config, w: Mundo, p: Paso)
    requires InvM(c, w) && Habilitado(w, p)
    ensures Conserva(c, w, Aplicar(c, w, p))
  {
    match p
    case Entorno(e) => EntornoConserva(c, w, e);
    case Trabajador(k, s) => SesionConserva(c, w, k, s);
    case Solicitud(n, t) => PeticionConserva(c, w, n, t);
  }
}
