/** The inductive invariant of the protocol, its frame lemmas, and what every step does to an item's lineage. */
module ProtocoloInvariante {
  import opened Cola
  import opened ColaInvariantes
  import opened Protocolo

  // ---------------------------------------------------------------- lineage of an item

  /** `b` is the same queue item as the earlier copy `a`; at an equal version it holds the same content. */
  predicate Linea(a: Item, b: Item) {
    && b.smartCode == a.smartCode && b.operacion == a.operacion && b.maxIntentos == a.maxIntentos
    && a.version <= b.version
    && (a.version == b.version ==>
          b.payload == a.payload && b.payloadHash == a.payloadHash && (a.sfcCompletado ==> b.sfcCompletado))
  }

  /** Ids are never reused, versions never go back, and one version of an item is one content. */
  predicate Evoluciona(w: Mundo, w': Mundo, id: nat) {
    && w.q.contador <= w'.q.contador
    && (id in w'.q.items && id <= w.q.contador ==>
          && id in w.q.items && Linea(w.q.items[id], w'.q.items[id])
          && (w.q.items[id].version == w'.q.items[id].version && id in w.ticketDe ==>
                id in w'.ticketDe && w'.ticketDe[id] == w.ticketDe[id]))
  }

  /** One step: attempts change only where the claim goes or the version moves. */
  predicate IntentosFijos(w: Mundo, w': Mundo, id: nat) {
    id in w'.q.claims && id in w.q.items && id in w'.q.items && w'.q.items[id].version == w.q.items[id].version ==>
      w'.q.items[id].intentos == w.q.items[id].intentos
  }

  ghost predicate Sigue(w: Mundo, w': Mundo) {
    && (forall id: nat :: Evoluciona(w, w', id))
    && w.tickets <= w'.tickets && w.log <= w'.log && w.aceptadas <= w'.aceptadas
  }

  // ---------------------------------------------------------------- ledger

  predicate ExitoRegistrado(w: Mundo, t: nat) { Exito(t) in w.log }

  predicate LibroOk(w: Mundo, id: nat) {
    && (id in w.q.items <==> id in w.ticketDe)
    && (id in w.q.items ==>
          var t := w.ticketDe[id];
          t < |w.tickets| && t < |w.destinos| && w.destinos[t] == EnItem(id)
          && w.tickets[t] == Ticket(w.q.items[id].Ranura(), w.q.items[id].payload))
  }

  predicate TicketOk(w: Mundo, t: nat) {
    t < |w.tickets| && t < |w.destinos| ==>
      match w.destinos[t]
      case EnItem(id) => id in w.q.items && id in w.ticketDe && w.ticketDe[id] == t
                         && (id in w.q.exitosos <==> ExitoRegistrado(w, t))
      case Sustituido(por) => t < por < |w.tickets| && w.tickets[por].slot == w.tickets[t].slot
                              && !ExitoRegistrado(w, t)
      case Cancelado(por) => Slot(por.smartCode, por.operacion) == w.tickets[t].slot && por in w.aceptadas
                             && !ExitoRegistrado(w, t)
      case Purgado(de) => de.DeExitosos? <==> ExitoRegistrado(w, t)
  }

  ghost predicate Libro(w: Mundo) {
    |w.destinos| == |w.tickets| && (forall id: nat :: LibroOk(w, id)) && (forall t: nat :: TicketOk(w, t))
  }

  // ---------------------------------------------------------------- sessions

  predicate MismaVersion(w: Mundo, k: Clave) {
    k in w.ses && k.id in w.q.items && w.q.items[k.id].version == w.ses[k].copia.version
  }

  predicate EsDueno(w: Mundo, k: Clave) { k.id in w.q.claims && w.q.claims[k.id] == k.worker }

  /** What a session knows: its copy, its ticket and how far its content got. */
  predicate SesOk(c: Config, w: Mundo, k: Clave) {
    k in w.ses ==>
      var s := w.ses[k];
      && s.copia.id == k.id && 1 <= k.id <= w.q.contador && s.copia.maxIntentos >= 2 && Fiel(c, s.copia)
      && (k.id in w.q.items ==> Linea(s.copia, w.q.items[k.id]))
      && (s.fase in {Listado, ConLock} ==> !s.reclamada)
      && (s.fase in {Reclamado, Llamando, Aceptado, SfcHecho, Notificado, Liberando} ==> s.reclamada)
      && (s.reclamada ==>
            && s.ticket < |w.tickets| && w.tickets[s.ticket] == Ticket(s.copia.Ranura(), s.copia.payload)
            && Reclamo(k, s.ticket, s.copia.sfcCompletado) in w.log
            && (MismaVersion(w, k) ==> k.id in w.ticketDe && w.ticketDe[k.id] == s.ticket)
            && (MismaVersion(w, k) && EsDueno(w, k) ==> w.q.items[k.id].intentos == s.copia.intentos))
      && (s.fase == Llamando ==> Llamada(k, s.ticket) in w.log)
      && (s.fase == Aceptado ==> Acepto(k, s.ticket) in w.log && ClaveDe(s.copia) in w.aceptadas && s.resp.Some?)
      && (s.fase in {SfcHecho, Notificado} ==>
            Hecho(s.ticket) in w.log && (MismaVersion(w, k) ==> w.q.items[k.id].sfcCompletado))
      && (s.fase == Notificado ==> Confirmo(k, s.ticket) in w.log)
  }

  /** A claim is always that of a session that claimed this item. */
  predicate ClaimOk(w: Mundo, id: nat) {
    id in w.q.claims ==> Clave(w.q.claims[id], id) in w.ses && w.ses[Clave(w.q.claims[id], id)].reclamada
  }

  ghost predicate Sesiones(c: Config, w: Mundo) {
    (forall k :: SesOk(c, w, k)) && (forall id: nat :: ClaimOk(w, id))
  }

  // ---------------------------------------------------------------- log

  /** What must already have happened when `e` is recorded. */
  ghost predicate EventoOk(previos: seq<Evento>, e: Evento) {
    match e
    case Reclamo(k, t, ya) => ya <==> Hecho(t) in previos
    case Llamada(k, t) => Reclamo(k, t, false) in previos
    case Acepto(k, t) => Llamada(k, t) in previos
    case Hecho(t) => exists k :: Acepto(k, t) in previos
    case Confirmo(k, t) => Hecho(t) in previos
    case Exito(t) => exists k :: Confirmo(k, t) in previos
  }

  ghost predicate LogOk(log: seq<Evento>) {
    forall j :: 0 <= j < |log| ==> EventoOk(log[..j], log[j])
  }

  /** A recorded claim is that of its session, which claimed once. */
  predicate RegOk(w: Mundo, e: Evento) {
    e in w.log ==>
      && e.t < |w.tickets|
      && (e.Reclamo? ==> e.k in w.ses && w.ses[e.k].reclamada && w.ses[e.k].ticket == e.t
                         && w.ses[e.k].copia.sfcCompletado == e.yaHecho)
  }

  /** SFC_DONE on the stored item is exactly SFC_DONE recorded for the content it holds now. */
  predicate HechoOk(w: Mundo, id: nat) {
    id in w.q.items && id in w.ticketDe ==>
      (w.q.items[id].sfcCompletado <==> Hecho(w.ticketDe[id]) in w.log)
  }

  ghost predicate Bitacora(w: Mundo) {
    LogOk(w.log) && (forall e :: RegOk(w, e)) && (forall id: nat :: HechoOk(w, id))
  }

  // ---------------------------------------------------------------- idempotency store

  /** The item, while it exists, is in the slot of that smart code and operation. */
  predicate EnRanura(w: Mundo, id: nat, s: Slot) {
    id <= w.q.contador && (id in w.q.items ==> w.q.items[id].Ranura() == s)
  }

  /** COMPLETED was accepted by the SFC; QUEUED points into its own slot. */
  predicate IdemOk(w: Mundo, clave: ClaveIdem) {
    clave in w.q.idem ==>
      match w.q.idem[clave]
      case Processing => true
      case Completed(_) => clave in w.aceptadas
      case Queued(id) => EnRanura(w, id, Slot(clave.smartCode, clave.operacion))
  }

  predicate PetOk(c: Config, w: Mundo, n: nat) {
    n in w.pet ==>
      && (w.pet[n].fase.Aceptada? || w.pet[n].fase.Registrada? || w.pet[n].fase.Cancelando? ==>
            ClaveDePet(c, w.pet[n]) in w.aceptadas)
      && (w.pet[n].fase.PorRegistrar? ==> EnRanura(w, w.pet[n].fase.itemId, RanuraDePet(c, w.pet[n])))
  }

  ghost predicate Idempotencia(c: Config, w: Mundo) {
    (forall clave :: IdemOk(w, clave)) && (forall n: nat :: PetOk(c, w, n))
  }

  ghost predicate InvM(c: Config, w: Mundo) {
    c.maxIntentos >= 2 && Inv(c, w.q) && Libro(w) && Sesiones(c, w) && Bitacora(w) && Idempotencia(c, w)
  }

  lemma InicialInvM(c: Config)
    requires c.maxIntentos >= 2
    ensures InvM(c, INICIAL)
  {
    InicialInv(c);
  }

  // ---------------------------------------------------------------- frames

  /** Queue untouched except for the idempotency records. */
  predicate MismaCola(w: Mundo, w': Mundo) { w'.q == w.q.(idem := w'.q.idem) }

  predicate MismoLibro(w: Mundo, w': Mundo) {
    w'.tickets == w.tickets && w'.destinos == w.destinos && w'.ticketDe == w.ticketDe
  }

  lemma MismaColaConserva(c: Config, w: Mundo, w': Mundo)
    requires Inv(c, w.q) && MismaCola(w, w')
    ensures Inv(c, w'.q)
  {
    forall id: nat ensures IdOk(c, w'.q, id) { assert IdOk(c, w.q, id); }
    forall s ensures SlotOk(w'.q, s) { assert SlotOk(w.q, s); }
  }

  lemma MismaColaSigue(w: Mundo, w': Mundo)
    requires MismaCola(w, w') && MismoLibro(w, w') && w.log <= w'.log && w.aceptadas <= w'.aceptadas
    ensures Sigue(w, w')
  {
    forall id: nat ensures Evoluciona(w, w', id) {
    }
  }

  /** Sessions outside `ks` keep what they know as long as the items they hold evolve lawfully. */
  lemma SesionMarco(c: Config, w: Mundo, w': Mundo, k: Clave)
    requires SesOk(c, w, k) && Sigue(w, w')
    requires k in w.ses && k in w'.ses && w'.ses[k] == w.ses[k]
    requires EsDueno(w', k) ==> EsDueno(w, k)
    requires IntentosFijos(w, w', k.id)
    ensures SesOk(c, w', k)
  {
    assert Evoluciona(w, w', k.id);
    var s := w.ses[k];
    if MismaVersion(w', k) {
      assert MismaVersion(w, k);
    }
    assert forall e :: e in w.log ==> e in w'.log;
    assert s.reclamada ==> w'.tickets[s.ticket] == w.tickets[s.ticket];
  }

  lemma SesionesMarco(c: Config, w: Mundo, w': Mundo, ks: set<Clave>)
    requires Sesiones(c, w) && Sigue(w, w') && forall id: nat :: IntentosFijos(w, w', id)
    requires w.ses.Keys <= w'.ses.Keys <= w.ses.Keys + ks
    requires forall k :: k in w.ses && k !in ks ==> w'.ses[k] == w.ses[k]
    requires forall k :: EsDueno(w', k) && k !in ks ==> EsDueno(w, k)
    requires forall k :: k in ks ==> SesOk(c, w', k) && (EsDueno(w', k) ==> k in w'.ses && w'.ses[k].reclamada)
    ensures Sesiones(c, w')
  {
    forall k ensures SesOk(c, w', k) {
      assert SesOk(c, w, k) && IntentosFijos(w, w', k.id);
      if k in w'.ses && k !in ks {
        SesionMarco(c, w, w', k);
      }
    }
    forall id: nat ensures ClaimOk(w', id) {
      if id in w'.q.claims {
        var k := Clave(w'.q.claims[id], id);
        assert EsDueno(w', k);
        if k !in ks {
          assert EsDueno(w, k) && ClaimOk(w, id);
        }
      }
    }
  }

  /** Same items with the same content, same succeeded set, same recorded successes. */
  lemma LibroMarco(w: Mundo, w': Mundo)
    requires Libro(w) && MismoLibro(w, w') && w.aceptadas <= w'.aceptadas
    requires w'.q.items.Keys == w.q.items.Keys && w'.q.exitosos == w.q.exitosos
    requires forall id :: id in w.q.items ==>
               w'.q.items[id].Ranura() == w.q.items[id].Ranura() && w'.q.items[id].payload == w.q.items[id].payload
    requires forall t: nat :: ExitoRegistrado(w', t) == ExitoRegistrado(w, t)
    ensures Libro(w')
  {
    forall id: nat ensures LibroOk(w', id) { assert LibroOk(w, id); }
    forall t: nat ensures TicketOk(w', t) { assert TicketOk(w, t); }
  }

  /** Sessions that claimed keep their copy and ticket. */
  ghost predicate SesionesCompatibles(w: Mundo, w': Mundo) {
    forall k :: k in w.ses && w.ses[k].reclamada ==>
      k in w'.ses && w'.ses[k].reclamada && w'.ses[k].ticket == w.ses[k].ticket && w'.ses[k].copia == w.ses[k].copia
  }

  lemma BitacoraMarco(w: Mundo, w': Mundo)
    requires Bitacora(w) && w'.log == w.log && |w.tickets| <= |w'.tickets| && SesionesCompatibles(w, w')
    requires forall id :: id in w'.q.items && id in w'.ticketDe ==>
               && id in w.q.items && id in w.ticketDe && w'.ticketDe[id] == w.ticketDe[id]
               && w'.q.items[id].sfcCompletado == w.q.items[id].sfcCompletado
    ensures Bitacora(w')
  {
    forall e ensures RegOk(w', e) { assert RegOk(w, e); }
    forall id: nat ensures HechoOk(w', id) { assert HechoOk(w, id); }
  }

  lemma LogAnota(log: seq<Evento>, e: Evento)
    requires LogOk(log) && EventoOk(log, e)
    ensures LogOk(log + [e])
  {
    var l := log + [e];
    forall j | 0 <= j < |l| ensures EventoOk(l[..j], l[j]) {
      if j < |log| {
        assert l[..j] == log[..j];
      } else {
        assert l[..j] == log;
      }
    }
  }

  /** Recording an event that is not SFC_DONE: nothing stored changes. */
  lemma BitacoraAnota(w: Mundo, w': Mundo, e: Evento)
    requires Bitacora(w) && w'.log == w.log + [e] && |w.tickets| <= |w'.tickets| && SesionesCompatibles(w, w')
    requires EventoOk(w.log, e) && RegOk(w', e) && !e.Hecho?
    requires w'.ticketDe == w.ticketDe && w'.q.items.Keys == w.q.items.Keys
    requires forall id :: id in w.q.items ==> w'.q.items[id].sfcCompletado == w.q.items[id].sfcCompletado
    ensures Bitacora(w')
  {
    LogAnota(w.log, e);
    forall f ensures RegOk(w', f) { assert RegOk(w, f); }
    forall id: nat ensures HechoOk(w', id) { assert HechoOk(w, id); }
  }

  /** Whatever changed is justified; the rest stays justified because items keep their slot. */
  lemma IdemMarco(c: Config, w: Mundo, w': Mundo)
    requires Idempotencia(c, w) && Sigue(w, w')
    requires forall clave :: clave in w'.q.idem ==>
               (clave in w.q.idem && w'.q.idem[clave] == w.q.idem[clave]) || IdemOk(w', clave)
    requires forall n :: n in w'.pet ==> (n in w.pet && w'.pet[n] == w.pet[n]) || PetOk(c, w', n)
    ensures Idempotencia(c, w')
  {
    forall clave ensures IdemOk(w', clave) {
      assert IdemOk(w, clave);
      if clave in w'.q.idem && clave in w.q.idem && w'.q.idem[clave] == w.q.idem[clave] && w.q.idem[clave].Queued? {
        assert Evoluciona(w, w', w.q.idem[clave].itemId);
      }
    }
    forall n: nat ensures PetOk(c, w', n) {
      assert PetOk(c, w, n);
      if n in w'.pet && n in w.pet && w'.pet[n] == w.pet[n] && w.pet[n].fase.PorRegistrar? {
        assert Evoluciona(w, w', w.pet[n].fase.itemId);
      }
    }
  }
}
