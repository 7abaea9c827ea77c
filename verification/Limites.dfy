/** Where a stronger claim is false: each lemma covers a whole family of states and says what the code does there. */
module Limites {
  import opened Comun
  import opened Cola
  import opened ColaInvariantes
  import opened Protocolo
  import opened ProtocoloInvariante
  import P = ProtocoloPasos
  import opened ProtocoloTransiciones

  /** A copy of the request arrives while a session has this very content accepted but not yet recorded. */
  ghost predicate CopiaEnVuelo(c: Config, w: Mundo, k: Clave, n: nat) {
    && InvM(c, w) && EnFase(w, k, {Aceptado}) && EsDueno(w, k) && MismaVersion(w, k)
    && w.q.items[k.id].estado == PROCESSING
    && w.ses[k].copia.smartCode in w.locks
    && PetEn(w, n, Recibida) && w.pet[n].smartCode == w.ses[k].copia.smartCode && !w.pet[n].conLock
    && w.pet[n].payload == w.ses[k].copia.payload
    && ClaveDePet(c, w.pet[n]) in w.q.idem && w.q.idem[ClaveDePet(c, w.pet[n])] == Queued(k.id)
  }

  /** The copy takes the QUEUED record for stale, finds the case busy and is about to enqueue. */
  lemma CopiaLlegaAEncolar(c: Config, w: Mundo, k: Clave, n: nat) returns (w': Mundo)
    requires CopiaEnVuelo(c, w, k, n)
    ensures PuedePeticion(w, n, Verifica)
    ensures var w1 := TrasPeticion(c, w, n, Verifica);
            && PuedePeticion(w1, n, BorraHuerfano)
            && var w2 := TrasPeticion(c, w1, n, BorraHuerfano);
               && PuedePeticion(w2, n, IniciaProcessing)
               && var w3 := TrasPeticion(c, w2, n, IniciaProcessing);
                  PuedePeticion(w3, n, PideLock) && w' == TrasPeticion(c, w3, n, PideLock)
    ensures w' == w.(pet := w.pet[n := w.pet[n].(fase := PorEncolar)],
                     q := w.q.(idem := w.q.idem[ClaveDePet(c, w.pet[n]) := Processing]))
  {
    var clave := ClaveDePet(c, w.pet[n]);
    var w1 := VerificarEn(c, w, n);
    assert w1 == ConFasePet(w, n, Huerfana);
    var w2 := SinIdem(ConFasePet(w1, n, Iniciando), clave);
    assert w2 == TrasPeticion(c, w1, n, BorraHuerfano);
    assert clave !in w2.q.idem;
    var w3 := IniciarEn(c, w2, n);
    assert w3 == ConIdem(ConFasePet(w2, n, EnProceso), clave, Processing);
    w' := PedirLockEn(w3, n);
    assert w' == ConFasePet(w3, n, PorEncolar);
    assert Quitar(w.q.idem, clave)[clave := Processing] == w.q.idem[clave := Processing];
  }

  /** What the enqueue of the copy leaves: the same content as a new, unsent version. */
  lemma EncolarLaCopia(c: Config, w: Mundo, k: Clave, n: nat, error: string, ahora: Instante)
    requires InvM(c, w) && EnFase(w, k, {Aceptado}) && EsDueno(w, k) && MismaVersion(w, k)
    requires PetEn(w, n, PorEncolar) && w.pet[n].smartCode == w.ses[k].copia.smartCode
    requires w.pet[n].payload == w.ses[k].copia.payload
    ensures var w' := TrasPeticion(c, w, n, PetEncola(error, ahora));
            && w'.ses == w.ses && w'.log == w.log && w'.q.claims == w.q.claims && k.id in w'.q.items
            && k.id in w'.q.pendientes
            && w'.q.items[k.id].payload == w.ses[k].copia.payload && !w'.q.items[k.id].sfcCompletado
            && w'.q.items[k.id].version == w.ses[k].copia.version + 1
  {
    assert SesOk(c, w, k) && IdOk(c, w.q, k.id);
    DuenoConoce(c, w, k);
    assert SlotOk(w.q, RanuraDePet(c, w.pet[n]));
  }

  /**
   * "The SFC accepts one content at most once" is false, without any lease expiring. One family: if an identical copy
   * of a queued request arrives between the SFC's acceptance and SFC_DONE, its enqueue renews the version, SFC_DONE is
   * rejected, and the accepted content is pending again as if it had never been sent. `Contraejemplos` has another,
   * after SFC_DONE; `Reenvio.ReenviableSii` says when a content can be sent again, whatever the family.
   */
  lemma CopiaDuranteEnvioSeReenvia(c: Config, w: Mundo, k: Clave, n: nat, error: string, ahora: Instante)
    returns (w1: Mundo, w2: Mundo, w3: Mundo)
    requires CopiaEnVuelo(c, w, k, n)
    ensures PuedePeticion(w1, n, PetEncola(error, ahora)) && w2 == TrasPeticion(c, w1, n, PetEncola(error, ahora))
    ensures PuedeSesion(w2, k, MarcaSfc(ahora)) && w3 == TrasSesion(c, w2, k, MarcaSfc(ahora))
    ensures w1.ses == w.ses && Acepto(k, w.ses[k].ticket) in w3.log
    ensures w3.ses[k].fase == Terminando && k.id in w3.q.pendientes && k.id in w3.q.items
    ensures w3.q.items[k.id].payload == w.ses[k].copia.payload && !w3.q.items[k.id].sfcCompletado
  {
    w1 := CopiaLlegaAEncolar(c, w, k, n);
    CopiaConservaInv(c, w, k, n, w1);
    EncolarLaCopia(c, w1, k, n, error, ahora);
    w2 := TrasPeticion(c, w1, n, PetEncola(error, ahora));
    w3 := TrasSesion(c, w2, k, MarcaSfc(ahora));
    assert SesOk(c, w, k);
    VersionNuevaRechaza(c, w2, k, ahora);
  }

  lemma VersionNuevaRechaza(c: Config, w: Mundo, k: Clave, ahora: Instante)
    requires EnFase(w, k, {Aceptado}) && EsDueno(w, k) && k.id in w.q.items
    requires w.q.items[k.id].version != w.ses[k].copia.version
    ensures MarcarSfcEn(w, k, ahora) == ConFase(w.(q := ExpirarClaim(w.q, k.id)), k, Terminando)
  {
    assert Cerca(w.q, k.id, k.worker, w.ses[k].copia.version) == VersionDistinta;
  }

  lemma CopiaConservaInv(c: Config, w: Mundo, k: Clave, n: nat, w': Mundo)
    requires CopiaEnVuelo(c, w, k, n)
    requires w' == w.(pet := w.pet[n := w.pet[n].(fase := PorEncolar)],
                      q := w.q.(idem := w.q.idem[ClaveDePet(c, w.pet[n]) := Processing]))
    ensures InvM(c, w') && EnFase(w', k, {Aceptado}) && EsDueno(w', k) && MismaVersion(w', k)
    ensures PetEn(w', n, PorEncolar)
  {
    P.MenorConserva(c, w, w');
  }

  /**
   * A definitive failure forgets: when the CRM rejects the last attempt after the SFC had accepted, the idempotency
   * record of the accepted content goes, so the same request counts as new and goes to the SFC again. It is one of the
   * six steps after which a COMPLETED record is gone (`Completado.CompletadoSigueSii`).
   */
  lemma FalloDefinitivoOlvida(c: Config, w: Mundo, k: Clave, error: string, ahora: Instante)
    returns (w1: Mundo, w2: Mundo, j: Clave)
    requires InvM(c, w) && EnFase(w, k, {SfcHecho}) && EsDueno(w, k) && MismaVersion(w, k)
    requires w.ses[k].copia.intentos + 1 >= w.ses[k].copia.maxIntentos
    ensures w1 == FallarEn(c, w, k, error, true, ahora)
    ensures EnFase(w1, k, {Liberando}) && w2 == SinIdem(ConFase(w1, k, Terminando), ClaveDe(w1.ses[k].copia))
    ensures k.id in w2.q.fallidos && k.id in w2.q.items && w2.q.items[k.id].sfcCompletado
    ensures Acepto(j, w.ses[k].ticket) in w2.log
    ensures ClaveDe(w.ses[k].copia) !in w2.q.idem
    ensures forall n :: PetEn(w2, n, Recibida) && ClaveDePet(c, w2.pet[n]) == ClaveDe(w.ses[k].copia) ==>
              VerificarEn(c, w2, n).pet[n].fase == Iniciando
  {
    var copia := w.ses[k].copia;
    UltimoFallo(c, w, k, error, ahora);
    w1 := FallarEn(c, w, k, error, true, ahora);
    w2 := SinIdem(ConFase(w1, k, Terminando), ClaveDe(copia));
    j := QuienEnvio(c, w, k);
    forall n | PetEn(w2, n, Recibida) && ClaveDePet(c, w2.pet[n]) == ClaveDe(copia)
      ensures VerificarEn(c, w2, n).pet[n].fase == Iniciando
    {
      NuevaParaVerificar(c, w2, n);
    }
  }

  lemma NuevaParaVerificar(c: Config, w: Mundo, n: nat)
    requires PetEn(w, n, Recibida) && ClaveDePet(c, w.pet[n]) !in w.q.idem
    ensures VerificarEn(c, w, n).pet[n].fase == Iniciando
  {
  }

  /** The consuming failure of the last attempt: the item ends failed, still marked as sent. */
  lemma UltimoFallo(c: Config, w: Mundo, k: Clave, error: string, ahora: Instante)
    requires InvM(c, w) && EnFase(w, k, {SfcHecho}) && EsDueno(w, k) && MismaVersion(w, k)
    requires w.ses[k].copia.intentos + 1 >= w.ses[k].copia.maxIntentos
    ensures var w1 := FallarEn(c, w, k, error, true, ahora);
            && w1.log == w.log && k in w1.ses && w1.ses[k] == w.ses[k].(fase := Liberando)
            && k.id in w1.q.fallidos && k.id in w1.q.items && w1.q.items[k.id].sfcCompletado
  {
    var copia := w.ses[k].copia;
    assert SesOk(c, w, k) && IdOk(c, w.q, k.id);
    var w1 := FallarEn(c, w, k, error, true, ahora);
    assert w1.q == RegistrarFallo(w.q, k.id, k.worker, copia.version, ArgsDeFallo(c, copia, error, true, ahora)).0;
  }

  lemma QuienEnvio(c: Config, w: Mundo, k: Clave) returns (j: Clave)
    requires InvM(c, w) && EnFase(w, k, {SfcHecho})
    ensures Acepto(j, w.ses[k].ticket) in w.log
  {
    assert SesOk(c, w, k);
    var t := w.ses[k].ticket;
    var b :| 0 <= b < |w.log| && w.log[b] == Hecho(t);
    assert EventoOk(w.log[..b], w.log[b]);
    j :| Acepto(j, t) in w.log[..b];
  }

  /** Reading and cancelling with nothing in between, as a synchronous success does. */
  function TrasCancelacion(c: Config, w: Mundo, n: nat): Mundo
    requires PetEn(w, n, Registrada)
  {
    var w1 := LeerCancelableEn(c, w, n);
    if w1.pet[n].fase.Cancelando? then CancelarEn(c, w1, n) else w1
  }

  /**
   * A synchronous success cancels whatever waits in its slot at that moment, also content enqueued after the request
   * was sent: an item survives if and only if it is not pending in that slot, however new its content is. With other
   * steps between reading and cancelling, `Cancelacion.CancelaSii` is the exact statement.
   */
  lemma CancelaLoQueHaya(c: Config, w: Mundo, n: nat, id: nat)
    requires InvM(c, w) && PetEn(w, n, Registrada) && id in w.q.items
    ensures id in TrasCancelacion(c, w, n).q.items
            <==> !(id in w.q.pendientes && w.q.items[id].Ranura() == RanuraDePet(c, w.pet[n]))
    ensures id !in TrasCancelacion(c, w, n).q.items ==>
              id in w.ticketDe && w.ticketDe[id] < |w.destinos| == |TrasCancelacion(c, w, n).destinos|
              && TrasCancelacion(c, w, n).destinos[w.ticketDe[id]] == Cancelado(ClaveDePet(c, w.pet[n]))
  {
    var s := RanuraDePet(c, w.pet[n]);
    assert IdOk(c, w.q, id) && LibroOk(w, id);
    if Ocupado(w.q, s) {
      CancelaElPendiente(c, w, n);
    } else {
      OcupadoSiiPendiente(c, w.q, s);
    }
  }

  lemma CancelaElPendiente(c: Config, w: Mundo, n: nat)
    requires InvM(c, w) && PetEn(w, n, Registrada) && Ocupado(w.q, RanuraDePet(c, w.pet[n]))
    ensures var s := RanuraDePet(c, w.pet[n]);
            var w2 := TrasCancelacion(c, w, n);
            && w2.q.items == Quitar(w.q.items, w.q.indice[s]) && w.q.items[w.q.indice[s]].Ranura() == s
            && w2.destinos == Despachar(w, w.q.indice[s], Cancelado(ClaveDePet(c, w.pet[n])))
  {
    var s := RanuraDePet(c, w.pet[n]);
    var it := w.q.items[w.q.indice[s]];
    assert SlotOk(w.q, s) && IdOk(c, w.q, w.q.indice[s]);
    var w1 := ConFasePet(w, n, Cancelando(it.id, it.payloadHash));
    assert w1 == LeerCancelableEn(c, w, n);
    assert Cancelar(w.q, s, it.id, it.payloadHash).1;
  }
}
