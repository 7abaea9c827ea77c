/** What a synchronous success cancels, whatever happens between its reading of the slot and its cancellation. */
module Cancelacion {
  import opened Cola
  import opened ColaInvariantes
  import opened Protocolo
  import opened ProtocoloInvariante
  import opened ProtocoloTeoremas
  import opened Exclusion

  /** The step reads item `id`, with this hash, as the pending item of the slot of request `n`. */
  predicate Lee(c: Config, w: Mundo, p: Paso, n: nat, id: nat, hash: int) {
    && p == Solicitud(n, LeeCancelable) && PetEn(w, n, Registrada)
    && id in w.q.pendientes && id in w.q.items && w.q.items[id].Ranura() == RanuraDePet(c, w.pet[n])
    && w.q.items[id].payloadHash == hash
  }

  /** The item is the pending one of the slot of request `n`. */
  predicate EnSuRanura(c: Config, w: Mundo, n: nat, id: nat) {
    && n in w.pet && id in w.q.pendientes && id in w.q.items
    && w.q.items[id].Ranura() == RanuraDePet(c, w.pet[n])
  }

  predicate TrasLeer(f: FasePet, id: nat, hash: int) {
    f == Cancelando(id, hash) || f.Soltando? || f.Liberando503? || f.Finalizada?
  }

  // ---------------------------------------------------------------- one step

  lemma LecturaExacta(c: Config, w: Mundo, n: nat, id: nat, hash: int)
    requires InvM(c, w) && PetEn(w, n, Registrada)
    ensures LeerCancelableEn(c, w, n).pet[n].fase == Cancelando(id, hash)
            <==> Lee(c, w, Solicitud(n, LeeCancelable), n, id, hash)
    ensures MismaPeticion(w.pet[n], LeerCancelableEn(c, w, n).pet[n])
  {
    var s := RanuraDePet(c, w.pet[n]);
    OcupadoSiiPendiente(c, w.q, s);
    assert SlotOk(w.q, s);
    assert Ocupado(w.q, s) ==> IdOk(c, w.q, w.q.indice[s]);
    assert IdOk(c, w.q, id);
  }

  /** A request about to cancel was so before, or has just read. */
  lemma CancelandoUnPaso(c: Config, w: Mundo, p: Paso, n: nat, id: nat, hash: int)
    requires InvM(c, w) && Habilitado(w, p)
    requires n in Aplicar(c, w, p).pet && Aplicar(c, w, p).pet[n].fase == Cancelando(id, hash)
    ensures n in w.pet && MismaPeticion(w.pet[n], Aplicar(c, w, p).pet[n])
    ensures w.pet[n].fase == Cancelando(id, hash) || Lee(c, w, p, n, id, hash)
  {
    match p
    case Entorno(e) =>
    case Trabajador(k, s) => SesionNoTocaPeticiones(c, w, k, s);
    case Solicitud(m, t) =>
      OtrosTrasPeticion(c, w, m, t);
      if m == n {
        SoloLeyendo(c, w, n, t);
        LecturaExacta(c, w, n, id, hash);
      }
  }

  lemma SoloLeyendo(c: Config, w: Mundo, n: nat, t: PasoPeticion)
    requires PuedePeticion(w, n, t) && !NoCancela(TrasPeticion(c, w, n, t), n)
    ensures t.LeeCancelable?
  {
    if !t.LeeCancelable? {
      NoLeeNoCancela(c, w, n, t);
    }
  }

  lemma NoLeeNoCancela(c: Config, w: Mundo, n: nat, t: PasoPeticion)
    requires PuedePeticion(w, n, t) && !t.LeeCancelable?
    ensures NoCancela(TrasPeticion(c, w, n, t), n)
  {
    if !SoloFase(t) {
      ConEfectoNoCancela(c, w, n, t);
    }
  }

  lemma ConEfectoNoCancela(c: Config, w: Mundo, n: nat, t: PasoPeticion)
    requires PuedePeticion(w, n, t) && !SoloFase(t)
    ensures NoCancela(TrasPeticion(c, w, n, t), n)
  {
    match t
    case IniciaProcessing => assert NoCancela(IniciarEn(c, w, n), n);
    case PideLock => assert NoCancela(PedirLockEn(w, n), n);
    case Cancela => assert NoCancela(CancelarEn(c, w, n), n);
    case PetEncola(error, ahora) => assert NoCancela(RecibirEncolado(c, w, n, error, ahora), n);
    case RegistraExito(persistio) => assert NoCancela(RegistrarExitoEn(c, w, n, persistio), n);
    case RegistraEncolado(persistio) => assert NoCancela(RegistrarEncoladoEn(c, w, n, persistio), n);
    case PetSueltaLock => assert NoCancela(SoltarLockEn(w, n), n);
    case _ =>
  }

  predicate NoCancela(w: Mundo, n: nat) { n in w.pet && !w.pet[n].fase.Cancelando? }

  /** Having read, a request never reads again. */
  lemma TrasLeerUnPaso(c: Config, w: Mundo, p: Paso, n: nat, id: nat, hash: int)
    requires Habilitado(w, p) && n in w.pet && TrasLeer(w.pet[n].fase, id, hash)
    ensures n in Aplicar(c, w, p).pet && MismaPeticion(w.pet[n], Aplicar(c, w, p).pet[n])
    ensures TrasLeer(Aplicar(c, w, p).pet[n].fase, id, hash)
  {
    match p
    case Entorno(e) =>
    case Trabajador(k, s) => SesionNoTocaPeticiones(c, w, k, s);
    case Solicitud(m, t) =>
      OtrosTrasPeticion(c, w, m, t);
      if m == n {
        CierraTrasLeer(c, w, n, t, id, hash);
      }
  }

  lemma CierraTrasLeer(c: Config, w: Mundo, n: nat, t: PasoPeticion, id: nat, hash: int)
    requires PuedePeticion(w, n, t) && n in w.pet && TrasLeer(w.pet[n].fase, id, hash)
    ensures n in TrasPeticion(c, w, n, t).pet && MismaPeticion(w.pet[n], TrasPeticion(c, w, n, t).pet[n])
    ensures TrasLeer(TrasPeticion(c, w, n, t).pet[n].fase, id, hash)
  {
  }

  /** A cancellation takes exactly the item read, if it is still the slot's pending one with the hash read. */
  lemma CancelacionExacta(c: Config, w: Mundo, n: nat, id: nat)
    requires InvM(c, w) && n in w.pet && w.pet[n].fase.Cancelando? && id in w.q.items
    ensures id !in CancelarEn(c, w, n).q.items
            <==> EnSuRanura(c, w, n, id) && w.pet[n].fase == Cancelando(id, w.q.items[id].payloadHash)
  {
    var s := RanuraDePet(c, w.pet[n]);
    OcupadoSiiPendiente(c, w.q, s);
    assert SlotOk(w.q, s);
  }

  // ---------------------------------------------------------------- over runs

  ghost predicate LeeEn(c: Config, r: Corrida, i: nat, n: nat, id: nat, hash: int)
    requires |r.estados| == |r.pasos| + 1
  {
    i < |r.pasos| && Lee(c, r.estados[i], r.pasos[i], n, id, hash)
  }

  lemma {:induction false} DondeLeyo(c: Config, r: Corrida, j: nat, n: nat, id: nat, hash: int) returns (i: nat)
    requires c.maxIntentos >= 2 && EsCorrida(c, r) && j < |r.estados|
    requires n in r.estados[j].pet && r.estados[j].pet[n].fase == Cancelando(id, hash)
    ensures i < j && LeeEn(c, r, i, n, id, hash)
  {
    CorridaConserva(c, r, j - 1);
    CancelandoUnPaso(c, r.estados[j - 1], r.pasos[j - 1], n, id, hash);
    if Lee(c, r.estados[j - 1], r.pasos[j - 1], n, id, hash) {
      i := j - 1;
    } else {
      i := DondeLeyo(c, r, j - 1, n, id, hash);
    }
  }

  lemma {:induction false} DesdeQueLeyo(c: Config, r: Corrida, i: nat, j: nat, n: nat, id: nat, hash: int)
    requires c.maxIntentos >= 2 && EsCorrida(c, r) && i < j < |r.estados| && LeeEn(c, r, i, n, id, hash)
    ensures n in r.estados[j].pet && TrasLeer(r.estados[j].pet[n].fase, id, hash)
  {
    if j == i + 1 {
      CorridaConserva(c, r, i);
      LecturaExacta(c, r.estados[i], n, id, hash);
    } else {
      DesdeQueLeyo(c, r, i, j - 1, n, id, hash);
      TrasLeerUnPaso(c, r.estados[j - 1], r.pasos[j - 1], n, id, hash);
    }
  }

  /**
   * Over every run: the cancellation of a synchronous success removes an item if and only if that item is the pending
   * one of the request's slot and the request had read it there with the hash it still has; when its content arrived
   * does not matter.
   */
  lemma CancelaSii(c: Config, r: Corrida, j: nat, n: nat, id: nat)
    requires c.maxIntentos >= 2 && EsCorrida(c, r) && j < |r.pasos| && r.pasos[j] == Solicitud(n, Cancela)
    requires id in r.estados[j].q.items
    ensures id !in r.estados[j + 1].q.items
            <==> EnSuRanura(c, r.estados[j], n, id)
                 && exists i: nat :: i < j && LeeEn(c, r, i, n, id, r.estados[j].q.items[id].payloadHash)
  {
    var w := r.estados[j];
    var hash := w.q.items[id].payloadHash;
    CorridaConserva(c, r, j);
    CancelacionExacta(c, w, n, id);
    if w.pet[n].fase == Cancelando(id, hash) {
      var i := DondeLeyo(c, r, j, n, id, hash);
    }
    if i: nat :| i < j && LeeEn(c, r, i, n, id, hash) {
      DesdeQueLeyo(c, r, i, j, n, id, hash);
    }
  }
}
