/** How long the COMPLETED record of an accepted content lasts, and how an equal request gets past it. */
module Completado {
  import opened Cola
  import opened Protocolo
  import opened ProtocoloInvariante
  import opened ProtocoloTeoremas
  import opened Exclusion
  import opened Reenvio

  // ---------------------------------------------------------------- the COMPLETED record

  predicate Completo(w: Mundo, clave: ClaveIdem) { clave in w.q.idem && w.q.idem[clave].Completed? }

  predicate BorraEntorno(w: Mundo, e: PasoEntorno, clave: ClaveIdem) {
    || (e.ExpiraIdem? && e.clave == clave)
    || (e.RegistraReencolado? && e.id in w.q.items && ClaveDe(w.q.items[e.id]) == clave)
  }

  predicate BorraSesion(w: Mundo, k: Clave, s: PasoSesion, clave: ClaveIdem) {
    s.LiberaIdem? && k in w.ses && ClaveDe(w.ses[k].copia) == clave
  }

  predicate BorraPeticion(c: Config, w: Mundo, n: nat, t: PasoPeticion, clave: ClaveIdem) {
    && n in w.pet && ClaveDePet(c, w.pet[n]) == clave
    && (t.BorraHuerfano? || t.PetLiberaIdem? || (t.RegistraEncolado? && t.persistio))
  }

  /** The steps that delete the record of `clave` or write QUEUED over it. */
  predicate Borra(c: Config, w: Mundo, p: Paso, clave: ClaveIdem) {
    match p
    case Entorno(e) => BorraEntorno(w, e, clave)
    case Trabajador(k, s) => BorraSesion(w, k, s, clave)
    case Solicitud(n, t) => BorraPeticion(c, w, n, t, clave)
  }

  lemma CompletadoTrasEntorno(w: Mundo, e: PasoEntorno, clave: ClaveIdem)
    requires PuedeEntorno(w, e) && Completo(w, clave)
    ensures Completo(TrasEntorno(w, e), clave) <==> !BorraEntorno(w, e, clave)
  {
  }

  lemma CompletadoTrasSesion(c: Config, w: Mundo, k: Clave, s: PasoSesion, clave: ClaveIdem)
    requires PuedeSesion(w, k, s) && Completo(w, clave)
    ensures Completo(TrasSesion(c, w, k, s), clave) <==> !BorraSesion(w, k, s, clave)
  {
  }

  lemma CompletadoTrasPeticion(c: Config, w: Mundo, n: nat, t: PasoPeticion, clave: ClaveIdem)
    requires PuedePeticion(w, n, t) && Completo(w, clave)
    ensures Completo(TrasPeticion(c, w, n, t), clave) <==> !BorraPeticion(c, w, n, t, clave)
  {
  }

  /**
   * A step loses a COMPLETED record if and only if it is one of six: its expiry, the QUEUED write of an admin replay
   * or of a request, the release after a definitive failure or an error, or the deletion of a record taken for stale.
   */
  lemma CompletadoSigueSii(c: Config, w: Mundo, p: Paso, clave: ClaveIdem)
    requires Habilitado(w, p) && Completo(w, clave)
    ensures Completo(Aplicar(c, w, p), clave) <==> !Borra(c, w, p, clave)
  {
    match p
    case Entorno(e) => CompletadoTrasEntorno(w, e, clave);
    case Trabajador(k, s) => CompletadoTrasSesion(c, w, k, s, clave);
    case Solicitud(n, t) => CompletadoTrasPeticion(c, w, n, t, clave);
  }

  ghost predicate BorraEn(c: Config, r: Corrida, m: nat, clave: ClaveIdem)
    requires |r.estados| == |r.pasos| + 1
  {
    m < |r.pasos| && Borra(c, r.estados[m], r.pasos[m], clave)
  }

  ghost predicate BorradoEntre(c: Config, r: Corrida, i: nat, j: nat, clave: ClaveIdem)
    requires |r.estados| == |r.pasos| + 1
  {
    exists m: nat :: i <= m < j && BorraEn(c, r, m, clave)
  }

  ghost predicate CompletoEn(r: Corrida, m: nat, clave: ClaveIdem) {
    m < |r.estados| && Completo(r.estados[m], clave)
  }

  lemma CompletadoUnPaso(c: Config, r: Corrida, m: nat, clave: ClaveIdem)
    requires EsCorrida(c, r) && m < |r.pasos| && CompletoEn(r, m, clave)
    ensures CompletoEn(r, m + 1, clave) <==> !BorraEn(c, r, m, clave)
  {
    CompletadoSigueSii(c, r.estados[m], r.pasos[m], clave);
  }

  /** Over a run, an accepted content's record lasts exactly until the first of those steps. */
  lemma {:induction false} CompletadoDuraSii(c: Config, r: Corrida, i: nat, j: nat, clave: ClaveIdem)
    requires EsCorrida(c, r) && i <= j < |r.estados| && CompletoEn(r, i, clave)
    ensures (forall m: nat :: i <= m <= j ==> CompletoEn(r, m, clave)) <==> !BorradoEntre(c, r, i, j, clave)
    decreases j
  {
    if i < j {
      CompletadoDuraSii(c, r, i, j - 1, clave);
      if !BorradoEntre(c, r, i, j - 1, clave) {
        assert CompletoEn(r, j - 1, clave);
        CompletadoUnPaso(c, r, j - 1, clave);
        assert !BorraEn(c, r, j - 1, clave) <==> !BorradoEntre(c, r, i, j, clave);
      } else {
        var m: nat :| i <= m < j - 1 && BorraEn(c, r, m, clave);
        assert BorradoEntre(c, r, i, j, clave);
      }
    }
  }

  /** A request for a completed content gets past verification only if its record was dropped meanwhile. */
  lemma IniciarPideBorrado(c: Config, r: Corrida, i: nat, j: nat, n: nat)
    requires EsCorrida(c, r) && i <= j < |r.pasos| && r.pasos[j] == Solicitud(n, IniciaProcessing)
    requires n in r.estados[j].pet && CompletoEn(r, i, ClaveDePet(c, r.estados[j].pet[n]))
    requires n in r.estados[j + 1].pet && r.estados[j + 1].pet[n].fase == EnProceso
    ensures BorradoEntre(c, r, i, j, ClaveDePet(c, r.estados[j].pet[n]))
  {
    CompletadoDuraSii(c, r, i, j, ClaveDePet(c, r.estados[j].pet[n]));
    assert r.estados[j + 1] == IniciarEn(c, r.estados[j], n);
    assert !CompletoEn(r, j, ClaveDePet(c, r.estados[j].pet[n]));
  }

  // ---------------------------------------------------------------- where the equal copy comes from

  predicate EnMarcha(f: FasePet) { f.EnProceso? || f.EnVuelo? || f.PorEncolar? }

  /** A request under way was so before the step, or has just got past verification. */
  lemma MarchaUnPaso(c: Config, w: Mundo, p: Paso, n: nat)
    requires Habilitado(w, p) && n in Aplicar(c, w, p).pet && EnMarcha(Aplicar(c, w, p).pet[n].fase)
    ensures n in w.pet && MismaPeticion(w.pet[n], Aplicar(c, w, p).pet[n])
    ensures EnMarcha(w.pet[n].fase)
            || (p == Solicitud(n, IniciaProcessing) && Aplicar(c, w, p).pet[n].fase == EnProceso)
  {
    match p
    case Entorno(e) =>
    case Trabajador(k, s) => SesionNoTocaPeticiones(c, w, k, s);
    case Solicitud(m, t) => MarchaPeticion(c, w, m, t, n);
  }

  /** The request was under way and is the same, or this is the step that got it past verification. */
  predicate Marcha(w: Mundo, w': Mundo, n: nat, t: PasoPeticion) {
    n in w'.pet && EnMarcha(w'.pet[n].fase) ==>
      n in w.pet && MismaPeticion(w.pet[n], w'.pet[n])
      && (EnMarcha(w.pet[n].fase) || (t == IniciaProcessing && w'.pet[n].fase == EnProceso))
  }

  lemma MarchaSoloFase(c: Config, w: Mundo, n: nat, t: PasoPeticion)
    requires PuedePeticion(w, n, t) && SoloFase(t)
    ensures Marcha(w, TrasPeticion(c, w, n, t), n, t)
  {
  }

  lemma MarchaDeEntrada(c: Config, w: Mundo, n: nat, t: PasoPeticion)
    requires PuedePeticion(w, n, t) && (t.IniciaProcessing? || t.PideLock?)
    ensures Marcha(w, TrasPeticion(c, w, n, t), n, t)
  {
    assert Marcha(w, IniciarEn(c, w, n), n, IniciaProcessing);
    assert t.PideLock? ==> Marcha(w, PedirLockEn(w, n), n, t);
  }

  lemma MarchaAcabada(c: Config, w: Mundo, n: nat, t: PasoPeticion)
    requires PuedePeticion(w, n, t) && !SoloFase(t) && !t.IniciaProcessing? && !t.PideLock?
    ensures n in TrasPeticion(c, w, n, t).pet && !EnMarcha(TrasPeticion(c, w, n, t).pet[n].fase)
  {
  }

  lemma MarchaPeticion(c: Config, w: Mundo, m: nat, t: PasoPeticion, n: nat)
    requires PuedePeticion(w, m, t) && n in TrasPeticion(c, w, m, t).pet
    requires EnMarcha(TrasPeticion(c, w, m, t).pet[n].fase)
    ensures n in w.pet && MismaPeticion(w.pet[n], TrasPeticion(c, w, m, t).pet[n])
    ensures EnMarcha(w.pet[n].fase)
            || (m == n && t == IniciaProcessing && TrasPeticion(c, w, m, t).pet[n].fase == EnProceso)
  {
    if SoloFase(t) {
      MarchaSoloFase(c, w, m, t);
    } else if t.IniciaProcessing? || t.PideLock? {
      MarchaDeEntrada(c, w, m, t);
    } else {
      MarchaAcabada(c, w, m, t);
    }
    OtrosTrasPeticion(c, w, m, t);
  }

  /** Where a request under way got past verification. */
  lemma {:induction false} Arranque(c: Config, r: Corrida, m: nat, n: nat) returns (j: nat)
    requires EsCorrida(c, r) && m < |r.estados| && n in r.estados[m].pet && EnMarcha(r.estados[m].pet[n].fase)
    ensures j < m && r.pasos[j] == Solicitud(n, IniciaProcessing) && n in r.estados[j].pet
    ensures MismaPeticion(r.estados[j].pet[n], r.estados[m].pet[n])
    ensures n in r.estados[j + 1].pet && r.estados[j + 1].pet[n].fase == EnProceso
  {
    MarchaUnPaso(c, r.estados[m - 1], r.pasos[m - 1], n);
    if EnMarcha(r.estados[m - 1].pet[n].fase) {
      j := Arranque(c, r, m - 1, n);
    } else {
      j := m - 1;
    }
  }

  lemma HechoDejaCompleto(c: Config, w: Mundo, p: Paso, t: nat)
    requires InvM(c, w) && Habilitado(w, p) && OrigenDe(w, p, Hecho(t))
    ensures t < |w.tickets|
    ensures var tk := w.tickets[t];
            Completo(Aplicar(c, w, p), ClaveIdem(tk.slot.smartCode, c.operacion(tk.payload), c.hash(tk.payload)))
  {
    assert SesOk(c, w, p.k);
    var copia := w.ses[p.k].copia;
    assert Aplicar(c, w, p) == MarcarSfcEn(w, p.k, p.s.ahora);
    assert MarcarSfcEn(w, p.k, p.s.ahora).q
        == MarcarSfcCompletado(w.q, p.k.id, p.k.worker, copia.version, ClaveDe(copia), w.ses[p.k].resp, p.s.ahora).0;
  }

  /**
   * An equal copy enqueued after SFC_DONE of its content comes from a request that had got past verification before
   * SFC_DONE was recorded, or the COMPLETED record was dropped in between by one of the steps of `Borra`.
   */
  lemma CopiaTrasHechoPide(c: Config, r: Corrida, i: nat, a: nat, t1: nat, m: nat) returns (h: nat, j: nat)
    requires c.maxIntentos >= 2 && EsCorrida(c, r) && m < i < |r.estados|
    requires a < |r.estados[i].log| && r.estados[i].log[a] == Hecho(t1) && a < |r.estados[m].log|
    requires t1 < |r.estados[i].tickets| && ReviveEn(c, r, m, r.estados[i].tickets[t1]) && r.pasos[m].Solicitud?
    ensures h < i && |r.estados[h].log| == a && j < m && r.pasos[j] == Solicitud(r.pasos[m].n, IniciaProcessing)
    ensures var p := r.estados[m].pet[r.pasos[m].n];
            j <= h || BorradoEntre(c, r, h + 1, j, ClaveDePet(c, p))
  {
    h := PasoDelEvento(c, r, i, a);
    CorridaConserva(c, r, h);
    CorridaSigue(c, r, h, i);
    HechoDejaCompleto(c, r.estados[h], r.pasos[h], t1);
    var n := r.pasos[m].n;
    j := Arranque(c, r, m, n);
    if h < j {
      assert CompletoEn(r, h + 1, ClaveDePet(c, r.estados[j].pet[n]));
      IniciarPideBorrado(c, r, h + 1, j, n);
    }
  }
}
