/** One in-flight dispatch per smart code: what the case lock gives, with and without renewed leases. */
module Exclusion {
  import opened Comun
  import opened Cola
  import opened Protocolo
  import opened ProtocoloInvariante
  import opened ProtocoloTeoremas

  /** Inside the locked region of the code: from the acquisition to the release or the crash. */
  predicate Activo(w: Mundo, t: Titular) {
    match t
    case DeWorker(k) => k in w.ses && FaseConLock(w.ses[k].fase)
    case DePeticion(n) => n in w.pet && w.pet[n].conLock
  }

  /** Waiting for the SFC's answer. */
  predicate EnVueloSfc(w: Mundo, t: Titular) {
    match t
    case DeWorker(k) => EnFase(w, k, {Llamando})
    case DePeticion(n) => PetEn(w, n, EnVuelo)
  }

  function CasoDe(w: Mundo, t: Titular): string
    requires Activo(w, t)
  {
    match t case DeWorker(k) => w.ses[k].copia.smartCode case DePeticion(n) => w.pet[n].smartCode
  }

  predicate Tiene(w: Mundo, t: Titular) {
    Activo(w, t) ==> CasoDe(w, t) in w.locks && w.locks[CasoDe(w, t)] == t
  }

  /** A call in flight is inside the locked region. */
  predicate EnRegion(w: Mundo, n: nat) { PetEn(w, n, EnVuelo) ==> w.pet[n].conLock }

  ghost predicate Exclusiva(w: Mundo) { (forall t :: Tiene(w, t)) && (forall n: nat :: EnRegion(w, n)) }

  /** While its holder runs, the watchdog renews the lease: only locks of dead holders expire. */
  predicate ArriendoVivo(w: Mundo, p: Paso) {
    p.Entorno? && p.e.ExpiraLock? && p.e.sc in w.locks ==> !Activo(w, w.locks[p.e.sc])
  }

  // ---------------------------------------------------------------- what a step does to the locks

  function QuienDa(p: Paso): Option<Titular> {
    match p
    case Entorno(_) => None
    case Trabajador(k, _) => Some(DeWorker(k))
    case Solicitud(n, _) => Some(DePeticion(n))
  }

  predicate LockAjeno(w: Mundo, w': Mundo, yo: Titular, sc: string) {
    && (sc in w.locks && w.locks[sc] != yo ==> sc in w'.locks && w'.locks[sc] == w.locks[sc])
    && (sc in w'.locks && w'.locks[sc] != yo ==> sc in w.locks && w.locks[sc] == w'.locks[sc])
  }

  lemma LockDeSesion(c: Config, w: Mundo, k: Clave, s: PasoSesion, sc: string)
    requires PuedeSesion(w, k, s)
    ensures LockAjeno(w, TrasSesion(c, w, k, s), DeWorker(k), sc)
  {
  }

  lemma LockDePeticion(c: Config, w: Mundo, n: nat, t: PasoPeticion, sc: string)
    requires PuedePeticion(w, n, t)
    ensures LockAjeno(w, TrasPeticion(c, w, n, t), DePeticion(n), sc)
  {
  }

  /**
   * With no assumption on leases: whatever a session or request does, stale or not, it never deletes, takes over
   * or hands out a lock of somebody else.
   */
  lemma LockAjenoIntacto(c: Config, w: Mundo, p: Paso, sc: string)
    requires Habilitado(w, p) && QuienDa(p).Some?
    ensures LockAjeno(w, Aplicar(c, w, p), QuienDa(p).value, sc)
  {
    match p
    case Trabajador(k, s) => LockDeSesion(c, w, k, s, sc);
    case Solicitud(n, t) => LockDePeticion(c, w, n, t, sc);
  }

  // ---------------------------------------------------------------- the one who steps

  lemma TieneSesion(c: Config, w: Mundo, k: Clave, s: PasoSesion)
    requires PuedeSesion(w, k, s) && SesOk(c, w, k) && Tiene(w, DeWorker(k))
    ensures Tiene(TrasSesion(c, w, k, s), DeWorker(k))
  {
    match s
    case TomaLock => assert Tiene(TomarLockEn(w, k), DeWorker(k));
    case Reclama => assert Tiene(ReclamarEn(w, k), DeWorker(k));
    case MarcaSfc(ahora) => assert Tiene(MarcarSfcEn(w, k, ahora), DeWorker(k));
    case MarcaExito(ahora) => assert Tiene(MarcarExitoEn(w, k, ahora), DeWorker(k));
    case Falla(error, consumir, ahora) => assert Tiene(FallarEn(c, w, k, error, consumir, ahora), DeWorker(k));
    case _ =>
  }

  predicate SigueTeniendo(w: Mundo, n: nat) { Tiene(w, DePeticion(n)) && EnRegion(w, n) }

  lemma TienePeticion(c: Config, w: Mundo, n: nat, t: PasoPeticion)
    requires PuedePeticion(w, n, t) && SigueTeniendo(w, n)
    ensures SigueTeniendo(TrasPeticion(c, w, n, t), n)
  {
    match t
    case PetEncola(error, ahora) => assert SigueTeniendo(RecibirEncolado(c, w, n, error, ahora), n);
    case Cancela => assert SigueTeniendo(CancelarEn(c, w, n), n);
    case Verifica => assert SigueTeniendo(VerificarEn(c, w, n), n);
    case IniciaProcessing => assert SigueTeniendo(IniciarEn(c, w, n), n);
    case PideLock => assert SigueTeniendo(PedirLockEn(w, n), n);
    case LeeCancelable => assert SigueTeniendo(LeerCancelableEn(c, w, n), n);
    case PetSueltaLock => assert SigueTeniendo(SoltarLockEn(w, n), n);
    case _ =>
  }

  // ---------------------------------------------------------------- the others

  predicate OtrasSesiones(w: Mundo, w': Mundo, k: Clave) {
    w'.pet == w.pet && k in w'.ses && w'.ses == w.ses[k := w'.ses[k]]
  }

  predicate OtrasPeticiones(w: Mundo, w': Mundo, n: nat) {
    w'.ses == w.ses && n in w'.pet && w'.pet == w.pet[n := w'.pet[n]]
  }

  lemma OtrosTrasSesion(c: Config, w: Mundo, k: Clave, s: PasoSesion)
    requires PuedeSesion(w, k, s)
    ensures OtrasSesiones(w, TrasSesion(c, w, k, s), k)
  {
    match s
    case TomaLock => assert OtrasSesiones(w, TomarLockEn(w, k), k);
    case Reclama => assert OtrasSesiones(w, ReclamarEn(w, k), k);
    case MarcaSfc(ahora) => assert OtrasSesiones(w, MarcarSfcEn(w, k, ahora), k);
    case MarcaExito(ahora) => assert OtrasSesiones(w, MarcarExitoEn(w, k, ahora), k);
    case Falla(error, consumir, ahora) => assert OtrasSesiones(w, FallarEn(c, w, k, error, consumir, ahora), k);
    case _ =>
  }

  /** The steps of a request that only move it on. */
  predicate SoloFase(t: PasoPeticion) {
    t.Recibe? || t.Verifica? || t.PetTransitoria? || t.PetRechazada? || t.LeeCancelable? || t.PetEncolaFalla?
    || t.PetCae? || t.PideLockFalla? || t.PetNoCancela?
  }

  lemma OtrosSoloFase(c: Config, w: Mundo, n: nat, t: PasoPeticion)
    requires PuedePeticion(w, n, t) && SoloFase(t)
    ensures OtrasPeticiones(w, TrasPeticion(c, w, n, t), n)
  {
  }

  lemma OtrosConEfecto(c: Config, w: Mundo, n: nat, t: PasoPeticion)
    requires PuedePeticion(w, n, t) && !SoloFase(t) && !t.PetEncola? && !t.Cancela?
    ensures OtrasPeticiones(w, TrasPeticion(c, w, n, t), n)
  {
    match t
    case IniciaProcessing => assert OtrasPeticiones(w, IniciarEn(c, w, n), n);
    case PideLock => assert OtrasPeticiones(w, PedirLockEn(w, n), n);
    case PetSueltaLock => assert OtrasPeticiones(w, SoltarLockEn(w, n), n);
    case _ =>
  }

  lemma OtrosEnLaCola(c: Config, w: Mundo, n: nat, t: PasoPeticion)
    requires PuedePeticion(w, n, t) && (t.PetEncola? || t.Cancela?)
    ensures OtrasPeticiones(w, TrasPeticion(c, w, n, t), n)
  {
    assert t.PetEncola? ==> OtrasPeticiones(w, RecibirEncolado(c, w, n, t.error, t.ahora), n);
    assert t.Cancela? ==> OtrasPeticiones(w, CancelarEn(c, w, n), n);
  }

  lemma OtrosTrasPeticion(c: Config, w: Mundo, n: nat, t: PasoPeticion)
    requires PuedePeticion(w, n, t)
    ensures OtrasPeticiones(w, TrasPeticion(c, w, n, t), n)
  {
    if SoloFase(t) {
      OtrosSoloFase(c, w, n, t);
    } else if t.PetEncola? || t.Cancela? {
      OtrosEnLaCola(c, w, n, t);
    } else {
      OtrosConEfecto(c, w, n, t);
    }
  }

  predicate MismaPeticion(a: Peticion, b: Peticion) { a.smartCode == b.smartCode && a.payload == b.payload }

  lemma SesionNoTocaPeticiones(c: Config, w: Mundo, k: Clave, s: PasoSesion)
    requires PuedeSesion(w, k, s)
    ensures TrasSesion(c, w, k, s).pet == w.pet
  {
  }

  lemma PasoExcluye(c: Config, w: Mundo, p: Paso)
    requires InvM(c, w) && Exclusiva(w) && Habilitado(w, p) && ArriendoVivo(w, p)
    ensures Exclusiva(Aplicar(c, w, p))
  {
    match p
    case Entorno(e) => EntornoExcluye(w, e);
    case Trabajador(k, s) => assert SesOk(c, w, k); SesionExcluye(c, w, k, s);
    case Solicitud(n, t) => PeticionExcluye(c, w, n, t);
  }

  /** Only `yo` stepped: it holds what it claims, and the others' locks and regions are as before. */
  lemma LosDemasIgual(w: Mundo, w': Mundo, yo: Titular)
    requires Exclusiva(w) && Tiene(w', yo)
    requires forall t :: t != yo && Activo(w', t) ==> Activo(w, t) && CasoDe(w', t) == CasoDe(w, t)
    requires forall sc :: LockAjeno(w, w', yo, sc)
    requires forall n: nat :: EnRegion(w', n)
    ensures Exclusiva(w')
  {
    forall t ensures Tiene(w', t) {
      assert Tiene(w, t);
      if t != yo && Activo(w', t) {
        assert LockAjeno(w, w', yo, CasoDe(w, t));
      }
    }
  }

  lemma EntornoExcluye(w: Mundo, e: PasoEntorno)
    requires Exclusiva(w) && PuedeEntorno(w, e) && ArriendoVivo(w, Entorno(e))
    ensures Exclusiva(TrasEntorno(w, e))
  {
    forall t ensures Tiene(TrasEntorno(w, e), t) { assert Tiene(w, t); }
    forall n: nat ensures EnRegion(TrasEntorno(w, e), n) { assert EnRegion(w, n); }
  }

  lemma SesionExcluye(c: Config, w: Mundo, k: Clave, s: PasoSesion)
    requires Exclusiva(w) && SesOk(c, w, k) && PuedeSesion(w, k, s)
    ensures Exclusiva(TrasSesion(c, w, k, s))
  {
    var w' := TrasSesion(c, w, k, s);
    OtrosTrasSesion(c, w, k, s);
    assert Tiene(w, DeWorker(k));
    TieneSesion(c, w, k, s);
    forall sc ensures LockAjeno(w, w', DeWorker(k), sc) { LockDeSesion(c, w, k, s, sc); }
    forall n: nat ensures EnRegion(w', n) { assert EnRegion(w, n); }
    LosDemasIgual(w, w', DeWorker(k));
  }

  lemma PeticionExcluye(c: Config, w: Mundo, n: nat, pt: PasoPeticion)
    requires Exclusiva(w) && PuedePeticion(w, n, pt)
    ensures Exclusiva(TrasPeticion(c, w, n, pt))
  {
    var w' := TrasPeticion(c, w, n, pt);
    OtrosTrasPeticion(c, w, n, pt);
    assert Tiene(w, DePeticion(n)) && EnRegion(w, n);
    TienePeticion(c, w, n, pt);
    LocksTrasPeticion(c, w, n, pt);
    RegionesTrasPeticion(w, w', n);
    LosDemasIgual(w, w', DePeticion(n));
  }

  lemma LocksTrasPeticion(c: Config, w: Mundo, n: nat, pt: PasoPeticion)
    requires PuedePeticion(w, n, pt)
    ensures forall sc :: LockAjeno(w, TrasPeticion(c, w, n, pt), DePeticion(n), sc)
  {
    forall sc ensures LockAjeno(w, TrasPeticion(c, w, n, pt), DePeticion(n), sc) {
      LockDePeticion(c, w, n, pt, sc);
    }
  }

  lemma RegionesTrasPeticion(w: Mundo, w': Mundo, n: nat)
    requires Exclusiva(w) && EnRegion(w', n) && OtrasPeticiones(w, w', n)
    ensures forall m: nat :: EnRegion(w', m)
  {
    forall m: nat ensures EnRegion(w', m) { assert EnRegion(w, m); }
  }

  // ---------------------------------------------------------------- over whole runs

  ghost predicate ArriendosRenovados(r: Corrida)
    requires |r.estados| == |r.pasos| + 1
  {
    forall i {:trigger r.pasos[i]} :: 0 <= i < |r.pasos| ==> ArriendoVivo(r.estados[i], r.pasos[i])
  }

  /** Nothing expired, was purged or replayed: only the worker and the requests acted. */
  ghost predicate SinEntorno(r: Corrida) { forall p :: p in r.pasos ==> !p.Entorno? }

  /** What `r'` adds to `r` is neither an expiry nor a replay nor a purge. */
  ghost predicate SinEntornoNuevo(r: Corrida, r': Corrida)
    requires |r.estados| == |r.pasos| + 1 && |r'.estados| == |r'.pasos| + 1
  {
    (SinEntorno(r) ==> SinEntorno(r')) && (ArriendosRenovados(r') ==> ArriendosRenovados(r))
  }

  lemma {:induction false} CorridaExcluye(c: Config, r: Corrida, i: nat)
    requires c.maxIntentos >= 2 && EsCorrida(c, r) && ArriendosRenovados(r) && i < |r.estados|
    ensures Exclusiva(r.estados[i])
  {
    if i > 0 {
      CorridaExcluye(c, r, i - 1);
      CorridaConserva(c, r, i - 1);
      var p := r.pasos[i - 1];
      PasoExcluye(c, r.estados[i - 1], p);
    }
  }

  /**
   * While holders keep their leases, two of them are never in the locked region of the same case, so no two
   * calls to the SFC for one smart code overlap, whichever operations of the case sit in the queue.
   */
  lemma UnDespachoPorCaso(c: Config, r: Corrida, i: nat, a: Titular, b: Titular)
    requires c.maxIntentos >= 2 && EsCorrida(c, r) && ArriendosRenovados(r) && i < |r.estados|
    requires a != b
    ensures EnVueloSfc(r.estados[i], a) ==> Activo(r.estados[i], a)
    ensures Activo(r.estados[i], a) && Activo(r.estados[i], b) ==> CasoDe(r.estados[i], a) != CasoDe(r.estados[i], b)
  {
    CorridaExcluye(c, r, i);
    var w := r.estados[i];
    assert Tiene(w, a) && Tiene(w, b);
    if a.DePeticion? { assert EnRegion(w, a.n); }
  }
}
