/**
 * Access tokens shared by several nodes: 401 recovery as a state machine over interleaved requests.
 *
 * Each node keeps a local copy and a local lock; the shared record lives in Redis. Issued tokens are globally
 * fresh and Redis calls succeed. Whether a token is still within its time is left to chance at every test.
 */
module Tokens {
  import opened Comun

  type Token = nat
  datatype Tarea = Tarea(nodo: nat, num: nat)

  /** Why a request wants a token: its first try, or the one retry after a 401. */
  datatype Motivo = Primera | TrasRechazo(rechazado: Token)

  datatype Fase =
    | Libre
    | EsperaCandado(m: Motivo)
    | Invalidando(r: Token)                     // local lock held from here ...
    | Olvidando(r: Token)
    | Obteniendo(m: Motivo)
    | Leyendo(m: Motivo, leido: Option<Token>)
    | PorGuardar(m: Motivo, t: Token)           // ... to here
    | Enviando(m: Motivo, t: Token)

  datatype Red = Red(
    compartido: Option<Token>,
    emitidos: nat,
    locales: map<nat, Token>,
    candados: map<nat, Tarea>,
    fases: map<Tarea, Fase>)

  const INICIAL := Red(None, 0, map[], map[], map[])

  function Local(w: Red, n: nat): Option<Token> { if n in w.locales then Some(w.locales[n]) else None }
  function FaseDe(w: Red, a: Tarea): Fase { if a in w.fases then w.fases[a] else Libre }
  predicate ConCandado(f: Fase) { f.Invalidando? || f.Olvidando? || f.Obteniendo? || f.Leyendo? || f.PorGuardar? }

  // ---------------------------------------------------------------- steps

  datatype Paso =
    | UsaLocal          // fast path: the local copy is valid, no lock taken
    | PideCandado
    | TomaCandado
    | Invalida          // compare-and-delete of the shared record
    | Olvida            // drop the local copy if it is still the rejected one
    | Lee               // GET of the shared record
    | Carga             // the reply reaches the node
    | Devuelve          // the local copy is valid: use it
    | EmiteCoordinado   // login or refresh under the distributed lock
    | EmiteDirecto      // login or refresh whose result is not shared, an unreadable one included
    | EmiteVacio        // an unreadable answer without a token has overwritten the local copy
    | Guarda            // SET of the shared record with the local copy
    | Abandona          // an exception ends the recovery
    | Rechaza401
    | Responde
    | VenceRegistro     // the shared record's time to live runs out

  function Pon(w: Red, a: Tarea, f: Fase): Red { w.(fases := w.fases[a := f]) }

  function Suelta(w: Red, n: nat): Red { w.(candados := map m | m in w.candados && m != n :: w.candados[m]) }

  function Fija(w: Red, n: nat, t: Option<Token>): Red {
    w.(locales := if t.Some? then w.locales[n := t.value] else map m | m in w.locales && m != n :: w.locales[m])
  }

  predicate Puede(w: Red, a: Tarea, p: Paso) {
    var f := FaseDe(w, a);
    match p
    case UsaLocal => f.Libre? && Local(w, a.nodo).Some?
    case PideCandado => f.Libre?
    case TomaCandado => f.EsperaCandado? && a.nodo !in w.candados
    case Invalida => f.Invalidando?
    case Olvida => f.Olvidando?
    case Lee => f.Obteniendo?
    case Carga => f.Leyendo?
    case Devuelve => f.Obteniendo? && Local(w, a.nodo).Some?
    case EmiteCoordinado => f.Obteniendo?
    case EmiteDirecto => f.Obteniendo?
    case EmiteVacio => f.Obteniendo?
    case Guarda => f.PorGuardar?
    case Abandona => f.Obteniendo?
    case Rechaza401 => f.Enviando? && f.m.Primera?
    case Responde => f.Enviando?
    case VenceRegistro => true
  }

  function Tras(w: Red, a: Tarea, p: Paso): Red
    requires Puede(w, a, p)
  {
    var f, n := FaseDe(w, a), a.nodo;
    match p
    case UsaLocal => Pon(w, a, Enviando(Primera, w.locales[n]))
    case PideCandado => Pon(w, a, EsperaCandado(Primera))
    case TomaCandado =>
      Pon(w.(candados := w.candados[n := a]), a,
          if f.m.Primera? then Obteniendo(Primera) else Invalidando(f.m.rechazado))
    case Invalida => Pon(w.(compartido := if w.compartido == Some(f.r) then None else w.compartido), a, Olvidando(f.r))
    case Olvida => Pon(if Local(w, n) == Some(f.r) then Fija(w, n, None) else w, a, Obteniendo(TrasRechazo(f.r)))
    case Lee => Pon(w, a, Leyendo(f.m, w.compartido))
    case Carga => Pon(if f.leido.Some? then Fija(w, n, f.leido) else w, a, Obteniendo(f.m))
    case Devuelve => Pon(Suelta(w, n), a, Enviando(f.m, w.locales[n]))
    case EmiteCoordinado =>
      Pon(Fija(w.(emitidos := w.emitidos + 1), n, Some(w.emitidos)), a, PorGuardar(f.m, w.emitidos))
    case EmiteDirecto => Pon(Fija(w.(emitidos := w.emitidos + 1), n, Some(w.emitidos)), a, Obteniendo(f.m))
    case EmiteVacio => Fija(w, n, None)
    case Guarda => Pon(Suelta(w.(compartido := Local(w, n)), n), a,
                       if Local(w, n).Some? then Enviando(f.m, w.locales[n]) else Libre)
    case Abandona => Pon(Suelta(w, n), a, Libre)
    case Rechaza401 => Pon(w, a, EsperaCandado(TrasRechazo(f.t)))
    case Responde => Pon(w, a, Libre)
    case VenceRegistro => w.(compartido := None)
  }

  // ---------------------------------------------------------------- invariant

  /** The token a phase holds that another phase could compare or store. */
  predicate Conoce(f: Fase, t: Token) {
    match f
    case EsperaCandado(m) => m == TrasRechazo(t)
    case Invalidando(r) => r == t
    case Olvidando(r) => r == t
    case Obteniendo(m) => m == TrasRechazo(t)
    case Leyendo(m, leido) => m == TrasRechazo(t) || leido == Some(t)
    case PorGuardar(m, u) => m == TrasRechazo(t) || u == t
    case Enviando(m, u) => m == TrasRechazo(t) || u == t
    case Libre => false
  }

  predicate PendienteDeGuardar(w: Red, a: Tarea, t: Token) {
    FaseDe(w, a).PorGuardar? && FaseDe(w, a).t == t
  }

  /** Neither shared nor about to be shared; once so, a token stays so. */
  ghost predicate Muerto(w: Red, t: Token) {
    t < w.emitidos && w.compartido != Some(t) && forall a :: !PendienteDeGuardar(w, a, t)
  }

  /** Whatever anybody knows was issued, and the lock's holder is the one inside the locked region. */
  ghost predicate TareaOk(w: Red, a: Tarea) {
    && (forall t: Token :: Conoce(FaseDe(w, a), t) ==> t < w.emitidos)
    && (ConCandado(FaseDe(w, a)) <==> a.nodo in w.candados && w.candados[a.nodo] == a)
  }

  /** A token still to be saved is known to its own node only, and there only outside the locked region. */
  ghost predicate Privado(w: Red, a: Tarea) {
    FaseDe(w, a).PorGuardar? ==>
      var t := FaseDe(w, a).t;
      && Local(w, a.nodo) == Some(t) && w.compartido != Some(t) && FaseDe(w, a).m != TrasRechazo(t)
      && (forall n: nat :: n in w.locales && n != a.nodo ==> w.locales[n] != t)
      && (forall b: Tarea :: b.nodo != a.nodo ==> !Conoce(FaseDe(w, b), t))
  }

  /** From the invalidation on, the rejected token is dead; from the drop on, the node does not hold it either. */
  ghost predicate Recupera(w: Red, a: Tarea) {
    match FaseDe(w, a)
    case Olvidando(r) => Muerto(w, r)
    case Obteniendo(m) => m.TrasRechazo? ==> Muerto(w, m.rechazado) && Local(w, a.nodo) != Some(m.rechazado)
    case Leyendo(m, leido) =>
      m.TrasRechazo? ==> Muerto(w, m.rechazado) && Local(w, a.nodo) != Some(m.rechazado) && leido != Some(m.rechazado)
    case PorGuardar(m, t) => m.TrasRechazo? ==> Muerto(w, m.rechazado) && m.rechazado != t
    case Enviando(m, t) => m.TrasRechazo? ==> Muerto(w, m.rechazado) && m.rechazado != t
    case _ => true
  }

  ghost predicate Inv(w: Red) {
    && (forall a :: TareaOk(w, a) && Privado(w, a) && Recupera(w, a))
    && (forall n: nat :: n in w.locales ==> w.locales[n] < w.emitidos)
    && (w.compartido.Some? ==> w.compartido.value < w.emitidos)
  }

  // ---------------------------------------------------------------- every step keeps it

  lemma MuertoPorSiempre(w: Red, a: Tarea, p: Paso, t: Token)
    requires Inv(w) && Puede(w, a, p) && Muerto(w, t)
    ensures Muerto(Tras(w, a, p), t)
  {
    var w' := Tras(w, a, p);
    assert Privado(w, a) && !PendienteDeGuardar(w, a, t);
    forall b ensures !PendienteDeGuardar(w', b, t) { assert !PendienteDeGuardar(w, b, t); }
  }

  lemma TareaOkPaso(w: Red, a: Tarea, p: Paso, b: Tarea)
    requires Inv(w) && Puede(w, a, p)
    ensures TareaOk(Tras(w, a, p), b)
  {
    assert TareaOk(w, a) && TareaOk(w, b) && Privado(w, a);
    var w' := Tras(w, a, p);
    forall t: Token | Conoce(FaseDe(w', b), t) ensures t < w'.emitidos {
      assert Conoce(FaseDe(w, b), t) ==> t < w.emitidos;
    }
  }

  /** Another task keeps its phase, and its node's copy changes only while the stepping one holds that node's lock. */
  lemma OtraTarea(w: Red, a: Tarea, p: Paso, b: Tarea)
    requires Puede(w, a, p) && a != b
    ensures FaseDe(Tras(w, a, p), b) == FaseDe(w, b)
    ensures Local(Tras(w, a, p), b.nodo) == Local(w, b.nodo) || (a.nodo == b.nodo && ConCandado(FaseDe(w, a)))
  {
  }

  /** Where the shared record can come from: it stays, goes, or is the stepping node's own copy. */
  lemma CompartidoPaso(w: Red, a: Tarea, p: Paso)
    requires Puede(w, a, p)
    ensures var s := Tras(w, a, p).compartido;
            s == w.compartido || s.None? || (FaseDe(w, a).PorGuardar? && s == Local(w, a.nodo))
  {
  }

  /** A phase learns a token only from the node's copy, the shared record or a fresh issue. */
  lemma ConocePaso(w: Red, a: Tarea, p: Paso, t: Token)
    requires Puede(w, a, p) && Conoce(FaseDe(Tras(w, a, p), a), t)
    ensures Conoce(FaseDe(w, a), t) || Local(w, a.nodo) == Some(t) || w.compartido == Some(t)
            || (t == w.emitidos && p.EmiteCoordinado?)
  {
  }

  /** A node's copy comes from itself, from what its task read, or from a fresh issue. */
  lemma LocalPaso(w: Red, a: Tarea, p: Paso, n: nat, t: Token)
    requires Puede(w, a, p) && Local(Tras(w, a, p), n) == Some(t)
    ensures Local(w, n) == Some(t) || (n == a.nodo && (Conoce(FaseDe(w, a), t) || t == w.emitidos))
  {
  }

  lemma PrivadoPropia(w: Red, a: Tarea, p: Paso)
    requires Inv(w) && Puede(w, a, p)
    ensures Privado(Tras(w, a, p), a)
  {
    assert TareaOk(w, a) && Privado(w, a);
    var w' := Tras(w, a, p);
    if p.EmiteCoordinado? {
      forall d: Tarea | d.nodo != a.nodo ensures !Conoce(FaseDe(w', d), w.emitidos) {
        assert TareaOk(w, d);
        OtraTarea(w, a, p, d);
      }
    }
  }

  lemma PrivadoOtra(w: Red, a: Tarea, p: Paso, b: Tarea)
    requires Inv(w) && Puede(w, a, p) && a != b
    ensures Privado(Tras(w, a, p), b)
  {
    var w' := Tras(w, a, p);
    assert TareaOk(w, a) && TareaOk(w, b) && Privado(w, a) && Privado(w, b);
    OtraTarea(w, a, p, b);
    if FaseDe(w, b).PorGuardar? {
      var t := FaseDe(w, b).t;
      assert Conoce(FaseDe(w, b), t) && t < w.emitidos;
      CompartidoPaso(w, a, p);
      forall n: nat | n in w'.locales && n != b.nodo ensures w'.locales[n] != t {
        if w'.locales[n] == t { LocalPaso(w, a, p, n, t); }
      }
      forall d: Tarea | d.nodo != b.nodo ensures !Conoce(FaseDe(w', d), t) {
        NoAprende(w, a, p, b, d, t);
      }
    }
  }

  lemma NoAprende(w: Red, a: Tarea, p: Paso, b: Tarea, d: Tarea, t: Token)
    requires Puede(w, a, p) && a != b && d.nodo != b.nodo && Privado(w, b) && FaseDe(w, b).PorGuardar?
    requires t == FaseDe(w, b).t && t < w.emitidos
    ensures !Conoce(FaseDe(Tras(w, a, p), d), t)
  {
    assert !Conoce(FaseDe(w, d), t);
    if d != a {
      OtraTarea(w, a, p, d);
    } else if Conoce(FaseDe(Tras(w, a, p), a), t) {
      ConocePaso(w, a, p, t);
    }
  }

  /** The token the phase of a retry has left behind. */
  function DejadoAtras(f: Fase): Option<Token> {
    match f
    case Olvidando(r) => Some(r)
    case Obteniendo(m) => if m.TrasRechazo? then Some(m.rechazado) else None
    case Leyendo(m, _) => if m.TrasRechazo? then Some(m.rechazado) else None
    case PorGuardar(m, _) => if m.TrasRechazo? then Some(m.rechazado) else None
    case Enviando(m, _) => if m.TrasRechazo? then Some(m.rechazado) else None
    case _ => None
  }

  /** A step of its own. */
  lemma RecuperaPropia(w: Red, a: Tarea, p: Paso)
    requires Inv(w) && Puede(w, a, p)
    ensures Recupera(Tras(w, a, p), a)
  {
    assert TareaOk(w, a) && Recupera(w, a) && Privado(w, a);
    if p.Invalida? {
      InvalidarMata(w, a);
    } else if DejadoAtras(FaseDe(w, a)).Some? {
      var r := DejadoAtras(FaseDe(w, a)).value;
      assert Conoce(FaseDe(w, a), r);
      MuertoPorSiempre(w, a, p, r);
    }
  }

  /** A step of another task, of this node or of another one. */
  lemma RecuperaOtra(w: Red, a: Tarea, p: Paso, b: Tarea)
    requires Inv(w) && Puede(w, a, p) && a != b
    ensures Recupera(Tras(w, a, p), b)
  {
    assert TareaOk(w, a) && TareaOk(w, b) && Recupera(w, b);
    OtraTarea(w, a, p, b);
    if DejadoAtras(FaseDe(w, b)).Some? {
      MuertoPorSiempre(w, a, p, DejadoAtras(FaseDe(w, b)).value);
    }
  }

  /** After the compare-and-delete nobody can bring the rejected token back. */
  lemma InvalidarMata(w: Red, a: Tarea)
    requires Inv(w) && Puede(w, a, Invalida)
    ensures Muerto(Tras(w, a, Invalida), FaseDe(w, a).r)
  {
    var r := FaseDe(w, a).r;
    var w' := Tras(w, a, Invalida);
    assert TareaOk(w, a) && Conoce(FaseDe(w, a), r);
    forall b ensures !PendienteDeGuardar(w', b, r) {
      assert TareaOk(w, b) && Privado(w, b);
    }
  }

  lemma PasoConserva(w: Red, a: Tarea, p: Paso)
    requires Inv(w) && Puede(w, a, p)
    ensures Inv(Tras(w, a, p))
  {
    var w' := Tras(w, a, p);
    assert TareaOk(w, a) && Privado(w, a);
    var f := FaseDe(w, a);
    assert f.Leyendo? && f.leido.Some? ==> Conoce(f, f.leido.value);
    forall b ensures TareaOk(w', b) && Privado(w', b) && Recupera(w', b) {
      TareaOkPaso(w, a, p, b);
      if a == b {
        PrivadoPropia(w, a, p);
        RecuperaPropia(w, a, p);
      } else {
        PrivadoOtra(w, a, p, b);
        RecuperaOtra(w, a, p, b);
      }
    }
  }

  // ---------------------------------------------------------------- one recovery on its own

  /** It takes these steps one after another, nobody else moving. */
  ghost predicate Hace(w: Red, a: Tarea, ps: seq<Paso>, w': Red)
    decreases ps
  {
    if ps == [] then w' == w else Puede(w, a, ps[0]) && Hace(Tras(w, a, ps[0]), a, ps[1..], w')
  }

  lemma UnoMas(w: Red, a: Tarea, p: Paso, ps: seq<Paso>, w': Red)
    requires Puede(w, a, p) && Hace(Tras(w, a, p), a, ps, w')
    ensures Hace(w, a, [p] + ps, w')
  {
    assert ([p] + ps)[1..] == ps;
  }

  /** The shared record once the rejected token is out of it. */
  function SinRechazado(w: Red, r: Token): Option<Token> { if w.compartido == Some(r) then None else w.compartido }

  /** The request sends `t` again, its node keeps it, the lock is back, and nobody else's phase or copy changed. */
  ghost predicate Reintenta(w: Red, w': Red, a: Tarea, r: Token, t: Token) {
    && FaseDe(w', a) == Enviando(TrasRechazo(r), t) && Local(w', a.nodo) == Some(t) && a.nodo !in w'.candados
    && (forall b :: b != a ==> FaseDe(w', b) == FaseDe(w, b))
    && (forall n: nat :: n != a.nodo ==> Local(w', n) == Local(w, n))
  }

  lemma EmpiezaSola(w: Red, a: Tarea, r: Token, ps: seq<Paso>, w': Red)
    requires FaseDe(w, a) == EsperaCandado(TrasRechazo(r)) && a.nodo !in w.candados
    requires Hace(TrasOlvidar(w, a, r), a, ps, w')
    ensures Hace(w, a, [TomaCandado, Invalida, Olvida] + ps, w')
  {
    var w1 := Tras(w, a, TomaCandado);
    var w2 := Tras(w1, a, Invalida);
    UnoMas(w2, a, Olvida, ps, w');
    UnoMas(w1, a, Invalida, [Olvida] + ps, w');
    UnoMas(w, a, TomaCandado, [Invalida] + ([Olvida] + ps), w');
    assert [TomaCandado] + ([Invalida] + ([Olvida] + ps)) == [TomaCandado, Invalida, Olvida] + ps;
  }

  function TrasOlvidar(w: Red, a: Tarea, r: Token): Red
    requires FaseDe(w, a) == EsperaCandado(TrasRechazo(r)) && a.nodo !in w.candados
  {
    Tras(Tras(Tras(w, a, TomaCandado), a, Invalida), a, Olvida)
  }

  lemma OlvidarDeja(w: Red, a: Tarea, r: Token)
    requires FaseDe(w, a) == EsperaCandado(TrasRechazo(r)) && a.nodo !in w.candados
    ensures var x := TrasOlvidar(w, a, r);
            && FaseDe(x, a) == Obteniendo(TrasRechazo(r)) && x.compartido == SinRechazado(w, r)
            && x.emitidos == w.emitidos && x.candados == w.candados[a.nodo := a]
            && Local(x, a.nodo) == (if Local(w, a.nodo) == Some(r) then None else Local(w, a.nodo))
            && (forall b :: b != a ==> FaseDe(x, b) == FaseDe(w, b))
            && (forall n: nat :: n != a.nodo ==> Local(x, n) == Local(w, n))
  {
  }

  /** Another request of the node had renewed already: its token is used, and nothing issued or shared. */
  lemma RecuperaConLaPropia(w: Red, a: Tarea, r: Token) returns (w': Red)
    requires FaseDe(w, a) == EsperaCandado(TrasRechazo(r)) && a.nodo !in w.candados
    requires Local(w, a.nodo).Some? && Local(w, a.nodo) != Some(r)
    ensures Hace(w, a, [TomaCandado, Invalida, Olvida, Devuelve], w')
    ensures Reintenta(w, w', a, r, Local(w, a.nodo).value)
    ensures w'.compartido == SinRechazado(w, r) && w'.emitidos == w.emitidos
  {
    var x := TrasOlvidar(w, a, r);
    OlvidarDeja(w, a, r);
    w' := Tras(x, a, Devuelve);
    assert Hace(w', a, [], w');
    UnoMas(x, a, Devuelve, [], w');
    EmpiezaSola(w, a, r, [Devuelve], w');
  }

  lemma CargaYDevuelve(x: Red, a: Tarea, m: Motivo) returns (w': Red)
    requires FaseDe(x, a) == Obteniendo(m) && x.compartido.Some?
    ensures Hace(x, a, [Lee, Carga, Devuelve], w')
    ensures FaseDe(w', a) == Enviando(m, x.compartido.value) && Local(w', a.nodo) == x.compartido
    ensures a.nodo !in w'.candados && w'.compartido == x.compartido && w'.emitidos == x.emitidos
    ensures forall b :: b != a ==> FaseDe(w', b) == FaseDe(x, b)
    ensures forall n: nat :: n != a.nodo ==> Local(w', n) == Local(x, n)
  {
    var x1 := Tras(x, a, Lee);
    var x2 := Tras(x1, a, Carga);
    w' := Tras(x2, a, Devuelve);
    assert Hace(w', a, [], w');
    UnoMas(x2, a, Devuelve, [], w');
    UnoMas(x1, a, Carga, [Devuelve], w');
    UnoMas(x, a, Lee, [Carga] + [Devuelve], w');
    assert [Lee] + ([Carga] + [Devuelve]) == [Lee, Carga, Devuelve];
  }

  /** Another node had shared a newer token: it is loaded and used, and nothing issued. */
  lemma RecuperaConLaCompartida(w: Red, a: Tarea, r: Token) returns (w': Red)
    requires FaseDe(w, a) == EsperaCandado(TrasRechazo(r)) && a.nodo !in w.candados && SinRechazado(w, r).Some?
    ensures Hace(w, a, [TomaCandado, Invalida, Olvida, Lee, Carga, Devuelve], w')
    ensures Reintenta(w, w', a, r, SinRechazado(w, r).value)
    ensures w'.compartido == SinRechazado(w, r) && w'.emitidos == w.emitidos
  {
    OlvidarDeja(w, a, r);
    w' := CargaYDevuelve(TrasOlvidar(w, a, r), a, TrasRechazo(r));
    EmpiezaSola(w, a, r, [Lee, Carga, Devuelve], w');
    assert [TomaCandado, Invalida, Olvida] + [Lee, Carga, Devuelve]
        == [TomaCandado, Invalida, Olvida, Lee, Carga, Devuelve];
  }

  /** Nobody has a token: one is issued under the distributed lock, shared, and used. */
  lemma RecuperaEmitiendo(w: Red, a: Tarea, r: Token) returns (w': Red)
    requires FaseDe(w, a) == EsperaCandado(TrasRechazo(r)) && a.nodo !in w.candados
    ensures Hace(w, a, [TomaCandado, Invalida, Olvida, EmiteCoordinado, Guarda], w')
    ensures Reintenta(w, w', a, r, w.emitidos)
    ensures w'.compartido == Some(w.emitidos) && w'.emitidos == w.emitidos + 1
  {
    var x := TrasOlvidar(w, a, r);
    OlvidarDeja(w, a, r);
    var x1 := Tras(x, a, EmiteCoordinado);
    w' := Tras(x1, a, Guarda);
    assert Hace(w', a, [], w');
    UnoMas(x1, a, Guarda, [], w');
    UnoMas(x, a, EmiteCoordinado, [Guarda], w');
    EmpiezaSola(w, a, r, [EmiteCoordinado] + [Guarda], w');
    assert [TomaCandado, Invalida, Olvida] + ([EmiteCoordinado] + [Guarda])
        == [TomaCandado, Invalida, Olvida, EmiteCoordinado, Guarda];
  }

  // ---------------------------------------------------------------- runs

  datatype Corrida = Corrida(estados: seq<Red>, pasos: seq<(Tarea, Paso)>)

  ghost predicate EsCorrida(r: Corrida) {
    && |r.estados| == |r.pasos| + 1 && r.estados[0] == INICIAL
    && forall i {:trigger r.pasos[i]} :: 0 <= i < |r.pasos| ==>
         Puede(r.estados[i], r.pasos[i].0, r.pasos[i].1)
         && r.estados[i + 1] == Tras(r.estados[i], r.pasos[i].0, r.pasos[i].1)
  }

  lemma {:induction false} CorridaConserva(r: Corrida, i: nat)
    requires EsCorrida(r) && i < |r.estados|
    ensures Inv(r.estados[i])
  {
    if i == 0 {
      assert forall a :: FaseDe(INICIAL, a) == Libre;
    } else {
      CorridaConserva(r, i - 1);
      var p := r.pasos[i - 1];
      PasoConserva(r.estados[i - 1], p.0, p.1);
    }
  }

  /** Whatever the nodes do in between, the retry after a 401 never carries the rejected token. */
  lemma ReintentoConOtroToken(r: Corrida, i: nat, a: Tarea)
    requires EsCorrida(r) && i < |r.estados|
    ensures var f := FaseDe(r.estados[i], a); f.Enviando? && f.m.TrasRechazo? ==> f.t != f.m.rechazado
  {
    CorridaConserva(r, i);
    assert Recupera(r.estados[i], a);
  }

  /** The request is on its way from the rejection of `t` to its retry. */
  predicate Recuerda(f: Fase, t: Token) {
    match f
    case Libre => false
    case EsperaCandado(m) => m == TrasRechazo(t)
    case Invalidando(r) => r == t
    case Olvidando(r) => r == t
    case Obteniendo(m) => m == TrasRechazo(t)
    case Leyendo(m, _) => m == TrasRechazo(t)
    case PorGuardar(m, _) => m == TrasRechazo(t)
    case Enviando(m, _) => m == TrasRechazo(t)
  }

  lemma RecuerdaPaso(w: Red, b: Tarea, p: Paso, a: Tarea, t: Token)
    requires Puede(w, b, p) && Recuerda(FaseDe(w, a), t)
    ensures Recuerda(FaseDe(Tras(w, b, p), a), t) || FaseDe(Tras(w, b, p), a).Libre?
  {
    if a != b {
      OtraTarea(w, b, p, a);
    }
  }

  /**
   * From the 401 to the end of the request: whatever all the nodes do in between, if it sends again it sends another
   * token than the one it had sent.
   */
  lemma {:induction false} ReenvioTrasRechazo(r: Corrida, i: nat, j: nat, a: Tarea, t: Token)
    requires EsCorrida(r) && i < j < |r.estados| && r.pasos[i] == (a, Rechaza401)
    requires FaseDe(r.estados[i], a) == Enviando(Primera, t)
    requires forall m :: i < m <= j ==> !FaseDe(r.estados[m], a).Libre?
    ensures Recuerda(FaseDe(r.estados[j], a), t)
    ensures FaseDe(r.estados[j], a).Enviando? ==> FaseDe(r.estados[j], a).t != t
    decreases j
  {
    if j > i + 1 {
      ReenvioTrasRechazo(r, i, j - 1, a, t);
      RecuerdaPaso(r.estados[j - 1], r.pasos[j - 1].0, r.pasos[j - 1].1, a, t);
    }
    ReintentoConOtroToken(r, j, a);
  }

  /** A rejected token that went through invalidation is never in the shared record again. */
  lemma {:induction false} RechazadoNoVuelve(r: Corrida, i: nat, j: nat, t: Token)
    requires EsCorrida(r) && i < j < |r.estados|
    requires r.pasos[i].1.Invalida? && FaseDe(r.estados[i], r.pasos[i].0).r == t
    ensures Muerto(r.estados[j], t) && r.estados[j].compartido != Some(t)
    decreases j
  {
    CorridaConserva(r, j - 1);
    var p := r.pasos[j - 1];
    if j == i + 1 {
      InvalidarMata(r.estados[i], p.0);
    } else {
      RechazadoNoVuelve(r, i, j - 1, t);
      MuertoPorSiempre(r.estados[j - 1], p.0, p.1, t);
    }
  }

  /**
   * A shared token goes only because its time to live ran out, because it is the very one that was rejected, or
   * because a node saves another token it has just issued: invalidation never deletes a newer shared token.
   */
  lemma SoloCaeElRechazado(r: Corrida, i: nat, t: Token)
    requires EsCorrida(r) && i < |r.pasos|
    requires r.estados[i].compartido == Some(t) && r.estados[i + 1].compartido != Some(t)
    ensures var (a, p) := r.pasos[i];
            || p.VenceRegistro?
            || (p.Invalida? && FaseDe(r.estados[i], a) == Invalidando(t))
            || (p.Guarda? && PendienteDeGuardar(r.estados[i], a, FaseDe(r.estados[i], a).t)
                && r.estados[i + 1].compartido == Some(FaseDe(r.estados[i], a).t))
  {
    CorridaConserva(r, i);
    var p := r.pasos[i];
    assert Privado(r.estados[i], p.0);
  }
}
