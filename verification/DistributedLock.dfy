/**
 * The lease lock on one Redis key: acquire only if free, renew and release only as its owner.
 *
 * The key is a value with an expiry; a trace of timed calls from any number of owners acts on it. `RedisLock` is the
 * object a holder keeps, proved against the same functions.
 */
module DistributedLock {
  import opened Comun

  /** uuid4 of one RedisLock object. */
  type Token = nat

  datatype Cerrojo = Cerrojo(dueno: Option<Token>, vence: Instante)

  const LIBRE := Cerrojo(None, 0)

  function DuenoVivo(c: Cerrojo, t: Instante): Option<Token> { if t < c.vence then c.dueno else None }

  /** SET NX EX. */
  function Adquirir(c: Cerrojo, q: Token, t: Instante, lease: nat): (Cerrojo, bool) {
    if DuenoVivo(c, t).None? then (Cerrojo(Some(q), t + lease), true) else (c, false)
  }

  /** EXTEND_LOCK. */
  function Renovar(c: Cerrojo, q: Token, t: Instante, lease: nat): (Cerrojo, bool) {
    if DuenoVivo(c, t) == Some(q) then (c.(vence := t + lease), true) else (c, false)
  }

  /** RELEASE_LOCK. */
  function Soltar(c: Cerrojo, q: Token, t: Instante): (Cerrojo, bool) {
    if DuenoVivo(c, t) == Some(q) then (LIBRE, true) else (c, false)
  }

  // ---------------------------------------------------------------- the holder's object

  class ClaveRedis {
    var c: Cerrojo

    constructor ()
      ensures c == LIBRE
    {
      c := LIBRE;
    }
  }

  /** Whether Redis answers the call. */
  datatype Red = SinCliente | Responde | Falla

  class RedisLock {
    const clave: ClaveRedis
    const dueno: Token
    const lease: nat
    var acquired: bool
    var redisError: bool

    constructor (clave: ClaveRedis, dueno: Token, lease: nat)
      ensures this.clave == clave && this.dueno == dueno && this.lease == lease && !acquired && !redisError
    {
      this.clave, this.dueno, this.lease := clave, dueno, lease;
      acquired, redisError := false, false;
    }

    /** `False` with `redis_error` off means busy; with it on, nobody could be asked. */
    method Acquire(red: Red, t: Instante) returns (ok: bool)
      modifies this, clave
      ensures clave.c == if red.Responde? then Adquirir(old(clave.c), dueno, t, lease).0 else old(clave.c)
      ensures ok <==> red.Responde? && DuenoVivo(old(clave.c), t).None?
      ensures redisError <==> !red.Responde?
      ensures acquired == if red.Responde? then ok else old(acquired)
    {
      redisError := false;
      match red {
        case SinCliente =>
          redisError := true;
          return false;
        case Falla =>
          redisError := true;
          return false;
        case Responde =>
          var r := Adquirir(clave.c, dueno, t, lease);
          clave.c := r.0;
          acquired := r.1;
          return acquired;
      }
    }

    /** One beat: `acquired` goes off only when Redis confirms the loss, never on a transient failure. */
    method Latido(red: Red, t: Instante)
      modifies this`acquired, clave
      ensures clave.c == if old(acquired) && red.Responde? then Renovar(old(clave.c), dueno, t, lease).0
                         else old(clave.c)
      ensures acquired <==> old(acquired) && (red.Responde? ==> DuenoVivo(old(clave.c), t) == Some(dueno))
    {
      if !acquired {
        return;
      }
      if red.Responde? {
        var r := Renovar(clave.c, dueno, t, lease);
        clave.c := r.0;
        if !r.1 {
          acquired := false;
        }
      }
    }

    /** Release is a no-op for whoever does not hold the lock any more. */
    method Release(red: Red, t: Instante)
      modifies this`acquired, clave
      ensures !acquired
      ensures clave.c == if old(acquired) && red.Responde? then Soltar(old(clave.c), dueno, t).0 else old(clave.c)
    {
      if !acquired {
        return;
      }
      acquired := false;
      if red.Responde? {
        clave.c := Soltar(clave.c, dueno, t).0;
      }
    }
  }

  // ---------------------------------------------------------------- traces of calls

  datatype Op = Adquiere | Renueva | Suelta
  datatype Llamada = Llamada(t: Instante, quien: Token, op: Op)

  function Tras(c: Cerrojo, e: Llamada, lease: nat): (Cerrojo, bool) {
    match e.op
    case Adquiere => Adquirir(c, e.quien, e.t, lease)
    case Renueva => Renovar(c, e.quien, e.t, lease)
    case Suelta => Soltar(c, e.quien, e.t)
  }

  function Estado(es: seq<Llamada>, lease: nat): Cerrojo {
    if es == [] then LIBRE else Tras(Estado(es[..|es| - 1], lease), es[|es| - 1], lease).0
  }

  /** The reply of the `j`-th call. */
  function Respuesta(es: seq<Llamada>, j: nat, lease: nat): bool
    requires j < |es|
  {
    Tras(Estado(es[..j], lease), es[j], lease).1
  }

  predicate EnOrden(es: seq<Llamada>) { forall i, j :: 0 <= i < j < |es| ==> es[i].t <= es[j].t }

  /** `quien` renewed (or acquired) at some call before `j`, not yet a whole lease ago. */
  predicate Fresco(es: seq<Llamada>, quien: Token, desde: nat, j: nat, lease: nat)
    requires j < |es|
  {
    exists k :: desde <= k < j && es[k].quien == quien && !es[k].op.Suelta? && es[j].t < es[k].t + lease
  }

  /** From its acquisition at call `desde` up to call `j`, `quien` does not release and keeps renewing in time. */
  predicate Renovado(es: seq<Llamada>, quien: Token, desde: nat, hasta: nat, lease: nat)
    requires desde <= hasta < |es|
  {
    && es[desde].quien == quien && es[desde].op.Adquiere? && Respuesta(es, desde, lease)
    && (forall j :: desde < j <= hasta ==> Fresco(es, quien, desde, j, lease))
    && (forall j :: desde < j < hasta ==> !(es[j].quien == quien && es[j].op.Suelta?))
  }

  /** A stale owner's call, whatever it is, never touches a lock that somebody else holds. */
  lemma AjenoIntacto(c: Cerrojo, e: Llamada, lease: nat)
    requires DuenoVivo(c, e.t).Some? && DuenoVivo(c, e.t) != Some(e.quien)
    ensures Tras(c, e, lease) == (c, false)
  {
  }

  /**
   * What a call gets, told of who owns the key at that moment: an acquisition is granted exactly when nobody does, a
   * renewal or a release exactly to the owner, so a lease that ran out is never revived; a refused call changes
   * nothing, and a granted one leaves the key to its caller for one lease, or to nobody.
   */
  lemma LlamadaSii(c: Cerrojo, e: Llamada, lease: nat, despues: Instante)
    requires e.t <= despues
    ensures var (c', ok) := Tras(c, e, lease);
            && (ok <==> DuenoVivo(c, e.t) == (if e.op.Adquiere? then None else Some(e.quien)))
            && (!ok ==> c' == c)
            && (ok ==> DuenoVivo(c', despues) == if !e.op.Suelta? && despues < e.t + lease then Some(e.quien) else None)
  {
  }

  lemma Prefijo(es: seq<Llamada>, j: nat, lease: nat)
    requires j < |es|
    ensures Estado(es[..j + 1], lease) == Tras(Estado(es[..j], lease), es[j], lease).0
  {
    assert es[..j + 1][..j] == es[..j];
  }

  /** After call `j` the holder owns the key until a lease after every renewal it made so far. */
  predicate Cubre(es: seq<Llamada>, quien: Token, desde: nat, j: nat, lease: nat)
    requires j < |es|
  {
    var c := Estado(es[..j + 1], lease);
    && c.dueno == Some(quien)
    && forall k :: desde <= k <= j && es[k].quien == quien && !es[k].op.Suelta? ==> es[k].t + lease <= c.vence
  }

  /** One more call, by anybody, that is not the holder's own release. */
  lemma {:induction false} SigueCubierto(es: seq<Llamada>, quien: Token, desde: nat, j: nat, lease: nat)
    requires EnOrden(es) && desde < j < |es| && Renovado(es, quien, desde, j, lease)
    requires Cubre(es, quien, desde, j - 1, lease)
    ensures DuenoVivo(Estado(es[..j], lease), es[j].t) == Some(quien)
    ensures !(es[j].quien == quien && es[j].op != Renueva) ==> Cubre(es, quien, desde, j, lease)
  {
    Prefijo(es, j, lease);
    assert Fresco(es, quien, desde, j, lease);
    var k :| desde <= k < j && es[k].quien == quien && !es[k].op.Suelta? && es[j].t < es[k].t + lease;
    assert es[k].t + lease <= Estado(es[..j], lease).vence;
  }

  /**
   * A holder that renews in time keeps its exclusivity: at every later call, in any interleaving with any number of
   * owners, the key is its own, so no other acquisition is granted and no other renewal or release takes effect.
   */
  lemma {:induction false} ExclusivoMientrasRenueva(es: seq<Llamada>, quien: Token, desde: nat, j: nat, lease: nat)
    requires EnOrden(es) && desde < j < |es| && Renovado(es, quien, desde, j, lease)
    requires forall i :: desde < i < j && es[i].quien == quien ==> es[i].op == Renueva
    ensures DuenoVivo(Estado(es[..j], lease), es[j].t) == Some(quien)
    ensures es[j].quien != quien ==> !Respuesta(es, j, lease) && Estado(es[..j + 1], lease) == Estado(es[..j], lease)
    decreases j
  {
    CubreHasta(es, quien, desde, j - 1, j, lease);
    SigueCubierto(es, quien, desde, j, lease);
    Prefijo(es, j, lease);
    if es[j].quien != quien {
      AjenoIntacto(Estado(es[..j], lease), es[j], lease);
    }
  }

  lemma {:induction false} CubreHasta(es: seq<Llamada>, quien: Token, desde: nat, j: nat, hasta: nat, lease: nat)
    requires EnOrden(es) && desde <= j < hasta < |es| && Renovado(es, quien, desde, hasta, lease)
    requires forall i :: desde < i < hasta && es[i].quien == quien ==> es[i].op == Renueva
    ensures Cubre(es, quien, desde, j, lease)
    decreases j
  {
    Prefijo(es, j, lease);
    if j > desde {
      CubreHasta(es, quien, desde, j - 1, hasta, lease);
      assert Renovado(es, quien, desde, j, lease);
      SigueCubierto(es, quien, desde, j, lease);
    }
  }

  // ---------------------------------------------------------------- heartbeats that may go unanswered

  /** The `k`-th beat, `k * h` after the acquisition, got through; the acquisition counts as beat 0. */
  predicate Late(es: seq<Llamada>, quien: Token, desde: nat, h: nat, k: nat)
    requires desde < |es|
  {
    k == 0 || exists x :: desde < x < |es| && es[x] == Llamada(es[desde].t + h * k, quien, Renueva)
  }

  /** Among beat `i` and the `m` before it some one got through. */
  ghost predicate LatioHacePoco(es: seq<Llamada>, quien: Token, desde: nat, h: nat, m: nat, i: nat)
    requires desde < |es|
  {
    exists k: nat :: k <= i <= k + m && Late(es, quien, desde, h, k)
  }

  /** Of the beats due before `hasta`, at most `m` in a row got no answer. */
  ghost predicate PocosFallos(es: seq<Llamada>, quien: Token, desde: nat, h: nat, m: nat, hasta: Instante)
    requires desde < |es|
  {
    forall i: nat :: es[desde].t + h * i < hasta ==> LatioHacePoco(es, quien, desde, h, m, i)
  }

  lemma {:induction false} UltimoDebido(h: nat, d: nat) returns (n: nat)
    requires h > 0
    ensures h * n <= d < h * (n + 1)
    decreases d
  {
    if d < h {
      n := 0;
    } else {
      var previo := UltimoDebido(h, d - h);
      n := previo + 1;
    }
  }

  lemma Reciente(h: nat, m: nat, k: nat, n: nat, d: nat)
    requires k <= n <= k + m && h * n <= d < h * (n + 1)
    ensures h * k <= d < h * k + h * (m + 1)
  {
    MulMonotona(h, k, n);
    MulMonotona(h, n + 1, k + (m + 1));
    assert h * (k + (m + 1)) == h * k + h * (m + 1);
  }

  /** The last beat due before call `x` is recent enough, or the acquisition is. */
  lemma LatidoFresco(es: seq<Llamada>, quien: Token, desde: nat, x: nat, h: nat, m: nat, lease: nat)
    requires EnOrden(es) && desde < x < |es| && es[desde].quien == quien && !es[desde].op.Suelta?
    requires h > 0 && h * (m + 1) < lease && PocosFallos(es, quien, desde, h, m, es[x].t)
    ensures Fresco(es, quien, desde, x, lease)
  {
    var t0, t := es[desde].t, es[x].t;
    if t > t0 {
      var n := UltimoDebido(h, t - t0 - 1);
      assert LatioHacePoco(es, quien, desde, h, m, n);
      var k: nat :| k <= n <= k + m && Late(es, quien, desde, h, k);
      Reciente(h, m, k, n, t - t0 - 1);
      if k > 0 {
        var y :| desde < y < |es| && es[y] == Llamada(t0 + h * k, quien, Renueva);
        assert y < x;
      }
    }
  }

  /**
   * Beats every `h` from the acquisition, of which at most `m` in a row get no answer, with `h * (m + 1)` less than
   * the lease: at every call of the trace, by any number of owners, the key is the holder's own and nobody else's
   * call takes effect. Two misses in a row for the 45 s beat of the 180 s dispatch lock.
   */
  lemma ExclusivoConLatidos(es: seq<Llamada>, quien: Token, desde: nat, j: nat, h: nat, m: nat, lease: nat)
    requires EnOrden(es) && desde < j < |es| && h > 0 && h * (m + 1) < lease
    requires es[desde].quien == quien && es[desde].op.Adquiere? && Respuesta(es, desde, lease)
    requires forall i :: desde < i < j && es[i].quien == quien ==> es[i].op == Renueva
    requires PocosFallos(es, quien, desde, h, m, es[j].t)
    ensures DuenoVivo(Estado(es[..j], lease), es[j].t) == Some(quien)
    ensures es[j].quien != quien ==> !Respuesta(es, j, lease) && Estado(es[..j + 1], lease) == Estado(es[..j], lease)
  {
    forall x | desde < x <= j ensures Fresco(es, quien, desde, x, lease) {
      assert es[x].t <= es[j].t;
      LatidoFresco(es, quien, desde, x, h, m, lease);
    }
    ExclusivoMientrasRenueva(es, quien, desde, j, lease);
  }

  lemma MulMonotona(h: nat, a: int, b: int)
    requires a <= b
    ensures h * a <= h * b
  {
    assert h * b == h * a + h * (b - a);
  }
}
