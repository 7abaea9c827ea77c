/** How many failures and how much waiting a queued item gets before it is given up. */
module Backoff {
  import opened Comun
  import opened Clasificacion
  import opened Cola
  import opened ColaInvariantes

  /** 1 + 2 + ... + n. */
  function Tri(n: nat): nat {
    if n == 0 then 0 else Tri(n - 1) + n
  }

  lemma {:induction false} TriCerrada(n: nat)
    ensures 2 * Tri(n) == n * (n + 1)
  {
    if n > 0 {
      TriCerrada(n - 1);
    }
  }

  /** When an item with `n` attempts is due, if the `a`-th left it due at `vence`. */
  function Reloj(i: int, a: nat, vence: Instante, n: nat): Instante { vence + i * (Tri(n) - Tri(a)) }

  lemma RelojAvanza(i: int, a: nat, vence: Instante, n: nat)
    ensures Reloj(i, a, vence, n + 1) == Reloj(i, a, vence, n) + i * (n + 1)
  {
    assert i * (Tri(n) - Tri(a)) + i * (n + 1) == i * (Tri(n) - Tri(a) + (n + 1));
  }

  /** One cycle that comes at the item's due time, claims it and fails consuming the attempt. */
  function Ciclo(c: Config, r: Redis, id: nat, w: Worker, error: string): Redis {
    var (r1, copia) := Reclamar(r, id, w);
    if copia.None? then r1 else
    var it := copia.value;
    RegistrarFallo(r1, id, w, it.version, ArgsDeFallo(c, it, error, true, it.proximoReintentoAt)).0
  }

  function Ciclos(c: Config, r: Redis, id: nat, w: Worker, error: string, n: nat): Redis {
    if n == 0 then r else Ciclo(c, Ciclos(c, r, id, w, error, n - 1), id, w, error)
  }

  /** Waiting, unclaimed, after `n` attempts, due at `vence`. */
  predicate Espera(r: Redis, id: nat, n: int, maximo: int, vence: Instante) {
    && id in r.pendientes && id in r.items && id !in r.claims
    && r.items[id].intentos == n && r.items[id].maxIntentos == maximo && r.items[id].proximoReintentoAt == vence
  }

  predicate Agotado(r: Redis, id: nat, maximo: int, cuando: Instante) {
    id in r.fallidos && id !in r.pendientes && id in r.items && r.items[id].intentos == maximo
    && r.items[id].updatedAt == cuando
  }

  lemma UnCiclo(c: Config, r: Redis, id: nat, w: Worker, error: string, n: nat, maximo: int, vence: Instante)
    requires Espera(r, id, n, maximo, vence) && maximo >= 1
    ensures n + 1 < maximo ==> Espera(Ciclo(c, r, id, w, error), id, n + 1, maximo, vence + c.intervalo * (n + 1))
    ensures n + 1 == maximo ==> Agotado(Ciclo(c, r, id, w, error), id, maximo, vence)
  {
    var (r1, copia) := Reclamar(r, id, w);
    assert copia == Some(r.items[id].(estado := PROCESSING));
    assert Cerca(r1, id, w, copia.value.version).Aplicado?;
  }

  /**
   * A failure that does not consume (the CRM was down) can be repeated for ever: it never ends the item, leaves the
   * attempts and the SFC_DONE flag as they were, and waits one plain interval.
   */
  lemma SinConsumirNoAgota(c: Config, r: Redis, id: nat, w: Worker, error: string, n: int, maximo: int, vence: Instante)
    requires Espera(r, id, n, maximo, vence)
    ensures var (r1, copia) := Reclamar(r, id, w);
            copia.Some?
            && var r2 := RegistrarFallo(r1, id, w, copia.value.version,
                                        ArgsDeFallo(c, copia.value, error, false, vence)).0;
               Espera(r2, id, n, maximo, vence + c.intervalo) && r2.items[id].sfcCompletado == r.items[id].sfcCompletado
               && r2.fallidos == r.fallidos && r2.exitosos == r.exitosos
  {
    var (r1, copia) := Reclamar(r, id, w);
    assert Cerca(r1, id, w, copia.value.version).Aplicado?;
  }

  /** After `k` failures at due times, the item has used `a + k` attempts and the waits add up triangularly. */
  lemma {:induction false} CiclosAvanzan(c: Config, r: Redis, id: nat, w: Worker, error: string, a: nat, maximo: int,
                                         vence: Instante, k: nat)
    requires Espera(r, id, a, maximo, vence) && a + k < maximo
    ensures Espera(Ciclos(c, r, id, w, error, k), id, a + k, maximo, Reloj(c.intervalo, a, vence, a + k))
  {
    if k > 0 {
      CiclosAvanzan(c, r, id, w, error, a, maximo, vence, k - 1);
      RelojAvanza(c.intervalo, a, vence, a + k - 1);
      UnCiclo(c, Ciclos(c, r, id, w, error, k - 1), id, w, error, a + k - 1, maximo,
              Reloj(c.intervalo, a, vence, a + k - 1));
    }
  }

  /** It is given up after exactly `maximo - a` failures, and not one earlier. */
  lemma AgotaExactamente(c: Config, r: Redis, id: nat, w: Worker, error: string, a: nat, maximo: int, vence: Instante)
    requires Espera(r, id, a, maximo, vence) && a < maximo
    ensures Agotado(Ciclos(c, r, id, w, error, maximo - a), id, maximo,
                    Reloj(c.intervalo, a, vence, maximo - 1))
    ensures forall k: nat :: k < maximo - a ==> id in Ciclos(c, r, id, w, error, k).pendientes
  {
    forall k: nat | k < maximo - a ensures id in Ciclos(c, r, id, w, error, k).pendientes {
      CiclosAvanzan(c, r, id, w, error, a, maximo, vence, k);
    }
    var k := maximo - a - 1;
    CiclosAvanzan(c, r, id, w, error, a, maximo, vence, k);
    UnCiclo(c, Ciclos(c, r, id, w, error, k), id, w, error, maximo - 1, maximo,
            Reloj(c.intervalo, a, vence, maximo - 1));
  }

  lemma SumaTriangular(i: int, m: int)
    requires m >= 1
    ensures 2 * (i * Tri(m - 1)) == i * m * (m - 1)
  {
    TriCerrada(m - 1);
    assert 2 * (i * Tri(m - 1)) == i * (2 * Tri(m - 1));
    assert 2 * Tri(m - 1) == (m - 1) * m;
    assert i * ((m - 1) * m) == i * m * (m - 1);
  }

  /**
   * A fresh content, inserted or overwriting, that fails at every due time is given up after exactly
   * `max_intentos - 1` failures, `intervalo * M * (M - 1) / 2` after it was enqueued.
   */
  lemma RecienEncoladoAgota(c: Config, r: Redis, sc: string, p: Queja, e: string, ahora: Instante, w: Worker,
                            error: string)
    requires Inv(c, r) && c.maxIntentos >= 2
    requires Encolar(r, ArgsDeEncolar(c, sc, p, e, ahora)).1.id !in r.claims
    ensures var (r1, it) := Encolar(r, ArgsDeEncolar(c, sc, p, e, ahora));
            var m := it.maxIntentos;
            && m >= 2
            && Agotado(Ciclos(c, r1, it.id, w, error, m - 1), it.id, m, ahora + c.intervalo * Tri(m - 1))
            && 2 * (c.intervalo * Tri(m - 1)) == c.intervalo * m * (m - 1)
            && forall k: nat :: k < m - 1 ==> it.id in Ciclos(c, r1, it.id, w, error, k).pendientes
  {
    EncoladoEspera(c, r, sc, p, e, ahora);
    var (r1, it) := Encolar(r, ArgsDeEncolar(c, sc, p, e, ahora));
    var m := it.maxIntentos;
    AgotaExactamente(c, r1, it.id, w, error, 1, m, ahora + c.intervalo);
    SumaTriangular(c.intervalo, m);
    DesdeUno(c.intervalo, ahora, m - 1);
  }

  lemma EncoladoEspera(c: Config, r: Redis, sc: string, p: Queja, e: string, ahora: Instante)
    requires Inv(c, r) && c.maxIntentos >= 2
    requires Encolar(r, ArgsDeEncolar(c, sc, p, e, ahora)).1.id !in r.claims
    ensures var (r1, it) := Encolar(r, ArgsDeEncolar(c, sc, p, e, ahora));
            it.maxIntentos >= 2 && Espera(r1, it.id, 1, it.maxIntentos, ahora + c.intervalo)
  {
    if Ocupado(r, Slot(sc, c.operacion(p))) {
      assert IdOk(c, r, r.indice[Slot(sc, c.operacion(p))]);
    }
  }

  lemma DesdeUno(i: int, ahora: Instante, n: nat)
    ensures Reloj(i, 1, ahora + i, n) == ahora + i * Tri(n)
    ensures Reloj(i, 0, ahora, n) == ahora + i * Tri(n)
  {
    assert Tri(0) == 0 && Tri(1) == 1;
    assert i * (Tri(n) - 1) == i * Tri(n) - i;
  }

  /** A replayed item starts over with its whole maximum of failures, and waits just as long. */
  lemma ReencoladoAgota(c: Config, r: Redis, id: nat, ahora: Instante, w: Worker, error: string)
    requires Inv(c, r) && Reencolar(r, id, ahora).1.Reencolado?
    ensures var r1 := Reencolar(r, id, ahora).0;
            var m := r.items[id].maxIntentos;
            && m >= 2
            && Agotado(Ciclos(c, r1, id, w, error, m), id, m, ahora + c.intervalo * Tri(m - 1))
            && forall k: nat :: k < m ==> id in Ciclos(c, r1, id, w, error, k).pendientes
  {
    ReencoladoEspera(c, r, id, ahora);
    var r1 := Reencolar(r, id, ahora).0;
    var m := r.items[id].maxIntentos;
    DesdeUno(c.intervalo, ahora, m - 1);
    AgotaExactamente(c, r1, id, w, error, 0, m, ahora);
  }

  lemma ReencoladoEspera(c: Config, r: Redis, id: nat, ahora: Instante)
    requires Inv(c, r) && Reencolar(r, id, ahora).1.Reencolado?
    ensures id in r.items && r.items[id].maxIntentos >= 2
    ensures Espera(Reencolar(r, id, ahora).0, id, 0, r.items[id].maxIntentos, ahora)
  {
    assert IdOk(c, r, id);
  }

  /** The documented figures: five minutes and ten attempts give nine failures in 225 minutes. */
  lemma EsperaDocumentada(c: Config, r: Redis, sc: string, p: Queja, e: string, ahora: Instante, w: Worker,
                          error: string)
    requires Inv(c, r) && c.maxIntentos == 10 && c.intervalo == 5 && !Ocupado(r, Slot(sc, c.operacion(p)))
    ensures var (r1, it) := Encolar(r, ArgsDeEncolar(c, sc, p, e, ahora));
            Agotado(Ciclos(c, r1, it.id, w, error, 9), it.id, 10, ahora + 225)
  {
    assert IdOk(c, r, r.contador + 1);
    RecienEncoladoAgota(c, r, sc, p, e, ahora, w, error);
    TriCerrada(9);
  }
}
