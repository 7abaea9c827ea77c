/** One cycle of the retry job over the due batch, and when it gives the rest of the batch up for later. */
module CicloReintentos {
  import opened Comun
  import C = Cola
  import opened ColaInvariantes
  import opened AlmacenCola
  import opened Trabajador
  import L = DistributedLock

  const UMBRAL := 3
  const LEASE := 180

  /** One result per visited item; an item skipped because its lock or claim was not free yields None. */
  type Resultados = seq<Option<Resultado>>

  predicate Infra(rs: Resultados, i: nat) { i < |rs| && rs[i].Some? && rs[i].value.infra }

  /** Nothing was processed strictly between `i` and `j`: skipped items neither count nor reset. */
  predicate NadaEntre(rs: Resultados, i: int, j: int) {
    forall m {:trigger rs[m]} :: i < m < j && 0 <= m < |rs| ==> rs[m].None?
  }

  /** Item `k` is the third infrastructure failure with no other processed outcome between them. */
  predicate TresSeguidas(rs: Resultados, k: nat) {
    Infra(rs, k) && exists j: nat :: j < k && Infra(rs, j) && NadaEntre(rs, j, k)
                                     && exists i: nat :: i < j && Infra(rs, i) && NadaEntre(rs, i, j)
  }

  /** The counter `fallas_infra_consecutivas` after the first `n` items. */
  function Cuenta(rs: Resultados, n: nat): nat
    requires n <= |rs|
  {
    if n == 0 then 0
    else if rs[n - 1].None? then Cuenta(rs, n - 1)
    else if rs[n - 1].value.infra then Cuenta(rs, n - 1) + 1
    else 0
  }

  /** `m` infrastructure failures in a row end the first `n` items. */
  predicate Cadena(rs: Resultados, n: nat, m: nat)
    requires n <= |rs|
    decreases m
  {
    m == 0 || exists i: nat :: i < n && Infra(rs, i) && NadaEntre(rs, i, n) && Cadena(rs, i, m - 1)
  }

  lemma {:induction false} CuentaEsCadena(rs: Resultados, n: nat, m: nat)
    requires n <= |rs|
    ensures Cuenta(rs, n) >= m <==> Cadena(rs, n, m)
    decreases n
  {
    if m > 0 && n > 0 {
      if rs[n - 1].None? {
        CuentaEsCadena(rs, n - 1, m);
        assert forall i: nat :: i < n - 1 ==> (NadaEntre(rs, i, n) <==> NadaEntre(rs, i, n - 1));
      } else {
        CuentaEsCadena(rs, n - 1, m - 1);
        assert forall i: nat :: i < n - 1 ==> !NadaEntre(rs, i, n);
        assert NadaEntre(rs, n - 1, n);
      }
    }
  }

  lemma UmbralSii(rs: Resultados, k: nat)
    requires k < |rs|
    ensures Infra(rs, k) && Cuenta(rs, k + 1) >= UMBRAL <==> TresSeguidas(rs, k)
  {
    CuentaEsCadena(rs, k, 2);
    assert Cadena(rs, k, 2) <==> exists j: nat :: j < k && Infra(rs, j) && NadaEntre(rs, j, k) && Cadena(rs, j, 1);
    assert forall j: nat :: j < k ==>
        (Cadena(rs, j, 1) <==> exists i: nat :: i < j && Infra(rs, i) && NadaEntre(rs, i, j) && Cadena(rs, i, 0));
  }

  function Exitos(rs: Resultados, n: nat): nat
    requires n <= |rs|
  {
    if n == 0 then 0
    else Exitos(rs, n - 1) + (if rs[n - 1].Some? && rs[n - 1].value.despachadoExito then 1 else 0)
  }

  function Fallidos(rs: Resultados, n: nat): nat
    requires n <= |rs|
  {
    if n == 0 then 0 else Fallidos(rs, n - 1) + (if rs[n - 1].Some? && rs[n - 1].value.fallido then 1 else 0)
  }

  predicate Logrado(rs: Resultados, i: nat) { i < |rs| && rs[i].Some? && rs[i].value.despachadoExito }
  predicate Fracasado(rs: Resultados, i: nat) { i < |rs| && rs[i].Some? && rs[i].value.fallido }

  /** The positions below `n` where `p` holds. */
  function Donde(p: nat -> bool, n: nat): set<nat> { set i: nat | i < n && p(i) }

  lemma DondeUnoMas(p: nat -> bool, n: nat)
    ensures |Donde(p, n + 1)| == |Donde(p, n)| + (if p(n) then 1 else 0)
  {
    if p(n) {
      assert Donde(p, n + 1) == Donde(p, n) + {n};
    } else {
      assert Donde(p, n + 1) == Donde(p, n);
    }
  }

  /** The two counts reported are those of the dispatched and of the failed items. */
  lemma {:induction false} CuentasExactas(rs: Resultados, n: nat)
    requires n <= |rs|
    ensures Exitos(rs, n) == |Donde((i: nat) => Logrado(rs, i), n)|
    ensures Fallidos(rs, n) == |Donde((i: nat) => Fracasado(rs, i), n)|
  {
    var p, f := (i: nat) => Logrado(rs, i), (i: nat) => Fracasado(rs, i);
    if n > 0 {
      CuentasExactas(rs, n - 1);
      DondeUnoMas(p, n - 1);
      DondeUnoMas(f, n - 1);
    } else {
      assert Donde(p, 0) == {} && Donde(f, 0) == {};
    }
  }

  /** What the environment brings to the turn of one item: its answers, the times and the token of its lock object. */
  datatype Turno = Turno(dueno: L.Token, red: L.Red, t: Instante, tFin: Instante, x: Externo, ahora: Instante)

  /** The store and the case locks between two turns. */
  datatype Foto = Foto(r: C.Redis, candados: map<string, L.Cerrojo>)

  /** The case is free for this turn and the item can be claimed. */
  predicate Toca(f: Foto, item: C.Item, turno: Turno) {
    && turno.red.Responde? && item.smartCode in f.candados && L.DuenoVivo(f.candados[item.smartCode], turno.t).None?
    && item.id in f.r.pendientes && item.id in f.r.items && item.id !in f.r.claims
  }

  /**
   * The turn of a listed item: it yields nothing exactly when lock or claim are not free, and then leaves the store as
   * it was; otherwise the item stored at that moment goes through the two steps with this turn's answers.
   */
  ghost predicate TurnoDe(c: C.Config, w: Worker, f: Foto, f': Foto, item: C.Item, turno: Turno,
                          res: Option<Resultado>, llamadas: seq<Llamada>)
  {
    && (res.Some? <==> Toca(f, item, turno))
    && (res.None? ==> f'.r == f.r && llamadas == [])
    && (res.Some? ==>
          && item.id !in f.r.exitosos && f.r.items[item.id].id == item.id && OtrosIgual(f.r, f'.r, item.id)
          && Desenlace(c, f.r, f'.r, f.r.items[item.id], w, turno.x, turno.ahora, res.value, llamadas))
    && CandadosTras(f, f', item, turno)
  }

  /** Only the lock of that case was used, if it was free. */
  predicate CandadosTras(f: Foto, f': Foto, item: C.Item, turno: Turno) {
    item.smartCode in f.candados
    && f'.candados == if turno.red.Responde? && L.DuenoVivo(f.candados[item.smartCode], turno.t).None?
                      then f.candados[item.smartCode := TrasUsar(f.candados[item.smartCode], turno.dueno, LEASE,
                                                                 turno.t, turno.tFin)]
                      else f.candados
  }

  /** A batch under way: the results so far, the calls made, and the world before, between and after the turns. */
  datatype Lote = Lote(pendientes: seq<C.Item>, turnos: seq<Turno>, rs: Resultados, llamadas: seq<seq<Llamada>>,
                       hist: seq<Foto>)

  ghost predicate Historia(c: C.Config, w: Worker, l: Lote) {
    && |l.rs| <= |l.pendientes| == |l.turnos| && |l.llamadas| == |l.rs| && |l.hist| == |l.rs| + 1
    && forall i: nat :: i < |l.rs| ==> TurnoEn(c, w, l, i)
  }

  ghost predicate TurnoEn(c: C.Config, w: Worker, l: Lote, i: nat)
    requires i < |l.rs| <= |l.pendientes| == |l.turnos| && |l.llamadas| == |l.rs| && |l.hist| == |l.rs| + 1
  {
    TurnoDe(c, w, l.hist[i], l.hist[i + 1], l.pendientes[i], l.turnos[i], l.rs[i], l.llamadas[i])
  }

  /** An item that succeeded is never touched by a later turn. */
  lemma {:induction false} ExitoQueda(c: C.Config, w: Worker, l: Lote, i: nat, j: nat)
    requires Historia(c, w, l) && i < j <= |l.rs| && Logrado(l.rs, i)
    ensures var id := l.pendientes[i].id;
            && id in l.hist[j].r.exitosos && id in l.hist[j].r.items && id in l.hist[i].r.items
            && l.hist[j].r.items[id].payload == l.hist[i].r.items[id].payload
    decreases j
  {
    var id := l.pendientes[i].id;
    assert TurnoEn(c, w, l, i);
    if j > i + 1 {
      ExitoQueda(c, w, l, i, j - 1);
      assert TurnoEn(c, w, l, j - 1);
      assert l.pendientes[j - 1].id == id ==> l.rs[j - 1].None?;
      assert l.pendientes[j - 1].id != id && l.rs[j - 1].Some? ==> MismoItem(l.hist[j - 1].r, l.hist[j].r, id);
    }
  }

  lemma UnTurnoMas(c: C.Config, w: Worker, l: Lote, res: Option<Resultado>, llamadas: seq<Llamada>, f: Foto)
    requires Historia(c, w, l) && |l.rs| < |l.pendientes|
    requires TurnoDe(c, w, l.hist[|l.rs|], f, l.pendientes[|l.rs|], l.turnos[|l.rs|], res, llamadas)
    ensures Historia(c, w, ConTurno(l, res, llamadas, f))
  {
    var l', n := ConTurno(l, res, llamadas, f), |l.rs|;
    forall i: nat | i < |l'.rs| ensures TurnoEn(c, w, l', i) {
      if i < n {
        assert l'.rs[i] == l.rs[i] && TurnoEn(c, w, l, i);
        assert l'.hist[i] == l.hist[i] && l'.hist[i + 1] == l.hist[i + 1] && l'.llamadas[i] == l.llamadas[i];
      } else {
        assert l'.hist[n] == l.hist[n] && l'.hist[n + 1] == f && l'.llamadas[n] == llamadas && l'.rs[n] == res;
      }
    }
  }

  function ConTurno(l: Lote, res: Option<Resultado>, llamadas: seq<Llamada>, f: Foto): Lote {
    l.(rs := l.rs + [res], llamadas := l.llamadas + [llamadas], hist := l.hist + [f])
  }

  lemma ExitosQuedan(c: C.Config, w: Worker, l: Lote)
    requires Historia(c, w, l)
    ensures forall i: nat :: Logrado(l.rs, i) ==> l.pendientes[i].id in l.hist[|l.rs|].r.exitosos
  {
    forall i: nat | Logrado(l.rs, i) ensures l.pendientes[i].id in l.hist[|l.rs|].r.exitosos {
      ExitoQueda(c, w, l, i, |l.rs|);
    }
  }

  /** No turn before `j` is about the item or the case of position `j`. */
  predicate SinPrecedente(l: Lote, j: nat)
    requires j < |l.pendientes|
  {
    forall i: nat :: i < j ==> l.pendientes[i].id != l.pendientes[j].id
                               && l.pendientes[i].smartCode != l.pendientes[j].smartCode
  }

  /** Until its own turn comes, item and lock of position `j` are as they were at the start. */
  lemma {:induction false} HastaSuTurno(c: C.Config, w: Worker, l: Lote, i: nat, j: nat)
    requires Historia(c, w, l) && i <= j < |l.pendientes| && i <= |l.rs| && SinPrecedente(l, j)
    ensures MismoItem(l.hist[0].r, l.hist[i].r, l.pendientes[j].id)
    ensures var sc := l.pendientes[j].smartCode;
            (sc in l.hist[i].candados <==> sc in l.hist[0].candados)
            && (sc in l.hist[0].candados ==> l.hist[i].candados[sc] == l.hist[0].candados[sc])
  {
    if i > 0 {
      HastaSuTurno(c, w, l, i - 1, j);
      assert TurnoEn(c, w, l, i - 1);
      assert l.rs[i - 1].Some? ==> MismoItem(l.hist[i - 1].r, l.hist[i].r, l.pendientes[j].id);
    }
  }

  /** With the SFC down, a listed item that can be taken and was not sent yet. */
  predicate LoTumbaLaSfc(l: Lote, j: nat)
    requires j < |l.pendientes| == |l.turnos| && |l.hist| > 0
  {
    && Toca(l.hist[0], l.pendientes[j], l.turnos[j]) && !l.hist[0].r.items[l.pendientes[j].id].sfcCompletado
    && l.turnos[j].x.sfc.SfcError? && l.turnos[j].x.sfc.infra && SinPrecedente(l, j)
  }

  /**
   * An outage cuts the batch: if the first three listed items are of different cases, free and unsent, and the SFC
   * answers none of them, the third visit is the cut, the SFC was called once for each and the CRM never.
   */
  lemma CaidaCorta(c: C.Config, w: Worker, l: Lote)
    requires Historia(c, w, l) && |l.rs| >= 3 && forall j: nat :: j < 3 ==> LoTumbaLaSfc(l, j)
    ensures TresSeguidas(l.rs, 2) && forall j: nat :: j < 3 ==> l.llamadas[j] == [ALaSfc]
  {
    forall j: nat | j < 3 ensures Infra(l.rs, j) && l.llamadas[j] == [ALaSfc] {
      assert LoTumbaLaSfc(l, j);
      HastaSuTurno(c, w, l, j, j);
      assert TurnoEn(c, w, l, j);
    }
    assert Infra(l.rs, 0) && Infra(l.rs, 1) && Infra(l.rs, 2) && NadaEntre(l.rs, 0, 1) && NadaEntre(l.rs, 1, 2);
  }

  /** What the first `n` items count for depends on them only. */
  lemma {:induction false} CuentaDePrefijo(antes: Resultados, rs: Resultados, n: nat)
    requires n <= |antes| && antes <= rs
    ensures Cuenta(rs, n) == Cuenta(antes, n) && Exitos(rs, n) == Exitos(antes, n)
    ensures Fallidos(rs, n) == Fallidos(antes, n)
  {
    if n > 0 {
      CuentaDePrefijo(antes, rs, n - 1);
    }
  }

  /** One more result: the counters, and the only new place where three failures in a row can be. */
  lemma UnResultadoMas(antes: Resultados, res: Option<Resultado>)
    ensures var rs := antes + [res];
            && Cuenta(rs, |rs|) == (if res.None? then Cuenta(antes, |antes|)
                                    else if res.value.infra then Cuenta(antes, |antes|) + 1 else 0)
            && Exitos(rs, |rs|) == Exitos(antes, |antes|) + (if res.Some? && res.value.despachadoExito then 1 else 0)
            && Fallidos(rs, |rs|) == Fallidos(antes, |antes|) + (if res.Some? && res.value.fallido then 1 else 0)
            && (TresSeguidas(rs, |antes|) <==> Infra(rs, |antes|) && Cuenta(rs, |rs|) >= UMBRAL)
            && forall k: nat :: k < |antes| ==> (TresSeguidas(rs, k) <==> TresSeguidas(antes, k))
  {
    var rs := antes + [res];
    CuentaDePrefijo(antes, rs, |antes|);
    UmbralSii(rs, |antes|);
    forall k: nat | k < |antes| ensures TresSeguidas(rs, k) <==> TresSeguidas(antes, k) {
      UmbralSii(antes, k);
      UmbralSii(rs, k);
      CuentaDePrefijo(antes, rs, k + 1);
    }
  }

  function Candados(claves: map<string, L.ClaveRedis>): map<string, L.Cerrojo>
    reads claves.Values
  {
    map sc | sc in claves :: claves[sc].c
  }

  /** One item under its own lock, made for this turn. */
  method UnTurno(worker: RetryWorker, w: Worker, item: C.Item, turno: Turno, claves: map<string, L.ClaveRedis>,
                 ghost l: Lote) returns (res: Option<Resultado>, ghost l': Lote)
    requires worker.Valid() && item.smartCode in claves
    requires forall a, b :: a in claves && b in claves && a != b ==> claves[a] != claves[b]
    requires Historia(worker.store.c, w, l) && |l.rs| < |l.pendientes|
    requires l.pendientes[|l.rs|] == item && l.turnos[|l.rs|] == turno
    requires l.hist[|l.rs|] == Foto(worker.store.Estado(), Candados(claves))
    modifies worker.store, claves[item.smartCode]
    ensures worker.Valid() && Historia(worker.store.c, w, l')
    ensures l'.pendientes == l.pendientes && l'.turnos == l.turnos && l'.rs == l.rs + [res]
    ensures l'.hist[0] == l.hist[0] && l'.hist[|l'.rs|] == Foto(worker.store.Estado(), Candados(claves))
  {
    assert IdOk(worker.store.c, worker.store.Estado(), item.id);
    var lock := new L.RedisLock(claves[item.smartCode], turno.dueno, LEASE);
    ghost var llamadas;
    res, llamadas := worker.ReclamarYProcesar(item.id, w, lock, turno.red, turno.t, turno.tFin, turno.x, turno.ahora);
    UnTurnoMas(worker.store.c, w, l, res, llamadas, Foto(worker.store.Estado(), Candados(claves)));
    l' := ConTurno(l, res, llamadas, Foto(worker.store.Estado(), Candados(claves)));
  }

  /**
   * The loop of `reintentar_despachos_pendientes_job` over the listed items. `l` tells its history: every visited item
   * was tried under its own lock, with its own answers, on what the earlier ones left. The batch stops at exactly the
   * first third infrastructure failure in a row, and then everything behind it is deferred; otherwise every item is
   * visited and nothing is deferred. What a turn dispatched is still there, in EXITOSO, at the end.
   */
  method ReintentarPendientes(worker: RetryWorker, w: Worker, pendientes: seq<C.Item>, turnos: seq<Turno>,
                              claves: map<string, L.ClaveRedis>, error: string, ahora: Instante, proximo: Instante)
    returns (exitos: nat, fallidos: nat, corte: Option<nat>, rs: Resultados, ghost l: Lote)
    requires worker.Valid() && |turnos| == |pendientes| && forall p :: p in pendientes ==> p.smartCode in claves
    // the lock's key is that of one case
    requires forall a, b :: a in claves && b in claves && a != b ==> claves[a] != claves[b]
    modifies worker.store, claves.Values
    ensures worker.Valid() && Historia(worker.store.c, w, l)
    ensures l.pendientes == pendientes && l.turnos == turnos && l.rs == rs
    ensures l.hist[0] == old(Foto(worker.store.Estado(), Candados(claves)))
    ensures l.hist[|rs|].candados == Candados(claves)
    ensures |rs| == if corte.Some? then corte.value + 1 else |pendientes|
    ensures forall k: nat :: TresSeguidas(rs, k) <==> corte == Some(k)
    ensures worker.store.Estado() == if corte.None? then l.hist[|rs|].r
                                     else DiferirTodos(l.hist[|rs|].r, pendientes[|rs|..], error, ahora, proximo).0
    ensures exitos == Exitos(rs, |rs|) && fallidos == Fallidos(rs, |rs|)
    ensures forall i: nat :: Logrado(rs, i) ==> pendientes[i].id in worker.store.exitosos
  {
    exitos, fallidos, corte, rs := 0, 0, None, [];
    l := Lote(pendientes, turnos, rs, [], [Foto(worker.store.Estado(), Candados(claves))]);
    var seguidas: nat := 0;
    while |rs| < |pendientes| && corte.None?
      invariant worker.Valid() && |rs| <= |pendientes| && Historia(worker.store.c, w, l)
      invariant l.pendientes == pendientes && l.turnos == turnos && l.rs == rs
      invariant l.hist[0] == old(Foto(worker.store.Estado(), Candados(claves)))
      invariant l.hist[|rs|] == Foto(worker.store.Estado(), Candados(claves))
      invariant seguidas == Cuenta(rs, |rs|) && (corte.None? <==> seguidas < UMBRAL)
      invariant corte.Some? ==> |rs| == corte.value + 1
      invariant exitos == Exitos(rs, |rs|) && fallidos == Fallidos(rs, |rs|)
      invariant forall k: nat :: TresSeguidas(rs, k) <==> corte == Some(k)
      decreases |pendientes| - |rs|
    {
      var res;
      res, l := UnTurno(worker, w, pendientes[|rs|], turnos[|rs|], claves, l);
      UnResultadoMas(rs, res);
      rs := rs + [res];
      if res.Some? {
        exitos := exitos + (if res.value.despachadoExito then 1 else 0);
        fallidos := fallidos + (if res.value.fallido then 1 else 0);
        seguidas := if res.value.infra then seguidas + 1 else 0;
        corte := if seguidas >= UMBRAL then Some(|rs| - 1) else None;
      }
    }
    ExitosQuedan(worker.store.c, w, l);
    if corte.Some? {
      DiferirElResto(worker.store, pendientes[|rs|..], error, ahora, proximo);
    }
  }

  /** `_diferir_resto_del_lote`. */
  method DiferirElResto(store: QueueStore, resto: seq<C.Item>, error: string, ahora: Instante, proximo: Instante)
    requires store.Valid()
    modifies store
    ensures store.Valid() && store.exitosos == old(store.exitosos)
    ensures store.Estado() == DiferirTodos(old(store.Estado()), resto, error, ahora, proximo).0
  {
    DiferirNoConsume(store.Estado(), resto, error, ahora, proximo, 0);
    if resto != [] {
      var n := store.DiferirLote(resto, error, ahora, proximo);
    }
  }
}
