/**
 * The queue as the object the service updates: one method per Lua script or Python loop, writing the keys in the
 * script's own order. Each is proved equal to its function in Cola and keeps the store invariant.
 */
module AlmacenCola {
  import opened Comun
  import opened Clasificacion
  import C = Cola
  import opened ColaInvariantes

  // ---------------------------------------------------------------- listing and deferral as specifications

  /** What a scan of every item would call due: pending, and its own next retry has come. */
  function Vencidos(r: C.Redis, ahora: Instante): set<nat> {
    set id | id in r.pendientes && id in r.items && r.items[id].proximoReintentoAt <= ahora
  }

  /** `diferir_pendientes_por_caida_sfc`: DIFERIR once per record of the batch. */
  function DiferirTodos(r: C.Redis, regs: seq<C.Item>, error: string, ahora: Instante, proximo: Instante)
    : (C.Redis, nat)
  {
    if regs == [] then (r, 0) else
    var (r1, n) := DiferirTodos(r, regs[..|regs| - 1], error, ahora, proximo);
    var ult := regs[|regs| - 1];
    var (r2, ok) := C.Diferir(r1, ult.id, ult.version, error, ahora, proximo);
    (r2, if ok then n + 1 else n)
  }

  /** How many records of the batch are still at the version they were listed at. */
  function CuantosIguales(r: C.Redis, regs: seq<C.Item>): nat {
    if regs == [] then 0
    else CuantosIguales(r, regs[..|regs| - 1]) + (if SigueIgual(r, regs[|regs| - 1]) then 1 else 0)
  }

  /** The count a deferral reports: deferring moves no version, so every record still at its own counts. */
  lemma {:induction false} DiferirCuenta(r: C.Redis, regs: seq<C.Item>, error: string, ahora: Instante,
                                         proximo: Instante)
    ensures DiferirTodos(r, regs, error, ahora, proximo).1 == CuantosIguales(r, regs)
  {
    if regs != [] {
      var previos, ult := regs[..|regs| - 1], regs[|regs| - 1];
      DiferirCuenta(r, previos, error, ahora, proximo);
      DiferirNoConsume(r, previos, error, ahora, proximo, ult.id);
    }
  }

  /** The record is still the version that was listed. */
  predicate SigueIgual(r: C.Redis, reg: C.Item) { reg.id in r.items && r.items[reg.id].version == reg.version }

  predicate EnLote(r: C.Redis, regs: seq<C.Item>, id: nat) {
    exists j :: 0 <= j < |regs| && regs[j].id == id && SigueIgual(r, regs[j])
  }

  /**
   * Deferral consumes nothing: exactly the items still at their listed version get the new time and lose their
   * claim; attempts, content, version, status sets, slots and records stay as they were.
   */
  lemma {:induction false} DiferirNoConsume(r: C.Redis, regs: seq<C.Item>, error: string, ahora: Instante,
                                            proximo: Instante, id: nat)
    ensures var r' := DiferirTodos(r, regs, error, ahora, proximo).0;
            && r' == r.(items := r'.items, pendientesZ := r'.pendientesZ, claims := r'.claims)
            && (id in r'.items <==> id in r.items)
            && (id in r.items ==>
                  r'.items[id] == if EnLote(r, regs, id)
                                  then r.items[id].(proximoReintentoAt := proximo, updatedAt := ahora,
                                                    ultimoError := error)
                                  else r.items[id])
            && (id in r'.claims <==> id in r.claims && !EnLote(r, regs, id))
            && (id in r'.claims ==> r'.claims[id] == r.claims[id])
            && (EnLote(r, regs, id) ==> id in r'.pendientesZ && r'.pendientesZ[id] == proximo)
  {
    if regs != [] {
      var previos, ult := regs[..|regs| - 1], regs[|regs| - 1];
      DiferirNoConsume(r, previos, error, ahora, proximo, id);
      DiferirNoConsume(r, previos, error, ahora, proximo, ult.id);
      LoteCrece(r, regs, id);
    }
  }

  lemma LoteCrece(r: C.Redis, regs: seq<C.Item>, id: nat)
    requires regs != []
    ensures var previos, ult := regs[..|regs| - 1], regs[|regs| - 1];
            EnLote(r, regs, id) <==> EnLote(r, previos, id) || (ult.id == id && SigueIgual(r, ult))
  {
    var previos, ult := regs[..|regs| - 1], regs[|regs| - 1];
    if EnLote(r, previos, id) {
      var j :| 0 <= j < |previos| && previos[j].id == id && SigueIgual(r, previos[j]);
      assert regs[j] == previos[j];
    }
    if ult.id == id && SigueIgual(r, ult) {
      assert regs[|regs| - 1] == ult;
    }
    if EnLote(r, regs, id) {
      var j :| 0 <= j < |regs| && regs[j].id == id && SigueIgual(r, regs[j]);
      assert j < |previos| ==> previos[j] == regs[j];
    }
  }

  lemma {:induction false} DiferirTodosConserva(c: C.Config, r: C.Redis, regs: seq<C.Item>, error: string,
                                                ahora: Instante, proximo: Instante)
    requires Inv(c, r)
    ensures Inv(c, DiferirTodos(r, regs, error, ahora, proximo).0)
  {
    if regs != [] {
      var previos, ult := regs[..|regs| - 1], regs[|regs| - 1];
      DiferirTodosConserva(c, r, previos, error, ahora, proximo);
      DiferirConserva(c, DiferirTodos(r, previos, error, ahora, proximo).0, ult.id, ult.version, error, ahora, proximo);
    }
  }

  lemma {:induction false} MinimoExiste(z: map<nat, Instante>, s: set<nat>) returns (m: nat)
    requires s != {} && forall id :: id in s ==> id in z
    ensures m in s && forall j :: j in s ==> z[m] <= z[j]
    decreases |s|
  {
    m :| m in s;
    if s != {m} {
      var otro := MinimoExiste(z, s - {m});
      if z[otro] < z[m] {
        m := otro;
      }
    }
  }

  /** For an id whose due score has come, membership and the attempts filter say exactly "due by a full scan". */
  lemma ListableSiiVencido(c: C.Config, r: C.Redis, id: nat, ahora: Instante)
    requires Inv(c, r) && id in r.pendientesZ && r.pendientesZ[id] <= ahora
    ensures id in r.pendientes && id in r.items && r.items[id].intentos < r.items[id].maxIntentos
            <==> id in Vencidos(r, ahora)
    ensures id in Vencidos(r, ahora) ==> r.items[id].id == id && r.items[id].proximoReintentoAt == r.pendientesZ[id]
  {
    assert IdOk(c, r, id);
  }

  /** Whatever a full scan calls due has its due score in the zset. */
  lemma VencidoTienePuntaje(c: C.Config, r: C.Redis, ahora: Instante)
    requires Inv(c, r)
    ensures forall id :: id in Vencidos(r, ahora) ==> id in r.pendientesZ && r.pendientesZ[id] <= ahora
  {
    forall id | id in Vencidos(r, ahora) ensures id in r.pendientesZ && r.pendientesZ[id] <= ahora {
      assert IdOk(c, r, id);
    }
  }

  // ---------------------------------------------------------------- the store

  lemma BorrarCuenta(items: map<nat, C.Item>, ids: set<nat>)
    requires ids <= items.Keys
    ensures var quedan := map id | id in items && id !in ids :: items[id]; |quedan| == |items| - |ids|
  {
    var quedan := map id | id in items && id !in ids :: items[id];
    assert quedan.Keys == items.Keys - ids && items.Keys * ids == ids;
    assert |quedan| == |quedan.Keys| && |items| == |items.Keys|;
  }

  /** The purge told of one item: it goes exactly if it is in that set and was not touched since `limite`. */
  predicate PurgaDe(r: C.Redis, r': C.Redis, de: C.Terminal, limite: Instante, id: nat) {
    var seVa := id in r.items && id in (if de.DeExitosos? then r.exitosos else r.fallidos)
                && r.items[id].updatedAt <= limite;
    && (id in r'.items <==> id in r.items && !seVa) && (id in r'.items ==> r'.items[id] == r.items[id])
    && (id in r'.exitosos <==> id in r.exitosos && !seVa) && (id in r'.fallidos <==> id in r.fallidos && !seVa)
    && (id in r'.creadosZ <==> id in r.creadosZ && !seVa) && (id in r'.creadosZ ==> r'.creadosZ[id] == r.creadosZ[id])
  }

  /** And of the whole store: nothing else is touched. */
  ghost predicate PurgaExacta(r: C.Redis, r': C.Redis, de: C.Terminal, limite: Instante) {
    && (forall id: nat :: PurgaDe(r, r', de, limite, id))
    && r' == r.(items := r'.items, exitosos := r'.exitosos, fallidos := r'.fallidos, creadosZ := r'.creadosZ)
  }

  lemma PurgarEsExacta(c: C.Config, r: C.Redis, de: C.Terminal, limite: Instante)
    requires Inv(c, r)
    ensures PurgaExacta(r, C.Purgar(r, de, C.Purgables(r, de, limite)), de, limite)
    ensures |C.Purgables(r, de, limite)| == |r.items| - |C.Purgar(r, de, C.Purgables(r, de, limite)).items|
  {
    var ids := C.Purgables(r, de, limite);
    BorrarCuenta(r.items, ids);
    assert C.Purgar(r, de, ids).items == map id | id in r.items && id !in ids :: r.items[id];
    forall id: nat ensures PurgaDe(r, C.Purgar(r, de, C.Purgables(r, de, limite)), de, limite, id) {
      assert IdOk(c, r, id);
      PurgarUno(r, de, limite, id);
    }
  }

  lemma PurgarUno(r: C.Redis, de: C.Terminal, limite: Instante, id: nat)
    requires !(id in r.exitosos && id in r.fallidos) && (id in r.exitosos || id in r.fallidos ==> id in r.items)
    ensures PurgaDe(r, C.Purgar(r, de, C.Purgables(r, de, limite)), de, limite, id)
  {
  }

  class QueueStore {
    const c: C.Config
    var items: map<nat, C.Item>
    var indice: map<C.Slot, nat>
    var pendientes: set<nat>
    var exitosos: set<nat>
    var fallidos: set<nat>
    var pendientesZ: map<nat, Instante>
    var creadosZ: map<nat, Instante>
    var claims: map<nat, Worker>
    var contador: nat
    var idem: map<C.ClaveIdem, C.Registro>

    function Estado(): C.Redis
      reads this
    {
      C.Redis(items, indice, pendientes, exitosos, fallidos, pendientesZ, creadosZ, claims, contador, idem)
    }

    ghost predicate Valid()
      reads this
    {
      c.maxIntentos >= 2 && Inv(c, Estado())
    }

    constructor (c: C.Config)
      requires c.maxIntentos >= 2
      ensures Valid() && this.c == c && Estado() == C.VACIO
    {
      this.c := c;
      items, indice, pendientes, exitosos, fallidos := map[], map[], {}, {}, {};
      pendientesZ, creadosZ, claims, contador, idem := map[], map[], map[], 0, map[];
      new;
      InicialInv(c);
    }

    /** `encolar_despacho`: hash, operation and next retry are computed before the script runs. */
    method EncolarDespacho(smartCode: string, payload: Queja, error: string, ahora: Instante)
      returns (it: C.Item, nuevo: bool, previos: nat)
      requires Valid()
      modifies this
      ensures Valid()
      ensures (Estado(), it) == C.Encolar(old(Estado()), C.ArgsDeEncolar(c, smartCode, payload, error, ahora))
      ensures nuevo <==> !C.Ocupado(old(Estado()), C.Slot(smartCode, c.operacion(payload)))
      ensures previos == |old(pendientes)|
    {
      EncolarConserva(c, Estado(), smartCode, payload, error, ahora);
      it, nuevo, previos := Encolar(C.ArgsDeEncolar(c, smartCode, payload, error, ahora));
    }

    /** ENQUEUE. */
    method Encolar(a: C.ArgsEncolar) returns (it: C.Item, nuevo: bool, previos: nat)
      modifies this
      ensures (Estado(), it) == C.Encolar(old(Estado()), a)
      ensures nuevo <==> !C.Ocupado(old(Estado()), a.Ranura())
      ensures previos == |old(pendientes)|
    {
      var ranura := a.Ranura();
      previos := |pendientes|;
      if ranura in indice {
        var existente := indice[ranura];
        if existente in pendientes {
          if existente in items {
            it := items[existente];
            it := it.(payload := a.payload);
            it := it.(payloadHash := a.payloadHash, ultimoError := a.error, updatedAt := a.ahora);
            it := it.(proximoReintentoAt := a.proximo, esDuplicado := true, version := it.version + 1);
            it := it.(estado := C.PENDIENTE, sfcCompletado := false, sfcResponse := None, intentos := 1);
            it := it.(operacion := a.operacion);
            items := items[existente := it];
            pendientesZ := pendientesZ[existente := a.proximo];
            nuevo := false;
            return;
          }
        }
      }
      contador := contador + 1;
      var id := contador;
      it := C.ItemNuevo(id, a);
      items := items[id := it];
      pendientes := pendientes + {id};
      pendientesZ := pendientesZ[id := a.proximo];
      creadosZ := creadosZ[id := a.ahora];
      indice := indice[ranura := id];
      nuevo := true;
    }

    /** CLAIM. */
    method Reclamar(id: nat, w: Worker) returns (res: Option<C.Item>)
      requires Valid()
      modifies this
      ensures Valid()
      ensures (Estado(), res) == C.Reclamar(old(Estado()), id, w)
    {
      ReclamarConserva(c, Estado(), id, w);
      if id !in pendientes || id !in items || id in claims {
        return None;
      }
      claims := claims[id := w];
      var it := items[id].(estado := C.PROCESSING);
      items := items[id := it];
      return Some(it);
    }

    /** EXTEND_LEASE: only the owner renews. */
    method ExtenderLease(id: nat, w: Worker) returns (ok: bool)
      ensures ok <==> id in claims && claims[id] == w
    {
      ok := id in claims && claims[id] == w;
    }

    /** Ownership, existence and version, in the scripts' order; a rejected owner loses its claim. */
    method VerificarCerca(id: nat, w: Worker, ver: nat) returns (res: C.Resultado)
      modifies this`claims
      ensures res == C.Cerca(old(Estado()), id, w, ver)
      ensures Estado() == if res.Aplicado? then old(Estado()) else C.Rechazar(old(Estado()), id, res)
    {
      if id !in claims || claims[id] != w {
        return C.NoEsDueno;
      }
      if id !in items {
        claims := C.Quitar(claims, id);
        return C.NoEncontrado;
      }
      if items[id].version != ver {
        claims := C.Quitar(claims, id);
        return C.VersionDistinta;
      }
      return C.Aplicado;
    }

    /** MARK_SUCCESS. */
    method MarcarExitoso(id: nat, w: Worker, ver: nat, ahora: Instante) returns (res: C.Resultado)
      requires Valid()
      modifies this
      ensures Valid()
      ensures (Estado(), res) == C.MarcarExitoso(old(Estado()), id, w, ver, ahora)
    {
      ExitoConserva(c, Estado(), id, w, ver, ahora);
      res := VerificarCerca(id, w, ver);
      if !res.Aplicado? {
        return;
      }
      var it := items[id].(estado := C.EXITOSO, updatedAt := ahora);
      items := items[id := it];
      pendientes := pendientes - {id};
      exitosos := exitosos + {id};
      pendientesZ := C.Quitar(pendientesZ, id);
      claims := C.Quitar(claims, id);
      indice := C.Quitar(indice, it.Ranura());
    }

    /** MARK_SFC_DONE: the item and the COMPLETED record together. */
    method MarcarSfcCompletado(id: nat, w: Worker, ver: nat, clave: C.ClaveIdem, resp: Option<string>,
                               ahora: Instante) returns (res: C.Resultado)
      requires Valid()
      modifies this
      ensures Valid()
      ensures (Estado(), res) == C.MarcarSfcCompletado(old(Estado()), id, w, ver, clave, resp, ahora)
    {
      SfcConserva(c, Estado(), id, w, ver, clave, resp, ahora);
      res := VerificarCerca(id, w, ver);
      if !res.Aplicado? {
        return;
      }
      var it := items[id].(sfcCompletado := true, estado := C.SFC_DONE);
      if resp.Some? {
        it := it.(sfcResponse := resp);
      }
      it := it.(updatedAt := ahora);
      items := items[id := it];
      idem := idem[clave := C.Completed(resp)];
    }

    /**
     * `registrar_fallo`: attempts, definitiveness and wait come from the claimed copy, which must agree with the
     * stored item whenever the fence lets the transition through. The protocol proves that of every claimed copy.
     */
    method RegistrarFallo(copia: C.Item, error: string, w: Worker, consumir: bool, ahora: Instante)
      returns (res: C.Resultado)
      requires Valid()
      requires C.Cerca(Estado(), copia.id, w, copia.version).Aplicado? ==>
                 copia.intentos == items[copia.id].intentos && copia.maxIntentos == items[copia.id].maxIntentos
      modifies this
      ensures Valid()
      ensures (Estado(), res)
              == C.RegistrarFallo(old(Estado()), copia.id, w, copia.version,
                                  C.ArgsDeFallo(c, copia, error, consumir, ahora))
    {
      FalloConserva(c, Estado(), w, copia, error, consumir, ahora);
      res := AplicarFallo(copia.id, w, copia.version, C.ArgsDeFallo(c, copia, error, consumir, ahora));
    }

    /** REGISTRAR_FALLO. */
    method AplicarFallo(id: nat, w: Worker, ver: nat, a: C.ArgsFallo) returns (res: C.Resultado)
      modifies this
      ensures (Estado(), res) == C.RegistrarFallo(old(Estado()), id, w, ver, a)
    {
      res := VerificarCerca(id, w, ver);
      if !res.Aplicado? {
        return;
      }
      var it := items[id];
      if a.consumir {
        it := it.(intentos := it.intentos + 1);
      }
      it := it.(ultimoError := a.error, updatedAt := a.ahora);
      if a.definitivo {
        it := it.(estado := C.FALLIDO_DEFINITIVO);
      } else {
        it := it.(estado := C.PENDIENTE, proximoReintentoAt := a.proximo);
      }
      items := items[id := it];
      claims := C.Quitar(claims, id);
      if a.definitivo {
        pendientes := pendientes - {id};
        fallidos := fallidos + {id};
        pendientesZ := C.Quitar(pendientesZ, id);
        indice := C.Quitar(indice, it.Ranura());
      } else {
        pendientesZ := pendientesZ[id := a.proximo];
      }
    }

    /** `reencolar_item_fallido`. */
    method ReencolarFallido(id: nat, ahora: Instante) returns (res: C.ResReplay)
      requires Valid()
      modifies this
      ensures Valid()
      ensures (Estado(), res) == C.Reencolar(old(Estado()), id, ahora)
    {
      ReencolarConserva(c, Estado(), id, ahora);
      res := Reencolar(id, ahora);
    }

    /** REPLAY. */
    method Reencolar(id: nat, ahora: Instante) returns (res: C.ResReplay)
      modifies this
      ensures (Estado(), res) == C.Reencolar(old(Estado()), id, ahora)
    {
      if id !in items {
        return C.SinItem;
      }
      var it := items[id];
      if it.estado != C.FALLIDO_DEFINITIVO {
        return C.NoFallido(it.estado);
      }
      if it.Ranura() in indice && indice[it.Ranura()] != id {
        return C.SlotTomado(indice[it.Ranura()]);
      }
      it := it.(estado := C.PENDIENTE, intentos := 0, proximoReintentoAt := ahora, updatedAt := ahora);
      it := it.(version := it.version + 1);
      items := items[id := it];
      fallidos := fallidos - {id};
      pendientes := pendientes + {id};
      pendientesZ := pendientesZ[id := ahora];
      indice := indice[it.Ranura() := id];
      return C.Reencolado(it.version);
    }

    /** DIFERIR. */
    method Diferir(id: nat, ver: nat, error: string, ahora: Instante, proximo: Instante) returns (ok: bool)
      requires Valid()
      modifies this
      ensures Valid()
      ensures (Estado(), ok) == C.Diferir(old(Estado()), id, ver, error, ahora, proximo)
    {
      DiferirConserva(c, Estado(), id, ver, error, ahora, proximo);
      if id !in items || items[id].version != ver {
        return false;
      }
      items := items[id := items[id].(proximoReintentoAt := proximo, updatedAt := ahora, ultimoError := error)];
      pendientesZ := pendientesZ[id := proximo];
      claims := C.Quitar(claims, id);
      return true;
    }

    /** `diferir_pendientes_por_caida_sfc`. */
    method DiferirLote(regs: seq<C.Item>, error: string, ahora: Instante, proximo: Instante) returns (n: nat)
      requires Valid()
      modifies this
      ensures Valid()
      ensures (Estado(), n) == DiferirTodos(old(Estado()), regs, error, ahora, proximo)
    {
      n := 0;
      for i := 0 to |regs|
        invariant Valid()
        invariant (Estado(), n) == DiferirTodos(old(Estado()), regs[..i], error, ahora, proximo)
      {
        assert regs[..i + 1][..i] == regs[..i];
        var ok := Diferir(regs[i].id, regs[i].version, error, ahora, proximo);
        if ok {
          n := n + 1;
        }
      }
      assert regs[..|regs|] == regs;
    }

    /** `cancelar_pendiente_por_smart_code` with nothing in between its two scripts. */
    method CancelarPendiente(smartCode: string, operacion: Operacion) returns (ok: bool)
      requires Valid()
      modifies this
      ensures Valid()
      ensures ok <==> C.Ocupado(old(Estado()), C.Slot(smartCode, operacion))
      ensures ok ==> var id := old(indice)[C.Slot(smartCode, operacion)];
                     id !in items && id !in pendientes && id !in pendientesZ && id !in creadosZ
                     && C.Slot(smartCode, operacion) !in indice
                     && Estado() == C.Cancelar(old(Estado()), C.Slot(smartCode, operacion), id,
                                               old(items)[id].payloadHash).0
      ensures !ok ==> Estado() == old(Estado())
    {
      var s := C.Slot(smartCode, operacion);
      if s !in indice || indice[s] !in pendientes || indice[s] !in items {
        return false;
      }
      var leido := items[indice[s]];
      assert IdOk(c, Estado(), indice[s]);
      CancelarConserva(c, Estado(), s, leido.id, leido.payloadHash);
      ok := Cancelar(s, leido.id, leido.payloadHash);
    }

    method Cancelar(s: C.Slot, id: nat, hash: int) returns (ok: bool)
      modifies this
      ensures (Estado(), ok) == C.Cancelar(old(Estado()), s, id, hash)
    {
      if s !in indice || indice[s] != id || id !in pendientes || id !in items || items[id].payloadHash != hash {
        return false;
      }
      items := C.Quitar(items, id);
      pendientes := pendientes - {id};
      pendientesZ := C.Quitar(pendientesZ, id);
      creadosZ := C.Quitar(creadosZ, id);
      indice := C.Quitar(indice, s);
      return true;
    }

    /**
     * `obtener_pendientes_para_reintento` with the store at rest: the zset range, the membership check, the GET and
     * the attempts filter together return exactly what a scan of every item would, once each, by due time.
     */
    method ObtenerPendientes(ahora: Instante) returns (res: seq<C.Item>)
      requires Valid()
      ensures forall id :: id in Vencidos(Estado(), ahora) <==> id in items && items[id] in res
      ensures forall it :: it in res <==> it.id in items && items[it.id] == it && it.id in pendientes
                                          && it.proximoReintentoAt <= ahora
      ensures forall it :: it in res ==> it.id in items && items[it.id] == it
      ensures forall i, j :: 0 <= i < j < |res| ==>
                res[i].id != res[j].id && res[i].proximoReintentoAt <= res[j].proximoReintentoAt
    {
      var z := pendientesZ;
      var quedan := set id | id in z && z[id] <= ahora;
      ghost var vistos: set<nat> := {};
      res := [];
      while quedan != {}
        invariant vistos + quedan == set id | id in z && z[id] <= ahora
        invariant vistos !! quedan
        invariant forall id :: id in vistos && id in Vencidos(Estado(), ahora) ==> items[id] in res
        invariant forall it :: it in res ==>
                    it.id in vistos && it.id in Vencidos(Estado(), ahora) && items[it.id] == it
        invariant forall i, j :: 0 <= i < j < |res| ==>
                    res[i].id != res[j].id && res[i].proximoReintentoAt <= res[j].proximoReintentoAt
        invariant forall i, id :: 0 <= i < |res| && id in quedan ==> res[i].proximoReintentoAt <= z[id]
        decreases quedan
      {
        ghost var m := MinimoExiste(z, quedan);
        var id :| id in quedan && forall j :: j in quedan ==> z[id] <= z[j];
        ListableSiiVencido(c, Estado(), id, ahora);
        quedan := quedan - {id};
        vistos := vistos + {id};
        if id in pendientes && id in items && items[id].intentos < items[id].maxIntentos {
          res := res + [items[id]];
        }
      }
      VencidoTienePuntaje(c, Estado(), ahora);
      forall id ensures id in Vencidos(Estado(), ahora) <==> id in items && items[id] in res {
        if id >= 0 { assert IdOk(c, Estado(), id); }
      }
    }

    /** The reading half of `_purgar_estado`: every member of the set, one GET each. */
    method ViejosDe(de: C.Terminal, limite: Instante) returns (aEliminar: set<nat>)
      ensures aEliminar == C.Purgables(Estado(), de, limite)
    {
      var ids := if de.DeExitosos? then exitosos else fallidos;
      aEliminar := {};
      var quedan := ids;
      while quedan != {}
        invariant quedan <= ids
        invariant aEliminar == set id | id in ids - quedan && id in items && items[id].updatedAt <= limite
        decreases quedan
      {
        var id :| id in quedan;
        quedan := quedan - {id};
        if id in items && items[id].updatedAt <= limite {
          aEliminar := aEliminar + {id};
        }
      }
    }

    /**
     * `_purgar_estado` with nothing in between the reading and the MULTI block: exactly the items of that set not
     * touched since `limite` go, with their entries; what stays is as it was.
     */
    method PurgarEstado(de: C.Terminal, limite: Instante) returns (n: nat)
      requires Valid()
      modifies this
      ensures Valid()
      ensures Estado() == C.Purgar(old(Estado()), de, C.Purgables(old(Estado()), de, limite))
      ensures PurgaExacta(old(Estado()), Estado(), de, limite) && n == |old(items)| - |items|
    {
      var aEliminar := ViejosDe(de, limite);
      PurgarConservaSii(c, Estado(), de, aEliminar);
      n := |aEliminar|;
      PurgarEsExacta(c, Estado(), de, limite);
      BorrarTodos(de, aEliminar);
    }

    /** The MULTI block of `_purgar_estado`. */
    method BorrarTodos(de: C.Terminal, ids: set<nat>)
      modifies this
      ensures Estado() == C.Purgar(old(Estado()), de, ids)
    {
      items := map id | id in items && id !in ids :: items[id];
      if de.DeExitosos? {
        exitosos := exitosos - ids;
      } else {
        fallidos := fallidos - ids;
      }
      creadosZ := map id | id in creadosZ && id !in ids :: creadosZ[id];
    }
  }
}
