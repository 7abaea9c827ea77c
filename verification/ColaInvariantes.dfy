/** What every script keeps about the Redis keys, and what each transition does and does not touch. */
module ColaInvariantes {
  import opened Comun
  import opened Clasificacion
  import opened Cola

  // Each part of the invariant speaks of one id, so that a script is checked id by id.

  /** items = pending + succeeded + definitively failed, disjoint, each with a consistent `estado`. */
  predicate Particion(r: Redis, id: nat) {
    && (id in r.items <==> id in r.pendientes || id in r.exitosos || id in r.fallidos)
    && !(id in r.pendientes && id in r.exitosos)
    && !(id in r.pendientes && id in r.fallidos)
    && !(id in r.exitosos && id in r.fallidos)
    && (id in r.creadosZ <==> id in r.items)
    && (id in r.items ==>
          && 1 <= id <= r.contador && r.items[id].id == id
          && (id in r.pendientes <==> r.items[id].estado in {PENDIENTE, PROCESSING, SFC_DONE})
          && (id in r.exitosos <==> r.items[id].estado == EXITOSO)
          && (id in r.fallidos <==> r.items[id].estado == FALLIDO_DEFINITIVO))
  }

  /** Every pending item is what its slot points at. */
  predicate EnSuSlot(r: Redis, id: nat) {
    id in r.pendientes && id in r.items ==>
      r.items[id].Ranura() in r.indice && r.indice[r.items[id].Ranura()] == id
  }

  /** A claimed item that still exists is pending: MARK_SFC_DONE and MARK_SUCCESS rely on it unchecked. */
  predicate ClaimSobrePendiente(r: Redis, id: nat) {
    id in r.claims ==> id <= r.contador && (id in r.items ==> id in r.pendientes)
  }

  /** The due score of a pending id is the item's own next retry. Other ids may linger in the zset. */
  predicate PuntajeFiel(r: Redis, id: nat) {
    id in r.pendientes && id in r.items ==>
      id in r.pendientesZ && r.pendientesZ[id] == r.items[id].proximoReintentoAt
  }

  /** Pending items have attempts left; a definitive failure has used exactly its budget. */
  predicate Presupuesto(r: Redis, id: nat) {
    id in r.items ==>
      && r.items[id].maxIntentos >= 2
      && (id in r.pendientes ==> 0 <= r.items[id].intentos < r.items[id].maxIntentos)
      && (id in r.fallidos ==> r.items[id].intentos == r.items[id].maxIntentos)
  }

  /** Stored hash and operation are those of the stored payload. */
  predicate Fiel(c: Config, it: Item) {
    it.payloadHash == c.hash(it.payload) && it.operacion == c.operacion(it.payload)
  }

  predicate IdOk(c: Config, r: Redis, id: nat) {
    Particion(r, id) && EnSuSlot(r, id) && ClaimSobrePendiente(r, id) && PuntajeFiel(r, id) && Presupuesto(r, id)
    && (id in r.items ==> Fiel(c, r.items[id]))
  }

  /** Every slot points at a pending item of that very slot. */
  predicate SlotOk(r: Redis, s: Slot) {
    s in r.indice ==> r.indice[s] in r.pendientes && r.indice[s] in r.items && r.items[r.indice[s]].Ranura() == s
  }

  ghost predicate Inv(c: Config, r: Redis) {
    (forall id: nat :: IdOk(c, r, id)) && (forall s :: SlotOk(r, s))
  }

  // ---------------------------------------------------------------- preservation

  lemma InicialInv(c: Config)
    ensures Inv(c, VACIO)
  {
  }

  lemma SobrescribirConserva(c: Config, r: Redis, sc: string, p: Queja, e: string, ahora: Instante)
    requires Inv(c, r) && c.maxIntentos >= 2 && Ocupado(r, Slot(sc, c.operacion(p)))
    ensures Inv(c, Encolar(r, ArgsDeEncolar(c, sc, p, e, ahora)).0)
  {
    var a := ArgsDeEncolar(c, sc, p, e, ahora);
    var r' := Encolar(r, a).0;
    assert SlotOk(r, a.Ranura());
    forall id: nat ensures IdOk(c, r', id) { assert IdOk(c, r, id); }
    forall s ensures SlotOk(r', s) { assert SlotOk(r, s); }
  }

  lemma InsertarConserva(c: Config, r: Redis, sc: string, p: Queja, e: string, ahora: Instante)
    requires Inv(c, r) && c.maxIntentos >= 2 && !Ocupado(r, Slot(sc, c.operacion(p)))
    ensures Inv(c, Encolar(r, ArgsDeEncolar(c, sc, p, e, ahora)).0)
  {
    var a := ArgsDeEncolar(c, sc, p, e, ahora);
    var r' := Encolar(r, a).0;
    assert IdOk(c, r, r.contador + 1) && SlotOk(r, a.Ranura());
    forall id: nat ensures IdOk(c, r', id) { assert IdOk(c, r, id); }
    forall s ensures SlotOk(r', s) { assert SlotOk(r, s); }
  }

  lemma EncolarConserva(c: Config, r: Redis, sc: string, p: Queja, e: string, ahora: Instante)
    requires Inv(c, r) && c.maxIntentos >= 2
    ensures Inv(c, Encolar(r, ArgsDeEncolar(c, sc, p, e, ahora)).0)
  {
    if Ocupado(r, Slot(sc, c.operacion(p))) {
      SobrescribirConserva(c, r, sc, p, e, ahora);
    } else {
      InsertarConserva(c, r, sc, p, e, ahora);
    }
  }

  lemma ReclamarConserva(c: Config, r: Redis, id: nat, w: Worker)
    requires Inv(c, r)
    ensures Inv(c, Reclamar(r, id, w).0)
  {
    var r' := Reclamar(r, id, w).0;
    forall j: nat ensures IdOk(c, r', j) { assert IdOk(c, r, j); }
    forall s ensures SlotOk(r', s) { assert SlotOk(r, s); }
  }

  lemma ExpirarConserva(c: Config, r: Redis, id: nat)
    requires Inv(c, r)
    ensures Inv(c, ExpirarClaim(r, id))
  {
    var r' := ExpirarClaim(r, id);
    forall j: nat ensures IdOk(c, r', j) { assert IdOk(c, r, j); }
    forall s ensures SlotOk(r', s) { assert SlotOk(r, s); }
  }

  lemma ExitoConserva(c: Config, r: Redis, id: nat, w: Worker, ver: nat, ahora: Instante)
    requires Inv(c, r)
    ensures Inv(c, MarcarExitoso(r, id, w, ver, ahora).0)
  {
    var r' := MarcarExitoso(r, id, w, ver, ahora).0;
    ExpirarConserva(c, r, id);
    assert IdOk(c, r, id);
    if Cerca(r, id, w, ver).Aplicado? {
      forall j: nat ensures IdOk(c, r', j) { assert IdOk(c, r, j); }
      forall s ensures SlotOk(r', s) { assert SlotOk(r, s); }
    }
  }

  lemma SfcConserva(c: Config, r: Redis, id: nat, w: Worker, ver: nat, clave: ClaveIdem, resp: Option<string>,
                    ahora: Instante)
    requires Inv(c, r)
    ensures Inv(c, MarcarSfcCompletado(r, id, w, ver, clave, resp, ahora).0)
  {
    var r' := MarcarSfcCompletado(r, id, w, ver, clave, resp, ahora).0;
    ExpirarConserva(c, r, id);
    assert IdOk(c, r, id);
    if Cerca(r, id, w, ver).Aplicado? {
      forall j: nat ensures IdOk(c, r', j) { assert IdOk(c, r, j); }
      forall s ensures SlotOk(r', s) { assert SlotOk(r, s); }
    }
  }

  /**
   * A failure keeps the budget exact although "definitive" was decided in Python from the claimed copy and
   * the increment happens in Lua: it needs the copy to agree with the stored item whenever the fence lets the
   * transition through, which is what the protocol's fence invariant gives.
   */
  lemma FalloConserva(c: Config, r: Redis, w: Worker, copia: Item, e: string, consumir: bool, ahora: Instante)
    requires Inv(c, r)
    requires Cerca(r, copia.id, w, copia.version).Aplicado? ==>
               copia.intentos == r.items[copia.id].intentos && copia.maxIntentos == r.items[copia.id].maxIntentos
    ensures Inv(c, RegistrarFallo(r, copia.id, w, copia.version, ArgsDeFallo(c, copia, e, consumir, ahora)).0)
  {
    var a := ArgsDeFallo(c, copia, e, consumir, ahora);
    var id := copia.id;
    var r' := RegistrarFallo(r, id, w, copia.version, a).0;
    ExpirarConserva(c, r, id);
    assert IdOk(c, r, id);
    if Cerca(r, id, w, copia.version).Aplicado? {
      forall j: nat ensures IdOk(c, r', j) { assert IdOk(c, r, j); }
      forall s ensures SlotOk(r', s) { assert SlotOk(r, s); }
    }
  }

  lemma ReencolarConserva(c: Config, r: Redis, id: nat, ahora: Instante)
    requires Inv(c, r)
    ensures Inv(c, Reencolar(r, id, ahora).0)
  {
    var r' := Reencolar(r, id, ahora).0;
    assert IdOk(c, r, id);
    if EstadoReplay(r, id).Reencolado? {
      assert SlotOk(r, r.items[id].Ranura());
      forall j: nat ensures IdOk(c, r', j) { assert IdOk(c, r, j); }
      forall s ensures SlotOk(r', s) { assert SlotOk(r, s); }
    }
  }

  lemma DiferirConserva(c: Config, r: Redis, id: nat, ver: nat, e: string, ahora: Instante, proximo: Instante)
    requires Inv(c, r)
    ensures Inv(c, Diferir(r, id, ver, e, ahora, proximo).0)
  {
    var r' := Diferir(r, id, ver, e, ahora, proximo).0;
    forall j: nat ensures IdOk(c, r', j) { assert IdOk(c, r, j); }
    forall s ensures SlotOk(r', s) { assert SlotOk(r, s); }
  }

  lemma CancelarConserva(c: Config, r: Redis, s: Slot, id: nat, hash: int)
    requires Inv(c, r)
    ensures Inv(c, Cancelar(r, s, id, hash).0)
  {
    var r' := Cancelar(r, s, id, hash).0;
    assert SlotOk(r, s);
    forall j: nat ensures IdOk(c, r', j) { assert IdOk(c, r, j); }
    forall z ensures SlotOk(r', z) { assert SlotOk(r, z); }
  }

  /** Idempotency records are no part of what the queue keeps. */
  lemma SoloRegistrosConserva(c: Config, r: Redis, idem: map<ClaveIdem, Registro>)
    requires Inv(c, r)
    ensures Inv(c, r.(idem := idem))
  {
    var r' := r.(idem := idem);
    forall j: nat ensures IdOk(c, r', j) { assert IdOk(c, r, j); }
    forall z ensures SlotOk(r', z) { assert SlotOk(r, z); }
  }

  /**
   * The purge reads first and deletes later. Executing it is harmless exactly when, at that moment, every id it
   * still finds is in the terminal set it was read from; a replay falling in between breaks that.
   */
  lemma PurgarConservaSii(c: Config, r: Redis, de: Terminal, ids: set<nat>)
    requires Inv(c, r)
    ensures Inv(c, Purgar(r, de, ids))
            <==> forall id :: id in ids && id in r.items ==> id in Conjunto(r, de)
  {
    var r' := Purgar(r, de, ids);
    if forall id :: id in ids && id in r.items ==> id in Conjunto(r, de) {
      forall j: nat ensures IdOk(c, r', j) { assert IdOk(c, r, j); }
      forall s ensures SlotOk(r', s) { assert SlotOk(r, s); assert s in r.indice ==> IdOk(c, r, r.indice[s]); }
    } else {
      var id :| id in ids && id in r.items && id !in Conjunto(r, de);
      assert IdOk(c, r, id);
      assert !IdOk(c, r', id);
    }
  }

  /** The failing family: read the failed set, replay, execute, and a pending obligation is gone. */
  lemma PurgaTrasReplayPierde(c: Config, r: Redis, id: nat, limite: Instante, ahora: Instante)
    requires Inv(c, r) && id in Purgables(r, DeFallidos, limite) && EstadoReplay(r, id).Reencolado?
    ensures var r1 := Reencolar(r, id, ahora).0;
            var r2 := Purgar(r1, DeFallidos, Purgables(r, DeFallidos, limite));
            id in r1.pendientes && id in r1.items && id in r2.pendientes && id !in r2.items && !Inv(c, r2)
  {
    var r1 := Reencolar(r, id, ahora).0;
    var r2 := Purgar(r1, DeFallidos, Purgables(r, DeFallidos, limite));
    assert id in r2.pendientes && id !in r2.items;
    assert !IdOk(c, r2, id);
  }

  // ---------------------------------------------------------------- fence, slot and replay

  /** Who may write: exactly the owner of the claim, on an existing item, at the version it claimed. */
  lemma CercaExacta(r: Redis, id: nat, w: Worker, ver: nat, clave: ClaveIdem, resp: Option<string>, a: ArgsFallo,
                    ahora: Instante)
    ensures var autorizado := id in r.claims && r.claims[id] == w && id in r.items && r.items[id].version == ver;
            && (MarcarExitoso(r, id, w, ver, ahora).1.Aplicado? <==> autorizado)
            && (MarcarSfcCompletado(r, id, w, ver, clave, resp, ahora).1.Aplicado? <==> autorizado)
            && (RegistrarFallo(r, id, w, ver, a).1.Aplicado? <==> autorizado)
            && (!autorizado ==>
                  forall r' :: r' in {MarcarExitoso(r, id, w, ver, ahora).0,
                                      MarcarSfcCompletado(r, id, w, ver, clave, resp, ahora).0,
                                      RegistrarFallo(r, id, w, ver, a).0} ==>
                    r' == r.(claims := r'.claims)
                    && forall j :: j in r.claims && (j != id || r.claims[j] != w) ==>
                         j in r'.claims && r'.claims[j] == r.claims[j])
  {
  }

  /** Success and definitive failure delete an index key without reading it; it is always their own slot. */
  lemma BorradoDeIndiceEsPropio(c: Config, r: Redis, id: nat)
    requires Inv(c, r) && id in r.pendientes && id in r.items
    ensures Quitar(r.indice, r.items[id].Ranura()) == map s | s in r.indice && r.indice[s] != id :: r.indice[s]
  {
    assert IdOk(c, r, id);
    assert forall s :: s in r.indice ==> SlotOk(r, s);
    var m := Quitar(r.indice, r.items[id].Ranura());
    var m' := map s | s in r.indice && r.indice[s] != id :: r.indice[s];
    assert m.Keys == m'.Keys;
  }

  /** Replay is granted exactly to failed items whose slot has no pending item. */
  lemma ReplaySiSlotLibre(c: Config, r: Redis, id: nat, ahora: Instante)
    requires Inv(c, r)
    ensures Reencolar(r, id, ahora).1.Reencolado?
            <==> id in r.fallidos && id in r.items
                 && forall j :: j in r.pendientes && j in r.items ==> r.items[j].Ranura() != r.items[id].Ranura()
  {
    assert IdOk(c, r, id);
    if id in r.items {
      OcupadoSiiPendiente(c, r, r.items[id].Ranura());
    }
  }

  /** A slot is taken exactly when some pending item has it, and it points at that item. */
  lemma OcupadoSiiPendiente(c: Config, r: Redis, s: Slot)
    requires Inv(c, r)
    ensures Ocupado(r, s) <==> exists id :: id in r.pendientes && id in r.items && r.items[id].Ranura() == s
    ensures Ocupado(r, s) <==> s in r.indice
    ensures forall id :: id in r.pendientes && id in r.items && r.items[id].Ranura() == s ==>
              Ocupado(r, s) && r.indice[s] == id
  {
    assert SlotOk(r, s);
    assert forall id :: id in r.pendientes && id in r.items ==> IdOk(c, r, id);
  }

  /**
   * The listing filter `intentos < max_intentos` never strands a fresh item exactly when the maximum is at
   * least two, because items are inserted with one attempt already counted.
   */
  lemma ReciennacidoListableSii(c: Config, r: Redis, sc: string, p: Queja, e: string, ahora: Instante)
    requires !Ocupado(r, Slot(sc, c.operacion(p)))
    ensures var it := Encolar(r, ArgsDeEncolar(c, sc, p, e, ahora)).1;
            it.intentos < it.maxIntentos <==> c.maxIntentos >= 2
  {
  }
}
