/** What the enqueue and replay scripts do, told of one id at a time, and why a replay is refused. */
module Efectos {
  import opened Comun
  import opened Clasificacion
  import opened Cola
  import opened ColaInvariantes

  /** Everything kept about this id is as it was. */
  predicate MismoId(r: Redis, r': Redis, j: nat) {
    && (j in r'.items <==> j in r.items) && (j in r.items ==> r'.items[j] == r.items[j])
    && (j in r'.pendientes <==> j in r.pendientes) && (j in r'.exitosos <==> j in r.exitosos)
    && (j in r'.fallidos <==> j in r.fallidos)
    && (j in r'.claims <==> j in r.claims) && (j in r.claims ==> r'.claims[j] == r.claims[j])
    && (j in r'.pendientesZ <==> j in r.pendientesZ) && (j in r.pendientesZ ==> r'.pendientesZ[j] == r.pendientesZ[j])
    && (j in r'.creadosZ <==> j in r.creadosZ) && (j in r.creadosZ ==> r'.creadosZ[j] == r.creadosZ[j])
  }

  /** A content just accepted: unsent, one attempt counted, due after one interval, with this error. */
  predicate RecienAceptado(c: Config, it: Item, sc: string, payload: Queja, error: string, ahora: Instante) {
    && it.smartCode == sc && it.payload == payload && it.payloadHash == c.hash(payload)
    && it.operacion == c.operacion(payload) && it.estado == PENDIENTE && !it.sfcCompletado && it.sfcResponse.None?
    && it.intentos == 1 && it.ultimoError == error && it.updatedAt == ahora
    && it.proximoReintentoAt == ahora + c.intervalo
  }

  /**
   * An enqueue touches one id only: the pending item of the slot, which keeps its id, its age, its budget and any
   * claim on it and moves to the next version; or, if there is none, an id never used before.
   */
  lemma EncolarToca(c: Config, r: Redis, sc: string, payload: Queja, error: string, ahora: Instante, j: nat)
    requires Inv(c, r)
    ensures var (r', it) := Encolar(r, ArgsDeEncolar(c, sc, payload, error, ahora));
            var s := Slot(sc, c.operacion(payload));
            && it.id in r'.items && r'.items[it.id] == it && RecienAceptado(c, it, sc, payload, error, ahora)
            && it.id in r'.pendientes && it.id in r'.pendientesZ && r'.pendientesZ[it.id] == it.proximoReintentoAt
            && s in r'.indice && r'.indice[s] == it.id && (forall t :: t != s ==> MismoSlot(r, r', t))
            && r'.claims == r.claims && r'.idem == r.idem
            && (j != it.id ==> MismoId(r, r', j))
            && (it.id in r.items ==>
                  && it.id in r.pendientes && r.items[it.id].Ranura() == s && it.esDuplicado
                  && it.version == r.items[it.id].version + 1 && it.maxIntentos == r.items[it.id].maxIntentos
                  && it.createdAt == r.items[it.id].createdAt && r'.creadosZ == r.creadosZ
                  && r'.contador == r.contador)
            && (it.id !in r.items ==>
                  && !(j in r.pendientes && j in r.items && r.items[j].Ranura() == s) && !it.esDuplicado
                  && it.id == r'.contador == r.contador + 1 && it.version == 1 && it.maxIntentos == c.maxIntentos
                  && it.createdAt == ahora && r'.creadosZ == r.creadosZ[it.id := ahora])
  {
    var s := Slot(sc, c.operacion(payload));
    assert SlotOk(r, s) && IdOk(c, r, j) && IdOk(c, r, r.contador + 1);
    assert Ocupado(r, s) ==> IdOk(c, r, r.indice[s]);
  }

  predicate MismoSlot(r: Redis, r': Redis, t: Slot) {
    (t in r'.indice <==> t in r.indice) && (t in r.indice ==> r'.indice[t] == r.indice[t])
  }

  /** The reply of a replay, and what it leaves. */
  predicate ReplayDa(r: Redis, r': Redis, res: ResReplay, id: nat, ahora: Instante) {
    match res
    case SinItem => id !in r.items && r' == r
    case NoFallido(estado) => id in r.items && id !in r.fallidos && r.items[id].estado == estado && r' == r
    case SlotTomado(otro) =>
      && id in r.items && id in r.fallidos && otro != id && otro in r.pendientes && otro in r.items
      && r.items[otro].Ranura() == r.items[id].Ranura() && r' == r
    case Reencolado(version) =>
      && id in r.items && id in r.fallidos && id in r'.items && id in r'.pendientes && id !in r'.fallidos
      && version == r.items[id].version + 1 && id in r'.pendientesZ && r'.pendientesZ[id] == ahora
      && r'.items[id] == r.items[id].(estado := PENDIENTE, intentos := 0, proximoReintentoAt := ahora,
                                      updatedAt := ahora, version := version)
      && r'.indice == r.indice[r.items[id].Ranura() := id] && r.items[id].Ranura() !in r.indice
      && r'.claims == r.claims && r'.idem == r.idem && r'.creadosZ == r.creadosZ && r'.exitosos == r.exitosos
  }

  /**
   * A replay answers why it was refused (no such item, not a failed one, or another pending item has its slot); a
   * granted one makes the item due at once with a fresh budget, and what was sent of it stays marked as sent.
   */
  lemma ReplayToca(c: Config, r: Redis, id: nat, ahora: Instante, j: nat)
    requires Inv(c, r)
    ensures var (r', res) := Reencolar(r, id, ahora);
            ReplayDa(r, r', res, id, ahora) && (j != id ==> MismoId(r, r', j))
  {
    assert IdOk(c, r, id) && IdOk(c, r, j);
    if id in r.items {
      assert SlotOk(r, r.items[id].Ranura());
    }
  }
}
