/**
 * The contingency queue kept in Redis: its keys as one value, and one function per Lua script.
 *
 * A script runs atomically, so each function below is a whole script: it maps the keys before to the keys
 * after plus the reply. The Python side (hash, inferred operation, attempts, next retry) arrives as arguments,
 * as it does in the source.
 */
module Cola {
  import opened Comun
  import opened Clasificacion

  datatype Estado = PENDIENTE | PROCESSING | SFC_DONE | EXITOSO | FALLIDO_DEFINITIVO

  /** One pending obligation per slot: the suffix of `index:{smart_code}:{operacion}`. */
  datatype Slot = Slot(smartCode: string, operacion: Operacion)

  datatype Item = Item(
    id: nat,
    smartCode: string,
    operacion: Operacion,
    payload: Queja,
    payloadHash: int,
    estado: Estado,
    sfcCompletado: bool,
    sfcResponse: Option<string>,
    intentos: int,
    maxIntentos: int,
    ultimoError: string,
    proximoReintentoAt: Instante,
    createdAt: Instante,
    updatedAt: Instante,
    esDuplicado: bool,
    version: nat)
  {
    function Ranura(): Slot { Slot(smartCode, operacion) }
  }

  /** `{sfc:idempotency}:{smart_code}:{operation}:{payload_hash}` and what may be stored there. */
  datatype ClaveIdem = ClaveIdem(smartCode: string, operacion: Operacion, hash: int)
  datatype Registro = Processing | Queued(itemId: nat) | Completed(resp: Option<string>)

  /** Settings, plus the two payload functions the queue treats as given. */
  datatype Config = Config(
    maxIntentos: int,
    intervalo: int,
    operacion: Queja -> Operacion,
    hash: Queja -> int)

  datatype Redis = Redis(
    items: map<nat, Item>,
    indice: map<Slot, nat>,
    pendientes: set<nat>,
    exitosos: set<nat>,
    fallidos: set<nat>,
    pendientesZ: map<nat, Instante>,
    creadosZ: map<nat, Instante>,
    claims: map<nat, Worker>,
    contador: nat,
    idem: map<ClaveIdem, Registro>)

  const VACIO := Redis(map[], map[], {}, {}, {}, map[], map[], map[], 0, map[])

  function ClaveDe(it: Item): ClaveIdem {
    ClaveIdem(it.smartCode, it.operacion, it.payloadHash)
  }

  function Quitar<K, V>(m: map<K, V>, k: K): map<K, V> {
    map j | j in m && j != k :: m[j]
  }

  // ---------------------------------------------------------------- ENQUEUE

  datatype ArgsEncolar = ArgsEncolar(
    smartCode: string, operacion: Operacion, payload: Queja, payloadHash: int,
    error: string, maxIntentos: int, ahora: Instante, proximo: Instante)
  {
    function Ranura(): Slot { Slot(smartCode, operacion) }
  }

  /** What `encolar_despacho` computes in Python before it runs the script. */
  function ArgsDeEncolar(c: Config, smartCode: string, payload: Queja, error: string, ahora: Instante): ArgsEncolar {
    ArgsEncolar(smartCode, c.operacion(payload), payload, c.hash(payload), error, c.maxIntentos, ahora,
                ahora + c.intervalo)
  }

  /** The slot points at an item that is still pending: the script overwrites it instead of inserting. */
  predicate Ocupado(r: Redis, s: Slot) {
    s in r.indice && r.indice[s] in r.pendientes && r.indice[s] in r.items
  }

  function Sobrescrito(it: Item, a: ArgsEncolar): Item {
    it.(payload := a.payload, payloadHash := a.payloadHash, ultimoError := a.error, updatedAt := a.ahora,
        proximoReintentoAt := a.proximo, esDuplicado := true, version := it.version + 1, estado := PENDIENTE,
        sfcCompletado := false, sfcResponse := None, intentos := 1, operacion := a.operacion)
  }

  function ItemNuevo(id: nat, a: ArgsEncolar): Item {
    Item(id, a.smartCode, a.operacion, a.payload, a.payloadHash, PENDIENTE, false, None, 1, a.maxIntentos,
         a.error, a.proximo, a.ahora, a.ahora, false, 1)
  }

  function Encolar(r: Redis, a: ArgsEncolar): (Redis, Item) {
    if Ocupado(r, a.Ranura()) then
      var id := r.indice[a.Ranura()];
      var it := Sobrescrito(r.items[id], a);
      (r.(items := r.items[id := it], pendientesZ := r.pendientesZ[id := a.proximo]), it)
    else
      var id := r.contador + 1;
      var it := ItemNuevo(id, a);
      (r.(contador := id, items := r.items[id := it], pendientes := r.pendientes + {id},
          pendientesZ := r.pendientesZ[id := a.proximo], creadosZ := r.creadosZ[id := a.ahora],
          indice := r.indice[a.Ranura() := id]), it)
  }

  // ------------------------------------------------------------------ CLAIM

  predicate Reclamable(r: Redis, id: nat) {
    id in r.pendientes && id in r.items && id !in r.claims
  }

  function Reclamar(r: Redis, id: nat, w: Worker): (Redis, Option<Item>) {
    if Reclamable(r, id) then
      var it := r.items[id].(estado := PROCESSING);
      (r.(claims := r.claims[id := w], items := r.items[id := it]), Some(it))
    else
      (r, None)
  }

  function ExpirarClaim(r: Redis, id: nat): Redis {
    r.(claims := Quitar(r.claims, id))
  }

  // ------------------------------------------ transitions fenced by owner and version

  datatype Resultado = Aplicado | NoEsDueno | NoEncontrado | VersionDistinta

  /** The three checks shared by MARK_SUCCESS, MARK_SFC_DONE and REGISTRAR_FALLO, in the scripts' order. */
  function Cerca(r: Redis, id: nat, w: Worker, ver: nat): Resultado {
    if !(id in r.claims && r.claims[id] == w) then NoEsDueno
    else if id !in r.items then NoEncontrado
    else if r.items[id].version != ver then VersionDistinta
    else Aplicado
  }

  /** A rejected transition by the owner still drops the claim. */
  function Rechazar(r: Redis, id: nat, motivo: Resultado): Redis {
    if motivo.NoEsDueno? then r else ExpirarClaim(r, id)
  }

  function MarcarExitoso(r: Redis, id: nat, w: Worker, ver: nat, ahora: Instante): (Redis, Resultado) {
    var res := Cerca(r, id, w, ver);
    if res != Aplicado then (Rechazar(r, id, res), res) else
    var it := r.items[id].(estado := EXITOSO, updatedAt := ahora);
    (r.(items := r.items[id := it], pendientes := r.pendientes - {id}, exitosos := r.exitosos + {id},
        pendientesZ := Quitar(r.pendientesZ, id), claims := Quitar(r.claims, id),
        indice := Quitar(r.indice, it.Ranura())), Aplicado)
  }

  function MarcarSfcCompletado(r: Redis, id: nat, w: Worker, ver: nat, clave: ClaveIdem, resp: Option<string>,
                               ahora: Instante): (Redis, Resultado)
  {
    var res := Cerca(r, id, w, ver);
    if res != Aplicado then (Rechazar(r, id, res), res) else
    var viejo := r.items[id];
    var it := viejo.(sfcCompletado := true, estado := SFC_DONE, updatedAt := ahora,
                     sfcResponse := if resp.Some? then resp else viejo.sfcResponse);
    (r.(items := r.items[id := it], idem := r.idem[clave := Completed(resp)]), Aplicado)
  }

  datatype ArgsFallo = ArgsFallo(error: string, ahora: Instante, definitivo: bool, consumir: bool, proximo: Instante)

  /** `registrar_fallo`: attempts, definitiveness and wait are computed in Python from the claimed copy. */
  function ArgsDeFallo(c: Config, copia: Item, error: string, consumir: bool, ahora: Instante): ArgsFallo {
    if consumir then
      var despues := copia.intentos + 1;
      var maximo := if copia.maxIntentos == 0 then c.maxIntentos else copia.maxIntentos;
      ArgsFallo(error, ahora, despues >= maximo, true, ahora + c.intervalo * despues)
    else
      ArgsFallo(error, ahora, false, false, ahora + c.intervalo)
  }

  function Fallado(it: Item, a: ArgsFallo): Item {
    var base := it.(intentos := if a.consumir then it.intentos + 1 else it.intentos,
                    ultimoError := a.error, updatedAt := a.ahora);
    if a.definitivo then base.(estado := FALLIDO_DEFINITIVO)
    else base.(estado := PENDIENTE, proximoReintentoAt := a.proximo)
  }

  function RegistrarFallo(r: Redis, id: nat, w: Worker, ver: nat, a: ArgsFallo): (Redis, Resultado) {
    var res := Cerca(r, id, w, ver);
    if res != Aplicado then (Rechazar(r, id, res), res) else
    var it := Fallado(r.items[id], a);
    var r1 := r.(items := r.items[id := it], claims := Quitar(r.claims, id));
    if a.definitivo then
      (r1.(pendientes := r.pendientes - {id}, fallidos := r.fallidos + {id},
           pendientesZ := Quitar(r.pendientesZ, id), indice := Quitar(r.indice, it.Ranura())), Aplicado)
    else
      (r1.(pendientesZ := r.pendientesZ[id := a.proximo]), Aplicado)
  }

  // ----------------------------------------------------- REPLAY, DIFERIR, CANCELAR, purge

  datatype ResReplay = Reencolado(version: nat) | SinItem | NoFallido(estado: Estado) | SlotTomado(activo: nat)

  function EstadoReplay(r: Redis, id: nat): ResReplay {
    if id !in r.items then SinItem
    else if r.items[id].estado != FALLIDO_DEFINITIVO then NoFallido(r.items[id].estado)
    else
      var s := r.items[id].Ranura();
      if s in r.indice && r.indice[s] != id then SlotTomado(r.indice[s]) else Reencolado(r.items[id].version + 1)
  }

  function Reencolar(r: Redis, id: nat, ahora: Instante): (Redis, ResReplay) {
    var res := EstadoReplay(r, id);
    if !res.Reencolado? then (r, res) else
    var it := r.items[id].(estado := PENDIENTE, intentos := 0, proximoReintentoAt := ahora, updatedAt := ahora,
                           version := res.version);
    (r.(items := r.items[id := it], fallidos := r.fallidos - {id}, pendientes := r.pendientes + {id},
        pendientesZ := r.pendientesZ[id := ahora], indice := r.indice[it.Ranura() := id]), res)
  }

  /** DIFERIR checks the version only: neither the owner of the claim nor membership in the pending set. */
  function Diferir(r: Redis, id: nat, ver: nat, error: string, ahora: Instante, proximo: Instante): (Redis, bool) {
    if id !in r.items || r.items[id].version != ver then (r, false) else
    var it := r.items[id].(proximoReintentoAt := proximo, updatedAt := ahora, ultimoError := error);
    (r.(items := r.items[id := it], pendientesZ := r.pendientesZ[id := proximo], claims := Quitar(r.claims, id)),
     true)
  }

  function LeerPendiente(r: Redis, s: Slot): Option<Item> {
    if Ocupado(r, s) then Some(r.items[r.indice[s]]) else None
  }

  function Cancelar(r: Redis, s: Slot, id: nat, hash: int): (Redis, bool) {
    if Ocupado(r, s) && r.indice[s] == id && r.items[id].payloadHash == hash then
      (r.(items := Quitar(r.items, id), pendientes := r.pendientes - {id}, pendientesZ := Quitar(r.pendientesZ, id),
          creadosZ := Quitar(r.creadosZ, id), indice := Quitar(r.indice, s)), true)
    else (r, false)
  }

  /** The terminal set `_purgar_estado` works on. */
  datatype Terminal = DeExitosos | DeFallidos

  function Conjunto(r: Redis, de: Terminal): set<nat> {
    match de case DeExitosos => r.exitosos case DeFallidos => r.fallidos
  }

  /** First half of `_purgar_estado`: the ids read as old enough. */
  function Purgables(r: Redis, de: Terminal, limite: Instante): set<nat> {
    set id | id in Conjunto(r, de) && id in r.items && r.items[id].updatedAt <= limite
  }

  /** Second half: the MULTI/EXEC block deletes the ids read before, without looking again. */
  function Purgar(r: Redis, de: Terminal, ids: set<nat>): Redis {
    r.(items := map id | id in r.items && id !in ids :: r.items[id],
       exitosos := if de.DeExitosos? then r.exitosos - ids else r.exitosos,
       fallidos := if de.DeFallidos? then r.fallidos - ids else r.fallidos,
       creadosZ := map id | id in r.creadosZ && id !in ids :: r.creadosZ[id])
  }
}
