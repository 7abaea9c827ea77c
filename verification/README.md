# Contingency dispatch between the CRM and the SFC: verified model

The service sends complaints from a Salesforce CRM to the Colombian financial supervisor (the SFC). When the SFC does
not answer, the complaint waits in a queue kept in Redis and a scheduler retries it. This project models that
contingency protocol in Dafny and proves what it keeps over every run, together with the smaller cores around it.

Run `dafny verify dfyconfig.toml` in this directory.

## What is modelled

- **The queue** (`Cola`, `ColaInvariantes`, `AlmacenCola`). The Redis keys are one value; each Lua script is one
  function from the keys before to the keys after and the reply. `AlmacenCola.QueueStore` is the object with those keys
  as fields: one method per script or Python loop, writing them in the script's order, each proved equal to its
  function and keeping the store invariant.
- **The protocol** (`Protocolo*`, `Obligaciones`, `Exclusion`). Worker sessions, synchronous requests, the admin
  replay, the purge and the expiry of any lease or record interleave freely, one atomic Redis call or one external
  answer at a time; any process may crash at any point. The world carries its own history: a ledger with one ticket per
  accepted enqueue and the log of what was sent, accepted, marked and confirmed. Theorems speak of every state of every
  run from the empty store.
- **Where a documented property fails, its exact condition** (`Reenvio`, `Completado`, `Vigencia`, `Cancelacion`, again
  over every run), the states where it fails (`Limites`) and runs from the empty store that get there (`Testigos`,
  `Contraejemplos`, built with `Avance`).
- **The code around it, run without interference** (`Despacho`, `Trabajador`, `CicloReintentos`). The synchronous
  endpoint with its flag and `finally`, the worker's two steps on a claimed item, and the batch loop that takes each
  listed item through them under its own lock, with its three-failure cut. Their contracts tell call by call what was
  sent, what was answered and what is left, from the stored keys and the external answers alone; `Refinamiento` proves
  that each, run alone from any state of any run, is a run of the protocol, and `Efectos` tells the enqueue and replay
  scripts id by id.
- **The lease lock** (`DistributedLock`), **401 recovery over several nodes** (`Tokens`, `TokensNodo`), **attachments
  with a per-file checkpoint** (`Adjuntos`, `Identidades`), **retry budget and backoff** (`Backoff`), **the bounded mail-dedup cache**
  (`DedupCorreo`), **validation and classification** (`Validacion`, `Clasificacion`, `Requisitos`) and **key names**
  (`Claves`).

Calls to the SFC, the CRM and S3 are answers chosen from outside plus an entry in the log. Clocks, uuids and the
payload hash are parameters; the hash is an uninterpreted function of the payload.

## Assumptions the code needs

- `QUEUE_MAX_RETRIES >= 2`: inserts start with one attempt counted (`ReciennacidoListableSii` shows it is needed).
- A worker id is fresh per cycle and lists each item once, so a session claims once.
- The purge executes with no replay between its reading and its MULTI block (`PurgarConservaSii` gives the exact
  condition, `PurgaTrasReplayPierde` what happens otherwise).
- For one dispatch per case: a live holder's lease does not lapse (`Testigos.SinArriendoSeSolapan` shows it is needed).
- For tokens over several nodes: issued tokens are globally fresh and Redis calls succeed.
- For attachments accepted at most once: every post the SFC takes gets its checkpoint mark through
  (`Adjuntos.ReintentosSii` gives the exact condition, `MarcaPerdidaDuplica` what happens otherwise). The code swallows
  the error of a mark that fails and leaves the rest to the SFC's own detection of duplicates.

## Where the code and its own documentation part

- FLUJO_MOMENTOS.md:121-123 says an already queued operation is answered without touching it. Whether it is depends on
  the item's `estado`, and that is PENDIENTE exactly while no session has claimed the item since it last became so, by
  an enqueue, a replay or an applied failure that is not the last (`Vigencia.PendienteSii`, `Vigencia.YaEncoladoSii`).
  Neither waiting nor being claimed decides it: an item whose claim expired is pending, unclaimed and taken for stale
  (`Contraejemplos.PendienteSinReclamarEsHuerfana`), and one renewed under a live claim is claimed and answered "already
  queued" (`Contraejemplos.ReclamadaYYaEncolada`).
- The same lines say a successful operation is answered without going to the SFC again, and a worker skips the SFC for
  content already done. With nothing expiring, purged or replayed, one content still goes to the SFC twice: a copy may
  arrive before SFC_DONE, which is then rejected (`Limites.CopiaDuranteEnvioSeReenvia`), or delete the COMPLETED record
  after it and enqueue the content anew (`Contraejemplos.CopiaReenviaTrasHecho`). Per ticket no session resends
  (`ProtocoloTeoremas.NadieReenvia`). Per content, a session still to come can send it exactly while some pending item
  holds it unmarked (`Reenvio.ReenviableSii`), and after its SFC_DONE only an enqueue of equal content or the replay of an
  item that holds it makes that so (`Reenvio.ReenvioPideCopiaOReplay`; `Contraejemplos.ReplayReenviaTrasHecho` is a run
  with the replay). Such a copy passed verification before SFC_DONE, or the COMPLETED record was dropped in between
  (`Completado.CopiaTrasHechoPide`), which six steps do and no other (`Completado.CompletadoSigueSii`).
- FLUJO_MOMENTOS.md:188 says the newest content always arrives. A synchronous success cancels what it read as waiting in
  its slot if it is still there unchanged, no matter when it arrived (`Cancelacion.CancelaSii`);
  `Contraejemplos.CancelaLoMasNuevo` is a run where content enqueued after the request left is cancelled unsent.
- A definitive failure after SFC_DONE deletes the record of an accepted content, and the same request then goes to the
  SFC again (`Contraejemplos.OlvidaLoAceptado`).
- FLUJO_MOMENTOS.md:166 still speaks of one slot per smart code; the code, and the model, have one per smart code and
  operation.
- `infer_operation_type` and the orchestrator disagree on a raw dictionary without `admision_col__c`; the schema never
  yields one (`Clasificacion.OperacionNombraPipeline`, `Validacion.ValidadaConcuerda`).

## Model

| member | source | states |
|---|---|---|
| `AlmacenCola.QueueStore.EncolarDespacho` | app/services/queue_service.py:838-944 | accepted content goes to its slot's pending item or to a new one; tells which, and how many were pending; store invariant kept |
| `AlmacenCola.QueueStore.Encolar` | app/services/queue_service.py:38-181 | the script's key writes are exactly the specified overwrite or insert |
| `AlmacenCola.QueueStore.Reclamar` | app/services/queue_service.py:183-234 | one claim per item, granted with the stored content, only on pending existing items |
| `AlmacenCola.QueueStore.VerificarCerca` | app/services/queue_service.py:253-276 | owner, existence, version in that order; a rejected owner loses its claim and nothing else changes |
| `AlmacenCola.QueueStore.MarcarExitoso` | app/services/queue_service.py:236-307 | fenced move to EXITOSO, own slot freed, invariant kept |
| `AlmacenCola.QueueStore.MarcarSfcCompletado` | app/services/queue_service.py:309-374 | SFC_DONE and the COMPLETED record in one step, or neither |
| `AlmacenCola.QueueStore.RegistrarFallo` | app/services/queue_service.py:1243-1359 | attempts, definitiveness and wait decided from the claimed copy keep the stored budget exact |
| `AlmacenCola.QueueStore.AplicarFallo` | app/services/queue_service.py:376-458 | the script's writes for a definitive and a retryable failure |
| `AlmacenCola.QueueStore.ReencolarFallido` | app/services/queue_service.py:1361-1437 | replay keeps the store invariant and answers why it was refused |
| `AlmacenCola.QueueStore.Reencolar` | app/services/queue_service.py:476-532 | the replay script's writes and its three refusals |
| `AlmacenCola.QueueStore.Diferir` | app/services/queue_service.py:557-589 | deferral fenced by version only |
| `AlmacenCola.QueueStore.DiferirLote` | app/services/queue_service.py:1561-1604 | deferring a list is deferring its records one after another, and counts those applied |
| `AlmacenCola.QueueStore.CancelarPendiente` | app/services/queue_service.py:1606-1676 | with nothing in between, cancels exactly the slot's pending item if there is one |
| `AlmacenCola.QueueStore.Cancelar` | app/services/queue_service.py:651-693 | removes the item only if id, pending state and hash still match |
| `AlmacenCola.QueueStore.ObtenerPendientes` | app/services/queue_service.py:1150-1178 | the zset range, membership test, GET and attempts filter return exactly the pending items whose own next retry has come, once each, by due time |
| `AlmacenCola.QueueStore.PurgarEstado` | app/services/queue_service.py:1488-1529 | deletes exactly the items of that terminal set not touched since the limit, with their entries, counts them, and leaves the rest as it was |
| `AlmacenCola.PurgarEsExacta` | app/services/queue_service.py:1510-1527 | item by item: it goes exactly if it is in that set and its last update is not after the limit; the count is how many items are gone |
| `AlmacenCola.DiferirNoConsume` | app/services/queue_service.py:557-589 | deferral touches exactly the items still at their listed version; attempts, content, version, sets, slots and records stay |
| `AlmacenCola.DiferirTodosConserva` | app/services/queue_service.py:1561-1604 | deferring any list keeps the store invariant |
| `AlmacenCola.DiferirCuenta` | app/services/queue_service.py:1561-1604 | the count a deferral reports is that of the records still at their listed version |
| `AlmacenCola.ListableSiiVencido` | app/services/queue_service.py:1166-1176 | for a due score, the listing's tests hold exactly of the items a full scan calls due |
| `AlmacenCola.VencidoTienePuntaje` | app/services/queue_service.py:1161-1162 | every item due by its own stored time has a due score in the zset |
| `ColaInvariantes.EncolarConserva` | app/services/queue_service.py:38-181 | enqueue keeps partition, slots, scores, budget and faithful hashes |
| `ColaInvariantes.ReclamarConserva` | app/services/queue_service.py:183-234 | claim keeps the store invariant |
| `ColaInvariantes.ExitoConserva` | app/services/queue_service.py:236-307 | success keeps it for any caller |
| `ColaInvariantes.SfcConserva` | app/services/queue_service.py:309-374 | SFC_DONE keeps it for any caller |
| `ColaInvariantes.FalloConserva` | app/services/queue_service.py:1286-1296 | failure keeps it whenever the copy agrees with the stored item where the fence lets it through |
| `ColaInvariantes.ReencolarConserva` | app/services/queue_service.py:476-532 | replay keeps it: never a second pending item in a slot |
| `ColaInvariantes.DiferirConserva` | app/services/queue_service.py:557-589 | deferral keeps it although it checks neither owner nor membership |
| `ColaInvariantes.CancelarConserva` | app/services/queue_service.py:651-693 | cancellation keeps it although it leaves the claim behind |
| `ColaInvariantes.PurgarConservaSii` | app/services/queue_service.py:1518-1527 | executing a purge is harmless if and only if every id it still finds is in the terminal set it was read from |
| `ColaInvariantes.PurgaTrasReplayPierde` | app/services/queue_service.py:1488-1529 | a replay between reading and MULTI loses a pending obligation; `Contraejemplos.PurgaPierdeLoReencolado` reaches such a state |
| `ColaInvariantes.CercaExacta` | app/services/queue_service.py:253-276 | success, SFC_DONE and failure apply exactly for the claim's owner at the stored version; otherwise only its own claim may go |
| `ColaInvariantes.BorradoDeIndiceEsPropio` | app/services/queue_service.py:287-304 | the unconditional index DEL frees exactly the item's own slot |
| `ColaInvariantes.ReplaySiSlotLibre` | app/services/queue_service.py:499-514 | replay is granted exactly to failed items whose slot has no pending item |
| `ColaInvariantes.OcupadoSiiPendiente` | app/services/queue_service.py:59-66 | a slot is taken exactly when some pending item has it, and it points at that item |
| `ColaInvariantes.ReciennacidoListableSii` | app/services/queue_service.py:145-166 | a fresh item passes the listing filter exactly when the configured maximum is at least two |
| `Efectos.EncolarToca` | app/services/queue_service.py:59-179 | an enqueue touches one id: the slot's pending item, which keeps id, age, budget and claim and moves to the next version, or a never used one; due, error and content are the new ones |
| `Efectos.ReplayToca` | app/services/queue_service.py:484-530 | why a replay is refused (no item, not failed, slot taken by which pending item); a granted one is due at once with a fresh budget and its sent mark kept |
| `ProtocoloTransiciones.PasoConserva` | app/services/queue_service.py:38-693 | every enabled step of any process keeps the protocol invariant and every item's lineage |
| `ProtocoloTransiciones.DuenoConoce` | app/services/queue_service.py:1259-1265 | an owner whose version matches is looking at the stored attempts, content, hash and ticket |
| `ProtocoloTeoremas.CorridaConserva` | app/services/queue_service.py:38-693 | the protocol invariant holds in every state of every run |
| `ProtocoloTeoremas.EstadosParticionan` | app/services/queue_service.py:1456-1471 | in every state the three status sets partition the items and agree with `estado`; claimed and existing implies pending |
| `ProtocoloTeoremas.SlotsBiyectivos` | app/services/queue_service.py:59-66 | in every state the index is a bijection between slots and pending items |
| `ProtocoloTeoremas.PresupuestoExacto` | app/services/queue_service.py:417-455 | in every state pending items have attempts left and failed ones used exactly their maximum |
| `ProtocoloTeoremas.MedidaDeFallos` | app/services/queue_service.py:417-419 | remaining attempts drop by one exactly with a consuming failure the fence lets through |
| `ProtocoloTeoremas.VersionDeterminaContenido` | app/services/queue_service.py:98-132 | across any two states of a run, id and version determine payload and hash; ids are not reused and slots never move |
| `ProtocoloTeoremas.DuenoVeLoVigente` | app/services/queue_service.py:1259-1265 | owner plus version match gives the claim-time snapshot, in every state |
| `ProtocoloTeoremas.RezagadoNoEscribe` | app/services/queue_service.py:253-276 | a session that lost its lease or was overwritten changes nothing but its own stale claim |
| `ProtocoloTeoremas.NuncaMarcadoSinEnviar` | app/services/queue_service.py:341-360 | the content stored now under `sfc_completado` was sent by a session and accepted by the SFC |
| `ProtocoloTeoremas.NadieReenvia` | app/workers/scheduler.py:245-262 | no session that claims a ticket after the SFC_DONE of that ticket calls the SFC; equal content under another ticket is the matter of `Reenvio` |
| `ProtocoloTeoremas.OrdenDeCompromiso` | app/workers/scheduler.py:526-534 | behind every EXITOSO stand, in order, acceptance, SFC_DONE, CRM confirmation and success of its very content |
| `ProtocoloTeoremas.EscrituraConjunta` | app/services/queue_service.py:349-372 | `sfc_completado` turns true only in the step that writes COMPLETED under the stored content's own key |
| `ProtocoloTeoremas.RegistrosVeraces` | app/services/queue_service.py:861-866 | stored hash and operation are those of the stored payload; COMPLETED was accepted |
| `ProtocoloTeoremas.AceptadaTieneOrigen` | app/services/idempotency_service.py:139-182 | a key counts as accepted only after a call carrying that content came back accepted |
| `ProtocoloTeoremas.YaEncoladoEsVerdad` | app/services/idempotency_service.py:326-350 | an "already queued" answer is true: the slot's pending item holds content with the request's hash |
| `Reenvio.ReenvioPideCopiaOReplay` | app/workers/scheduler.py:245-262 | over every run, if a session claims a content after its SFC_DONE and still sends it, some step in between enqueued that content again or replayed an item that holds it |
| `Reenvio.ExpuestoTrasHecho` | app/services/queue_service.py:341-372 | after its SFC_DONE a content is pending and unmarked only if such a step came |
| `Reenvio.ReenviableSii` | app/workers/scheduler.py:245-262 | from any state of any run, some continuation without such steps has a session claim and send a content if and only if a pending item holds it unmarked |
| `Completado.CompletadoSigueSii` | app/services/idempotency_service.py:573-637 | a step loses a COMPLETED record if and only if it is its expiry, a QUEUED write of a request or a replay over it, the release after a definitive failure or an error, or the deletion of a record taken for stale |
| `Completado.CompletadoDuraSii` | app/services/idempotency_service.py:421-447 | over every run the record is there throughout if and only if no such step comes |
| `Completado.CopiaTrasHechoPide` | app/services/idempotency_service.py:421-447 | an equal copy enqueued after SFC_DONE had passed verification before it, or the COMPLETED record was dropped in between |
| `Vigencia.PendienteSii` | app/services/queue_service.py:183-234 | over every run a pending item is in `estado` PENDIENTE if and only if nobody has claimed it since it last went back to waiting |
| `Vigencia.YaEncoladoSii` | app/services/idempotency_service.py:558-603 | over every run a request with a QUEUED record is answered "already queued" if and only if the item it names is pending with content of its hash and nobody has claimed it since it last went back to waiting |
| `Cancelacion.CancelaSii` | app/services/queue_service.py:1606-1676 | over every run, with anything in between, the cancellation removes an item if and only if it is the slot's pending one and the request had read it there with the hash it still has |
| `Obligaciones.ExactamenteUnaSuerte` | app/services/queue_service.py:38-693 | in every state every accepted content has exactly one of six fates |
| `Obligaciones.SoloCausasLegales` | app/services/queue_service.py:38-693 | a ticket leaves its item only by an enqueue in its slot, an accepted dispatch of its slot, or retention of its terminal set |
| `Obligaciones.FinalDefinitivo` | app/services/queue_service.py:98-140 | ticket contents never change and an end is final |
| `Obligaciones.Conservacion` | app/services/queue_service.py:1488-1529 | accepted contents = pending + succeeded + failed + superseded + cancelled + purged |
| `Refinamiento.DespachoEsCorrida` | app/api/routes_quejas.py:336-548 | from any state of any run, the protocol steps of one request lead to exactly the store the endpoint leaves for that lock and those answers, everybody else as they were |
| `Refinamiento.RespondidaEsCorrida` | app/services/idempotency_service.py:290-345 | and a request somebody answers for ends with the store untouched |
| `Refinamiento.TurnoEsCorrida` | app/workers/scheduler.py:496-611 | the protocol steps of a new session lead to exactly the store the worker's turn leaves, for every combination of answers |
| `Exclusion.UnDespachoPorCaso` | app/workers/scheduler.py:575-611 | with renewed leases no two calls to the SFC for one smart code overlap, sync or worker |
| `Exclusion.LockAjenoIntacto` | app/core/distributed_lock.py:17-31 | with no lease assumption no step of anybody deletes or takes over another's lock |
| `Testigos.SinArriendoSeSolapan` | app/api/routes_quejas.py:399-438 | a run for any code and payload: if a live holder's lease lapses, two dispatches of a case overlap |
| `Testigos.LlegaLaCopia` | app/services/idempotency_service.py:573-578 | from the empty store, with nothing expiring, a run reaches the states of `CopiaDuranteEnvioSeReenvia` |
| `Testigos.LlegaAlExito` | app/workers/scheduler.py:496-534 | a run for any content from the empty store to EXITOSO |
| `Contraejemplos.CopiaReenviaTrasHecho` | app/services/idempotency_service.py:573-578 | with nothing expiring, purged or replayed, a run where a content is done, claimed under a copy's ticket and sent again |
| `Contraejemplos.ReplayReenviaTrasHecho` | app/services/queue_service.py:476-532 | a run where the replay of an older failed item sends again a content that was done |
| `Contraejemplos.PendienteSinReclamarEsHuerfana` | app/services/idempotency_service.py:558-603 | a run where the item is pending, unclaimed and holds the very content, and its QUEUED record is taken for stale |
| `Contraejemplos.ReclamadaYYaEncolada` | app/services/idempotency_service.py:558-603 | a run where the item has a live claim and "already queued" is answered |
| `Contraejemplos.CancelaLoMasNuevo` | app/api/routes_quejas.py:494-497 | a run where content enqueued after the request left is cancelled by its success, never sent |
| `Contraejemplos.OlvidaLoAceptado` | app/services/queue_service.py:1350-1353 | a run through every attempt: the last failure after SFC_DONE forgets the content, and its copy is in flight to the SFC again |
| `Contraejemplos.PurgaPierdeLoReencolado` | app/services/queue_service.py:1488-1529 | a run after which executing the purge read before the replay deletes a pending item |
| `Limites.CopiaDuranteEnvioSeReenvia` | app/services/idempotency_service.py:573-578 | an identical copy arriving between acceptance and SFC_DONE leaves the accepted content pending and unmarked |
| `Limites.FalloDefinitivoOlvida` | app/services/queue_service.py:1350-1353 | a definitive failure after SFC_DONE deletes the record, so the same request counts as new |
| `Limites.CancelaLoQueHaya` | app/api/routes_quejas.py:494-497 | read and cancelled with nothing in between, an item survives if and only if it is not pending in the request's slot, however new its content |
| `Despacho.IdempotencyService.VerificarOIniciar` | app/services/idempotency_service.py:421-447 | COMPLETED, PROCESSING and QUEUED still waiting with this content are answered and nothing changes; exactly otherwise PROCESSING is written, over a stale QUEUED record too |
| `Despacho.VeredictoPorRegistro` | app/services/idempotency_service.py:290-390 | each verdict for exactly what is stored under the key, and the same as the protocol's verification |
| `Despacho.DespachoQueja.EncolarPorContingencia` | app/api/routes_quejas.py:210-306 | 202 exactly when item and QUEUED record were both written; the slot then holds the content, unsent |
| `Despacho.DespachoQueja.Despachar` | app/api/routes_quejas.py:336-548 | from the record, the lock and the SFC's answer: whether the SFC is called, which reply comes, and for each reply what record, slot and every other item are left |
| `Despacho.DespachoDeja` | app/api/routes_quejas.py:395-548 | the scripts of a request leave what its reply tells: other records never touched, a 200 only its slot's item cancelled, an error without enqueue nothing else |
| `Despacho.EncolarDeja` | app/services/queue_service.py:59-179 | after enqueue the slot holds the content with a fresh budget, and tells whether it was taken |
| `Trabajador.RetryWorker.Fallar` | app/services/queue_service.py:1286-1353 | an applied consuming failure adds one attempt; the last one ends the item and frees its record |
| `Trabajador.RetryWorker.PasoSfc` | app/workers/scheduler.py:233-350 | the SFC is skipped for a done content; step 2 follows only on durable SFC_DONE |
| `Trabajador.RetryWorker.PasoCrm` | app/workers/scheduler.py:386-473 | webhook infrastructure failures consume nothing; a confirmed item with its write through is EXITOSO |
| `Trabajador.RetryWorker.ProcesarItemReclamado` | app/workers/scheduler.py:496-547 | which external calls are made, and where the item ends for every combination of answers |
| `Trabajador.RetryWorker.ReclamarYProcesar` | app/workers/scheduler.py:550-611 | nothing exactly when lock or claim are not free; otherwise the stored item goes through both steps: the calls made, success, failure and infrastructure failure, where the item and its record end, from the answers alone; the lock is given back |
| `CicloReintentos.ReintentarPendientes` | app/workers/scheduler.py:682-708 | every visited item is that turn on the store and locks the earlier ones left, with its own answers; the batch is cut exactly at the first third infrastructure failure in a row and everything behind it deferred; what was dispatched is in EXITOSO at the end |
| `CicloReintentos.CaidaCorta` | app/workers/scheduler.py:696-708 | with the SFC down and the first three items of different cases free and unsent, the third visit is the cut; each was sent once and the CRM never called |
| `CicloReintentos.CuentasExactas` | app/workers/scheduler.py:693-694 | the two counts are those of dispatched and of failed items |
| `CicloReintentos.ExitoQueda` | app/workers/scheduler.py:682-708 | an item a turn dispatched keeps its content and stays in EXITOSO through all later turns |
| `CicloReintentos.UmbralSii` | app/workers/scheduler.py:696-708 | the counter reaches three exactly at three failures with no other processed outcome between them |
| `CicloReintentos.CuentaEsCadena` | app/workers/scheduler.py:696-708 | the counter is at least m exactly when m failures in a row end the processed items |
| `Backoff.CiclosAvanzan` | app/services/queue_service.py:1286-1296 | after k failures at due times, attempts and due time are exact |
| `Backoff.AgotaExactamente` | app/services/queue_service.py:1286-1296 | given up after exactly the attempts that were left, not one earlier |
| `Backoff.RecienEncoladoAgota` | app/services/queue_service.py:869 | a fresh content fails M-1 times over a total wait of I·M·(M-1)/2 |
| `Backoff.ReencoladoAgota` | app/services/queue_service.py:517-521 | a replayed item fails M times over the same total wait |
| `Backoff.SinConsumirNoAgota` | app/services/queue_service.py:1291-1294 | a webhook infrastructure failure never ends the item, keeps attempts and SFC_DONE, and waits one interval |
| `Backoff.EsperaDocumentada` | Readme.md:243-256 | five minutes and ten attempts: nine failures in 225 minutes |
| `DistributedLock.RedisLock.Acquire` | app/core/distributed_lock.py:60-80 | granted exactly when free; busy and Redis failure are told apart |
| `DistributedLock.RedisLock.Latido` | app/core/distributed_lock.py:82-111 | `acquired` goes off only on a loss Redis confirms |
| `DistributedLock.RedisLock.Release` | app/core/distributed_lock.py:113-134 | compare-and-delete; no-op for a non-holder |
| `DistributedLock.LlamadaSii` | app/core/distributed_lock.py:17-31 | a call is granted exactly to who may have it at that moment, so an expired lease is never revived; refused it changes nothing, granted it leaves the key to its caller for one lease, or to nobody |
| `DistributedLock.AjenoIntacto` | app/core/distributed_lock.py:17-31 | no call of another owner touches a held lock |
| `DistributedLock.ExclusivoMientrasRenueva` | app/core/distributed_lock.py:60-134 | in any interleaving of owners, a holder that renews in time owns the key at every call |
| `DistributedLock.ExclusivoConLatidos` | app/core/distributed_lock.py:82-111 | beats every h with at most m unanswered in a row and h(m+1) below the lease: at every call of the trace the key is the holder's and nobody else's call takes effect |
| `Tokens.ReintentoConOtroToken` | app/core/auth.py:452-488 | in every interleaving of nodes the retry after a 401 carries another token |
| `Tokens.ReenvioTrasRechazo` | app/core/auth.py:452-488 | over every run, from the 401 to the end of that request, whatever it sends again carries another token than the one it had sent |
| `Tokens.RecuperaConLaPropia` | app/core/auth.py:452-463 | one recovery on its own: a token its node has renewed meanwhile is used and nothing issued |
| `Tokens.RecuperaConLaCompartida` | app/core/auth.py:234-237 | or a newer token another node shared is loaded and used, and nothing issued |
| `Tokens.RecuperaEmitiendo` | app/core/auth.py:262-281 | or one is issued, shared and used |
| `Tokens.RechazadoNoVuelve` | app/core/auth.py:36-52 | an invalidated token is never shared again |
| `Tokens.InvalidarMata` | app/core/auth.py:36-52 | after the compare-and-delete no node has the rejected token shared or about to be shared |
| `Tokens.SoloCaeElRechazado` | app/core/auth.py:36-52 | invalidation removes only the rejected token itself |
| `Tokens.PasoConserva` | app/core/auth.py:219-290 | every step of every node keeps the token invariant |
| `Tokens.MuertoPorSiempre` | app/core/auth.py:154-171 | a token neither shared nor about to be shared stays so |
| `TokensNodo.SfcAuthManager.RenovarCoordinado` | app/core/auth.py:253-290 | ends at the first ending turn, within 41 turns; what it shares and can return, with refresh and login each succeeding, failing or unreadable; a failed renewal shares nothing |
| `TokensNodo.SfcAuthManager.RenovarDirecto` | app/core/auth.py:242-251 | the refresh is tried first and the login only if that gave nothing; a token comes if and only if one of them gives one, and the local copy is then that fresh token |
| `TokensNodo.SfcAuthManager.RenovarConLock` | app/core/auth.py:262-281 | under the lock, a valid shared token is used and nothing issued; otherwise a fresh one is shared, or nothing if none came |
| `TokensNodo.SfcAuthManager.UnaVuelta` | app/core/auth.py:257-290 | which turns end the wait, which of them ask the SFC for tokens, and what each shares |
| `TokensNodo.SfcAuthManager.Recuperar` | app/core/auth.py:452-469 | a token already at hand is used, the node's own first and then the shared one, with nothing issued; otherwise it renews; result, local copy and, with Redis, shared record are not the rejected token, also when the recovery fails |
| `Adjuntos.S3Service.ProcesarEnvio` | app/services/s3_service.py:895-963 | skip, post, mark or fail one file, decided on the checkpoint read before the batch; the mark or the reply may be lost |
| `Identidades.IdentidadSii` | app/services/s3_service.py:897-920 | two attachments have one identity exactly if key or else name and inline content agree, or a bare key reads like key and digest |
| `Identidades.NombrableSii` | app/services/s3_service.py:745-755 | an attachment can be named exactly if it brings a name or a key not ending in a slash; then the name is the key's last piece |
| `Identidades.SeEnviaSii` | app/services/s3_service.py:902-928 | a file is posted if and only if no confirmed one has its key or name and its inline content |
| `Identidades.ContenidoNuevoLlega` | app/services/s3_service.py:902-918 | a document regenerated under a confirmed key is posted once more and the SFC takes it |
| `Adjuntos.S3Service.TransferirLote` | app/services/s3_service.py:965-1007 | all tasks run, the first failure in list order is raised, a normal return means no file sent failed, and the checkpoint gains exactly the marks that got through |
| `Adjuntos.ConcurrenciaNoImporta` | app/services/s3_service.py:997-998 | any finishing order of the concurrent tasks leaves the same checkpoint and posts |
| `Adjuntos.PrimeraFalla` | app/services/s3_service.py:1000-1007 | the raised failure is the first one in the order of the list |
| `Adjuntos.ConfirmadoSii` | app/services/idempotency_service.py:667-687 | the checkpoint has a file exactly if it had it or some task of that identity got its mark through |
| `Adjuntos.UnaVezSii` | app/services/s3_service.py:982-997 | a batch that read its checkpoint is safe whatever the SFC answers and whichever marks are lost if and only if no two files sent share an identity |
| `Adjuntos.LoteUnaVezSii` | app/services/s3_service.py:922-955 | a batch of distinct files keeps every file accepted at most once and confirmed if and only if every post the SFC takes gets its mark through (and, if the checkpoint could not be read, was the first) |
| `Adjuntos.ReintentosSii` | app/services/s3_service.py:978-1007 | over any batches of distinct files: stopped after any of them and continued cleanly no file is accepted twice, if and only if every batch was clean in that sense |
| `Adjuntos.ConfirmadoQueda` | app/services/idempotency_service.py:667-687 | confirmations only grow, whatever fails or is lost |
| `Adjuntos.CiclosUnaVez` | app/workers/scheduler.py:312-349 | over any cycles whose posts keep their marks, with the checkpoint cleared only after SFC_DONE, no file is accepted twice |
| `Adjuntos.CorrerHasta` | app/workers/scheduler.py:262-300 | a cycle runs its batches in order up to the first that fails |
| `Adjuntos.CicloDeja` | app/workers/scheduler.py:335-349 | SFC_DONE exactly if every batch ended well and the write got through; the checkpoint goes only then, and only for a closing |
| `Adjuntos.MarcaPerdidaDuplica` | app/services/idempotency_service.py:681-687 | with one mark lost and SFC_DONE not written the next cycle has the file accepted again |
| `Adjuntos.LimpiarAntesSii` | app/services/despacho_queja_orchestrator.py:127-134 | clearing before the durable write breaks the promise exactly when a closing's batches ended well, the write failed and the SFC had taken some file |
| `Adjuntos.LimpiarAntesDuplica` | app/services/despacho_queja_orchestrator.py:127-134 | and then the next cycle has the file accepted again |
| `DedupCorreo.EmailAlertService.PurgarExpiradas` | app/services/email_service.py:54-62 | exactly the entries within the window remain |
| `DedupCorreo.EmailAlertService.DeberiaEnviar` | app/services/email_service.py:65-82 | answers no exactly within the window; purge, then evict an oldest entry, only when full |
| `DedupCorreo.EmailAlertService.LiberarSiFallo` | app/services/email_service.py:119-126 | a failed send frees its key unconditionally |
| `DedupCorreo.NuncaPasaDelMaximo` | app/services/email_service.py:71-81 | the cache never holds more than 500 entries |
| `DedupCorreo.DosEnviosCercanos` | app/services/email_service.py:65-82 | two accepted sends of a key within 900 s: it was evicted or freed in between |
| `Clasificacion.OperacionNombraPipeline` | app/services/idempotency_service.py:185-218 | inferred operation and pipeline agree exactly unless the payload is a plain new one without admission |
| `Clasificacion.PasosDistinguen` | app/services/despacho_queja_orchestrator.py:293-328 | different operations stand for different pipelines |
| `Clasificacion.DictCrudoSinAdmisionDiscrepa` | app/services/despacho_queja_orchestrator.py:216-224 | the raw dictionary on which they part |
| `Clasificacion.StripRecorta` | app/core/clasificacion_operacion.py:31 | stripping is idempotent and leaves nothing to strip |
| `Validacion.QuejaUnificadaCrmInput.ResolverYArmarSmartCode` | app/schemas/crm_payloads.py:191-217 | prefixed code, case id filled, or why not |
| `Validacion.QuejaUnificadaCrmInput.ValidarClosedDate` | app/schemas/crm_payloads.py:491-515 | missing date becomes today; the first violated window is reported |
| `Validacion.QuejaUnificadaCrmInput.ValidarReglasCierre` | app/schemas/crm_payloads.py:517-537 | what a closing payload is rewritten to, or its first error |
| `Validacion.QuejaUnificadaCrmInput.ValidarReglasFraude` | app/schemas/crm_payloads.py:539-567 | amounts and report file required; the single file is taken as the report |
| `Validacion.QuejaUnificadaCrmInput.ValidarReglas` | app/schemas/crm_payloads.py:569-583 | the kind of case is decided before anything is rewritten |
| `Validacion.ValidadaEsNormal` | app/schemas/crm_payloads.py:517-583 | what every validated payload satisfies |
| `Validacion.RevalidarEsIdempotente` | app/services/despacho_queja_orchestrator.py:159-177 | re-validation changes nothing, and passes exactly while the dates are in the window |
| `Validacion.ValidadaConcuerda` | app/services/despacho_queja_orchestrator.py:201-241 | inferred operation names the pipeline run, ignores the unhashed dates, and the code has no colon |
| `Validacion.MismoContenidoOtroDia` | app/services/idempotency_service.py:109-133 | the same request validated on two days has the same canonical payload |
| `Requisitos.ValidaSii` | app/schemas/crm_payloads.py:191-583 | a request is valid if and only if it meets every stated requirement, is then rewritten exactly as stated, and otherwise the error names one it does not meet |
| `Requisitos.OperacionSii` | app/services/idempotency_service.py:185-218 | the inferred operation told of the fields: closing, fraud, and plain new |
| `Requisitos.EnviosSii` | app/services/despacho_queja_orchestrator.py:201-241 | what is sent for a payload with admission: the new case alone, or fraud report, closing and update, in that order |
| `Requisitos.CanonicoSii` | app/services/idempotency_service.py:108-131 | canonical contents agree exactly for payloads that differ in the two dates at most |
| `Requisitos.MismoContenidoSii` | app/services/idempotency_service.py:108-131 | two valid requests share their canonical content exactly if their rewritings differ in the dates at most; amounts, files and fraud fields always tell them apart |
| `Requisitos.StripQuitaBlancos` | app/core/clasificacion_operacion.py:31 | stripping takes exactly the blanks at both ends |
| `Claves.IndiceInyectivo` | app/services/queue_service.py:886-892 | one index key per slot |
| `Claves.RegistroInyectivo` | app/services/idempotency_service.py:135-164 | one idempotency key per smart code, operation and hash |
| `Claves.BorradoViejoSii` | app/services/queue_service.py:300-303 | when the extra DEL of the unpartitioned key hits a slot |
| `Claves.BorradoViejoInofensivo` | app/services/queue_service.py:300-303 | for validated codes it never does |
| `Claves.ClavesConcuerdan` | app/services/idempotency_service.py:139-218 | request, late copy and stored payload share slot, key and pipeline |

## Left out

- HTTP, SMTP, S3 and Redis transport, logging, metrics and FastAPI wiring: an external call is an answer from outside.
- JSON encoding, SHA-256, HMAC and JWT: payloads are values, the hash is uninterpreted, tokens are opaque numbers.
- Items without `operacion` or `payload_hash`, and QUEUED records without an item id: transitional.
- `correlation_id` and `tipo_operacion` of an item: carried along, never read by a transition.
- Bursts of Redis errors and persistence retries: a write that does not get through is a step not taken or a flag.
- Fail-closed and fail-open answers when Redis is down during verification: only easy members.
- Timers of claims and PROCESSING records: in the protocol any lease may expire at any step, whether renewed or not;
  renewal in time is modelled for the case lock only (`DistributedLock`).
- The job lock that lets one node run a cycle: cycles of several workers interleave freely in the protocol.
- Purge entries of a status set whose item is missing: unreachable under the invariant, so not written out.
- Self-healing after a 404 (alta, then the Momento 3 steps) and the "already closed" translation: pipelines are the
  steps meant for a case, not their recovery.
- Listing of an S3 directory into `archivos_s3` during dispatch, file contents and final file names.
- Picklist catalogues, text sanitising and the other field checks of the schema; lower-casing beyond ASCII.
- Momento 1 and 4, acknowledgements, rate limiting, settings validation, health endpoints: only easy members.
- Liveness that depends on the scheduler clock: safety, measures and the backoff arithmetic only.
- Exclusion.UnDespachoPorCaso: assumes renewed leases, because a lapsed lease does let dispatches overlap.
- Trabajador.RetryWorker.ProcesarItemReclamado: states the run without interference, which `Refinamiento` proves to be a
  run of the protocol; interleavings are the protocol's.
- Despacho.DespachoQueja.Despachar: states the run without interference, which `Refinamiento` proves to be a run of the
  protocol; interleavings are the protocol's.
- DedupCorreo.EmailAlertService.DeberiaEnviar: of equally old entries any may be evicted, the code takes the first.
- TokensNodo.SfcAuthManager.RenovarCoordinado: expiry times are chance; a refresh token is only at hand or not.
- TokensNodo.SfcAuthManager.Recuperar: requires that other nodes do not share the rejected token again, which
  `Tokens.RechazadoNoVuelve` proves of the interleaved model.
- Adjuntos.CiclosUnaVez: assumes that marks persist, because a lost one does let a file be accepted again.
