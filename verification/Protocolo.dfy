/**
 * The contingency protocol as a state machine.
 *
 * Worker sessions (one per worker cycle and item), synchronous requests, the admin endpoint, the purge and the
 * expiry of any lease interleave freely; each step is one atomic Redis call or one outcome of an external call.
 * A crash may stop any process at any point. The world also carries its own history: a ledger with one ticket per
 * accepted enqueue, and the log of what was sent to the SFC and confirmed by the CRM.
 */
module Protocolo {
  import opened Comun
  import opened Clasificacion
  import opened Cola

  // ---------------------------------------------------------------- worker sessions

  datatype Clave = Clave(worker: Worker, id: nat)

  /** Where a session stands in `_reclamar_y_procesar_si_lock_disponible` and what it calls. */
  datatype Fase =
    | Listado      // copy read by the due listing
    | ConLock      // dispatch lock of the case held, item not claimed yet
    | Reclamado    // claimed: the copy is now the claimed item
    | Llamando     // call to the SFC in flight
    | Aceptado     // the SFC accepted the content
    | SfcHecho     // SFC_DONE durable, or already so in the claimed copy
    | Notificado   // the CRM webhook confirmed
    | Liberando    // definitive failure applied, idempotency key still to be deleted
    | Terminando   // nothing left but to release the lock
    | Cerrado

  datatype Sesion = Sesion(fase: Fase, copia: Item, reclamada: bool, ticket: nat, resp: Option<string>)

  predicate FaseConLock(f: Fase) { !f.Listado? && !f.Cerrado? }

  // ---------------------------------------------------------------- synchronous requests

  datatype FasePet =
    | Recibida
    | Huerfana             // QUEUED record found stale, DEL pending
    | Iniciando            // about to SET NX the PROCESSING record
    | EnProceso            // PROCESSING record written
    | EnVuelo              // dispatch lock held, call to the SFC in flight
    | Aceptada(resp: Option<string>)
    | Registrada           // COMPLETED written, or its write failed
    | Cancelando(id: nat, hash: int)
    | PorEncolar
    | PorRegistrar(itemId: nat)
    | Soltando(liberar: bool)
    | Liberando503         // failed: idempotency key still to be deleted
    | Finalizada

  datatype Peticion = Peticion(fase: FasePet, smartCode: string, payload: Queja, conLock: bool)

  datatype Titular = DeWorker(k: Clave) | DePeticion(n: nat)

  // ---------------------------------------------------------------- ledger and log

  /** One accepted enqueue: the obligation and the content the CRM was told is queued. */
  datatype Ticket = Ticket(slot: Slot, payload: Queja)

  datatype Destino = EnItem(id: nat) | Sustituido(ticket: nat) | Cancelado(por: ClaveIdem) | Purgado(de: Terminal)

  datatype Evento =
    | Reclamo(k: Clave, t: nat, yaHecho: bool)
    | Llamada(k: Clave, t: nat)
    | Acepto(k: Clave, t: nat)
    | Hecho(t: nat)
    | Confirmo(k: Clave, t: nat)
    | Exito(t: nat)

  datatype Mundo = Mundo(
    q: Redis,
    locks: map<string, Titular>,
    ses: map<Clave, Sesion>,
    pet: map<nat, Peticion>,
    tickets: seq<Ticket>,
    destinos: seq<Destino>,
    ticketDe: map<nat, nat>,
    log: seq<Evento>,
    aceptadas: set<ClaveIdem>)

  const INICIAL := Mundo(VACIO, map[], map[], map[], [], [], map[], [], {})

  // ---------------------------------------------------------------- steps

  /** Leases, retention and the admin endpoint. */
  datatype PasoEntorno =
    | ExpiraClaim(id: nat)
    | ExpiraLock(sc: string)
    | ExpiraIdem(clave: ClaveIdem)
    | Purga(de: Terminal, ids: set<nat>)
    | Reencola(id: nat, ahora: Instante)
    | RegistraReencolado(id: nat)

  /** One worker session. */
  datatype PasoSesion =
    | Lista
    | TomaLock
    | Reclama
    | Llama
    | SaltaSfc
    | SfcAcepta(cuerpo: string)
    | MarcaSfc(ahora: Instante)
    | CrmConfirma
    | MarcaExito(ahora: Instante)
    | Falla(error: string, consumir: bool, ahora: Instante)
    | LiberaIdem
    | Desiste
    | SueltaLock
    | Cae
    | Difiere(error: string, ahora: Instante, proximo: Instante)

  /** One synchronous request. */
  datatype PasoPeticion =
    | Recibe(sc: string, payload: Queja)
    | Verifica
    | BorraHuerfano
    | IniciaProcessing
    | PideLock
    | PideLockFalla
    | PetAceptada(resp: Option<string>)
    | PetTransitoria
    | PetRechazada
    | RegistraExito(persistio: bool)
    | LeeCancelable
    | Cancela
    | PetNoCancela
    | PetEncola(error: string, ahora: Instante)
    | PetEncolaFalla
    | RegistraEncolado(persistio: bool)
    | PetSueltaLock
    | PetLiberaIdem
    | PetCae

  datatype Paso = Entorno(e: PasoEntorno) | Trabajador(k: Clave, s: PasoSesion) | Solicitud(n: nat, t: PasoPeticion)

  function ClaveDePet(c: Config, p: Peticion): ClaveIdem {
    ClaveIdem(p.smartCode, c.operacion(p.payload), c.hash(p.payload))
  }

  function RanuraDePet(c: Config, p: Peticion): Slot { Slot(p.smartCode, c.operacion(p.payload)) }

  /** `_item_de_cola_sigue_vigente`: the queued item still exists, waits, and holds this very content. */
  predicate SigueVigente(q: Redis, id: nat, hash: int) {
    id in q.items && q.items[id].estado == PENDIENTE && q.items[id].payloadHash == hash
  }

  predicate EnFase(w: Mundo, k: Clave, fs: set<Fase>) { k in w.ses && w.ses[k].fase in fs }

  predicate PetEn(w: Mundo, n: nat, f: FasePet) { n in w.pet && w.pet[n].fase == f }

  // ---------------------------------------------------------------- when a step may happen

  predicate PuedeEntorno(w: Mundo, e: PasoEntorno) {
    match e
    // the ids were read earlier from that terminal set; no replay fell in between
    case Purga(de, ids) => forall id :: id in ids && id in w.q.items ==> id in Conjunto(w.q, de)
    case RegistraReencolado(id) => id in w.q.items
    case _ => true
  }

  const EN_CURSO := {Reclamado, Llamando, Aceptado, SfcHecho, Notificado}

  predicate PuedeSesion(w: Mundo, k: Clave, s: PasoSesion) {
    match s
    // a worker id is fresh per cycle and a cycle lists each id once
    case Lista => k !in w.ses && k.id in w.q.items
    case TomaLock => EnFase(w, k, {Listado})
    case Reclama => EnFase(w, k, {ConLock})
    case Llama => EnFase(w, k, {Reclamado}) && !w.ses[k].copia.sfcCompletado
    case SaltaSfc => EnFase(w, k, {Reclamado}) && w.ses[k].copia.sfcCompletado
    case SfcAcepta(_) => EnFase(w, k, {Llamando})
    case MarcaSfc(_) => EnFase(w, k, {Aceptado})
    case CrmConfirma => EnFase(w, k, {SfcHecho})
    case MarcaExito(_) => EnFase(w, k, {Notificado})
    // only a webhook failure may leave the attempt unconsumed
    case Falla(_, consumir, _) => EnFase(w, k, EN_CURSO) && (!consumir ==> w.ses[k].fase == SfcHecho)
    case LiberaIdem => EnFase(w, k, {Liberando})
    case Desiste => EnFase(w, k, EN_CURSO)
    case SueltaLock => EnFase(w, k, {Terminando})
    case Cae => k in w.ses && w.ses[k].fase != Cerrado
    case Difiere(_, _, _) => EnFase(w, k, {Listado})
  }

  predicate PuedePeticion(w: Mundo, n: nat, t: PasoPeticion) {
    match t
    case Recibe(_, _) => n !in w.pet
    case Verifica => PetEn(w, n, Recibida)
    case BorraHuerfano => PetEn(w, n, Huerfana)
    case IniciaProcessing => PetEn(w, n, Iniciando)
    case PideLock => PetEn(w, n, EnProceso)
    // Redis did not answer
    case PideLockFalla => PetEn(w, n, EnProceso)
    case PetAceptada(_) => PetEn(w, n, EnVuelo)
    case PetTransitoria => PetEn(w, n, EnVuelo)
    case PetRechazada => PetEn(w, n, EnVuelo)
    case RegistraExito(_) => n in w.pet && w.pet[n].fase.Aceptada?
    case LeeCancelable => PetEn(w, n, Registrada)
    case Cancela => n in w.pet && w.pet[n].fase.Cancelando?
    // an error while reading or cancelling is swallowed
    case PetNoCancela => n in w.pet && (w.pet[n].fase.Registrada? || w.pet[n].fase.Cancelando?)
    case PetEncola(_, _) => PetEn(w, n, PorEncolar)
    case PetEncolaFalla => PetEn(w, n, PorEncolar)
    case RegistraEncolado(_) => n in w.pet && w.pet[n].fase.PorRegistrar?
    case PetSueltaLock => n in w.pet && w.pet[n].fase.Soltando?
    case PetLiberaIdem => PetEn(w, n, Liberando503)
    case PetCae => n in w.pet && w.pet[n].fase != Finalizada
  }

  predicate Habilitado(w: Mundo, p: Paso) {
    match p
    case Entorno(e) => PuedeEntorno(w, e)
    case Trabajador(k, s) => PuedeSesion(w, k, s)
    case Solicitud(n, t) => PuedePeticion(w, n, t)
  }

  // ---------------------------------------------------------------- what a step does

  function ConFase(w: Mundo, k: Clave, f: Fase): Mundo
    requires k in w.ses
  {
    w.(ses := w.ses[k := w.ses[k].(fase := f)])
  }

  function ConFasePet(w: Mundo, n: nat, f: FasePet): Mundo
    requires n in w.pet
  {
    w.(pet := w.pet[n := w.pet[n].(fase := f)])
  }

  function Anota(w: Mundo, e: Evento): Mundo { w.(log := w.log + [e]) }

  function TicketVigente(w: Mundo, id: nat): nat { if id in w.ticketDe then w.ticketDe[id] else 0 }

  /** The ledger when the ticket of item `id` leaves it. */
  function Despachar(w: Mundo, id: nat, d: Destino): seq<Destino> {
    var t := TicketVigente(w, id);
    if t < |w.destinos| then w.destinos[t := d] else w.destinos
  }

  function RecibirEncolado(c: Config, w: Mundo, n: nat, error: string, ahora: Instante): Mundo
    requires n in w.pet
  {
    var p := w.pet[n];
    var a := ArgsDeEncolar(c, p.smartCode, p.payload, error, ahora);
    var (q', it) := Encolar(w.q, a);
    var t := |w.tickets|;
    var previos := if Ocupado(w.q, a.Ranura()) then Despachar(w, it.id, Sustituido(t)) else w.destinos;
    w.(q := q', tickets := w.tickets + [Ticket(a.Ranura(), p.payload)], destinos := previos + [EnItem(it.id)],
       ticketDe := w.ticketDe[it.id := t], pet := w.pet[n := p.(fase := PorRegistrar(it.id))])
  }

  function ReclamarEn(w: Mundo, k: Clave): Mundo
    requires k in w.ses
  {
    var (q', res) := Reclamar(w.q, k.id, k.worker);
    if res.None? then ConFase(w, k, Terminando) else
    var t := TicketVigente(w, k.id);
    Anota(w.(q := q', ses := w.ses[k := Sesion(Reclamado, res.value, true, t, None)]),
          Reclamo(k, t, res.value.sfcCompletado))
  }

  function MarcarSfcEn(w: Mundo, k: Clave, ahora: Instante): Mundo
    requires k in w.ses
  {
    var s := w.ses[k];
    var (q', res) := MarcarSfcCompletado(w.q, k.id, k.worker, s.copia.version, ClaveDe(s.copia), s.resp, ahora);
    var w' := ConFase(w.(q := q'), k, if res.Aplicado? then SfcHecho else Terminando);
    if res.Aplicado? then Anota(w', Hecho(s.ticket)) else w'
  }

  function MarcarExitoEn(w: Mundo, k: Clave, ahora: Instante): Mundo
    requires k in w.ses
  {
    var s := w.ses[k];
    var (q', res) := MarcarExitoso(w.q, k.id, k.worker, s.copia.version, ahora);
    var w' := ConFase(w.(q := q'), k, Terminando);
    if res.Aplicado? then Anota(w', Exito(s.ticket)) else w'
  }

  function FallarEn(c: Config, w: Mundo, k: Clave, error: string, consumir: bool, ahora: Instante): Mundo
    requires k in w.ses
  {
    var s := w.ses[k];
    var a := ArgsDeFallo(c, s.copia, error, consumir, ahora);
    var (q', res) := RegistrarFallo(w.q, k.id, k.worker, s.copia.version, a);
    ConFase(w.(q := q'), k, if res.Aplicado? && a.definitivo then Liberando else Terminando)
  }

  /** `_evaluar_registro_existente`: a hit closes the request, a stale QUEUED record is to be deleted. */
  function FaseVerificada(q: Redis, clave: ClaveIdem): FasePet {
    if clave !in q.idem then Iniciando
    else match q.idem[clave]
      case Completed(_) => Finalizada
      case Processing => Finalizada
      case Queued(id) => if SigueVigente(q, id, clave.hash) then Finalizada else Huerfana
  }

  function VerificarEn(c: Config, w: Mundo, n: nat): Mundo
    requires n in w.pet
  {
    ConFasePet(w, n, FaseVerificada(w.q, ClaveDePet(c, w.pet[n])))
  }

  function ConIdem(w: Mundo, clave: ClaveIdem, reg: Registro): Mundo {
    w.(q := w.q.(idem := w.q.idem[clave := reg]))
  }

  function SinIdem(w: Mundo, clave: ClaveIdem): Mundo {
    w.(q := w.q.(idem := Quitar(w.q.idem, clave)))
  }

  /** Compare-and-delete: a stale owner's release leaves another owner's lock alone. */
  function SoltarLock(w: Mundo, sc: string, quien: Titular): Mundo {
    if sc in w.locks && w.locks[sc] == quien then w.(locks := Quitar(w.locks, sc)) else w
  }

  function CancelarEn(c: Config, w: Mundo, n: nat): Mundo
    requires n in w.pet && w.pet[n].fase.Cancelando?
  {
    var p := w.pet[n];
    var s := RanuraDePet(c, p);
    var (q', ok) := Cancelar(w.q, s, p.fase.id, p.fase.hash);
    var w1 := ConFasePet(w, n, Soltando(false));
    if !ok then w1 else
    w1.(q := q', destinos := Despachar(w, p.fase.id, Cancelado(ClaveDePet(c, p))),
        ticketDe := Quitar(w.ticketDe, p.fase.id))
  }

  function PurgarEn(w: Mundo, de: Terminal, ids: set<nat>): Mundo {
    w.(q := Purgar(w.q, de, ids),
       ticketDe := map id | id in w.ticketDe && id !in ids :: w.ticketDe[id],
       destinos := seq(|w.destinos|, t requires 0 <= t < |w.destinos| =>
                         if w.destinos[t].EnItem? && w.destinos[t].id in ids then Purgado(de) else w.destinos[t]))
  }

  function TrasEntorno(w: Mundo, e: PasoEntorno): Mundo
    requires PuedeEntorno(w, e)
  {
    match e
    case ExpiraClaim(id) => w.(q := ExpirarClaim(w.q, id))
    case ExpiraLock(sc) => w.(locks := Quitar(w.locks, sc))
    case ExpiraIdem(clave) => SinIdem(w, clave)
    case Purga(de, ids) => PurgarEn(w, de, ids)
    case Reencola(id, ahora) => w.(q := Reencolar(w.q, id, ahora).0)
    case RegistraReencolado(id) => ConIdem(w, ClaveDe(w.q.items[id]), Queued(id))
  }

  function TomarLockEn(w: Mundo, k: Clave): Mundo
    requires k in w.ses
  {
    var sc := w.ses[k].copia.smartCode;
    if sc in w.locks then ConFase(w, k, Cerrado)
    else ConFase(w.(locks := w.locks[sc := DeWorker(k)]), k, ConLock)
  }

  function AceptarEn(w: Mundo, k: Clave, cuerpo: string): Mundo
    requires k in w.ses
  {
    var s := w.ses[k];
    Anota(w.(ses := w.ses[k := s.(fase := Aceptado, resp := Some(cuerpo))],
             aceptadas := w.aceptadas + {ClaveDe(s.copia)}), Acepto(k, s.ticket))
  }

  function LlamarEn(w: Mundo, k: Clave): Mundo
    requires k in w.ses
  {
    Anota(ConFase(w, k, Llamando), Llamada(k, w.ses[k].ticket))
  }

  function ConfirmarEn(w: Mundo, k: Clave): Mundo
    requires k in w.ses
  {
    Anota(ConFase(w, k, Notificado), Confirmo(k, w.ses[k].ticket))
  }

  function DiferirEn(w: Mundo, k: Clave, error: string, ahora: Instante, proximo: Instante): Mundo
    requires k in w.ses
  {
    ConFase(w.(q := Diferir(w.q, k.id, w.ses[k].copia.version, error, ahora, proximo).0), k, Cerrado)
  }

  function TrasSesion(c: Config, w: Mundo, k: Clave, s: PasoSesion): Mundo
    requires PuedeSesion(w, k, s)
  {
    match s
    case Lista => w.(ses := w.ses[k := Sesion(Listado, w.q.items[k.id], false, 0, None)])
    case TomaLock => TomarLockEn(w, k)
    case Reclama => ReclamarEn(w, k)
    case Llama => LlamarEn(w, k)
    case SaltaSfc => ConFase(w, k, SfcHecho)
    case SfcAcepta(cuerpo) => AceptarEn(w, k, cuerpo)
    case MarcaSfc(ahora) => MarcarSfcEn(w, k, ahora)
    case CrmConfirma => ConfirmarEn(w, k)
    case MarcaExito(ahora) => MarcarExitoEn(w, k, ahora)
    case Falla(error, consumir, ahora) => FallarEn(c, w, k, error, consumir, ahora)
    case LiberaIdem => SinIdem(ConFase(w, k, Terminando), ClaveDe(w.ses[k].copia))
    case Desiste => ConFase(w, k, Terminando)
    case SueltaLock => ConFase(SoltarLock(w, w.ses[k].copia.smartCode, DeWorker(k)), k, Cerrado)
    case Cae => ConFase(w, k, Cerrado)
    case Difiere(error, ahora, proximo) => DiferirEn(w, k, error, ahora, proximo)
  }

  function IniciarEn(c: Config, w: Mundo, n: nat): Mundo
    requires n in w.pet
  {
    var clave := ClaveDePet(c, w.pet[n]);
    if clave in w.q.idem then ConFasePet(w, n, Finalizada)
    else ConIdem(ConFasePet(w, n, EnProceso), clave, Processing)
  }

  function PedirLockEn(w: Mundo, n: nat): Mundo
    requires n in w.pet
  {
    var sc := w.pet[n].smartCode;
    if sc in w.locks then ConFasePet(w, n, PorEncolar)
    else w.(locks := w.locks[sc := DePeticion(n)], pet := w.pet[n := w.pet[n].(fase := EnVuelo, conLock := true)])
  }

  function RegistrarExitoEn(c: Config, w: Mundo, n: nat, persistio: bool): Mundo
    requires n in w.pet && w.pet[n].fase.Aceptada?
  {
    var w' := ConFasePet(w, n, Registrada);
    if persistio then ConIdem(w', ClaveDePet(c, w.pet[n]), Completed(w.pet[n].fase.resp)) else w'
  }

  function LeerCancelableEn(c: Config, w: Mundo, n: nat): Mundo
    requires n in w.pet
  {
    var it := LeerPendiente(w.q, RanuraDePet(c, w.pet[n]));
    ConFasePet(w, n, if it.Some? then Cancelando(it.value.id, it.value.payloadHash) else Soltando(false))
  }

  function RegistrarEncoladoEn(c: Config, w: Mundo, n: nat, persistio: bool): Mundo
    requires n in w.pet && w.pet[n].fase.PorRegistrar?
  {
    var w' := ConFasePet(w, n, Soltando(!persistio));
    if persistio then ConIdem(w', ClaveDePet(c, w.pet[n]), Queued(w.pet[n].fase.itemId)) else w'
  }

  function SoltarLockEn(w: Mundo, n: nat): Mundo
    requires n in w.pet && w.pet[n].fase.Soltando?
  {
    var p := w.pet[n];
    var w1 := if p.conLock then SoltarLock(w, p.smartCode, DePeticion(n)) else w;
    w1.(pet := w.pet[n := p.(conLock := false, fase := if p.fase.liberar then Liberando503 else Finalizada)])
  }

  function TrasPeticion(c: Config, w: Mundo, n: nat, t: PasoPeticion): Mundo
    requires PuedePeticion(w, n, t)
  {
    match t
    case Recibe(sc, payload) => w.(pet := w.pet[n := Peticion(Recibida, sc, payload, false)])
    case Verifica => VerificarEn(c, w, n)
    case BorraHuerfano => SinIdem(ConFasePet(w, n, Iniciando), ClaveDePet(c, w.pet[n]))
    case IniciaProcessing => IniciarEn(c, w, n)
    case PideLock => PedirLockEn(w, n)
    case PideLockFalla => ConFasePet(w, n, PorEncolar)
    case PetAceptada(resp) =>
      ConFasePet(w.(aceptadas := w.aceptadas + {ClaveDePet(c, w.pet[n])}), n, Aceptada(resp))
    case PetTransitoria => ConFasePet(w, n, PorEncolar)
    case PetRechazada => ConFasePet(w, n, Soltando(true))
    case RegistraExito(persistio) => RegistrarExitoEn(c, w, n, persistio)
    case LeeCancelable => LeerCancelableEn(c, w, n)
    case Cancela => CancelarEn(c, w, n)
    case PetNoCancela => ConFasePet(w, n, Soltando(false))
    case PetEncola(error, ahora) => RecibirEncolado(c, w, n, error, ahora)
    case PetEncolaFalla => ConFasePet(w, n, Soltando(true))
    case RegistraEncolado(persistio) => RegistrarEncoladoEn(c, w, n, persistio)
    case PetSueltaLock => SoltarLockEn(w, n)
    case PetLiberaIdem => SinIdem(ConFasePet(w, n, Finalizada), ClaveDePet(c, w.pet[n]))
    case PetCae => w.(pet := w.pet[n := w.pet[n].(fase := Finalizada, conLock := false)])
  }

  function Aplicar(c: Config, w: Mundo, p: Paso): Mundo
    requires Habilitado(w, p)
  {
    match p
    case Entorno(e) => TrasEntorno(w, e)
    case Trabajador(k, s) => TrasSesion(c, w, k, s)
    case Solicitud(n, t) => TrasPeticion(c, w, n, t)
  }

  // ---------------------------------------------------------------- runs

  /** States and steps of a finite run from the empty store. */
  datatype Corrida = Corrida(estados: seq<Mundo>, pasos: seq<Paso>)

  ghost predicate EsCorrida(c: Config, r: Corrida) {
    && |r.estados| == |r.pasos| + 1
    && r.estados[0] == INICIAL
    && forall i {:trigger r.pasos[i]} :: 0 <= i < |r.pasos| ==>
         Habilitado(r.estados[i], r.pasos[i]) && r.estados[i + 1] == Aplicar(c, r.estados[i], r.pasos[i])
  }

  function Ultimo(r: Corrida): Mundo
    requires |r.estados| > 0
  {
    r.estados[|r.estados| - 1]
  }

  function Mas(c: Config, r: Corrida, p: Paso): Corrida
    requires |r.estados| > 0 && Habilitado(Ultimo(r), p)
  {
    Corrida(r.estados + [Aplicar(c, Ultimo(r), p)], r.pasos + [p])
  }

  lemma MasEsCorrida(c: Config, r: Corrida, p: Paso)
    requires EsCorrida(c, r) && Habilitado(Ultimo(r), p)
    ensures EsCorrida(c, Mas(c, r, p))
  {
    var r' := Mas(c, r, p);
    forall i {:trigger r'.pasos[i]} | 0 <= i < |r'.pasos|
      ensures Habilitado(r'.estados[i], r'.pasos[i]) && r'.estados[i + 1] == Aplicar(c, r'.estados[i], r'.pasos[i])
    {
      if i < |r.pasos| {
        assert r'.pasos[i] == r.pasos[i];
      }
    }
  }
}
