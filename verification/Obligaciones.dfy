/**
 * The obligation ledger: what becomes of every content the CRM was told is queued.
 *
 * Each accepted enqueue opens one ticket. Tickets are never reopened, edited or forgotten.
 */
module Obligaciones {
  import opened Comun
  import opened Cola
  import opened ColaInvariantes
  import opened Protocolo
  import opened ProtocoloInvariante
  import opened ProtocoloPasos
  import opened ProtocoloTeoremas

  datatype Suerte = EnCola | Exitosa | FallidaDefinitiva | Sustituida | Cancelada | Purgada

  /** Some stored item of that status set holds the ticket's very content. */
  ghost predicate GuardadoEn(w: Mundo, ids: set<nat>, t: nat) {
    exists id :: id in ids && GuardaSuTicket(w, id) && w.ticketDe[id] == t
  }

  ghost predicate Tiene(w: Mundo, t: nat, s: Suerte)
    requires t < |w.tickets| && |w.destinos| == |w.tickets|
  {
    var d := w.destinos[t];
    match s
    case EnCola => GuardadoEn(w, w.q.pendientes, t)
    case Exitosa => GuardadoEn(w, w.q.exitosos, t)
    case FallidaDefinitiva => GuardadoEn(w, w.q.fallidos, t)
    // a later enqueue in the same slot took its place
    case Sustituida => d.Sustituido? && t < d.ticket < |w.tickets| && w.tickets[d.ticket].slot == w.tickets[t].slot
    // a synchronous dispatch of the same slot was accepted by the SFC
    case Cancelada => d.Cancelado? && Slot(d.por.smartCode, d.por.operacion) == w.tickets[t].slot
                      && d.por in w.aceptadas
    // deleted by retention, after it had ended
    case Purgada => d.Purgado?
  }

  function SuerteDe(w: Mundo, t: nat): Suerte
    requires t < |w.tickets| && |w.destinos| == |w.tickets|
  {
    match w.destinos[t]
    case EnItem(id) =>
      if id in w.q.pendientes then EnCola else if id in w.q.exitosos then Exitosa else FallidaDefinitiva
    case Sustituido(_) => Sustituida
    case Cancelado(_) => Cancelada
    case Purgado(_) => Purgada
  }

  lemma TieneSuSuerte(c: Config, w: Mundo, t: nat)
    requires InvM(c, w) && t < |w.tickets|
    ensures Tiene(w, t, SuerteDe(w, t))
  {
    assert TicketOk(w, t);
    if w.destinos[t].EnItem? {
      TicketDeItem(c, w, w.destinos[t].id);
      assert IdOk(c, w.q, w.destinos[t].id);
    }
  }

  lemma GuardadoEsSuItem(c: Config, w: Mundo, ids: set<nat>, t: nat)
    requires InvM(c, w) && t < |w.tickets| && GuardadoEn(w, ids, t)
    ensures w.destinos[t].EnItem? && w.destinos[t].id in ids && IdOk(c, w.q, w.destinos[t].id)
            && w.destinos[t].id in w.q.items
  {
    var id :| id in ids && GuardaSuTicket(w, id) && w.ticketDe[id] == t;
    assert LibroOk(w, id);
  }

  /** In every state of every run, each accepted content has exactly one of the six fates. */
  lemma ExactamenteUnaSuerte(c: Config, r: Corrida, i: nat, t: nat)
    requires c.maxIntentos >= 2 && EsCorrida(c, r) && i < |r.estados| && t < |r.estados[i].tickets|
    ensures |r.estados[i].destinos| == |r.estados[i].tickets|
    ensures forall s :: Tiene(r.estados[i], t, s) <==> s == SuerteDe(r.estados[i], t)
  {
    CorridaConserva(c, r, i);
    var w := r.estados[i];
    TieneSuSuerte(c, w, t);
    forall s | Tiene(w, t, s) ensures s == SuerteDe(w, t) {
      match s
      case EnCola => GuardadoEsSuItem(c, w, w.q.pendientes, t);
      case Exitosa => GuardadoEsSuItem(c, w, w.q.exitosos, t);
      case FallidaDefinitiva => GuardadoEsSuItem(c, w, w.q.fallidos, t);
      case _ =>
    }
  }

  // ---------------------------------------------------------------- only lawful ends, and they are final

  /** The step that may close ticket `t` the way it was closed. */
  ghost predicate CausaLegal(c: Config, w: Mundo, p: Paso, t: nat, d: Destino)
    requires t < |w.tickets| && t < |w.destinos|
  {
    && w.destinos[t].EnItem?
    && match d
       case EnItem(_) => false
       case Sustituido(n) => n == |w.tickets| && p.Solicitud? && p.t.PetEncola? && p.n in w.pet
                             && RanuraDePet(c, w.pet[p.n]) == w.tickets[t].slot
       case Cancelado(por) => p.Solicitud? && p.t.Cancela? && p.n in w.pet && por == ClaveDePet(c, w.pet[p.n])
                              && RanuraDePet(c, w.pet[p.n]) == w.tickets[t].slot
       case Purgado(de) => p.Entorno? && p.e.Purga? && p.e.de == de && w.destinos[t].id in Conjunto(w.q, de)
  }

  ghost predicate Avanza(c: Config, w: Mundo, w': Mundo, p: Paso, t: nat) {
    t < |w.tickets| && t < |w.destinos| ==>
      t < |w'.destinos| && (w'.destinos[t] == w.destinos[t] || CausaLegal(c, w, p, t, w'.destinos[t]))
  }

  lemma AvanzaSesion(c: Config, w: Mundo, k: Clave, s: PasoSesion, t: nat)
    requires PuedeSesion(w, k, s)
    ensures Avanza(c, w, TrasSesion(c, w, k, s), Trabajador(k, s), t)
  {
  }

  lemma AvanzaEncola(c: Config, w: Mundo, n: nat, e: string, ahora: Instante, t: nat)
    requires InvM(c, w) && n in w.pet
    ensures Avanza(c, w, RecibirEncolado(c, w, n, e, ahora), Solicitud(n, PetEncola(e, ahora)), t)
  {
    var s := RanuraDePet(c, w.pet[n]);
    if Ocupado(w.q, s) {
      assert SlotOk(w.q, s) && IdOk(c, w.q, w.q.indice[s]) && LibroOk(w, w.q.indice[s]);
    }
  }

  lemma AvanzaCancela(c: Config, w: Mundo, n: nat, t: nat)
    requires InvM(c, w) && n in w.pet && w.pet[n].fase.Cancelando?
    ensures Avanza(c, w, CancelarEn(c, w, n), Solicitud(n, Cancela), t)
  {
    var s := RanuraDePet(c, w.pet[n]);
    if Ocupado(w.q, s) {
      assert SlotOk(w.q, s) && LibroOk(w, w.q.indice[s]);
    }
  }

  lemma AvanzaPaso(c: Config, w: Mundo, p: Paso, t: nat)
    requires InvM(c, w) && Habilitado(w, p)
    ensures Avanza(c, w, Aplicar(c, w, p), p, t)
  {
    match p
    case Entorno(e) =>
      assert TicketOk(w, t);
    case Trabajador(k, s) => AvanzaSesion(c, w, k, s, t);
    case Solicitud(n, pt) =>
      match pt
      case PetEncola(e, ahora) => AvanzaEncola(c, w, n, e, ahora, t);
      case Cancela => AvanzaCancela(c, w, n, t);
      case _ =>
        assert PetOk(c, w, n);
        PeticionMenor(c, w, n, pt);
  }

  /** One step closes a ticket only for a lawful cause. */
  lemma SoloCausasLegales(c: Config, r: Corrida, i: nat, t: nat)
    requires c.maxIntentos >= 2 && EsCorrida(c, r) && i < |r.pasos| && t < |r.estados[i].tickets|
    ensures |r.estados[i].destinos| == |r.estados[i].tickets| && t < |r.estados[i + 1].destinos|
    ensures var w, d := r.estados[i], r.estados[i + 1].destinos[t];
            d == w.destinos[t] || CausaLegal(c, w, r.pasos[i], t, d)
  {
    CorridaConserva(c, r, i);
    AvanzaPaso(c, r.estados[i], r.pasos[i], t);
  }

  lemma TicketFijo(c: Config, r: Corrida, i: nat, j: nat, t: nat)
    requires c.maxIntentos >= 2 && EsCorrida(c, r) && i <= j < |r.estados| && t < |r.estados[i].tickets|
    ensures t < |r.estados[j].tickets| && r.estados[j].tickets[t] == r.estados[i].tickets[t]
    ensures |r.estados[j].destinos| == |r.estados[j].tickets|
  {
    CorridaSigue(c, r, i, j);
    assert r.estados[i].tickets <= r.estados[j].tickets;
    CorridaConserva(c, r, j);
  }

  /** From one state to the next a ticket stays where it is, or leaves its item. */
  predicate Abandona(antes: Destino, despues: Destino) {
    despues == antes || (antes.EnItem? && !despues.EnItem?)
  }

  lemma UnPasoAbandona(c: Config, r: Corrida, i: nat, t: nat)
    requires c.maxIntentos >= 2 && EsCorrida(c, r) && i < |r.pasos| && t < |r.estados[i].tickets|
    ensures t < |r.estados[i].destinos| && t < |r.estados[i + 1].destinos|
    ensures Abandona(r.estados[i].destinos[t], r.estados[i + 1].destinos[t])
  {
    SoloCausasLegales(c, r, i, t);
  }

  /** A ticket keeps its slot and content forever, and once it left its item its end never changes. */
  lemma {:induction false} FinalDefinitivo(c: Config, r: Corrida, i: nat, j: nat, t: nat)
    requires c.maxIntentos >= 2 && EsCorrida(c, r) && i <= j < |r.estados| && t < |r.estados[i].tickets|
    ensures t < |r.estados[j].tickets| && t < |r.estados[j].destinos| && t < |r.estados[i].destinos|
    ensures r.estados[j].tickets[t] == r.estados[i].tickets[t]
    ensures Abandona(r.estados[i].destinos[t], r.estados[j].destinos[t])
    decreases j
  {
    TicketFijo(c, r, i, i, t);
    TicketFijo(c, r, i, j, t);
    if i < j {
      FinalDefinitivo(c, r, i, j - 1, t);
      UnPasoAbandona(c, r, j - 1, t);
    }
  }

  // ---------------------------------------------------------------- conservation

  ghost function Cuales(w: Mundo, f: Destino -> bool): set<nat> {
    set t: nat | t < |w.destinos| && f(w.destinos[t])
  }

  lemma {:induction false} TamanoRango(n: nat, s: set<nat>)
    requires forall t: nat :: t in s <==> t < n
    ensures |s| == n
  {
    if n > 0 {
      TamanoRango(n - 1, s - {n - 1});
    } else {
      assert s == {};
    }
  }

  lemma TresConjuntos<T>(a: set<T>, b: set<T>, d: set<T>)
    requires a !! b !! d
    ensures |a + b + d| == |a| + |b| + |d|
  {
    assert a !! b && (a + b) !! d;
  }

  /** Each ticket has one of four destinations. */
  lemma DestinosReparten(w: Mundo)
    ensures |w.destinos| == |Cuales(w, (d: Destino) => d.EnItem?)| + |Cuales(w, (d: Destino) => d.Sustituido?)|
                            + |Cuales(w, (d: Destino) => d.Cancelado?)| + |Cuales(w, (d: Destino) => d.Purgado?)|
  {
    var vivos := Cuales(w, (d: Destino) => d.EnItem?);
    var sust := Cuales(w, (d: Destino) => d.Sustituido?);
    var canc := Cuales(w, (d: Destino) => d.Cancelado?);
    var purg := Cuales(w, (d: Destino) => d.Purgado?);
    TresConjuntos(vivos, sust, canc);
    assert vivos + sust + canc !! purg;
    TamanoRango(|w.destinos|, vivos + sust + canc + purg);
  }

  /** Nothing is lost or counted twice: accepted contents = stored items + superseded + cancelled + purged. */
  lemma Conservacion(c: Config, r: Corrida, i: nat)
    requires c.maxIntentos >= 2 && EsCorrida(c, r) && i < |r.estados|
    ensures var w := r.estados[i];
            |w.tickets| == |w.q.pendientes| + |w.q.exitosos| + |w.q.fallidos|
                           + |Cuales(w, (d: Destino) => d.Sustituido?)| + |Cuales(w, (d: Destino) => d.Cancelado?)|
                           + |Cuales(w, (d: Destino) => d.Purgado?)|
  {
    EstadosParticionan(c, r, i);
    var w := r.estados[i];
    TresConjuntos(w.q.pendientes, w.q.exitosos, w.q.fallidos);
    DestinosReparten(w);
    Vivos(c, r, i);
  }

  lemma Vivos(c: Config, r: Corrida, i: nat)
    requires c.maxIntentos >= 2 && EsCorrida(c, r) && i < |r.estados|
    ensures |Cuales(r.estados[i], (d: Destino) => d.EnItem?)| == |r.estados[i].q.items.Keys|
    ensures |r.estados[i].destinos| == |r.estados[i].tickets|
  {
    CorridaConserva(c, r, i);
    VivosSonItems(c, r.estados[i], Cuales(r.estados[i], (d: Destino) => d.EnItem?));
  }

  lemma VivosSonItems(c: Config, w: Mundo, vivos: set<nat>)
    requires InvM(c, w) && vivos == Cuales(w, (d: Destino) => d.EnItem?)
    ensures |vivos| == |w.q.items.Keys|
  {
    forall id ensures id in w.q.items <==> id in w.ticketDe {
      if id >= 0 { assert LibroOk(w, id); }
    }
    assert w.ticketDe.Keys == w.q.items.Keys;
    forall id | id in w.ticketDe ensures w.ticketDe[id] in vivos && w.destinos[w.ticketDe[id]] == EnItem(id) {
      assert LibroOk(w, id);
    }
    forall t | t in vivos ensures exists id :: id in w.ticketDe && w.ticketDe[id] == t {
      assert TicketOk(w, t);
    }
    ImagenInyectiva(w.ticketDe, vivos);
  }
}
