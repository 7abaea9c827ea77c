/** The bounded cache that keeps one alert from being mailed over and over. */
module DedupCorreo {
  import opened Comun

  const VENTANA := 900
  const MAXIMO := 500

  type Cache = map<string, Instante>

  /** One call to `_deberia_enviar` with a key, with what it answered and threw out, or a send that failed. */
  datatype Evento =
    | Intento(clave: string, t: Instante, tPurga: Instante, envia: bool, desalojada: Option<string>)
    | FalloEnvio(clave: string)

  predicate Reciente(m: Cache, clave: string, t: Instante) { clave in m && t - m[clave] < VENTANA }

  function Vigentes(m: Cache, t: Instante): Cache { map k | k in m && t - m[k] < VENTANA :: m[k] }

  function Sin(m: Cache, clave: string): Cache { map k | k in m && k != clave :: m[k] }

  /** The cache when the new entry is about to be inserted, before any eviction. */
  function Purgada(m: Cache, tPurga: Instante): Cache { if |m| >= MAXIMO then Vigentes(m, tPurga) else m }

  predicate MasVieja(m: Cache, clave: string) { clave in m && forall k :: k in m ==> m[clave] <= m[k] }

  /** The recorded outcome is one the code can give: of equally old entries either may go. */
  predicate Legal(m: Cache, e: Evento) {
    e.Intento? ==>
      && e.t <= e.tPurga
      && (e.envia <==> !Reciente(m, e.clave, e.t))
      && (e.desalojada.Some? <==> e.envia && |Purgada(m, e.tPurga)| >= MAXIMO)
      && (e.desalojada.Some? ==> MasVieja(Purgada(m, e.tPurga), e.desalojada.value))
  }

  function Tras(m: Cache, e: Evento): Cache {
    match e
    case FalloEnvio(clave) => Sin(m, clave)
    case Intento(clave, t, tPurga, envia, desalojada) =>
      if !envia then m else
      var p := Purgada(m, tPurga);
      (if desalojada.Some? then Sin(p, desalojada.value) else p)[clave := t]
  }

  // ---------------------------------------------------------------- the service

  class EmailAlertService {
    var ultimoEnvio: Cache

    ghost predicate Valid()
      reads this
    {
      |ultimoEnvio| <= MAXIMO
    }

    constructor ()
      ensures Valid() && ultimoEnvio == map[]
    {
      ultimoEnvio := map[];
    }

    method PurgarExpiradas(ahora: Instante)
      modifies this
      ensures ultimoEnvio == Vigentes(old(ultimoEnvio), ahora)
      ensures forall k :: k in ultimoEnvio <==> k in old(ultimoEnvio) && ahora - old(ultimoEnvio)[k] < 900
      ensures forall k :: k in ultimoEnvio ==> ultimoEnvio[k] == old(ultimoEnvio)[k]
    {
      var quedan := ultimoEnvio.Keys;
      ghost var antes := ultimoEnvio;
      while quedan != {}
        invariant quedan <= antes.Keys
        invariant ultimoEnvio == map k | k in antes && (k in quedan || ahora - antes[k] < VENTANA) :: antes[k]
        decreases quedan
      {
        var k :| k in quedan;
        quedan := quedan - {k};
        if ahora - ultimoEnvio[k] >= VENTANA {
          ultimoEnvio := Sin(ultimoEnvio, k);
        }
      }
    }

    method ClaveMasVieja() returns (clave: string)
      requires ultimoEnvio != map[]
      ensures MasVieja(ultimoEnvio, clave)
    {
      var quedan := ultimoEnvio.Keys;
      clave :| clave in quedan;
      quedan := quedan - {clave};
      while quedan != {}
        invariant quedan <= ultimoEnvio.Keys && clave in ultimoEnvio
        invariant forall k :: k in ultimoEnvio && k !in quedan ==> ultimoEnvio[clave] <= ultimoEnvio[k]
        decreases quedan
      {
        var k :| k in quedan;
        quedan := quedan - {k};
        if ultimoEnvio[k] < ultimoEnvio[clave] {
          clave := k;
        }
      }
    }

    /** `_deberia_enviar`: the answer and the new cache are those of a legal event of the trace. */
    method DeberiaEnviar(clave: Option<string>, ahora: Instante, ahoraPurga: Instante)
      returns (envia: bool, ghost e: Evento)
      requires Valid() && ahora <= ahoraPurga
      modifies this
      ensures Valid()
      ensures clave.None? ==> envia && ultimoEnvio == old(ultimoEnvio)
      ensures clave.Some? ==>
                e.Intento? && e.clave == clave.value && e.t == ahora && e.tPurga == ahoraPurga && e.envia == envia
                && Legal(old(ultimoEnvio), e) && ultimoEnvio == Tras(old(ultimoEnvio), e)
      // told of the entries: no exactly within fifteen minutes, room made only when five hundred are there
      ensures clave.Some? ==>
                (envia <==> clave.value !in old(ultimoEnvio) || ahora - old(ultimoEnvio)[clave.value] >= 900)
      ensures !envia ==> ultimoEnvio == old(ultimoEnvio)
      ensures clave.Some? && envia ==> clave.value in ultimoEnvio && ultimoEnvio[clave.value] == ahora
      ensures clave.Some? && envia && |old(ultimoEnvio)| < 500 ==>
                ultimoEnvio == old(ultimoEnvio)[clave.value := ahora]
      ensures clave.Some? && envia ==>
                forall k :: k in old(ultimoEnvio) && k != clave.value && ahoraPurga - old(ultimoEnvio)[k] < 900
                            && k !in ultimoEnvio ==>
                  forall j :: j in ultimoEnvio && j != clave.value ==> old(ultimoEnvio)[k] <= ultimoEnvio[j]
      ensures clave.Some? && envia ==>
                forall k :: k in ultimoEnvio && k != clave.value ==>
                  k in old(ultimoEnvio) && ultimoEnvio[k] == old(ultimoEnvio)[k]
    {
      e := Intento("", ahora, ahoraPurga, true, None);
      if clave.None? {
        return true, e;
      }
      if clave.value in ultimoEnvio && ahora - ultimoEnvio[clave.value] < VENTANA {
        return false, Intento(clave.value, ahora, ahoraPurga, false, None);
      }
      ghost var desalojada: Option<string> := None;
      if |ultimoEnvio| >= MAXIMO {
        PurgarExpiradas(ahoraPurga);
        PurgarAchica(old(ultimoEnvio), ahoraPurga);
        if |ultimoEnvio| >= MAXIMO {
          var vieja := ClaveMasVieja();
          QuitarAchica(ultimoEnvio, vieja);
          ultimoEnvio := Sin(ultimoEnvio, vieja);
          desalojada := Some(vieja);
        }
      }
      ultimoEnvio := ultimoEnvio[clave.value := ahora];
      return true, Intento(clave.value, ahora, ahoraPurga, true, desalojada);
    }

    /** `_liberar_dedup_si_fallo`: unconditional, even if a later send renewed the mark. */
    method LiberarSiFallo(exito: bool, clave: string)
      requires Valid()
      modifies this
      ensures Valid()
      ensures ultimoEnvio == if exito then old(ultimoEnvio) else Tras(old(ultimoEnvio), FalloEnvio(clave))
      ensures forall k :: k in ultimoEnvio <==> k in old(ultimoEnvio) && (exito || k != clave)
      ensures forall k :: k in ultimoEnvio ==> ultimoEnvio[k] == old(ultimoEnvio)[k]
    {
      if !exito {
        QuitarAchica(ultimoEnvio, clave);
        ultimoEnvio := Sin(ultimoEnvio, clave);
      }
    }
  }

  lemma QuitarAchica(m: Cache, clave: string)
    ensures |Sin(m, clave)| == if clave in m then |m| - 1 else |m|
  {
    assert Sin(m, clave).Keys == m.Keys - {clave};
    assert |Sin(m, clave).Keys| == |Sin(m, clave)| && |m.Keys| == |m|;
  }

  lemma {:induction false} SubconjuntoMenor(a: set<string>, b: set<string>)
    requires a <= b
    ensures |a| <= |b|
    decreases b
  {
    if a != {} {
      var x :| x in a;
      SubconjuntoMenor(a - {x}, b - {x});
    }
  }

  lemma PurgarAchica(m: Cache, t: Instante)
    ensures |Vigentes(m, t)| <= |m|
  {
    SubconjuntoMenor(Vigentes(m, t).Keys, m.Keys);
    assert |Vigentes(m, t).Keys| == |Vigentes(m, t)| && |m.Keys| == |m|;
  }

  // ---------------------------------------------------------------- traces

  function Estado(es: seq<Evento>): Cache {
    if es == [] then map[] else Tras(Estado(es[..|es| - 1]), es[|es| - 1])
  }

  predicate LegalEn(es: seq<Evento>, i: nat) { i < |es| ==> Legal(Estado(es[..i]), es[i]) }

  predicate EnOrden(a: Evento, b: Evento) { a.Intento? && b.Intento? ==> a.tPurga <= b.t }

  ghost predicate Traza(es: seq<Evento>) {
    && (forall i: nat :: LegalEn(es, i))
    && (forall i, j {:trigger EnOrden(es[i], es[j])} :: 0 <= i < j < |es| ==> EnOrden(es[i], es[j]))
  }

  lemma Prefijo(es: seq<Evento>, j: nat)
    requires j < |es|
    ensures Estado(es[..j + 1]) == Tras(Estado(es[..j]), es[j])
  {
    assert es[..j + 1][..j] == es[..j];
  }

  /** The cache never holds more than 500 entries. */
  lemma {:induction false} NuncaPasaDelMaximo(es: seq<Evento>, n: nat)
    requires Traza(es) && n <= |es|
    ensures |Estado(es[..n])| <= 500
  {
    if n > 0 {
      NuncaPasaDelMaximo(es, n - 1);
      assert LegalEn(es, n - 1);
      Prefijo(es, n - 1);
      TrasAcotado(Estado(es[..n - 1]), es[n - 1]);
    } else {
      assert es[..0] == [];
    }
  }

  lemma TrasAcotado(m: Cache, e: Evento)
    requires |m| <= MAXIMO && Legal(m, e)
    ensures |Tras(m, e)| <= MAXIMO
  {
    match e
    case FalloEnvio(clave) => QuitarAchica(m, clave);
    case Intento(clave, t, tPurga, envia, desalojada) =>
      if envia {
        PurgarAchica(m, tPurga);
        if desalojada.Some? {
          QuitarAchica(Purgada(m, tPurga), desalojada.value);
        }
      }
  }

  /** The event frees `clave`: it was thrown out for room, or one of its sends failed. */
  predicate Libera(e: Evento, clave: string) {
    match e
    case FalloEnvio(k) => k == clave
    case Intento(_, _, _, _, desalojada) => desalojada == Some(clave)
  }

  predicate Acepta(e: Evento, clave: string) { e.Intento? && e.envia && e.clave == clave }

  /** One event within the window neither purges nor forgets a mark it does not free. */
  lemma MarcaSobrevive(m: Cache, e: Evento, clave: string, desde: Instante)
    requires Legal(m, e) && !Libera(e, clave) && clave in m && desde <= m[clave]
    requires e.Intento? ==> desde <= e.t && e.tPurga - desde < VENTANA
    ensures clave in Tras(m, e) && desde <= Tras(m, e)[clave]
  {
  }

  /** Until it is freed, an accepted key stays marked for the whole window. */
  lemma {:induction false} SigueMarcada(es: seq<Evento>, i: nat, j: nat, clave: string, n: nat)
    requires Traza(es) && i < n <= j < |es| && Acepta(es[i], clave) && es[j].Intento? && es[j].t - es[i].t < VENTANA
    requires forall m :: i < m < j ==> !Libera(es[m], clave)
    ensures MarcadaDesde(Estado(es[..n]), clave, es[i].t)
    decreases n
  {
    Prefijo(es, n - 1);
    if n - 1 > i {
      SigueMarcada(es, i, j, clave, n - 1);
      UnEventoMas(es, i, j, clave, n - 1);
    }
  }

  predicate MarcadaDesde(m: Cache, clave: string, desde: Instante) { clave in m && desde <= m[clave] }

  lemma UnEventoMas(es: seq<Evento>, i: nat, j: nat, clave: string, m: nat)
    requires Traza(es) && i < m < j < |es| && es[i].Intento? && es[j].Intento? && es[j].t - es[i].t < VENTANA
    requires !Libera(es[m], clave) && MarcadaDesde(Estado(es[..m]), clave, es[i].t)
    ensures MarcadaDesde(Tras(Estado(es[..m]), es[m]), clave, es[i].t)
  {
    assert LegalEn(es, m) && LegalEn(es, i);
    assert EnOrden(es[i], es[m]) && EnOrden(es[m], es[j]);
    MarcaSobrevive(Estado(es[..m]), es[m], clave, es[i].t);
  }

  /**
   * Two accepted sends of one key less than 900 seconds apart: in between, the key was thrown out for room or one of
   * its sends failed.
   */
  lemma DosEnviosCercanos(es: seq<Evento>, i: nat, j: nat, clave: string)
    requires Traza(es) && i < j < |es| && Acepta(es[i], clave) && Acepta(es[j], clave) && es[j].t - es[i].t < 900
    ensures exists m :: i < m < j && Libera(es[m], clave)
  {
    assert LegalEn(es, j);
    if forall m :: i < m < j ==> !Libera(es[m], clave) {
      SigueMarcada(es, i, j, clave, j);
    }
  }
}
