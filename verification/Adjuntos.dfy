/**
 * Attachments sent to the SFC with a per-file checkpoint, over any number of retries and worker cycles.
 *
 * A task posts one file and, on acceptance or "duplicate", records it at once in the case's checkpoint. The post and
 * the mark are two steps: the mark may be lost, and so may the reply to an accepted post. The tasks of a batch run
 * concurrently and all decide on the checkpoint read before the batch, which counts as empty if it cannot be read.
 */
module Adjuntos {
  import opened Comun

  /** An attachment as the CRM or the PDF generator describes it; `bytesHash` stands for inline content. */
  datatype Adjunto = Adjunto(s3Key: Option<string>, nombre: Option<string>, bytesHash: Option<string>)

  /**
   * What becomes of one task that is not skipped. The mark of an accepted file or of a duplicate may not get through;
   * its error is swallowed. `Falla` covers S3 errors before the post, SFC rejections, tasks cut short by a crash, and,
   * with `recibido`, a post the SFC took although its reply was lost or the process died before the mark.
   */
  datatype Respuesta = Acepta(marcado: bool) | Duplicado(marcado: bool) | Falla(error: string, recibido: bool)

  predicate Recibe(r: Respuesta) { r.Acepta? || (r.Falla? && r.recibido) }
  predicate Marca(r: Respuesta) { !r.Falla? && r.marcado }

  /** One call of the service; `leido` says whether the checkpoint could be read. */
  datatype Lote = Lote(adjuntos: seq<Adjunto>, respuestas: seq<Respuesta>, leido: bool)

  datatype Resultado = Ok(enviados: seq<Aviso>) | Err(error: string)
  datatype Aviso = YaConfirmado(pos: nat) | Enviado(pos: nat) | DuplicadoOmitido(pos: nat)

  /** The case's checkpoint, and every post the SFC accepted, by identity. */
  datatype Estado = Estado(completados: set<string>, recibidos: multiset<string>)

  // ---------------------------------------------------------------- identity

  predicate Cierto(s: Option<string>) { s.Some? && s.value != "" }

  function UltimoSegmento(s: string): string {
    if s == "" then "" else if s[|s| - 1] == '/' then "" else UltimoSegmento(s[..|s| - 1]) + [s[|s| - 1]]
  }

  function NombreOriginal(a: Adjunto): string {
    if Cierto(a.nombre) then a.nombre.value else if Cierto(a.s3Key) then UltimoSegmento(a.s3Key.value) else ""
  }

  /** `_resolver_identidad_adjunto` and the identity of `_procesar_envio_s3_a_sfc`; None when there is no name. */
  function Identidad(a: Adjunto): Option<string> {
    if NombreOriginal(a) == "" then None else
    var base := if Cierto(a.s3Key) then a.s3Key.value else NombreOriginal(a);
    Some(if a.bytesHash.Some? then base + ":" + a.bytesHash.value else base)
  }

  // ---------------------------------------------------------------- what a batch does

  predicate BienFormado(l: Lote) { |l.adjuntos| == |l.respuestas| }

  /** Task `i` goes to the SFC: it has an identity that the checkpoint read at the start does not have. */
  predicate SeEnvia(adj: seq<Adjunto>, previos: set<string>, i: nat) {
    i < |adj| && Identidad(adj[i]).Some? && Identidad(adj[i]).value !in previos
  }

  /** Task `i`, decided on the checkpoint read before the batch. */
  function Aplica(e: Estado, l: Lote, previos: set<string>, i: nat): Estado
    requires BienFormado(l)
  {
    if SeEnvia(l.adjuntos, previos, i) then UnaTarea(e, Identidad(l.adjuntos[i]).value, l.respuestas[i]) else e
  }

  /** What the first `n` tasks leave; they all look at `previos` only. */
  function Tras(e: Estado, l: Lote, previos: set<string>, n: nat): Estado
    requires BienFormado(l) && n <= |l.adjuntos|
  {
    if n == 0 then e else Aplica(Tras(e, l, previos, n - 1), l, previos, n - 1)
  }

  function UnaTarea(e: Estado, id: string, r: Respuesta): Estado {
    Estado(if Marca(r) then e.completados + {id} else e.completados,
           if Recibe(r) then e.recibidos + multiset{id} else e.recibidos)
  }

  /** The checkpoint as the batch read it. */
  function Previos(e: Estado, l: Lote): set<string> { if l.leido then e.completados else {} }

  function TrasLote(e: Estado, l: Lote): Estado
    requires BienFormado(l)
  {
    Tras(e, l, Previos(e, l), |l.adjuntos|)
  }

  /** What a normal return reports for task `i`; nothing for a nameless attachment. */
  function AvisoDe(l: Lote, previos: set<string>, i: nat): seq<Aviso>
    requires BienFormado(l) && i < |l.adjuntos|
  {
    if Identidad(l.adjuntos[i]).None? then []
    else if Identidad(l.adjuntos[i]).value in previos then [YaConfirmado(i)]
    else match l.respuestas[i]
      case Acepta(_) => [Enviado(i)]
      case Duplicado(_) => [DuplicadoOmitido(i)]
      case Falla(_, _) => []
  }

  /** What task `i` hands to `gather`. */
  function ResultadoDe(l: Lote, previos: set<string>, i: nat): Option<Resultado>
    requires BienFormado(l) && i < |l.adjuntos|
  {
    if Identidad(l.adjuntos[i]).None? then None
    else if SeEnvia(l.adjuntos, previos, i) && l.respuestas[i].Falla? then Some(Err(l.respuestas[i].error))
    else Some(Ok(AvisoDe(l, previos, i)))
  }

  function Avisos(l: Lote, previos: set<string>, n: nat): seq<Aviso>
    requires BienFormado(l) && n <= |l.adjuntos|
  {
    if n == 0 then [] else Avisos(l, previos, n - 1) + AvisoDe(l, previos, n - 1)
  }

  /** The first task, in the order of the list, that is sent and fails. */
  function PrimeraFalla(l: Lote, previos: set<string>, n: nat): (i: Option<nat>)
    requires BienFormado(l) && n <= |l.adjuntos|
    ensures i.Some? ==> i.value < n && SeEnvia(l.adjuntos, previos, i.value) && l.respuestas[i.value].Falla?
    ensures forall j: nat :: j < n && SeEnvia(l.adjuntos, previos, j) && l.respuestas[j].Falla? ==>
              i.Some? && i.value <= j
  {
    if n == 0 then None
    else if PrimeraFalla(l, previos, n - 1).Some? then PrimeraFalla(l, previos, n - 1)
    else if SeEnvia(l.adjuntos, previos, n - 1) && l.respuestas[n - 1].Falla? then Some(n - 1)
    else None
  }

  /** One of the first `n` tasks was sent with identity `x` and its mark got through. */
  predicate Marcado(l: Lote, previos: set<string>, n: nat, x: string)
    requires BienFormado(l)
  {
    exists i: nat :: i < n && SeEnvia(l.adjuntos, previos, i) && Identidad(l.adjuntos[i]).value == x
                     && Marca(l.respuestas[i])
  }

  /** The checkpoint gains exactly the identities whose mark got through. */
  lemma {:induction false} ConfirmadoSii(e: Estado, l: Lote, previos: set<string>, n: nat, x: string)
    requires BienFormado(l) && n <= |l.adjuntos|
    ensures x in Tras(e, l, previos, n).completados <==> x in e.completados || Marcado(l, previos, n, x)
  {
    if n > 0 {
      ConfirmadoSii(e, l, previos, n - 1, x);
      assert Marcado(l, previos, n, x)
        <==> Marcado(l, previos, n - 1, x)
             || (SeEnvia(l.adjuntos, previos, n - 1) && Identidad(l.adjuntos[n - 1]).value == x
                 && Marca(l.respuestas[n - 1]));
    }
  }

  /** No two files of the batch that go out share an identity. */
  predicate Distintos(adj: seq<Adjunto>, previos: set<string>) {
    forall i: nat, j: nat :: i < j < |adj| && SeEnvia(adj, previos, i) && SeEnvia(adj, previos, j) ==>
      Identidad(adj[i]) != Identidad(adj[j])
  }

  /** Distinct identities, whatever the checkpoint says. */
  predicate SinRepetidos(adj: seq<Adjunto>) { Distintos(adj, {}) }

  // ---------------------------------------------------------------- concurrency

  function Indices(n: nat): (o: seq<nat>)
    ensures |o| == n && forall i :: i in o ==> i < n
  {
    if n == 0 then [] else Indices(n - 1) + [n - 1]
  }

  /** The tasks finishing in the order `o`. */
  function TrasOrden(e: Estado, l: Lote, previos: set<string>, o: seq<nat>): Estado
    requires BienFormado(l)
  {
    Pliega((x: Estado, i: nat) => Aplica(x, l, previos, i), e, o)
  }

  lemma {:induction false} EnListaEsTras(e: Estado, l: Lote, previos: set<string>, n: nat)
    requires BienFormado(l) && n <= |l.adjuntos|
    ensures TrasOrden(e, l, previos, Indices(n)) == Tras(e, l, previos, n)
  {
    if n > 0 {
      EnListaEsTras(e, l, previos, n - 1);
      assert Indices(n)[..n - 1] == Indices(n - 1);
    }
  }

  lemma TareasConmutan(e: Estado, l: Lote, previos: set<string>, i: nat, j: nat)
    requires BienFormado(l)
    ensures Aplica(Aplica(e, l, previos, i), l, previos, j) == Aplica(Aplica(e, l, previos, j), l, previos, i)
  {
  }

  /** Whatever order the concurrent tasks of a batch finish in, checkpoint and accepted posts come out the same. */
  lemma ConcurrenciaNoImporta(e: Estado, l: Lote, o: seq<nat>)
    requires BienFormado(l) && multiset(o) == multiset(Indices(|l.adjuntos|))
    ensures TrasOrden(e, l, Previos(e, l), o) == TrasLote(e, l)
  {
    var previos := Previos(e, l);
    var f := (x: Estado, i: nat) => Aplica(x, l, previos, i);
    forall x, i, j ensures f(f(x, i), j) == f(f(x, j), i) {
      TareasConmutan(x, l, previos, i, j);
    }
    EnListaEsTras(e, l, previos, |l.adjuntos|);
    OrdenNoImporta(f, e, o, Indices(|l.adjuntos|));
  }

  // ---------------------------------------------------------------- the service

  class S3Service {
    var completados: set<string>
    var recibidos: multiset<string>

    function Vista(): Estado
      reads this
    {
      Estado(completados, recibidos)
    }

    constructor ()
      ensures Vista() == Estado({}, multiset{})
    {
      completados, recibidos := {}, multiset{};
    }

    /** `_procesar_envio_s3_a_sfc` for one item. */
    method ProcesarEnvio(l: Lote, i: nat, previos: set<string>) returns (res: Option<Resultado>)
      requires BienFormado(l) && i < |l.adjuntos|
      modifies this
      ensures Vista() == if SeEnvia(l.adjuntos, previos, i)
                         then UnaTarea(old(Vista()), Identidad(l.adjuntos[i]).value, l.respuestas[i]) else old(Vista())
      ensures res == ResultadoDe(l, previos, i)
      // what a caller sees of one task, answer by answer
      ensures Identidad(l.adjuntos[i]).None? ==> res == None
      ensures SeEnvia(l.adjuntos, previos, i) ==>
                var x := Identidad(l.adjuntos[i]).value;
                match l.respuestas[i]
                case Acepta(m) =>
                  && res == Some(Ok([Enviado(i)])) && recibidos == old(recibidos) + multiset{x}
                  && completados == old(completados) + (if m then {x} else {})
                case Duplicado(m) =>
                  && res == Some(Ok([DuplicadoOmitido(i)])) && recibidos == old(recibidos)
                  && completados == old(completados) + (if m then {x} else {})
                case Falla(error, rec) =>
                  && res == Some(Err(error)) && completados == old(completados)
                  && recibidos == old(recibidos) + (if rec then multiset{x} else multiset{})
      ensures Identidad(l.adjuntos[i]).Some? && !SeEnvia(l.adjuntos, previos, i) ==>
                res == Some(Ok([YaConfirmado(i)])) && Vista() == old(Vista())
    {
      var identidad := Identidad(l.adjuntos[i]);
      if identidad.None? {
        return None;
      }
      if identidad.value in previos {
        return Some(Ok([YaConfirmado(i)]));
      }
      match l.respuestas[i] {
        case Acepta(marcado) =>
          recibidos := recibidos + multiset{identidad.value};
          if marcado {
            completados := completados + {identidad.value};
          }
          return Some(Ok([Enviado(i)]));
        case Duplicado(marcado) =>
          if marcado {
            completados := completados + {identidad.value};
          }
          return Some(Ok([DuplicadoOmitido(i)]));
        case Falla(e, recibido) =>
          if recibido {
            recibidos := recibidos + multiset{identidad.value};
          }
          return Some(Err(e));
      }
    }

    /**
     * `transferir_lote_s3_a_sfc`: every task runs to its end, then the first failure in the order of the list is
     * raised. A normal return means every nameable file was skipped as confirmed, accepted or a duplicate; which of
     * them the checkpoint has afterwards depends on whose mark got through.
     */
    method TransferirLote(l: Lote) returns (r: Resultado)
      requires BienFormado(l)
      modifies this
      ensures Vista() == TrasLote(old(Vista()), l)
      ensures r == var f := PrimeraFalla(l, Previos(old(Vista()), l), |l.adjuntos|);
                   if f.Some? then Err(l.respuestas[f.value].error)
                   else Ok(Avisos(l, Previos(old(Vista()), l), |l.adjuntos|))
      ensures r.Ok? ==> forall i: nat :: SeEnvia(l.adjuntos, Previos(old(Vista()), l), i) ==> !l.respuestas[i].Falla?
      ensures forall x :: x in completados
                          <==> x in old(completados) || Marcado(l, Previos(old(Vista()), l), |l.adjuntos|, x)
    {
      var previos := if l.leido then completados else {};
      var primero: Option<string> := None;
      var enviados := [];
      for i := 0 to |l.adjuntos|
        invariant Vista() == Tras(old(Vista()), l, previos, i)
        invariant primero == var f := PrimeraFalla(l, previos, i);
                             if f.Some? then Some(l.respuestas[f.value].error) else None
        invariant enviados == Avisos(l, previos, i)
      {
        assert ResultadoDe(l, previos, i).None? ==> AvisoDe(l, previos, i) == [];
        var res := ProcesarEnvio(l, i, previos);
        if res.Some? {
          match res.value {
            case Ok(avisos) => enviados := enviados + avisos;
            case Err(e) => primero := if primero.None? then Some(e) else primero;
          }
        }
      }
      forall x ensures x in completados <==> x in old(completados) || Marcado(l, previos, |l.adjuntos|, x) {
        ConfirmadoSii(old(Vista()), l, previos, |l.adjuntos|, x);
      }
      r := if primero.Some? then Err(primero.value) else Ok(enviados);
    }
  }

  // ---------------------------------------------------------------- accepted how often

  /** No file was accepted twice. */
  ghost predicate SinDobles(e: Estado) { forall x :: e.recibidos[x] <= 1 }

  /** Nor is any accepted file missing from the checkpoint. */
  ghost predicate UnaVez(e: Estado) { SinDobles(e) && forall x :: e.recibidos[x] > 0 ==> x in e.completados }

  lemma {:induction false} TrasCrece(e: Estado, l: Lote, previos: set<string>, n: nat, m: nat)
    requires BienFormado(l) && n <= m <= |l.adjuntos|
    ensures Tras(e, l, previos, n).completados <= Tras(e, l, previos, m).completados
    ensures Tras(e, l, previos, n).recibidos <= Tras(e, l, previos, m).recibidos
  {
    if n < m {
      TrasCrece(e, l, previos, n, m - 1);
    }
  }

  /** One of the first `n` tasks was sent with identity `x` and the SFC took it. */
  predicate Recibido(l: Lote, previos: set<string>, n: nat, x: string)
    requires BienFormado(l)
  {
    exists i: nat :: i < n && SeEnvia(l.adjuntos, previos, i) && Identidad(l.adjuntos[i]).value == x
                     && Recibe(l.respuestas[i])
  }

  predicate RecibeAhora(l: Lote, previos: set<string>, i: nat, x: string)
    requires BienFormado(l)
  {
    SeEnvia(l.adjuntos, previos, i) && Identidad(l.adjuntos[i]).value == x && Recibe(l.respuestas[i])
  }

  lemma RecibidoUnoMas(l: Lote, previos: set<string>, n: nat, x: string)
    requires BienFormado(l) && n < |l.adjuntos|
    ensures Recibido(l, previos, n + 1, x) <==> Recibido(l, previos, n, x) || RecibeAhora(l, previos, n, x)
    ensures Distintos(l.adjuntos, previos) && RecibeAhora(l, previos, n, x) ==> !Recibido(l, previos, n, x)
  {
    assert RecibeAhora(l, previos, n, x) ==> Recibido(l, previos, n + 1, x);
  }

  /** In a batch of distinct files the SFC takes each one at most once more. */
  lemma {:induction false} CuentaTras(e: Estado, l: Lote, previos: set<string>, n: nat, x: string)
    requires BienFormado(l) && n <= |l.adjuntos| && Distintos(l.adjuntos, previos)
    ensures Tras(e, l, previos, n).recibidos[x] == e.recibidos[x] + (if Recibido(l, previos, n, x) then 1 else 0)
  {
    if n > 0 {
      CuentaTras(e, l, previos, n - 1, x);
      RecibidoUnoMas(l, previos, n - 1, x);
    }
  }

  /**
   * A batch leaves nothing open: every post the SFC takes gets its mark through. Should the checkpoint have been
   * unreadable, the post must also be the first of its file, and an older mark does as well.
   */
  predicate Limpio(e: Estado, l: Lote)
    requires BienFormado(l)
  {
    forall i: nat :: i < |l.adjuntos| && SeEnvia(l.adjuntos, Previos(e, l), i) && Recibe(l.respuestas[i]) ==>
      DejaCerrado(e, l.leido, Identidad(l.adjuntos[i]).value, Marca(l.respuestas[i]))
  }

  predicate DejaCerrado(e: Estado, leido: bool, x: string, marcado: bool) {
    if leido then marcado else e.recibidos[x] == 0 && (marcado || x in e.completados)
  }

  lemma MarcadoSii(l: Lote, previos: set<string>, i: nat)
    requires BienFormado(l) && Distintos(l.adjuntos, previos) && SeEnvia(l.adjuntos, previos, i)
    ensures Marcado(l, previos, |l.adjuntos|, Identidad(l.adjuntos[i]).value) <==> Marca(l.respuestas[i])
    ensures Recibido(l, previos, |l.adjuntos|, Identidad(l.adjuntos[i]).value) <==> Recibe(l.respuestas[i])
  {
  }

  /** For one file of a batch: it stays accepted at most once and in the checkpoint if so. */
  lemma UnaVezPorArchivo(e: Estado, l: Lote, i: nat)
    requires BienFormado(l) && UnaVez(e) && SinRepetidos(l.adjuntos) && SeEnvia(l.adjuntos, Previos(e, l), i)
    ensures var x, e' := Identidad(l.adjuntos[i]).value, TrasLote(e, l);
            (e'.recibidos[x] <= 1 && (e'.recibidos[x] > 0 ==> x in e'.completados))
            <==> (Recibe(l.respuestas[i]) ==> DejaCerrado(e, l.leido, x, Marca(l.respuestas[i])))
  {
    var x := Identidad(l.adjuntos[i]).value;
    SinRepetidosBasta(l.adjuntos, Previos(e, l));
    CuentaTras(e, l, Previos(e, l), |l.adjuntos|, x);
    ConfirmadoSii(e, l, Previos(e, l), |l.adjuntos|, x);
    MarcadoSii(l, Previos(e, l), i);
  }

  lemma LosDemasIgual(e: Estado, l: Lote, x: string)
    requires BienFormado(l) && SinRepetidos(l.adjuntos)
    requires forall i: nat :: SeEnvia(l.adjuntos, Previos(e, l), i) ==> Identidad(l.adjuntos[i]).value != x
    ensures TrasLote(e, l).recibidos[x] == e.recibidos[x] && (x in TrasLote(e, l).completados <==> x in e.completados)
  {
    SinRepetidosBasta(l.adjuntos, Previos(e, l));
    CuentaTras(e, l, Previos(e, l), |l.adjuntos|, x);
    ConfirmadoSii(e, l, Previos(e, l), |l.adjuntos|, x);
  }

  /** A batch of distinct files keeps everything accepted once and confirmed if and only if it is clean. */
  lemma LoteUnaVezSii(e: Estado, l: Lote)
    requires BienFormado(l) && UnaVez(e) && SinRepetidos(l.adjuntos)
    ensures UnaVez(TrasLote(e, l)) <==> Limpio(e, l)
  {
    var e' := TrasLote(e, l);
    forall i: nat | SeEnvia(l.adjuntos, Previos(e, l), i)
      ensures var x := Identidad(l.adjuntos[i]).value;
              (e'.recibidos[x] <= 1 && (e'.recibidos[x] > 0 ==> x in e'.completados))
              <==> (Recibe(l.respuestas[i]) ==> DejaCerrado(e, l.leido, x, Marca(l.respuestas[i])))
    {
      UnaVezPorArchivo(e, l, i);
    }
    if Limpio(e, l) {
      forall x ensures e'.recibidos[x] <= 1 && (e'.recibidos[x] > 0 ==> x in e'.completados) {
        if forall i: nat :: SeEnvia(l.adjuntos, Previos(e, l), i) ==> Identidad(l.adjuntos[i]).value != x {
          LosDemasIgual(e, l, x);
        }
      }
    }
  }

  lemma SinRepetidosBasta(adj: seq<Adjunto>, previos: set<string>)
    requires SinRepetidos(adj)
    ensures Distintos(adj, previos)
  {
    assert forall i: nat :: SeEnvia(adj, previos, i) ==> SeEnvia(adj, {}, i);
  }

  /**
   * The exact condition on a batch that could read its checkpoint: it is safe whatever the SFC answers and whichever
   * marks are lost if and only if no two files that go out share an identity. Two such files are both posted, because
   * each looks at the checkpoint read before the batch.
   */
  lemma UnaVezSii(e: Estado, adj: seq<Adjunto>)
    requires UnaVez(e)
    ensures (forall rs: seq<Respuesta> :: |rs| == |adj| ==> SinDobles(TrasLote(e, Lote(adj, rs, true))))
            <==> Distintos(adj, e.completados)
  {
    if Distintos(adj, e.completados) {
      forall rs: seq<Respuesta> | |rs| == |adj| ensures SinDobles(TrasLote(e, Lote(adj, rs, true))) {
        DistintosSinDobles(e, Lote(adj, rs, true));
      }
    } else {
      var i: nat, j: nat :| i < j < |adj| && SeEnvia(adj, e.completados, i) && SeEnvia(adj, e.completados, j)
                            && Identidad(adj[i]) == Identidad(adj[j]);
      var rs := seq(|adj|, _ => Acepta(true));
      DosVeces(e, Lote(adj, rs, true), i, j);
    }
  }

  lemma DistintosSinDobles(e: Estado, l: Lote)
    requires BienFormado(l) && UnaVez(e) && l.leido && Distintos(l.adjuntos, e.completados)
    ensures SinDobles(TrasLote(e, l))
  {
    forall x ensures TrasLote(e, l).recibidos[x] <= 1 {
      CuentaTras(e, l, e.completados, |l.adjuntos|, x);
      assert Recibido(l, e.completados, |l.adjuntos|, x) ==> x !in e.completados;
    }
  }

  lemma UnaMas(e: Estado, l: Lote, previos: set<string>, i: nat)
    requires BienFormado(l) && SeEnvia(l.adjuntos, previos, i) && Recibe(l.respuestas[i])
    ensures var x := Identidad(l.adjuntos[i]).value;
            Tras(e, l, previos, i + 1).recibidos[x] == Tras(e, l, previos, i).recibidos[x] + 1
  {
  }

  lemma DosVeces(e: Estado, l: Lote, i: nat, j: nat)
    requires BienFormado(l) && i < j < |l.adjuntos|
    requires SeEnvia(l.adjuntos, Previos(e, l), i) && SeEnvia(l.adjuntos, Previos(e, l), j)
    requires Identidad(l.adjuntos[i]) == Identidad(l.adjuntos[j])
    requires Recibe(l.respuestas[i]) && Recibe(l.respuestas[j])
    ensures TrasLote(e, l).recibidos[Identidad(l.adjuntos[i]).value] >= 2
  {
    var previos := Previos(e, l);
    UnaMas(e, l, previos, i);
    UnaMas(e, l, previos, j);
    var x := Identidad(l.adjuntos[i]).value;
    CuentaCrece(e, l, previos, i + 1, j, x);
    CuentaCrece(e, l, previos, j + 1, |l.adjuntos|, x);
  }

  lemma CuentaCrece(e: Estado, l: Lote, previos: set<string>, n: nat, m: nat, x: string)
    requires BienFormado(l) && n <= m <= |l.adjuntos|
    ensures Tras(e, l, previos, n).recibidos[x] <= Tras(e, l, previos, m).recibidos[x]
  {
    TrasCrece(e, l, previos, n, m);
  }

  // ---------------------------------------------------------------- retries

  predicate Legales(ls: seq<Lote>) { forall l :: l in ls ==> BienFormado(l) && SinRepetidos(l.adjuntos) }

  function TrasLotes(e: Estado, ls: seq<Lote>): Estado
    requires Legales(ls)
    decreases |ls|
  {
    if ls == [] then e else TrasLotes(TrasLote(e, ls[0]), ls[1..])
  }

  /** Every batch is clean where it runs. */
  predicate Limpios(e: Estado, ls: seq<Lote>)
    requires Legales(ls)
    decreases |ls|
  {
    ls == [] || (Limpio(e, ls[0]) && Limpios(TrasLote(e, ls[0]), ls[1..]))
  }

  /** However it goes on with clean batches, no file is accepted twice. */
  ghost predicate Seguro(e: Estado) {
    forall ms: seq<Lote> :: Legales(ms) && Limpios(e, ms) ==> SinDobles(TrasLotes(e, ms))
  }

  /** Clean retries, of one batch or of changing ones, keep every file accepted at most once and confirmed. */
  lemma {:induction false} ReintentosUnaVez(e: Estado, ls: seq<Lote>)
    requires UnaVez(e) && Legales(ls) && Limpios(e, ls)
    ensures UnaVez(TrasLotes(e, ls))
    decreases |ls|
  {
    if ls != [] {
      LoteUnaVezSii(e, ls[0]);
      ReintentosUnaVez(TrasLote(e, ls[0]), ls[1..]);
    }
  }

  /** What was confirmed stays confirmed, whatever fails or is lost. */
  lemma {:induction false} ConfirmadoQueda(e: Estado, ls: seq<Lote>)
    requires Legales(ls)
    ensures e.completados <= TrasLotes(e, ls).completados && e.recibidos <= TrasLotes(e, ls).recibidos
    decreases |ls|
  {
    if ls != [] {
      TrasCrece(e, ls[0], Previos(e, ls[0]), 0, |ls[0].adjuntos|);
      ConfirmadoQueda(TrasLote(e, ls[0]), ls[1..]);
    }
  }

  /** An accepted file without its mark is accepted again by one clean batch. */
  lemma SinMarcaSeDobla(e: Estado, a: Adjunto)
    requires Identidad(a).Some? && e.recibidos[Identidad(a).value] == 1 && Identidad(a).value !in e.completados
    ensures !Seguro(e)
  {
    var x := Identidad(a).value;
    var l := Lote([a], [Acepta(true)], true);
    assert SeEnvia(l.adjuntos, e.completados, 0);
    assert Tras(e, l, e.completados, 0) == e;
    assert TrasLote(e, l) == UnaTarea(e, x, Acepta(true));
    assert [l][1..] == [] && Limpios(TrasLote(e, l), []);
    assert Legales([l]) && Limpios(e, [l]) && TrasLotes(e, [l]) == TrasLote(e, l);
    assert TrasLote(e, l).recibidos[x] == 2;
  }

  /** After an unclean batch the file is either doubled already or will be by a clean one. */
  lemma SucioNoEsSeguro(e: Estado, l: Lote)
    requires BienFormado(l) && UnaVez(e) && SinRepetidos(l.adjuntos) && !Limpio(e, l)
    ensures !Seguro(TrasLote(e, l))
  {
    var e' := TrasLote(e, l);
    LoteUnaVezSii(e, l);
    var i: nat :| i < |l.adjuntos| && SeEnvia(l.adjuntos, Previos(e, l), i) && Recibe(l.respuestas[i])
                  && !DejaCerrado(e, l.leido, Identidad(l.adjuntos[i]).value, Marca(l.respuestas[i]));
    var x := Identidad(l.adjuntos[i]).value;
    UnaVezPorArchivo(e, l, i);
    SinRepetidosBasta(l.adjuntos, Previos(e, l));
    CuentaTras(e, l, Previos(e, l), |l.adjuntos|, x);
    MarcadoSii(l, Previos(e, l), i);
    if e'.recibidos[x] == 1 {
      SinMarcaSeDobla(e', l.adjuntos[i]);
    } else {
      assert Legales([]) && Limpios(e', []) && TrasLotes(e', []) == e';
    }
  }

  /**
   * The exact condition over any sequence of batches of distinct files, each with any answers: it could be stopped
   * after any of them and go on cleanly without a file being accepted twice, if and only if every batch was clean.
   */
  lemma {:induction false} ReintentosSii(e: Estado, ls: seq<Lote>)
    requires UnaVez(e) && Legales(ls)
    ensures Limpios(e, ls) <==> forall k: nat :: k <= |ls| ==> Legales(ls[..k]) && Seguro(TrasLotes(e, ls[..k]))
    decreases |ls|
  {
    UnaVezEsSeguro(e);
    if ls == [] {
      assert ls[..0] == [];
    } else {
      var e', resto := TrasLote(e, ls[0]), ls[1..];
      forall k: nat | k < |ls| ensures Legales(resto[..k]) && Legales(ls[..k + 1])
                                       && TrasLotes(e, ls[..k + 1]) == TrasLotes(e', resto[..k]) {
        assert ls[..k + 1][1..] == resto[..k];
      }
      if Limpio(e, ls[0]) {
        LoteUnaVezSii(e, ls[0]);
        ReintentosSii(e', resto);
        PrefijosDe(e, ls);
      } else {
        SucioNoEsSeguro(e, ls[0]);
        assert resto[..0] == [] && TrasLotes(e, ls[..1]) == e';
      }
    }
  }

  lemma UnaVezEsSeguro(e: Estado)
    requires UnaVez(e)
    ensures Seguro(e)
  {
    forall ms: seq<Lote> | Legales(ms) && Limpios(e, ms) ensures SinDobles(TrasLotes(e, ms)) {
      ReintentosUnaVez(e, ms);
    }
  }

  /** The prefixes of a history are the empty one and those of what follows its first batch. */
  lemma PrefijosDe(e: Estado, ls: seq<Lote>)
    requires ls != [] && Legales(ls) && Seguro(e)
    ensures (forall k: nat :: k <= |ls| ==> Legales(ls[..k]) && Seguro(TrasLotes(e, ls[..k])))
            <==> (forall k: nat :: k <= |ls[1..]| ==>
                    Legales(ls[1..][..k]) && Seguro(TrasLotes(TrasLote(e, ls[0]), ls[1..][..k])))
  {
    var e', resto := TrasLote(e, ls[0]), ls[1..];
    forall k: nat | k < |ls| ensures Legales(resto[..k]) && Legales(ls[..k + 1])
                                     && TrasLotes(e, ls[..k + 1]) == TrasLotes(e', resto[..k]) {
      assert ls[..k + 1][1..] == resto[..k];
    }
    assert ls[..0] == [] && TrasLotes(e, ls[..0]) == e;
    forall k: nat | k <= |resto| && forall n: nat :: n <= |ls| ==> Legales(ls[..n]) && Seguro(TrasLotes(e, ls[..n]))
      ensures Seguro(TrasLotes(e', resto[..k]))
    {
      assert Seguro(TrasLotes(e, ls[..k + 1]));
    }
    forall k: nat | k <= |ls|
                    && forall n: nat :: n <= |resto| ==> Legales(resto[..n]) && Seguro(TrasLotes(e', resto[..n]))
      ensures Legales(ls[..k]) && Seguro(TrasLotes(e, ls[..k]))
    {
      if k > 0 {
        assert Seguro(TrasLotes(e', resto[..k - 1]));
      }
    }
  }

  // ---------------------------------------------------------------- worker cycles

  /** One worker cycle on an item: its batches until one fails, then the durable SFC_DONE write. */
  datatype Ciclo = Ciclo(lotes: seq<Lote>, persistio: bool, esCierre: bool)

  datatype Caso = Caso(e: Estado, sfcHecho: bool)

  predicate TerminaBien(l: Lote, previos: set<string>)
    requires BienFormado(l)
  {
    PrimeraFalla(l, previos, |l.adjuntos|).None?
  }

  function Correr(e: Estado, ls: seq<Lote>): (Estado, bool)
    requires Legales(ls)
    decreases |ls|
  {
    if ls == [] then (e, true)
    else if TerminaBien(ls[0], Previos(e, ls[0])) then Correr(TrasLote(e, ls[0]), ls[1..])
    else (TrasLote(e, ls[0]), false)
  }

  /** Batch `i` of the sequence, where it runs, ends without a failure. */
  predicate BienEn(e: Estado, ls: seq<Lote>, i: nat)
    requires Legales(ls) && i < |ls|
  {
    TerminaBien(ls[i], Previos(TrasLotes(e, ls[..i]), ls[i]))
  }

  lemma BienTrasPrimero(e: Estado, ls: seq<Lote>, i: nat)
    requires Legales(ls) && i < |ls|
    ensures BienEn(e, ls, i) <==> if i == 0 then TerminaBien(ls[0], Previos(e, ls[0]))
                                  else BienEn(TrasLote(e, ls[0]), ls[1..], i - 1)
  {
    if i > 0 {
      assert ls[..i][1..] == ls[1..][..i - 1];
    }
  }

  /** The batches run in order up to the first that fails, that one included. */
  lemma {:induction false} CorrerHasta(e: Estado, ls: seq<Lote>) returns (k: nat)
    requires Legales(ls)
    ensures k <= |ls| && Legales(ls[..k]) && Correr(e, ls).0 == TrasLotes(e, ls[..k])
    ensures Correr(e, ls).1 ==> k == |ls| && forall i: nat :: i < k ==> BienEn(e, ls, i)
    ensures !Correr(e, ls).1 ==> k > 0 && !BienEn(e, ls, k - 1) && forall i: nat :: i < k - 1 ==> BienEn(e, ls, i)
    decreases |ls|
  {
    forall i: nat | i < |ls|
      ensures BienEn(e, ls, i) <==> if i == 0 then TerminaBien(ls[0], Previos(e, ls[0]))
                                    else BienEn(TrasLote(e, ls[0]), ls[1..], i - 1)
    {
      BienTrasPrimero(e, ls, i);
    }
    if ls == [] {
      k := 0;
    } else if TerminaBien(ls[0], Previos(e, ls[0])) {
      var e', resto := TrasLote(e, ls[0]), ls[1..];
      var j := CorrerHasta(e', resto);
      k := j + 1;
      assert ls[..k][1..] == resto[..j];
    } else {
      k := 1;
      assert ls[..1][1..] == [];
    }
  }

  /**
   * What a cycle leaves: SFC_DONE exactly if it was there or every batch ended well and the write got through; the
   * checkpoint goes only then, and only for a closing.
   */
  lemma CicloDeja(c: Caso, d: Ciclo)
    requires Legales(d.lotes)
    ensures var c' := TrasCiclo(c, d);
            var (e, ok) := Correr(c.e, d.lotes);
            && (c'.sfcHecho <==> c.sfcHecho || (ok && d.persistio))
            && (c.sfcHecho ==> c' == c)
            && (!c.sfcHecho ==> c'.e.recibidos == e.recibidos
                                && c'.e.completados == if c'.sfcHecho && d.esCierre then {} else e.completados)
  {
  }

  /** Every batch that runs is clean. */
  predicate CorreLimpio(e: Estado, ls: seq<Lote>)
    requires Legales(ls)
    decreases |ls|
  {
    ls == []
    || (Limpio(e, ls[0]) && (TerminaBien(ls[0], Previos(e, ls[0])) ==> CorreLimpio(TrasLote(e, ls[0]), ls[1..])))
  }

  function Limpiar(e: Estado): Estado { e.(completados := {}) }

  /** The worker path: an item with SFC_DONE is not sent again, and the checkpoint goes only after SFC_DONE. */
  function TrasCiclo(c: Caso, d: Ciclo): Caso
    requires Legales(d.lotes)
  {
    if c.sfcHecho then c else
    var (e, ok) := Correr(c.e, d.lotes);
    if ok && d.persistio then Caso(if d.esCierre then Limpiar(e) else e, true) else Caso(e, false)
  }

  predicate CiclosLegales(ds: seq<Ciclo>) { forall d :: d in ds ==> Legales(d.lotes) }

  function TrasCiclos(c: Caso, ds: seq<Ciclo>): Caso
    requires CiclosLegales(ds)
    decreases |ds|
  {
    if ds == [] then c else TrasCiclos(TrasCiclo(c, ds[0]), ds[1..])
  }

  /** Every batch that runs in these cycles is clean. */
  predicate CiclosLimpios(c: Caso, ds: seq<Ciclo>)
    requires CiclosLegales(ds)
    decreases |ds|
  {
    ds == [] || c.sfcHecho || (CorreLimpio(c.e, ds[0].lotes) && CiclosLimpios(TrasCiclo(c, ds[0]), ds[1..]))
  }

  lemma {:induction false} CorrerUnaVez(e: Estado, ls: seq<Lote>)
    requires UnaVez(e) && Legales(ls) && CorreLimpio(e, ls)
    ensures UnaVez(Correr(e, ls).0)
    decreases |ls|
  {
    if ls != [] {
      LoteUnaVezSii(e, ls[0]);
      if TerminaBien(ls[0], Previos(e, ls[0])) {
        CorrerUnaVez(TrasLote(e, ls[0]), ls[1..]);
      }
    }
  }

  /**
   * Over any cycles of an item, with any batch failing, a crash at any point that does not part a post from its mark,
   * and the checkpoint cleared after SFC_DONE, no file is accepted twice.
   */
  lemma {:induction false} CiclosUnaVez(c: Caso, ds: seq<Ciclo>)
    requires CiclosLegales(ds) && CiclosLimpios(c, ds) && SinDobles(c.e) && (!c.sfcHecho ==> UnaVez(c.e))
    ensures SinDobles(TrasCiclos(c, ds).e) && (!TrasCiclos(c, ds).sfcHecho ==> UnaVez(TrasCiclos(c, ds).e))
    decreases |ds|
  {
    if ds != [] {
      if !c.sfcHecho {
        CorrerUnaVez(c.e, ds[0].lotes);
      }
      CiclosUnaVez(TrasCiclo(c, ds[0]), ds[1..]);
    }
  }

  const NADA := Caso(Estado({}, multiset{}), false)

  /** Without that, it is: the mark is lost, SFC_DONE is not written, and the next cycle posts the file again. */
  lemma MarcaPerdidaDuplica(a: Adjunto)
    requires Identidad(a).Some?
    ensures var perdida := Ciclo([Lote([a], [Acepta(false)], true)], false, true);
            TrasCiclos(NADA, [perdida, perdida]).e.recibidos[Identidad(a).value] == 2
  {
    var x := Identidad(a).value;
    var perdida := Ciclo([Lote([a], [Acepta(false)], true)], false, true);
    UnSoloArchivo(NADA.e, a, Acepta(false));
    var c1 := TrasCiclo(NADA, perdida);
    assert c1 == Caso(Estado({}, multiset{x}), false);
    UnSoloArchivo(c1.e, a, Acepta(false));
    var c2 := TrasCiclo(c1, perdida);
    assert c2 == Caso(Estado({}, multiset{x, x}), false);
    assert [perdida, perdida][1..] == [perdida] && [perdida][1..] == [];
    assert TrasCiclos(c1, [perdida]) == TrasCiclos(c2, []);
  }

  lemma UnSoloArchivo(e: Estado, a: Adjunto, r: Respuesta)
    requires Identidad(a).Some? && e.completados == {} && !r.Falla?
    ensures Correr(e, [Lote([a], [r], true)]) == (UnaTarea(e, Identidad(a).value, r), true)
  {
    var l := Lote([a], [r], true);
    assert SeEnvia(l.adjuntos, {}, 0);
    assert Tras(e, l, {}, 0) == e;
    assert TrasLote(e, l) == UnaTarea(e, Identidad(a).value, r);
    assert [l][1..] == [];
    assert TerminaBien(l, {});
  }

  // ---------------------------------------------------------------- clearing before the durable write

  /** The order the code gave up: the checkpoint of a closing goes as soon as its batches end well. */
  function TrasCicloLimpiandoAntes(c: Caso, d: Ciclo): Caso
    requires Legales(d.lotes)
  {
    if c.sfcHecho then c else
    var (e, ok) := Correr(c.e, d.lotes);
    if ok then Caso(if d.esCierre then Limpiar(e) else e, d.persistio) else Caso(e, false)
  }

  /**
   * Exactly when that order breaks the promise after a clean cycle: the closing's batches ended well, the durable
   * write failed, and the SFC has taken some file of the case.
   */
  lemma LimpiarAntesSii(c: Caso, d: Ciclo)
    requires Legales(d.lotes) && !c.sfcHecho && UnaVez(c.e) && CorreLimpio(c.e, d.lotes)
    ensures var (e, ok) := Correr(c.e, d.lotes);
            var c' := TrasCicloLimpiandoAntes(c, d);
            !(c'.sfcHecho || UnaVez(c'.e)) <==> ok && d.esCierre && !d.persistio && exists x :: x in e.recibidos
  {
    CorrerUnaVez(c.e, d.lotes);
    var (e, ok) := Correr(c.e, d.lotes);
    assert forall x :: x in e.recibidos <==> e.recibidos[x] > 0;
  }

  /** And the next cycle then posts the file again. */
  lemma LimpiarAntesDuplica(a: Adjunto)
    requires Identidad(a).Some?
    ensures var d := Ciclo([Lote([a], [Acepta(true)], true)], false, true);
            TrasCicloLimpiandoAntes(TrasCicloLimpiandoAntes(NADA, d), d).e.recibidos[Identidad(a).value] == 2
  {
    var x := Identidad(a).value;
    var d := Ciclo([Lote([a], [Acepta(true)], true)], false, true);
    UnSoloArchivo(NADA.e, a, Acepta(true));
    var c1 := TrasCicloLimpiandoAntes(NADA, d);
    assert c1 == Caso(Estado({}, multiset{x}), false);
    UnSoloArchivo(c1.e, a, Acepta(true));
  }
}
