/**
 * What a request must meet, told of the raw fields: when it is accepted, which requirement each error reports, what
 * an accepted one is rewritten to, which operation it is, and when two payloads have the same canonical content.
 */
module Requisitos {
  import opened Comun
  import opened Clasificacion
  import opened Validacion

  // ---------------------------------------------------------------- text

  predicate Blancos(s: string) { forall i :: 0 <= i < |s| ==> EsBlanco(s[i]) }

  /** A field with something in it besides blanks. */
  predicate Dado(s: Option<string>) { s.Some? && !Blancos(s.value) }

  lemma {:induction false} LStripQuita(s: string)
    ensures var r := LStrip(s); |r| <= |s| && s[|s| - |r|..] == r && Blancos(s[..|s| - |r|])
  {
    if s != "" && EsBlanco(s[0]) {
      LStripQuita(s[1..]);
      var r := LStrip(s[1..]);
      assert s[..|s| - |r|] == [s[0]] + s[1..][..|s| - 1 - |r|];
    }
  }

  lemma {:induction false} RStripQuita(s: string)
    ensures var r := RStrip(s); |r| <= |s| && s[..|r|] == r && Blancos(s[|r|..])
  {
    if s != "" && EsBlanco(s[|s| - 1]) {
      RStripQuita(s[..|s| - 1]);
      var r := RStrip(s[..|s| - 1]);
      assert s[|r|..] == s[..|s| - 1][|r|..] + [s[|s| - 1]];
    }
  }

  /** Stripping takes exactly the blanks at both ends. */
  lemma StripQuitaBlancos(s: string) returns (i: nat)
    ensures var r := Strip(s);
            && i + |r| <= |s| && s[i..i + |r|] == r && Blancos(s[..i]) && Blancos(s[i + |r|..]) && Recortado(r)
  {
    LStripQuita(s);
    RStripQuita(LStrip(s));
    StripRecorta(s);
    i := |s| - |LStrip(s)|;
    var r := Strip(s);
    assert s[i..] == LStrip(s);
    assert s[i..i + |r|] == LStrip(s)[..|r|];
    assert s[i + |r|..] == LStrip(s)[|r|..];
  }

  /** Cleaning keeps a given field, stripped, and drops a blank one. */
  lemma LimpioSii(s: Option<string>)
    ensures Limpio(s) == if Dado(s) then Some(Strip(s.value)) else None
    ensures Dado(s) ==> Strip(s.value) != ""
  {
    if s.Some? {
      var i := StripQuitaBlancos(s.value);
      var r := Strip(s.value);
      if r == "" {
        assert s.value == s.value[..i] + s.value[i..];
      } else {
        assert s.value[i] == r[0];
      }
    }
  }

  lemma EstadoDeLimpio(s: Option<string>)
    ensures EstadoLimpio(Limpio(s)) == EstadoLimpio(s)
  {
    if s.Some? {
      StripRecorta(s.value);
    }
  }

  // ---------------------------------------------------------------- what is asked of a request

  /** "closed" or "cerrado", in any case and with any blanks around it. */
  predicate DiceCerrado(s: Option<string>) {
    s.Some? && Lower(Strip(s.value)) in {"closed", "cerrado"}
  }

  predicate DiceNuevo(s: Option<string>) { s.Some? && Lower(Strip(s.value)) in {"new", "nuevo"} }

  /** Any of the four fields asks for a closing. */
  predicate PideCierre(q: Queja) {
    DiceCerrado(q.status) || q.closedDate.Some? || Dado(q.favorabilidad) || Dado(q.aceptacion)
  }

  predicate PideFraude(q: Queja) { q.tipoFraude.Some? || q.modalidadFraude.Some? }

  predicate IdAceptable(s: Option<string>) {
    Dado(s) ==> EsId(Strip(s.value)) && |Strip(s.value)| <= 30
  }

  /** The given smart code, or else the case id, with the entity's prefix. */
  function CodigoFinal(q: Queja): string
    requires Dado(q.caseId) || Dado(q.smartCode)
  {
    var crudo := Strip(if Dado(q.smartCode) then q.smartCode.value else q.caseId.value);
    if "1286" <= crudo then crudo else "1286" + crudo
  }

  predicate EnTreintaDias(dia: int, hoy: int) { hoy - 30 <= dia <= hoy }

  /** The day a closing closes: the one given, or today. */
  function DiaDeCierre(q: Queja, hoy: int): int { if q.closedDate.Some? then q.closedDate.value else hoy }
  function DiaDeAlta(q: Queja, hoy: int): int { if q.createdDate.Some? then q.createdDate.value else hoy }

  /** The fraud report: a directory, or a file of the list, which may go unnamed if it is the only one. */
  predicate InformeDeFraude(q: Queja) {
    || Dado(q.directorio)
    || (q.archivos != [] && if q.nombreArchivoFraude.Some? && q.nombreArchivoFraude.value != ""
                            then q.nombreArchivoFraude.value in q.archivos else |q.archivos| == 1)
  }

  /** A closing brings both answers, and a day within the window that is not before the case was opened. */
  predicate CierreAceptable(q: Queja, hoy: int) {
    && Dado(q.favorabilidad) && Dado(q.aceptacion)
    && EnTreintaDias(DiaDeCierre(q, hoy), hoy) && DiaDeAlta(q, hoy) <= DiaDeCierre(q, hoy)
  }

  /** A fraud brings both amounts, zero included, and its report. */
  predicate FraudeAceptable(q: Queja) {
    q.montoReclamado.Some? && q.montoDevuelto.Some? && InformeDeFraude(q)
  }

  /** Everything a request must meet. */
  predicate Aceptable(q: Queja, hoy: int) {
    && IdAceptable(q.caseId) && IdAceptable(q.smartCode) && (Dado(q.caseId) || Dado(q.smartCode))
    && |CodigoFinal(q)| <= 30
    && (q.createdDate.Some? ==> EnTreintaDias(q.createdDate.value, hoy))
    && (q.montoReclamado.Some? ==> q.montoReclamado.value >= 0.0)
    && (q.montoDevuelto.Some? ==> q.montoDevuelto.value >= 0.0)
    && (PideCierre(q) ==> CierreAceptable(q, hoy)) && (PideFraude(q) ==> FraudeAceptable(q))
  }

  /** What each error says. */
  predicate Incumple(q: Queja, hoy: int, e: Error) {
    match e
    case IdInvalido => (Dado(q.caseId) && !EsId(Strip(q.caseId.value)))
                       || (Dado(q.smartCode) && !EsId(Strip(q.smartCode.value)))
    case IdLargo => (Dado(q.caseId) && |Strip(q.caseId.value)| > 30)
                    || (Dado(q.smartCode) && |Strip(q.smartCode.value)| > 30)
    case SinIdentificador => !Dado(q.caseId) && !Dado(q.smartCode)
    case CodigoLargo => (Dado(q.caseId) || Dado(q.smartCode)) && |CodigoFinal(q)| > 30
    case CreadaAntigua => q.createdDate.Some? && q.createdDate.value < hoy - 30
    case CreadaFutura => q.createdDate.Some? && q.createdDate.value > hoy
    case MontoNegativo => (q.montoReclamado.Some? && q.montoReclamado.value < 0.0)
                          || (q.montoDevuelto.Some? && q.montoDevuelto.value < 0.0)
    case FaltanAmbas => PideCierre(q) && !Dado(q.favorabilidad) && !Dado(q.aceptacion)
    case FaltaFavorabilidad => PideCierre(q) && !Dado(q.favorabilidad) && Dado(q.aceptacion)
    case FaltaAceptacion => PideCierre(q) && Dado(q.favorabilidad) && !Dado(q.aceptacion)
    case CierreFuturo => PideCierre(q) && DiaDeCierre(q, hoy) > hoy
    case CierreAntiguo => PideCierre(q) && DiaDeCierre(q, hoy) < hoy - 30
    case CierreAntesDeCrear => PideCierre(q) && DiaDeCierre(q, hoy) < DiaDeAlta(q, hoy)
    case SinDocumento => PideFraude(q) && q.archivos == [] && !Dado(q.directorio)
    case FaltaMontoReclamado => PideFraude(q) && q.montoReclamado.None?
    case FaltaMontoDevuelto => PideFraude(q) && q.montoDevuelto.None?
    case FaltaNombreArchivo => PideFraude(q) && !Dado(q.directorio) && |q.archivos| > 1
                               && (q.nombreArchivoFraude.None? || q.nombreArchivoFraude.value == "")
    case ArchivoAusente => PideFraude(q) && !Dado(q.directorio) && q.nombreArchivoFraude.Some?
                           && q.nombreArchivoFraude.value !in q.archivos
  }

  /** An accepted request, rewritten. */
  function Reescrita(q: Queja, hoy: int): Queja
    requires Aceptable(q, hoy)
  {
    var codigo := Some(CodigoFinal(q));
    q.(smartCode := codigo, caseId := if Dado(q.caseId) then Some(Strip(q.caseId.value)) else codigo,
       createdDate := Some(DiaDeAlta(q, hoy)), admision := if q.admision.Some? then q.admision else Some("No Aplica"),
       favorabilidad := if Dado(q.favorabilidad) then Some(Strip(q.favorabilidad.value)) else None,
       aceptacion := if Dado(q.aceptacion) then Some(Strip(q.aceptacion.value)) else None,
       status := if PideCierre(q) && !DiceCerrado(q.status) then Some("Closed")
                 else if Dado(q.status) then Some(Strip(q.status.value)) else None,
       closedDate := if PideCierre(q) then Some(DiaDeCierre(q, hoy)) else None,
       cuerpoRespuesta := if PideCierre(q) && !Dado(q.cuerpoRespuesta) then Some(CUERPO_CIERRE)
                          else q.cuerpoRespuesta,
       nombreArchivoFraude := if PideFraude(q) && !Dado(q.directorio)
                                 && (q.nombreArchivoFraude.None? || q.nombreArchivoFraude.value == "")
                              then Some(q.archivos[0]) else q.nombreArchivoFraude)
  }

  // ---------------------------------------------------------------- validation asks exactly that

  lemma CamposSii(q: Queja, hoy: int)
    ensures match ValidarCampos(q, hoy)
            case Valida(v) =>
              && IdAceptable(q.caseId) && IdAceptable(q.smartCode)
              && (q.createdDate.Some? ==> EnTreintaDias(q.createdDate.value, hoy))
              && (q.montoReclamado.Some? ==> q.montoReclamado.value >= 0.0)
              && (q.montoDevuelto.Some? ==> q.montoDevuelto.value >= 0.0)
              && (v.caseId.Some? <==> Dado(q.caseId)) && (v.smartCode.Some? <==> Dado(q.smartCode))
              && (v.caseId.Some? ==> v.caseId.value == Strip(q.caseId.value) && EsId(v.caseId.value))
              && (v.smartCode.Some? ==> v.smartCode.value == Strip(q.smartCode.value) && EsId(v.smartCode.value))
              && v == q.(caseId := v.caseId, smartCode := v.smartCode, createdDate := Some(DiaDeAlta(q, hoy)),
                         status := Limpio(q.status), favorabilidad := Limpio(q.favorabilidad),
                         aceptacion := Limpio(q.aceptacion),
                         admision := if q.admision.Some? then q.admision else Some("No Aplica"))
            case Invalida(e) => !Aceptable(q, hoy) && Incumple(q, hoy, e)
  {
    LimpioSii(q.caseId);
    LimpioSii(q.smartCode);
  }

  lemma CodigoSii(q: Queja, hoy: int)
    requires ValidarCampos(q, hoy).Valida?
    ensures var v := ValidarCampos(q, hoy).q;
            match ResolverCodigo(v)
            case Valida(u) =>
              && (Dado(q.caseId) || Dado(q.smartCode)) && |CodigoFinal(q)| <= 30
              && u == v.(smartCode := Some(CodigoFinal(q)),
                         caseId := if Dado(q.caseId) then Some(Strip(q.caseId.value)) else Some(CodigoFinal(q)))
            case Invalida(e) => !Aceptable(q, hoy) && Incumple(q, hoy, e)
  {
    CamposSii(q, hoy);
    var v := ValidarCampos(q, hoy).q;
    if v.caseId.Some? { IdSinBlancos(v.caseId.value); }
    if v.smartCode.Some? { IdSinBlancos(v.smartCode.value); }
  }

  /** What the closing and fraud rules see of the cleaned payload is what the request asked for. */
  lemma MismaPeticion(q: Queja, v: Queja)
    requires v == q.(smartCode := v.smartCode, caseId := v.caseId, createdDate := v.createdDate,
                     admision := v.admision, status := Limpio(q.status), favorabilidad := Limpio(q.favorabilidad),
                     aceptacion := Limpio(q.aceptacion))
    ensures EsCierre(v) == PideCierre(q) && EsFraude(v) == PideFraude(q)
    ensures EstadoCerrado(v.status) == DiceCerrado(q.status)
    ensures Falso(v.favorabilidad) == !Dado(q.favorabilidad) && Falso(v.aceptacion) == !Dado(q.aceptacion)
    ensures TieneDirectorio(v) == Dado(q.directorio)
    ensures (v.cuerpoRespuesta.None? || Strip(v.cuerpoRespuesta.value) == "") == !Dado(q.cuerpoRespuesta)
  {
    LimpioSii(q.favorabilidad);
    LimpioSii(q.aceptacion);
    LimpioSii(q.directorio);
    LimpioSii(q.cuerpoRespuesta);
    EstadoDeLimpio(q.status);
    assert EstadoLimpio(None) == "";
  }

  function ConCierre(q: Queja, v: Queja, hoy: int): Queja {
    v.(status := if DiceCerrado(q.status) then v.status else Some("Closed"), closedDate := Some(DiaDeCierre(q, hoy)),
       cuerpoRespuesta := if Dado(q.cuerpoRespuesta) then v.cuerpoRespuesta else Some(CUERPO_CIERRE))
  }

  lemma CierreSii(q: Queja, v: Queja, hoy: int)
    requires PideCierre(q) && v.createdDate == Some(DiaDeAlta(q, hoy)) && v.closedDate == q.closedDate
    requires Falso(v.favorabilidad) == !Dado(q.favorabilidad) && Falso(v.aceptacion) == !Dado(q.aceptacion)
    requires EstadoCerrado(v.status) == DiceCerrado(q.status)
    requires (v.cuerpoRespuesta.None? || Strip(v.cuerpoRespuesta.value) == "") == !Dado(q.cuerpoRespuesta)
    ensures match ReglasCierre(v, hoy)
            case Valida(u) => CierreAceptable(q, hoy) && u == ConCierre(q, v, hoy)
            case Invalida(e) => !CierreAceptable(q, hoy) && Incumple(q, hoy, e)
  {
  }

  function ConFraude(q: Queja, v: Queja): Queja
    requires InformeDeFraude(q)
  {
    v.(nombreArchivoFraude := if !Dado(q.directorio)
                                 && (q.nombreArchivoFraude.None? || q.nombreArchivoFraude.value == "")
                              then Some(q.archivos[0]) else q.nombreArchivoFraude)
  }

  lemma FraudeSii(q: Queja, v: Queja, hoy: int)
    requires PideFraude(q) && TieneDirectorio(v) == Dado(q.directorio) && v.archivos == q.archivos
    requires v.nombreArchivoFraude == q.nombreArchivoFraude && v.montoReclamado == q.montoReclamado
    requires v.montoDevuelto == q.montoDevuelto
    ensures match ReglasFraude(v)
            case Valida(u) => FraudeAceptable(q) && u == ConFraude(q, v)
            case Invalida(e) => !FraudeAceptable(q) && Incumple(q, hoy, e)
  {
  }

  /**
   * A request is valid if and only if it meets every requirement, and then it is rewritten as stated, nothing else
   * being touched; otherwise the error names a requirement it does not meet.
   */
  lemma ValidaSii(q: Queja, hoy: int)
    ensures Validar(q, hoy).Valida? <==> Aceptable(q, hoy)
    ensures Validar(q, hoy).Valida? ==> Validar(q, hoy).q == Reescrita(q, hoy)
    ensures Validar(q, hoy).Invalida? ==> Incumple(q, hoy, Validar(q, hoy).e)
  {
    CamposSii(q, hoy);
    if ValidarCampos(q, hoy).Valida? {
      CodigoSii(q, hoy);
      if ResolverCodigo(ValidarCampos(q, hoy).q).Valida? {
        ReglasSii(q, ResolverCodigo(ValidarCampos(q, hoy).q).q, hoy);
      }
    }
  }

  /** The cleaned payload shows the rules what the request asked for. */
  predicate Muestra(q: Queja, v: Queja, hoy: int) {
    && EsCierre(v) == PideCierre(q) && EsFraude(v) == PideFraude(q) && EstadoCerrado(v.status) == DiceCerrado(q.status)
    && Falso(v.favorabilidad) == !Dado(q.favorabilidad) && Falso(v.aceptacion) == !Dado(q.aceptacion)
    && TieneDirectorio(v) == Dado(q.directorio)
    && (v.cuerpoRespuesta.None? || Strip(v.cuerpoRespuesta.value) == "") == !Dado(q.cuerpoRespuesta)
    && v.createdDate == Some(DiaDeAlta(q, hoy)) && v.closedDate == q.closedDate && v.archivos == q.archivos
    && v.nombreArchivoFraude == q.nombreArchivoFraude && v.montoReclamado == q.montoReclamado
    && v.montoDevuelto == q.montoDevuelto
  }

  lemma ReglasPorPartes(q: Queja, v: Queja, hoy: int)
    requires Muestra(q, v, hoy)
    ensures match Reglas(v, hoy)
            case Valida(u) =>
              && (PideCierre(q) ==> CierreAceptable(q, hoy)) && (PideFraude(q) ==> FraudeAceptable(q))
              && u == var x := if PideCierre(q) then ConCierre(q, v, hoy) else v;
                      if PideFraude(q) then ConFraude(q, x) else x
            case Invalida(e) =>
              && !((PideCierre(q) ==> CierreAceptable(q, hoy)) && (PideFraude(q) ==> FraudeAceptable(q)))
              && Incumple(q, hoy, e)
  {
    var r := if EsCierre(v) then ReglasCierre(v, hoy) else Valida(v);
    if PideCierre(q) {
      CierreSii(q, v, hoy);
    }
    if r.Valida? && PideFraude(q) {
      FraudeSii(q, r.q, hoy);
    }
  }

  lemma ReglasSii(q: Queja, v: Queja, hoy: int)
    requires ValidarCampos(q, hoy).Valida? && ResolverCodigo(ValidarCampos(q, hoy).q) == Valida(v)
    ensures match Reglas(v, hoy)
            case Valida(u) => Aceptable(q, hoy) && u == Reescrita(q, hoy)
            case Invalida(e) => !Aceptable(q, hoy) && Incumple(q, hoy, e)
  {
    CamposSii(q, hoy);
    CodigoSii(q, hoy);
    MismaPeticion(q, v);
    ReglasPorPartes(q, v, hoy);
    if Aceptable(q, hoy) {
      PasosReescriben(q, v, hoy);
    }
  }

  /** Cleaned, then closed, then completed with its report: together that is the rewriting. */
  lemma PasosReescriben(q: Queja, v: Queja, hoy: int)
    requires Aceptable(q, hoy)
    requires v == q.(smartCode := Some(CodigoFinal(q)),
                     caseId := if Dado(q.caseId) then Some(Strip(q.caseId.value)) else Some(CodigoFinal(q)),
                     createdDate := Some(DiaDeAlta(q, hoy)),
                     status := Limpio(q.status), favorabilidad := Limpio(q.favorabilidad),
                     aceptacion := Limpio(q.aceptacion),
                     admision := if q.admision.Some? then q.admision else Some("No Aplica"))
    ensures var u := if PideCierre(q) then ConCierre(q, v, hoy) else v;
            Reescrita(q, hoy) == if PideFraude(q) then ConFraude(q, u) else u
  {
    LimpioSii(q.status);
    LimpioSii(q.favorabilidad);
    LimpioSii(q.aceptacion);
  }

  // ---------------------------------------------------------------- operation and content

  /** Which operation a validated payload is, told of its fields. */
  lemma OperacionSii(q: Queja)
    ensures var cierre := DiceCerrado(q.status) || q.closedDate.Some? || q.favorabilidad.Some? || q.aceptacion.Some?;
            var m3 := q.genero.Some? || q.lgbtiq.Some? || q.condicionEspecial.Some? || q.productoDigital.Some?
                      || (q.admision.Some? && q.admision.value != "No Aplica");
            var op := InferirOperacion(q);
            && (op in {M3_CLOSE, M3_FRAUD_AND_CLOSE} <==> cierre)
            && (op in {M3_FRAUD, M3_FRAUD_AND_CLOSE} <==> PideFraude(q))
            && (op == M2_CREATION <==> DiceNuevo(q.status) && !cierre && !PideFraude(q) && !m3)
  {
  }

  /** What is sent for a payload: the new case alone, or fraud report, closing and update in that order. */
  lemma EnviosSii(q: Queja)
    requires q.admision.Some?
    ensures var cierre := DiceCerrado(q.status) || q.closedDate.Some? || q.favorabilidad.Some? || q.aceptacion.Some?;
            var m3 := q.genero.Some? || q.lgbtiq.Some? || q.condicionEspecial.Some? || q.productoDigital.Some?
                      || q.admision.value != "No Aplica";
            Pipeline(q) == if cierre && PideFraude(q) then [FRAUDE, CIERRE]
                           else if PideFraude(q) then [FRAUDE]
                           else if cierre then [CIERRE]
                           else if DiceNuevo(q.status) && !m3 then [ALTA] else [TRAMITE]
  {
    OperacionSii(q);
    OperacionNombraPipeline(q);
  }

  /** Two payloads have the same canonical content exactly when they agree in everything but the two dates. */
  lemma CanonicoSii(a: Queja, b: Queja)
    ensures Canonico(a) == Canonico(b) <==> b == a.(createdDate := b.createdDate, closedDate := b.closedDate)
  {
  }

  /**
   * And the canonical payloads of two valid requests: the same exactly when what they are rewritten to differs in the
   * dates at most. Amounts, files, fraud fields and the rest always tell two contents apart.
   */
  lemma MismoContenidoSii(p: Queja, q: Queja, hoy: int, despues: int)
    requires Aceptable(p, hoy) && Aceptable(q, despues)
    ensures var (a, b) := (Validar(p, hoy), Validar(q, despues));
            a.Valida? && b.Valida?
            && (Canonico(a.q) == Canonico(b.q)
                <==> Reescrita(q, despues) == Reescrita(p, hoy).(createdDate := b.q.createdDate,
                                                                 closedDate := b.q.closedDate))
    ensures Canonico(Validar(p, hoy).q) == Canonico(Validar(q, despues).q) ==>
              p.montoReclamado == q.montoReclamado && p.montoDevuelto == q.montoDevuelto && p.archivos == q.archivos
              && p.tipoFraude == q.tipoFraude && p.modalidadFraude == q.modalidadFraude && p.resto == q.resto
              && p.directorio == q.directorio && PideCierre(p) == PideCierre(q)
  {
    ValidaSii(p, hoy);
    ValidaSii(q, despues);
    var a, b := Validar(p, hoy).q, Validar(q, despues).q;
    CanonicoSii(a, b);
    if Canonico(a) == Canonico(b) {
      CierreSeVe(p, hoy);
      CierreSeVe(q, despues);
    }
  }

  /** Whether a closing was asked for shows in what the request is rewritten to. */
  lemma CierreSeVe(q: Queja, hoy: int)
    requires Aceptable(q, hoy)
    ensures PideCierre(q) <==> Reescrita(q, hoy).favorabilidad.Some?
  {
  }
}
