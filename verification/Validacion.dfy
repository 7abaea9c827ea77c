/**
 * The unified dispatch schema: what validation rewrites, and why key, queue slot and pipeline agree afterwards.
 *
 * Dates are whole days; a missing CreatedDate is filled with today. Picklists are taken as already canonical.
 */
module Validacion {
  import opened Comun
  import opened Clasificacion

  const PREFIJO := "1286"
  const MAX_CODIGO := 30
  const DIAS := 30
  /** Stands for the fixed text of a closing answer. */
  const CUERPO_CIERRE := "cierre"

  datatype Error =
    | IdInvalido | IdLargo | SinIdentificador | CodigoLargo
    | CreadaAntigua | CreadaFutura | MontoNegativo
    | FaltanAmbas | FaltaFavorabilidad | FaltaAceptacion
    | CierreFuturo | CierreAntiguo | CierreAntesDeCrear
    | SinDocumento | FaltaMontoReclamado | FaltaMontoDevuelto | FaltaNombreArchivo | ArchivoAusente

  datatype Resultado = Valida(q: Queja) | Invalida(e: Error)

  // ---------------------------------------------------------------- field validators

  predicate CaracterId(c: char) {
    'a' <= c <= 'z' || 'A' <= c <= 'Z' || '0' <= c <= '9' || c == '_' || c == '-'
  }

  predicate EsId(s: string) { s != "" && forall i :: 0 <= i < |s| ==> CaracterId(s[i]) }

  function Limpio(s: Option<string>): Option<string> {
    if s.None? || Strip(s.value) == "" then None else Some(Strip(s.value))
  }

  predicate Falso(s: Option<string>) { s.None? || s.value == "" }

  predicate TieneDirectorio(q: Queja) { q.directorio.Some? && Strip(q.directorio.value) != "" }

  function ErrorDeId(s: Option<string>): Option<Error> {
    if Limpio(s).None? then None
    else if !EsId(Limpio(s).value) then Some(IdInvalido)
    else if |Limpio(s).value| > MAX_CODIGO then Some(IdLargo)
    else None
  }

  /** The validators that look at one field at a time. */
  function ValidarCampos(q: Queja, hoy: int): Resultado {
    if ErrorDeId(q.caseId).Some? then Invalida(ErrorDeId(q.caseId).value)
    else if ErrorDeId(q.smartCode).Some? then Invalida(ErrorDeId(q.smartCode).value)
    else if q.createdDate.Some? && q.createdDate.value < hoy - DIAS then Invalida(CreadaAntigua)
    else if q.createdDate.Some? && q.createdDate.value > hoy then Invalida(CreadaFutura)
    else if (q.montoReclamado.Some? && q.montoReclamado.value < 0.0)
         || (q.montoDevuelto.Some? && q.montoDevuelto.value < 0.0) then Invalida(MontoNegativo)
    else Valida(q.(caseId := Limpio(q.caseId), smartCode := Limpio(q.smartCode),
                   createdDate := if q.createdDate.Some? then q.createdDate else Some(hoy),
                   status := Limpio(q.status), favorabilidad := Limpio(q.favorabilidad),
                   aceptacion := Limpio(q.aceptacion),
                   admision := if q.admision.Some? then q.admision else Some("No Aplica")))
  }

  // ---------------------------------------------------------------- model validators

  function ConPrefijo(s: string): string { if PREFIJO <= s then s else PREFIJO + s }

  function ResolverCodigo(q: Queja): Resultado {
    if Falso(q.caseId) && Falso(q.smartCode) then Invalida(SinIdentificador) else
    var codigo := ConPrefijo(Strip(if Falso(q.smartCode) then q.caseId.value else q.smartCode.value));
    if |codigo| > MAX_CODIGO then Invalida(CodigoLargo)
    else Valida(q.(smartCode := Some(codigo), caseId := if Falso(q.caseId) then Some(codigo) else q.caseId))
  }

  function ErrorDeFecha(q: Queja, cierre: int, hoy: int): Option<Error> {
    if cierre > hoy then Some(CierreFuturo)
    else if cierre < hoy - DIAS then Some(CierreAntiguo)
    else if q.createdDate.Some? && cierre < q.createdDate.value then Some(CierreAntesDeCrear)
    else None
  }

  function ReglasCierre(q: Queja, hoy: int): Resultado {
    if Falso(q.favorabilidad) && Falso(q.aceptacion) then Invalida(FaltanAmbas)
    else if Falso(q.favorabilidad) then Invalida(FaltaFavorabilidad)
    else if Falso(q.aceptacion) then Invalida(FaltaAceptacion)
    else
      var cierre := if q.closedDate.Some? then q.closedDate.value else hoy;
      if ErrorDeFecha(q, cierre, hoy).Some? then Invalida(ErrorDeFecha(q, cierre, hoy).value)
      else Valida(q.(status := if EstadoCerrado(q.status) then q.status else Some("Closed"),
                     closedDate := Some(cierre),
                     cuerpoRespuesta := if q.cuerpoRespuesta.None? || Strip(q.cuerpoRespuesta.value) == ""
                                        then Some(CUERPO_CIERRE) else q.cuerpoRespuesta))
  }

  function ReglasFraude(q: Queja): Resultado {
    var n := |q.archivos|;
    if n == 0 && !TieneDirectorio(q) then Invalida(SinDocumento)
    else if q.montoReclamado.None? then Invalida(FaltaMontoReclamado)
    else if q.montoDevuelto.None? then Invalida(FaltaMontoDevuelto)
    else if TieneDirectorio(q) then Valida(q)
    else if !Falso(q.nombreArchivoFraude) then
      if q.nombreArchivoFraude.value in q.archivos then Valida(q) else Invalida(ArchivoAusente)
    else if n == 1 then Valida(q.(nombreArchivoFraude := Some(q.archivos[0])))
    else Invalida(FaltaNombreArchivo)
  }

  function Y(r: Resultado, f: Queja -> Resultado): Resultado {
    if r.Valida? then f(r.q) else r
  }

  function Reglas(q: Queja, hoy: int): Resultado {
    var r := if EsCierre(q) then ReglasCierre(q, hoy) else Valida(q);
    if r.Valida? && EsFraude(q) then ReglasFraude(r.q) else r
  }

  function Validar(q: Queja, hoy: int): Resultado {
    Y(Y(ValidarCampos(q, hoy), ResolverCodigo), (x: Queja) => Reglas(x, hoy))
  }

  // ---------------------------------------------------------------- the model object

  /** The pydantic object whose model validators assign its own fields. */
  class QuejaUnificadaCrmInput {
    var q: Queja

    constructor (q: Queja)
      ensures this.q == q
    {
      this.q := q;
    }

    /** `resolver_y_armar_smart_code`. */
    method ResolverYArmarSmartCode() returns (error: Option<Error>)
      modifies this
      ensures ResolverCodigo(old(q)) == if error.None? then Valida(q) else Invalida(error.value)
    {
      if Falso(q.caseId) && Falso(q.smartCode) {
        return Some(SinIdentificador);
      }
      if Falso(q.smartCode) {
        var crudo := Strip(q.caseId.value);
        q := q.(smartCode := Some(if !(PREFIJO <= crudo) then PREFIJO + crudo else crudo));
      } else {
        var limpio := Strip(q.smartCode.value);
        q := q.(smartCode := Some(if PREFIJO <= limpio then limpio else PREFIJO + limpio));
      }
      if Falso(q.caseId) {
        q := q.(caseId := q.smartCode);
      }
      if |q.smartCode.value| > MAX_CODIGO {
        return Some(CodigoLargo);
      }
      return None;
    }

    /** `_validar_reglas_cierre`. */
    method ValidarReglasCierre(hoy: int) returns (error: Option<Error>)
      modifies this
      ensures ReglasCierre(old(q), hoy) == if error.None? then Valida(q) else Invalida(error.value)
    {
      if !EstadoCerrado(q.status) {
        q := q.(status := Some("Closed"));
      }
      if Falso(q.favorabilidad) && Falso(q.aceptacion) {
        return Some(FaltanAmbas);
      } else if Falso(q.favorabilidad) {
        return Some(FaltaFavorabilidad);
      } else if Falso(q.aceptacion) {
        return Some(FaltaAceptacion);
      }
      error := ValidarClosedDate(hoy);
      if error.Some? {
        return;
      }
      if q.cuerpoRespuesta.None? || Strip(q.cuerpoRespuesta.value) == "" {
        q := q.(cuerpoRespuesta := Some(CUERPO_CIERRE));
      }
    }

    /** `_validar_closed_date`. */
    method ValidarClosedDate(hoy: int) returns (error: Option<Error>)
      modifies this
      ensures q == old(q).(closedDate := if old(q).closedDate.Some? then old(q).closedDate else Some(hoy))
      ensures error == ErrorDeFecha(old(q), q.closedDate.value, hoy)
    {
      if q.closedDate.None? {
        q := q.(closedDate := Some(hoy));
      }
      if q.closedDate.value > hoy {
        return Some(CierreFuturo);
      }
      if q.closedDate.value < hoy - DIAS {
        return Some(CierreAntiguo);
      }
      if q.createdDate.Some? && q.closedDate.value < q.createdDate.value {
        return Some(CierreAntesDeCrear);
      }
      return None;
    }

    /** `_validar_reglas_fraude`. */
    method ValidarReglasFraude(numArchivos: nat, tieneDirectorio: bool) returns (error: Option<Error>)
      requires numArchivos == |q.archivos| && tieneDirectorio == TieneDirectorio(q)
      modifies this
      ensures ReglasFraude(old(q)) == if error.None? then Valida(q) else Invalida(error.value)
    {
      if numArchivos == 0 && !tieneDirectorio {
        return Some(SinDocumento);
      }
      if q.montoReclamado.None? {
        return Some(FaltaMontoReclamado);
      }
      if q.montoDevuelto.None? {
        return Some(FaltaMontoDevuelto);
      }
      if !tieneDirectorio && numArchivos > 0 {
        if Falso(q.nombreArchivoFraude) {
          if numArchivos != 1 {
            return Some(FaltaNombreArchivo);
          }
          q := q.(nombreArchivoFraude := Some(q.archivos[0]));
        } else if q.nombreArchivoFraude.value !in q.archivos {
          return Some(ArchivoAusente);
        }
      }
      return None;
    }

    /** `validar_reglas_segun_datos_presentes`: what kind of case it is is decided before anything is rewritten. */
    method ValidarReglas(hoy: int) returns (error: Option<Error>)
      modifies this
      ensures Reglas(old(q), hoy) == if error.None? then Valida(q) else Invalida(error.value)
    {
      var numArchivos, tieneDirectorio := |q.archivos|, TieneDirectorio(q);
      var esCierre, esFraude := EsCierre(q), EsFraude(q);
      error := None;
      if esCierre {
        error := ValidarReglasCierre(hoy);
        if error.Some? {
          return;
        }
      }
      if esFraude {
        error := ValidarReglasFraude(numArchivos, tieneDirectorio);
      }
    }
  }

  // ---------------------------------------------------------------- what a validated payload is

  /** A code the queue can build keys with. */
  predicate CodigoUtil(s: string) { EsId(s) && PREFIJO <= s && |s| <= MAX_CODIGO }

  /** Everything validation establishes and a second validation asks for again, but for the dates. */
  predicate Normal(v: Queja) {
    && v.smartCode.Some? && CodigoUtil(v.smartCode.value)
    && v.caseId.Some? && EsId(v.caseId.value) && |v.caseId.value| <= MAX_CODIGO
    && v.createdDate.Some? && v.admision.Some?
    && Limpio(v.status) == v.status && Limpio(v.favorabilidad) == v.favorabilidad
    && Limpio(v.aceptacion) == v.aceptacion
    && (v.montoReclamado.Some? ==> v.montoReclamado.value >= 0.0)
    && (v.montoDevuelto.Some? ==> v.montoDevuelto.value >= 0.0)
    && (EsCierre(v) ==>
          && EstadoCerrado(v.status) && v.favorabilidad.Some? && v.aceptacion.Some?
          && v.closedDate.Some? && v.createdDate.value <= v.closedDate.value
          && v.cuerpoRespuesta.Some? && Strip(v.cuerpoRespuesta.value) != "")
    && (EsFraude(v) ==> ReglasFraude(v) == Valida(v))
  }

  lemma IdSinBlancos(s: string)
    requires EsId(s)
    ensures Strip(s) == s && ':' !in s
  {
    assert CaracterId(s[0]) && CaracterId(s[|s| - 1]);
    forall i | 0 <= i < |s| ensures s[i] != ':' {
      assert CaracterId(s[i]);
    }
  }

  lemma PrefijoUtil(s: string)
    requires EsId(s) && |ConPrefijo(s)| <= MAX_CODIGO
    ensures CodigoUtil(ConPrefijo(s))
  {
  }

  lemma CamposLimpios(q: Queja, hoy: int)
    requires ValidarCampos(q, hoy).Valida?
    ensures var v := ValidarCampos(q, hoy).q;
            && (v.caseId.Some? ==> EsId(v.caseId.value) && |v.caseId.value| <= MAX_CODIGO)
            && (v.smartCode.Some? ==> EsId(v.smartCode.value))
            && v.createdDate.Some? && v.admision.Some?
            && Limpio(v.status) == v.status && Limpio(v.favorabilidad) == v.favorabilidad
            && Limpio(v.aceptacion) == v.aceptacion
            && hoy - DIAS <= v.createdDate.value <= hoy
  {
    LimpioEstable(q.status);
    LimpioEstable(q.favorabilidad);
    LimpioEstable(q.aceptacion);
  }

  lemma LimpioEstable(s: Option<string>)
    ensures Limpio(Limpio(s)) == Limpio(s)
  {
    if s.Some? {
      StripRecorta(s.value);
    }
  }

  lemma CodigoResuelto(q: Queja)
    requires ResolverCodigo(q).Valida?
    requires q.caseId.Some? ==> EsId(q.caseId.value) && |q.caseId.value| <= MAX_CODIGO
    requires q.smartCode.Some? ==> EsId(q.smartCode.value)
    ensures var v := ResolverCodigo(q).q;
            && v == q.(smartCode := v.smartCode, caseId := v.caseId)
            && v.smartCode.Some? && CodigoUtil(v.smartCode.value)
            && v.caseId.Some? && EsId(v.caseId.value) && |v.caseId.value| <= MAX_CODIGO
  {
    var base := if Falso(q.smartCode) then q.caseId.value else q.smartCode.value;
    IdSinBlancos(base);
    PrefijoUtil(base);
  }

  lemma CierreNormal(q: Queja, hoy: int)
    requires EsCierre(q) && ReglasCierre(q, hoy).Valida?
    ensures var v := ReglasCierre(q, hoy).q;
            && EsCierre(v) && EstadoCerrado(v.status) && v.favorabilidad == q.favorabilidad
            && v.aceptacion == q.aceptacion && v.favorabilidad.Some? && v.aceptacion.Some? && v.closedDate.Some?
            && (q.createdDate.Some? ==> q.createdDate.value <= v.closedDate.value)
            && hoy - DIAS <= v.closedDate.value <= hoy
            && v.cuerpoRespuesta.Some? && Strip(v.cuerpoRespuesta.value) != ""
            && (Limpio(q.status) == q.status ==> Limpio(v.status) == v.status)
  {
    assert Strip("Closed") == "Closed" && Lower("Closed") == "closed";
    assert Strip(CUERPO_CIERRE) == CUERPO_CIERRE;
  }

  lemma FraudeNormal(q: Queja)
    requires ReglasFraude(q).Valida?
    ensures var v := ReglasFraude(q).q;
            ReglasFraude(v) == Valida(v) && v == q.(nombreArchivoFraude := v.nombreArchivoFraude)
  {
  }

  lemma ReglasNormal(q: Queja, hoy: int)
    requires Reglas(q, hoy).Valida?
    requires q.createdDate.Some? && Limpio(q.status) == q.status
    ensures var v := Reglas(q, hoy).q;
            && EsCierre(v) == EsCierre(q) && EsFraude(v) == EsFraude(q)
            && v == q.(status := v.status, closedDate := v.closedDate, cuerpoRespuesta := v.cuerpoRespuesta,
                       nombreArchivoFraude := v.nombreArchivoFraude)
            && (!EsCierre(q) ==> v.status == q.status && v.closedDate == q.closedDate)
            && Limpio(v.status) == v.status
            && (EsFraude(v) ==> ReglasFraude(v) == Valida(v))
            && (EsCierre(v) ==>
                  && EstadoCerrado(v.status) && v.favorabilidad.Some? && v.aceptacion.Some?
                  && v.closedDate.Some? && v.createdDate.value <= v.closedDate.value <= hoy
                  && hoy - DIAS <= v.closedDate.value
                  && v.cuerpoRespuesta.Some? && Strip(v.cuerpoRespuesta.value) != "")
  {
    var r := if EsCierre(q) then ReglasCierre(q, hoy) else Valida(q);
    if EsCierre(q) {
      CierreNormal(q, hoy);
    }
    if EsFraude(q) {
      FraudeNormal(r.q);
    }
  }

  /** The dates a validated payload carries were within the window on the day it was validated. */
  predicate EnVentana(v: Queja, hoy: int) {
    && (v.createdDate.Some? ==> hoy - DIAS <= v.createdDate.value <= hoy)
    && (EsCierre(v) && v.closedDate.Some? ==> hoy - DIAS <= v.closedDate.value <= hoy)
  }

  /** Validation yields a normal payload whose dates are in the window. */
  lemma ValidadaEsNormal(q: Queja, hoy: int)
    requires Validar(q, hoy).Valida?
    ensures Normal(Validar(q, hoy).q) && EnVentana(Validar(q, hoy).q, hoy)
  {
    CamposLimpios(q, hoy);
    var a := ValidarCampos(q, hoy).q;
    CodigoResuelto(a);
    var b := ResolverCodigo(a).q;
    ReglasNormal(b, hoy);
  }

  lemma NormalPasaCampos(v: Queja, hoy: int)
    requires Normal(v)
    ensures ValidarCampos(v, hoy) == if v.createdDate.value < hoy - DIAS then Invalida(CreadaAntigua)
                                     else if v.createdDate.value > hoy then Invalida(CreadaFutura) else Valida(v)
  {
    IdSinBlancos(v.caseId.value);
    IdSinBlancos(v.smartCode.value);
  }

  lemma NormalPasaCodigo(v: Queja)
    requires Normal(v)
    ensures ResolverCodigo(v) == Valida(v)
  {
    IdSinBlancos(v.smartCode.value);
  }

  lemma NormalPasaReglas(v: Queja, hoy: int)
    requires Normal(v)
    ensures EsCierre(v) && ErrorDeFecha(v, v.closedDate.value, hoy).Some? ==> Reglas(v, hoy).Invalida?
    ensures !(EsCierre(v) && ErrorDeFecha(v, v.closedDate.value, hoy).Some?) ==> Reglas(v, hoy) == Valida(v)
  {
    if EsCierre(v) {
      assert v.favorabilidad.value != "" && v.aceptacion.value != "";
    }
  }

  /**
   * Re-validation, as the worker does it from the stored payload: it changes nothing at all, and it passes exactly
   * while the payload's own dates are still within the thirty-day window.
   */
  lemma RevalidarEsIdempotente(q: Queja, hoy: int, despues: int)
    requires Validar(q, hoy).Valida?
    ensures var v := Validar(q, hoy).q;
            && (Validar(v, despues) == Valida(v) <==> EnVentana(v, despues))
            && (Validar(v, despues).Invalida? <==> !EnVentana(v, despues))
  {
    ValidadaEsNormal(q, hoy);
    var v := Validar(q, hoy).q;
    NormalPasaCampos(v, despues);
    NormalPasaCodigo(v);
    NormalPasaReglas(v, despues);
  }

  // ---------------------------------------------------------------- agreement

  /**
   * For every validated payload the inferred operation names the pipeline that is run, does not depend on the dates
   * left out of the hash, and the smart code is non-empty, prefixed and free of colons.
   */
  lemma ValidadaConcuerda(q: Queja, hoy: int)
    requires Validar(q, hoy).Valida?
    ensures var v := Validar(q, hoy).q;
            && Pipeline(v) == PasosDe(InferirOperacion(v))
            && InferirOperacion(Canonico(v)) == InferirOperacion(v)
            && Pipeline(Canonico(v)) == Pipeline(v)
            && v.smartCode.Some? && v.smartCode.value != "" && ':' !in v.smartCode.value
  {
    ValidadaEsNormal(q, hoy);
    var v := Validar(q, hoy).q;
    IdSinBlancos(v.smartCode.value);
    OperacionNombraPipeline(v);
    assert EsCierre(Canonico(v)) == EsCierre(v);
  }

  lemma ReglasIgnoranFechas(a: Queja, b: Queja, hoy: int, despues: int)
    requires b == a.(createdDate := b.createdDate) && Reglas(a, hoy).Valida? && Reglas(b, despues).Valida?
    ensures Canonico(Reglas(a, hoy).q) == Canonico(Reglas(b, despues).q)
  {
    assert EsCierre(a) == EsCierre(b) && EsFraude(a) == EsFraude(b);
    var x := if EsCierre(a) then ReglasCierre(a, hoy).q else a;
    var y := if EsCierre(a) then ReglasCierre(b, despues).q else b;
    assert Canonico(x) == Canonico(y);
    if EsFraude(a) {
      FraudeIgnoraFechas(x, y);
    }
  }

  lemma FraudeIgnoraFechas(x: Queja, y: Queja)
    requires Canonico(x) == Canonico(y) && ReglasFraude(x).Valida? && ReglasFraude(y).Valida?
    ensures Canonico(ReglasFraude(x).q) == Canonico(ReglasFraude(y).q)
  {
    assert y == x.(createdDate := y.createdDate, closedDate := y.closedDate);
  }

  /**
   * The same request validated on two days gives the same canonical payload: hash, operation, key and slot agree
   * however late the copy arrives.
   */
  lemma MismoContenidoOtroDia(q: Queja, hoy: int, despues: int)
    requires Validar(q, hoy).Valida? && Validar(q, despues).Valida?
    ensures var (a, b) := (Validar(q, hoy).q, Validar(q, despues).q);
            && Canonico(a) == Canonico(b) && InferirOperacion(a) == InferirOperacion(b) && a.smartCode == b.smartCode
  {
    var a0, b0 := ValidarCampos(q, hoy).q, ValidarCampos(q, despues).q;
    assert b0 == a0.(createdDate := b0.createdDate);
    var a1, b1 := ResolverCodigo(a0).q, ResolverCodigo(b0).q;
    assert b1 == a1.(createdDate := b1.createdDate);
    ReglasIgnoranFechas(a1, b1, hoy, despues);
    ValidadaConcuerda(q, hoy);
    ValidadaConcuerda(q, despues);
  }
}
