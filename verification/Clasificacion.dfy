/**
 * What kind of operation a complaint payload is.
 *
 * The idempotency store infers it from the stored dictionary, the orchestrator decides the pipeline from the
 * model object. Both read the same fields through `es_estado_cierre`, but not with the same expressions.
 */
module Clasificacion {
  import opened Comun

  datatype Operacion = M2_CREATION | M3_UPDATE | M3_CLOSE | M3_FRAUD | M3_FRAUD_AND_CLOSE

  /** The fields that classification, validation and the hash read; `resto` stands for all the others. */
  datatype Queja = Queja(
    caseId: Option<string>,
    smartCode: Option<string>,
    createdDate: Option<int>,
    closedDate: Option<int>,
    status: Option<string>,
    favorabilidad: Option<string>,
    aceptacion: Option<string>,
    tipoFraude: Option<string>,
    modalidadFraude: Option<string>,
    montoReclamado: Option<real>,
    montoDevuelto: Option<real>,
    nombreArchivoFraude: Option<string>,
    genero: Option<string>,
    lgbtiq: Option<string>,
    condicionEspecial: Option<string>,
    productoDigital: Option<string>,
    admision: Option<string>,
    cuerpoRespuesta: Option<string>,
    archivos: seq<string>,
    directorio: Option<string>,
    resto: string)

  // -------------------------------------------------------------- strip and lower

  predicate EsBlanco(c: char) {
    var n := c as int;
    9 <= n <= 13 || 28 <= n <= 32 || n == 0x85 || n == 0xA0 || n == 0x1680 || 0x2000 <= n <= 0x200A
    || n == 0x2028 || n == 0x2029 || n == 0x202F || n == 0x205F || n == 0x3000
  }

  /** Nothing left to strip at either end. */
  predicate Recortado(s: string) {
    s == "" || (!EsBlanco(s[0]) && !EsBlanco(s[|s| - 1]))
  }

  function LStrip(s: string): string {
    if s != "" && EsBlanco(s[0]) then LStrip(s[1..]) else s
  }

  function RStrip(s: string): string {
    if s != "" && EsBlanco(s[|s| - 1]) then RStrip(s[..|s| - 1]) else s
  }

  function Strip(s: string): string { RStrip(LStrip(s)) }

  lemma {:induction false} LStripRecorta(s: string)
    ensures LStrip(s) == "" || !EsBlanco(LStrip(s)[0])
  {
    if s != "" && EsBlanco(s[0]) {
      LStripRecorta(s[1..]);
    }
  }

  lemma {:induction false} RStripRecorta(s: string)
    ensures RStrip(s) <= s && (RStrip(s) == "" || !EsBlanco(RStrip(s)[|RStrip(s)| - 1]))
  {
    if s != "" && EsBlanco(s[|s| - 1]) {
      RStripRecorta(s[..|s| - 1]);
    }
  }

  /** Stripping leaves nothing to strip, and leaves alone what has nothing to strip. */
  lemma StripRecorta(s: string)
    ensures Recortado(Strip(s)) && Strip(Strip(s)) == Strip(s)
    ensures Recortado(s) ==> Strip(s) == s
  {
    LStripRecorta(s);
    RStripRecorta(LStrip(s));
    var r := Strip(s);
    assert Recortado(r);
    assert LStrip(r) == r && RStrip(r) == r;
  }

  function Minuscula(c: char): char {
    if 'A' <= c <= 'Z' then (c as int + 32) as char else c
  }

  function Lower(s: string): string {
    seq(|s|, i requires 0 <= i < |s| => Minuscula(s[i]))
  }

  function EstadoLimpio(status: Option<string>): string {
    if status.None? then "" else Lower(Strip(status.value))
  }

  // -------------------------------------------------------------- classification

  predicate EstadoCerrado(status: Option<string>) {
    EstadoLimpio(status) == "closed" || EstadoLimpio(status) == "cerrado"
  }

  predicate EsEstadoCierre(status: Option<string>, closedDate: Option<int>, favorabilidad: Option<string>,
                           aceptacion: Option<string>)
  {
    EstadoCerrado(status) || closedDate.Some? || favorabilidad.Some? || aceptacion.Some?
  }

  predicate EsCierre(q: Queja) {
    EsEstadoCierre(q.status, q.closedDate, q.favorabilidad, q.aceptacion)
  }

  predicate EsFraude(q: Queja) { q.tipoFraude.Some? || q.modalidadFraude.Some? }

  predicate TieneCamposOpcionalesM3(q: Queja) {
    q.genero.Some? || q.lgbtiq.Some? || q.condicionEspecial.Some? || q.productoDigital.Some?
  }

  predicate EstadoNuevo(q: Queja) { EstadoLimpio(q.status) == "new" || EstadoLimpio(q.status) == "nuevo" }

  /** `infer_operation_type`: a missing `admision_col__c` is not a Momento 3 field. */
  function InferirOperacion(q: Queja): Operacion {
    var camposM3 := TieneCamposOpcionalesM3(q) || !(q.admision == None || q.admision == Some("No Aplica"));
    if EstadoNuevo(q) && !camposM3 && !EsFraude(q) && !EsCierre(q) then M2_CREATION
    else if EsCierre(q) && EsFraude(q) then M3_FRAUD_AND_CLOSE
    else if EsFraude(q) then M3_FRAUD
    else if EsCierre(q) then M3_CLOSE
    else M3_UPDATE
  }

  /** The steps the orchestrator sends to the SFC. */
  datatype Envio = ALTA | FRAUDE | CIERRE | TRAMITE

  /** `procesar_despacho` and `_ejecutar_pasos_momento_3`: here a missing `admision_col__c` does count. */
  function Pipeline(q: Queja): seq<Envio> {
    var camposM3 := TieneCamposOpcionalesM3(q) || q.admision != Some("No Aplica");
    if EstadoNuevo(q) && !camposM3 && !EsFraude(q) && !EsCierre(q) then [ALTA]
    else (if EsFraude(q) then [FRAUDE] else [])
         + (if EsCierre(q) then [CIERRE] else [])
         + (if !EsFraude(q) && !EsCierre(q) then [TRAMITE] else [])
  }

  /** The pipeline an operation name stands for. */
  function PasosDe(op: Operacion): seq<Envio> {
    match op
    case M2_CREATION => [ALTA]
    case M3_UPDATE => [TRAMITE]
    case M3_CLOSE => [CIERRE]
    case M3_FRAUD => [FRAUDE]
    case M3_FRAUD_AND_CLOSE => [FRAUDE, CIERRE]
  }

  /** The canonical payload that is hashed: CreatedDate and ClosedDate left out. */
  function Canonico(q: Queja): Queja { q.(createdDate := None, closedDate := None) }

  // -------------------------------------------------------------- agreement

  /**
   * The inferred operation names the pipeline that is run exactly when the payload is not a plain new
   * complaint without `admision_col__c` (the schema never yields one: the field defaults to "No Aplica").
   */
  lemma OperacionNombraPipeline(q: Queja)
    ensures Pipeline(q) == PasosDe(InferirOperacion(q))
            <==> !(q.admision.None? && InferirOperacion(q) == M2_CREATION)
  {
    assert [FRAUDE] != [] && [FRAUDE] + [] + [] == [FRAUDE];
    assert [] + [CIERRE] + [] == [CIERRE];
    assert [] + [] + [TRAMITE] == [TRAMITE];
    assert [TRAMITE][0] != [ALTA][0];
  }

  /** Two different operations never stand for the same pipeline. */
  lemma PasosDistinguen(a: Operacion, b: Operacion)
    ensures PasosDe(a) == PasosDe(b) <==> a == b
  {
    assert forall op :: |PasosDe(op)| >= 1;
    if PasosDe(a) == PasosDe(b) {
      assert PasosDe(a)[0] == PasosDe(b)[0] && |PasosDe(a)| == |PasosDe(b)|;
    }
  }

  lemma NuevoEnMinuscula()
    ensures EstadoLimpio(Some("New")) == "new"
  {
    StripRecorta("New");
    assert Lower("New") == "new";
  }

  /** The one payload on which they part: a raw dictionary with Status "New" and no admission. */
  lemma DictCrudoSinAdmisionDiscrepa()
    ensures exists q :: InferirOperacion(q) == M2_CREATION && Pipeline(q) == [TRAMITE]
  {
    var q := Queja(None, None, None, None, Some("New"), None, None, None, None, None, None, None, None, None,
                   None, None, None, None, [], None, "");
    NuevoEnMinuscula();
    OperacionNombraPipeline(q);
    assert InferirOperacion(q) == M2_CREATION;
    assert [] + [] + [TRAMITE] == [TRAMITE];
  }
}
