/** The Redis key names: different slots and records never share a key. */
module Claves {
  import opened Comun
  import opened Clasificacion
  import opened Cola
  import opened Validacion

  const INDICE := "{sfc:queue}:index:"
  const IDEMPOTENCIA := "{sfc:idempotency}:"

  function Nombre(op: Operacion): string {
    match op
    case M2_CREATION => "M2_CREATION"
    case M3_UPDATE => "M3_UPDATE"
    case M3_CLOSE => "M3_CLOSE"
    case M3_FRAUD => "M3_FRAUD"
    case M3_FRAUD_AND_CLOSE => "M3_FRAUD_AND_CLOSE"
  }

  /** `index:{smart_code}:{operacion}`. */
  function ClaveIndice(s: Slot): string { INDICE + s.smartCode + ":" + Nombre(s.operacion) }

  /** The key without operation that success and definitive failure also delete. */
  function ClaveIndiceVieja(smartCode: string): string { INDICE + smartCode }

  function ClaveRegistro(smartCode: string, op: Operacion, hash: string): string {
    IDEMPOTENCIA + smartCode + ":" + Nombre(op) + ":" + hash
  }

  lemma NombreUnico(a: Operacion, b: Operacion)
    ensures SinDosPuntos(Nombre(a)) && (Nombre(a) == Nombre(b) ==> a == b)
  {
    assert Nombre(M2_CREATION)[1] == '2' && |Nombre(M3_UPDATE)| == 9;
    assert |Nombre(M3_CLOSE)| == 8 && |Nombre(M3_FRAUD)| == 8;
    assert Nombre(M3_CLOSE)[3] == 'C' && Nombre(M3_FRAUD)[3] == 'F';
  }

  lemma MismoPrefijo(p: string, a: string, b: string)
    ensures p + a == p + b <==> a == b
  {
    if p + a == p + b {
      assert a == (p + a)[|p|..] && b == (p + b)[|p|..];
    }
  }

  /** One index key per slot, whatever characters the smart codes have. */
  lemma IndiceInyectivo(s: Slot, t: Slot)
    ensures ClaveIndice(s) == ClaveIndice(t) <==> s == t
  {
    if ClaveIndice(s) == ClaveIndice(t) {
      NombreUnico(s.operacion, t.operacion);
      NombreUnico(t.operacion, s.operacion);
      UltimoCampo(INDICE + s.smartCode, Nombre(s.operacion), INDICE + t.smartCode, Nombre(t.operacion));
      MismoPrefijo(INDICE, s.smartCode, t.smartCode);
    }
  }

  /** One idempotency key per smart code, operation and hexadecimal hash. */
  lemma RegistroInyectivo(a: string, op: Operacion, h: string, b: string, op': Operacion, h': string)
    requires SinDosPuntos(h) && SinDosPuntos(h')
    ensures ClaveRegistro(a, op, h) == ClaveRegistro(b, op', h') <==> a == b && op == op' && h == h'
  {
    if ClaveRegistro(a, op, h) == ClaveRegistro(b, op', h') {
      NombreUnico(op, op');
      NombreUnico(op', op);
      UltimoCampo(IDEMPOTENCIA + a + ":" + Nombre(op), h, IDEMPOTENCIA + b + ":" + Nombre(op'), h');
      UltimoCampo(IDEMPOTENCIA + a, Nombre(op), IDEMPOTENCIA + b, Nombre(op'));
      MismoPrefijo(IDEMPOTENCIA, a, b);
    }
  }

  /** The extra DEL of the unpartitioned key hits a slot's key exactly when the smart code embeds that slot's name. */
  lemma BorradoViejoSii(smartCode: string, t: Slot)
    ensures ClaveIndiceVieja(smartCode) == ClaveIndice(t) <==> smartCode == t.smartCode + ":" + Nombre(t.operacion)
  {
    assert ClaveIndice(t) == INDICE + (t.smartCode + ":" + Nombre(t.operacion));
    MismoPrefijo(INDICE, smartCode, t.smartCode + ":" + Nombre(t.operacion));
  }

  /** So for the code of any validated payload that DEL never frees a slot. */
  lemma BorradoViejoInofensivo(q: Queja, hoy: int, v: Queja, t: Slot)
    requires Validar(q, hoy) == Valida(v)
    ensures v.smartCode.Some? && ClaveIndiceVieja(v.smartCode.value) != ClaveIndice(t)
  {
    ValidadaConcuerda(q, hoy);
    BorradoViejoSii(v.smartCode.value, t);
    assert (t.smartCode + ":" + Nombre(t.operacion))[|t.smartCode|] == ':';
  }

  /** The hash and operation the service uses. */
  ghost predicate ConfigReal(c: Config) {
    && (forall q :: c.operacion(q) == InferirOperacion(q))
    && (forall q, p {:trigger c.hash(q), c.hash(p)} :: Canonico(q) == Canonico(p) ==> c.hash(q) == c.hash(p))
  }

  /**
   * A request, its copy sent again another day, and the stored payload when a worker validates it once more all have
   * the same queue slot, the same idempotency key and the same pipeline.
   */
  lemma ClavesConcuerdan(c: Config, q: Queja, hoy: int, despues: int)
    requires ConfigReal(c) && Validar(q, hoy).Valida? && Validar(q, despues).Valida?
    ensures var (a, b) := (Validar(q, hoy).q, Validar(q, despues).q);
            && a.smartCode == b.smartCode && c.operacion(a) == c.operacion(b) && c.hash(a) == c.hash(b)
            && Pipeline(a) == Pipeline(b) == PasosDe(c.operacion(a))
            && (Validar(a, despues).Valida? ==> Validar(a, despues).q == a)
  {
    MismoContenidoOtroDia(q, hoy, despues);
    ValidadaConcuerda(q, hoy);
    ValidadaConcuerda(q, despues);
    RevalidarEsIdempotente(q, hoy, despues);
    var a, b := Validar(q, hoy).q, Validar(q, despues).q;
    assert c.hash(a) == c.hash(b);
  }
}
