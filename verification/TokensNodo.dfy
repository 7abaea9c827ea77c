/** One node renewing its token: the coordinated wait loop and the 401 recovery of `SfcAuthManager`. */
module TokensNodo {
  import opened Comun
  import opened Tokens

  const ESPERA_MS := 10000
  const SONDEO_MS := 250

  /** What one turn of the wait loop meets: the answers of Redis, and what other nodes left in the shared record. */
  datatype Vuelta =
    | SinRedis
    | LockObtenido(vigente: bool)
    | LockAjeno(dejado: Option<Token>, vigente: bool)

  /**
   * How one call to the SFC for tokens ends. An answer that cannot be read raises an error after the local copy has
   * already been overwritten with whatever came, perhaps nothing.
   */
  datatype Intento = Bien | Fallido | Ilegible(vino: bool)

  /** Whether a refresh token is at hand, and how the refresh and the login end if they are tried. */
  datatype Emision = Emision(refrescoVigente: bool, refresco: Intento, login: Intento)

  /** Some call gives a token: the refresh if there is one, else the login. */
  predicate Consigue(e: Emision) { (e.refrescoVigente && e.refresco.Bien?) || e.login.Bien? }

  datatype LlamadaAuth = ARefresco | ALogin

  /** The calls an issue makes: the refresh if one is at hand, the login only when that gave nothing. */
  function Intentos(e: Emision): seq<LlamadaAuth> {
    (if e.refrescoVigente then [ARefresco] else [])
    + (if e.refrescoVigente && e.refresco.Bien? then [] else [ALogin])
  }

  /** A token this renewal may issue, `emitidos` being the count before it: at most a refresh and a login. */
  predicate Propio(t: Token, emitidos: nat) { emitidos <= t <= emitidos + 1 }

  /** Neither local nor shared at the start, nor left in the shared record by another node in the first `n` turns. */
  predicate NuncaVisto(propio: Option<Token>, compartido: Option<Token>, vueltas: nat -> Vuelta, n: nat, t: Token) {
    && propio != Some(t) && compartido != Some(t)
    && forall j: nat :: j < n && vueltas(j).LockAjeno? ==> vueltas(j).dejado != Some(t)
  }

  /** The wait ends in this turn. */
  predicate Termina(v: Vuelta, conToken: bool, ahora: int, limite: int) {
    !v.LockAjeno? || ahora >= limite || (v.vigente && (conToken || v.dejado.Some?))
  }

  /** The shared record in Redis, and the SFC that issues tokens. */
  class Servicio {
    var compartido: Option<Token>
    var emitidos: nat

    constructor ()
      ensures compartido == None && emitidos == 0
    {
      compartido := None;
      emitidos := 0;
    }
  }

  class SfcAuthManager {
    const red: Servicio
    var accessToken: Option<Token>

    constructor (red: Servicio)
      ensures this.red == red && accessToken == None
    {
      this.red := red;
      accessToken := None;
    }

    /** `_load_from_redis`: a missing record leaves the local copy alone. */
    method CargarDeRedis()
      modifies this
      ensures accessToken == if red.compartido.Some? then red.compartido else old(accessToken)
    {
      if red.compartido.Some? {
        accessToken := red.compartido;
      }
    }

    /** `_login` or `_refresh_access_token`, with the order of writes of `_save_tokens_local`. */
    method Emitir(como: Intento) returns (ok: bool)
      modifies this, red`emitidos
      ensures ok <==> como.Bien?
      ensures red.emitidos == old(red.emitidos) + (if como.Bien? || como == Ilegible(true) then 1 else 0)
      ensures accessToken == match como {
                               case Bien => Some(old(red.emitidos))
                               case Fallido => old(accessToken)
                               case Ilegible(vino) => if vino then Some(old(red.emitidos)) else None
                             }
    {
      match como {
        case Bien =>
          accessToken := Some(red.emitidos);
          red.emitidos := red.emitidos + 1;
        case Fallido =>
        case Ilegible(vino) =>
          if vino {
            accessToken := Some(red.emitidos);
            red.emitidos := red.emitidos + 1;
          } else {
            accessToken := None;
          }
      }
      ok := como.Bien?;
    }

    /** `_renovar_token_directo_local`: refresh if possible, login otherwise or if that fails; None is an exception. */
    method RenovarDirecto(e: Emision) returns (t: Option<Token>, ghost llamadas: seq<LlamadaAuth>)
      modifies this, red`emitidos
      ensures (t.Some? <==> Consigue(e)) && llamadas == Intentos(e)
      ensures t.Some? ==> accessToken == t && old(red.emitidos) <= t.value < red.emitidos
      ensures old(red.emitidos) <= red.emitidos <= old(red.emitidos) + 2
      ensures accessToken.Some? && accessToken != old(accessToken) ==>
                old(red.emitidos) <= accessToken.value < red.emitidos
    {
      var ok := false;
      llamadas := [];
      if e.refrescoVigente {
        ok := Emitir(e.refresco);
        llamadas := llamadas + [ARefresco];
      }
      if !ok {
        ok := Emitir(e.login);
        llamadas := llamadas + [ALogin];
      }
      t := if ok then accessToken else None;
    }

    /** INVALIDATE_IF_MATCHES. */
    method InvalidarSiCoincide(rechazado: Token)
      modifies red`compartido
      ensures red.compartido == if old(red.compartido) == Some(rechazado) then None else old(red.compartido)
    {
      if red.compartido == Some(rechazado) {
        red.compartido := None;
      }
    }

    /** What `_renovar_token_coordinado` does while it holds the distributed lock: look again, else issue and share. */
    method RenovarConLock(vigente: bool, e: Emision) returns (t: Option<Token>, ghost llamadas: seq<LlamadaAuth>)
      modifies this, red
      ensures old(red.emitidos) <= red.emitidos <= old(red.emitidos) + 2 && (t.Some? ==> accessToken == t)
      ensures var cargado := if old(red.compartido).Some? then old(red.compartido) else old(accessToken);
              if vigente && cargado.Some? then
                t == cargado && llamadas == [] && red.compartido == old(red.compartido)
                && red.emitidos == old(red.emitidos)
              else
                && llamadas == Intentos(e)
                && (t.Some? <==> Consigue(e))
                && (t.Some? ==> Propio(t.value, old(red.emitidos)) && red.compartido == t)
                && (t.None? ==> red.compartido == old(red.compartido))
                && (accessToken.Some? && accessToken != cargado ==> Propio(accessToken.value, old(red.emitidos)))
    {
      CargarDeRedis();
      if vigente && accessToken.Some? {
        t, llamadas := accessToken, [];
      } else {
        t, llamadas := RenovarDirecto(e);
        if t.Some? {
          red.compartido := accessToken;
        }
      }
    }

    /** One turn of the wait loop. */
    method UnaVuelta(v: Vuelta, vencido: bool, e: Emision)
      returns (fin: bool, t: Option<Token>, ghost llamadas: seq<LlamadaAuth>)
      modifies this, red
      ensures fin <==> !v.LockAjeno? || vencido || (v.vigente && (old(accessToken).Some? || v.dejado.Some?))
      ensures old(red.emitidos) <= red.emitidos <= old(red.emitidos) + 2
      ensures (t.Some? ==> accessToken == t) && (llamadas == [] || llamadas == Intentos(e))
      ensures llamadas == [] ==> red.emitidos == old(red.emitidos)
      // another node's turn to renew: what it left is looked at, until patience runs out
      ensures v.LockAjeno? && !vencido ==>
                && llamadas == [] && red.compartido == v.dejado
                && accessToken == (if v.dejado.Some? then v.dejado else old(accessToken))
                && t == (if fin then accessToken else None)
      ensures v.SinRedis? || (v.LockAjeno? && vencido) ==>
                && llamadas == Intentos(e) && (t.Some? <==> Consigue(e)) && red.compartido == old(red.compartido)
                && (t.Some? ==> Propio(t.value, old(red.emitidos)))
                && (accessToken.Some? && accessToken != old(accessToken) ==>
                      Propio(accessToken.value, old(red.emitidos)))
      ensures v.LockObtenido? ==>
                var cargado := if old(red.compartido).Some? then old(red.compartido) else old(accessToken);
                if v.vigente && cargado.Some? then
                  t == cargado && llamadas == [] && red.compartido == old(red.compartido)
                else
                  && llamadas == Intentos(e) && (t.Some? <==> Consigue(e))
                  && red.compartido == (if t.Some? then t else old(red.compartido))
                  && (t.Some? ==> Propio(t.value, old(red.emitidos)))
                  && (accessToken.Some? && accessToken != cargado ==> Propio(accessToken.value, old(red.emitidos)))
    {
      fin := true;
      match v {
        case SinRedis =>
          t, llamadas := RenovarDirecto(e);
        case LockObtenido(vigente) =>
          t, llamadas := RenovarConLock(vigente, e);
        case LockAjeno(dejado, vigente) =>
          if vencido {
            t, llamadas := RenovarDirecto(e);
            return;
          }
          red.compartido := dejado;
          CargarDeRedis();
          fin := vigente && accessToken.Some?;
          t, llamadas := if fin then accessToken else None, [];
      }
    }

    /**
     * `_renovar_token_coordinado`. `reloj(i)` is the time at turn `i`; a turn that does not end sleeps at least the
     * polling interval. The loop stops at the first turn that ends it, at most 41 turns after it began, and never
     * returns, shares or keeps a token `r` that is neither local nor shared now nor left behind by another node.
     */
    method RenovarCoordinado(vueltas: nat -> Vuelta, reloj: nat -> int, e: Emision)
      returns (t: Option<Token>, i: nat, ghost conToken: bool, ghost llamadas: seq<LlamadaAuth>)
      requires forall j: nat :: reloj(j + 1) >= reloj(j) + SONDEO_MS
      // nobody can have a token that was not issued yet
      requires red.compartido.Some? ==> red.compartido.value < red.emitidos
      requires accessToken.Some? ==> accessToken.value < red.emitidos
      requires forall j: nat :: vueltas(j).LockAjeno? && vueltas(j).dejado.Some? ==>
                                  !Propio(vueltas(j).dejado.value, red.emitidos)
      modifies this, red
      ensures i <= 40
      ensures conToken <==> old(accessToken).Some?
                            || exists j: nat :: j < i && vueltas(j).LockAjeno? && vueltas(j).dejado.Some?
      ensures Termina(vueltas(i), conToken, reloj(i), reloj(0) + ESPERA_MS)
      ensures forall j: nat :: j < i ==> vueltas(j).LockAjeno? && reloj(j) < reloj(0) + ESPERA_MS
      ensures t.Some? ==> accessToken == t
      ensures t.None? ==> !Consigue(e)
      // tokens are asked for only without Redis, out of patience, or under the lock with nothing valid to use
      ensures llamadas == [] || llamadas == Intentos(e)
      ensures vueltas(i).SinRedis? || (vueltas(i).LockObtenido? && !vueltas(i).vigente) ==> llamadas == Intentos(e)
      ensures vueltas(i).LockObtenido? && vueltas(i).vigente && conToken ==> llamadas == []
      ensures vueltas(i).LockAjeno? ==> (llamadas == [] <==> reloj(i) < reloj(0) + ESPERA_MS)
      ensures llamadas == [] ==> red.emitidos == old(red.emitidos)
      ensures old(red.emitidos) <= red.emitidos <= old(red.emitidos) + 2
      // a token issued under the distributed lock is shared; one issued for want of Redis or of patience is not
      ensures t.Some? && !Propio(t.value, old(red.emitidos)) ==> !vueltas(i).SinRedis? && vueltas(i).vigente
      ensures t.Some? && Propio(t.value, old(red.emitidos)) ==> (vueltas(i).LockObtenido? <==> red.compartido == t)
      ensures vueltas(i).LockAjeno? && reloj(i) >= reloj(0) + ESPERA_MS ==>
                (t.Some? <==> Consigue(e)) && (t.Some? ==> Propio(t.value, old(red.emitidos)))
      // a renewal that fails shares nothing of its own
      ensures t.None? && red.compartido.Some? ==> !Propio(red.compartido.value, old(red.emitidos))
      ensures forall r: Token ::
                r < old(red.emitidos) && NuncaVisto(old(accessToken), old(red.compartido), vueltas, i + 1, r)
                ==> t != Some(r) && accessToken != Some(r) && red.compartido != Some(r)
    {
      var limite := reloj(0) + ESPERA_MS;
      i := 0;
      conToken, llamadas := accessToken.Some?, [];
      ghost var emitidosAntes := red.emitidos;
      while true
        invariant reloj(i) >= reloj(0) + SONDEO_MS * i
        invariant i <= ESPERA_MS / SONDEO_MS
        invariant forall j: nat :: j < i ==> vueltas(j).LockAjeno? && reloj(j) < limite
        invariant conToken <==> accessToken.Some?
        invariant conToken <==> old(accessToken).Some?
                                || exists j: nat :: j < i && vueltas(j).LockAjeno? && vueltas(j).dejado.Some?
        invariant red.emitidos == emitidosAntes && llamadas == []
        invariant accessToken.Some? ==> !Propio(accessToken.value, emitidosAntes)
        invariant red.compartido.Some? ==> !Propio(red.compartido.value, emitidosAntes)
        invariant forall r: Token :: NuncaVisto(old(accessToken), old(red.compartido), vueltas, i, r) ==>
                                       accessToken != Some(r) && red.compartido != Some(r)
        decreases ESPERA_MS / SONDEO_MS - i
      {
        var fin;
        fin, t, llamadas := UnaVuelta(vueltas(i), reloj(i) >= limite, e);
        if fin {
          return;
        }
        conToken := accessToken.Some?;
        i := i + 1;
      }
    }

    /** Nothing was issued, and the shared record is this one. */
    predicate EnReposo(llamadas: seq<LlamadaAuth>, emitidos: nat, compartido: Option<Token>)
      reads red
    {
      llamadas == [] && red.emitidos == emitidos && red.compartido == compartido
    }

    /** The part of `async_auth_flow` that answers a 401, with the shared renewal loop above; None is an exception. */
    method Recuperar(rechazado: Token, conRedis: bool, localVigente: bool, compartidoVigente: bool,
                     vueltas: nat -> Vuelta, reloj: nat -> int, e: Emision)
      returns (nuevo: Option<Token>, ghost llamadas: seq<LlamadaAuth>)
      requires rechazado < red.emitidos
      requires forall j: nat :: reloj(j + 1) >= reloj(j) + SONDEO_MS
      requires red.compartido.Some? ==> red.compartido.value < red.emitidos
      requires accessToken.Some? ==> accessToken.value < red.emitidos
      requires forall j: nat :: vueltas(j).LockAjeno? && vueltas(j).dejado.Some? ==>
                                  !Propio(vueltas(j).dejado.value, red.emitidos)
      // once invalidated it is dead: no other node leaves it in the shared record again
      requires forall j: nat :: vueltas(j).LockAjeno? ==> vueltas(j).dejado != Some(rechazado)
      modifies this, red
      ensures nuevo != Some(rechazado) && accessToken != Some(rechazado) && (nuevo.Some? ==> accessToken == nuevo)
      ensures Consigue(e) ==> nuevo.Some?
      // a token already at hand is used, the node's own first, and the SFC is asked for none
      ensures var local := if old(accessToken) == Some(rechazado) then None else old(accessToken);
              var compartido := if conRedis && old(red.compartido) == Some(rechazado) then None
                                else old(red.compartido);
              var cargado := if compartido.Some? then compartido else local;
              && (localVigente && local.Some? ==> nuevo == local && EnReposo(llamadas, old(red.emitidos), compartido))
              && (!(localVigente && local.Some?) && conRedis && compartidoVigente && cargado.Some? ==>
                    nuevo == cargado && EnReposo(llamadas, old(red.emitidos), compartido))
              && (!(localVigente && local.Some?) && !conRedis ==> llamadas == Intentos(e))
      // without Redis nothing is invalidated, and nothing else is written either
      ensures if conRedis then red.compartido != Some(rechazado) else red.compartido == old(red.compartido)
    {
      if conRedis {
        InvalidarSiCoincide(rechazado);
      }
      if accessToken == Some(rechazado) {
        accessToken := None;
      }
      if localVigente && accessToken.Some? {
        return accessToken, [];
      }
      if !conRedis {
        nuevo, llamadas := RenovarDirecto(e);
        return;
      }
      CargarDeRedis();
      if compartidoVigente && accessToken.Some? {
        return accessToken, [];
      }
      var vueltasDadas;
      ghost var con;
      nuevo, vueltasDadas, con, llamadas := RenovarCoordinado(vueltas, reloj, e);
    }
  }
}
