/** Building a run step by step. */
module Avance {
  import opened Protocolo
  import opened Exclusion
  import opened Cola

  /** The run goes on from `r`, by workers and requests only, and now stands at `w`. */
  ghost predicate Llega(c: Config, r: Corrida, r': Corrida, w: Mundo)
    requires |r.estados| == |r.pasos| + 1
  {
    EsCorrida(c, r') && Ultimo(r') == w && SinEntornoNuevo(r, r')
  }

  /** It goes on like that, to wherever `r'` ends. */
  ghost predicate Avanza(c: Config, r: Corrida, r': Corrida)
    requires |r.estados| == |r.pasos| + 1
  {
    EsCorrida(c, r') && Llega(c, r, r', Ultimo(r'))
  }

  /** A run in which only workers and requests act. */
  ghost predicate CorridaSinEntorno(c: Config, r: Corrida) { EsCorrida(c, r) && SinEntorno(r) }

  lemma Pide(c: Config, r: Corrida, n: nat, t: PasoPeticion, w': Mundo) returns (r': Corrida)
    requires EsCorrida(c, r) && PuedePeticion(Ultimo(r), n, t) && TrasPeticion(c, Ultimo(r), n, t) == w'
    ensures Llega(c, r, r', w')
  {
    r' := Mas(c, r, Solicitud(n, t));
    MasSigue(c, r, Solicitud(n, t));
  }

  lemma Trabaja(c: Config, r: Corrida, k: Clave, s: PasoSesion, w': Mundo) returns (r': Corrida)
    requires EsCorrida(c, r) && PuedeSesion(Ultimo(r), k, s) && TrasSesion(c, Ultimo(r), k, s) == w'
    ensures Llega(c, r, r', w')
  {
    r' := Mas(c, r, Trabajador(k, s));
    MasSigue(c, r, Trabajador(k, s));
  }

  lemma MasSigue(c: Config, r: Corrida, p: Paso)
    requires EsCorrida(c, r) && Habilitado(Ultimo(r), p)
    ensures EsCorrida(c, Mas(c, r, p)) && (ArriendosRenovados(Mas(c, r, p)) ==> ArriendosRenovados(r))
  {
    MasEsCorrida(c, r, p);
    var r' := Mas(c, r, p);
    if ArriendosRenovados(r') {
      forall i: nat | i < |r.pasos| ensures ArriendoVivo(r.estados[i], r.pasos[i]) {
        assert ArriendoVivo(r'.estados[i], r'.pasos[i]);
      }
    }
  }

  lemma Vacia(c: Config) returns (r: Corrida)
    ensures CorridaSinEntorno(c, r) && Ultimo(r) == INICIAL
  {
    r := Corrida([INICIAL], []);
  }
}
