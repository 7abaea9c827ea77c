/** Types and small facts shared by every module. */
module Comun {

  datatype Option<+T> = None | Some(value: T)

  /** Seconds (or any finer unit) since an arbitrary origin. */
  type Instante = int

  /** `worker_node:{uuid4}`: fresh for every scheduler cycle. */
  type Worker = nat

  /** An injective map has as many keys as values. */
  lemma {:induction false} ImagenInyectiva<K, V>(m: map<K, V>, imagen: set<V>)
    requires forall k, k' {:trigger m[k], m[k']} :: k in m && k' in m && k != k' ==> m[k] != m[k']
    requires forall k :: k in m ==> m[k] in imagen
    requires forall v :: v in imagen ==> exists k :: k in m && m[k] == v
    ensures |m.Keys| == |imagen|
    decreases |m.Keys|
  {
    if m.Keys == {} {
      assert imagen == {};
    } else {
      var k :| k in m;
      var resto := map j | j in m && j != k :: m[j];
      assert resto.Keys == m.Keys - {k};
      forall v | v in imagen - {m[k]}
        ensures exists j :: j in resto && resto[j] == v
      {
        var j :| j in m && m[j] == v;
        assert j in resto && resto[j] == v;
      }
      ImagenInyectiva(resto, imagen - {m[k]});
    }
  }

  // ---------------------------------------------------------------- steps that commute

  function Pliega<S, A>(f: (S, A) -> S, s: S, o: seq<A>): S {
    if o == [] then s else f(Pliega(f, s, o[..|o| - 1]), o[|o| - 1])
  }

  ghost predicate Conmuta<S(!new), A(!new)>(f: (S, A) -> S) {
    forall s, a, b :: f(f(s, a), b) == f(f(s, b), a)
  }

  function SinPos<A>(o: seq<A>, k: nat): seq<A>
    requires k < |o|
  {
    o[..k] + o[k + 1..]
  }

  lemma SacarDeMulticonjunto<A>(o: seq<A>, k: nat)
    requires k < |o|
    ensures multiset(SinPos(o, k)) == multiset(o) - multiset{o[k]}
  {
    assert o == o[..k] + [o[k]] + o[k + 1..];
  }

  lemma {:induction false} AlFinal<S(!new), A(!new)>(f: (S, A) -> S, s: S, o: seq<A>, k: nat)
    requires Conmuta(f) && k < |o|
    ensures Pliega(f, s, o) == f(Pliega(f, s, SinPos(o, k)), o[k])
  {
    var p, ult := o[..|o| - 1], o[|o| - 1];
    if k == |o| - 1 {
      assert SinPos(o, k) == p;
    } else {
      AlFinal(f, s, p, k);
      var resto := SinPos(o, k);
      assert resto[..|resto| - 1] == SinPos(p, k) && resto[|resto| - 1] == ult;
    }
  }

  /** Steps that commute give the same result in any order. */
  lemma {:induction false} OrdenNoImporta<S(!new), A(!new)>(f: (S, A) -> S, s: S, o: seq<A>, q: seq<A>)
    requires Conmuta(f) && multiset(o) == multiset(q)
    ensures Pliega(f, s, o) == Pliega(f, s, q)
    decreases |o|
  {
    if o == [] {
      assert |multiset(q)| == 0;
    } else {
      var i := |o| - 1;
      assert o[i] in multiset(q);
      var k :| 0 <= k < |q| && q[k] == o[i];
      SacarDeMulticonjunto(o, i);
      SacarDeMulticonjunto(q, k);
      AlFinal(f, s, q, k);
      assert SinPos(o, i) == o[..i];
      OrdenNoImporta(f, s, SinPos(o, i), SinPos(q, k));
    }
  }

  predicate SinDosPuntos(s: string) { forall i :: 0 <= i < |s| ==> s[i] != ':' }

  /** A key splits at its last colon in one way only. */
  lemma UltimoCampo(a: string, x: string, b: string, y: string)
    requires SinDosPuntos(x) && SinDosPuntos(y) && a + ":" + x == b + ":" + y
    ensures a == b && x == y
  {
    var k := a + ":" + x;
    assert k == b + ":" + y;
    forall i | |a| < i < |k| ensures k[i] != ':' { assert k[i] == x[i - |a| - 1]; }
    forall i | |b| < i < |k| ensures k[i] != ':' { assert k[i] == y[i - |b| - 1]; }
    assert k[|a|] == ':' && k[|b|] == ':';
    assert a == k[..|a|] && b == k[..|b|];
    assert x == k[|a| + 1..] && y == k[|b| + 1..];
  }
}
