/**
 * What makes two attachments the same file for the checkpoint: the key or else the name, and for content that comes
 * inline also the content. A document regenerated under its old key is a new file and goes out.
 */
module Identidades {
  import opened Comun
  import opened Adjuntos

  /** It can be named: it brings a name, or a key that does not end in a slash. */
  predicate Nombrable(a: Adjunto) {
    Cierto(a.nombre) || (Cierto(a.s3Key) && a.s3Key.value[|a.s3Key.value| - 1] != '/')
  }

  /** The key if there is one, else the name. */
  function ClaveONombre(a: Adjunto): string
    requires Nombrable(a)
  {
    if Cierto(a.s3Key) then a.s3Key.value else a.nombre.value
  }

  /** Hexadecimal digests have no colon. */
  predicate HashSano(a: Adjunto) { a.bytesHash.Some? ==> SinDosPuntos(a.bytesHash.value) }

  /** The same key or name and the same inline content, or both without. */
  predicate MismoArchivo(a: Adjunto, b: Adjunto) {
    Nombrable(a) && Nombrable(b) && ClaveONombre(a) == ClaveONombre(b) && a.bytesHash == b.bytesHash
  }

  /** `b` has no inline content, and its key or name reads like that of `a` followed by its digest. */
  predicate SeConfunde(a: Adjunto, b: Adjunto) {
    Nombrable(a) && Nombrable(b) && a.bytesHash.Some? && b.bytesHash.None?
    && ClaveONombre(b) == ClaveONombre(a) + ":" + a.bytesHash.value
  }

  // ---------------------------------------------------------------- names

  /** The last piece of a key: what follows its last slash. */
  lemma {:induction false} UltimoSegmentoExacto(s: string)
    ensures var u := UltimoSegmento(s);
            && |u| <= |s| && u == s[|s| - |u|..] && (forall i :: 0 <= i < |u| ==> u[i] != '/')
            && (|u| < |s| ==> s[|s| - |u| - 1] == '/')
  {
    if s != "" && s[|s| - 1] != '/' {
      UltimoSegmentoExacto(s[..|s| - 1]);
      var v := UltimoSegmento(s[..|s| - 1]);
      assert UltimoSegmento(s) == s[|s| - |v| - 1..];
    }
  }

  lemma NombrableSii(a: Adjunto)
    ensures Identidad(a).Some? <==> Nombrable(a)
    ensures !Cierto(a.nombre) && Cierto(a.s3Key) ==> NombreOriginal(a) == UltimoSegmento(a.s3Key.value)
  {
    if Cierto(a.s3Key) {
      UltimoSegmentoExacto(a.s3Key.value);
    }
  }

  // ---------------------------------------------------------------- identity

  /** Two identities agree exactly for the same file, or where a bare key happens to read like key and digest. */
  lemma IdentidadSii(a: Adjunto, b: Adjunto)
    requires Nombrable(a) && Nombrable(b) && HashSano(a) && HashSano(b)
    ensures Identidad(a).Some? && Identidad(b).Some?
    ensures Identidad(a) == Identidad(b) <==> MismoArchivo(a, b) || SeConfunde(a, b) || SeConfunde(b, a)
  {
    NombrableSii(a);
    NombrableSii(b);
    if Identidad(a) == Identidad(b) && a.bytesHash.Some? && b.bytesHash.Some? {
      UltimoCampo(ClaveONombre(a), a.bytesHash.value, ClaveONombre(b), b.bytesHash.value);
    }
  }

  // ---------------------------------------------------------------- what a batch posts

  /** The checkpoint is that of these files. */
  ghost predicate ConfirmadosSon(previos: set<string>, conf: set<Adjunto>) {
    && (forall x :: x in previos ==> exists b :: b in conf && Identidad(b) == Some(x))
    && (forall b :: b in conf ==> Nombrable(b) && HashSano(b) && Identidad(b).Some? && Identidad(b).value in previos)
  }

  /**
   * A file goes out if and only if no confirmed file is the same one: same key or name and same inline content.
   * In particular a regenerated document goes out although its key is confirmed with another content.
   */
  lemma SeEnviaSii(adj: seq<Adjunto>, i: nat, previos: set<string>, conf: set<Adjunto>)
    requires i < |adj| && Nombrable(adj[i]) && HashSano(adj[i]) && ConfirmadosSon(previos, conf)
    requires forall b :: b in conf ==> !SeConfunde(adj[i], b) && !SeConfunde(b, adj[i])
    ensures SeEnvia(adj, previos, i) <==> forall b :: b in conf ==> !MismoArchivo(adj[i], b)
  {
    NombrableSii(adj[i]);
    forall b | b in conf ensures Identidad(adj[i]) == Identidad(b) <==> MismoArchivo(adj[i], b) {
      IdentidadSii(adj[i], b);
    }
  }

  /** The same of the posts: a new content under a confirmed key is one more file the SFC takes. */
  lemma ContenidoNuevoLlega(e: Estado, l: Lote, i: nat, conf: set<Adjunto>)
    requires BienFormado(l) && l.leido && SinRepetidos(l.adjuntos) && i < |l.adjuntos|
    requires Nombrable(l.adjuntos[i]) && HashSano(l.adjuntos[i]) && ConfirmadosSon(e.completados, conf)
    requires forall b :: b in conf ==> !SeConfunde(l.adjuntos[i], b) && !SeConfunde(b, l.adjuntos[i])
    requires forall b :: b in conf && ClaveONombre(b) == ClaveONombre(l.adjuntos[i]) ==>
               b.bytesHash != l.adjuntos[i].bytesHash
    requires l.respuestas[i].Acepta?
    ensures Identidad(l.adjuntos[i]).Some?
    ensures var x := Identidad(l.adjuntos[i]).value; TrasLote(e, l).recibidos[x] == e.recibidos[x] + 1
  {
    SeEnviaSii(l.adjuntos, i, e.completados, conf);
    SinRepetidosBasta(l.adjuntos, e.completados);
    var x := Identidad(l.adjuntos[i]).value;
    CuentaTras(e, l, e.completados, |l.adjuntos|, x);
    MarcadoSii(l, e.completados, i);
  }
}
