/** File-name sanitising and the filesystem operations of the batch run
    (src/utils/fileUtils.ts). The filesystem is a `Disco`: the set of file
    paths and the set of directory paths that exist. */
module Archivos {
  import opened Cadenas
  import opened Tipos

  // ------------------------------------------------------------ LimpiarNombre

  /** U+0300..U+036F, the block of combining diacritical marks. */
  predicate EsMarcaCombinante(c: char) {
    0x300 <= c as int <= 0x36F
  }

  /** `\w` of a JavaScript regular expression without the `u` flag. */
  predicate EsCaracterPalabra(c: char) {
    ('a' <= c <= 'z') || ('A' <= c <= 'Z') || ('0' <= c <= '9') || c == '_'
  }

  /** What a sanitised name is made of: lower-case ASCII letters, digits, `_`, `-`. */
  predicate EsCaracterSeguro(c: char) {
    ('a' <= c <= 'z') || ('0' <= c <= '9') || c == '_' || c == '-'
  }

  predicate NombreSeguro(s: string) {
    forall i :: 0 <= i < |s| ==> EsCaracterSeguro(s[i])
  }

  predicate PalabraOGuion(s: string) {
    forall i :: 0 <= i < |s| ==> EsCaracterPalabra(s[i]) || s[i] == '-'
  }

  predicate PalabraEspacioOGuion(s: string) {
    forall i :: 0 <= i < |s| ==> EsCaracterPalabra(s[i]) || EsEspacio(s[i]) || s[i] == '-'
  }

  /** Step 2 of the sanitiser: every combining mark is removed. */
  function QuitarAcentos(s: string): (r: string)
    ensures |r| <= |s|
    ensures forall i :: 0 <= i < |r| ==> !EsMarcaCombinante(r[i])
    ensures (forall i :: 0 <= i < |s| ==> !EsMarcaCombinante(s[i])) ==> r == s
  {
    if s == [] then []
    else (if EsMarcaCombinante(s[0]) then [] else [s[0]]) + QuitarAcentos(s[1..])
  }

  /** Removing marks keeps every other character in order: it distributes
      over concatenation. */
  lemma {:induction false} QuitarAcentosConcatena(a: string, b: string)
    ensures QuitarAcentos(a + b) == QuitarAcentos(a) + QuitarAcentos(b)
  {
    if a == [] {
      assert a + b == b;
    } else {
      assert (a + b)[1..] == a[1..] + b;
      QuitarAcentosConcatena(a[1..], b);
    }
  }

  /** A mark is dropped; any other character is kept. */
  lemma QuitarAcentosUno(c: char)
    ensures QuitarAcentos([c]) == if EsMarcaCombinante(c) then [] else [c]
  {
    assert [c][1..] == [];
  }

  /** Step 3: every character that is not a word character, white space or `-` is removed. */
  function SoloPermitidos(s: string): (r: string)
    ensures |r| <= |s|
    ensures PalabraEspacioOGuion(r)
    ensures PalabraEspacioOGuion(s) ==> r == s
  {
    if s == [] then []
    else
      (if EsCaracterPalabra(s[0]) || EsEspacio(s[0]) || s[0] == '-' then [s[0]] else [])
      + SoloPermitidos(s[1..])
  }

  /** Removing disallowed characters keeps the others in order: it
      distributes over concatenation. */
  lemma {:induction false} SoloPermitidosConcatena(a: string, b: string)
    ensures SoloPermitidos(a + b) == SoloPermitidos(a) + SoloPermitidos(b)
  {
    if a == [] {
      assert a + b == b;
    } else {
      var c := a[1..];
      var k := if EsCaracterPalabra(a[0]) || EsEspacio(a[0]) || a[0] == '-' then [a[0]] else [];
      assert SoloPermitidos(a + b) == k + SoloPermitidos(c + b) by {
        assert (a + b)[0] == a[0];
        assert (a + b)[1..] == c + b;
      }
      assert SoloPermitidos(c + b) == SoloPermitidos(c) + SoloPermitidos(b) by {
        SoloPermitidosConcatena(c, b);
      }
      assert SoloPermitidos(a) == k + SoloPermitidos(c);
      Asociar(k, SoloPermitidos(c), SoloPermitidos(b));
    }
  }

  /** A word character, white space or `-` is kept; any other is dropped. */
  lemma SoloPermitidosUno(c: char)
    ensures SoloPermitidos([c]) == if EsCaracterPalabra(c) || EsEspacio(c) || c == '-' then [c] else []
  {
    assert [c][1..] == [];
  }

  /** Step 4: every maximal run of white space becomes one `_`. */
  function ColapsarEspacios(s: string): (r: string)
    ensures |r| <= |s|
    ensures SinEspacios(r)
    ensures SinEspacios(s) ==> r == s
    ensures PalabraEspacioOGuion(s) ==> PalabraOGuion(r)
    decreases |s|
  {
    if s == [] then []
    else if EsEspacio(s[0]) then "_" + ColapsarEspacios(RecortarInicio(s))
    else [s[0]] + ColapsarEspacios(s[1..])
  }

  /** The first `n` characters (all of them when there are fewer). */
  function Prefijo(s: string, n: nat): (r: string)
    ensures |r| <= n && |r| <= |s|
    ensures r == s[..|r|]
    ensures |s| <= n ==> r == s
  {
    if |s| <= n then s else s[..n]
  }

  const LONGITUD_NOMBRE: nat := 50

  /** `limpiarNombre`. Step 1, canonical decomposition, is not modelled: the
      name is taken as already decomposed. After step 3 only ASCII is left, so
      lower-casing ASCII letters (step 5) and cutting at 50 characters (step 6)
      are exact. */
  function LimpiarNombre(nombre: string): (r: string)
    ensures |r| <= LONGITUD_NOMBRE
    ensures NombreSeguro(r)
  {
    var t := ColapsarEspacios(SoloPermitidos(QuitarAcentos(nombre)));
    var m := Minusculas(t);
    assert NombreSeguro(m) by {
      forall i | 0 <= i < |m| ensures EsCaracterSeguro(m[i]) {
        assert EsCaracterPalabra(t[i]) || t[i] == '-';
      }
    }
    Prefijo(m, LONGITUD_NOMBRE)
  }

  /** A run of white space followed by a non-space collapses to a single `_`. */
  lemma {:induction false} ColapsarRacha(w: string, t: string)
    requires |w| > 0 && forall i :: 0 <= i < |w| ==> EsEspacio(w[i])
    requires t == [] || !EsEspacio(t[0])
    ensures ColapsarEspacios(w + t) == "_" + ColapsarEspacios(t)
  {
    RecortarInicioRacha(w, t);
  }

  /** A run of white space after a prefix that is empty or ends in a
      non-space also collapses to a single `_`, wherever it lies. */
  lemma ColapsarRachaTras(a: string, w: string, t: string)
    requires a == [] || !EsEspacio(a[|a| - 1])
    requires |w| > 0 && forall i :: 0 <= i < |w| ==> EsEspacio(w[i])
    requires t == [] || !EsEspacio(t[0])
    ensures ColapsarEspacios(a + w + t) == ColapsarEspacios(a) + "_" + ColapsarEspacios(t)
  {
    Asociar(a, w, t);
    ColapsarEspaciosConcatena(a, w + t);
    ColapsarRacha(w, t);
    Asociar(ColapsarEspacios(a), "_", ColapsarEspacios(t));
  }

  /** Collapsing splits at a point that follows a non-space. */
  lemma {:induction false} ColapsarEspaciosConcatena(a: string, b: string)
    requires a == [] || !EsEspacio(a[|a| - 1])
    ensures ColapsarEspacios(a + b) == ColapsarEspacios(a) + ColapsarEspacios(b)
    decreases |a|
  {
    if a == [] {
      assert a + b == b;
    } else if EsEspacio(a[0]) {
      var r := RecortarInicio(a);
      assert r != [] by {
        assert !EsEspacio(a[|a| - 1]);
      }
      assert |r| < |a| && !EsEspacio(r[|r| - 1]) by {
        assert r[0] == a[|a| - |r|];
        assert r[|r| - 1] == a[|a| - 1];
      }
      assert ColapsarEspacios(a + b) == "_" + ColapsarEspacios(r + b) by {
        assert (a + b)[0] == a[0];
        RecortarInicioConcatena(a, b);
      }
      assert ColapsarEspacios(r + b) == ColapsarEspacios(r) + ColapsarEspacios(b) by {
        ColapsarEspaciosConcatena(r, b);
      }
      assert ColapsarEspacios(a) == "_" + ColapsarEspacios(r);
      Asociar("_", ColapsarEspacios(r), ColapsarEspacios(b));
    } else {
      var c := a[1..];
      assert ColapsarEspacios(a + b) == [a[0]] + ColapsarEspacios(c + b) by {
        assert (a + b)[0] == a[0];
        assert (a + b)[1..] == c + b;
      }
      assert ColapsarEspacios(c + b) == ColapsarEspacios(c) + ColapsarEspacios(b) by {
        ColapsarEspaciosConcatena(c, b);
      }
      assert ColapsarEspacios(a) == [a[0]] + ColapsarEspacios(c);
      Asociar([a[0]], ColapsarEspacios(c), ColapsarEspacios(b));
    }
  }

  /** Leading white space ends inside `a` when `a` ends in a non-space. */
  lemma {:induction false} RecortarInicioConcatena(a: string, b: string)
    requires a != [] && !EsEspacio(a[|a| - 1])
    ensures RecortarInicio(a + b) == RecortarInicio(a) + b
    decreases |a|
  {
    assert (a + b)[0] == a[0];
    if EsEspacio(a[0]) {
      assert |a| > 1;
      assert RecortarInicio(a + b) == RecortarInicio(a[1..] + b) by {
        assert (a + b)[1..] == a[1..] + b;
      }
      RecortarInicioConcatena(a[1..], b);
    }
  }

  lemma {:induction false} RecortarInicioRacha(w: string, t: string)
    requires forall i :: 0 <= i < |w| ==> EsEspacio(w[i])
    requires t == [] || !EsEspacio(t[0])
    ensures RecortarInicio(w + t) == t
    decreases |w|
  {
    if w == [] {
      assert w + t == t;
    } else {
      assert (w + t)[1..] == w[1..] + t;
      RecortarInicioRacha(w[1..], t);
    }
  }

  /** Sanitising a sanitised name changes nothing. */
  lemma LimpiarNombreIdempotente(nombre: string)
    ensures LimpiarNombre(LimpiarNombre(nombre)) == LimpiarNombre(nombre)
  {
    var s := LimpiarNombre(nombre);
    assert forall i :: 0 <= i < |s| ==> !EsMarcaCombinante(s[i]) && !EsEspacio(s[i]);
    assert QuitarAcentos(s) == s;
    assert PalabraEspacioOGuion(s);
    assert SoloPermitidos(s) == s;
    assert ColapsarEspacios(s) == s;
    assert Minusculas(s) == s;
  }

  /** No combining mark survives sanitising. */
  lemma LimpiarNombreSinMarcas(nombre: string)
    ensures forall i :: 0 <= i < |LimpiarNombre(nombre)| ==> !EsMarcaCombinante(LimpiarNombre(nombre)[i])
  {
  }

  // ------------------------------------------------------------------- Disco

  /** `ruta` is an entry directly inside directory `dir`. */
  predicate EnDirectorio(ruta: string, dir: string) {
    EmpiezaCon(ruta, dir + "/") && '/' !in ruta[|dir| + 1..]
  }

  function NombreEnDirectorio(ruta: string, dir: string): string
    requires EnDirectorio(ruta, dir)
  {
    ruta[|dir| + 1..]
  }

  /** The name ends with one of the extensions. */
  predicate EsTemporal(nombre: string, extensiones: seq<string>) {
    exists i :: 0 <= i < |extensiones| && TerminaCon(nombre, extensiones[i])
  }

  /** The files of `dir` whose names end with one of `extensiones`: those
      `limpiarArchivosTemporales` selects. */
  function Temporales(archivos: set<string>, dir: string, extensiones: seq<string>): set<string> {
    set r | r in archivos && EnDirectorio(r, dir) && EsTemporal(NombreEnDirectorio(r, dir), extensiones)
  }

  /** The extension list `limpiarArchivosTemporales` uses when its caller
      gives none. */
  const EXTENSIONES_TEMPORALES: seq<string> := [".tmp", ".temp"]

  /** With the default list, a name is selected iff it ends in ".tmp" or ".temp". */
  lemma EsTemporalPorDefecto(nombre: string)
    ensures EsTemporal(nombre, EXTENSIONES_TEMPORALES) <==> TerminaCon(nombre, ".tmp") || TerminaCon(nombre, ".temp")
  {
    if TerminaCon(nombre, ".tmp") {
      assert TerminaCon(nombre, EXTENSIONES_TEMPORALES[0]);
    }
    if TerminaCon(nombre, ".temp") {
      assert TerminaCon(nombre, EXTENSIONES_TEMPORALES[1]);
    }
  }

  /** The files that remain after the cleanup of `dir`: every selected file
      is gone except those whose unlink fails; an unreadable directory leaves
      everything in place. */
  function TrasLimpieza(archivos: set<string>, directorios: set<string>, dir: string,
                        extensiones: seq<string>, fallaUnlink: set<string>): set<string>
  {
    if dir in directorios then archivos - (Temporales(archivos, dir, extensiones) - fallaUnlink) else archivos
  }

  /** The cleanup removes exactly the selected files of `dir` whose unlink
      succeeds: every other file remains, and an unreadable directory
      leaves everything in place. */
  lemma TrasLimpiezaForma(archivos: set<string>, directorios: set<string>, dir: string,
                          extensiones: seq<string>, fallaUnlink: set<string>)
    ensures var r := TrasLimpieza(archivos, directorios, dir, extensiones, fallaUnlink);
            r <= archivos
            && (forall p :: p in archivos && !(EnDirectorio(p, dir) && EsTemporal(NombreEnDirectorio(p, dir), extensiones)) ==> p in r)
            && (forall p :: (p in archivos && dir in directorios && EnDirectorio(p, dir)
                            && EsTemporal(NombreEnDirectorio(p, dir), extensiones)) ==> (p in r <==> p in fallaUnlink))
            && (dir !in directorios ==> r == archivos)
  {
  }

  class Disco {
    var archivos: set<string>
    var directorios: set<string>

    constructor (archivos0: set<string>, directorios0: set<string>)
      ensures archivos == archivos0 && directorios == directorios0
    {
      archivos := archivos0;
      directorios := directorios0;
    }

    /** `crearDirectorioSeguro`: `fallo` is the error `mkdir` reports, if any. */
    method CrearDirectorioSeguro(dir: string, fallo: Option<string>) returns (r: Outcome)
      modifies this`directorios
      ensures r == (if fallo.Some? then Fail("No se pudo crear directorio " + dir + ": " + fallo.value) else Pass)
      ensures directorios == if r.Pass? then old(directorios) + {dir} else old(directorios)
    {
      if fallo.Some? {
        return Fail("No se pudo crear directorio " + dir + ": " + fallo.value);
      }
      directorios := directorios + {dir};
      r := Pass;
    }

    /** Writes (creates or replaces) the file at `ruta`. */
    method Escribir(ruta: string)
      modifies this`archivos
      ensures archivos == old(archivos) + {ruta}
    {
      archivos := archivos + {ruta};
    }

    /** `limpiarArchivosTemporales`: lists `dir` and unlinks every entry whose
        name ends with one of `extensiones`, which defaults to
        EXTENSIONES_TEMPORALES when the caller gives none. An unlink in
        `fallaUnlink` fails, and that failure, like an unreadable directory,
        is swallowed. */
    method LimpiarArchivosTemporales(dir: string, fallaUnlink: set<string>, extensiones: seq<string> := EXTENSIONES_TEMPORALES)
      modifies this`archivos
      ensures archivos == TrasLimpieza(old(archivos), directorios, dir, extensiones, fallaUnlink)
    {
      if dir !in directorios {
        return;
      }
      var temporales := Temporales(archivos, dir, extensiones);
      var pendientes := temporales;
      while pendientes != {}
        invariant pendientes <= temporales
        invariant archivos == old(archivos) - ((temporales - pendientes) - fallaUnlink)
        decreases pendientes
      {
        var p :| p in pendientes;
        if p !in fallaUnlink {
          archivos := archivos - {p};
        }
        pendientes := pendientes - {p};
      }
    }
  }
}
