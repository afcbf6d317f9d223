/** From the rows of the spreadsheet to the records of a run
    (src/services/googleSheets.ts without the network call: the rows are
    given). */
module Hojas {
  import opened Cadenas
  import opened Tipos

  /** A row as the data source returns it: its cells, left to right. */
  type Fila = seq<string>

  /** Cell `k` trimmed, or "" when the row has no such cell. */
  function Celda(fila: Fila, k: nat): string {
    if k < |fila| then Recortar(fila[k]) else ""
  }

  /** The row has a given name: cell 1 exists and is not blank. */
  predicate TieneNombre(fila: Fila) {
    1 < |fila| && Recortar(fila[1]) != ""
  }

  /** Rows without a given name are dropped; the others keep their order. */
  function FilasValidas(filas: seq<Fila>): (r: seq<Fila>)
    ensures |r| <= |filas|
    ensures forall f :: f in r <==> f in filas && TieneNombre(f)
  {
    if filas == [] then []
    else (if TieneNombre(filas[0]) then [filas[0]] else []) + FilasValidas(filas[1..])
  }

  lemma {:induction false} FilasValidasConcatena(a: seq<Fila>, b: seq<Fila>)
    ensures FilasValidas(a + b) == FilasValidas(a) + FilasValidas(b)
  {
    if a == [] {
      assert a + b == b;
    } else {
      assert (a + b)[1..] == a[1..] + b;
      FilasValidasConcatena(a[1..], b);
    }
  }

  /** Columns 0..8 are apellido2, nombre, apellido1, email, telefono,
      documento, curso, fecha_inicio, fecha_fin. */
  function FilaAPersona(fila: Fila, indice: nat): Persona {
    Persona(indice, Celda(fila, 0), Celda(fila, 1), Celda(fila, 2), Celda(fila, 3),
            Celda(fila, 4), Celda(fila, 5), Celda(fila, 6), Celda(fila, 7), Celda(fila, 8))
  }

  /** Maps the rows to records numbered from `primero` on. */
  function Numerar(filas: seq<Fila>, primero: nat): (r: seq<Persona>)
    ensures |r| == |filas|
    ensures forall k :: 0 <= k < |r| ==> r[k].indice == primero + k && r[k].nombre == Celda(filas[k], 1)
  {
    seq(|filas|, k requires 0 <= k < |filas| => FilaAPersona(filas[k], primero + k))
  }

  /** Every record of the source, numbered 1..n over the kept rows. */
  function TodasLasPersonas(filas: seq<Fila>): seq<Persona> {
    Numerar(FilasValidas(filas), 1)
  }

  /** The records are numbered 1..n in order. */
  lemma TodasLasPersonasNumeradas(filas: seq<Fila>)
    ensures forall k :: 0 <= k < |TodasLasPersonas(filas)| ==> TodasLasPersonas(filas)[k].indice == k + 1
  {
  }

  /** Every record has a non-blank given name: the trimmed cell 1 of its row. */
  lemma TodasLasPersonasConNombre(filas: seq<Fila>, k: nat)
    requires k < |TodasLasPersonas(filas)|
    ensures k < |FilasValidas(filas)| && 1 < |FilasValidas(filas)[k]|
    ensures TodasLasPersonas(filas)[k].nombre == Recortar(FilasValidas(filas)[k][1]) != ""
  {
    assert FilasValidas(filas)[k] in FilasValidas(filas);
  }

  /** The index `Array.prototype.slice` uses for an argument `k` on length `n`. */
  function IndiceSlice(k: int, n: nat): (r: nat)
    ensures r <= n
    ensures 0 <= k <= n ==> r == k
  {
    if k < 0 then (if n + k < 0 then 0 else n + k) else if k > n then n else k
  }

  /** `Array.prototype.slice(a, b)`, negative arguments included. */
  function Slice<T>(s: seq<T>, a: int, b: int): (r: seq<T>)
    ensures |r| <= |s|
  {
    var i := IndiceSlice(a, |s|);
    var j := IndiceSlice(b, |s|);
    if i < j then s[i..j] else []
  }

  /** `obtenerPersonas(limite, rangoInicio, rangoFin)` on the given rows. */
  function ObtenerPersonas(filas: seq<Fila>, limite: Option<int>, rangoInicio: Option<int>, rangoFin: Option<int>): seq<Persona> {
    var personas := TodasLasPersonas(filas);
    if rangoInicio.Some? && rangoFin.Some? then Slice(personas, rangoInicio.value - 1, rangoFin.value)
    else if limite.Some? && limite.value != 0 then Slice(personas, 0, limite.value)
    else personas
  }

  /** `r` holds the records of `todas` numbered inicio..min(fin, |todas|),
      in order, each once: its length, its k-th element, and its members. */
  ghost predicate TramoNumerado(r: seq<Persona>, todas: seq<Persona>, inicio: int, fin: int)
    requires 1 <= inicio
  {
    var m := if fin < |todas| then fin else |todas|;
    |r| == (if m >= inicio then m - inicio + 1 else 0)
    && (forall k :: 0 <= k < |r| ==> inicio - 1 + k < |todas| && r[k] == todas[inicio - 1 + k] && r[k].indice == inicio + k)
    && (forall p :: p in r <==> p in todas && inicio <= p.indice <= fin)
  }

  /** With both bounds, 1 <= inicio and 0 <= fin, the result is the records
      numbered inicio..min(fin, n), in order; a limit is then ignored. */
  lemma ObtenerPersonasRango(filas: seq<Fila>, limite: Option<int>, inicio: int, fin: int)
    requires 1 <= inicio && 0 <= fin
    ensures TramoNumerado(ObtenerPersonas(filas, limite, Some(inicio), Some(fin)), TodasLasPersonas(filas), inicio, fin)
    ensures ObtenerPersonas(filas, limite, Some(inicio), Some(fin)) == ObtenerPersonas(filas, None, Some(inicio), Some(fin))
  {
    TodasLasPersonasNumeradas(filas);
    SliceNumerado(TodasLasPersonas(filas), inicio, fin);
  }

  /** With non-negative arguments, `slice(a, b)` is the run of elements from
      position a up to position min(b, n), exclusive. */
  lemma SliceTramo<T>(s: seq<T>, a: int, b: int)
    requires 0 <= a && 0 <= b
    ensures var r := Slice(s, a, b);
            var m := if b < |s| then b else |s|;
            |r| == (if a < m then m - a else 0)
            && forall k :: 0 <= k < |r| ==> r[k] == s[a + k]
  {
  }

  /** On records numbered 1..n, slicing from inicio - 1 to fin keeps exactly
      the records numbered inicio..min(fin, n), in order, each once. */
  lemma SliceNumerado(todas: seq<Persona>, inicio: int, fin: int)
    requires 1 <= inicio && 0 <= fin
    requires forall k :: 0 <= k < |todas| ==> todas[k].indice == k + 1
    ensures TramoNumerado(Slice(todas, inicio - 1, fin), todas, inicio, fin)
  {
    SliceTramo(todas, inicio - 1, fin);
    TramoMiembros(Slice(todas, inicio - 1, fin), todas, inicio, fin);
  }

  /** A run of consecutively numbered records taken in order holds exactly
      the records whose number lies in its bounds. */
  lemma TramoMiembros(r: seq<Persona>, todas: seq<Persona>, inicio: int, fin: int)
    requires 1 <= inicio
    requires forall k :: 0 <= k < |todas| ==> todas[k].indice == k + 1
    requires var m := if fin < |todas| then fin else |todas|;
             |r| == (if m >= inicio then m - inicio + 1 else 0)
    requires forall k :: 0 <= k < |r| ==> inicio - 1 + k < |todas| && r[k] == todas[inicio - 1 + k]
    ensures forall p :: p in r <==> p in todas && inicio <= p.indice <= fin
  {
    forall p ensures p in r <==> p in todas && inicio <= p.indice <= fin {
      if p in r {
        var k :| 0 <= k < |r| && r[k] == p;
        assert r[k] == todas[inicio - 1 + k];
      }
      if p in todas && inicio <= p.indice <= fin {
        var k :| 0 <= k < |todas| && todas[k] == p;
        assert r[k - inicio + 1] == p;
      }
    }
  }

  /** Without a range, a non-zero positive limit keeps the first
      min(limite, n) records; a limit of 0 or none keeps all of them. */
  lemma ObtenerPersonasLimite(filas: seq<Fila>, limite: Option<int>)
    ensures limite.Some? && limite.value > 0 ==>
              var todas := TodasLasPersonas(filas);
              ObtenerPersonas(filas, limite, None, None) == todas[..if limite.value < |todas| then limite.value else |todas|]
    ensures (limite.None? || limite.value == 0) ==> ObtenerPersonas(filas, limite, None, None) == TodasLasPersonas(filas)
  {
    var todas := TodasLasPersonas(filas);
    if limite.Some? && limite.value > 0 {
      var n := if limite.value < |todas| then limite.value else |todas|;
      assert IndiceSlice(limite.value, |todas|) == n;
      assert Slice(todas, 0, limite.value) == todas[..n];
    }
  }

  // ------------------------------------------------------------ búsquedas

  /** The record's lower-cased given name, or given name and first surname,
      contains the lower-cased query. */
  predicate CoincideNombre(p: Persona, consulta: string) {
    var q := Minusculas(consulta);
    Contiene(Minusculas(p.nombre), q) || Contiene(Minusculas(p.nombre + " " + p.apellido1), q)
  }

  /** The position of the first record that matches. */
  function PrimeraCoincidencia(ps: seq<Persona>, consulta: string): (r: Option<nat>)
    ensures r.Some? ==> r.value < |ps| && CoincideNombre(ps[r.value], consulta)
    ensures r.Some? ==> forall j :: 0 <= j < r.value ==> !CoincideNombre(ps[j], consulta)
    ensures r.None? ==> forall j :: 0 <= j < |ps| ==> !CoincideNombre(ps[j], consulta)
  {
    if ps == [] then None
    else if CoincideNombre(ps[0], consulta) then Some(0)
    else match PrimeraCoincidencia(ps[1..], consulta)
      case None => None
      case Some(k) => Some(k + 1)
  }

  /** `obtenerPersonaPorNombre`: the first matching record of the whole source, or null. */
  function ObtenerPersonaPorNombre(filas: seq<Fila>, consulta: string): (r: Option<Persona>)
    ensures var todas := TodasLasPersonas(filas);
            r.Some? <==> exists k :: 0 <= k < |todas| && CoincideNombre(todas[k], consulta)
    ensures r.Some? ==> r.value in TodasLasPersonas(filas) && CoincideNombre(r.value, consulta)
    ensures var todas := TodasLasPersonas(filas);
            r.Some? ==> exists k :: 0 <= k < |todas| && todas[k] == r.value &&
                          forall j :: 0 <= j < k ==> !CoincideNombre(todas[j], consulta)
  {
    var todas := ObtenerPersonas(filas, None, None, None);
    match PrimeraCoincidencia(todas, consulta)
    case None => None
    case Some(k) => Some(todas[k])
  }

  /** `persona[criterio]?.toString()`; an inherited member prints its own text. */
  function CampoComoTexto(p: Persona, criterio: string): Option<string> {
    match CampoPersona(p, criterio)
    case Texto(s) => Some(s)
    case Numero(n) => Some(IntACadena(n))
    case Indefinido => None
    case Heredado(t) => Some(t)
  }

  predicate CumpleCriterio(p: Persona, criterio: string, valor: string) {
    var v := CampoComoTexto(p, criterio);
    v.Some? && Contiene(Minusculas(v.value), Minusculas(valor))
  }

  function FiltrarCriterio(ps: seq<Persona>, criterio: string, valor: string): (r: seq<Persona>)
    ensures |r| <= |ps|
    ensures forall p :: p in r <==> p in ps && CumpleCriterio(p, criterio, valor)
  {
    if ps == [] then []
    else (if CumpleCriterio(ps[0], criterio, valor) then [ps[0]] else []) + FiltrarCriterio(ps[1..], criterio, valor)
  }

  /** The filter keeps record order: it distributes over concatenation. */
  lemma {:induction false} FiltrarCriterioConcatena(a: seq<Persona>, b: seq<Persona>, criterio: string, valor: string)
    ensures FiltrarCriterio(a + b, criterio, valor) == FiltrarCriterio(a, criterio, valor) + FiltrarCriterio(b, criterio, valor)
  {
    if a == [] {
      assert a + b == b;
    } else {
      var c := a[1..];
      var k := if CumpleCriterio(a[0], criterio, valor) then [a[0]] else [];
      assert FiltrarCriterio(a + b, criterio, valor) == k + FiltrarCriterio(c + b, criterio, valor) by {
        assert (a + b)[0] == a[0];
        assert (a + b)[1..] == c + b;
      }
      assert FiltrarCriterio(c + b, criterio, valor) == FiltrarCriterio(c, criterio, valor) + FiltrarCriterio(b, criterio, valor) by {
        FiltrarCriterioConcatena(c, b, criterio, valor);
      }
      assert FiltrarCriterio(a, criterio, valor) == k + FiltrarCriterio(c, criterio, valor);
      Asociar(k, FiltrarCriterio(c, criterio, valor), FiltrarCriterio(b, criterio, valor));
    }
  }

  /** One record is kept exactly when it meets the criterion. */
  lemma FiltrarCriterioUno(p: Persona, criterio: string, valor: string)
    ensures FiltrarCriterio([p], criterio, valor) == if CumpleCriterio(p, criterio, valor) then [p] else []
  {
    assert [p][1..] == [];
  }

  /** `buscarPersonasPorCriterio` on the whole source. */
  function BuscarPersonasPorCriterio(filas: seq<Fila>, criterio: string, valor: string): seq<Persona> {
    FiltrarCriterio(ObtenerPersonas(filas, None, None, None), criterio, valor)
  }

  /** A name that is neither a field nor an inherited member matches nothing. */
  lemma CriterioDesconocido(filas: seq<Fila>, criterio: string, valor: string)
    requires criterio !in CAMPOS_PERSONA && criterio !in PROPIEDADES_HEREDADAS
    ensures BuscarPersonasPorCriterio(filas, criterio, valor) == []
  {
    FiltrarCriterioDesconocido(ObtenerPersonas(filas, None, None, None), criterio, valor);
  }

  lemma {:induction false} FiltrarCriterioDesconocido(ps: seq<Persona>, criterio: string, valor: string)
    requires criterio !in CAMPOS_PERSONA && criterio !in PROPIEDADES_HEREDADAS
    ensures FiltrarCriterio(ps, criterio, valor) == []
  {
    if ps != [] {
      assert CampoPersona(ps[0], criterio) == Indefinido;
      FiltrarCriterioDesconocido(ps[1..], criterio, valor);
    }
  }

  /** A filter every record passes keeps the whole list, in order. */
  lemma {:induction false} FiltrarCriterioTodos(ps: seq<Persona>, criterio: string, valor: string)
    requires forall p :: p in ps ==> CumpleCriterio(p, criterio, valor)
    ensures FiltrarCriterio(ps, criterio, valor) == ps
  {
    if ps != [] {
      assert ps[0] in ps;
      assert forall p :: p in ps[1..] ==> p in ps;
      FiltrarCriterioTodos(ps[1..], criterio, valor);
      assert [ps[0]] + ps[1..] == ps;
    }
  }

  /** An inherited member's name reaches the same text on every record, so
      when that text contains the value every record is returned. */
  lemma CriterioHeredado(filas: seq<Fila>, criterio: string, valor: string)
    requires criterio in PROPIEDADES_HEREDADAS
    requires Contiene(Minusculas(TextoHeredado(criterio)), Minusculas(valor))
    ensures BuscarPersonasPorCriterio(filas, criterio, valor) == TodasLasPersonas(filas)
  {
    var todas := TodasLasPersonas(filas);
    forall p | p in todas ensures CumpleCriterio(p, criterio, valor) {
      CampoHeredado(p, criterio);
    }
    FiltrarCriterioTodos(todas, criterio, valor);
  }

  /** Searching the field "constructor" for "function" returns every record. */
  lemma CriterioConstructor(filas: seq<Fila>)
    ensures BuscarPersonasPorCriterio(filas, "constructor", "function") == TodasLasPersonas(filas)
  {
    ConstructorEmpiezaPorFunction();
    assert "constructor" == PROPIEDADES_HEREDADAS[0];
    CriterioHeredado(filas, "constructor", "function");
  }

  /** The lower-cased text of the inherited constructor begins with "function". */
  lemma ConstructorEmpiezaPorFunction()
    ensures Contiene(Minusculas(TextoHeredado("constructor")), Minusculas("function"))
  {
    var t := Minusculas(TextoHeredado("constructor"));
    assert t[..8] == "function";
    assert Minusculas("function") == "function";
    assert EmpiezaCon(t, "function");
  }

  // ---------------------------------------------------------- estadísticas

  datatype Estadisticas = Estadisticas(
    totalPersonas: nat,
    personasConEmail: nat,
    personasConTelefono: nat,
    cursosUnicos: seq<string>)

  /** The number of records with a non-empty email. */
  function ContarConEmail(ps: seq<Persona>): (r: nat)
    ensures r <= |ps|
    ensures r == 0 <==> forall i :: 0 <= i < |ps| ==> ps[i].email == ""
    ensures r == |ps| <==> forall i :: 0 <= i < |ps| ==> ps[i].email != ""
  {
    if ps == [] then 0
    else
      var resto := ContarConEmail(ps[1..]);
      assert forall i :: 1 <= i < |ps| ==> ps[i] == ps[1..][i - 1];
      (if ps[0].email != "" then 1 else 0) + resto
  }

  /** The number of records with a non-empty phone number. */
  function ContarConTelefono(ps: seq<Persona>): (r: nat)
    ensures r <= |ps|
    ensures r == 0 <==> forall i :: 0 <= i < |ps| ==> ps[i].telefono == ""
    ensures r == |ps| <==> forall i :: 0 <= i < |ps| ==> ps[i].telefono != ""
  {
    if ps == [] then 0
    else
      var resto := ContarConTelefono(ps[1..]);
      assert forall i :: 1 <= i < |ps| ==> ps[i] == ps[1..][i - 1];
      (if ps[0].telefono != "" then 1 else 0) + resto
  }

  /** Counting distributes over concatenation. */
  lemma {:induction false} ContarConcatena(a: seq<Persona>, b: seq<Persona>)
    ensures ContarConEmail(a + b) == ContarConEmail(a) + ContarConEmail(b)
    ensures ContarConTelefono(a + b) == ContarConTelefono(a) + ContarConTelefono(b)
  {
    if a == [] {
      assert a + b == b;
    } else {
      assert (a + b)[1..] == a[1..] + b;
      ContarConcatena(a[1..], b);
    }
  }

  /** The non-empty courses, in record order. */
  function Cursos(ps: seq<Persona>): (r: seq<string>)
    ensures forall c :: c in r <==> c != "" && exists p :: p in ps && p.curso == c
  {
    if ps == [] then []
    else
      var resto := Cursos(ps[1..]);
      assert forall p :: p in ps[1..] ==> p in ps;
      assert forall p :: p in ps ==> p == ps[0] || p in ps[1..];
      (if ps[0].curso != "" then [ps[0].curso] else []) + resto
  }

  /** Course extraction keeps record order: it distributes over concatenation. */
  lemma {:induction false} CursosConcatena(a: seq<Persona>, b: seq<Persona>)
    ensures Cursos(a + b) == Cursos(a) + Cursos(b)
    ensures Cursos([]) == []
  {
    if a == [] {
      assert a + b == b;
    } else {
      assert (a + b)[1..] == a[1..] + b;
      CursosConcatena(a[1..], b);
    }
  }

  /** One record contributes its course, if it has one. */
  lemma CursosUno(p: Persona)
    ensures Cursos([p]) == if p.curso != "" then [p.curso] else []
  {
    assert [p][1..] == [];
  }

  predicate SinRepetidos(s: seq<string>) {
    forall i, j :: 0 <= i < j < |s| ==> s[i] != s[j]
  }

  /** `[...new Set(s)]`: each element once, in the order of its first appearance. */
  function Distintos(s: seq<string>): (r: seq<string>)
    ensures SinRepetidos(r)
    ensures forall c :: c in r <==> c in s
    ensures forall i :: 0 <= i < |r| ==> r[i] in s
  {
    if s == [] then []
    else
      var d := Distintos(s[..|s| - 1]);
      var c := s[|s| - 1];
      assert s == s[..|s| - 1] + [c];
      if c in d then d else d + [c]
  }

  /** The position of the first occurrence of `c` in `s`. */
  function PrimeraAparicion(s: seq<string>, c: string): (k: nat)
    requires c in s
    ensures k < |s| && s[k] == c && c !in s[..k]
  {
    if s[0] == c then 0 else
      var k := PrimeraAparicion(s[1..], c);
      assert s[..k + 1] == [s[0]] + s[1..][..k];
      k + 1
  }

  /** An occurrence with no earlier one is the first occurrence. */
  lemma PrimeraAparicionUnica(s: seq<string>, c: string, k: nat)
    requires k < |s| && s[k] == c && c !in s[..k]
    ensures PrimeraAparicion(s, c) == k
  {
    var m := PrimeraAparicion(s, c);
    assert forall j :: 0 <= j < k ==> s[j] != c by {
      forall j | 0 <= j < k ensures s[j] != c {
        assert s[..k][j] == s[j];
      }
    }
    assert forall j :: 0 <= j < m ==> s[j] != c by {
      forall j | 0 <= j < m ensures s[j] != c {
        assert s[..m][j] == s[j];
      }
    }
  }

  /** Elements appear in the order of their first appearance in `s`. */
  lemma {:induction false} DistintosOrden(s: seq<string>)
    ensures forall i, j :: 0 <= i < j < |Distintos(s)| ==>
              PrimeraAparicion(s, Distintos(s)[i]) < PrimeraAparicion(s, Distintos(s)[j])
  {
    if s != [] {
      var p := s[..|s| - 1];
      var c := s[|s| - 1];
      var d := Distintos(p);
      DistintosOrden(p);
      forall x | x in p ensures PrimeraAparicion(s, x) == PrimeraAparicion(p, x) < |p| {
        var m := PrimeraAparicion(p, x);
        assert s[..m] == p[..m];
        PrimeraAparicionUnica(s, x, m);
      }
      if c !in d {
        PrimeraAparicionUnica(s, c, |p|);
      }
    }
  }

  /** `obtenerEstadisticas` on the whole source. */
  function ObtenerEstadisticas(filas: seq<Fila>): (r: Estadisticas)
    ensures r.totalPersonas == |TodasLasPersonas(filas)|
    ensures r.personasConEmail <= r.totalPersonas && r.personasConTelefono <= r.totalPersonas
    ensures SinRepetidos(r.cursosUnicos)
    ensures forall c :: c in r.cursosUnicos <==> c != "" && exists p :: p in TodasLasPersonas(filas) && p.curso == c
    ensures r.personasConEmail == ContarConEmail(TodasLasPersonas(filas))
    ensures r.personasConTelefono == ContarConTelefono(TodasLasPersonas(filas))
    ensures r.cursosUnicos == Distintos(Cursos(TodasLasPersonas(filas)))
  {
    var ps := ObtenerPersonas(filas, None, None, None);
    Estadisticas(|ps|, ContarConEmail(ps), ContarConTelefono(ps), Distintos(Cursos(ps)))
  }
}
