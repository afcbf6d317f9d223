/** The template cache and the two renderers (src/services/documentGenerator.ts).
    The Word engine and the workbook reader are parameters: a template is an
    opaque byte string, a worksheet a map from cell address to value. */
module Generador {
  import opened Cadenas
  import opened Tipos
  import opened Archivos

  type Blob = seq<bv8>

  /** A worksheet: the value of every cell that has one. */
  type Celdas = map<string, Valor>

  /** What the clock and the random source give one enrichment: the two
      es-ES date renderings, the year, the month name, the random number and
      the millisecond clock read by the unique-code generator. */
  datatype Entorno = Entorno(
    fechaCorta: string,
    fechaLarga: string,
    anio: int,
    mes: string,
    aleatorio: nat,
    msAhora: nat)

  /** How a Word render ends: the document, an error the engine names
      `TemplateError` (its message), or any other error (its text). */
  datatype SalidaMotor = Documento(bytes: Blob) | ErrorDePlantilla(mensaje: string) | OtroError(texto: string)

  // ------------------------------------------------------------- enrichment

  /** The parts that are not empty, in order (`filter(Boolean)`). */
  function NoVacias(partes: seq<string>): (r: seq<string>)
    ensures |r| <= |partes|
    ensures forall i :: 0 <= i < |r| ==> r[i] != ""
    ensures forall x :: x in r <==> x in partes && x != ""
  {
    if partes == [] then []
    else (if partes[0] != "" then [partes[0]] else []) + NoVacias(partes[1..])
  }

  /** Dropping empty parts keeps order: it distributes over concatenation. */
  lemma {:induction false} NoVaciasConcatena(a: seq<string>, b: seq<string>)
    ensures NoVacias(a + b) == NoVacias(a) + NoVacias(b)
  {
    if a == [] {
      assert a + b == b;
    } else {
      assert (a + b)[1..] == a[1..] + b;
      NoVaciasConcatena(a[1..], b);
    }
  }

  /** For the three name parts: the non-empty ones, in the order given. */
  lemma NoVaciasTres(x: string, y: string, z: string)
    ensures NoVacias([x, y, z]) == (if x != "" then [x] else []) + (if y != "" then [y] else []) + (if z != "" then [z] else [])
  {
    assert [x, y, z] == [x] + [y] + [z];
    NoVaciasConcatena([x] + [y], [z]);
    NoVaciasConcatena([x], [y]);
    assert [x][1..] == [] && [y][1..] == [] && [z][1..] == [];
  }

  /** The upper-cased first character of every part, each as a string. */
  function PrimerasLetras(partes: seq<string>): (r: seq<string>)
    requires forall i :: 0 <= i < |partes| ==> partes[i] != ""
    ensures |r| == |partes|
    ensures forall i :: 0 <= i < |r| ==> r[i] == [MayusculaAscii(partes[i][0])]
  {
    seq(|partes|, i requires 0 <= i < |partes| => [MayusculaAscii(partes[i][0])])
  }

  /** `obtenerIniciales`. */
  function Iniciales(nombre: string, apellido1: string, apellido2: string): string {
    Unir(PrimerasLetras(NoVacias([nombre, apellido1, apellido2])), ".")
  }

  /** Joining one-character strings with "." puts the characters at the even
      positions and dots at the odd ones. */
  lemma {:induction false} UnirLetras(xs: seq<string>)
    requires forall i :: 0 <= i < |xs| ==> |xs[i]| == 1
    ensures |Unir(xs, ".")| == if xs == [] then 0 else 2 * |xs| - 1
    ensures forall i :: 0 <= i < |xs| ==> Unir(xs, ".")[2 * i] == xs[i][0]
    ensures forall i :: 0 <= i < |xs| - 1 ==> Unir(xs, ".")[2 * i + 1] == '.'
  {
    if |xs| > 1 {
      UnirLetras(xs[1..]);
      var u := Unir(xs[1..], ".");
      assert Unir(xs, ".") == xs[0] + "." + u;
      forall i | 1 <= i < |xs| ensures Unir(xs, ".")[2 * i] == xs[i][0] {
        assert Unir(xs, ".")[2 * i] == u[2 * (i - 1)];
        assert xs[1..][i - 1] == xs[i];
      }
      forall i | 1 <= i < |xs| - 1 ensures Unir(xs, ".")[2 * i + 1] == '.' {
        assert Unir(xs, ".")[2 * i + 1] == u[2 * (i - 1) + 1];
      }
    }
  }

  /** The initials are the upper-cased first characters of the non-empty
      parts, in order, separated by dots. */
  lemma InicialesForma(nombre: string, apellido1: string, apellido2: string)
    ensures var q := NoVacias([nombre, apellido1, apellido2]);
            var r := Iniciales(nombre, apellido1, apellido2);
            |r| == (if q == [] then 0 else 2 * |q| - 1)
            && (forall i :: 0 <= i < |q| ==> r[2 * i] == MayusculaAscii(q[i][0]))
            && (forall i :: 0 <= i < |q| - 1 ==> r[2 * i + 1] == '.')
  {
    UnirLetras(PrimerasLetras(NoVacias([nombre, apellido1, apellido2])));
  }

  /** With the three parts present, the initials are "N.A.B". */
  lemma InicialesCompletas(nombre: string, apellido1: string, apellido2: string)
    requires nombre != "" && apellido1 != "" && apellido2 != ""
    ensures Iniciales(nombre, apellido1, apellido2)
            == [MayusculaAscii(nombre[0]), '.', MayusculaAscii(apellido1[0]), '.', MayusculaAscii(apellido2[0])]
  {
    var partes := [nombre, apellido1, apellido2];
    assert partes[1..] == [apellido1, apellido2];
    assert partes[1..][1..] == [apellido2];
    assert partes[1..][1..][1..] == [];
    assert NoVacias([apellido2]) == [apellido2];
    assert NoVacias([apellido1, apellido2]) == [apellido1, apellido2];
    assert NoVacias(partes) == partes;
    InicialesForma(nombre, apellido1, apellido2);
  }

  /** The ASCII digits of `s`, in order (`replace(/\D/g, '')`). */
  function Digitos(s: string): (r: string)
    ensures |r| <= |s|
    ensures SoloDigitos(r)
  {
    if s == [] then []
    else (if '0' <= s[0] <= '9' then [s[0]] else []) + Digitos(s[1..])
  }

  /** A digit string is its own digit string. */
  lemma {:induction false} DigitosIdentidad(s: string)
    requires SoloDigitos(s)
    ensures Digitos(s) == s
  {
    if s != [] {
      DigitosIdentidad(s[1..]);
    }
  }

  lemma {:induction false} DigitosConcatena(a: string, b: string)
    ensures Digitos(a + b) == Digitos(a) + Digitos(b)
  {
    if a == [] {
      assert a + b == b;
    } else {
      assert (a + b)[1..] == a[1..] + b;
      DigitosConcatena(a[1..], b);
    }
  }

  /** `formatearTelefono`: with at least 8 digits, the digits grouped as
      3-3-rest; otherwise the input as given. */
  function FormatearTelefono(telefono: string): (r: string)
    ensures Digitos(r) == Digitos(telefono)
    ensures |Digitos(telefono)| < 8 ==> r == telefono
    ensures |Digitos(telefono)| >= 8 ==> |r| == |Digitos(telefono)| + 2 && r[3] == '-' && r[7] == '-'
  {
    var d := Digitos(telefono);
    if |d| >= 8 then
      DigitosAgrupados(d);
      Agrupar(d)
    else telefono
  }

  /** The digits grouped as 3-3-rest. */
  function Agrupar(d: string): (r: string)
    requires |d| >= 6
    ensures |r| == |d| + 2 && r[3] == '-' && r[7] == '-'
  {
    d[..3] + "-" + d[3..6] + "-" + d[6..]
  }

  /** Grouping adds two dashes and keeps the digits. */
  lemma DigitosAgrupados(d: string)
    requires SoloDigitos(d) && |d| >= 6
    ensures Digitos(Agrupar(d)) == d
  {
    DigitosTres(d[..3], d[3..6], d[6..]);
    assert d[..3] + d[3..6] + d[6..] == d;
  }

  lemma DigitosTres(a: string, b: string, c: string)
    requires SoloDigitos(a) && SoloDigitos(b) && SoloDigitos(c)
    ensures Digitos(a + "-" + b + "-" + c) == a + b + c
  {
    var x1 := a + "-";
    assert Digitos(x1) == a by {
      DigitosSinDigito(a, '-');
      DigitosIdentidad(a);
    }
    var x2 := x1 + b;
    assert Digitos(x2) == a + b by {
      DigitosConcatena(x1, b);
      DigitosIdentidad(b);
    }
    var x3 := x2 + "-";
    assert Digitos(x3) == a + b by {
      DigitosSinDigito(x2, '-');
    }
    assert Digitos(x3 + c) == a + b + c by {
      DigitosConcatena(x3, c);
      DigitosIdentidad(c);
    }
  }

  /** Appending a character that is not a digit adds no digit. */
  lemma DigitosSinDigito(s: string, ch: char)
    requires !('0' <= ch <= '9')
    ensures Digitos(s + [ch]) == Digitos(s)
  {
    DigitosConcatena(s, [ch]);
    assert [ch][1..] == [];
  }

  /** Formatting a formatted number changes nothing. */
  lemma FormatearTelefonoIdempotente(telefono: string)
    ensures FormatearTelefono(FormatearTelefono(telefono)) == FormatearTelefono(telefono)
  {
    var d := Digitos(telefono);
    if |d| >= 8 {
      DigitosAgrupados(d);
    }
  }

  /** The last `n` characters of `s` (all of them when there are fewer):
      `slice(-n)`. */
  function Ultimos(s: string, n: nat): (r: string)
    ensures |r| == if |s| < n then |s| else n
    ensures r == s[|s| - |r|..]
  {
    if |s| < n then s else s[|s| - n..]
  }

  /** `generarCodigoUnico`, with the millisecond clock as a parameter. */
  function CodigoUnico(nombre: string, apellido: string, msAhora: nat): string {
    Mayusculas(Prefijo(nombre, 2) + Prefijo(apellido, 2)) + Ultimos(NatACadena(msAhora), 4)
  }

  /** The decimal value of a digit string. */
  function ValorDecimal(s: string): nat
    requires SoloDigitos(s)
  {
    if s == [] then 0 else 10 * ValorDecimal(s[..|s| - 1]) + (s[|s| - 1] as int - '0' as int)
  }

  lemma {:induction false} NatACadenaValor(n: nat)
    ensures ValorDecimal(NatACadena(n)) == n
  {
    if n >= 10 {
      NatACadenaValor(n / 10);
      var s := NatACadena(n);
      assert s[..|s| - 1] == NatACadena(n / 10);
    }
  }

  function Potencia10(k: nat): (r: nat)
    ensures r >= 1
  {
    if k == 0 then 1 else 10 * Potencia10(k - 1)
  }

  /** For 0 <= c < 10 and m >= 1: (10a + c) mod 10m == 10 (a mod m) + c. */
  lemma ModuloDigito(a: nat, c: nat, m: nat)
    requires c < 10 && m >= 1
    ensures (10 * a + c) % (10 * m) == 10 * (a % m) + c
  {
    var q := a / m;
    var r := a % m;
    assert a == q * m + r;
    assert 10 * a + c == q * (10 * m) + (10 * r + c);
    ModuloUnico(10 * a + c, 10 * m, q, 10 * r + c);
  }

  /** Euclidean remainders are unique. */
  lemma ModuloUnico(x: int, d: int, q: int, r: int)
    requires d > 0 && 0 <= r < d && x == q * d + r
    ensures x % d == r
  {
    var q0 := x / d;
    var r0 := x % d;
    assert x == q0 * d + r0;
    var k := q - q0;
    assert k * d == r0 - r;
    ProductoCota(k, d);
  }

  lemma ProductoCota(k: int, d: int)
    requires d >= 0
    ensures k >= 1 ==> k * d >= d
    ensures k <= -1 ==> k * d <= -d
  {
  }

  /** The last k digits of a digit string denote its value modulo 10^k. */
  lemma {:induction false} UltimosValor(s: string, k: nat)
    requires SoloDigitos(s)
    ensures SoloDigitos(Ultimos(s, k))
    ensures ValorDecimal(Ultimos(s, k)) == ValorDecimal(s) % Potencia10(k)
    decreases k
  {
    UltimosDigitos(s, k);
    if |s| <= k {
      assert Ultimos(s, k) == s;
      LimiteValor(s);
      PotenciaMonotona(|s|, k);
      ModuloUnico(ValorDecimal(s), Potencia10(k), 0, ValorDecimal(s));
    } else if k == 0 {
      assert Ultimos(s, k) == [];
      ModuloUnico(ValorDecimal(s), 1, ValorDecimal(s), 0);
    } else {
      var p := s[..|s| - 1];
      UltimosValor(p, k - 1);
      UltimosPaso(s, k);
    }
  }

  lemma UltimosDigitos(s: string, k: nat)
    requires SoloDigitos(s)
    ensures SoloDigitos(Ultimos(s, k))
  {
    var u := Ultimos(s, k);
    forall i | 0 <= i < |u| ensures '0' <= u[i] <= '9' {
      assert u[i] == s[|s| - |u| + i];
    }
  }

  /** One step of `UltimosValor`: dropping the last digit of both. */
  lemma UltimosPaso(s: string, k: nat)
    requires SoloDigitos(s) && 1 <= k < |s|
    requires SoloDigitos(Ultimos(s[..|s| - 1], k - 1)) && SoloDigitos(Ultimos(s, k))
    requires ValorDecimal(Ultimos(s[..|s| - 1], k - 1)) == ValorDecimal(s[..|s| - 1]) % Potencia10(k - 1)
    ensures ValorDecimal(Ultimos(s, k)) == ValorDecimal(s) % Potencia10(k)
  {
    var p := s[..|s| - 1];
    var u := Ultimos(s, k);
    var up := Ultimos(p, k - 1);
    assert '0' <= s[|s| - 1] <= '9';
    var c := s[|s| - 1] as int - '0' as int;
    assert u[..|u| - 1] == up;
    assert u[|u| - 1] == s[|s| - 1];
    assert ValorDecimal(u) == 10 * ValorDecimal(up) + c;
    assert ValorDecimal(s) == 10 * ValorDecimal(p) + c;
    ModuloDigito(ValorDecimal(p), c, Potencia10(k - 1));
  }

  lemma {:induction false} LimiteValor(s: string)
    requires SoloDigitos(s)
    ensures ValorDecimal(s) < Potencia10(|s|)
    decreases |s|
  {
    if s != [] {
      LimiteValor(s[..|s| - 1]);
    }
  }

  lemma {:induction false} PotenciaMonotona(i: nat, j: nat)
    ensures i <= j ==> Potencia10(i) <= Potencia10(j)
    decreases j
  {
    if i < j {
      PotenciaMonotona(i, j - 1);
    }
  }

  /** The unique code is the upper-cased first two characters of the name and
      of the surname, then the last four decimal digits of the clock: exactly
      four of them from 1000 ms on, and they denote the clock modulo 10000. */
  lemma CodigoUnicoForma(nombre: string, apellido: string, msAhora: nat)
    ensures var base := Mayusculas(Prefijo(nombre, 2) + Prefijo(apellido, 2));
            var r := CodigoUnico(nombre, apellido, msAhora);
            var sufijo := r[|base|..];
            |base| <= 4 && r[..|base|] == base
            && |sufijo| <= 4 && SoloDigitos(sufijo)
            && (msAhora >= 1000 ==> |sufijo| == 4)
            && ValorDecimal(sufijo) == msAhora % 10000
  {
    var base := Mayusculas(Prefijo(nombre, 2) + Prefijo(apellido, 2));
    var s := NatACadena(msAhora);
    var r := CodigoUnico(nombre, apellido, msAhora);
    assert r[|base|..] == Ultimos(s, 4);
    UltimosValor(s, 4);
    NatACadenaValor(msAhora);
    assert Potencia10(4) == 10000;
    LimiteValor(s);
    PotenciaMonotona(|s|, 3);
    assert Potencia10(3) == 1000;
  }

  /** `email ? email.split('@')[1] : ''`: "" for an empty email, undefined
      when there is no '@', otherwise the text between the first '@' and the
      next one (or the end). */
  function DominioEmail(email: string): (r: Valor)
    ensures r == Indefinido <==> email != "" && '@' !in email
    ensures r.Numero? == false
    ensures r.Texto? && email != "" ==> '@' !in r.texto
  {
    if email == "" then Texto("")
    else match IndiceDe(email, '@')
      case None => Indefinido
      case Some(k) =>
        var resto := email[k + 1..];
        match IndiceDe(resto, '@')
        case None => Texto(resto)
        case Some(j) => Texto(resto[..j])
  }

  /** Splitting at '@' recovers the second field: for a local part and a
      domain without '@', followed by nothing or by another '@...'. */
  lemma DominioEmailCompone(local: string, dominio: string, resto: string)
    requires '@' !in local && '@' !in dominio
    requires resto == [] || resto[0] == '@'
    ensures DominioEmail(local + "@" + dominio + resto) == Texto(dominio)
  {
    var e := local + "@" + dominio + resto;
    assert e[|local|] == '@';
    assert e[..|local|] == local;
    assert IndiceDe(e, '@') == Some(|local|);
    var t := e[|local| + 1..];
    assert t == dominio + resto;
    assert t[..|dominio|] == dominio;
    if resto != [] {
      assert t[|dominio|] == '@';
      assert IndiceDe(t, '@') == Some(|dominio|);
    } else {
      assert t == dominio;
    }
  }

  /** What `enriquecerDatos` hands to the Word engine: every property of the
      record, then the derived ones. */
  datatype DatosEnriquecidos = DatosEnriquecidos(
    persona: Persona,
    fechaActual: string,
    fechaActualLarga: string,
    anioActual: int,
    mesActual: string,
    nombreCompleto: string,
    apellidosCompletos: string,
    iniciales: string,
    emailDominio: Valor,
    telefonoFormateado: string,
    cursoMayuscula: string,
    cursoMinuscula: string,
    numeroAleatorio: nat,
    codigoUnico: string)

  /** `enriquecerDatos`, with the clock and the random number as parameters. */
  function Enriquecer(p: Persona, e: Entorno): (r: DatosEnriquecidos)
    ensures r.persona == p
    ensures r.emailDominio == Indefinido <==> p.email != "" && '@' !in p.email
    ensures r.emailDominio == Texto("") <== p.email == ""
  {
    DatosEnriquecidos(
      p, e.fechaCorta, e.fechaLarga, e.anio, e.mes,
      Recortar(p.nombre + " " + p.apellido1 + " " + p.apellido2),
      Recortar(p.apellido1 + " " + p.apellido2),
      Iniciales(p.nombre, p.apellido1, p.apellido2),
      DominioEmail(p.email),
      FormatearTelefono(p.telefono),
      Mayusculas(p.curso),
      Minusculas(p.curso),
      e.aleatorio,
      CodigoUnico(p.nombre, p.apellido1, e.msAhora))
  }

  // ------------------------------------------------------------ worksheets

  /** The worksheet after writing `pares` in order: a pair whose value is
      truthy sets its cell, any other pair is skipped. */
  function EscribirCeldas(celdas: Celdas, pares: seq<(string, Valor)>): Celdas
  {
    if pares == [] then celdas
    else
      var m := EscribirCeldas(celdas, pares[..|pares| - 1]);
      var (celda, valor) := pares[|pares| - 1];
      if Verdadero(valor) then m[celda := valor] else m
  }

  /** A cell no pair names keeps its content (or its absence). */
  lemma {:induction false} EscribirCeldasFuera(celdas: Celdas, pares: seq<(string, Valor)>, c: string)
    requires forall i :: 0 <= i < |pares| ==> pares[i].0 != c
    ensures c in EscribirCeldas(celdas, pares) <==> c in celdas
    ensures c in celdas ==> EscribirCeldas(celdas, pares)[c] == celdas[c]
  {
    if pares != [] {
      EscribirCeldasFuera(celdas, pares[..|pares| - 1], c);
    }
  }

  /** With distinct cells, the cell of pair i holds its value when that value
      is truthy, and is left as it was otherwise. */
  lemma {:induction false} EscribirCeldasDentro(celdas: Celdas, pares: seq<(string, Valor)>, i: nat)
    requires i < |pares|
    requires forall a, b :: 0 <= a < b < |pares| ==> pares[a].0 != pares[b].0
    ensures var r := EscribirCeldas(celdas, pares);
            var (c, v) := pares[i];
            (Verdadero(v) ==> c in r && r[c] == v)
            && (!Verdadero(v) ==> (c in r <==> c in celdas) && (c in celdas ==> r[c] == celdas[c]))
  {
    var n := |pares| - 1;
    if i == n {
      EscribirCeldasFuera(celdas, pares[..n], pares[i].0);
    } else {
      EscribirCeldasDentro(celdas, pares[..n], i);
      assert pares[n].0 != pares[i].0;
    }
  }

  /** The (cell, value) pairs of a registered mapping: every field is read
      from the record itself (not the enriched one). */
  function ParesMapeo(mapeo: seq<(string, string)>, p: Persona): (r: seq<(string, Valor)>)
    ensures |r| == |mapeo|
    ensures forall i :: 0 <= i < |r| ==> r[i] == (mapeo[i].1, CampoPersona(p, mapeo[i].0))
  {
    seq(|mapeo|, i requires 0 <= i < |mapeo| => (mapeo[i].1, CampoPersona(p, mapeo[i].0)))
  }

  const CELDAS_DEFECTO: seq<string> := ["A1", "B1", "C1", "A2", "B2", "C2"]

  /** The values of the default layout, in the order of its cells. */
  function ValoresDefecto(p: Persona): seq<string> {
    [p.nombre, p.apellido1, p.apellido2, p.email, p.telefono, p.documento]
  }

  /** The default layout of `aplicarMapeoDefaultExcel`: cell i receives value i. */
  function ParesDefecto(p: Persona): (r: seq<(string, Valor)>)
    ensures |r| == 6
    ensures forall i :: 0 <= i < 6 ==> r[i] == (CELDAS_DEFECTO[i], Texto(ValoresDefecto(p)[i]))
  {
    seq(6, i requires 0 <= i < 6 => (CELDAS_DEFECTO[i], Texto(ValoresDefecto(p)[i])))
  }

  /** The default layout writes nombre, apellido1, apellido2, email, telefono
      and documento to A1, B1, C1, A2, B2, C2, skips the empty ones and
      leaves every other cell alone. */
  lemma MapeoDefectoCeldas(celdas: Celdas, p: Persona)
    ensures var r := EscribirCeldas(celdas, ParesDefecto(p));
            var valores := ValoresDefecto(p);
            (forall i :: 0 <= i < 6 && valores[i] != "" ==> CELDAS_DEFECTO[i] in r && r[CELDAS_DEFECTO[i]] == Texto(valores[i]))
            && (forall i :: 0 <= i < 6 && valores[i] == "" ==>
                  (CELDAS_DEFECTO[i] in r <==> CELDAS_DEFECTO[i] in celdas)
                  && (CELDAS_DEFECTO[i] in celdas ==> r[CELDAS_DEFECTO[i]] == celdas[CELDAS_DEFECTO[i]]))
            && (forall c :: c !in CELDAS_DEFECTO ==> (c in r <==> c in celdas) && (c in celdas ==> r[c] == celdas[c]))
  {
    var pares := ParesDefecto(p);
    forall i | 0 <= i < 6 {
      EscribirCeldasDentro(celdas, pares, i);
    }
    forall c | c !in CELDAS_DEFECTO {
      EscribirCeldasFuera(celdas, pares, c);
    }
  }

  /** Through a registered mapping whose cells are distinct, the mapped cell
      of every truthy field receives it, the others are unchanged, and every
      cell outside the mapping is unchanged. */
  lemma MapeoRegistradoCeldas(celdas: Celdas, mapeo: seq<(string, string)>, p: Persona)
    requires forall a, b :: 0 <= a < b < |mapeo| ==> mapeo[a].1 != mapeo[b].1
    ensures var r := EscribirCeldas(celdas, ParesMapeo(mapeo, p));
            (forall i :: 0 <= i < |mapeo| && Verdadero(CampoPersona(p, mapeo[i].0)) ==>
               mapeo[i].1 in r && r[mapeo[i].1] == CampoPersona(p, mapeo[i].0))
            && (forall i :: 0 <= i < |mapeo| && !Verdadero(CampoPersona(p, mapeo[i].0)) ==>
                  (mapeo[i].1 in r <==> mapeo[i].1 in celdas)
                  && (mapeo[i].1 in celdas ==> r[mapeo[i].1] == celdas[mapeo[i].1]))
            && (forall c :: (forall i :: 0 <= i < |mapeo| ==> mapeo[i].1 != c) ==>
                  (c in r <==> c in celdas) && (c in celdas ==> r[c] == celdas[c]))
  {
    var pares := ParesMapeo(mapeo, p);
    forall i | 0 <= i < |mapeo| {
      EscribirCeldasDentro(celdas, pares, i);
    }
    forall c | forall i :: 0 <= i < |mapeo| ==> mapeo[i].1 != c {
      EscribirCeldasFuera(celdas, pares, c);
    }
  }

  /** Every registered mapping sends its fields to distinct cells. */
  lemma MapeosCeldasDistintas(nombre: string)
    requires nombre in MAPEOS_EXCEL
    ensures var m := MAPEOS_EXCEL[nombre];
            forall a, b :: 0 <= a < b < |m| ==> m[a].1 != m[b].1
  {
  }

  /** `despues` is `antes` with `pares` written: the cell of every truthy
      pair holds its value, the cell of every falsy pair is as it was, and
      so is every cell no pair names. */
  ghost predicate EscritoSegun(antes: Celdas, despues: Celdas, pares: seq<(string, Valor)>) {
    (forall i :: 0 <= i < |pares| && Verdadero(pares[i].1) ==> pares[i].0 in despues && despues[pares[i].0] == pares[i].1)
    && (forall i :: 0 <= i < |pares| && !Verdadero(pares[i].1) ==>
          (pares[i].0 in despues <==> pares[i].0 in antes) && (pares[i].0 in antes ==> despues[pares[i].0] == antes[pares[i].0]))
    && (forall c :: (forall i :: 0 <= i < |pares| ==> pares[i].0 != c) ==>
          (c in despues <==> c in antes) && (c in antes ==> despues[c] == antes[c]))
  }

  /** Writing pairs with distinct cells gives exactly `EscritoSegun`. */
  lemma EscribirCeldasSegun(celdas: Celdas, pares: seq<(string, Valor)>)
    requires forall a, b :: 0 <= a < b < |pares| ==> pares[a].0 != pares[b].0
    ensures EscritoSegun(celdas, EscribirCeldas(celdas, pares), pares)
  {
    forall i | 0 <= i < |pares| {
      EscribirCeldasDentro(celdas, pares, i);
    }
    forall c | forall i :: 0 <= i < |pares| ==> pares[i].0 != c {
      EscribirCeldasFuera(celdas, pares, c);
    }
  }

  /** The pairs `generarExcel` writes for a template name: its registered
      mapping, or the default layout when it has none. */
  function ParesExcel(plantillaNombre: string, datos: Persona): seq<(string, Valor)> {
    if plantillaNombre in MAPEOS_EXCEL then ParesMapeo(MAPEOS_EXCEL[plantillaNombre], datos) else ParesDefecto(datos)
  }

  /** The pairs of every template name go to distinct cells. */
  lemma ParesExcelDistintos(plantillaNombre: string, datos: Persona)
    ensures var pares := ParesExcel(plantillaNombre, datos);
            forall a, b :: 0 <= a < b < |pares| ==> pares[a].0 != pares[b].0
  {
    if plantillaNombre in MAPEOS_EXCEL {
      MapeosCeldasDistintas(plantillaNombre);
    }
  }

  /** A worksheet whose cells are written in place. */
  class Hoja {
    var celdas: Celdas

    constructor (celdas0: Celdas)
      ensures celdas == celdas0
    {
      celdas := celdas0;
    }

    /** Writes the pairs in order, skipping falsy values (the `forEach` of
        `generarExcel` and of `aplicarMapeoDefaultExcel`). */
    method Asignar(pares: seq<(string, Valor)>)
      modifies this
      ensures celdas == EscribirCeldas(old(celdas), pares)
    {
      for i := 0 to |pares|
        invariant celdas == EscribirCeldas(old(celdas), pares[..i])
      {
        assert pares[..i + 1][..i] == pares[..i];
        var (celda, valor) := pares[i];
        if Verdadero(valor) {
          celdas := celdas[celda := valor];
        }
      }
      assert pares[..|pares|] == pares;
    }

    /** `aplicarMapeoDefaultExcel`. */
    method AplicarMapeoDefault(p: Persona)
      modifies this
      ensures celdas == EscribirCeldas(old(celdas), ParesDefecto(p))
    {
      Asignar(ParesDefecto(p));
    }
  }

  // ------------------------------------------------------------- the cache

  /** The file exists and reads without error. */
  predicate Cargable(t: PlantillaConfig, existentes: set<string>, leer: string -> Result<Blob>) {
    t.archivo in existentes && leer(t.archivo).Ok?
  }

  /** The cache and the two counters after preloading a list of templates. */
  datatype Precarga = Precarga(cache: map<string, Blob>, cargadas: nat, errores: nat)

  /** Preloading, one template after the other: a loadable template is cached
      under its logical name, any other is counted as an error. */
  function Precargar(cache: map<string, Blob>, sel: seq<PlantillaConfig>,
                     existentes: set<string>, leer: string -> Result<Blob>): Precarga
  {
    if sel == [] then Precarga(cache, 0, 0)
    else
      var q := Precargar(cache, sel[..|sel| - 1], existentes, leer);
      var t := sel[|sel| - 1];
      if Cargable(t, existentes, leer) then Precarga(q.cache[t.nombre := leer(t.archivo).value], q.cargadas + 1, q.errores)
      else Precarga(q.cache, q.cargadas, q.errores + 1)
  }

  /** One more template of the preload extends the first k. */
  lemma PrecargarPaso(cache: map<string, Blob>, sel: seq<PlantillaConfig>, k: nat,
                      existentes: set<string>, leer: string -> Result<Blob>)
    requires k < |sel|
    ensures var q := Precargar(cache, sel[..k], existentes, leer);
            var t := sel[k];
            Precargar(cache, sel[..k + 1], existentes, leer)
            == if Cargable(t, existentes, leer) then Precarga(q.cache[t.nombre := leer(t.archivo).value], q.cargadas + 1, q.errores)
               else Precarga(q.cache, q.cargadas, q.errores + 1)
  {
    assert sel[..k + 1][..k] == sel[..k];
  }

  /** Every selected template is either loaded or an error; nothing is
      loaded exactly when no selected template is loadable. */
  lemma {:induction false} PrecargarCuenta(cache: map<string, Blob>, sel: seq<PlantillaConfig>,
                                           existentes: set<string>, leer: string -> Result<Blob>)
    ensures var q := Precargar(cache, sel, existentes, leer);
            q.cargadas + q.errores == |sel|
            && (q.cargadas == 0 <==> forall i :: 0 <= i < |sel| ==> !Cargable(sel[i], existentes, leer))
  {
    if sel != [] {
      PrecargarCuenta(cache, sel[..|sel| - 1], existentes, leer);
    }
  }

  /** The cache gains exactly the names of the loadable templates. */
  lemma {:induction false} PrecargarClaves(cache: map<string, Blob>, sel: seq<PlantillaConfig>,
                                           existentes: set<string>, leer: string -> Result<Blob>)
    ensures Precargar(cache, sel, existentes, leer).cache.Keys
            == cache.Keys + set i | 0 <= i < |sel| && Cargable(sel[i], existentes, leer) :: sel[i].nombre
  {
    if sel != [] {
      var p := sel[..|sel| - 1];
      PrecargarClaves(cache, p, existentes, leer);
      var antes := set i | 0 <= i < |p| && Cargable(p[i], existentes, leer) :: p[i].nombre;
      var despues := set i | 0 <= i < |sel| && Cargable(sel[i], existentes, leer) :: sel[i].nombre;
      var t := sel[|sel| - 1];
      assert despues == antes + (if Cargable(t, existentes, leer) then {t.nombre} else {}) by {
        forall n | n in despues ensures n in antes || (Cargable(t, existentes, leer) && n == t.nombre) {
          var i :| 0 <= i < |sel| && Cargable(sel[i], existentes, leer) && sel[i].nombre == n;
          if i < |p| {
            assert p[i] == sel[i];
          }
        }
        forall n | n in antes ensures n in despues {
          var i :| 0 <= i < |p| && Cargable(p[i], existentes, leer) && p[i].nombre == n;
          assert sel[i] == p[i];
        }
      }
    }
  }

  /** An entry whose name no loadable template carries keeps its content. */
  lemma {:induction false} PrecargarConserva(cache: map<string, Blob>, sel: seq<PlantillaConfig>,
                                             existentes: set<string>, leer: string -> Result<Blob>, k: string)
    requires k in cache
    requires forall i :: 0 <= i < |sel| && Cargable(sel[i], existentes, leer) ==> sel[i].nombre != k
    ensures k in Precargar(cache, sel, existentes, leer).cache
    ensures Precargar(cache, sel, existentes, leer).cache[k] == cache[k]
  {
    if sel != [] {
      var p := sel[..|sel| - 1];
      assert forall i :: 0 <= i < |p| ==> p[i] == sel[i];
      PrecargarConserva(cache, p, existentes, leer, k);
    }
  }

  /** A loadable template that no later loadable template overrides leaves
      its file content in the cache under its name. */
  lemma {:induction false} PrecargarContenido(cache: map<string, Blob>, sel: seq<PlantillaConfig>,
                                              existentes: set<string>, leer: string -> Result<Blob>, i: nat)
    requires i < |sel| && Cargable(sel[i], existentes, leer)
    requires forall j :: i < j < |sel| && Cargable(sel[j], existentes, leer) ==> sel[j].nombre != sel[i].nombre
    ensures sel[i].nombre in Precargar(cache, sel, existentes, leer).cache
    ensures Precargar(cache, sel, existentes, leer).cache[sel[i].nombre] == leer(sel[i].archivo).value
  {
    var p := sel[..|sel| - 1];
    if i < |p| {
      assert forall j :: 0 <= j < |p| ==> p[j] == sel[j];
      PrecargarContenido(cache, p, existentes, leer, i);
    }
  }

  /** The result of `generarWord`, given the cache, the engine and whether
      writing the output fails. */
  function ResultadoWord(cache: map<string, Blob>, plantillaNombre: string, datos: DatosEnriquecidos,
                         motor: (Blob, DatosEnriquecidos) -> SalidaMotor, fallaEscritura: Option<string>): (r: Outcome)
    ensures plantillaNombre !in cache ==> r == Fail("❌ Plantilla " + plantillaNombre + " no encontrada en cache")
    ensures r.Pass? ==> plantillaNombre in cache && motor(cache[plantillaNombre], datos).Documento? && fallaEscritura.None?
  {
    if plantillaNombre !in cache then Fail("❌ Plantilla " + plantillaNombre + " no encontrada en cache")
    else match motor(cache[plantillaNombre], datos)
      case ErrorDePlantilla(m) => Fail("❌ Error en plantilla " + plantillaNombre + ": " + m)
      case OtroError(t) => Fail("❌ Error generando Word " + plantillaNombre + ": " + t)
      case Documento(_) =>
        if fallaEscritura.Some? then Fail("❌ Error generando Word " + plantillaNombre + ": " + fallaEscritura.value)
        else Pass
  }

  /** The workbook `generarExcel` writes, or the text of the error it
      catches: the template is read from its path, its first worksheet is
      updated through the registered mapping of the template name, or the
      default layout when there is none. */
  function LibroExcel(libro: Result<seq<Celdas>>, datos: Persona, plantillaNombre: string,
                      fallaEscritura: Option<string>): (r: Result<seq<Celdas>>)
    ensures libro.Err? ==> r == Err("❌ Error generando Excel " + plantillaNombre + ": " + libro.error)
    ensures libro.Ok? && libro.value == [] ==>
              r == Err("❌ Error generando Excel " + plantillaNombre + ": Error: La plantilla Excel no tiene hojas de trabajo")
    ensures libro.Ok? && libro.value != [] && fallaEscritura.Some? ==>
              r == Err("❌ Error generando Excel " + plantillaNombre + ": " + fallaEscritura.value)
    ensures libro.Ok? && libro.value != [] && fallaEscritura.None? ==> r.Ok?
    ensures r.Ok? ==> libro.Ok? && |r.value| == |libro.value| >= 1 && r.value[1..] == libro.value[1..]
    ensures r.Ok? ==> r.value[0] == EscribirCeldas(libro.value[0], ParesExcel(plantillaNombre, datos))
  {
    if libro.Err? then Err("❌ Error generando Excel " + plantillaNombre + ": " + libro.error)
    else if libro.value == [] then Err("❌ Error generando Excel " + plantillaNombre + ": Error: La plantilla Excel no tiene hojas de trabajo")
    else
      var hoja := EscribirCeldas(libro.value[0], ParesExcel(plantillaNombre, datos));
      if fallaEscritura.Some? then Err("❌ Error generando Excel " + plantillaNombre + ": " + fallaEscritura.value)
      else Ok([hoja] + libro.value[1..])
  }

  /** On success the first worksheet is the template's with its pairs
      written as `EscritoSegun` says; for a registered template those are
      (mapped cell, field of the record), otherwise the default layout. */
  lemma LibroExcelCeldas(libro: Result<seq<Celdas>>, datos: Persona, plantillaNombre: string,
                         fallaEscritura: Option<string>)
    ensures var r := LibroExcel(libro, datos, plantillaNombre, fallaEscritura);
            r.Ok? ==> EscritoSegun(libro.value[0], r.value[0], ParesExcel(plantillaNombre, datos))
    ensures plantillaNombre in MAPEOS_EXCEL ==>
              ParesExcel(plantillaNombre, datos) == ParesMapeo(MAPEOS_EXCEL[plantillaNombre], datos)
    ensures plantillaNombre !in MAPEOS_EXCEL ==> ParesExcel(plantillaNombre, datos) == ParesDefecto(datos)
  {
    var r := LibroExcel(libro, datos, plantillaNombre, fallaEscritura);
    if r.Ok? {
      ParesExcelDistintos(plantillaNombre, datos);
      EscribirCeldasSegun(libro.value[0], ParesExcel(plantillaNombre, datos));
    }
  }

  /** The configured templates of one kind (`obtenerPlantillasPorTipo`). */
  function PlantillasPorTipo(config: seq<PlantillaConfig>, tipo: TipoPlantilla): (r: seq<PlantillaConfig>)
    ensures |r| <= |config|
    ensures forall t :: t in r <==> t in config && t.tipo == tipo
  {
    if config == [] then []
    else (if config[0].tipo == tipo then [config[0]] else []) + PlantillasPorTipo(config[1..], tipo)
  }

  /** The filter keeps configuration order: it distributes over concatenation. */
  lemma {:induction false} PlantillasPorTipoConcatena(a: seq<PlantillaConfig>, b: seq<PlantillaConfig>, tipo: TipoPlantilla)
    ensures PlantillasPorTipo(a + b, tipo) == PlantillasPorTipo(a, tipo) + PlantillasPorTipo(b, tipo)
  {
    if a == [] {
      assert a + b == b;
    } else {
      assert (a + b)[1..] == a[1..] + b;
      PlantillasPorTipoConcatena(a[1..], b, tipo);
    }
  }

  /** On the shipped configuration: one Word template, then one Excel template. */
  lemma PlantillasPorTipoConfig(raiz: string)
    ensures PlantillasPorTipo(Plantillas(raiz), Word) == [Plantillas(raiz)[0]]
    ensures PlantillasPorTipo(Plantillas(raiz), Excel) == [Plantillas(raiz)[1]]
  {
    var c := Plantillas(raiz);
    assert c[1..][1..] == [];
  }

  /** The names of the templates whose file exists, and of those whose file
      does not, in configuration order. */
  function Existentes(config: seq<PlantillaConfig>, existentes: set<string>): (r: seq<string>)
  {
    if config == [] then []
    else
      var q := Existentes(config[..|config| - 1], existentes);
      if config[|config| - 1].archivo in existentes then q + [config[|config| - 1].nombre] else q
  }

  function Faltantes(config: seq<PlantillaConfig>, existentes: set<string>): (r: seq<string>)
  {
    if config == [] then []
    else
      var q := Faltantes(config[..|config| - 1], existentes);
      if config[|config| - 1].archivo !in existentes then q + [config[|config| - 1].nombre] else q
  }

  /** Every configured template is listed exactly on one side. */
  lemma {:induction false} ExistentesParticion(config: seq<PlantillaConfig>, existentes: set<string>)
    ensures |Existentes(config, existentes)| + |Faltantes(config, existentes)| == |config|
    ensures forall n :: n in Existentes(config, existentes) <==>
              exists i :: 0 <= i < |config| && config[i].nombre == n && config[i].archivo in existentes
    ensures forall n :: n in Faltantes(config, existentes) <==>
              exists i :: 0 <= i < |config| && config[i].nombre == n && config[i].archivo !in existentes
  {
    if config != [] {
      var p := config[..|config| - 1];
      ExistentesParticion(p, existentes);
      assert forall i :: 0 <= i < |p| ==> p[i] == config[i];
      var t := config[|config| - 1];
      forall n ensures n in Existentes(config, existentes) <==>
               exists i :: 0 <= i < |config| && config[i].nombre == n && config[i].archivo in existentes {
        if exists i :: 0 <= i < |config| && config[i].nombre == n && config[i].archivo in existentes {
          var i :| 0 <= i < |config| && config[i].nombre == n && config[i].archivo in existentes;
          if i < |p| {
            assert p[i].nombre == n;
          }
        }
      }
      forall n ensures n in Faltantes(config, existentes) <==>
               exists i :: 0 <= i < |config| && config[i].nombre == n && config[i].archivo !in existentes {
        if exists i :: 0 <= i < |config| && config[i].nombre == n && config[i].archivo !in existentes {
          var i :| 0 <= i < |config| && config[i].nombre == n && config[i].archivo !in existentes;
          if i < |p| {
            assert p[i].nombre == n;
          }
        }
      }
    }
  }

  /** The generator with its in-memory template cache. */
  class DocumentGenerator {
    var plantillaCache: map<string, Blob>

    constructor ()
      ensures plantillaCache == map[]
    {
      plantillaCache := map[];
    }

    /** `precargarPlantillas`: `existentes` is what exists on disk, `leer` the
        result of reading a file. */
    method PrecargarPlantillas(config: seq<PlantillaConfig>, plantillas: Option<seq<string>>,
                               existentes: set<string>, leer: string -> Result<Blob>)
      returns (r: Outcome, cargadas: nat, errores: nat)
      modifies this
      ensures var q := Precargar(old(plantillaCache), Seleccion(config, plantillas), existentes, leer);
              plantillaCache == q.cache && cargadas == q.cargadas && errores == q.errores
      ensures r == if cargadas == 0 then Fail("No se pudo cargar ninguna plantilla") else Pass
    {
      var sel := Seleccion(config, plantillas);
      cargadas, errores := 0, 0;
      for i := 0 to |sel|
        invariant var q := Precargar(old(plantillaCache), sel[..i], existentes, leer);
                  plantillaCache == q.cache && cargadas == q.cargadas && errores == q.errores
      {
        PrecargarPaso(old(plantillaCache), sel, i, existentes, leer);
        var t := sel[i];
        if t.archivo !in existentes {
          errores := errores + 1;
          continue;
        }
        var contenido := leer(t.archivo);
        if contenido.Err? {
          errores := errores + 1;
        } else {
          plantillaCache := plantillaCache[t.nombre := contenido.value];
          cargadas := cargadas + 1;
        }
      }
      assert sel[..|sel|] == sel;
      if cargadas == 0 {
        return Fail("No se pudo cargar ninguna plantilla"), cargadas, errores;
      }
      r := Pass;
    }

    /** `generarWord`: looks the template up in the cache, renders the
        enriched record with `motor` and writes the output file. */
    method GenerarWord(datos: Persona, plantillaNombre: string, salidaPath: string, entorno: Entorno,
                       motor: (Blob, DatosEnriquecidos) -> SalidaMotor, fallaEscritura: Option<string>, disco: Disco)
      returns (r: Outcome)
      modifies disco`archivos
      ensures r == ResultadoWord(plantillaCache, plantillaNombre, Enriquecer(datos, entorno), motor, fallaEscritura)
      ensures disco.archivos == if r.Pass? then old(disco.archivos) + {salidaPath} else old(disco.archivos)
    {
      if plantillaNombre !in plantillaCache {
        return Fail("❌ Plantilla " + plantillaNombre + " no encontrada en cache");
      }
      var contenido := plantillaCache[plantillaNombre];
      var datosCompletos := Enriquecer(datos, entorno);
      var salida := motor(contenido, datosCompletos);
      ghost var esperado := ResultadoWord(plantillaCache, plantillaNombre, datosCompletos, motor, fallaEscritura);
      assert salida.ErrorDePlantilla? ==> esperado == Fail("❌ Error en plantilla " + plantillaNombre + ": " + salida.mensaje);
      assert salida.OtroError? ==> esperado == Fail("❌ Error generando Word " + plantillaNombre + ": " + salida.texto);
      assert salida.Documento? && fallaEscritura.Some? ==>
               esperado == Fail("❌ Error generando Word " + plantillaNombre + ": " + fallaEscritura.value);
      assert salida.Documento? && fallaEscritura.None? ==> esperado == Pass;
      match salida {
        case ErrorDePlantilla(m) =>
          return Fail("❌ Error en plantilla " + plantillaNombre + ": " + m);
        case OtroError(t) =>
          return Fail("❌ Error generando Word " + plantillaNombre + ": " + t);
        case Documento(_) =>
          if fallaEscritura.Some? {
            return Fail("❌ Error generando Word " + plantillaNombre + ": " + fallaEscritura.value);
          }
          disco.Escribir(salidaPath);
          r := Pass;
      }
    }

    /** `generarExcel`: `libro` is the template workbook as read from
        `plantillaPath` (its worksheets), or the text of the read error. */
    method GenerarExcel(datos: Persona, plantillaPath: string, salidaPath: string, plantillaNombre: string,
                        libro: Result<seq<Celdas>>, fallaEscritura: Option<string>, disco: Disco)
      returns (r: Result<seq<Celdas>>)
      modifies disco`archivos
      ensures r == LibroExcel(libro, datos, plantillaNombre, fallaEscritura)
      ensures disco.archivos == if r.Ok? then old(disco.archivos) + {salidaPath} else old(disco.archivos)
    {
      if libro.Err? {
        return Err("❌ Error generando Excel " + plantillaNombre + ": " + libro.error);
      }
      if libro.value == [] {
        return Err("❌ Error generando Excel " + plantillaNombre + ": Error: La plantilla Excel no tiene hojas de trabajo");
      }
      var hoja := new Hoja(libro.value[0]);
      if plantillaNombre in MAPEOS_EXCEL {
        hoja.Asignar(ParesMapeo(MAPEOS_EXCEL[plantillaNombre], datos));
      } else {
        hoja.AplicarMapeoDefault(datos);
      }
      if fallaEscritura.Some? {
        return Err("❌ Error generando Excel " + plantillaNombre + ": " + fallaEscritura.value);
      }
      disco.Escribir(salidaPath);
      r := Ok([hoja.celdas] + libro.value[1..]);
    }

    /** `validarPlantillasExisten`. */
    method ValidarPlantillasExisten(config: seq<PlantillaConfig>, existentes: set<string>)
      returns (presentes: seq<string>, faltantes: seq<string>)
      ensures presentes == Existentes(config, existentes)
      ensures faltantes == Faltantes(config, existentes)
      ensures |presentes| + |faltantes| == |config|
    {
      presentes, faltantes := [], [];
      for i := 0 to |config|
        invariant presentes == Existentes(config[..i], existentes)
        invariant faltantes == Faltantes(config[..i], existentes)
      {
        assert config[..i + 1][..i] == config[..i];
        if config[i].archivo in existentes {
          presentes := presentes + [config[i].nombre];
        } else {
          faltantes := faltantes + [config[i].nombre];
        }
      }
      assert config[..|config|] == config;
      ExistentesParticion(config, existentes);
    }
  }
}
