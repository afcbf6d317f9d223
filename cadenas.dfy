/** Wrappers for the source's error paths and the string operations of
    JavaScript that the core relies on (trim, includes, endsWith, case
    changes restricted to ASCII, decimal rendering of numbers, join). */
module Cadenas {

  datatype Option<+T> = None | Some(value: T)

  /** A value or the message of the Error the source throws. */
  datatype Result<+T> = Ok(value: T) | Err(error: string)

  /** Completion without a value, or the message of the Error thrown. */
  datatype Outcome = Pass | Fail(error: string)

  /** JavaScript white space and line terminators: what `\s` matches and
      what `String.prototype.trim` removes. */
  predicate EsEspacio(c: char) {
    var n := c as int;
    (9 <= n <= 13) || n == 32 || n == 0xA0 || n == 0x1680
    || (0x2000 <= n <= 0x200A) || n == 0x2028 || n == 0x2029
    || n == 0x202F || n == 0x205F || n == 0x3000 || n == 0xFEFF
  }

  predicate SinEspacios(s: string) {
    forall i :: 0 <= i < |s| ==> !EsEspacio(s[i])
  }

  /** Drops the leading white space of `s`. */
  function RecortarInicio(s: string): (r: string)
    ensures |r| <= |s| && r == s[|s| - |r|..]
    ensures r == [] || !EsEspacio(r[0])
    ensures forall i :: 0 <= i < |s| - |r| ==> EsEspacio(s[i])
  {
    if s != [] && EsEspacio(s[0]) then RecortarInicio(s[1..]) else s
  }

  /** Drops the trailing white space of `s`. */
  function RecortarFin(s: string): (r: string)
    ensures |r| <= |s| && r == s[..|r|]
    ensures r == [] || !EsEspacio(r[|r| - 1])
    ensures forall i :: |r| <= i < |s| ==> EsEspacio(s[i])
  {
    if s != [] && EsEspacio(s[|s| - 1]) then RecortarFin(s[..|s| - 1]) else s
  }

  /** `String.prototype.trim`. */
  function Recortar(s: string): (r: string)
    ensures |r| <= |s|
    ensures r == [] || (!EsEspacio(r[0]) && !EsEspacio(r[|r| - 1]))
  {
    RecortarFin(RecortarInicio(s))
  }

  lemma RecortarSinBordes(s: string)
    requires s == [] || (!EsEspacio(s[0]) && !EsEspacio(s[|s| - 1]))
    ensures Recortar(s) == s
  {
  }

  function MinusculaAscii(c: char): (r: char)
    ensures !('A' <= r <= 'Z')
    ensures !('A' <= c <= 'Z') ==> r == c
    ensures 'A' <= c <= 'Z' ==> 'a' <= r <= 'z' && MayusculaAscii(r) == c
  {
    if 'A' <= c <= 'Z' then (c as int + 32) as char else c
  }

  function MayusculaAscii(c: char): (r: char)
    ensures !('a' <= r <= 'z')
    ensures !('a' <= c <= 'z') ==> r == c
  {
    if 'a' <= c <= 'z' then (c as int - 32) as char else c
  }

  /** `toLowerCase`, on the ASCII letters; every other character is kept. */
  function Minusculas(s: string): (r: string)
    ensures |r| == |s|
    ensures forall i :: 0 <= i < |s| ==> r[i] == MinusculaAscii(s[i])
    ensures forall i :: 0 <= i < |r| ==> !('A' <= r[i] <= 'Z')
    ensures forall i :: 0 <= i < |s| && !('A' <= s[i] <= 'Z') ==> r[i] == s[i]
    ensures (forall i :: 0 <= i < |s| ==> !('A' <= s[i] <= 'Z')) ==> r == s
  {
    seq(|s|, i requires 0 <= i < |s| => MinusculaAscii(s[i]))
  }

  /** `toUpperCase`, on the ASCII letters; every other character is kept. */
  function Mayusculas(s: string): (r: string)
    ensures |r| == |s|
    ensures forall i :: 0 <= i < |s| ==> r[i] == MayusculaAscii(s[i])
    ensures forall i :: 0 <= i < |r| ==> !('a' <= r[i] <= 'z')
    ensures forall i :: 0 <= i < |s| && !('a' <= s[i] <= 'z') ==> r[i] == s[i]
    ensures (forall i :: 0 <= i < |s| ==> !('a' <= s[i] <= 'z')) ==> r == s
  {
    seq(|s|, i requires 0 <= i < |s| => MayusculaAscii(s[i]))
  }

  /** Lower-casing twice is lower-casing once. */
  lemma MinusculasIdempotente(s: string)
    ensures Minusculas(Minusculas(s)) == Minusculas(s)
  {
  }

  /** Concatenation regrouped, stated on plain sequences so that using it
      does not unfold the functions whose results are passed in. */
  lemma Asociar<T>(x: seq<T>, y: seq<T>, z: seq<T>)
    ensures x + (y + z) == x + y + z
  {
  }

  /** Case changes act character by character, so they distribute over concatenation. */
  lemma MinusculasConcatena(a: string, b: string)
    ensures Minusculas(a + b) == Minusculas(a) + Minusculas(b)
  {
    assert forall i :: 0 <= i < |a| + |b| ==> Minusculas(a + b)[i] == (Minusculas(a) + Minusculas(b))[i];
  }

  predicate EmpiezaCon(s: string, p: string) {
    |p| <= |s| && s[..|p|] == p
  }

  /** `String.prototype.endsWith`. */
  predicate TerminaCon(s: string, p: string) {
    |p| <= |s| && s[|s| - |p|..] == p
  }

  /** `String.prototype.includes`: `p` occurs in `s` at some offset. */
  predicate Contiene(s: string, p: string)
    decreases |s|
  {
    EmpiezaCon(s, p) || (s != [] && Contiene(s[1..], p))
  }

  /** `Contiene` is exactly "occurs at some offset". */
  lemma {:induction false} ContieneSii(s: string, p: string, k: nat)
    requires k + |p| <= |s| && s[k..k + |p|] == p
    ensures Contiene(s, p)
    decreases k
  {
    if k > 0 {
      assert s[1..][k - 1..k - 1 + |p|] == s[k..k + |p|];
      ContieneSii(s[1..], p, k - 1);
    } else {
      assert s[..|p|] == p;
    }
  }

  /** The decimal digit for `d`. */
  function Digito(d: nat): (c: char)
    requires d < 10
    ensures '0' <= c <= '9'
  {
    ('0' as int + d) as char
  }

  predicate SoloDigitos(s: string) {
    forall i :: 0 <= i < |s| ==> '0' <= s[i] <= '9'
  }

  /** `Number.prototype.toString()` of a non-negative integer. */
  function NatACadena(n: nat): (r: string)
    ensures |r| >= 1 && SoloDigitos(r)
    ensures n < 10 <==> |r| == 1
  {
    if n < 10 then [Digito(n)] else NatACadena(n / 10) + [Digito(n % 10)]
  }

  /** `Number.prototype.toString()` of an integer. */
  function IntACadena(i: int): (r: string)
    ensures |r| >= 1
    ensures r[0] == '-' <==> i < 0
  {
    if i < 0 then "-" + NatACadena(-i) else NatACadena(i)
  }

  /** `Array.prototype.join(sep)`. */
  function Unir(partes: seq<string>, sep: string): (r: string)
  {
    if |partes| == 0 then ""
    else if |partes| == 1 then partes[0]
    else partes[0] + sep + Unir(partes[1..], sep)
  }

  /** The first position of `c` in `s`, if any. */
  function IndiceDe(s: string, c: char): (r: Option<nat>)
    ensures r.None? <==> c !in s
    ensures r.Some? ==> r.value < |s| && s[r.value] == c && c !in s[..r.value]
  {
    if s == [] then None
    else if s[0] == c then Some(0)
    else match IndiceDe(s[1..], c)
      case None => None
      case Some(k) =>
        assert s[..k + 1] == [s[0]] + s[1..][..k];
        Some(k + 1)
  }

  /** The last position of `c` in `s`, if any. */
  function UltimoIndiceDe(s: string, c: char): (r: Option<nat>)
    ensures r.None? <==> c !in s
    ensures r.Some? ==> r.value < |s| && s[r.value] == c && c !in s[r.value + 1..]
  {
    if s == [] then None
    else if s[|s| - 1] == c then Some(|s| - 1)
    else
      var r := UltimoIndiceDe(s[..|s| - 1], c);
      assert r.Some? ==> s[r.value + 1..] == s[..|s| - 1][r.value + 1..] + [s[|s| - 1]];
      assert r.None? ==> s == s[..|s| - 1] + [s[|s| - 1]];
      r
  }

  /** The last position is the one with no later occurrence. */
  lemma UltimoIndiceDeUnico(s: string, c: char, k: nat)
    requires k < |s| && s[k] == c && c !in s[k + 1..]
    ensures UltimoIndiceDe(s, c) == Some(k)
  {
    var r := UltimoIndiceDe(s, c);
    assert s[k] in s;
    EnSufijo(s, r.value);
    EnSufijo(s, k);
  }

  /** Every character after position `i` is in the suffix that follows `i`. */
  lemma EnSufijo(s: string, i: nat)
    requires i < |s|
    ensures forall j :: i < j < |s| ==> s[j] in s[i + 1..]
  {
    forall j | i < j < |s| ensures s[j] in s[i + 1..] {
      assert s[i + 1..][j - i - 1] == s[j];
    }
  }
}
