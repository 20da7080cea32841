/**
 * Text helpers shared by the server and the browser client: decimal digits,
 * the zero-filled two-digit fields of the clock formats, JavaScript's
 * `String(n)`, `padStart`, `slice(-k)`, `repeat` and `trim`, and the
 * line structure of the text the client builds with repeated `+= ... + '\n'`.
 */
module Texto {

  predicate EsDigito(c: char) { '0' <= c <= '9' }

  predicate SoloDigitos(s: string) { forall i :: 0 <= i < |s| ==> EsDigito(s[i]) }

  function ValorDigito(c: char): (v: nat)
    requires EsDigito(c)
    ensures v < 10
  {
    (c as int) - ('0' as int)
  }

  function Digito(d: nat): (c: char)
    requires d < 10
    ensures EsDigito(c) && ValorDigito(c) == d
  {
    (('0' as int) + d) as char
  }

  /** Zero-filled two-digit rendering of a number below 100 (the `DD`, `MM`, `YY`, `HH`, `mm` and `ss` tokens). */
  function Pad2(n: nat): (s: string)
    requires n < 100
    ensures |s| == 2 && SoloDigitos(s)
    ensures ValorDigito(s[0]) * 10 + ValorDigito(s[1]) == n
  {
    [Digito(n / 10), Digito(n % 10)]
  }

  /** The number a string of decimal digits denotes. */
  function ValorDecimal(s: string): nat
    requires SoloDigitos(s)
  {
    if s == [] then 0 else ValorDecimal(s[..|s| - 1]) * 10 + ValorDigito(s[|s| - 1])
  }

  /** `String(n)` for a non-negative integer: its shortest decimal numeral. */
  function Decimal(n: nat): (s: string)
    ensures 1 <= |s| && SoloDigitos(s)
    ensures ValorDecimal(s) == n
    ensures s[|s| - 1] == Digito(n % 10)
    ensures |s| > 1 ==> s[0] != '0'
    ensures n < 10 <==> |s| == 1
  {
    if n < 10 then [Digito(n)]
    else
      var cabeza := Decimal(n / 10);
      var s := cabeza + [Digito(n % 10)];
      assert s[..|s| - 1] == cabeza;
      s
  }

  /** `String(i)` for any integer. */
  function CadenaEntero(i: int): (s: string)
    ensures |s| >= 1
    ensures s[0] == '-' <==> i < 0
    ensures i >= 0 ==> SoloDigitos(s) && ValorDecimal(s) == i
    ensures i < 0 ==> SoloDigitos(s[1..]) && ValorDecimal(s[1..]) == -i
    ensures i >= 0 && |s| > 1 ==> s[0] != '0'
    ensures i < 0 && |s| > 2 ==> s[1] != '0'
  {
    if i < 0 then "-" + Decimal(-i) else Decimal(i)
  }

  /** `c.repeat(n)` for a one-character string `c`. */
  function Repetir(c: char, n: nat): (s: string)
    ensures |s| == n
    ensures forall i :: 0 <= i < n ==> s[i] == c
  {
    seq(n, _ => c)
  }

  /** `s.padStart(largo, relleno)` with a one-character filler. */
  function RellenarInicio(s: string, largo: nat, relleno: char): (r: string)
    ensures |r| == if |s| >= largo then |s| else largo
    ensures r[|r| - |s|..] == s
    ensures forall i :: 0 <= i < |r| - |s| ==> r[i] == relleno
  {
    if |s| >= largo then s else Repetir(relleno, largo - |s|) + s
  }

  /** `s.slice(-k)` for a positive `k`: the last `k` characters, or all of them. */
  function Ultimos(s: string, k: nat): (r: string)
    requires k >= 1
    ensures |r| == if |s| < k then |s| else k
    ensures r == s[|s| - |r|..]
  {
    if |s| < k then s else s[|s| - k..]
  }

  /** For a number below 100, `String(n).padStart(2, '0')` is the two-digit field. */
  lemma RellenarDecimalEsPad2(n: nat)
    requires n < 100
    ensures RellenarInicio(Decimal(n), 2, '0') == Pad2(n)
  {
    if n >= 10 {
      var s := Decimal(n);
      assert s == Decimal(n / 10) + [Digito(n % 10)];
      assert Decimal(n / 10) == [Digito(n / 10)];
    }
  }

  lemma DigitosDeCentena(n: nat)
    ensures (n % 100) / 10 == (n / 10) % 10
    ensures (n % 100) % 10 == n % 10
  {
    var a, b, c := n / 100, (n / 10) % 10, n % 10;
    assert n / 10 == 10 * a + b;
    assert n == 100 * a + 10 * b + c;
  }

  /** For a number of two digits or more, `String(n).slice(-2)` is the two-digit field of `n % 100`. */
  lemma UltimosDosDecimal(n: nat)
    requires n >= 10
    ensures Ultimos(Decimal(n), 2) == Pad2(n % 100)
  {
    var cabeza := Decimal(n / 10);
    assert Decimal(n) == cabeza + [Digito(n % 10)];
    DigitosDeCentena(n);
    assert Ultimos(Decimal(n), 2) == [cabeza[|cabeza| - 1], Digito(n % 10)];
  }

  /**
   * The characters `String.prototype.trim` removes: the WhiteSpace and
   * LineTerminator characters of section 12.2 and 12.3 of ECMA-262.
   */
  predicate EsEspacio(c: char)
  {
    var k := c as int;
    k == 0x09 || k == 0x0A || k == 0x0B || k == 0x0C || k == 0x0D || k == 0x20
    || k == 0xA0 || k == 0x1680 || (0x2000 <= k <= 0x200A) || k == 0x2028
    || k == 0x2029 || k == 0x202F || k == 0x205F || k == 0x3000 || k == 0xFEFF
  }

  function RecortarInicio(s: string): (r: string)
    ensures |r| <= |s| && r == s[|s| - |r|..]
    ensures r == [] || !EsEspacio(r[0])
    ensures forall i :: 0 <= i < |s| - |r| ==> EsEspacio(s[i])
  {
    if s != [] && EsEspacio(s[0]) then RecortarInicio(s[1..]) else s
  }

  function RecortarFin(s: string): (r: string)
    ensures |r| <= |s| && r == s[..|r|]
    ensures r == [] || !EsEspacio(r[|r| - 1])
    ensures forall i :: |r| <= i < |s| ==> EsEspacio(s[i])
  {
    if s != [] && EsEspacio(s[|s| - 1]) then RecortarFin(s[..|s| - 1]) else s
  }

  /** Number of leading white-space characters `trim` drops. */
  function EspaciosIniciales(s: string): (k: nat)
    ensures k <= |s|
  {
    |s| - |RecortarInicio(s)|
  }

  /**
   * `s.trim()`: the slice of `s` left after dropping its leading and trailing
   * white space; it neither starts nor ends with white space.
   */
  function Recortar(s: string): (r: string)
    ensures EspaciosIniciales(s) + |r| <= |s|
    ensures r == s[EspaciosIniciales(s)..EspaciosIniciales(s) + |r|]
    ensures forall i :: 0 <= i < EspaciosIniciales(s) ==> EsEspacio(s[i])
    ensures forall i :: EspaciosIniciales(s) + |r| <= i < |s| ==> EsEspacio(s[i])
    ensures r == [] || (!EsEspacio(r[0]) && !EsEspacio(r[|r| - 1]))
  {
    var a := RecortarInicio(s);
    var r := RecortarFin(a);
    assert r == s[|s| - |a|..|s| - |a| + |r|];
    r
  }

  predicate SinSaltos(s: string) { '\n' !in s }

  /** Lines written one after the other, each followed by a line feed. */
  function Unir(lineas: seq<string>): string
  {
    if lineas == [] then [] else lineas[0] + "\n" + Unir(lineas[1..])
  }

  /** Index of the first line feed of `s`, or `|s|` when there is none. */
  function FinDeLinea(s: string): (k: nat)
    ensures k <= |s|
    ensures k < |s| ==> s[k] == '\n'
    ensures forall i :: 0 <= i < k ==> s[i] != '\n'
  {
    if s == [] || s[0] == '\n' then 0 else 1 + FinDeLinea(s[1..])
  }

  /** The lines of a text: the pieces between line feeds, a final line feed closing the last piece. */
  function Lineas(s: string): seq<string>
    decreases |s|
  {
    if s == [] then []
    else
      var k := FinDeLinea(s);
      [s[..k]] + (if k < |s| then Lineas(s[k + 1..]) else [])
  }

  /** Concatenation is associative. */
  lemma Asociar<T>(a: seq<T>, b: seq<T>, c: seq<T>)
    ensures a + b + c == a + (b + c)
  {
  }

  lemma {:induction false} UnirConcatena(a: seq<string>, b: seq<string>)
    ensures Unir(a + b) == Unir(a) + Unir(b)
  {
    if a != [] {
      assert (a + b)[1..] == a[1..] + b;
      UnirConcatena(a[1..], b);
    } else {
      assert a + b == b;
    }
  }

  lemma LineaSeguida(l: string, resto: string)
    requires SinSaltos(l)
    ensures Lineas(l + "\n" + resto) == [l] + Lineas(resto)
  {
    var s := l + "\n" + resto;
    FinDeLineaSinSaltos(l, resto);
    assert s[..|l|] == l;
    assert s[|l| + 1..] == resto;
  }

  lemma {:induction false} FinDeLineaSinSaltos(l: string, resto: string)
    requires SinSaltos(l)
    ensures FinDeLinea(l + "\n" + resto) == |l|
  {
    if l != [] {
      assert (l + "\n" + resto)[1..] == l[1..] + "\n" + resto;
      FinDeLineaSinSaltos(l[1..], resto);
    }
  }

  /** Splitting joined lines at their line feeds gives the lines back, in order. */
  lemma {:induction false} LineasDeUnir(lineas: seq<string>)
    requires forall i :: 0 <= i < |lineas| ==> SinSaltos(lineas[i])
    ensures Lineas(Unir(lineas)) == lineas
  {
    if lineas != [] {
      LineaSeguida(lineas[0], Unir(lineas[1..]));
      LineasDeUnir(lineas[1..]);
    }
  }
}
