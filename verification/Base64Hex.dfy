/** The streaming conversion of base64 text to hexadecimal (sections 4 and 8 of RFC 4648). */
module Base64Hex {
  import opened Prelude
  import Numerals

  /** b64map, the alphabet of table 1, by range. */
  function B64Char(v: nat): char
    requires v < 64
  {
    if v < 26 then 'A' + v as char
    else if v < 52 then 'a' + (v - 26) as char
    else if v < 62 then '0' + (v - 52) as char
    else if v == 62 then '+' else '/'
  }

  /** strings.Index(b64map, m): -1 for a character outside the alphabet. */
  function B64Value(c: char): (v: int)
    ensures -1 <= v < 64 && (v >= 0 ==> B64Char(v) == c)
  {
    if 'A' <= c <= 'Z' then (c - 'A') as int
    else if 'a' <= c <= 'z' then (c - 'a') as int + 26
    else if '0' <= c <= '9' then (c - '0') as int + 52
    else if c == '+' then 62
    else if c == '/' then 63
    else -1
  }

  lemma ValueOfChar(v: nat)
    requires v < 64
    ensures B64Value(B64Char(v)) == v && B64Char(v) != '='
  {
  }

  /** int2char on the values that occur. */
  function HexChar(a: nat): (c: char)
    requires a < 16
    ensures Numerals.IsLowerHex(c) && Numerals.HexValue(c) == a
  {
    if a < 10 then '0' + a as char else 'a' + (a - 10) as char
  }

  /** c << 2 | v >> 4, on bits that do not overlap. */
  function Or(high: nat, low: nat): nat
    requires high % 4 == 0 && low < 4
  {
    high + low
  }

  // ---- the machine ----

  /** Phase (how many characters of the current group have been read) and carried bits. */
  datatype State = State(e: nat, c: nat)

  predicate Valid(s: State) {
    && s.e < 4
    && (s.e == 1 || s.e == 3 ==> s.c < 4)
    && (s.e == 2 ==> s.c < 16)
  }

  /** One character of the alphabet: digits written, next state. */
  function Step(s: State, v: nat): (r: (string, State))
    requires Valid(s) && v < 64
    ensures Valid(r.1) && forall i :: 0 <= i < |r.0| ==> Numerals.IsLowerHex(r.0[i])
  {
    if s.e == 0 then ([HexChar(v / 4)], State(1, v % 4))
    else if s.e == 1 then ([HexChar(Or(s.c * 4, v / 16))], State(2, v % 16))
    else if s.e == 2 then ([HexChar(s.c), HexChar(v / 4)], State(3, v % 4))
    else ([HexChar(Or(s.c * 4, v / 16)), HexChar(v % 16)], State(0, s.c))
  }

  /** What is written after the last character. */
  function Last(s: State): string
    requires Valid(s)
  {
    if s.e == 1 then [HexChar(s.c * 4)] else ""
  }

  /** What is still to be written for `a` from state `s`; None where the program would index its digit
      table with -1. */
  function Rest(s: State, a: string): Option<string>
    requires Valid(s)
    decreases |a|
  {
    if a == "" then Some(Last(s))
    else if a[0] == '=' then Rest(s, a[1..])
    else if B64Value(a[0]) < 0 then None
    else
      var (digits, next) := Step(s, B64Value(a[0]));
      Prepend(digits, Rest(next, a[1..]))
  }

  function Prepend(d: string, o: Option<string>): Option<string> {
    match o
    case None => None
    case Some(r) => Some(d + r)
  }

  /** The four branches on the phase. */
  method Turn(d: string, e: nat, c: nat, v: nat) returns (d': string, e': nat, c': nat)
    requires Valid(State(e, c)) && v < 64
    ensures d' == d + Step(State(e, c), v).0 && State(e', c') == Step(State(e, c), v).1
  {
    d', c' := d, c;
    if e == 0 {
      e' := 1;
      d' := d' + [HexChar(v / 4)];
      c' := v % 4;
    } else if e == 1 {
      e' := 2;
      d' := d' + [HexChar(Or(c * 4, v / 16))];
      c' := v % 16;
    } else if e == 2 {
      e' := 3;
      d' := d' + [HexChar(c)];
      d' := d' + [HexChar(v / 4)];
      c' := v % 4;
    } else {
      e' := 0;
      d' := d' + [HexChar(Or(c * 4, v / 16))];
      d' := d' + [HexChar(v % 16)];
    }
  }

  /** b64tohex: fails exactly on a character outside the alphabet. */
  method B64ToHex(a: string) returns (r: Option<string>)
    ensures r == Rest(State(0, 0), a)
  {
    var d, e: nat, c: nat := "", 0, 0;
    assert a[0..] == a;
    PrependNothing(Rest(State(0, 0), a));
    hide Step, HexChar, Or;
    for i := 0 to |a|
      invariant Valid(State(e, c))
      invariant Prepend(d, Rest(State(e, c), a[i..])) == Rest(State(0, 0), a)
    {
      var m := a[i];
      ghost var rest := a[i..];
      assert rest[0] == m && rest[1..] == a[i + 1..];
      if m != '=' {
        var v := B64Value(m);
        if v < 0 {
          return None;
        }
        ghost var (digits, next) := Step(State(e, c), v);
        PrependTwice(d, digits, Rest(next, a[i + 1..]));
        d, e, c := Turn(d, e, c, v);
      }
    }
    assert a[|a|..] == "" && (e != 1 ==> d + Last(State(e, c)) == d);
    if e == 1 {
      d := d + [HexChar(c * 4)];
    }
    r := Some(d);
  }

  lemma PrependNothing(o: Option<string>)
    ensures Prepend("", o) == o
  {
    if o.Some? { assert "" + o.value == o.value; }
  }

  lemma PrependTwice(a: string, b: string, o: Option<string>)
    ensures Prepend(a, Prepend(b, o)) == Prepend(a + b, o)
  {
    if o.Some? { assert a + (b + o.value) == a + b + o.value; }
  }

  predicate InAlphabet(a: string) {
    forall i :: 0 <= i < |a| ==> a[i] == '=' || B64Value(a[i]) >= 0
  }

  /** The conversion succeeds exactly on text over the alphabet, and writes nothing but lower-case
      hexadecimal: the digit table is never asked for more than 15. */
  lemma {:induction false} RestIsHex(s: State, a: string)
    requires Valid(s)
    ensures Rest(s, a).Some? <==> InAlphabet(a)
    ensures Rest(s, a).Some? ==> forall i :: 0 <= i < |Rest(s, a).value| ==> Numerals.IsLowerHex(Rest(s, a).value[i])
    decreases |a|
  {
    if a != "" {
      var next := if a[0] == '=' || B64Value(a[0]) < 0 then s else Step(s, B64Value(a[0])).1;
      RestIsHex(next, a[1..]);
      assert forall i :: 0 < i < |a| ==> a[i] == a[1..][i - 1];
    }
  }

  // ---- against the encoder ----

  /** Base64 with padding. */
  function Encode(data: seq<byte>): string
    decreases |data|
  {
    if data == [] then ""
    else if |data| == 1 then [B64Char(data[0] / 4), B64Char(data[0] % 4 * 16)] + "=="
    else if |data| == 2 then
      [B64Char(data[0] / 4), B64Char(data[0] % 4 * 16 + data[1] / 16), B64Char(data[1] % 16 * 4)] + "="
    else
      [B64Char(data[0] / 4), B64Char(data[0] % 4 * 16 + data[1] / 16),
       B64Char(data[1] % 16 * 4 + data[2] / 64), B64Char(data[2] % 64)] + Encode(data[3..])
  }

  /** Two lower-case hexadecimal digits per byte. */
  function Hex(data: seq<byte>): string
    decreases |data|
  {
    if data == [] then "" else [HexChar(data[0] / 16), HexChar(data[0] % 16)] + Hex(data[1..])
  }

  lemma RestOfChar(s: State, v: nat, a: string)
    requires Valid(s) && v < 64
    ensures Rest(s, [B64Char(v)] + a) == Prepend(Step(s, v).0, Rest(Step(s, v).1, a))
  {
    ValueOfChar(v);
    assert ([B64Char(v)] + a)[1..] == a;
  }

  lemma RestOfPad(s: State)
    requires Valid(s) && s.e != 1
    ensures Rest(s, "==") == Some("") && Rest(s, "=") == Some("")
  {
    assert "=="[1..] == "=" && "="[1..] == "";
  }

  /** The digits of the first two characters of a group are those of its first byte, ... */
  lemma FirstByte(c: nat, a: byte, low: nat, rest: string)
    requires low < 16
    ensures var s := State(0, c);
      Rest(s, [B64Char(a / 4), B64Char(a % 4 * 16 + low)] + rest)
      == Prepend([HexChar(a / 16), HexChar(a % 16)], Rest(State(2, low), rest))
  {
    var v, w := a / 4, a % 4 * 16 + low;
    var x, y := HexChar(a / 16), HexChar(a % 16);
    FirstDigits(c, a, low);
    hide Step, HexChar;
    assert [B64Char(v), B64Char(w)] + rest == [B64Char(v)] + ([B64Char(w)] + rest);
    RestOfChar(State(0, c), v, [B64Char(w)] + rest);
    RestOfChar(State(1, v % 4), w, rest);
    PrependTwice([x], [y], Rest(State(2, low), rest));
    assert [x] + [y] == [x, y];
  }

  lemma FirstDigits(c: nat, a: byte, low: nat)
    requires low < 16
    ensures Step(State(0, c), a / 4) == ([HexChar(a / 16)], State(1, a / 4 % 4))
    ensures Step(State(1, a / 4 % 4), a % 4 * 16 + low) == ([HexChar(a % 16)], State(2, low))
  {
    var w := a % 4 * 16 + low;
    assert a / 4 / 4 == a / 16 && a / 4 % 4 * 4 + w / 16 == a % 16 && w % 16 == low;
  }

  /** ... the third completes the second byte, ... */
  lemma SecondByte(b: byte, low: nat, rest: string)
    requires low < 4
    ensures Rest(State(2, b / 16), [B64Char(b % 16 * 4 + low)] + rest)
         == Prepend([HexChar(b / 16), HexChar(b % 16)], Rest(State(3, low), rest))
  {
    var v := b % 16 * 4 + low;
    SecondDigits(b, low);
    hide Step, HexChar;
    RestOfChar(State(2, b / 16), v, rest);
  }

  lemma SecondDigits(b: byte, low: nat)
    requires low < 4
    ensures Step(State(2, b / 16), b % 16 * 4 + low) == ([HexChar(b / 16), HexChar(b % 16)], State(3, low))
  {
    assert (b % 16 * 4 + low) / 4 == b % 16 && (b % 16 * 4 + low) % 4 == low;
  }

  /** ... and the fourth the third. */
  lemma ThirdByte(d: byte, rest: string)
    ensures Rest(State(3, d / 64), [B64Char(d % 64)] + rest)
         == Prepend([HexChar(d / 16), HexChar(d % 16)], Rest(State(0, d / 64), rest))
  {
    ThirdDigits(d);
    hide Step, HexChar;
    RestOfChar(State(3, d / 64), d % 64, rest);
  }

  lemma ThirdDigits(d: byte)
    ensures Step(State(3, d / 64), d % 64) == ([HexChar(d / 16), HexChar(d % 16)], State(0, d / 64))
  {
    assert d / 64 * 4 + d % 64 / 16 == d / 16 && d % 64 % 16 == d % 16;
  }

  /** For every byte string, converting its padded base64 gives its hexadecimal. */
  lemma {:induction false} HexOfEncoded(data: seq<byte>, c: nat)
    ensures Rest(State(0, c), Encode(data)) == Some(Hex(data))
    decreases |data|
  {
    hide Rest;
    if data == [] {
      RestOfNothing(c);
    } else if |data| == 1 {
      FirstByte(c, data[0], 0, "==");
      RestOfPad(State(2, 0));
      HexOne(data[0]);
      assert data == [data[0]];
    } else if |data| == 2 {
      var tail := [B64Char(data[1] % 16 * 4)] + "=";
      FirstByte(c, data[0], data[1] / 16, tail);
      SecondByte(data[1], 0, "=");
      RestOfPad(State(3, 0));
      HexTwo(data[0], data[1]);
      assert data == [data[0], data[1]];
      assert Encode(data) == [B64Char(data[0] / 4), B64Char(data[0] % 4 * 16 + data[1] / 16)] + tail;
    } else {
      HexOfTriple(data, c);
    }
  }

  lemma RestOfNothing(c: nat)
    ensures Rest(State(0, c), "") == Some("")
  {
  }

  lemma HexOne(a: byte)
    ensures Hex([a]) == [HexChar(a / 16), HexChar(a % 16)]
  {
    assert [a][1..] == [];
  }

  lemma HexTwo(a: byte, b: byte)
    ensures Hex([a, b]) == [HexChar(a / 16), HexChar(a % 16)] + [HexChar(b / 16), HexChar(b % 16)]
  {
    assert [a, b][1..] == [b];
    HexOne(b);
  }

  lemma HexThree(data: seq<byte>)
    requires |data| >= 3
    ensures Hex(data) == [HexChar(data[0] / 16), HexChar(data[0] % 16)]
      + ([HexChar(data[1] / 16), HexChar(data[1] % 16)] + ([HexChar(data[2] / 16), HexChar(data[2] % 16)] + Hex(data[3..])))
  {
    HexStep(data);
    HexStep(data[1..]);
    HexStep(data[2..]);
    assert data[1..][1..] == data[2..] && data[2..][1..] == data[3..];
  }

  lemma HexStep(data: seq<byte>)
    requires data != []
    ensures Hex(data) == [HexChar(data[0] / 16), HexChar(data[0] % 16)] + Hex(data[1..])
  {
  }

  lemma HexOfTriple(data: seq<byte>, c: nat)
    requires |data| >= 3
    ensures Rest(State(0, c), Encode(data)) == Some(Hex(data))
    decreases |data|, 0
  {
    hide Rest, Hex;
    var more := Encode(data[3..]);
    var third := [B64Char(data[2] % 64)] + more;
    var second := [B64Char(data[1] % 16 * 4 + data[2] / 64)] + third;
    assert Encode(data) == [B64Char(data[0] / 4), B64Char(data[0] % 4 * 16 + data[1] / 16)] + second;
    FirstByte(c, data[0], data[1] / 16, second);
    SecondByte(data[1], data[2] / 64, third);
    ThirdByte(data[2], more);
    HexOfEncoded(data[3..], data[2] / 64);
    HexThree(data);
  }
}
