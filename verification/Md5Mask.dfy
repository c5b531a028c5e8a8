/** The masking of MD5 digests in server answers: blocks of eight digits are swapped pairwise, digit i is
    combined with i by exclusive or, and the tenth digit is written from 'g' on. */
module Md5Mask {
  import opened Prelude
  import opened Numerals

  // ---- four bits ----

  /** Exclusive or of the lowest `k` bits. */
  function XorBits(a: nat, b: nat, k: nat): (x: nat)
    ensures x < Pow(2, k)
  {
    if k == 0 then 0 else 2 * XorBits(a / 2, b / 2, k - 1) + (a + b) % 2
  }

  lemma LowBit(y: nat, a: nat, b: nat)
    ensures var x := 2 * y + (a + b) % 2; x / 2 == y && (x + b) % 2 == a % 2
  {
  }

  lemma HalfBound(a: nat, p: nat)
    requires a < 2 * p
    ensures a / 2 < p && 2 * (a / 2) + a % 2 == a
  {
  }

  lemma {:induction false} XorBitsTwice(a: nat, b: nat, k: nat)
    requires a < Pow(2, k)
    ensures XorBits(XorBits(a, b, k), b, k) == a
  {
    if k > 0 {
      var y := XorBits(a / 2, b / 2, k - 1);
      HalfBound(a, Pow(2, k - 1));
      LowBit(y, a, b);
      XorBitsTwice(a / 2, b / 2, k - 1);
    }
  }

  lemma SixteenIsPow()
    ensures Pow(2, 4) == 16
  {
    assert Pow(2, 2) == 4;
  }

  /** Exclusive or of two numbers below 16. */
  function Xor(a: nat, b: nat): (x: nat)
    requires a < 16 && b < 16
    ensures x < 16
  {
    SixteenIsPow();
    XorBits(a, b, 4)
  }

  /** Bit `j` of a number. */
  function Bit(n: nat, j: nat): nat {
    if j == 0 then n % 2 else Bit(n / 2, j - 1)
  }

  /** Bit by bit: one exactly where the two differ. */
  lemma {:induction false} XorBitsAre(a: nat, b: nat, k: nat, j: nat)
    requires j < k
    ensures Bit(XorBits(a, b, k), j) == if Bit(a, j) == Bit(b, j) then 0 else 1
  {
    var y := XorBits(a / 2, b / 2, k - 1);
    LowBit(y, a, b);
    if j > 0 { XorBitsAre(a / 2, b / 2, k - 1, j - 1); }
  }

  lemma XorIs(a: nat, b: nat, j: nat)
    requires a < 16 && b < 16 && j < 4
    ensures Bit(Xor(a, b), j) == if Bit(a, j) == Bit(b, j) then 0 else 1
  {
    XorBitsAre(a, b, 4, j);
  }

  lemma XorTwice(a: nat, b: nat)
    requires a < 16 && b < 16
    ensures Xor(Xor(a, b), b) == a
  {
    SixteenIsPow();
    XorBitsTwice(a, b, 4);
  }

  /** Exclusive or of a Go integer with a number below 16: the higher bits stay. */
  function XorInt(n: int, b: nat): int
    requires b < 16
  {
    n / 16 * 16 + Xor(n % 16, b)
  }

  function FormatHex(n: int): (s: string)
    ensures 0 <= n < 16 ==> |s| == 1 && IsLowerHex(s[0]) && DigitValue(s[0]) == n
  {
    if n >= 0 then Print(16, n) else "-" + Print(16, -n)
  }

  /** strconv.ParseInt of one character in base 16, the error ignored: zero for anything else. */
  function HexDigit(c: char): (n: nat)
    ensures n < 16
  {
    if IsHexDigit(c) then HexValue(c) else 0
  }

  // ---- what the two functions compute ----

  predicate IsMd5(s: string) {
    |s| == 32 && forall i :: 0 <= i < 32 ==> IsLowerHex(s[i])
  }

  /** A masked digest: lower-case hexadecimal but for the tenth character, which is one of g to v. */
  predicate IsMasked(s: string) {
    |s| == 32 && forall i :: 0 <= i < 32 ==> if i == 9 then 'g' <= s[i] <= 'v' else IsLowerHex(s[i])
  }

  function Swap(s: string): (r: string)
    requires |s| >= 32
    ensures |r| == 32
  {
    s[8..16] + s[..8] + s[24..32] + s[16..24]
  }

  lemma SwapTwice(s: string)
    requires |s| == 32
    ensures Swap(Swap(s)) == s
  {
    var t := Swap(s);
    assert t[..8] == s[8..16] && t[8..16] == s[..8] && t[16..24] == s[24..32] && t[24..32] == s[16..24];
    assert s == s[..8] + s[8..16] + s[16..24] + s[24..32];
  }

  function MaskDigit(i: nat, c: char): string {
    var n := Xor(HexDigit(c), i % 16);
    if i == 9 then [n as char + 'g'] else FormatHex(n)
  }

  function Mask(s: string, k: nat): string
    requires k <= |s|
  {
    if k == 0 then "" else Mask(s, k - 1) + MaskDigit(k - 1, s[k - 1])
  }

  /** unicode.ToLower on one byte, read as a Latin-1 character. */
  function ToLower(c: char): char {
    if 'A' <= c <= 'Z' || (0xC0 as char <= c <= 0xDE as char && c != 0xD7 as char) then c + 32 as char else c
  }

  function UnmaskDigit(i: nat, c: char): string {
    FormatHex(XorInt(if i == 9 then ToLower(c) as int - 'g' as int else HexDigit(c), i % 16))
  }

  function Unmask(s: string, k: nat): string
    requires k <= |s|
  {
    if k == 0 then "" else Unmask(s, k - 1) + UnmaskDigit(k - 1, s[k - 1])
  }

  /** hex.DecodeString succeeds. */
  predicate Decodes(s: string) {
    |s| % 2 == 0 && forall i :: 0 <= i < |s| ==> IsHexDigit(s[i])
  }

  /** Digits and the letters from a to f, in either case, and an even number of them. */
  lemma DecodesExactly(s: string)
    ensures Decodes(s) <==> |s| % 2 == 0 && forall i :: 0 <= i < |s| ==> s[i] in "0123456789abcdefABCDEF"
  {
  }

  /** The number it was made from reads back. */
  lemma FormatHexReads(n: int)
    ensures n >= 0 ==> AllBase36(FormatHex(n)) && Value(16, FormatHex(n)) == n
    ensures n < 0 ==> FormatHex(n) == "-" + FormatHex(-n)
  {
    if n >= 0 { ValueOfPrint(16, n); }
  }

  /** Only the lowest four bits are combined, of negative numbers as well. */
  lemma XorIntIs(n: int, b: nat)
    requires b < 16
    ensures XorInt(n, b) % 16 == Xor(n % 16, b) && XorInt(n, b) / 16 == n / 16
  {
    hide Xor;
  }

  /** What is no digit counts as zero; the tenth character may be a capital. */
  lemma UnmaskOfAny(i: nat, c: char)
    ensures i != 9 && c !in "0123456789abcdefABCDEF" ==> UnmaskDigit(i, c) == FormatHex(i % 16)
    ensures i == 9 && ('A' <= c <= 'Z' || (0xC0 as char <= c <= 0xDE as char && c != 0xD7 as char)) ==>
      UnmaskDigit(i, c) == UnmaskDigit(i, c + 32 as char)
    ensures i == 9 && 'g' <= c <= 'v' ==> UnmaskDigit(i, c) == FormatHex(Xor(c as int - 'g' as int, 9))
  {
    hide FormatHex, XorInt, Xor;
    if i == 9 {
      assert 9 % 16 == 9;
      if 'g' <= c <= 'v' { XorSmall(c as int - 'g' as int, 9); }
    } else if c !in "0123456789abcdefABCDEF" {
      XorSmall(0, i % 16);
      XorOfZero(i % 16);
    }
  }

  lemma XorOfZero(b: nat)
    requires b < 16
    ensures Xor(0, b) == b
  {
    SixteenIsPow();
    XorBitsOfZero(b, 4);
  }

  lemma {:induction false} XorBitsOfZero(b: nat, k: nat)
    requires b < Pow(2, k)
    ensures XorBits(0, b, k) == b
  {
    if k > 0 {
      HalfBound(b, Pow(2, k - 1));
      XorBitsOfZero(b / 2, k - 1);
    }
  }

  // ---- the code ----

  /** EncryptMd5; shorter input would be sliced out of range. */
  method EncryptMd5(originalMd5: string) returns (r: string)
    requires |originalMd5| >= 32
    ensures r == Mask(Swap(originalMd5), 32)
  {
    var reversed := originalMd5[8..16] + originalMd5[..8] + originalMd5[24..32] + originalMd5[16..24];
    r := "";
    for i := 0 to |reversed|
      invariant r == Mask(reversed, i)
    {
      var n := Xor(HexDigit(reversed[i]), i % 16);
      if i == 9 {
        r := r + [n as char + 'g'];
      } else {
        r := r + FormatHex(n);
      }
    }
  }

  /** DecryptMd5; None where the code would slice out of range. */
  method DecryptMd5(encryptMd5: string) returns (r: Option<string>)
    ensures r == Decrypted(encryptMd5)
  {
    if Decodes(encryptMd5) {
      return Some(encryptMd5);
    }
    var out := "";
    for i := 0 to |encryptMd5|
      invariant out == Unmask(encryptMd5, i)
    {
      var n: int;
      if i == 9 {
        n := ToLower(encryptMd5[i]) as int - 'g' as int;
      } else {
        n := HexDigit(encryptMd5[i]);
      }
      out := out + FormatHex(XorInt(n, i % 16));
    }
    if |out| < 32 {
      return None;
    }
    r := Some(out[8..16] + out[..8] + out[24..32] + out[16..24]);
  }

  function Encrypted(s: string): string
    requires |s| >= 32
  {
    Mask(Swap(s), 32)
  }

  function Decrypted(s: string): Option<string> {
    if Decodes(s) then Some(s)
    else
      var out := Unmask(s, |s|);
      if |out| < 32 then None else Some(Swap(out))
  }

  // ---- one digit ----

  lemma FormatDigit(n: nat)
    requires n < 16
    ensures FormatHex(n) == [DigitChar(n)] && IsLowerHex(DigitChar(n)) && HexDigit(DigitChar(n)) == n
  {
  }

  lemma DigitOfHex(c: char)
    requires IsLowerHex(c)
    ensures DigitChar(HexDigit(c)) == c
  {
  }

  lemma XorSmall(n: int, b: nat)
    requires 0 <= n < 16 && b < 16
    ensures XorInt(n, b) == Xor(n, b)
  {
    assert n / 16 == 0 && n % 16 == n;
  }

  lemma MaskDigitShape(i: nat, c: char)
    requires i < 32 && IsLowerHex(c)
    ensures |MaskDigit(i, c)| == 1
    ensures if i == 9 then 'g' <= MaskDigit(i, c)[0] <= 'v' else IsLowerHex(MaskDigit(i, c)[0])
    ensures UnmaskDigit(i, MaskDigit(i, c)[0]) == [c]
  {
    hide Xor, XorInt, FormatHex, HexDigit, DigitChar;
    var n, k := HexDigit(c), i % 16;
    var x := Xor(n, k);
    XorTwice(n, k);
    XorSmall(x, k);
    FormatDigit(x);
    FormatDigit(n);
    DigitOfHex(c);
  }

  lemma UnmaskDigitShape(i: nat, c: char)
    requires i < 32 && if i == 9 then 'g' <= c <= 'v' else IsLowerHex(c)
    ensures |UnmaskDigit(i, c)| == 1 && IsLowerHex(UnmaskDigit(i, c)[0])
    ensures MaskDigit(i, UnmaskDigit(i, c)[0]) == [c]
  {
    hide Xor, XorInt, FormatHex, HexDigit, DigitChar;
    var n: nat, k := if i == 9 then c as int - 'g' as int else HexDigit(c), i % 16;
    var x := Xor(n, k);
    XorTwice(n, k);
    XorSmall(n, k);
    FormatDigit(x);
    FormatDigit(n);
    if i != 9 { DigitOfHex(c); }
  }

  // ---- whole digests ----

  lemma {:induction false} MaskShape(s: string, k: nat)
    requires IsMd5(s) && k <= 32
    ensures |Mask(s, k)| == k
    ensures forall i :: 0 <= i < k ==> |MaskDigit(i, s[i])| == 1 && Mask(s, k)[i] == MaskDigit(i, s[i])[0]
  {
    hide MaskDigit;
    if k > 0 {
      MaskShape(s, k - 1);
      MaskDigitShape(k - 1, s[k - 1]);
    }
  }

  lemma {:induction false} UnmaskShape(s: string, k: nat)
    requires IsMasked(s) && k <= 32
    ensures |Unmask(s, k)| == k
    ensures forall i :: 0 <= i < k ==> |UnmaskDigit(i, s[i])| == 1 && Unmask(s, k)[i] == UnmaskDigit(i, s[i])[0]
  {
    hide UnmaskDigit;
    if k > 0 {
      UnmaskShape(s, k - 1);
      UnmaskDigitShape(k - 1, s[k - 1]);
    }
  }

  lemma MaskOfMd5(s: string)
    requires IsMd5(s)
    ensures IsMasked(Mask(s, 32)) && Unmask(Mask(s, 32), 32) == s
  {
    var e := Mask(s, 32);
    MaskShape(s, 32);
    forall i | 0 <= i < 32
      ensures if i == 9 then 'g' <= e[i] <= 'v' else IsLowerHex(e[i])
      ensures UnmaskDigit(i, e[i]) == [s[i]]
    {
      MaskDigitShape(i, s[i]);
    }
    hide MaskDigit, UnmaskDigit;
    UnmaskShape(e, 32);
  }

  lemma UnmaskOfMasked(e: string)
    requires IsMasked(e)
    ensures IsMd5(Unmask(e, 32)) && Mask(Unmask(e, 32), 32) == e
  {
    var s := Unmask(e, 32);
    UnmaskShape(e, 32);
    forall i | 0 <= i < 32
      ensures IsLowerHex(s[i]) && MaskDigit(i, s[i]) == [e[i]]
    {
      UnmaskDigitShape(i, e[i]);
    }
    hide MaskDigit, UnmaskDigit;
    MaskShape(s, 32);
  }

  lemma SwapMd5(s: string)
    requires IsMd5(s)
    ensures IsMd5(Swap(s))
  {
  }

  /** A masked digest never passes for plain hexadecimal. */
  lemma MaskedIsNotHex(e: string)
    requires IsMasked(e)
    ensures !Decodes(e)
  {
    assert !IsHexDigit(e[9]);
  }

  /** Decrypting what was encrypted gives the digest back. */
  lemma DecryptOfEncrypt(m: string)
    requires IsMd5(m)
    ensures IsMasked(Encrypted(m)) && Decrypted(Encrypted(m)) == Some(m)
  {
    SwapMd5(m);
    MaskOfMd5(Swap(m));
    MaskedIsNotHex(Encrypted(m));
    SwapTwice(m);
  }

  /** Encrypting what was decrypted gives the masked digest back. */
  lemma EncryptOfDecrypt(e: string)
    requires IsMasked(e)
    ensures Decrypted(e).Some? && IsMd5(Decrypted(e).value) && Encrypted(Decrypted(e).value) == e
  {
    UnmaskOfMasked(e);
    MaskedIsNotHex(e);
    var out := Unmask(e, 32);
    SwapMd5(out);
    SwapTwice(out);
  }

  /** A plain digest is left alone. */
  lemma PlainStays(m: string)
    requires IsMd5(m)
    ensures Decrypted(m) == Some(m)
  {
  }
}
