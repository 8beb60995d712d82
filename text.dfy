/**
 * String helpers shared by the catalog filters, the key-combination
 * tokenizer, the quiz timer display, the note editor and the endpoint
 * dispatcher: ASCII lower-casing, JavaScript's `includes`, the white-space
 * class used by `\s` and `trim`, decimal printing of a non-negative
 * integer and JavaScript's `parseInt` with no radix.
 */
module Text {

  import opened Wrappers

  /** The white-space and line-terminator characters that `\s` and `trim` recognise. */
  predicate IsSpace(c: char)
  {
    || c == ' ' || c == '\t' || c == '\n' || c == '\r'
    || c == '\U{000B}' || c == '\U{000C}' || c == '\U{00A0}' || c == '\U{1680}'
    || ('\U{2000}' <= c <= '\U{200A}')
    || c == '\U{2028}' || c == '\U{2029}' || c == '\U{202F}' || c == '\U{205F}'
    || c == '\U{3000}' || c == '\U{FEFF}'
  }

  predicate IsDigit(c: char)
  {
    '0' <= c <= '9'
  }

  function LowerChar(c: char): char
  {
    if 'A' <= c <= 'Z' then (c as int + 32) as char else c
  }

  /** `toLowerCase`, restricted to the ASCII letters. */
  function Lower(s: string): string
  {
    seq(|s|, i requires 0 <= i < |s| => LowerChar(s[i]))
  }

  lemma LowerIdempotent(s: string)
    ensures Lower(Lower(s)) == Lower(s)
  {
    assert forall i :: 0 <= i < |s| ==> LowerChar(LowerChar(s[i])) == LowerChar(s[i]);
  }

  predicate StartsWith(s: string, p: string)
  {
    |p| <= |s| && s[..|p|] == p
  }

  /** JavaScript's `s.includes(p)`: `p` occurs in `s` at some position. */
  predicate Includes(s: string, p: string)
    decreases |s|
  {
    StartsWith(s, p) || (|s| > 0 && Includes(s[1..], p))
  }

  /** `p` occurs in `s` starting at index `i`. */
  predicate OccursAt(s: string, p: string, i: int)
  {
    0 <= i && i + |p| <= |s| && s[i..i + |p|] == p
  }

  /** `Includes` agrees with the positional definition of a substring. */
  lemma {:induction false} IncludesAt(s: string, p: string)
    ensures Includes(s, p) <==> exists i :: OccursAt(s, p, i)
  {
    if StartsWith(s, p) {
      assert OccursAt(s, p, 0);
    } else if |s| > 0 {
      IncludesAt(s[1..], p);
      if Includes(s[1..], p) {
        var i :| OccursAt(s[1..], p, i);
        assert s[1..][i..i + |p|] == s[i + 1..i + 1 + |p|];
        assert OccursAt(s, p, i + 1);
      } else {
        forall i ensures !OccursAt(s, p, i) {
          if 0 < i && i + |p| <= |s| {
            assert s[i..i + |p|] == s[1..][i - 1..i - 1 + |p|];
            assert !OccursAt(s[1..], p, i - 1);
          }
        }
      }
    } else {
      forall i ensures !OccursAt(s, p, i) {
      }
    }
  }

  lemma IncludesEmpty(s: string)
    ensures Includes(s, "")
  {
    assert StartsWith(s, "");
  }

  /** `trim`: drops leading and trailing white space. */
  function TrimStart(s: string): string
  {
    if s != [] && IsSpace(s[0]) then TrimStart(s[1..]) else s
  }

  /** `trimStart` drops exactly the leading white space: what is left is a suffix that starts with none. */
  lemma {:induction false} TrimStartSpec(s: string)
    ensures var r := TrimStart(s);
      && |r| <= |s| && r == s[|s| - |r|..]
      && (r == [] || !IsSpace(r[0]))
      && forall i :: 0 <= i < |s| - |r| ==> IsSpace(s[i])
  {
    if s != [] && IsSpace(s[0]) {
      TrimStartSpec(s[1..]);
      var r := TrimStart(s[1..]);
      assert s[1..][|s| - 1 - |r|..] == s[|s| - |r|..];
      forall i | 0 < i < |s| - |r| ensures IsSpace(s[i]) {
        assert s[i] == s[1..][i - 1];
      }
    }
  }

  function TrimEnd(s: string): (r: string)
    ensures |r| <= |s| && r == s[..|r|]
    ensures r == [] || !IsSpace(r[|r| - 1])
    ensures forall i :: |r| <= i < |s| ==> IsSpace(s[i])
  {
    if s != [] && IsSpace(s[|s| - 1]) then TrimEnd(s[..|s| - 1]) else s
  }

  function Trim(s: string): string
  {
    TrimEnd(TrimStart(s))
  }

  /** The trimmed text is empty exactly when every character is white space. */
  lemma TrimEmptyIffBlank(s: string)
    ensures Trim(s) == [] <==> forall i :: 0 <= i < |s| ==> IsSpace(s[i])
  {
    TrimStartSpec(s);
    var t := TrimStart(s);
    if Trim(s) == [] {
      assert t == [];
    } else {
      var r := Trim(s);
      assert r[0] == t[0];
      assert t[0] == s[|s| - |t|];
    }
  }

  function DigitChar(d: nat): (c: char)
    requires d < 10
    ensures IsDigit(c)
  {
    ('0' as int + d) as char
  }

  function DigitValue(c: char): nat
    requires IsDigit(c)
  {
    c as int - '0' as int
  }

  /** The decimal text JavaScript prints for a non-negative integer. */
  function NatToString(n: nat): (r: string)
    ensures |r| >= 1
    ensures forall i :: 0 <= i < |r| ==> IsDigit(r[i])
    ensures (|r| == 1) == (n < 10)
    ensures |r| > 1 ==> r[0] != '0'
  {
    if n < 10 then [DigitChar(n)] else NatToString(n / 10) + [DigitChar(n % 10)]
  }

  predicate AllDigits(s: string)
  {
    forall i :: 0 <= i < |s| ==> IsDigit(s[i])
  }

  /** The value of a string of decimal digits. */
  function DigitsValue(s: string): nat
    requires AllDigits(s)
  {
    if s == [] then 0 else DigitsValue(s[..|s| - 1]) * 10 + DigitValue(s[|s| - 1])
  }

  lemma {:induction false} NatToStringValue(n: nat)
    ensures DigitsValue(NatToString(n)) == n
  {
    var r := NatToString(n);
    if n >= 10 {
      NatToStringValue(n / 10);
      assert r[..|r| - 1] == NatToString(n / 10);
    }
  }

  /** `s.padStart(2, '0')`. */
  function PadStart2(s: string): (r: string)
    ensures |s| < 2 ==> |r| == 2 && r[2 - |s|..] == s && forall i :: 0 <= i < 2 - |s| ==> r[i] == '0'
    ensures |s| >= 2 ==> r == s
  {
    if |s| == 0 then "00" else if |s| == 1 then "0" + s else s
  }

  lemma PadZeroValue(s: string)
    requires AllDigits(s) && |s| == 1
    ensures AllDigits("0" + s) && DigitsValue("0" + s) == DigitsValue(s)
  {
    var t := "0" + s;
    assert t[..1] == "0";
    assert DigitsValue(t[..1]) == 0 by {
      assert t[..1][..0] == [];
    }
  }

  /** Length of the longest prefix of `s` made of decimal digits. */
  function DigitPrefixLength(s: string): (n: nat)
    ensures n <= |s| && AllDigits(s[..n])
    ensures n < |s| ==> !IsDigit(s[n])
  {
    if s != [] && IsDigit(s[0]) then
      var k := DigitPrefixLength(s[1..]);
      assert s[..k + 1] == [s[0]] + s[1..][..k];
      k + 1
    else 0
  }

  function SkipSpaces(s: string): string
  {
    TrimStart(s)
  }

  predicate IsHexDigit(c: char)
  {
    IsDigit(c) || 'a' <= c <= 'f' || 'A' <= c <= 'F'
  }

  function HexDigitValue(c: char): (d: nat)
    requires IsHexDigit(c)
    ensures d < 16
  {
    if IsDigit(c) then DigitValue(c)
    else if 'a' <= c <= 'f' then c as int - 'a' as int + 10
    else c as int - 'A' as int + 10
  }

  predicate AllHexDigits(s: string)
  {
    forall i :: 0 <= i < |s| ==> IsHexDigit(s[i])
  }

  /** The value of a string of hexadecimal digits, of either case. */
  function HexValue(s: string): nat
    requires AllHexDigits(s)
  {
    if s == [] then 0 else HexValue(s[..|s| - 1]) * 16 + HexDigitValue(s[|s| - 1])
  }

  /** Length of the longest prefix of `s` made of hexadecimal digits. */
  function HexPrefixLength(s: string): (n: nat)
    ensures n <= |s| && AllHexDigits(s[..n])
    ensures n < |s| ==> !IsHexDigit(s[n])
  {
    if s != [] && IsHexDigit(s[0]) then
      var k := HexPrefixLength(s[1..]);
      assert s[..k + 1] == [s[0]] + s[1..][..k];
      k + 1
    else 0
  }

  /** The text `parseInt` reads digits from: leading white space and one sign skipped. */
  function Unsigned(s: string): string
  {
    var t := SkipSpaces(s);
    if t != [] && (t[0] == '-' || t[0] == '+') then t[1..] else t
  }

  /** The sign `parseInt` reads is a minus. */
  predicate Negative(s: string)
  {
    SkipSpaces(s) != [] && SkipSpaces(s)[0] == '-'
  }

  /** `0x` or `0X`: with no radix given, `parseInt` then reads hexadecimal. */
  predicate HasHexPrefix(u: string)
  {
    |u| >= 2 && u[0] == '0' && (u[1] == 'x' || u[1] == 'X')
  }

  /** The value of the longest run of decimal digits at the start of `u`; None when there is none. */
  function DigitRun(u: string): Option<nat>
  {
    var n := DigitPrefixLength(u);
    if n == 0 then None else Some(DigitsValue(u[..n]))
  }

  /** The value of the longest run of hexadecimal digits at the start of `h`; None when there is none. */
  function HexRun(h: string): Option<nat>
  {
    var n := HexPrefixLength(h);
    if n == 0 then None else Some(HexValue(h[..n]))
  }

  /** The digits after the sign: hexadecimal after a `0x` or `0X` prefix, decimal otherwise. */
  function UnsignedValue(u: string): Option<nat>
  {
    if HasHexPrefix(u) then HexRun(u[2..]) else DigitRun(u)
  }

  function Signed(v: Option<nat>, negative: bool): Option<int>
  {
    match v
    case None => None
    case Some(m) => var k: int := m; Some(if negative then -k else k)
  }

  /**
   * `parseInt(s)` with no radix: leading white space is skipped and an
   * optional sign is read; after a `0x` or `0X` prefix the longest run of
   * hexadecimal digits is read, otherwise the longest run of decimal
   * digits. No digits gives NaN, written None.
   */
  function ParseInt(s: string): Option<int>
  {
    Signed(UnsignedValue(Unsigned(s)), Negative(s))
  }

  /**
   * `parseInt` gives NaN exactly when no digit of the base follows the
   * sign (and the `0x` prefix); otherwise the result has the sign read.
   */
  lemma ParseIntSpec(s: string)
    ensures var u := Unsigned(s);
      ParseInt(s).None? <==> if HasHexPrefix(u) then |u| == 2 || !IsHexDigit(u[2]) else u == [] || !IsDigit(u[0])
    ensures ParseInt(s).Some? && Negative(s) ==> ParseInt(s).value <= 0
    ensures ParseInt(s).Some? && !Negative(s) ==> ParseInt(s).value >= 0
  {
  }

  /** `parseInt("0x10")` is 16. */
  lemma ParseIntHexExample()
    ensures ParseInt("0x10") == Some(16)
  {
    var h := "10";
    assert HexValue(h) == 16 by {
      assert h[..1] == "1" && h[..1][..0] == [];
    }
    assert "" + (['0', 'x'] + h) == "0x10";
    ParseIntHex(h, "", 'x');
  }

  /** Hexadecimal digits after `0x` or `0X`, with an optional sign, are read in base 16. */
  lemma ParseIntHex(h: string, sign: string, x: char)
    requires h != [] && AllHexDigits(h)
    requires sign == "" || sign == "-" || sign == "+"
    requires x == 'x' || x == 'X'
    ensures var v: int := HexValue(h); ParseInt(sign + (['0', x] + h)) == Some(if sign == "-" then -v else v)
  {
    var u := ['0', x] + h;
    UnsignedAfterSign(sign, u);
    UnsignedValueOfHex(h, x);
    ParseIntOfParts(sign + u, u, sign == "-");
  }

  lemma UnsignedValueOfHex(h: string, x: char)
    requires h != [] && AllHexDigits(h)
    requires x == 'x' || x == 'X'
    ensures UnsignedValue(['0', x] + h) == Some(HexValue(h))
  {
    var u := ['0', x] + h;
    assert HasHexPrefix(u) && u[2..] == h;
    HexRunAll(h);
  }

  lemma HexRunAll(h: string)
    requires h != [] && AllHexDigits(h)
    ensures HexRun(h) == Some(HexValue(h))
  {
    HexPrefixAll(h);
    assert h[..|h|] == h;
  }

  lemma DigitRunAll(d: string)
    requires d != [] && AllDigits(d)
    ensures DigitRun(d) == Some(DigitsValue(d))
  {
    DigitPrefixAll(d);
    assert d[..|d|] == d;
  }

  /** A sign written before text that starts with neither white space nor a sign is read and skipped. */
  lemma UnsignedAfterSign(sign: string, u: string)
    requires sign == "" || sign == "-" || sign == "+"
    requires u != [] && !IsSpace(u[0]) && u[0] != '-' && u[0] != '+'
    ensures Unsigned(sign + u) == u
    ensures Negative(sign + u) <==> sign == "-"
  {
    var s := sign + u;
    assert !IsSpace(s[0]);
    assert SkipSpaces(s) == s;
    if sign != "" {
      assert s[1..] == u;
    } else {
      assert s == u;
    }
  }

  lemma {:induction false} HexPrefixAll(s: string)
    requires AllHexDigits(s)
    ensures HexPrefixLength(s) == |s|
  {
    if s != [] {
      HexPrefixAll(s[1..]);
    }
  }

  /** `parseInt("0x")` finds no digit after the prefix: NaN, although `0` is a decimal digit. */
  lemma ParseIntBareHexPrefix()
    ensures ParseInt("0x") == None
  {
    UnsignedAfterSign("", "0x");
    assert "" + "0x" == "0x";
    assert "0x"[2..] == [];
  }

  /** Printing a non-negative integer and parsing it back gives the integer. */
  lemma ParseIntOfNatToString(n: nat)
    ensures ParseInt(NatToString(n)) == Some(n)
  {
    var r := NatToString(n);
    UnsignedAfterSign("", r);
    assert "" + r == r;
    assert !HasHexPrefix(r) by {
      if |r| >= 2 {
        assert IsDigit(r[1]);
      }
    }
    DigitRunAll(r);
    NatToStringValue(n);
  }

  /** Printing a positive integer after a minus sign and parsing it back gives its negation. */
  lemma ParseIntOfNegated(n: nat)
    requires n > 0
    ensures ParseInt("-" + NatToString(n)) == Some(-(n as int))
  {
    var d := NatToString(n);
    UnsignedAfterSign("-", d);
    UnsignedValueOfNatToString(n);
    ParseIntOfParts("-" + d, d, true);
  }

  lemma UnsignedValueOfNatToString(n: nat)
    ensures UnsignedValue(NatToString(n)) == Some(n)
  {
    var d := NatToString(n);
    assert !HasHexPrefix(d) by {
      if |d| >= 2 {
        assert IsDigit(d[1]);
      }
    }
    DigitRunAll(d);
    NatToStringValue(n);
  }

  /** `parseInt` is the signed value of the digits after the sign. */
  lemma ParseIntOfParts(s: string, u: string, negative: bool)
    requires Unsigned(s) == u && (Negative(s) <==> negative)
    ensures ParseInt(s) == Signed(UnsignedValue(u), negative)
  {
  }

  /** Text that starts with neither white space, a sign nor a digit is NaN. */
  lemma ParseIntNoDigit(s: string)
    requires s != [] && !IsSpace(s[0]) && s[0] != '-' && s[0] != '+' && !IsDigit(s[0])
    ensures ParseInt(s) == None
  {
    UnsignedAfterSign("", s);
    assert "" + s == s;
  }

  lemma {:induction false} DigitPrefixAll(s: string)
    requires AllDigits(s)
    ensures DigitPrefixLength(s) == |s|
  {
    if s != [] {
      DigitPrefixAll(s[1..]);
    }
  }

  /**
   * JavaScript's `<=` on strings: code-unit-wise lexicographic order,
   * a proper prefix coming first.
   */
  predicate LexLe(a: string, b: string)
    decreases |a|
  {
    a == [] || (b != [] && (a[0] < b[0] || (a[0] == b[0] && LexLe(a[1..], b[1..]))))
  }

  lemma {:induction false} LexLeRefl(a: string)
    ensures LexLe(a, a)
    decreases |a|
  {
    if a != [] {
      LexLeRefl(a[1..]);
    }
  }

  /** Any two strings are ordered one way or the other. */
  lemma {:induction false} LexLeTotal(a: string, b: string)
    ensures LexLe(a, b) || LexLe(b, a)
    decreases |a|
  {
    if a != [] && b != [] && a[0] == b[0] {
      LexLeTotal(a[1..], b[1..]);
    }
  }

  lemma {:induction false} LexLeTrans(a: string, b: string, c: string)
    requires LexLe(a, b) && LexLe(b, c)
    ensures LexLe(a, c)
    decreases |a|
  {
    if a != [] && a[0] == b[0] && b[0] == c[0] {
      LexLeTrans(a[1..], b[1..], c[1..]);
    }
  }

  /** Strings ordered both ways are equal. */
  lemma {:induction false} LexLeAntisymmetric(a: string, b: string)
    requires LexLe(a, b) && LexLe(b, a)
    ensures a == b
    decreases |a|
  {
    if a != [] {
      LexLeAntisymmetric(a[1..], b[1..]);
      assert a == [a[0]] + a[1..];
      assert b == [b[0]] + b[1..];
    }
  }
}
