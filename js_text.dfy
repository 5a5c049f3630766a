/** The parts of JavaScript's string semantics that the product controller relies on:
    `String.prototype.trim`, `String.prototype.split` with a one-character separator,
    `Array.prototype.join`, and the global `parseInt` called without a radix
    (sections 22.1.3 and 19.2.5 of ECMA-262). */
module JsText {
  import opened Wrappers

  /** The WhiteSpace and LineTerminator code points of ECMA-262 (sections 12.2 and 12.3):
      the characters `trim` strips and `parseInt` skips. U+0009 to U+000D are tab, line feed,
      vertical tab, form feed and carriage return. */
  predicate IsWhiteSpace(c: char) {
    c in WhiteSpace
  }

  const WhiteSpace: set<char> := {
    '\U{9}', '\U{A}', '\U{B}', '\U{C}', '\U{D}', ' ', '\U{A0}', '\U{1680}',
    '\U{2000}', '\U{2001}', '\U{2002}', '\U{2003}', '\U{2004}', '\U{2005}', '\U{2006}',
    '\U{2007}', '\U{2008}', '\U{2009}', '\U{200A}', '\U{2028}', '\U{2029}', '\U{202F}',
    '\U{205F}', '\U{3000}', '\U{FEFF}'
  }

  /** `s` with its leading white space removed. */
  function TrimStart(s: string): (r: string)
    ensures |r| <= |s| && r == s[|s| - |r|..]
    ensures forall i :: 0 <= i < |s| - |r| ==> IsWhiteSpace(s[i])
    ensures r == [] || !IsWhiteSpace(r[0])
    decreases |s|
  {
    if s != [] && IsWhiteSpace(s[0]) then TrimStart(s[1..]) else s
  }

  /** `s` with its trailing white space removed. */
  function TrimEnd(s: string): (r: string)
    ensures |r| <= |s| && r == s[..|r|]
    ensures forall i :: |r| <= i < |s| ==> IsWhiteSpace(s[i])
    ensures r == [] || !IsWhiteSpace(r[|r| - 1])
    decreases |s|
  {
    if s != [] && IsWhiteSpace(s[|s| - 1]) then TrimEnd(s[..|s| - 1]) else s
  }

  /** `s.trim()`: the text of `s` between its leading and its trailing white space,
      which it neither begins nor ends with. */
  function Trim(s: string): (r: string)
    ensures var k := |s| - |TrimStart(s)|;
      && k + |r| <= |s| && r == s[k..k + |r|]
      && (forall i :: 0 <= i < k ==> IsWhiteSpace(s[i]))
      && (forall i :: k + |r| <= i < |s| ==> IsWhiteSpace(s[i]))
      && (r == [] || (!IsWhiteSpace(r[0]) && !IsWhiteSpace(r[|r| - 1])))
  {
    TrimSlice(s, TrimStart(s), TrimEnd(TrimStart(s)));
    TrimEnd(TrimStart(s))
  }

  /** The slice `trim` returns: `t` is `s` after its leading white space, and `r` is `t` before
      its trailing white space. */
  lemma {:induction false} TrimSlice(s: string, t: string, r: string)
    requires t == TrimStart(s) && r == TrimEnd(t)
    ensures |s| - |t| + |r| <= |s|
    ensures r == s[|s| - |t|..|s| - |t| + |r|]
    ensures forall i :: 0 <= i < |s| - |t| ==> IsWhiteSpace(s[i])
    ensures forall i :: |s| - |t| + |r| <= i < |s| ==> IsWhiteSpace(s[i])
    ensures r == [] || (!IsWhiteSpace(r[0]) && !IsWhiteSpace(r[|r| - 1]))
  {
    SliceOfSuffix(s, t, r);
    if r != [] {
      assert t != [] && !IsWhiteSpace(t[0]);
      assert r == t[..|r|];
      assert r[0] == t[0];
    }
  }

  /** A prefix `r` of a suffix `t` of `s` is a slice of `s`, and what `t` has after `r` is what
      `s` has after that slice. */
  lemma {:induction false} SliceOfSuffix(s: string, t: string, r: string)
    requires |t| <= |s| && t == s[|s| - |t|..]
    requires |r| <= |t| && r == t[..|r|]
    requires forall i :: |r| <= i < |t| ==> IsWhiteSpace(t[i])
    ensures var k := |s| - |t|;
      && r == s[k..k + |r|]
      && forall i :: k + |r| <= i < |s| ==> IsWhiteSpace(s[i])
  {
    var k := |s| - |t|;
    forall i | k + |r| <= i < |s|
      ensures IsWhiteSpace(s[i])
    {
      assert s[i] == t[i - k];
    }
  }

  /** Trimming twice is trimming once. */
  lemma TrimIdempotent(s: string)
    ensures Trim(Trim(s)) == Trim(s)
  {
    var r := Trim(s);
    assert TrimStart(r) == r;
    assert TrimEnd(r) == r;
  }

  /** A string that neither begins nor ends with white space is its own trim. */
  lemma TrimKeepsUnpadded(s: string)
    requires s == [] || (!IsWhiteSpace(s[0]) && !IsWhiteSpace(s[|s| - 1]))
    ensures Trim(s) == s
  {
    assert TrimStart(s) == s;
  }

  /** `s.split(sep)` for a one-character separator: the pieces of `s` between separators,
      in order; a string without separator (the empty string too) is one piece. */
  function Split(s: string, sep: char): (r: seq<string>)
    ensures |r| >= 1
    ensures forall i :: 0 <= i < |r| ==> sep !in r[i]
    decreases |s|
  {
    if s == [] then [[]]
    else
      var rest := Split(s[1..], sep);
      if s[0] == sep then [[]] + rest else [[s[0]] + rest[0]] + rest[1..]
  }

  /** `parts.join(sep)`. */
  function Join(parts: seq<string>, sep: char): string
    decreases |parts|
  {
    if parts == [] then []
    else if |parts| == 1 then parts[0]
    else parts[0] + [sep] + Join(parts[1..], sep)
  }

  lemma JoinConsChar(c: char, parts: seq<string>, sep: char)
    requires |parts| >= 1
    ensures Join([[c] + parts[0]] + parts[1..], sep) == [c] + Join(parts, sep)
  {
    var p := [[c] + parts[0]] + parts[1..];
    if |parts| > 1 {
      assert p[1..] == parts[1..];
    }
  }

  /** Joining the pieces of a split with the separator gives back the original string. */
  lemma {:induction false} SplitThenJoin(s: string, sep: char)
    ensures Join(Split(s, sep), sep) == s
    decreases |s|
  {
    if s != [] {
      var rest := Split(s[1..], sep);
      SplitThenJoin(s[1..], sep);
      assert s == [s[0]] + s[1..];
      if s[0] == sep {
        assert ([[]] + rest)[1..] == rest;
      } else {
        JoinConsChar(s[0], rest, sep);
      }
    }
  }

  lemma {:induction false} SplitWithoutSeparator(p: string, sep: char)
    requires sep !in p
    ensures Split(p, sep) == [p]
    decreases |p|
  {
    if p != [] {
      SplitWithoutSeparator(p[1..], sep);
      assert [p[0]] + p[1..] == p;
    }
  }

  lemma {:induction false} SplitAtSeparator(p: string, t: string, sep: char)
    requires sep !in p
    ensures Split(p + [sep] + t, sep) == [p] + Split(t, sep)
    decreases |p|
  {
    var s := p + [sep] + t;
    if p == [] {
      assert s[1..] == t;
    } else {
      assert s[1..] == p[1..] + [sep] + t;
      SplitAtSeparator(p[1..], t, sep);
      assert [p[0]] + p[1..] == p;
    }
  }

  /** Splitting a join of separator-free pieces gives back the pieces. */
  lemma {:induction false} JoinThenSplit(parts: seq<string>, sep: char)
    requires |parts| >= 1
    requires forall i :: 0 <= i < |parts| ==> sep !in parts[i]
    ensures Split(Join(parts, sep), sep) == parts
    decreases |parts|
  {
    if |parts| == 1 {
      SplitWithoutSeparator(parts[0], sep);
    } else {
      JoinThenSplit(parts[1..], sep);
      SplitAtSeparator(parts[0], Join(parts[1..], sep), sep);
      assert [parts[0]] + parts[1..] == parts;
    }
  }

  /** The value of a digit character in radix 36: '0'..'9', then 'a' or 'A' for 10 up to 'z' or 'Z' for 35. */
  function DigitValue(c: char): (d: Option<nat>)
    ensures d.Some? <==> ('0' <= c <= '9' || 'a' <= c <= 'z' || 'A' <= c <= 'Z')
    ensures d.Some? ==> d.value < 36
    ensures d.Some? && d.value < 10 <==> '0' <= c <= '9'
  {
    if '0' <= c <= '9' then Some(c as int - '0' as int)
    else if 'a' <= c <= 'z' then Some(c as int - 'a' as int + 10)
    else if 'A' <= c <= 'Z' then Some(c as int - 'A' as int + 10)
    else None
  }

  /** The digits of radix 36 in order of value, lower case and upper case. */
  const Digits36: string := "0123456789abcdefghijklmnopqrstuvwxyz"
  const UpperDigits36: string := "0123456789ABCDEFGHIJKLMNOPQRSTUVWXYZ"

  /** The k-th digit has the value k, in either case. */
  lemma DigitValueInOrder(k: nat)
    requires k < 36
    ensures |Digits36| == |UpperDigits36| == 36
    ensures DigitValue(Digits36[k]) == Some(k) && DigitValue(UpperDigits36[k]) == Some(k)
  {
    if k < 10 {
      assert Digits36[k] == UpperDigits36[k] == ('0' as int + k) as char;
    } else {
      assert Digits36[k] == ('a' as int + k - 10) as char;
      assert UpperDigits36[k] == ('A' as int + k - 10) as char;
    }
  }

  predicate IsDigit(c: char, radix: nat) {
    DigitValue(c).Some? && DigitValue(c).value < radix
  }

  /** The longest prefix of `s` made of digits of `radix`. */
  function DigitPrefix(s: string, radix: nat): (ds: string)
    ensures |ds| <= |s| && ds == s[..|ds|]
    ensures forall i :: 0 <= i < |ds| ==> IsDigit(ds[i], radix)
    ensures |ds| == |s| || !IsDigit(s[|ds|], radix)
    decreases |s|
  {
    if s != [] && IsDigit(s[0], radix) then [s[0]] + DigitPrefix(s[1..], radix) else []
  }

  /** The number a string of digits denotes in `radix`, most significant digit first. */
  function DigitsValue(ds: string, radix: nat): nat
    requires forall i :: 0 <= i < |ds| ==> IsDigit(ds[i], radix)
    decreases |ds|
  {
    if ds == [] then 0
    else
      var init, last := ds[..|ds| - 1], ds[|ds| - 1];
      assert IsDigit(last, radix);
      var high := DigitsValue(init, radix);
      ProductOfNaturals(high, radix);
      high * radix + DigitValue(last).value
  }

  /** Nonlinear sign fact that the solver does not find reliably on its own. */
  lemma ProductOfNaturals(a: nat, b: nat)
    ensures a * b >= 0
  {
  }

  /** `parseInt(s)` without a radix argument; None stands for NaN. Leading white space is
      skipped, one sign is read, and the rest is read by ParseMagnitude. It is a number exactly
      when what follows the white space and the sign is `Numeric`; every other text, such as
      "-abc1", "0x" or "", is NaN. */
  function ParseInt(s: string): (r: Option<int>)
    ensures r.Some? <==> Numeric(Unsigned(TrimStart(s)))
  {
    var t := TrimStart(s);
    MagnitudeDefinedIff(Unsigned(t));
    ParseSigned(t)
  }

  function ParseSigned(t: string): Option<int>
  {
    if t != [] && t[0] == '-' then
      match ParseMagnitude(t[1..])
      case None => None
      case Some(n) => Some(-(n as int))
    else if t != [] && t[0] == '+' then Widen(ParseMagnitude(t[1..]))
    else Widen(ParseMagnitude(t))
  }

  function Widen(n: Option<nat>): Option<int> {
    match n
    case None => None
    case Some(v) => Some(v)
  }

  /** The unsigned part of `parseInt`: a "0x" or "0X" prefix selects radix 16, otherwise the
      radix is 10; the longest run of digits that follows is the number, and no digit is NaN. */
  function ParseMagnitude(u: string): Option<nat>
  {
    if |u| >= 2 && u[0] == '0' && (u[1] == 'x' || u[1] == 'X') then LeadingNumber(u[2..], 16)
    else LeadingNumber(u, 10)
  }

  function LeadingNumber(u: string, radix: nat): Option<nat>
  {
    var ds := DigitPrefix(u, radix);
    if ds == [] then None else Some(DigitsValue(ds, radix))
  }

  /** The decimal numeral of a natural number, without leading zeros. */
  function NaturalText(n: nat): (r: string)
    ensures |r| >= 1
    ensures forall i :: 0 <= i < |r| ==> IsDigit(r[i], 10)
    decreases n
  {
    if n < 10 then [('0' as int + n) as char]
    else NaturalText(n / 10) + [('0' as int + n % 10) as char]
  }

  lemma {:induction false} NaturalTextValue(n: nat)
    ensures DigitsValue(NaturalText(n), 10) == n
    decreases n
  {
    if n >= 10 {
      NaturalTextValue(n / 10);
      var r := NaturalText(n);
      assert r[..|r| - 1] == NaturalText(n / 10);
    }
  }

  lemma {:induction false} DigitPrefixOfDigits(ds: string, rest: string, radix: nat)
    requires forall i :: 0 <= i < |ds| ==> IsDigit(ds[i], radix)
    requires rest == [] || !IsDigit(rest[0], radix)
    ensures DigitPrefix(ds + rest, radix) == ds
    decreases |ds|
  {
    if ds != [] {
      assert (ds + rest)[1..] == ds[1..] + rest;
      DigitPrefixOfDigits(ds[1..], rest, radix);
      assert [ds[0]] + ds[1..] == ds;
    }
  }

  lemma MagnitudeOfNatural(m: nat, rest: string)
    requires rest == [] || (!IsDigit(rest[0], 10) && (m == 0 ==> rest[0] != 'x' && rest[0] != 'X'))
    ensures ParseMagnitude(NaturalText(m) + rest) == Some(m)
  {
    var d := NaturalText(m);
    var u := d + rest;
    assert !(|u| >= 2 && u[0] == '0' && (u[1] == 'x' || u[1] == 'X')) by {
      if m == 0 {
        assert rest != [] ==> u[1] == rest[0];
      } else if m < 10 {
        assert u[0] == d[0] != '0';
      } else {
        assert u[1] == d[1] && IsDigit(d[1], 10);
      }
    }
    DigitPrefixOfDigits(d, rest, 10);
    NaturalTextValue(m);
  }

  /** A '-' right before what `parseInt` reads as a magnitude negates it. */
  lemma ParseIntOfNegative(u: string, m: nat)
    requires ParseMagnitude(u) == Some(m)
    ensures ParseInt("-" + u) == Some(-(m as int))
  {
    var s := "-" + u;
    assert s[0] == '-' && s[1..] == u;
    ParseIntOfUnpadded(s);
  }

  /** `parseInt` reads a decimal numeral back as its number and stops at the first character
      that cannot continue it: `parseInt("12abc")` and `parseInt("12x")` are 12. The one exception
      is an 'x' or 'X' right after a lone "0", which starts a hexadecimal numeral. */
  lemma ParseIntOfNatural(m: nat, rest: string)
    requires rest == [] || (!IsDigit(rest[0], 10) && (m == 0 ==> rest[0] != 'x' && rest[0] != 'X'))
    ensures ParseInt(NaturalText(m) + rest) == Some(m)
  {
    MagnitudeOfNatural(m, rest);
    var d := NaturalText(m);
    assert (d + rest)[0] == d[0];
    ParseIntOfUnsigned(d + rest, m);
  }

  /** A magnitude that starts with a decimal digit is read as it is. */
  lemma ParseIntOfUnsigned(u: string, m: nat)
    requires u != [] && IsDigit(u[0], 10) && ParseMagnitude(u) == Some(m)
    ensures ParseInt(u) == Some(m)
  {
    assert '0' <= u[0] <= '9';
    ParseIntOfUnpadded(u);
  }

  /** A "0x" prefix switches to radix 16, whose letter digits count from 10: "0x1A" is 26. */
  lemma ParseIntOfHex()
    ensures ParseInt("0x1A") == Some(26)
  {
    var s := "0x1A";
    ParseIntOfUnpadded(s);
    assert s[2..] == "1A";
    assert DigitPrefix("1A", 16) == "1A" by {
      DigitPrefixOfDigits("1A", [], 16);
    }
    assert DigitsValue("1A", 16) == 26 by {
      assert "1A"[..1] == "1";
      assert "1"[..0] == [];
    }
  }

  /** Without leading white space, `parseInt` starts at the sign. */
  lemma ParseIntOfUnpadded(s: string)
    requires s != [] && !IsWhiteSpace(s[0])
    ensures ParseInt(s) == ParseSigned(s)
  {
  }

  /** A string that starts with a character that is neither white space, a sign nor a decimal
      digit parses to NaN, e.g. "abc" or "top-trending". */
  lemma ParseIntOfNonNumeral(s: string)
    requires s != [] && !IsWhiteSpace(s[0]) && s[0] != '-' && s[0] != '+' && !IsDigit(s[0], 10)
    ensures ParseInt(s) == None
  {
    ParseIntOfUnpadded(s);
    MagnitudeWithoutDigit(s);
  }

  /** A string without any decimal digit parses to NaN: the "0x" prefix needs a '0' and a
      decimal numeral needs a digit. */
  lemma ParseIntWithoutDigits(s: string)
    requires forall i :: 0 <= i < |s| ==> !IsDigit(s[i], 10)
    ensures ParseInt(s) == None
  {
    var t := TrimStart(s);
    assert forall i :: 0 <= i < |t| ==> !IsDigit(t[i], 10) by {
      forall i | 0 <= i < |t| ensures !IsDigit(t[i], 10) {
        assert t[i] == s[|s| - |t| + i];
      }
    }
    if t != [] && (t[0] == '-' || t[0] == '+') {
      MagnitudeWithoutDigit(t[1..]);
    } else {
      MagnitudeWithoutDigit(t);
    }
  }

  lemma MagnitudeWithoutDigit(u: string)
    requires u == [] || !IsDigit(u[0], 10)
    ensures ParseMagnitude(u) == None
  {
    if u != [] {
      assert u[0] != '0';
      assert DigitPrefix(u, 10) == [];
    }
  }

  /** `t` without the one sign `parseInt` reads. */
  function Unsigned(t: string): string {
    if t != [] && (t[0] == '-' || t[0] == '+') then t[1..] else t
  }

  /** Whether `parseInt` reads a number from an unsigned text `u`: it starts with a decimal digit,
      and when it starts with "0x" or "0X" a hexadecimal digit follows. */
  predicate Numeric(u: string) {
    && u != [] && IsDigit(u[0], 10)
    && (|u| >= 2 && u[0] == '0' && (u[1] == 'x' || u[1] == 'X') ==> |u| > 2 && IsDigit(u[2], 16))
  }

  lemma MagnitudeDefinedIff(u: string)
    ensures ParseMagnitude(u).Some? <==> Numeric(u)
  {
    if |u| >= 2 && u[0] == '0' && (u[1] == 'x' || u[1] == 'X') {
      LeadingNumberDefinedIff(u[2..], 16);
      assert u[2..] != [] ==> u[2..][0] == u[2];
    } else {
      LeadingNumberDefinedIff(u, 10);
    }
  }

  lemma LeadingNumberDefinedIff(u: string, radix: nat)
    ensures LeadingNumber(u, radix).Some? <==> u != [] && IsDigit(u[0], radix)
  {
  }

  lemma {:induction false} TrimStartSkips(w: string, s: string)
    requires forall i :: 0 <= i < |w| ==> IsWhiteSpace(w[i])
    ensures TrimStart(w + s) == TrimStart(s)
    decreases |w|
  {
    if w != [] {
      assert (w + s)[0] == w[0] && (w + s)[1..] == w[1..] + s;
      TrimStartSkips(w[1..], s);
    } else {
      assert w + s == s;
    }
  }

  /** Leading white space does not change what `parseInt` reads. */
  lemma ParseIntSkipsWhiteSpace(w: string, s: string)
    requires forall i :: 0 <= i < |w| ==> IsWhiteSpace(w[i])
    ensures ParseInt(w + s) == ParseInt(s)
  {
    TrimStartSkips(w, s);
  }
}
