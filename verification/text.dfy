/** String operations the handlers rely on, written out: `trim`,
    ASCII `toLocaleLowerCase`, `startsWith`, `split(" ")[1]`,
    `split("@")[0]`, the default `Array.prototype.sort` order on strings,
    number-to-decimal rendering, and `parseInt` with radix 10 and with no
    radix. */
module Text {
  import opened Values

  /** The white-space and line-terminator characters `String.prototype.trim`
      and `parseInt` skip. */
  predicate IsSpace(c: char) {
    c == ' ' || c == '\t' || c == '\n' || c == '\r' || c == '\U{000B}' || c == '\U{000C}'
    || c == '\U{00A0}' || c == '\U{1680}' || ('\U{2000}' <= c <= '\U{200A}')
    || c == '\U{2028}' || c == '\U{2029}' || c == '\U{202F}' || c == '\U{205F}'
    || c == '\U{3000}' || c == '\U{FEFF}'
  }

  predicate NoSpace(s: string) {
    forall i :: 0 <= i < |s| ==> !IsSpace(s[i])
  }

  function TrimStart(s: string): (r: string)
    ensures |r| <= |s| && r == s[|s| - |r|..]
    ensures r == [] || !IsSpace(r[0])
    ensures NoSpace(s) ==> r == s
  {
    if |s| > 0 && IsSpace(s[0]) then TrimStart(s[1..]) else s
  }

  function TrimEnd(s: string): (r: string)
    ensures |r| <= |s| && r == s[..|r|]
    ensures r == [] || !IsSpace(r[|r| - 1])
    ensures NoSpace(s) ==> r == s
  {
    if |s| > 0 && IsSpace(s[|s| - 1]) then TrimEnd(s[..|s| - 1]) else s
  }

  /** `String.prototype.trim`. */
  function Trim(s: string): (r: string)
    ensures |r| <= |s|
    ensures r == [] || (!IsSpace(r[0]) && !IsSpace(r[|r| - 1]))
    ensures NoSpace(s) ==> r == s
  {
    TrimEnd(TrimStart(s))
  }

  /** Trimming twice trims once: a trimmed string has no white space at
      either end. */
  lemma TrimIdempotent(s: string)
    ensures Trim(Trim(s)) == Trim(s)
  {
    var r := Trim(s);
    assert TrimStart(r) == r;
    assert TrimEnd(r) == r;
  }

  function LowerChar(c: char): char {
    if 'A' <= c <= 'Z' then (c as int + 32) as char else c
  }

  /** `toLocaleLowerCase` on ASCII letters; every other character is kept. */
  function Lower(s: string): (r: string)
    ensures |r| == |s|
    ensures forall i :: 0 <= i < |s| ==> r[i] == LowerChar(s[i])
  {
    if s == [] then [] else [LowerChar(s[0])] + Lower(s[1..])
  }

  /** The `trim().toLocaleLowerCase()` normalisation applied to usernames. */
  function Normalize(s: string): string {
    Lower(Trim(s))
  }

  /** `s.startsWith(p)`. */
  predicate StartsWith(s: string, p: string) {
    |p| <= |s| && s[..|p|] == p
  }

  /** The index of the first occurrence of `c`, or `|s|` when there is none. */
  function IndexOf(s: string, c: char): (i: nat)
    ensures i <= |s|
    ensures i < |s| ==> s[i] == c
    ensures forall k :: 0 <= k < i ==> s[k] != c
  {
    if s == [] then 0 else if s[0] == c then 0 else 1 + IndexOf(s[1..], c)
  }

  /** `s.split(c)[0]`: the text before the first `c`, or all of `s`. */
  function BeforeFirst(s: string, c: char): (r: string)
    ensures c !in r
    ensures StartsWith(s, r)
    ensures |r| < |s| ==> s[|r|] == c
  {
    s[..IndexOf(s, c)]
  }

  /** `s.split(" ")[1]`: the text between the first and second space, or
      `undefined` when `s` has no space. */
  function SecondWord(s: string): (r: Option<string>)
    ensures r.None? <==> ' ' !in s
    ensures r.Some? ==> ' ' !in r.value
    ensures r.Some? ==> StartsWith(s, BeforeFirst(s, ' ') + " " + r.value)
  {
    var i := IndexOf(s, ' ');
    if i == |s| then None
    else
      var rest := s[i + 1..];
      var w := BeforeFirst(rest, ' ');
      assert s[..i] + " " + w == s[..i + 1 + |w|];
      Some(w)
  }

  /** In "scheme token" the second word is the token, whatever the scheme. */
  lemma SecondWordOfPair(scheme: string, token: string)
    requires ' ' !in scheme && ' ' !in token
    ensures SecondWord(scheme + " " + token) == Some(token)
  {
    var s := scheme + " " + token;
    var i := IndexOf(s, ' ');
    assert s[|scheme|] == ' ';
    assert forall k :: 0 <= k < |scheme| ==> s[k] == scheme[k];
    assert i == |scheme|;
    assert s[i + 1..] == token;
    assert BeforeFirst(token, ' ') == token by {
      assert IndexOf(token, ' ') == |token|;
    }
  }

  /** The UTF-16 code units of one character: the character itself below
      U+10000, a surrogate pair above. */
  function Units(c: char): (u: seq<int>)
    ensures 1 <= |u| <= 2
  {
    var n := c as int;
    if n < 0x10000 then [n] else [0xD800 + (n - 0x10000) / 0x400, 0xDC00 + (n - 0x10000) % 0x400]
  }

  /** The UTF-16 encoding of a string, the form JavaScript holds it in. */
  function Utf16(s: string): seq<int> {
    if s == [] then [] else Units(s[0]) + Utf16(s[1..])
  }

  /** Code-unit sequences compared unit by unit, a proper prefix first. */
  predicate UnitsLess(a: seq<int>, b: seq<int>) {
    if a == [] then b != []
    else if b == [] then false
    else if a[0] != b[0] then a[0] < b[0]
    else UnitsLess(a[1..], b[1..])
  }

  /** Where a character falls in code-unit order: U+E000 to U+FFFF come
      after every character above U+FFFF, whose first unit is a surrogate. */
  function UnitRank(c: char): int {
    var n := c as int;
    if 0xE000 <= n < 0x10000 then n + 0x110000 else n
  }

  /** The order the default `Array.prototype.sort` puts two strings in:
      UTF-16 code unit by code unit, a proper prefix first (see
      `LessIsUtf16Order`). */
  predicate Less(a: string, b: string) {
    if a == [] then b != []
    else if b == [] then false
    else if a[0] != b[0] then UnitRank(a[0]) < UnitRank(b[0])
    else Less(a[1..], b[1..])
  }

  /** `Less` is a strict total order: exactly one of `a < b`, `a == b`,
      `b < a` holds. */
  lemma {:induction false} LessTrichotomy(a: string, b: string)
    ensures a == b || Less(a, b) || Less(b, a)
    ensures !(Less(a, b) && Less(b, a))
    ensures a == b ==> !Less(a, b)
  {
    if a == [] || b == [] {
    } else if a[0] != b[0] {
    } else {
      LessTrichotomy(a[1..], b[1..]);
      if a[1..] == b[1..] {
        assert a == [a[0]] + a[1..] && b == [b[0]] + b[1..];
      }
    }
  }

  /** Comparing strings character by character with `UnitRank` is
      comparing their UTF-16 encodings. */
  lemma {:induction false} LessIsUtf16Order(a: string, b: string)
    ensures Less(a, b) <==> UnitsLess(Utf16(a), Utf16(b))
  {
    if a == [] || b == [] {
    } else if a[0] != b[0] {
      FirstCharDecides(a[0], b[0], Utf16(a[1..]), Utf16(b[1..]));
    } else {
      LessIsUtf16Order(a[1..], b[1..]);
      SharedUnits(Units(a[0]), Utf16(a[1..]), Utf16(b[1..]));
    }
  }

  /** A common prefix of code units does not decide the order. */
  lemma {:induction false} SharedUnits(p: seq<int>, x: seq<int>, y: seq<int>)
    ensures UnitsLess(p + x, p + y) <==> UnitsLess(x, y)
  {
    if p != [] {
      assert (p + x)[1..] == p[1..] + x;
      assert (p + y)[1..] == p[1..] + y;
      SharedUnits(p[1..], x, y);
    } else {
      assert p + x == x && p + y == y;
    }
  }

  /** Two different characters are ordered by their encodings before
      anything that follows them is looked at. */
  lemma FirstCharDecides(c: char, d: char, x: seq<int>, y: seq<int>)
    requires c != d
    ensures UnitsLess(Units(c) + x, Units(d) + y) <==> UnitRank(c) < UnitRank(d)
  {
    var n, m := c as int, d as int;
    var a, b := Units(c) + x, Units(d) + y;
    assert a[0] == Units(c)[0] && b[0] == Units(d)[0];
    if n >= 0x10000 && m >= 0x10000 {
      var qn, rn := (n - 0x10000) / 0x400, (n - 0x10000) % 0x400;
      var qm, rm := (m - 0x10000) / 0x400, (m - 0x10000) % 0x400;
      assert n == 0x10000 + 0x400 * qn + rn && m == 0x10000 + 0x400 * qm + rm;
      if qn == qm {
        assert a[1..] == [0xDC00 + rn] + x && b[1..] == [0xDC00 + rm] + y;
        assert rn != rm;
      } else if qn < qm {
        assert n < m;
      } else {
        assert m < n;
      }
    }
  }

  function DigitChar(d: nat): char
    requires d < 10
  {
    "0123456789"[d]
  }

  predicate IsDigit(c: char) {
    '0' <= c <= '9'
  }

  function DigitValue(c: char): nat
    requires IsDigit(c)
  {
    c as int - '0' as int
  }

  predicate AllDigits(s: string) {
    forall i :: 0 <= i < |s| ==> IsDigit(s[i])
  }

  /** Decimal rendering of a natural number, as `Number.prototype.toString`
      gives it. */
  function NatToString(n: nat): (r: string)
    ensures |r| >= 1 && AllDigits(r)
    decreases n
  {
    if n < 10 then [DigitChar(n)] else NatToString(n / 10) + [DigitChar(n % 10)]
  }

  /** The value of a string of decimal digits. */
  function DigitsValue(s: string): nat
    requires AllDigits(s)
  {
    if s == [] then 0 else DigitsValue(s[..|s| - 1]) * 10 + DigitValue(s[|s| - 1])
  }

  lemma {:induction false} DigitsValueOfNatToString(n: nat)
    ensures DigitsValue(NatToString(n)) == n
    decreases n
  {
    if n >= 10 {
      var s := NatToString(n / 10) + [DigitChar(n % 10)];
      assert s[..|s| - 1] == NatToString(n / 10);
      DigitsValueOfNatToString(n / 10);
    }
  }

  /** A four-digit number renders as exactly four digits. */
  lemma FourDigits(n: nat)
    requires 1000 <= n <= 9999
    ensures |NatToString(n)| == 4
  {
    var a := n / 10;
    assert 100 <= a <= 999 by { DivTen(n, 100, 1000); }
    var b := a / 10;
    assert 10 <= b <= 99 by { DivTen(a, 10, 100); }
    var c := b / 10;
    assert 1 <= c <= 9 by { DivTen(b, 1, 10); }
    assert |NatToString(n)| == |NatToString(a)| + 1;
    assert |NatToString(a)| == |NatToString(b)| + 1;
    assert |NatToString(b)| == |NatToString(c)| + 1;
  }

  lemma DivTen(n: nat, lo: nat, hi: nat)
    requires lo * 10 <= n < hi * 10
    ensures lo <= n / 10 < hi
  {
  }

  /** The longest prefix of decimal digits. */
  function DigitPrefix(s: string): (r: string)
    ensures AllDigits(r) && StartsWith(s, r)
    ensures |r| < |s| ==> !IsDigit(s[|r|])
  {
    if s != [] && IsDigit(s[0]) then [s[0]] + DigitPrefix(s[1..]) else []
  }

  /** What `parseInt` reads its digits from: the text after leading white
      space and an optional sign. */
  function NumberText(s: string): string {
    var t := TrimStart(s);
    if t != [] && (t[0] == '-' || t[0] == '+') then t[1..] else t
  }

  /** Whether `parseInt` negates what it reads. */
  predicate Negated(s: string) {
    var t := TrimStart(s);
    t != [] && t[0] == '-'
  }

  /** `parseInt(s, 10)`: skip leading white space, read an optional sign and
      the longest run of decimal digits; `None` stands for `NaN`. */
  function ParseInt(s: string): (r: Option<int>)
    ensures r.None? <==> NumberText(s) == [] || !IsDigit(NumberText(s)[0])
  {
    var ds := DigitPrefix(NumberText(s));
    if ds == [] then None
    else if Negated(s) then Some(-(DigitsValue(ds) as int))
    else Some(DigitsValue(ds))
  }

  /** `parseInt` reads back every rendered natural number. */
  lemma ParseIntOfNatToString(n: nat)
    ensures ParseInt(NatToString(n)) == Some(n)
  {
    var s := NatToString(n);
    assert NoSpace(s) by {
      forall i | 0 <= i < |s| ensures !IsSpace(s[i]) {
        assert IsDigit(s[i]);
      }
    }
    assert TrimStart(s) == s;
    assert s[0] != '-' && s[0] != '+' by { assert IsDigit(s[0]); }
    DigitPrefixOfDigits(s);
    DigitsValueOfNatToString(n);
  }

  lemma {:induction false} DigitPrefixOfDigits(s: string)
    requires AllDigits(s)
    ensures DigitPrefix(s) == s
  {
    if s != [] {
      DigitPrefixOfDigits(s[1..]);
    }
  }

  predicate IsHexDigit(c: char) {
    IsDigit(c) || 'a' <= c <= 'f' || 'A' <= c <= 'F'
  }

  function HexDigitValue(c: char): (v: nat)
    requires IsHexDigit(c)
    ensures v < 16
  {
    if IsDigit(c) then DigitValue(c)
    else if 'a' <= c <= 'f' then c as int - 'a' as int + 10
    else c as int - 'A' as int + 10
  }

  predicate AllHexDigits(s: string) {
    forall i :: 0 <= i < |s| ==> IsHexDigit(s[i])
  }

  /** The longest prefix of hexadecimal digits. */
  function HexPrefix(s: string): (r: string)
    ensures AllHexDigits(r) && StartsWith(s, r)
    ensures |r| < |s| ==> !IsHexDigit(s[|r|])
  {
    if s != [] && IsHexDigit(s[0]) then [s[0]] + HexPrefix(s[1..]) else []
  }

  /** The value of a string of hexadecimal digits. */
  function HexValue(s: string): nat
    requires AllHexDigits(s)
  {
    if s == [] then 0 else HexValue(s[..|s| - 1]) * 16 + HexDigitValue(s[|s| - 1])
  }

  /** Text that starts with `0x` or `0X`. */
  predicate HexPrefixed(s: string) {
    |s| >= 2 && s[0] == '0' && (s[1] == 'x' || s[1] == 'X')
  }

  /** `parseInt(s)` with no radix: as `parseInt(s, 10)`, except that a `0x`
      or `0X` after the sign switches to hexadecimal digits; `None` stands
      for `NaN`, which a bare `0x` gives. */
  function ParseIntAuto(s: string): (r: Option<int>)
    ensures !HexPrefixed(NumberText(s)) ==> r == ParseInt(s)
    ensures HexPrefixed(NumberText(s)) ==>
              (r.None? <==> |NumberText(s)| == 2 || !IsHexDigit(NumberText(s)[2]))
    ensures r.Some? && r.value < 0 ==> Negated(s)
  {
    var body := NumberText(s);
    if HexPrefixed(body) then
      var ds := HexPrefix(body[2..]);
      if ds == [] then None
      else if Negated(s) then Some(-(HexValue(ds) as int))
      else Some(HexValue(ds))
    else ParseInt(s)
  }

  /** Ids rendered in decimal read back the same with no radix. */
  lemma ParseIntAutoOfNatToString(n: nat)
    ensures ParseIntAuto(NatToString(n)) == Some(n)
  {
    var s := NatToString(n);
    ParseIntOfNatToString(n);
    assert NoSpace(s) by {
      forall i | 0 <= i < |s| ensures !IsSpace(s[i]) {
        assert IsDigit(s[i]);
      }
    }
    assert s[0] != '-' && s[0] != '+' by { assert IsDigit(s[0]); }
    assert NumberText(s) == s;
    assert |s| >= 2 ==> IsDigit(s[1]);
  }

  /** Where the two parsers part: `0x10` is 16 with no radix and 0 in radix
      10, a bare `0x` is `NaN` with no radix, and the sign applies to the
      hexadecimal value. */
  lemma HexIdsDiffer()
    ensures ParseIntAuto("0x10") == Some(16) && ParseInt("0x10") == Some(0)
    ensures ParseIntAuto("0x") == None && ParseInt("0x") == Some(0)
    ensures ParseIntAuto("-0x10") == Some(-16)
  {
    var hex, bare, neg := "0x10", "0x", "-0x10";
    assert hex[0] == '0' && hex[1] == 'x' && hex[2] == '1' && hex[3] == '0' && |hex| == 4;
    assert bare[0] == '0' && bare[1] == 'x' && |bare| == 2;
    assert neg[0] == '-' && neg[1..] == hex;
    PlainNumberText(hex);
    PlainNumberText(bare);
    MinusNumberText(neg);
    ZeroBeforeX(hex);
    ZeroBeforeX(bare);
    HexOneZero(hex[2..]);
  }

  lemma PlainNumberText(s: string)
    requires s != [] && '0' <= s[0] <= '9'
    ensures NumberText(s) == s && !Negated(s)
  {
    assert !IsSpace(s[0]);
  }

  lemma MinusNumberText(s: string)
    requires s != [] && s[0] == '-'
    ensures NumberText(s) == s[1..] && Negated(s)
  {
    assert !IsSpace(s[0]);
  }

  lemma ZeroBeforeX(s: string)
    requires |s| >= 2 && s[0] == '0' && s[1] == 'x'
    ensures ParseInt(s) == Some(0)
  {
    PlainNumberText(s);
    assert DigitPrefix(s[1..]) == [];
    var z := DigitPrefix(s);
    assert z == [s[0]];
    assert z[..0] == [];
    assert DigitsValue(z) == DigitsValue([]) * 10 + DigitValue(s[0]);
  }

  lemma HexOneZero(d: string)
    requires |d| == 2 && d[0] == '1' && d[1] == '0'
    ensures HexPrefix(d) == d && HexValue(d) == 16
  {
    assert HexPrefix(d[1..][1..]) == [];
    assert HexPrefix(d[1..]) == [d[1]];
    assert d == [d[0]] + [d[1]];
    var one := d[..1];
    assert one == [d[0]] && one[..0] == [];
    assert HexValue(one) == HexValue([]) * 16 + HexDigitValue(d[0]) == 1;
    assert HexDigitValue(d[1]) == 0;
    assert HexValue(d) == HexValue(one) * 16 + HexDigitValue(d[1]);
  }
}
