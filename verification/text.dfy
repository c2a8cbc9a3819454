/** String helpers with the JavaScript semantics the billing screens rely on:
    `Number.prototype.toString` on integers, `parseInt`, `trim`,
    `padStart`, `slice(-n)`, `Array.prototype.join`, and the character
    classes used by the file-name sanitiser. */
module Text {
  import opened Options

  predicate IsDigit(c: char) { '0' <= c <= '9' }

  predicate IsAlnum(c: char) { 'a' <= c <= 'z' || 'A' <= c <= 'Z' || IsDigit(c) }

  /** The WhiteSpace and LineTerminator code points of ECMAScript, which
      `String.prototype.trim` removes from both ends. */
  predicate IsJsSpace(c: char) {
    || c == '\t' || c == '\n' || c == '\U{000B}' || c == '\U{000C}' || c == '\r' || c == ' '
    || c == '\U{00A0}' || c == '\U{1680}' || ('\U{2000}' <= c <= '\U{200A}')
    || c == '\U{2028}' || c == '\U{2029}' || c == '\U{202F}' || c == '\U{205F}'
    || c == '\U{3000}' || c == '\U{FEFF}'
  }

  predicate AllDigits(s: string) { forall i :: 0 <= i < |s| ==> IsDigit(s[i]) }

  function DigitChar(d: nat): (c: char)
    requires d < 10
    ensures IsDigit(c) && DigitValue(c) == d
  {
    ('0' as int + d) as char
  }

  function DigitValue(c: char): (d: nat)
    requires IsDigit(c)
    ensures d < 10
  {
    c as int - '0' as int
  }

  /** Decimal rendering of a non-negative integer, as `String(n)` gives it. */
  function NatToString(n: nat): (r: string)
    ensures 0 < |r| && AllDigits(r)
    ensures 1 < |r| ==> r[0] != '0'
  {
    if n < 10 then [DigitChar(n)] else NatToString(n / 10) + [DigitChar(n % 10)]
  }

  /** Decimal rendering of any integer, with a leading `-` when negative. */
  function IntToString(i: int): (r: string)
    ensures 0 < |r|
    ensures i < 0 <==> r[0] == '-'
  {
    if i < 0 then "-" + NatToString(-i) else NatToString(i)
  }

  /** The value of a string of decimal digits. */
  function DigitsValue(s: string): nat
    requires AllDigits(s)
  {
    if |s| == 0 then 0 else DigitsValue(s[..|s| - 1]) * 10 + DigitValue(s[|s| - 1])
  }

  lemma {:induction false} DigitsValueOfNatToString(n: nat)
    ensures DigitsValue(NatToString(n)) == n
  {
    if n >= 10 {
      var s := NatToString(n / 10);
      var r := NatToString(n);
      assert r == s + [DigitChar(n % 10)];
      assert r[..|r| - 1] == s;
      DigitsValueOfNatToString(n / 10);
    }
  }

  /** Distinct numbers render to distinct strings. */
  lemma {:induction false} NatToStringInjective(m: nat, n: nat)
    requires NatToString(m) == NatToString(n)
    ensures m == n
  {
    DigitsValueOfNatToString(m);
    DigitsValueOfNatToString(n);
  }

  lemma {:induction false} IntToStringInjective(i: int, j: int)
    requires IntToString(i) == IntToString(j)
    ensures i == j
  {
    if i < 0 {
      assert IntToString(i)[1..] == NatToString(-i);
      assert IntToString(j)[1..] == NatToString(-j);
      NatToStringInjective(-i, -j);
    } else {
      NatToStringInjective(i, j);
    }
  }

  /** Numbers from 1000 to 9999 render with exactly four digits. */
  lemma {:induction false} FourDigitLength(n: nat)
    requires 1000 <= n <= 9999
    ensures |NatToString(n)| == 4
  {
    assert |NatToString(n / 1000)| == 1;
    assert |NatToString(n / 100)| == 2;
    assert |NatToString(n / 10)| == 3;
  }

  /** Numbers from 10 to 99 render with exactly two digits. */
  lemma {:induction false} TwoDigitLength(n: nat)
    requires 10 <= n <= 99
    ensures |NatToString(n)| == 2
  {
    assert |NatToString(n / 10)| == 1;
  }

  /** Any number of at least 1000 renders with at least four digits. */
  lemma {:induction false} AtLeastFourDigits(n: nat)
    requires 1000 <= n
    ensures 4 <= |NatToString(n)|
  {
    if n <= 9999 {
      FourDigitLength(n);
    } else {
      AtLeastFourDigits(n / 10);
    }
  }

  /** `s.trimStart()`: drop leading whitespace. */
  function TrimStart(s: string): (r: string)
    ensures |r| <= |s| && r == s[|s| - |r|..]
    ensures forall k :: 0 <= k < |s| - |r| ==> IsJsSpace(s[k])
    ensures 0 < |r| ==> !IsJsSpace(r[0])
  {
    if 0 < |s| && IsJsSpace(s[0]) then TrimStart(s[1..]) else s
  }

  /** `s.trimEnd()`: drop trailing whitespace. */
  function TrimEnd(s: string): (r: string)
    ensures |r| <= |s| && r == s[..|r|]
    ensures forall k :: |r| <= k < |s| ==> IsJsSpace(s[k])
    ensures 0 < |r| ==> !IsJsSpace(r[|r| - 1])
  {
    if 0 < |s| && IsJsSpace(s[|s| - 1]) then TrimEnd(s[..|s| - 1]) else s
  }

  /** How many whitespace characters `trimStart` removes from `s`. */
  function LeadingSpaces(s: string): (n: nat)
    ensures n <= |s|
  {
    |s| - |TrimStart(s)|
  }

  /** `s.trim()`: the longest infix of `s` that neither starts nor ends with
      whitespace; everything cut away on either side is whitespace. */
  function Trim(s: string): (r: string)
    ensures LeadingSpaces(s) + |r| <= |s|
    ensures r == s[LeadingSpaces(s)..LeadingSpaces(s) + |r|]
    ensures forall k :: 0 <= k < LeadingSpaces(s) ==> IsJsSpace(s[k])
    ensures forall k :: LeadingSpaces(s) + |r| <= k < |s| ==> IsJsSpace(s[k])
    ensures 0 < |r| ==> !IsJsSpace(r[0]) && !IsJsSpace(r[|r| - 1])
  {
    TrimInfix(s, TrimStart(s), TrimEnd(TrimStart(s)));
    TrimEnd(TrimStart(s))
  }

  /** A prefix of a suffix is an infix, and what the prefix leaves off is
      the end of the original text. */
  lemma {:induction false} TrimInfix(s: string, t: string, r: string)
    requires |t| <= |s| && t == s[|s| - |t|..]
    requires |r| <= |t| && r == t[..|r|]
    requires forall k :: |r| <= k < |t| ==> IsJsSpace(t[k])
    ensures |s| - |t| + |r| <= |s|
    ensures r == s[|s| - |t|..|s| - |t| + |r|]
    ensures forall k :: |s| - |t| + |r| <= k < |s| ==> IsJsSpace(s[k])
  {
    var i := |s| - |t|;
    forall k | i + |r| <= k < |s|
      ensures IsJsSpace(s[k])
    {
      assert s[k] == t[k - i];
    }
  }

  /** The longest prefix of `s` made of decimal digits. */
  function DigitPrefix(s: string): (r: string)
    ensures r <= s && AllDigits(r)
    ensures |r| < |s| ==> !IsDigit(s[|r|])
  {
    if 0 < |s| && IsDigit(s[0]) then [s[0]] + DigitPrefix(s[1..]) else ""
  }

  /** `parseInt(s)` in base ten: leading whitespace is skipped, one optional
      sign is read, then the longest run of digits; no digit gives `NaN`
      (here `None`). */
  function ParseInt(s: string): Option<int>
  {
    var t := TrimStart(s);
    var signed := 0 < |t| && (t[0] == '-' || t[0] == '+');
    var digits := DigitPrefix(if signed then t[1..] else t);
    if |digits| == 0 then None
    else
      var v: int := DigitsValue(digits);
      Some(if signed && t[0] == '-' then -v else v)
  }

  /** `parseInt(s) || 0`: `NaN` and zero both become zero. */
  function ParseIntOrZero(s: string): (r: int)
    ensures ParseInt(s).None? ==> r == 0
    ensures ParseInt(s).Some? ==> r == ParseInt(s).value
  {
    match ParseInt(s)
    case Some(v) => v
    case None => 0
  }

  lemma {:induction false} DigitPrefixOfDigits(d: string, t: string)
    requires AllDigits(d)
    requires |t| == 0 || !IsDigit(t[0])
    ensures DigitPrefix(d + t) == d
  {
    if |d| > 0 {
      assert (d + t)[1..] == d[1..] + t;
      DigitPrefixOfDigits(d[1..], t);
    } else {
      assert d + t == t;
    }
  }

  /** `trimStart` leaves a string that starts with a digit or a sign alone. */
  lemma {:induction false} TrimStartKeeps(s: string)
    requires 0 < |s| && (IsDigit(s[0]) || s[0] == '-')
    ensures TrimStart(s) == s
  {
    assert !IsJsSpace(s[0]);
  }

  lemma {:induction false} ParseIntOfDigits(n: nat, tail: string)
    requires |tail| == 0 || !IsDigit(tail[0])
    ensures ParseInt(NatToString(n) + tail) == Some(n)
  {
    var ds := NatToString(n);
    var s := ds + tail;
    assert s[0] == ds[0];
    TrimStartKeeps(s);
    assert !(s[0] == '-' || s[0] == '+');
    DigitPrefixOfDigits(ds, tail);
    assert DigitPrefix(s) == ds;
    DigitsValueOfNatToString(n);
  }

  lemma {:induction false} ParseIntOfNegative(n: nat, tail: string)
    requires 0 < n
    requires |tail| == 0 || !IsDigit(tail[0])
    ensures ParseInt("-" + NatToString(n) + tail) == Some(-(n as int))
  {
    var ds := NatToString(n);
    var s := "-" + ds + tail;
    assert s[0] == '-';
    TrimStartKeeps(s);
    assert s[1..] == ds + tail;
    DigitPrefixOfDigits(ds, tail);
    assert DigitPrefix(s[1..]) == ds;
    DigitsValueOfNatToString(n);
  }

  /** `parseInt` reads back what `String` wrote, whatever non-digit text
      follows it. */
  lemma {:induction false} ParseIntOfIntToString(i: int, tail: string)
    requires |tail| == 0 || !IsDigit(tail[0])
    ensures ParseInt(IntToString(i) + tail) == Some(i)
  {
    if i < 0 {
      var n: nat := -i;
      var ds := NatToString(n);
      assert IntToString(i) == "-" + ds;
      ParseIntOfNegative(n, tail);
      assert IntToString(i) + tail == "-" + ds + tail;
    } else {
      ParseIntOfDigits(i, tail);
    }
  }

  /** `s.padStart(width, c)` with a one-character filler. */
  function PadStart(s: string, width: nat, c: char): (r: string)
    ensures |s| < width ==> |r| == width
    ensures width <= |s| ==> r == s
    ensures r[|r| - |s|..] == s
    ensures forall k :: 0 <= k < |r| - |s| ==> r[k] == c
  {
    if |s| < width then Repeat(c, width - |s|) + s else s
  }

  function Repeat(c: char, n: nat): (r: string)
    ensures |r| == n && forall k :: 0 <= k < n ==> r[k] == c
  {
    if n == 0 then "" else [c] + Repeat(c, n - 1)
  }

  /** `String(n).padStart(2, '0')`. */
  function Pad2(n: nat): string
  {
    PadStart(NatToString(n), 2, '0')
  }

  lemma {:induction false} Pad2Shape(n: nat)
    requires n <= 99
    ensures |Pad2(n)| == 2 && AllDigits(Pad2(n))
    ensures DigitsValue(Pad2(n)) == n
  {
    DigitsValueOfNatToString(n);
    if n >= 10 {
      TwoDigitLength(n);
    } else {
      assert Pad2(n) == "0" + NatToString(n);
      assert Pad2(n)[..1] == "0";
    }
  }

  /** `s.slice(-n)` for a positive `n`: the last `n` characters, or all of
      `s` when it is shorter. */
  function LastN(s: string, n: nat): (r: string)
    requires 0 < n
    ensures |r| == if |s| < n then |s| else n
    ensures r == s[|s| - |r|..]
  {
    if |s| <= n then s else s[|s| - n..]
  }

  /** `parts.join(sep)`. */
  function Join(parts: seq<string>, sep: string): string
  {
    if |parts| == 0 then ""
    else if |parts| == 1 then parts[0]
    else parts[0] + sep + Join(parts[1..], sep)
  }

  /** The UTF-16 code units a JavaScript string spends on `c`: two (a
      surrogate pair) for a character outside the Basic Multilingual Plane,
      one otherwise. */
  function CodeUnits(c: char): nat
  {
    if c as int < 0x1_0000 then 1 else 2
  }

  /** `s.length` in JavaScript: the number of UTF-16 code units. */
  function Utf16Length(s: string): (n: nat)
    ensures |s| <= n <= 2 * |s|
  {
    if |s| == 0 then 0 else CodeUnits(s[0]) + Utf16Length(s[1..])
  }

  predicate InBmp(s: string) { forall k :: 0 <= k < |s| ==> CodeUnits(s[k]) == 1 }

  /** What the pattern leaves of one character: a letter or digit stays, and
      otherwise each of its code units becomes `_`. */
  function SanitizeChar(c: char): string
  {
    if IsAlnum(c) then [c] else Repeat('_', CodeUnits(c))
  }

  /** `s.replace(/[^a-zA-Z0-9]/g, '_')`. The pattern has no `u` flag, so it
      matches UTF-16 code units: a character outside the Basic Multilingual
      Plane is a surrogate pair and becomes two underscores. */
  function Sanitize(s: string): (r: string)
    ensures |r| == Utf16Length(s)
    ensures forall k :: 0 <= k < |r| ==> IsAlnum(r[k]) || r[k] == '_'
  {
    if |s| == 0 then "" else SanitizeChar(s[0]) + Sanitize(s[1..])
  }

  /** Within the Basic Multilingual Plane sanitising keeps the length and
      works character by character: letters and digits stay, everything
      else becomes `_`. */
  lemma {:induction false} SanitizeBmp(s: string)
    requires InBmp(s)
    ensures |Sanitize(s)| == |s|
    ensures forall k :: 0 <= k < |s| ==> Sanitize(s)[k] == (if IsAlnum(s[k]) then s[k] else '_')
  {
    if |s| > 0 {
      assert InBmp(s[1..]) by {
        forall k | 0 <= k < |s| - 1 ensures CodeUnits(s[1..][k]) == 1 { assert s[1..][k] == s[k + 1]; }
      }
      SanitizeBmp(s[1..]);
      assert CodeUnits(s[0]) == 1;
      var head := SanitizeChar(s[0]);
      assert head == [if IsAlnum(s[0]) then s[0] else '_'];
      forall k | 0 <= k < |s|
        ensures Sanitize(s)[k] == (if IsAlnum(s[k]) then s[k] else '_')
      {
        if k > 0 { assert Sanitize(s)[k] == Sanitize(s[1..])[k - 1] && s[1..][k - 1] == s[k]; }
      }
    }
  }

  /** A character outside the Basic Multilingual Plane turns into two
      underscores: `"A😀"` sanitises to `"A__"`. */
  lemma {:induction false} SanitizeAstral()
    ensures Sanitize("A\U{1F600}") == "A__"
  {
    var s := "A\U{1F600}";
    assert s[1..] == "\U{1F600}";
    assert SanitizeChar('\U{1F600}') == "__";
    assert Sanitize(s[1..][1..]) == "";
  }

  /** Sanitising leaves only letters, digits and underscores, so doing it
      twice changes nothing more. */
  lemma {:induction false} SanitizeIdempotent(s: string)
    ensures forall k :: 0 <= k < |Sanitize(s)| ==> IsAlnum(Sanitize(s)[k]) || Sanitize(s)[k] == '_'
    ensures Sanitize(Sanitize(s)) == Sanitize(s)
  {
    var r := Sanitize(s);
    forall k | 0 <= k < |r| ensures CodeUnits(r[k]) == 1 { }
    SanitizeBmp(r);
  }

  /** `s.includes(sub)`. */
  predicate Contains(s: string, sub: string)
  {
    sub <= s || (0 < |s| && Contains(s[1..], sub))
  }

  lemma {:induction false} PrefixIsContained(s: string, sub: string)
    requires sub <= s
    ensures Contains(s, sub)
  {
  }

  /** `s.split(sep)[0]` for a one-character separator: the text before the
      first `sep`, or all of `s` when it has none. */
  function FirstSegment(s: string, sep: char): (r: string)
    ensures r <= s && sep !in r
    ensures |r| < |s| ==> s[|r|] == sep
  {
    if |s| == 0 || s[0] == sep then "" else [s[0]] + FirstSegment(s[1..], sep)
  }

  /** A text without the separator is its own first segment. */
  lemma {:induction false} FirstSegmentWhole(s: string, sep: char)
    requires sep !in s
    ensures FirstSegment(s, sep) == s
  {
    if |s| > 0 {
      assert sep !in s[1..];
      FirstSegmentWhole(s[1..], sep);
    }
  }

  /** `s.split('/').pop()`: the text after the last `/`, or all of `s`. */
  function LastSegment(s: string): (r: string)
    ensures |r| <= |s| && r == s[|s| - |r|..]
    ensures forall k :: 0 <= k < |r| ==> r[k] != '/'
    ensures |r| < |s| ==> s[|s| - |r| - 1] == '/'
  {
    if |s| == 0 then ""
    else if s[|s| - 1] == '/' then ""
    else LastSegment(s[..|s| - 1]) + [s[|s| - 1]]
  }
}
