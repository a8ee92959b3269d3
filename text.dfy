/** The pieces of Python's string handling that the scripts rely on:
    `str.strip()`, `str.split(sep)`, `sep.join(parts)`, `int(s)` and `str(n)`. */
module Text {
  import opened Wrappers

  // ---------------------------------------------------------------------------
  // Whitespace and str.strip()
  // ---------------------------------------------------------------------------

  /** Python's `str.isspace()` for one character: the ASCII controls
      TAB..CR and FS..US, SPACE, NEL, NO-BREAK SPACE and the Unicode
      space separators. */
  predicate IsSpace(c: char) {
    var n := c as int;
    (9 <= n <= 13) || (28 <= n <= 32) || n == 0x85 || n == 0xA0 || n == 0x1680
    || (0x2000 <= n <= 0x200A) || n == 0x2028 || n == 0x2029 || n == 0x202F
    || n == 0x205F || n == 0x3000
  }

  predicate AllSpace(s: string) {
    forall k :: 0 <= k < |s| ==> IsSpace(s[k])
  }

  /** The number of space characters `s` starts with. */
  function LeadingSpaces(s: string): (n: nat)
    ensures n <= |s|
    ensures forall k :: 0 <= k < n ==> IsSpace(s[k])
    ensures n == |s| || !IsSpace(s[n])
  {
    if |s| > 0 && IsSpace(s[0]) then 1 + LeadingSpaces(s[1..]) else 0
  }

  /** The number of space characters `s` ends with. */
  function TrailingSpaces(s: string): (n: nat)
    ensures n <= |s|
    ensures forall k :: |s| - n <= k < |s| ==> IsSpace(s[k])
    ensures n == |s| || !IsSpace(s[|s| - n - 1])
  {
    if |s| > 0 && IsSpace(s[|s| - 1]) then 1 + TrailingSpaces(s[..|s| - 1]) else 0
  }

  /** `s.lstrip()`: the longest all-space prefix is removed. */
  function TrimLeft(s: string): (r: string)
    ensures |r| <= |s| && r == s[|s| - |r|..]
    ensures AllSpace(s[..|s| - |r|])
    ensures r == [] || !IsSpace(r[0])
  {
    s[LeadingSpaces(s)..]
  }

  /** `s.rstrip()`: the longest all-space suffix is removed. */
  function TrimRight(s: string): (r: string)
    ensures |r| <= |s| && r == s[..|r|]
    ensures AllSpace(s[|r|..])
    ensures r == [] || !IsSpace(r[|r| - 1])
  {
    s[..|s| - TrailingSpaces(s)]
  }

  /** `s.strip()` */
  function Strip(s: string): (r: string)
  {
    TrimRight(TrimLeft(s))
  }

  /** A string without surrounding spaces, padded with spaces on either side,
      strips back to itself (the trailing newline of a command's output). */
  lemma StripPadded(p: string, s: string, q: string)
    requires AllSpace(p) && AllSpace(q)
    requires s != [] && !IsSpace(s[0]) && !IsSpace(s[|s| - 1])
    ensures Strip(p + s + q) == s
  {
    var t := p + s + q;
    var l := TrimLeft(t);
    var cut := |t| - |l|;
    assert forall k :: 0 <= k < |p| ==> IsSpace(t[k]);
    assert cut >= |p|;
    assert t[|p|] == s[0];
    assert cut <= |p|;
    assert l == s + q;
    var r := TrimRight(l);
    assert forall k :: |s| <= k < |l| ==> IsSpace(l[k]);
    assert |r| <= |s|;
    assert l[|s| - 1] == s[|s| - 1];
    assert |r| >= |s|;
    assert r == s;
  }

  // ---------------------------------------------------------------------------
  // str.split(sep) and sep.join(parts)
  // ---------------------------------------------------------------------------

  /** `s.split(sep)` for a non-empty separator: cut at every leftmost,
      non-overlapping occurrence of `sep`. There is always at least one piece. */
  function Split(s: string, sep: string): (r: seq<string>)
    requires |sep| > 0
    ensures |r| >= 1
    decreases |s|
  {
    if |s| < |sep| then [s]
    else if s[..|sep|] == sep then [""] + Split(s[|sep|..], sep)
    else
      var rest := Split(s[1..], sep);
      [[s[0]] + rest[0]] + rest[1..]
  }

  /** `sep.join(parts)` */
  function Join(parts: seq<string>, sep: string): (r: string)
  {
    if |parts| == 0 then ""
    else if |parts| == 1 then parts[0]
    else parts[0] + sep + Join(parts[1..], sep)
  }

  /** Joining the pieces of a split gives back the original string. */
  lemma {:induction false} JoinSplit(s: string, sep: string)
    requires |sep| > 0
    ensures Join(Split(s, sep), sep) == s
    decreases |s|
  {
    if |s| < |sep| {
    } else if s[..|sep|] == sep {
      var rest := Split(s[|sep|..], sep);
      JoinSplit(s[|sep|..], sep);
      assert s == sep + s[|sep|..];
      assert ([""] + rest)[1..] == rest;
    } else {
      var rest := Split(s[1..], sep);
      JoinSplit(s[1..], sep);
      var r := [[s[0]] + rest[0]] + rest[1..];
      assert s == [s[0]] + s[1..];
      if |rest| == 1 {
        assert Join(r, sep) == [s[0]] + rest[0];
      } else {
        assert r[1..] == rest[1..];
        assert Join(rest, sep) == rest[0] + sep + Join(rest[1..], sep);
      }
    }
  }

  /** A piece that does not contain the separator's first character is cut off whole. */
  lemma {:induction false} SplitPiece(f: string, rest: string, sep: string)
    requires |sep| > 0 && sep[0] !in f
    ensures Split(f + sep + rest, sep) == [f] + Split(rest, sep)
    decreases |f|
  {
    var s := f + sep + rest;
    if f == [] {
      assert s == sep + rest;
      assert s[..|sep|] == sep;
      assert s[|sep|..] == rest;
    } else {
      assert s[..|sep|] != sep by {
        assert s[0] == f[0];
      }
      assert s[1..] == f[1..] + sep + rest;
      SplitPiece(f[1..], rest, sep);
      assert [s[0]] + f[1..] == f;
    }
  }

  /** A string without the separator's first character is a single piece. */
  lemma {:induction false} SplitWhole(f: string, sep: string)
    requires |sep| > 0 && sep[0] !in f
    ensures Split(f, sep) == [f]
    decreases |f|
  {
    if |f| >= |sep| {
      assert f[..|sep|] != sep by {
        assert f[0] != sep[0];
      }
      SplitWhole(f[1..], sep);
      assert [f[0]] + f[1..] == f;
    }
  }

  /** Splitting a join gives back the parts, provided no part contains the
      separator's first character. */
  lemma {:induction false} SplitJoin(parts: seq<string>, sep: string)
    requires |sep| > 0 && |parts| >= 1
    requires forall i :: 0 <= i < |parts| ==> sep[0] !in parts[i]
    ensures Split(Join(parts, sep), sep) == parts
    decreases |parts|
  {
    if |parts| == 1 {
      SplitWhole(parts[0], sep);
    } else {
      SplitJoin(parts[1..], sep);
      SplitPiece(parts[0], Join(parts[1..], sep), sep);
      assert parts == [parts[0]] + parts[1..];
    }
  }

  /** Two joins glued by `g` are one join whose parts meet in a merged piece. */
  lemma {:induction false} JoinGlue(a: seq<string>, x: string, g: string, y: string, b: seq<string>, sep: string)
    ensures Join(a + [x], sep) + g + Join([y] + b, sep) == Join(a + [x + g + y] + b, sep)
    decreases |a|
  {
    if a == [] {
      assert a + [x] == [x];
      assert a + [x + g + y] + b == [x + g + y] + b;
      if b != [] {
        assert ([y] + b)[1..] == b;
        assert ([x + g + y] + b)[1..] == b;
      }
    } else {
      JoinGlue(a[1..], x, g, y, b, sep);
      assert (a + [x])[1..] == a[1..] + [x];
      assert (a + [x + g + y] + b)[1..] == a[1..] + [x + g + y] + b;
    }
  }

  // ---------------------------------------------------------------------------
  // Decimal digits: str(n) and int(s)
  // ---------------------------------------------------------------------------

  predicate IsDigit(c: char) {
    '0' <= c <= '9'
  }

  predicate AllDigits(s: string) {
    forall k :: 0 <= k < |s| ==> IsDigit(s[k])
  }

  function DigitChar(d: nat): (c: char)
    requires d < 10
    ensures IsDigit(c) && c as int - '0' as int == d
  {
    (('0' as int) + d) as char
  }

  /** `str(n)` for a natural number. */
  function NatToDecimal(n: nat): (r: string)
    ensures |r| > 0 && AllDigits(r)
    decreases n
  {
    if n < 10 then [DigitChar(n)] else NatToDecimal(n / 10) + [DigitChar(n % 10)]
  }

  /** `str(n)` for any integer. */
  function IntToDecimal(n: int): (r: string)
    ensures |r| > 0
    ensures n >= 0 <==> IsDigit(r[0])
    ensures n < 0 ==> r[0] == '-'
    ensures forall k :: 0 < k < |r| ==> IsDigit(r[k])
  {
    if n < 0 then "-" + NatToDecimal(-n) else NatToDecimal(n)
  }

  /** The value of a string of decimal digits, most significant first. */
  function DigitsValue(ds: string): nat
    requires AllDigits(ds)
  {
    if |ds| == 0 then 0
    else DigitsValue(ds[..|ds| - 1]) * 10 + (ds[|ds| - 1] as int - '0' as int)
  }

  lemma {:induction false} DigitsRoundTrip(n: nat)
    ensures DigitsValue(NatToDecimal(n)) == n
    decreases n
  {
    if n >= 10 {
      var ds := NatToDecimal(n);
      assert ds[..|ds| - 1] == NatToDecimal(n / 10);
      DigitsRoundTrip(n / 10);
    }
  }

  /** `int(t)` on a string that is already stripped: an optional sign followed
      by one or more ASCII digits; anything else raises, modelled as None. */
  function ParseSigned(t: string): (r: Option<int>)
    ensures r.Some? ==> |t| > 0 && (IsDigit(t[0]) || t[0] == '-' || t[0] == '+')
    ensures r.Some? ==> forall k :: 0 < k < |t| ==> IsDigit(t[k])
  {
    if |t| > 0 && (t[0] == '-' || t[0] == '+') then
      if |t| > 1 && AllDigits(t[1..]) then
        var v := DigitsValue(t[1..]) as int;
        Some(if t[0] == '-' then -v else v)
      else None
    else if |t| > 0 && AllDigits(t) then Some(DigitsValue(t))
    else None
  }

  /** `int(s)`: surrounding whitespace is ignored. */
  function ParseInt(s: string): (r: Option<int>)
  {
    ParseSigned(Strip(s))
  }

  /** `int(str(n)) == n` */
  lemma ParseIntRoundTrip(n: int)
    ensures ParseInt(IntToDecimal(n)) == Some(n)
  {
    var d := IntToDecimal(n);
    DecimalHasNoComma(n);
    StripPadded("", d, "");
    assert "" + d + "" == d;
    ParseDecimal(n);
  }

  lemma ParseDecimal(n: int)
    ensures ParseSigned(IntToDecimal(n)) == Some(n)
  {
    var d := IntToDecimal(n);
    if n < 0 {
      var m := NatToDecimal(-n);
      assert d[1..] == m;
      DigitsRoundTrip(-n);
    } else {
      DigitsRoundTrip(n);
    }
  }

  /** A string with a character other than a digit or a sign strictly inside
      its stripped form does not parse (e.g. two numbers on two lines). */
  lemma ParseIntRejectsInnerJunk(s: string, k: int)
    requires 0 < k < |Strip(s)| && !IsDigit(Strip(s)[k])
    ensures ParseInt(s) == None
  {
  }

  /** The decimal text of an integer has no comma and no whitespace. */
  lemma DecimalHasNoComma(n: int)
    ensures ',' !in IntToDecimal(n)
    ensures forall k :: 0 <= k < |IntToDecimal(n)| ==> !IsSpace(IntToDecimal(n)[k])
  {
    var d := IntToDecimal(n);
    forall k | 0 <= k < |d|
      ensures d[k] != ',' && !IsSpace(d[k])
    {
      assert d[k] == '-' || IsDigit(d[k]);
    }
  }
}
