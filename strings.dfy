/** Text and number conversions shared by the configuration reader, the option parser and
    the updater: Python's `int()`, `float()`, `str()`, `str.split`, `str.replace`,
    `str.strip`, `str.lower`/`str.upper`, `str.isnumeric` and the `*` wildcard of `glob`,
    each restricted to ASCII text. */
module Strings {

  datatype Option<T> = None | Some(value: T)

  // ---------------------------------------------------------------------------
  // Characters

  predicate IsDigit(c: char) { '0' <= c <= '9' }

  /** Python's `str.isspace` on the characters `str.strip()` removes. */
  predicate IsSpace(c: char)
  {
    c == ' ' || (9 <= c as int <= 13) || (28 <= c as int <= 31) || c as int == 0x85 || c as int == 0xA0
  }

  function LowerChar(c: char): char { if 'A' <= c <= 'Z' then (c as int + 32) as char else c }

  function UpperChar(c: char): char { if 'a' <= c <= 'z' then (c as int - 32) as char else c }

  function Lower(s: string): (r: string)
    ensures |r| == |s|
    ensures forall i :: 0 <= i < |s| ==> r[i] == LowerChar(s[i])
  {
    seq(|s|, i requires 0 <= i < |s| => LowerChar(s[i]))
  }

  function Upper(s: string): (r: string)
    ensures |r| == |s|
    ensures forall i :: 0 <= i < |s| ==> r[i] == UpperChar(s[i])
  {
    seq(|s|, i requires 0 <= i < |s| => UpperChar(s[i]))
  }

  /** `c in s.lower()`, for a lower-case letter `c`: `s` holds `c` in either case. */
  lemma LowerHolds(s: string, c: char)
    requires 'a' <= c <= 'z'
    ensures c in Lower(s) <==> exists i :: 0 <= i < |s| && (s[i] == c || s[i] == UpperChar(c))
  {
    if c in Lower(s) {
      var i :| 0 <= i < |s| && Lower(s)[i] == c;
      assert s[i] == c || s[i] == UpperChar(c);
    }
  }

  // ---------------------------------------------------------------------------
  // Natural numbers and integers

  /** Python's `str.isnumeric()`, for ASCII text: at least one character, all digits. */
  predicate IsNumeric(s: string) { |s| > 0 && AllDigits(s) }

  predicate AllDigits(s: string) { forall i :: 0 <= i < |s| ==> IsDigit(s[i]) }

  function DigitChar(d: nat): (c: char)
    requires d < 10
    ensures IsDigit(c) && (c as int) - ('0' as int) == d
  {
    ('0' as int + d) as char
  }

  /** The value of a string of decimal digits, most significant first. */
  function DigitsValue(s: string): nat
    requires AllDigits(s)
  {
    if |s| == 0 then 0 else DigitsValue(s[..|s| - 1]) * 10 + ((s[|s| - 1] as int) - ('0' as int))
  }

  /** `str(n)` for a natural number. */
  function ShowNat(n: nat): (s: string)
    ensures IsNumeric(s)
  {
    if n < 10 then [DigitChar(n)] else ShowNat(n / 10) + [DigitChar(n % 10)]
  }

  lemma {:induction false} ShowNatRoundTrip(n: nat)
    ensures DigitsValue(ShowNat(n)) == n
  {
    if n >= 10 {
      var s := ShowNat(n);
      assert s[..|s| - 1] == ShowNat(n / 10);
      ShowNatRoundTrip(n / 10);
    }
  }

  /** `str(i)` for an integer. */
  function ShowInt(i: int): (s: string)
    ensures |s| > 0 && (s[0] == '-' <==> i < 0)
  {
    if i < 0 then "-" + ShowNat(-i) else ShowNat(i)
  }

  /** Python's `int(s)` in base 10: whitespace around the text is ignored, and a single `_`
      may stand between two digits; `None` where `int()` raises `ValueError`. */
  function ParseInt(s: string): (r: Option<int>)
    ensures r.Some? ==> |s| > 0
  {
    match Ungrouped(Strip(s))
    case None => None
    case Some(t) => ParseSignedInt(t)
  }

  /** `int()` on text already stripped and without separators: an optional sign followed
      by digits. */
  function ParseSignedInt(s: string): (r: Option<int>)
    ensures r.Some? ==> |s| > 0
  {
    if |s| > 0 && (s[0] == '-' || s[0] == '+') then
      if IsNumeric(s[1..]) then
        var v: int := DigitsValue(s[1..]);
        Some(if s[0] == '-' then -v else v)
      else None
    else if IsNumeric(s) then Some(DigitsValue(s))
    else None
  }

  /** `s` with its `_` separators removed, or `None` when one of them does not stand
      between two digits, as numeric literals require. */
  function Ungrouped(s: string): (r: Option<string>)
    ensures r.Some? ==> |r.value| <= |s| && '_' !in r.value
    decreases |s|
  {
    if |s| == 0 then Some("")
    else if s[0] == '_' || (|s| >= 2 && s[1] == '_' && !(|s| >= 3 && IsDigit(s[0]) && IsDigit(s[2]))) then None
    else
      var rest := if |s| >= 2 && s[1] == '_' then s[2..] else s[1..];
      match Ungrouped(rest)
      case None => None
      case Some(t) => Some([s[0]] + t)
  }

  lemma {:induction false} UngroupedPlain(s: string)
    requires '_' !in s
    ensures Ungrouped(s) == Some(s)
    decreases |s|
  {
    if |s| > 0 {
      UngroupedPlain(s[1..]);
      assert [s[0]] + s[1..] == s;
    }
  }

  /** Text with no blank at either end and no separator reaches the sign-and-digits reading
      unchanged, for `int()` and for `float()` alike. */
  lemma ParsePlain(s: string)
    requires |s| == 0 || (!IsSpace(s[0]) && !IsSpace(s[|s| - 1]))
    requires '_' !in s
    ensures ParseInt(s) == ParseSignedInt(s)
    ensures ParseFloat(s) == ParseSignedDecimal(s)
  {
    StripPlain(s);
    UngroupedPlain(s);
  }

  /** Blanks around a number do not change what `int()` and `float()` read. */
  lemma ParsePadded(a: string, s: string, b: string)
    requires forall k :: 0 <= k < |a| ==> IsSpace(a[k])
    requires forall k :: 0 <= k < |b| ==> IsSpace(b[k])
    requires |s| > 0 && !IsSpace(s[0]) && !IsSpace(s[|s| - 1])
    ensures ParseInt(a + s + b) == ParseInt(s)
    ensures ParseFloat(a + s + b) == ParseFloat(s)
  {
    StripPadded(a, s, b);
    StripPlain(s);
  }

  lemma StripPadded(a: string, s: string, b: string)
    requires forall k :: 0 <= k < |a| ==> IsSpace(a[k])
    requires forall k :: 0 <= k < |b| ==> IsSpace(b[k])
    requires |s| > 0 && !IsSpace(s[0]) && !IsSpace(s[|s| - 1])
    ensures Strip(a + s + b) == s
  {
    var x := a + s + b;
    LeadingBlanks(a, s + b);
    assert a + (s + b) == x;
    assert LeadingSpaces(s + b) == 0;
    var t := x[|a|..];
    assert t == s + b;
    TrailingBlanks(s, b);
    assert t[..|t| - |b|] == s;
  }

  lemma {:induction false} LeadingBlanks(a: string, t: string)
    requires forall k :: 0 <= k < |a| ==> IsSpace(a[k])
    ensures LeadingSpaces(a + t) == |a| + LeadingSpaces(t)
    decreases |a|
  {
    if |a| > 0 {
      assert (a + t)[1..] == a[1..] + t;
      LeadingBlanks(a[1..], t);
    } else {
      assert a + t == t;
    }
  }

  lemma {:induction false} TrailingBlanks(t: string, b: string)
    requires forall k :: 0 <= k < |b| ==> IsSpace(b[k])
    requires |t| > 0 && !IsSpace(t[|t| - 1])
    ensures TrailingSpaces(t + b) == |b|
    decreases |b|
  {
    if |b| > 0 {
      assert (t + b)[..|t + b| - 1] == t + b[..|b| - 1];
      TrailingBlanks(t, b[..|b| - 1]);
    } else {
      assert t + b == t;
    }
  }

  /** `str(i)` starts with a sign or a digit and ends with a digit. */
  lemma ShowIntPlain(i: int)
    ensures var s := ShowInt(i); !IsSpace(s[0]) && !IsSpace(s[|s| - 1]) && '_' !in s
  {
    var n := ShowNat(if i < 0 then -i else i);
    assert IsDigit(n[0]) && IsDigit(n[|n| - 1]);
    var s := ShowInt(i);
    assert s[|s| - 1] == n[|n| - 1];
    forall k | 0 <= k < |s| ensures s[k] != '_' {
      if i < 0 && k > 0 { assert s[k] == n[k - 1]; }
    }
  }

  lemma ParseShowInt(i: int)
    ensures ParseInt(ShowInt(i)) == Some(i)
  {
    ShowIntPlain(i);
    ParsePlain(ShowInt(i));
    if i < 0 {
      assert ShowInt(i)[1..] == ShowNat(-i);
      ShowNatRoundTrip(-i);
    } else {
      ShowNatRoundTrip(i);
    }
  }

  // ---------------------------------------------------------------------------
  // Decimal numbers, the model of Python floats written in plain decimal notation

  type Digit = d: int | 0 <= d <= 9

  /** `(-1 if negative else 1) * (whole + 0.f1 f2 ... fk)` */
  datatype Decimal = Decimal(negative: bool, whole: nat, fraction: seq<Digit>)

  function Pow10(k: nat): (r: nat)
    ensures r >= 1
  {
    if k == 0 then 1 else 10 * Pow10(k - 1)
  }

  function FractionValue(f: seq<Digit>): nat
  {
    if |f| == 0 then 0 else FractionValue(f[..|f| - 1]) * 10 + f[|f| - 1]
  }

  /** The value of `d` is `Numerator(d) / Pow10(|d.fraction|)`. */
  function Numerator(d: Decimal): int
  {
    var m := d.whole * Pow10(|d.fraction|) + FractionValue(d.fraction);
    if d.negative then -m else m
  }

  /** Exact comparison of the two values, standing for Python's float `<`. */
  predicate DecLess(a: Decimal, b: Decimal)
  {
    Numerator(a) * Pow10(|b.fraction|) < Numerator(b) * Pow10(|a.fraction|)
  }

  /** Exact equality of the two values, standing for Python's float `==`. */
  predicate DecEq(a: Decimal, b: Decimal)
  {
    Numerator(a) * Pow10(|b.fraction|) == Numerator(b) * Pow10(|a.fraction|)
  }

  predicate DecIsZero(d: Decimal) { Numerator(d) == 0 }

  function FromInt(i: int): Decimal { Decimal(i < 0, if i < 0 then -i else i, []) }

  function DigitsChars(f: seq<Digit>): (s: string)
    ensures |s| == |f| && AllDigits(s)
  {
    if |f| == 0 then "" else DigitsChars(f[..|f| - 1]) + [DigitChar(f[|f| - 1])]
  }

  function CharsDigits(s: string): (f: seq<Digit>)
    requires AllDigits(s)
    ensures |f| == |s|
  {
    if |s| == 0 then [] else CharsDigits(s[..|s| - 1]) + [(s[|s| - 1] as int) - ('0' as int)]
  }

  lemma {:induction false} DigitsCharsRoundTrip(f: seq<Digit>)
    ensures CharsDigits(DigitsChars(f)) == f
  {
    if |f| > 0 {
      var s := DigitsChars(f);
      assert s[..|s| - 1] == DigitsChars(f[..|f| - 1]);
      DigitsCharsRoundTrip(f[..|f| - 1]);
    }
  }

  /** The text written for a decimal: sign, whole part, and the fraction after a point
      when there is one. */
  function ShowDecimal(d: Decimal): (s: string)
    ensures |s| > 0
  {
    (if d.negative then "-" else "") + ShowNat(d.whole)
      + (if |d.fraction| == 0 then "" else "." + DigitsChars(d.fraction))
  }

  /** Python's `float(s)` on numbers in plain decimal notation: whitespace around the text
      is ignored, a single `_` may stand between two digits, and what remains is an optional
      sign followed by digits with at most one decimal point and at least one digit; `None`
      where `float()` raises `ValueError`. */
  function ParseFloat(s: string): (r: Option<Decimal>)
    ensures r.Some? ==> |s| > 0
  {
    match Ungrouped(Strip(s))
    case None => None
    case Some(t) => ParseSignedDecimal(t)
  }

  /** `float()` on text already stripped and without separators. */
  function ParseSignedDecimal(s: string): (r: Option<Decimal>)
    ensures r.Some? ==> |s| > 0
  {
    var negative := |s| > 0 && s[0] == '-';
    var body := if |s| > 0 && (s[0] == '-' || s[0] == '+') then s[1..] else s;
    ParseUnsigned(negative, body)
  }

  /** The part of `ParseFloat` after the sign. */
  function ParseUnsigned(negative: bool, body: string): (r: Option<Decimal>)
    ensures r.Some? ==> r.value.negative == negative
  {
    match Find(body, ".")
    case None =>
      if IsNumeric(body) then Some(Decimal(negative, DigitsValue(body), [])) else None
    case Some(k) =>
      var w, f := body[..k], body[k + 1..];
      if AllDigits(w) && AllDigits(f) && |w| + |f| > 0 then
        Some(Decimal(negative, DigitsValue(w), CharsDigits(f)))
      else None
  }

  lemma ParseShowDecimal(d: Decimal)
    ensures ParseFloat(ShowDecimal(d)) == Some(d)
  {
    var w := ShowNat(d.whole);
    var body := w + (if |d.fraction| == 0 then "" else "." + DigitsChars(d.fraction));
    var s := (if d.negative then "-" else "") + body;
    assert ShowDecimal(d) == s;
    assert |w| > 0 && IsDigit(w[0]);
    assert body[0] == w[0];
    if d.negative {
      assert s[1..] == body;
    } else {
      assert s == body;
    }
    assert ParseSignedDecimal(s) == ParseUnsigned(d.negative, body);
    ShowDecimalPlain(d);
    ParsePlain(s);
    ParseShowBody(d);
  }

  /** The text written for a decimal starts with a sign or a digit, ends with a digit and
      holds no separator. */
  lemma ShowDecimalPlain(d: Decimal)
    ensures var s := ShowDecimal(d); !IsSpace(s[0]) && !IsSpace(s[|s| - 1]) && '_' !in s
  {
    var w := ShowNat(d.whole);
    var f := if |d.fraction| == 0 then "" else "." + DigitsChars(d.fraction);
    var p := if d.negative then "-" else "";
    var s := ShowDecimal(d);
    assert s == p + w + f;
    assert IsDigit(w[0]) && IsDigit(w[|w| - 1]);
    assert s[|p|] == w[0];
    if |f| == 0 {
      assert s[|s| - 1] == w[|w| - 1];
    } else {
      assert s[|s| - 1] == DigitsChars(d.fraction)[|d.fraction| - 1];
    }
    forall k | 0 <= k < |s| ensures s[k] != '_' {
      if k < |p| {
      } else if k < |p| + |w| {
        assert s[k] == w[k - |p|];
      } else {
        assert s[k] == f[k - |p| - |w|];
        if k - |p| - |w| > 0 {
          assert f[k - |p| - |w|] == DigitsChars(d.fraction)[k - |p| - |w| - 1];
        }
      }
    }
  }

  lemma ParseShowBody(d: Decimal)
    ensures ParseUnsigned(d.negative, ShowNat(d.whole)
      + (if |d.fraction| == 0 then "" else "." + DigitsChars(d.fraction))) == Some(d)
  {
    var w := ShowNat(d.whole);
    ShowNatRoundTrip(d.whole);
    if |d.fraction| == 0 {
      assert w + "" == w;
      NotFoundInDigits(w);
    } else {
      var body := w + "." + DigitsChars(d.fraction);
      assert body == w + ("." + DigitsChars(d.fraction));
      NotFoundInDigits(w);
      FindAfter(w, "." + DigitsChars(d.fraction));
      assert body[..|w|] == w;
      assert body[|w| + 1..] == DigitsChars(d.fraction);
      DigitsCharsRoundTrip(d.fraction);
    }
  }

  // ---------------------------------------------------------------------------
  // Searching

  predicate OccursAt(s: string, p: string, i: int)
  {
    0 <= i && i + |p| <= |s| && s[i..i + |p|] == p
  }

  /** Python's `p in s`. */
  predicate Contains(s: string, p: string) { exists i | 0 <= i <= |s| :: OccursAt(s, p, i) }

  predicate StartsWith(s: string, p: string) { |p| <= |s| && s[..|p|] == p }

  predicate EndsWith(s: string, p: string) { |p| <= |s| && s[|s| - |p|..] == p }

  /** `s.find(p)`: the first index where `p` occurs, for a non-empty `p`. */
  function Find(s: string, p: string): (r: Option<nat>)
    requires |p| > 0
    ensures r.None? <==> !Contains(s, p)
    ensures r.Some? ==> OccursAt(s, p, r.value) && forall j :: 0 <= j < r.value ==> !OccursAt(s, p, j)
    decreases |s|
  {
    if |s| < |p| then
      None
    else if OccursAt(s, p, 0) then
      Some(0)
    else
      var rest := Find(s[1..], p);
      match rest
      case None =>
        FindMissStep(s, p);
        None
      case Some(k) =>
        FindHitStep(s, p, k);
        Some(k + 1)
  }

  lemma ShiftOccurs(s: string, p: string, i: nat)
    requires |s| > 0
    ensures OccursAt(s[1..], p, i) <==> OccursAt(s, p, i + 1)
  {
    if i + |p| <= |s| - 1 {
      assert s[1..][i..i + |p|] == s[i + 1..i + 1 + |p|];
    }
  }

  lemma FindMissStep(s: string, p: string)
    requires |s| > 0 && !OccursAt(s, p, 0) && !Contains(s[1..], p)
    ensures !Contains(s, p)
  {
    forall i | 1 <= i <= |s| ensures !OccursAt(s, p, i) {
      ShiftOccurs(s, p, i - 1);
    }
  }

  lemma FindHitStep(s: string, p: string, k: nat)
    requires |s| > 0 && !OccursAt(s, p, 0)
    requires OccursAt(s[1..], p, k) && forall j :: 0 <= j < k ==> !OccursAt(s[1..], p, j)
    ensures OccursAt(s, p, k + 1) && Contains(s, p)
    ensures forall j :: 0 <= j < k + 1 ==> !OccursAt(s, p, j)
  {
    ShiftOccurs(s, p, k);
    forall j | 1 <= j < k + 1 ensures !OccursAt(s, p, j) {
      ShiftOccurs(s, p, j - 1);
    }
  }

  lemma NotFoundInDigits(s: string)
    requires AllDigits(s)
    ensures !Contains(s, ".")
  {
    forall i | 0 <= i <= |s| ensures !OccursAt(s, ".", i) {
      if i + 1 <= |s| {
        assert s[i..i + 1][0] == s[i];
      }
    }
  }

  lemma FindAfter(w: string, t: string)
    requires !Contains(w, ".") && |t| > 0 && t[0] == '.'
    ensures Find(w + t, ".") == Some(|w|)
  {
    var s := w + t;
    assert OccursAt(s, ".", |w|) by { assert s[|w|..|w| + 1] == [t[0]]; }
    forall j | 0 <= j < |w| ensures !OccursAt(s, ".", j) {
      if OccursAt(s, ".", j) {
        assert s[j..j + 1] == w[j..j + 1];
        assert OccursAt(w, ".", j);
      }
    }
  }

  // ---------------------------------------------------------------------------
  // Splitting, joining, replacing, stripping

  /** Splitting at the first occurrence of the separator. */
  lemma SplitAtFirst(s: string, sep: string, n: nat)
    requires |sep| > 0 && OccursAt(s, sep, n)
    requires forall j :: 0 <= j < n ==> !OccursAt(s, sep, j)
    ensures Split(s, sep) == [s[..n]] + Split(s[n + |sep|..], sep)
  {
    FindFirst(s, sep, n);
  }

  /** `find` gives the first occurrence. */
  lemma FindFirst(s: string, sep: string, n: nat)
    requires |sep| > 0 && OccursAt(s, sep, n)
    requires forall j :: 0 <= j < n ==> !OccursAt(s, sep, j)
    ensures Find(s, sep) == Some(n)
  {
    assert Contains(s, sep);
  }

  /** Python's `s.split(sep)` for a non-empty separator. */
  function Split(s: string, sep: string): (r: seq<string>)
    requires |sep| > 0
    ensures |r| >= 1
    decreases |s|
  {
    match Find(s, sep)
    case None => [s]
    case Some(i) => [s[..i]] + Split(s[i + |sep|..], sep)
  }

  /** Python's `sep.join(parts)`. */
  function Join(parts: seq<string>, sep: string): string
  {
    if |parts| == 0 then "" else if |parts| == 1 then parts[0] else parts[0] + sep + Join(parts[1..], sep)
  }

  /** Splitting loses nothing: joining the pieces with the separator gives the text back. */
  lemma {:induction false} SplitJoin(s: string, sep: string)
    requires |sep| > 0
    ensures Join(Split(s, sep), sep) == s
    decreases |s|
  {
    match Find(s, sep)
    case None =>
    case Some(i) =>
      var rest := s[i + |sep|..];
      var tail := Split(rest, sep);
      SplitJoin(rest, sep);
      var parts := [s[..i]] + tail;
      assert Split(s, sep) == parts;
      assert parts[1..] == tail;
      assert Join(parts, sep) == s[..i] + sep + Join(tail, sep);
      assert s[i..i + |sep|] == sep;
      assert s == s[..i] + s[i..i + |sep|] + rest;
  }

  /** Splitting on a one-character separator undoes joining parts that do not contain it. */
  lemma {:induction false} JoinSplit(parts: seq<string>, c: char)
    requires |parts| >= 1
    requires forall i :: 0 <= i < |parts| ==> c !in parts[i]
    ensures Split(Join(parts, [c]), [c]) == parts
    decreases |parts|
  {
    var p := parts[0];
    if |parts| == 1 {
      assert !Contains(p, [c]) by {
        forall i | 0 <= i <= |p|
          ensures !OccursAt(p, [c], i)
        {
          if i < |p| {
            assert p[i..i + 1] == [p[i]];
          }
        }
      }
    } else {
      var rest := Join(parts[1..], [c]);
      var s := p + [c] + rest;
      assert Join(parts, [c]) == s;
      FirstSeparator(p, c, rest);
      assert s[..|p|] == p;
      assert s[|p| + 1..] == rest;
      JoinSplit(parts[1..], c);
    }
  }

  /** The first separator in `p + [c] + rest` is the one after `p` when `p` has none. */
  lemma FirstSeparator(p: string, c: char, rest: string)
    requires c !in p
    ensures Find(p + [c] + rest, [c]) == Some(|p|)
  {
    var s := p + [c] + rest;
    assert s[|p|..|p| + 1] == [c];
    assert OccursAt(s, [c], |p|);
    forall j | 0 <= j < |p|
      ensures !OccursAt(s, [c], j)
    {
      assert s[j..j + 1] == [p[j]];
    }
    var r := Find(s, [c]);
    assert r.Some?;
  }

  /** Python's `s.replace(p, q)` for a non-empty `p`: occurrences are replaced left to right,
      without overlap. */
  function Replace(s: string, p: string, q: string): string
    requires |p| > 0
    decreases |s|
  {
    if |s| == 0 then ""
    else if StartsWith(s, p) then q + Replace(s[|p|..], p, q)
    else [s[0]] + Replace(s[1..], p, q)
  }

  /** Removing every occurrence of a character leaves none. */
  lemma {:induction false} ReplaceRemoves(s: string, c: char)
    ensures c !in Replace(s, [c], "")
    decreases |s|
  {
    if |s| > 0 {
      if StartsWith(s, [c]) {
        ReplaceRemoves(s[1..], c);
      } else {
        assert s[0] != c by { assert s[..1] == [s[0]]; }
        ReplaceRemoves(s[1..], c);
      }
    }
  }

  function LeadingSpaces(s: string): (n: nat)
    ensures n <= |s|
    ensures n < |s| ==> !IsSpace(s[n])
    decreases |s|
  {
    if |s| > 0 && IsSpace(s[0]) then 1 + LeadingSpaces(s[1..]) else 0
  }

  function TrailingSpaces(s: string): (n: nat)
    ensures n <= |s|
    ensures n < |s| ==> !IsSpace(s[|s| - n - 1])
    decreases |s|
  {
    if |s| > 0 && IsSpace(s[|s| - 1]) then 1 + TrailingSpaces(s[..|s| - 1]) else 0
  }

  /** What `LeadingSpaces` and `TrailingSpaces` count is whitespace. */
  lemma {:induction false} CountedAreSpaces(s: string)
    ensures forall i :: 0 <= i < LeadingSpaces(s) ==> IsSpace(s[i])
    ensures forall i :: |s| - TrailingSpaces(s) <= i < |s| ==> IsSpace(s[i])
    decreases |s|
  {
    if |s| > 0 {
      CountedAreSpaces(s[1..]);
      CountedAreSpaces(s[..|s| - 1]);
      forall i | 0 <= i < LeadingSpaces(s) ensures IsSpace(s[i]) {
        if i > 0 { assert s[i] == s[1..][i - 1]; }
      }
      forall i | |s| - TrailingSpaces(s) <= i < |s| ensures IsSpace(s[i]) {
        if i < |s| - 1 { assert s[i] == s[..|s| - 1][i]; }
      }
    }
  }

  /** Python's `s.strip()`: `s` without the whitespace at both ends. */
  function Strip(s: string): (r: string)
    ensures |r| <= |s|
    ensures |r| == 0 || (!IsSpace(r[0]) && !IsSpace(r[|r| - 1]))
  {
    var a := LeadingSpaces(s);
    var t := s[a..];
    var b := TrailingSpaces(t);
    t[..|t| - b]
  }

  /** What `strip()` keeps is one slice of `s`, with only whitespace outside it. */
  lemma StripSlice(s: string)
    ensures exists i, j :: 0 <= i <= j <= |s| && Strip(s) == s[i..j]
              && (forall k :: 0 <= k < i ==> IsSpace(s[k])) && (forall k :: j <= k < |s| ==> IsSpace(s[k]))
  {
    var a := LeadingSpaces(s);
    var t := s[a..];
    var b := TrailingSpaces(t);
    CountedAreSpaces(s);
    CountedAreSpaces(t);
    assert Strip(s) == s[a..|s| - b];
    forall k | |s| - b <= k < |s| ensures IsSpace(s[k]) { assert s[k] == t[k - a]; }
  }

  /** A text with no blank at either end is its own `strip()`. */
  lemma StripPlain(s: string)
    requires |s| == 0 || (!IsSpace(s[0]) && !IsSpace(s[|s| - 1]))
    ensures Strip(s) == s
  {
    assert LeadingSpaces(s) == 0;
    assert s[0..] == s;
    assert TrailingSpaces(s) == 0;
  }

  /** `strip()` adds no character. */
  lemma StripKeepsOut(s: string, c: char)
    requires c !in s
    ensures c !in Strip(s)
  {
    var r := Strip(s);
    StripSlice(s);
    var i, j :| 0 <= i <= j <= |s| && r == s[i..j];
    forall k | 0 <= k < |r| ensures r[k] != c {
      assert r[k] == s[i + k];
    }
  }

  /** A character that is not in a text does not occur in it as a one-character text. */
  lemma AbsentChar(s: string, c: char)
    requires c !in s
    ensures !Contains(s, [c])
  {
    forall i | 0 <= i <= |s| ensures !OccursAt(s, [c], i) {
      if i < |s| { assert s[i..i + 1][0] == s[i]; }
    }
  }

  // ---------------------------------------------------------------------------
  // Shell-style wildcards, as `glob.glob` applies them to names in one directory

  /** `name` matches `pattern`, where `*` stands for any run of characters other than `/`
      and every other character stands for itself. */
  predicate WildMatch(pattern: string, name: string)
    decreases |pattern| + |name|
  {
    if |pattern| == 0 then |name| == 0
    else if pattern[0] == '*' then
      WildMatch(pattern[1..], name) || (|name| > 0 && name[0] != '/' && WildMatch(pattern, name[1..]))
    else |name| > 0 && name[0] == pattern[0] && WildMatch(pattern[1..], name[1..])
  }

  /** `glob` also skips names that start with `.` unless the pattern does. */
  predicate GlobMatch(pattern: string, name: string)
  {
    WildMatch(pattern, name) && (|name| > 0 && name[0] == '.' ==> |pattern| > 0 && pattern[0] == '.')
  }

  /** A pattern `prefix*suffix` whose prefix and suffix hold no `*` matches exactly the names
      that start with the prefix, end with the suffix and hold no `/` in between. */
  lemma {:induction false} StarMatch(prefix: string, suffix: string, name: string)
    requires '*' !in prefix && '*' !in suffix
    ensures WildMatch(prefix + "*" + suffix, name)
        <==> |prefix| + |suffix| <= |name| && StartsWith(name, prefix) && EndsWith(name, suffix)
             && '/' !in name[|prefix|..|name| - |suffix|]
    decreases |prefix|
  {
    var p := prefix + "*" + suffix;
    if |prefix| == 0 {
      assert p == "*" + suffix;
      StarTail(suffix, name);
    } else {
      var q := prefix[1..] + "*" + suffix;
      assert p[0] == prefix[0] && p[0] != '*' && p[1..] == q;
      assert '*' !in prefix[1..] by { assert forall c :: c in prefix[1..] ==> c in prefix; }
      if |name| > 0 && name[0] == prefix[0] {
        var t := name[1..];
        assert WildMatch(p, name) <==> WildMatch(q, t);
        StarMatch(prefix[1..], suffix, t);
        if |prefix| + |suffix| <= |name| {
          assert t[|prefix| - 1..|t| - |suffix|] == name[|prefix|..|name| - |suffix|];
          assert name[..|prefix|] == [name[0]] + t[..|prefix| - 1];
          assert prefix == [prefix[0]] + prefix[1..];
          assert t[|t| - |suffix|..] == name[|name| - |suffix|..];
        }
      } else if |prefix| <= |name| {
        assert !WildMatch(p, name);
        assert name[..|prefix|][0] != prefix[0];
      }
    }
  }

  lemma {:induction false} StarTail(suffix: string, name: string)
    requires '*' !in suffix
    ensures WildMatch("*" + suffix, name)
        <==> |suffix| <= |name| && EndsWith(name, suffix) && '/' !in name[..|name| - |suffix|]
    decreases |name|
  {
    var p := "*" + suffix;
    assert p[0] == '*' && p[1..] == suffix;
    LiteralMatch(suffix, name);
    if |name| > 0 {
      var t := name[1..];
      assert WildMatch(p, name) <==> name == suffix || (name[0] != '/' && WildMatch(p, t));
      StarTail(suffix, t);
      if |suffix| < |name| {
        TailShift(suffix, name);
      } else if |suffix| == |name| {
        assert name[..0] == [];
      }
    }
  }

  /** Dropping the first character of a name longer than the suffix keeps the suffix and
      the rest of the part before it. */
  lemma TailShift(suffix: string, name: string)
    requires |suffix| < |name|
    ensures EndsWith(name, suffix) <==> EndsWith(name[1..], suffix)
    ensures '/' !in name[..|name| - |suffix|]
        <==> name[0] != '/' && '/' !in name[1..][..|name| - 1 - |suffix|]
  {
    var k := |name| - |suffix|;
    var t := name[1..];
    assert t[k - 1..] == name[k..];
    assert name[..k] == [name[0]] + t[..k - 1];
  }

  lemma {:induction false} LiteralMatch(p: string, name: string)
    requires '*' !in p
    ensures WildMatch(p, name) <==> name == p
    decreases |p|
  {
    if |p| > 0 {
      assert p[0] in p;
      assert forall c :: c in p[1..] ==> c in p;
      if |name| > 0 {
        LiteralMatch(p[1..], name[1..]);
        if name == p { assert name[1..] == p[1..]; }
        if name[0] == p[0] && name[1..] == p[1..] { assert name == [name[0]] + name[1..]; }
      }
    }
  }
}
