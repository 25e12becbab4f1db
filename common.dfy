/** Helpers shared by the services: an option type, the few Python string and
    integer primitives the services lean on (str.strip, str.isdigit, int(),
    str(int), str.split, str.replace), half-up decimal rounding, and the
    date-time codec the services treat as a black box. */
module Common {

  datatype Option<T> = None | Some(value: T)

  /** The date-time routines of the standard library, which the model does not
      re-implement: datetime.strptime with "%Y-%m-%d %H:%M:%S", datetime.fromisoformat
      and strftime with the same format. Times are whole seconds. */
  datatype TimeCodec = TimeCodec(
    parseFixed: string -> Option<int>,
    parseIso: string -> Option<int>,
    format: int -> string)

  /** The codec reads back what it writes. */
  ghost predicate RoundTrips(codec: TimeCodec) {
    forall t :: codec.parseFixed(codec.format(t)) == Some(t)
  }

  // ---------------------------------------------------------------- whitespace

  /** The characters for which Python's str.isspace() holds. */
  predicate IsSpace(c: char) {
    || c == ' '
    || ('\t' <= c <= '\r')
    || ('\U{1C}' <= c <= '\U{1F}')
    || c == '\U{85}' || c == '\U{A0}' || c == '\U{1680}'
    || ('\U{2000}' <= c <= '\U{200A}')
    || c == '\U{2028}' || c == '\U{2029}' || c == '\U{202F}' || c == '\U{205F}'
    || c == '\U{3000}'
  }

  /** Leading whitespace removed: the longest suffix that does not start with a space. */
  function TrimStart(s: string): (r: string)
    ensures |r| <= |s| && r == s[|s| - |r|..]
    ensures forall k :: 0 <= k < |s| - |r| ==> IsSpace(s[k])
    ensures r != [] ==> !IsSpace(r[0])
  {
    if s != [] && IsSpace(s[0]) then
      var r := TrimStart(s[1..]);
      assert s[1..][|s| - 1 - |r|..] == s[|s| - |r|..];
      r
    else s
  }

  /** Trailing whitespace removed: the longest prefix that does not end with a space. */
  function TrimEnd(s: string): (r: string)
    ensures |r| <= |s| && r == s[..|r|]
    ensures forall k :: |r| <= k < |s| ==> IsSpace(s[k])
    ensures r != [] ==> !IsSpace(r[|r| - 1])
  {
    if s != [] && IsSpace(s[|s| - 1]) then
      var r := TrimEnd(s[..|s| - 1]);
      assert s[..|s| - 1][..|r|] == s[..|r|];
      r
    else s
  }

  /** Python's str.strip() with no argument. */
  function Strip(s: string): (r: string)
    ensures r != [] ==> !IsSpace(r[0]) && !IsSpace(r[|r| - 1])
    ensures |r| <= |s|
  {
    var t := TrimStart(s);
    var r := TrimEnd(t);
    assert r != [] ==> r[0] == t[0];
    r
  }

  /** Strip cuts a slice out of s and drops only whitespace around it. */
  lemma StripIsSlice(s: string)
    ensures exists i, j :: (0 <= i <= j <= |s| && Strip(s) == s[i..j]
                            && (forall k :: 0 <= k < i ==> IsSpace(s[k]))
                            && (forall k :: j <= k < |s| ==> IsSpace(s[k])))
  {
    TrimBothSlice(s, TrimStart(s), TrimEnd(TrimStart(s)));
  }

  /** The two trims cut a slice out of s with only whitespace around it. */
  lemma TrimBothSlice(s: string, t: string, r: string)
    requires |t| <= |s| && t == s[|s| - |t|..] && forall k :: 0 <= k < |s| - |t| ==> IsSpace(s[k])
    requires |r| <= |t| && r == t[..|r|] && forall k :: |r| <= k < |t| ==> IsSpace(t[k])
    ensures var i, j := |s| - |t|, |s| - |t| + |r|;
      && 0 <= i <= j <= |s| && r == s[i..j]
      && (forall k :: 0 <= k < i ==> IsSpace(s[k]))
      && (forall k :: j <= k < |s| ==> IsSpace(s[k]))
  {
    var i, j := |s| - |t|, |s| - |t| + |r|;
    forall k | 0 <= k < |r|
      ensures r[k] == s[i..j][k]
    {
      assert r[k] == t[k] && t[k] == s[i + k];
    }
    forall k | j <= k < |s|
      ensures IsSpace(s[k])
    {
      assert s[k] == t[k - i];
    }
  }

  /** A string whose ends are not whitespace is its own strip. */
  lemma StripUnpadded(s: string)
    requires s != [] ==> !IsSpace(s[0]) && !IsSpace(s[|s| - 1])
    ensures Strip(s) == s
  {
  }

  // ------------------------------------------------------------------- digits

  predicate IsDigit(c: char) {
    '0' <= c <= '9'
  }

  predicate AllDigits(s: string) {
    forall i :: 0 <= i < |s| ==> IsDigit(s[i])
  }

  /** Python's str.isdigit(), restricted to the ASCII digits. */
  predicate IsDigits(s: string) {
    s != [] && AllDigits(s)
  }

  function DigitValue(c: char): nat
    requires IsDigit(c)
  {
    c as int - '0' as int
  }

  function DigitChar(d: nat): (c: char)
    requires d < 10
    ensures IsDigit(c) && DigitValue(c) == d
  {
    ('0' as int + d) as char
  }

  /** The value of a decimal numeral (leading zeros allowed). */
  function DigitsValue(s: string): nat
    requires AllDigits(s)
  {
    if s == [] then 0 else DigitsValue(s[..|s| - 1]) * 10 + DigitValue(s[|s| - 1])
  }

  /** str(n) for a natural number: no sign, no leading zero. */
  function NatToString(n: nat): (r: string)
    ensures IsDigits(r)
    ensures r[0] == '0' ==> n == 0
  {
    if n < 10 then [DigitChar(n)] else NatToString(n / 10) + [DigitChar(n % 10)]
  }

  lemma {:induction false} NatToStringRoundTrip(n: nat)
    ensures DigitsValue(NatToString(n)) == n
  {
    if n >= 10 {
      var p := NatToString(n / 10);
      var r := NatToString(n);
      assert r == p + [DigitChar(n % 10)];
      assert r[..|r| - 1] == p;
      NatToStringRoundTrip(n / 10);
    }
  }

  /** str(i) for any integer. */
  function IntToString(i: int): (r: string)
    ensures r != [] && (r[0] == '-' || IsDigit(r[0]))
    ensures IsDigit(r[|r| - 1])
  {
    if i < 0 then "-" + NatToString(-i) else NatToString(i)
  }

  // ------------------------------------------------------------------ int()

  /** A Python integer literal body: digits, with single underscores allowed
      between two digits. */
  predicate IsNumeral(s: string) {
    && s != []
    && IsDigit(s[0])
    && forall i :: 0 <= i < |s| ==> (IsDigit(s[i]) || s[i] == '_') && DigitFollows(s, i)
  }

  /** An underscore at i is followed by a digit. */
  predicate DigitFollows(s: string, i: nat)
    requires i < |s|
  {
    s[i] == '_' ==> i + 1 < |s| && IsDigit(s[i + 1])
  }

  function DropUnderscores(s: string): (r: string)
    ensures forall i :: 0 <= i < |r| ==> r[i] != '_'
    ensures |r| <= |s|
  {
    if s == [] then []
    else if s[0] == '_' then DropUnderscores(s[1..])
    else [s[0]] + DropUnderscores(s[1..])
  }

  lemma {:induction false} DropUnderscoresOfNumeral(s: string)
    requires forall i :: 0 <= i < |s| ==> IsDigit(s[i]) || s[i] == '_'
    ensures AllDigits(DropUnderscores(s))
  {
    if s != [] {
      DropUnderscoresOfNumeral(s[1..]);
    }
  }

  lemma {:induction false} DropUnderscoresOfDigits(s: string)
    requires AllDigits(s)
    ensures DropUnderscores(s) == s
  {
    if s != [] {
      DropUnderscoresOfDigits(s[1..]);
    }
  }

  function ParseUnsigned(s: string): (r: Option<nat>)
    ensures r.Some? <==> IsNumeral(s)
  {
    if IsNumeral(s) then
      DropUnderscoresOfNumeral(s);
      Some(DigitsValue(DropUnderscores(s)))
    else None
  }

  /** Python's int(s) in base 10: surrounding whitespace, an optional sign,
      then a numeral; None where Python raises ValueError. */
  function ParseInt(s: string): (r: Option<int>)
  {
    var t := Strip(s);
    if t != [] && (t[0] == '+' || t[0] == '-') then
      match ParseUnsigned(t[1..])
      case None => None
      case Some(n) => var v: int := n; Some(if t[0] == '-' then -v else v)
    else
      match ParseUnsigned(t)
      case None => None
      case Some(n) => Some(n)
  }

  /** int(str(i)) == i. */
  lemma ParseIntOfIntToString(i: int)
    ensures ParseInt(IntToString(i)) == Some(i)
  {
    if i < 0 {
      ParseIntOfNegative(i);
    } else {
      ParseIntOfNonNegative(i);
    }
  }

  lemma ParseIntOfNonNegative(i: int)
    requires i >= 0
    ensures ParseInt(IntToString(i)) == Some(i)
  {
    var d := NatToString(i);
    assert IntToString(i) == d;
    ParseUnsignedOfNatToString(i);
    ParseIntOfDigits(d, i);
  }

  lemma ParseIntOfNegative(i: int)
    requires i < 0
    ensures ParseInt(IntToString(i)) == Some(i)
  {
    var d := NatToString(-i);
    assert IntToString(i) == "-" + d;
    ParseUnsignedOfNatToString(-i);
    ParseIntOfSignedDigits(d, -i);
  }

  /** A digit string that int() reads as n, with nothing around it. */
  lemma ParseIntOfDigits(d: string, n: nat)
    requires IsDigits(d) && ParseUnsigned(d) == Some(n)
    ensures ParseInt(d) == Some(n)
  {
    assert IsDigit(d[0]) && IsDigit(d[|d| - 1]);
    StripUnpadded(d);
  }

  /** The same digit string after a minus sign. */
  lemma ParseIntOfSignedDigits(d: string, n: nat)
    requires IsDigits(d) && ParseUnsigned(d) == Some(n)
    ensures ParseInt("-" + d) == Some(-(n as int))
  {
    var s := "-" + d;
    assert s[0] == '-' && s[|s| - 1] == d[|d| - 1] && IsDigit(d[|d| - 1]);
    StripUnpadded(s);
    assert s[1..] == d;
  }

  lemma ParseUnsignedOfNatToString(n: nat)
    ensures ParseUnsigned(NatToString(n)) == Some(n)
  {
    var digits := NatToString(n);
    DropUnderscoresOfDigits(digits);
    NatToStringRoundTrip(n);
    assert IsNumeral(digits);
  }

  // ------------------------------------------------------------------ split

  /** Index of the first occurrence of c in s, or |s| when there is none. */
  function IndexOf(s: string, c: char): (i: nat)
    ensures i <= |s|
    ensures i < |s| ==> s[i] == c
    ensures forall k :: 0 <= k < i ==> s[k] != c
  {
    if s == [] then 0 else if s[0] == c then 0 else 1 + IndexOf(s[1..], c)
  }

  /** Python's s.split(sep) for a one-character separator: always at least one part. */
  function Split(s: string, sep: char): (parts: seq<string>)
    ensures |parts| >= 1
    ensures forall p :: p in parts ==> sep !in p
    decreases |s|
  {
    var i := IndexOf(s, sep);
    if i == |s| then [s] else [s[..i]] + Split(s[i + 1..], sep)
  }

  /** sep.join(parts). */
  function Join(parts: seq<string>, sep: char): string
    requires |parts| >= 1
  {
    if |parts| == 1 then parts[0] else parts[0] + [sep] + Join(parts[1..], sep)
  }

  /** Joining the parts of a split gives the string back. */
  lemma {:induction false} JoinSplit(s: string, sep: char)
    ensures Join(Split(s, sep), sep) == s
    decreases |s|
  {
    var i := IndexOf(s, sep);
    if i < |s| {
      var rest := Split(s[i + 1..], sep);
      assert Split(s, sep) == [s[..i]] + rest;
      JoinSplit(s[i + 1..], sep);
      JoinCons(s[..i], rest, sep);
      AroundIndex(s, i);
    }
  }

  /** A sequence is what comes before index i, the element there, and what follows. */
  lemma AroundIndex<T>(s: seq<T>, i: nat)
    requires i < |s|
    ensures s == s[..i] + [s[i]] + s[i + 1..]
  {
  }

  lemma JoinCons(p: string, rest: seq<string>, sep: char)
    requires rest != []
    ensures Join([p] + rest, sep) == p + [sep] + Join(rest, sep)
  {
    assert ([p] + rest)[1..] == rest;
  }

  /** Splitting a join of separator-free parts gives the parts back. */
  lemma {:induction false} SplitJoin(parts: seq<string>, sep: char)
    requires |parts| >= 1
    requires forall k :: 0 <= k < |parts| ==> sep !in parts[k]
    ensures Split(Join(parts, sep), sep) == parts
  {
    var s := Join(parts, sep);
    var p := parts[0];
    if |parts| == 1 {
      assert IndexOf(s, sep) == |s|;
    } else {
      var rest := Join(parts[1..], sep);
      assert s == p + [sep] + rest;
      assert s[|p|] == sep;
      assert forall k :: 0 <= k < |p| ==> s[k] == p[k];
      IndexOfFirst(s, sep, |p|);
      assert s[..|p|] == p;
      assert s[|p| + 1..] == rest;
      SplitJoin(parts[1..], sep);
    }
  }

  lemma IndexOfFirst(s: string, c: char, i: nat)
    requires i < |s| && s[i] == c
    requires forall k :: 0 <= k < i ==> s[k] != c
    ensures IndexOf(s, c) == i
  {
  }

  /** The comma-separated three numbers of a draw: the first three parts of
      s.split(",") must each pass int(); later parts are ignored; fewer than
      three parts, or one that int() refuses, is a failure. */
  function ParseThree(s: string): (r: Option<(int, int, int)>)
    ensures r.Some? ==> |Split(s, ',')| >= 3
  {
    var parts := Split(s, ',');
    if |parts| < 3 then None
    else match (ParseInt(parts[0]), ParseInt(parts[1]), ParseInt(parts[2]))
      case (Some(a), Some(b), Some(c)) => Some((a, b, c))
      case _ => None
  }

  /** Three integers written "a,b,c", followed by any further comma-separated
      parts, read back as (a, b, c). */
  lemma ParseThreeOfJoin(parts: seq<string>, a: int, b: int, c: int)
    requires |parts| >= 3
    requires parts[0] == IntToString(a) && parts[1] == IntToString(b) && parts[2] == IntToString(c)
    requires forall k :: 3 <= k < |parts| ==> ',' !in parts[k]
    ensures ParseThree(Join(parts, ',')) == Some((a, b, c))
  {
    IntToStringHasNoComma(a);
    IntToStringHasNoComma(b);
    IntToStringHasNoComma(c);
    assert forall k :: 0 <= k < |parts| ==> ',' !in parts[k];
    SplitJoin(parts, ',');
    ParseIntOfIntToString(a);
    ParseIntOfIntToString(b);
    ParseIntOfIntToString(c);
    ParseThreeOfParts(Join(parts, ','), parts, a, b, c);
  }

  lemma ParseThreeOfParts(s: string, parts: seq<string>, a: int, b: int, c: int)
    requires Split(s, ',') == parts && |parts| >= 3
    requires ParseInt(parts[0]) == Some(a) && ParseInt(parts[1]) == Some(b) && ParseInt(parts[2]) == Some(c)
    ensures ParseThree(s) == Some((a, b, c))
  {
  }

  lemma IntToStringHasNoComma(i: int)
    ensures ',' !in IntToString(i)
  {
    var s := IntToString(i);
    var n: nat := if i < 0 then -i else i;
    assert forall k :: 0 <= k < |NatToString(n)| ==> IsDigit(NatToString(n)[k]);
    if i < 0 {
      assert s == "-" + NatToString(n);
    }
  }

  // ---------------------------------------------------------------- replace

  /** s.replace(c, ""). */
  function RemoveChar(s: string, c: char): (r: string)
    ensures c !in r
    ensures |r| <= |s|
    ensures c !in s ==> r == s
  {
    if s == [] then [] else (if s[0] == c then [] else [s[0]]) + RemoveChar(s[1..], c)
  }

  /** s.replace(a, b) for one-character a and b. */
  function ReplaceChar(s: string, a: char, b: char): (r: string)
    ensures |r| == |s|
    ensures forall k :: 0 <= k < |s| ==> r[k] == (if s[k] == a then b else s[k])
  {
    if s == [] then [] else [if s[0] == a then b else s[0]] + ReplaceChar(s[1..], a, b)
  }

  // ----------------------------------------------------------------- slices

  /** s[:n] in Python, for n >= 0. */
  function Take<T>(s: seq<T>, n: nat): (r: seq<T>)
    ensures |r| == if |s| < n then |s| else n
    ensures r == s[..|r|]
  {
    if |s| <= n then s else s[..n]
  }

  // --------------------------------------------------------------- rounding

  /** Decimal quantize with ROUND_HALF_UP: n / d rounded to the nearest
      integer, halves away from zero. */
  function RoundHalfUp(n: int, d: int): (r: int)
    requires d > 0
    ensures n >= 0 ==> 2 * d * r - d <= 2 * n < 2 * d * r + d
    ensures n < 0 ==> 2 * d * r - d < 2 * n <= 2 * d * r + d
  {
    if n >= 0 then
      var q := (2 * n + d) / (2 * d);
      assert 2 * n + d == 2 * d * q + (2 * n + d) % (2 * d);
      q
    else
      var q := (-2 * n + d) / (2 * d);
      assert -2 * n + d == 2 * d * q + (-2 * n + d) % (2 * d);
      -q
  }

  /** Rounding a whole multiple of d changes nothing: q2 of an amount that is
      already in whole cents is that amount. */
  lemma RoundHalfUpExact(k: int, d: int)
    requires d > 0
    ensures RoundHalfUp(k * d, d) == k
  {
    var r := RoundHalfUp(k * d, d);
    if r > k {
      MulMonotone(d, k + 1, r);
    } else if r < k {
      MulMonotone(d, r + 1, k);
    }
  }

  lemma MulMonotone(d: int, a: int, b: int)
    requires d > 0 && a <= b
    ensures d * a <= d * b
  {
  }

  // ------------------------------------------------------------ truthiness

  /** Python's "x or d" on a nullable integer column: None and 0 fall back
      to d, any other value is kept, negative ones included. */
  function OrDefault(x: Option<int>, d: int): (r: int)
    ensures r == d || (x.Some? && r == x.value)
    ensures x.Some? && x.value != 0 ==> r == x.value
    ensures (x.None? || x.value == 0) ==> r == d
  {
    if x.None? || x.value == 0 then d else x.value
  }
}
