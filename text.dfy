/**
 * Character classes, prefix and suffix tests, digit runs, and the QString operations the
 * plugin relies on: trimmed().isEmpty(), toInt(), join() and split().
 */
module Text {

  /** PCRE's `\s` as QRegularExpression uses it (no Unicode properties): tab, LF, VT, FF, CR, space. */
  predicate IsRegexSpace(c: char)
  {
    '\t' <= c <= '\r' || c == ' '
  }

  /** PCRE's `\S`. */
  predicate NotRegexSpace(c: char)
  {
    !IsRegexSpace(c)
  }

  /** QChar::isSpace(), the characters QString::trimmed() strips: the ASCII white space, U+0085 and the Unicode separators. */
  predicate IsQtSpace(c: char)
  {
    || IsRegexSpace(c)
    || c == '\U{85}' || c == '\U{A0}' || c == '\U{1680}'
    || ('\U{2000}' <= c <= '\U{200A}')
    || c == '\U{2028}' || c == '\U{2029}' || c == '\U{202F}' || c == '\U{205F}' || c == '\U{3000}'
  }

  /** PCRE's `\d`: an ASCII digit. */
  predicate IsDigit(c: char)
  {
    '0' <= c <= '9'
  }

  /** A character that the regular expression `.` matches (anything but a line feed). */
  predicate NotLineFeed(c: char)
  {
    c != '\n'
  }

  /** `s.trimmed().isEmpty()`: the string holds only white space. */
  predicate IsBlank(s: string)
  {
    forall i :: 0 <= i < |s| ==> IsQtSpace(s[i])
  }

  predicate StartsWith(s: string, prefix: string)
  {
    |prefix| <= |s| && s[..|prefix|] == prefix
  }

  predicate EndsWith(s: string, suffix: string)
  {
    |suffix| <= |s| && s[|s| - |suffix|..] == suffix
  }

  predicate AllDigits(s: string)
  {
    forall i :: 0 <= i < |s| ==> IsDigit(s[i])
  }

  /** The end of the longest run of characters of class `inClass` that starts at `i`. */
  function RunEnd(s: string, i: nat, inClass: char -> bool): (e: nat)
    requires i <= |s|
    ensures i <= e <= |s|
    ensures forall k :: i <= k < e ==> inClass(s[k])
    ensures e < |s| ==> !inClass(s[e])
    decreases |s| - i
  {
    if i < |s| && inClass(s[i]) then RunEnd(s, i + 1, inClass) else i
  }

  /** A run is determined by where it stops: the first position at or after `i` outside the class. */
  lemma RunEndAt(s: string, i: nat, inClass: char -> bool, e: nat)
    requires i <= e <= |s|
    requires forall k :: i <= k < e ==> inClass(s[k])
    requires e < |s| ==> !inClass(s[e])
    ensures RunEnd(s, i, inClass) == e
  {
  }

  function DigitValue(c: char): nat
  {
    if IsDigit(c) then c as int - '0' as int else 0
  }

  /** The value of a string of decimal digits. */
  function DecimalValue(s: string): nat
  {
    if s == [] then 0 else 10 * DecimalValue(s[..|s| - 1]) + DigitValue(s[|s| - 1])
  }

  const INT_MAX: int := 0x7FFF_FFFF

  /** QString::toInt() on a run of digits: the value when it fits a 32-bit int, and 0 when it does not. */
  function DigitsToInt(digits: string): (n: int)
    ensures 0 <= n <= INT_MAX
    ensures DecimalValue(digits) <= INT_MAX ==> n == DecimalValue(digits)
    ensures DecimalValue(digits) > INT_MAX ==> n == 0
  {
    var v := DecimalValue(digits);
    if v <= INT_MAX then v else 0
  }

  /** The string without its leading white space (in the sense of QChar::isSpace). */
  function TrimStart(s: string): (t: string)
    ensures |t| <= |s| && t == s[|s| - |t|..]
    ensures t != [] ==> !IsQtSpace(t[0])
    ensures forall k :: 0 <= k < |s| - |t| ==> IsQtSpace(s[k])
    decreases |s|
  {
    if s != [] && IsQtSpace(s[0]) then TrimStart(s[1..]) else s
  }

  /** The string without its trailing white space. */
  function TrimEnd(s: string): (t: string)
    ensures |t| <= |s| && t == s[..|t|]
    ensures t != [] ==> !IsQtSpace(t[|t| - 1])
    ensures forall k :: |t| <= k < |s| ==> IsQtSpace(s[k])
    decreases |s|
  {
    if s != [] && IsQtSpace(s[|s| - 1]) then TrimEnd(s[..|s| - 1]) else s
  }

  /** QString::trimmed(): white space removed from both ends. */
  function Trimmed(s: string): string
  {
    TrimEnd(TrimStart(s))
  }

  /** An optional sign followed by digits, read as a 32-bit int; anything else, and any overflow, reads as 0. */
  function SignedToInt(s: string): (n: int)
    ensures -INT_MAX - 1 <= n <= INT_MAX
  {
    if |s| > 0 && (s[0] == '-' || s[0] == '+') then
      var body := s[1..];
      if |body| > 0 && AllDigits(body) then
        var m: int := DecimalValue(body);
        var v: int := if s[0] == '-' then 0 - m else m;
        if -INT_MAX - 1 <= v <= INT_MAX then v else 0
      else 0
    else if |s| > 0 && AllDigits(s) then DigitsToInt(s)
    else 0
  }

  /**
   * QString::toInt(): white space around the number is ignored, then an optional sign and
   * digits are read; anything else, and a value outside the 32-bit range, reads as 0.
   */
  function ParseInt32(s: string): (n: int)
    ensures -INT_MAX - 1 <= n <= INT_MAX
  {
    SignedToInt(Trimmed(s))
  }

  /** Reading back a decimal numeral gives its value. */
  lemma {:induction false} DecimalOfNumeral(n: nat)
    ensures DecimalValue(NatToDecimal(n)) == n
    decreases n
  {
    var d := ['0' + ((n % 10) as char)];
    assert DigitValue(d[0]) == n % 10;
    if n >= 10 {
      var x := NatToDecimal(n / 10);
      DecimalOfNumeral(n / 10);
      assert (x + d)[..|x + d| - 1] == x;
      assert (x + d)[|x + d| - 1] == d[0];
    }
  }

  /** Every int QString::number writes, QString::toInt reads back. */
  lemma IntRoundTrip(i: int)
    requires -INT_MAX - 1 <= i <= INT_MAX
    ensures ParseInt32(IntToDecimal(i)) == i
  {
    var s := IntToDecimal(i);
    if i < 0 {
      assert s == "-" + NatToDecimal(-i);
      NegativeNumeral(-i);
      NoSpaceAtEnds(s);
      assert ParseInt32(s) == SignedToInt(s);
    } else {
      assert s == NatToDecimal(i);
      NaturalNumeral(i);
      NoSpaceAtEnds(s);
      assert ParseInt32(s) == SignedToInt(s);
    }
  }

  lemma NaturalNumeral(n: nat)
    requires n <= INT_MAX
    ensures SignedToInt(NatToDecimal(n)) == n
    ensures !IsQtSpace(NatToDecimal(n)[0]) && !IsQtSpace(NatToDecimal(n)[|NatToDecimal(n)| - 1])
  {
    var s := NatToDecimal(n);
    DecimalOfNumeral(n);
    assert IsDigit(s[0]) && IsDigit(s[|s| - 1]);
  }

  lemma NegativeNumeral(m: nat)
    requires 0 < m <= INT_MAX + 1
    ensures SignedToInt("-" + NatToDecimal(m)) == -(m as int)
    ensures !IsQtSpace(("-" + NatToDecimal(m))[0]) && !IsQtSpace(("-" + NatToDecimal(m))[|"-" + NatToDecimal(m)| - 1])
  {
    var x := NatToDecimal(m);
    var s := "-" + x;
    DecimalOfNumeral(m);
    assert s[0] == '-' && s[1..] == x;
    assert |x| > 0 && AllDigits(x) && DecimalValue(s[1..]) == m;
    assert s[|s| - 1] == x[|x| - 1] && IsDigit(x[|x| - 1]);
  }

  /** A string with no white space at either end is its own trimming. */
  lemma NoSpaceAtEnds(s: string)
    requires s != [] && !IsQtSpace(s[0]) && !IsQtSpace(s[|s| - 1])
    ensures Trimmed(s) == s
  {
    assert TrimStart(s) == s;
  }

  /** QString::toInt ignores white space before and after the number. */
  lemma SpaceAroundIgnored(before: string, s: string, after: string)
    requires IsBlank(before) && IsBlank(after)
    ensures ParseInt32(before + s + after) == ParseInt32(s)
  {
    assert before + s + after == before + (s + after);
    TrimStartSpaces(before, s + after);
    TrimStartAppend(s, after);
  }

  lemma {:induction false} TrimStartSpaces(ws: string, x: string)
    requires IsBlank(ws)
    ensures TrimStart(ws + x) == TrimStart(x)
    decreases |ws|
  {
    if ws != [] {
      assert (ws + x)[0] == ws[0];
      assert (ws + x)[1..] == ws[1..] + x;
      TrimStartSpaces(ws[1..], x);
    } else {
      assert ws + x == x;
    }
  }

  lemma {:induction false} TrimEndSpaces(x: string, ws: string)
    requires IsBlank(ws)
    ensures TrimEnd(x + ws) == TrimEnd(x)
    decreases |ws|
  {
    if ws != [] {
      var y := x + ws;
      assert y[|y| - 1] == ws[|ws| - 1];
      assert y[..|y| - 1] == x + ws[..|ws| - 1];
      TrimEndSpaces(x, ws[..|ws| - 1]);
    } else {
      assert x + ws == x;
    }
  }

  lemma {:induction false} TrimStartAppend(s: string, w: string)
    requires IsBlank(w)
    ensures TrimEnd(TrimStart(s + w)) == TrimEnd(TrimStart(s))
    decreases |s|
  {
    if s == [] {
      assert s + w == w + [];
      TrimStartSpaces(w, []);
    } else if IsQtSpace(s[0]) {
      assert (s + w)[0] == s[0];
      assert (s + w)[1..] == s[1..] + w;
      TrimStartAppend(s[1..], w);
    } else {
      assert (s + w)[0] == s[0];
      assert TrimStart(s + w) == s + w;
      TrimEndSpaces(s, w);
    }
  }

  /** QString::number(int): the decimal representation, with a minus sign for negative values. */
  function IntToDecimal(i: int): string
  {
    if i < 0 then "-" + NatToDecimal(-i) else NatToDecimal(i)
  }

  function NatToDecimal(n: nat): (s: string)
    ensures |s| > 0 && AllDigits(s)
  {
    var d := ['0' + ((n % 10) as char)];
    if n < 10 then d else NatToDecimal(n / 10) + d
  }

  /** QStringList::join(sep). */
  function Join(xs: seq<string>, sep: string): string
  {
    if |xs| == 0 then ""
    else if |xs| == 1 then xs[0]
    else xs[0] + sep + Join(xs[1..], sep)
  }

  /** The position of the first `c` in `s`, or |s| when there is none. */
  function IndexOf(s: string, c: char): (i: nat)
    ensures i <= |s|
    ensures forall k :: 0 <= k < i ==> s[k] != c
    ensures i < |s| ==> s[i] == c
  {
    RunEnd(s, 0, x => x != c)
  }

  /** QString::split(sep) keeping empty parts: the empty string splits into one empty part. */
  function Split(s: string, sep: char): (parts: seq<string>)
    ensures |parts| >= 1
    decreases |s|
  {
    var i := IndexOf(s, sep);
    if i == |s| then [s] else [s[..i]] + Split(s[i + 1..], sep)
  }

  /** None of the strings contains `c`. */
  predicate NoneContains(xs: seq<string>, c: char)
  {
    forall i :: 0 <= i < |xs| ==> c !in xs[i]
  }

  /** The first `c` is at `i` when none comes before and `i` holds one or is the end. */
  lemma IndexOfAt(s: string, c: char, i: nat)
    requires i <= |s|
    requires forall k :: 0 <= k < i ==> s[k] != c
    requires i < |s| ==> s[i] == c
    ensures IndexOf(s, c) == i
  {
    RunEndAt(s, 0, x => x != c, i);
  }

  /** Joining with a separator that occurs in no element and splitting on it again gives back the list. */
  lemma {:induction false} SplitJoin(xs: seq<string>, sep: char)
    requires |xs| >= 1
    requires NoneContains(xs, sep)
    ensures Split(Join(xs, [sep]), sep) == xs
  {
    var x := xs[0];
    assert sep !in x;
    if |xs| == 1 {
      IndexOfAt(x, sep, |x|);
    } else {
      var rest := Join(xs[1..], [sep]);
      var j := x + [sep] + rest;
      assert Join(xs, [sep]) == j;
      assert j[|x|] == sep;
      assert forall k :: 0 <= k < |x| ==> j[k] == x[k];
      IndexOfAt(j, sep, |x|);
      assert j[..|x|] == x;
      assert j[|x| + 1..] == rest;
      assert NoneContains(xs[1..], sep);
      SplitJoin(xs[1..], sep);
      assert Split(j, sep) == [x] + xs[1..];
      assert xs == [x] + xs[1..];
    }
  }

  /** Splitting and joining again gives back the string, whatever it holds. */
  lemma {:induction false} JoinSplit(s: string, sep: char)
    ensures Join(Split(s, sep), [sep]) == s
    decreases |s|
  {
    var i := IndexOf(s, sep);
    if i < |s| {
      var rest := Split(s[i + 1..], sep);
      JoinSplit(s[i + 1..], sep);
      var parts := [s[..i]] + rest;
      assert Split(s, sep) == parts;
      assert parts[0] == s[..i] && parts[1..] == rest;
      assert Join(parts, [sep]) == s[..i] + [sep] + Join(rest, [sep]);
      assert s == s[..i] + [sep] + s[i + 1..];
    }
  }

  /** Joining two non-empty lists puts one separator between their joins. */
  lemma {:induction false} JoinConcat(xs: seq<string>, ys: seq<string>, sep: string)
    requires |xs| >= 1 && |ys| >= 1
    ensures Join(xs + ys, sep) == Join(xs, sep) + sep + Join(ys, sep)
  {
    if |xs| == 1 {
      assert (xs + ys)[1..] == ys;
    } else {
      assert (xs + ys)[1..] == xs[1..] + ys;
      JoinConcat(xs[1..], ys, sep);
    }
  }

  /** A join begins with its first element. */
  lemma JoinStartsWithFirst(xs: seq<string>, sep: string)
    requires |xs| >= 1
    ensures StartsWith(Join(xs, sep), xs[0])
  {
  }

  /** The join of a list whose first element is not empty is not empty. */
  lemma JoinNonEmpty(xs: seq<string>, sep: string)
    requires |xs| >= 1 && xs[0] != ""
    ensures |Join(xs, sep)| >= |xs[0]| > 0
  {
    JoinStartsWithFirst(xs, sep);
  }
}
