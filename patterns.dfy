/**
 * The regular expressions of the compiler-output parsers, written as decision procedures
 * that follow PCRE's matching order (leftmost start, greedy quantifiers, backtracking), with
 * lemmas that relate each procedure to the plain reading of its pattern.
 */
module Patterns {
  import opened Host
  import opened Text

  /** `prefix`, then one or more digits, then "]: " (the bracketed code of a marker line). */
  predicate CodedMarker(line: string, prefix: string)
  {
    StartsWith(line, prefix) &&
    var e := RunEnd(line, |prefix|, IsDigit);
    e > |prefix| && StartsWith(line[e..], "]: ")
  }

  /** `^error(\[E\d+\])?: ` */
  predicate IsErrorMarker(line: string)
  {
    StartsWith(line, "error: ") || CodedMarker(line, "error[E")
  }

  /** `^warning(\[.\d+\])?: `, where `.` is any character but a line feed. */
  predicate IsWarningMarker(line: string)
  {
    || StartsWith(line, "warning: ")
    || (StartsWith(line, "warning[") && |line| > 8 && NotLineFeed(line[8]) && CodedMarker(line, line[..9]))
  }

  /** `line` starts with `prefix`, the digits `code` and "]: ". */
  predicate CodeAt(line: string, prefix: string, code: string)
  {
    |code| > 0 && AllDigits(code) && StartsWith(line, prefix + code + "]: ")
  }

  /** The bracketed form of a marker, read directly off the pattern. */
  lemma CodedMarkerMeaning(line: string, prefix: string)
    ensures CodedMarker(line, prefix) <==> exists code :: CodeAt(line, prefix, code)
  {
    if CodedMarker(line, prefix) {
      var e := RunEnd(line, |prefix|, IsDigit);
      var code := line[|prefix|..e];
      assert line[..|prefix + code + "]: "|] == prefix + code + "]: ";
      assert CodeAt(line, prefix, code);
    }
    if code :| CodeAt(line, prefix, code) {
      var w := prefix + code + "]: ";
      var e := |prefix| + |code|;
      assert line[..|w|] == w;
      assert line[..|prefix|] == w[..|prefix|] == prefix;
      assert line[e] == w[e] == ']';
      RunEndAt(line, |prefix|, IsDigit, e);
      assert w == (prefix + code) + "]: ";
      assert w[e..] == "]: ";
      assert line[e..][..3] == w[e..e + 3] == "]: ";
    }
  }

  /** An error marker is "error: " or "error[E" digits "]: " at the start of the line. */
  lemma ErrorMarkerMeaning(line: string)
    ensures IsErrorMarker(line) <==>
            StartsWith(line, "error: ") || exists code :: CodeAt(line, "error[E", code)
  {
    CodedMarkerMeaning(line, "error[E");
  }

  /** `line` starts with "warning[", the character `c`, the digits `code` and "]: ". */
  predicate WarningCodeAt(line: string, c: char, code: string)
  {
    NotLineFeed(c) && CodeAt(line, "warning[" + [c], code)
  }

  /** A warning marker is "warning: " or "warning[" one character, digits "]: " at the start of the line. */
  lemma WarningMarkerMeaning(line: string)
    ensures IsWarningMarker(line) <==>
            StartsWith(line, "warning: ") || exists c, code :: WarningCodeAt(line, c, code)
  {
    if IsWarningMarker(line) && !StartsWith(line, "warning: ") {
      assert line[..9] == "warning[" + [line[8]];
      CodedMarkerMeaning(line, line[..9]);
      var code :| CodeAt(line, line[..9], code);
      assert WarningCodeAt(line, line[8], code);
    }
    if c, code :| WarningCodeAt(line, c, code) {
      var w := "warning[" + [c] + code + "]: ";
      assert line[..|w|] == w;
      assert line[..8] == w[..8] == "warning[";
      assert line[8] == c;
      assert line[..9] == w[..9] == "warning[" + [c];
      CodedMarkerMeaning(line, line[..9]);
    }
  }

  /** A whole location match: where the file capture starts, the file text, and the line-number digits. */
  datatype Location = Location(fileStart: nat, file: string, lineDigits: string)

  /** `:(\d+):(\d+)` at the start of `t`: the first digit group when it matches. */
  function TailDigits(t: string): Option<string>
  {
    if |t| > 0 && t[0] == ':' then
      var e := RunEnd(t, 1, IsDigit);
      if e > 1 && e < |t| && t[e] == ':' && RunEnd(t, e + 1, IsDigit) > e + 1 then Some(t[1..e]) else None
    else None
  }

  /**
   * Greedy `(.*)` before the tail: the last position in `p..j` at which the tail matches.
   * PCRE tries the longest capture first and backs off one character at a time.
   */
  function CaptureEnd(line: string, p: nat, j: nat): (r: Option<nat>)
    requires p <= j <= |line|
    ensures r.Some? ==> p <= r.value <= j && TailDigits(line[r.value..]).Some?
    ensures r.Some? ==> forall k :: r.value < k <= j ==> TailDigits(line[k..]).None?
    ensures r.None? ==> forall k :: p <= k <= j ==> TailDigits(line[k..]).None?
    decreases j - p
  {
    if TailDigits(line[j..]).Some? then Some(j)
    else if j == p then None
    else CaptureEnd(line, p, j - 1)
  }

  /** `(.*):(\d+):(\d+)` matched from position `p`; `.` stops at the first line feed. */
  function CaptureFrom(line: string, p: nat): (r: Option<Location>)
    requires p <= |line|
    ensures r.Some? ==> r.value.fileStart == p && p + |r.value.file| <= |line|
                        && line[p..p + |r.value.file|] == r.value.file
                        && NotLineFeedIn(r.value.file)
                        && TailDigits(line[p + |r.value.file|..]) == Some(r.value.lineDigits)
  {
    var lim := RunEnd(line, p, NotLineFeed);
    match CaptureEnd(line, p, lim)
    case None => None
    case Some(j) => Some(Location(p, line[p..j], TailDigits(line[j..]).value))
  }

  predicate NotLineFeedIn(s: string)
  {
    forall i :: 0 <= i < |s| ==> NotLineFeed(s[i])
  }

  /** `^\s*--> (.*):(\d+):(\d+)` (the pattern of NimParser in nimoutputtaskparser.cpp). */
  function IndentedLocation(line: string): Option<Location>
  {
    var w := RunEnd(line, 0, IsRegexSpace);
    if StartsWith(line[w..], "--> ") then CaptureFrom(line, w + 4) else None
  }

  /** `^\S*--> (.*):(\d+):(\d+)` (the pattern of LineStateMachine). */
  function PrefixedLocation(line: string): Option<Location>
  {
    var w := RunEnd(line, 0, NotRegexSpace);
    if 3 <= w < |line| && line[w] == ' ' && line[w - 3..w] == "-->" then CaptureFrom(line, w + 1) else None
  }

  /** `k` is a place where "--> " can follow a `\S*` prefix. */
  predicate ArrowAfterNonSpace(line: string, k: nat)
  {
    k + 4 <= |line| && (forall i :: 0 <= i < k ==> NotRegexSpace(line[i])) && line[k..k + 4] == "--> "
  }

  /** An arrow after a `\S*` prefix ends exactly where the leading run of non-space characters ends. */
  lemma ArrowPosition(line: string, k: nat)
    requires ArrowAfterNonSpace(line, k)
    ensures RunEnd(line, 0, NotRegexSpace) == k + 3
  {
    var arrow := line[k..k + 4];
    assert line[k] == arrow[0] && line[k + 1] == arrow[1] && line[k + 2] == arrow[2] && line[k + 3] == arrow[3];
    RunEndAt(line, 0, NotRegexSpace, k + 3);
  }

  /**
   * `^\S*-->` accepts exactly the lines in which every character before the arrow is not white
   * space; there is at most one such arrow, so backtracking over `\S*` has one candidate.
   */
  lemma PrefixedLocationMeaning(line: string)
    ensures forall k: nat, k': nat :: ArrowAfterNonSpace(line, k) && ArrowAfterNonSpace(line, k') ==> k == k'
    ensures PrefixedLocation(line).Some? <==>
            exists k: nat :: ArrowAfterNonSpace(line, k) && CaptureFrom(line, k + 4).Some?
    ensures forall k: nat :: ArrowAfterNonSpace(line, k) ==> PrefixedLocation(line) == CaptureFrom(line, k + 4)
  {
    forall k: nat | ArrowAfterNonSpace(line, k) ensures PrefixedLocation(line) == CaptureFrom(line, k + 4) {
      ArrowCapture(line, k);
    }
    forall k: nat, k': nat | ArrowAfterNonSpace(line, k) && ArrowAfterNonSpace(line, k') ensures k == k' {
      ArrowPosition(line, k);
      ArrowPosition(line, k');
    }
    if PrefixedLocation(line).Some? {
      PrefixedArrow(line);
    }
  }

  /** With an arrow at `k`, the location is the capture after it. */
  lemma ArrowCapture(line: string, k: nat)
    requires ArrowAfterNonSpace(line, k)
    ensures PrefixedLocation(line) == CaptureFrom(line, k + 4)
  {
    ArrowPosition(line, k);
    var arrow := line[k..k + 4];
    assert line[k + 3] == arrow[3] && line[k..k + 3] == arrow[..3];
  }

  /** A location has its arrow right before the end of the leading non-space run. */
  lemma PrefixedArrow(line: string)
    requires PrefixedLocation(line).Some?
    ensures ArrowAfterNonSpace(line, RunEnd(line, 0, NotRegexSpace) - 3)
    ensures CaptureFrom(line, RunEnd(line, 0, NotRegexSpace) + 1).Some?
  {
    var w := RunEnd(line, 0, NotRegexSpace);
    assert line[w - 3..w + 1] == line[w - 3..w] + [line[w]];
  }

  /** `^\s*-->` accepts the arrow after the longest run of leading white space. */
  lemma IndentedLocationMeaning(ws: string, rest: string)
    requires forall i :: 0 <= i < |ws| ==> IsRegexSpace(ws[i])
    ensures IndentedLocation(ws + "--> " + rest) == CaptureFrom(ws + "--> " + rest, |ws| + 4)
  {
    var line := ws + "--> " + rest;
    RunEndAt(line, 0, IsRegexSpace, |ws|);
    assert line[|ws|..][..4] == "--> ";
  }

  /** A line that starts with white space never has a `^\S*-->` location, whatever follows. */
  lemma IndentedLineIsNotPrefixed(line: string)
    requires |line| > 0 && IsRegexSpace(line[0])
    ensures PrefixedLocation(line).None?
  {
    RunEndAt(line, 0, NotRegexSpace, 0);
  }

  /**
   * On `--> file:line:col` whose file holds no line feed, the capture is exactly `file` and the
   * line-number group exactly `line`, even when the file itself contains colons.
   */
  lemma {:induction false} PlainCapture(line: string, p: nat, file: string, ln: string, col: string)
    requires |ln| > 0 && AllDigits(ln) && |col| > 0 && AllDigits(col)
    requires NotLineFeedIn(file)
    requires p <= |line| && line[p..] == file + ":" + ln + ":" + col
    ensures CaptureFrom(line, p) == Some(Location(p, file, ln))
  {
    var j := p + |file|;
    var t := ":" + ln + ":" + col;
    assert line[p..] == file + t;
    assert line[j..] == line[p..][|file|..] == t;
    assert line[p..j] == line[p..][..|file|] == file;
    TailAtColon(t, ln, col);
    TailHasNoLineFeed(t, ln, col);
    PlainCaptureRun(line, p, file, t);
    forall k | j < k <= |line| ensures TailDigits(line[k..]).None? {
      NoTailAfter(t, ln, col, k - j);
      assert line[k..] == t[k - j..];
    }
    CaptureEndAt(line, p, |line|, j);
  }

  /** The greedy capture ends at the last position up to `lim` where the tail matches. */
  lemma CaptureEndAt(line: string, p: nat, lim: nat, j: nat)
    requires p <= j <= lim <= |line|
    requires TailDigits(line[j..]).Some?
    requires forall k :: j < k <= lim ==> TailDigits(line[k..]).None?
    ensures CaptureEnd(line, p, lim) == Some(j)
  {
    var r := CaptureEnd(line, p, lim);
    if r.Some? {
      assert r.value <= j;
    }
  }

  /** `:ln:col` is a tail whose first group is `ln`. */
  lemma TailAtColon(t: string, ln: string, col: string)
    requires |ln| > 0 && AllDigits(ln) && |col| > 0 && AllDigits(col)
    requires t == ":" + ln + ":" + col
    ensures TailDigits(t) == Some(ln)
  {
    RunEndAt(t, 1, IsDigit, 1 + |ln|);
    RunEndAt(t, 2 + |ln|, IsDigit, |t|);
    assert t[1..1 + |ln|] == ln;
  }

  lemma TailHasNoLineFeed(t: string, ln: string, col: string)
    requires AllDigits(ln) && AllDigits(col)
    requires t == ":" + ln + ":" + col
    ensures NotLineFeedIn(t)
  {
    var q := 1 + |ln|;
    forall i | 0 <= i < |t| ensures NotLineFeed(t[i]) {
      if 1 <= i < q {
        assert t[i] == ln[i - 1];
      } else if q < i {
        assert t[i] == col[i - q - 1];
      }
    }
  }

  /** `.` runs from `p` to the end of a line whose rest is `file` and a tail with no line feed. */
  lemma PlainCaptureRun(line: string, p: nat, file: string, t: string)
    requires NotLineFeedIn(file) && NotLineFeedIn(t)
    requires p <= |line| && line[p..] == file + t
    ensures RunEnd(line, p, NotLineFeed) == |line|
  {
    forall i | p <= i < |line| ensures NotLineFeed(line[i]) {
      assert line[i] == line[p..][i - p];
      if i < p + |file| {
        assert line[p..][i - p] == file[i - p];
      } else {
        assert line[p..][i - p] == t[i - p - |file|];
      }
    }
    RunEndAt(line, p, NotLineFeed, |line|);
  }

  /** Past its opening colon, `:ln:col` holds no further `:(\d+):(\d+)`. */
  lemma NoTailAfter(t: string, ln: string, col: string, d: nat)
    requires AllDigits(ln) && |col| > 0 && AllDigits(col)
    requires t == ":" + ln + ":" + col
    requires 0 < d <= |t|
    ensures TailDigits(t[d..]).None?
  {
    var q := 1 + |ln|;
    forall i | 1 <= i < q ensures t[i] != ':' {
      assert t[i] == ln[i - 1];
    }
    forall i | q < i < |t| ensures t[i] != ':' {
      assert t[i] == col[i - q - 1];
    }
    assert t[q..] == ":" + col;
    RunEndAt(t[q..], 1, IsDigit, |t[q..]|);
    if d < |t| {
      assert t[d..][0] == t[d];
    }
  }

  /** `scheme` at position `i`, followed by at least one character that is not white space. */
  predicate SchemeAt(line: string, i: nat, scheme: string)
  {
    i + |scheme| < |line| && line[i..i + |scheme|] == scheme && NotRegexSpace(line[i + |scheme|])
  }

  /** `https?\://[^\s]+` can match starting at `i`. */
  predicate UrlAt(line: string, i: nat)
  {
    SchemeAt(line, i, "http://") || SchemeAt(line, i, "https://")
  }

  /** Where a URL match starts in its line and how long it is. */
  datatype UrlMatch = UrlMatch(start: nat, length: nat)

  /**
   * `https?\://[^\s]+` searched from `from`: the leftmost start, and the greedy run of
   * non-space characters from there gives the length.
   */
  function FirstUrl(line: string, from: nat): (r: Option<UrlMatch>)
    requires from <= |line|
    ensures r.Some? ==> from <= r.value.start && UrlAt(line, r.value.start)
                        && r.value.start + r.value.length == RunEnd(line, r.value.start, NotRegexSpace)
    ensures r.Some? ==> forall i: nat :: from <= i < r.value.start ==> !UrlAt(line, i)
    ensures r.None? ==> forall i: nat :: from <= i <= |line| ==> !UrlAt(line, i)
    decreases |line| - from
  {
    if UrlAt(line, from) then Some(UrlMatch(from, RunEnd(line, from, NotRegexSpace) - from))
    else if from == |line| then None
    else FirstUrl(line, from + 1)
  }

  /** The URL predicate of NimParser::handleLink: the text contains an http or https URL. */
  predicate HasUrl(s: string)
  {
    FirstUrl(s, 0).Some?
  }

  /**
   * The matched text is a URL: it starts with "http://" or "https://", has at least one more
   * character, holds no white space, and is followed by white space or the end of the line.
   */
  lemma UrlMatchText(line: string, m: UrlMatch)
    requires FirstUrl(line, 0) == Some(m)
    ensures m.start + m.length <= |line|
    ensures var u := line[m.start..m.start + m.length];
            && ((StartsWith(u, "http://") && |u| > 7) || (StartsWith(u, "https://") && |u| > 8))
            && (forall i :: 0 <= i < |u| ==> NotRegexSpace(u[i]))
    ensures m.start + m.length < |line| ==> IsRegexSpace(line[m.start + m.length])
  {
    var e := RunEnd(line, m.start, NotRegexSpace);
    assert UrlAt(line, m.start) && m.start + m.length == e;
    UrlRunText(line, m.start);
  }

  /** The run of non-space characters from where a URL starts is the URL's text. */
  lemma UrlRunText(line: string, start: nat)
    requires UrlAt(line, start)
    ensures var u := line[start..RunEnd(line, start, NotRegexSpace)];
            && ((StartsWith(u, "http://") && |u| > 7) || (StartsWith(u, "https://") && |u| > 8))
            && (forall i :: 0 <= i < |u| ==> NotRegexSpace(u[i]))
  {
    var http := "http://";
    var https := "https://";
    assert forall i :: 0 <= i < |http| ==> NotRegexSpace(http[i]);
    assert forall i :: 0 <= i < |https| ==> NotRegexSpace(https[i]);
    if SchemeAt(line, start, http) {
      SchemeRunText(line, start, http);
    } else {
      SchemeRunText(line, start, https);
    }
  }

  lemma SchemeRunText(line: string, start: nat, scheme: string)
    requires SchemeAt(line, start, scheme)
    requires forall i :: 0 <= i < |scheme| ==> NotRegexSpace(scheme[i])
    ensures var u := line[start..RunEnd(line, start, NotRegexSpace)];
            && StartsWith(u, scheme) && |u| > |scheme| && (forall i :: 0 <= i < |u| ==> NotRegexSpace(u[i]))
  {
    var e := RunEnd(line, start, NotRegexSpace);
    var k := start + |scheme|;
    assert forall i :: start <= i < k ==> line[i] == line[start..k][i - start];
    assert e > k;
    var u := line[start..e];
    assert u[..|scheme|] == line[start..k];
  }


  /** A marker line starts with a letter. */
  lemma MarkerStart(line: string)
    requires IsErrorMarker(line) || IsWarningMarker(line)
    ensures |line| > 0 && (line[0] == 'e' || line[0] == 'w')
  {
    if StartsWith(line, "error: ") || StartsWith(line, "warning: ") {
    } else if IsErrorMarker(line) {
      assert line[..7] == "error[E";
      assert line[0] == line[..7][0];
    } else {
      assert line[..8] == "warning[";
      assert line[0] == line[..8][0];
    }
  }

  /** An error marker starts with 'e' and a warning marker with 'w': no line is both. */
  lemma MarkersDisjoint(line: string)
    ensures !(IsErrorMarker(line) && IsWarningMarker(line))
  {
    if |line| >= 7 {
      assert line[..7][0] == line[0];
    }
    if |line| >= 8 {
      assert line[..8][0] == line[0];
    }
    if |line| >= 9 {
      assert line[..9][0] == line[0];
    }
  }

  /** A line that starts with white space is no marker. */
  lemma IndentedLineIsNoMarker(line: string)
    requires |line| > 0 && IsRegexSpace(line[0])
    ensures !IsErrorMarker(line) && !IsWarningMarker(line)
  {
    if |line| >= 7 {
      assert line[..7][0] == line[0];
    }
    if |line| >= 8 {
      assert line[..8][0] == line[0];
    }
    if |line| >= 9 {
      assert line[..9][0] == line[0];
    }
  }

  /** A marker line is never taken for a `^\s*-->` location. */
  lemma MarkerIsNotIndentedLocation(line: string)
    requires IsErrorMarker(line) || IsWarningMarker(line)
    ensures IndentedLocation(line).None?
  {
    MarkerStart(line);
    RunEndAt(line, 0, IsRegexSpace, 0);
    assert line[0..] == line;
    if |line| >= 4 {
      assert line[..4][0] == line[0];
    }
  }

  /** No pattern matches a blank line: each needs a character that is not white space. */
  lemma BlankLineMatchesNothing(line: string)
    requires IsBlank(line)
    ensures !IsErrorMarker(line) && !IsWarningMarker(line)
    ensures IndentedLocation(line).None? && PrefixedLocation(line).None?
    ensures FirstUrl(line, 0).None?
  {
    BlankIsNoMarker(line);
    BlankHasNoLocation(line);
    BlankHasNoUrl(line);
  }

  /** White space is none of the letters the patterns start with. */
  lemma SpaceIsNoPatternStart(c: char)
    ensures IsQtSpace(c) ==> c != 'e' && c != 'w' && c != 'h' && c != '-'
  {
  }

  lemma BlankIsNoMarker(line: string)
    ensures IsBlank(line) ==> !IsErrorMarker(line) && !IsWarningMarker(line)
  {
    if |line| > 0 {
      SpaceIsNoPatternStart(line[0]);
    }
    if |line| >= 7 {
      assert line[..7][0] == line[0];
    }
    if |line| >= 8 {
      assert line[..8][0] == line[0];
    }
  }

  lemma BlankHasNoLocation(line: string)
    ensures IsBlank(line) ==> IndentedLocation(line).None? && PrefixedLocation(line).None?
  {
    if IsBlank(line) {
      BlankIsNotIndented(line);
      BlankIsNotPrefixed(line);
    }
  }

  lemma BlankIsNotIndented(line: string)
    requires IsBlank(line)
    ensures IndentedLocation(line).None?
  {
    var w := RunEnd(line, 0, IsRegexSpace);
    if w + 4 <= |line| {
      SpaceIsNoPatternStart(line[w]);
      assert line[w..][..4][0] == line[w];
    }
  }

  lemma BlankIsNotPrefixed(line: string)
    requires IsBlank(line)
    ensures PrefixedLocation(line).None?
  {
    var v := RunEnd(line, 0, NotRegexSpace);
    if 3 <= v <= |line| {
      SpaceIsNoPatternStart(line[v - 3]);
      assert line[v - 3..v][0] == line[v - 3];
    }
  }

  /** No URL starts anywhere in a blank line. */
  lemma BlankHasNoUrlAt(line: string, i: nat)
    requires IsBlank(line)
    ensures !UrlAt(line, i)
  {
    if i < |line| {
      SpaceIsNoPatternStart(line[i]);
      if i + 7 <= |line| {
        assert line[i..i + 7][0] == line[i];
      }
      if i + 8 <= |line| {
        assert line[i..i + 8][0] == line[i];
      }
    }
  }

  lemma BlankHasNoUrl(line: string)
    ensures IsBlank(line) ==> FirstUrl(line, 0).None?
  {
    forall i: nat | i <= |line| && IsBlank(line)
      ensures !UrlAt(line, i)
    {
      BlankHasNoUrlAt(line, i);
    }
  }
}
