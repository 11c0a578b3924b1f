/**
 * NimParser of project/nimoutputtaskparser.cpp: the line parser that turns cargo/rustc
 * diagnostics into IDE tasks. It buffers the lines of an `error…`/`warning…` block, records
 * the first `--> file:line:col` location, collects link spans for file names and URLs, and
 * schedules one task when a blank line closes the block.
 */
module TaskParser {
  import opened Host
  import opened Text
  import opened Patterns

  /** OutputLineParser::LinkSpec: a clickable span of a line (or, once adjusted, of the task details). */
  datatype LinkSpec = LinkSpec(startPos: int, length: int, target: string)

  /** OutputLineParser::Status. */
  datatype Status = InProgress | Done | NotHandled

  /** OutputLineParser::Result: the status and the spans of the line just handled. */
  datatype LineResult = LineResult(status: Status, linkSpecs: seq<LinkSpec>)

  /**
   * A CompileTask as scheduled: severity, description, file and line, and the spans handed to
   * setDetailsFormat (which turns them into format ranges over the details).
   */
  datatype CompileTask = CompileTask(kind: TaskType, description: string, file: Path, line: int, linkSpecs: seq<LinkSpec>)

  /** scheduleTask(task, outputLines): the task and the number of output lines it stands for. */
  datatype Scheduled = Scheduled(task: CompileTask, outputLines: nat)

  /** The members m_message, m_fileName, m_lineNumber, m_linkSpecs and m_type. */
  datatype ParserState = ParserState(message: seq<string>, fileName: Path, lineNumber: int, linkSpecs: seq<LinkSpec>, kind: TaskType)

  /** The state of a fresh parser, and the state after every task. */
  const Idle := ParserState([], "", 0, [], Unknown)

  /**
   * The host services the parser calls: absoluteFilePath(FilePath::fromUserInput(…)), and the
   * test and link target of addLinkSpecForAbsoluteFilePath.
   */
  datatype ParserHost = ParserHost(resolve: string -> Path, linkable: Path -> bool, linkTarget: (Path, int) -> string)

  /** addLinkSpecForAbsoluteFilePath(…, match, 1): a span over the file capture when the host can link the file. */
  function FileLinks(h: ParserHost, loc: Location, path: Path, lineNumber: int): seq<LinkSpec>
  {
    if h.linkable(path) then [LinkSpec(loc.fileStart, |loc.file|, h.linkTarget(path, lineNumber))] else []
  }

  /** Task::details joined with '\n': the lines of a description after the first. */
  function Details(description: string): string
  {
    Join(Split(description, '\n')[1..], "\n")
  }

  /**
   * The shift adjustedLinkSpecs applies: nothing while the details of the buffered message are
   * empty, otherwise their length plus the line feed that will precede the next line.
   */
  function LinkOffset(message: seq<string>): nat
  {
    var details := Details(Join(message, "\n"));
    if details == "" then 0 else |details| + 1
  }

  /** Every span moved right by `offset`. */
  function Shifted(specs: seq<LinkSpec>, offset: int): seq<LinkSpec>
  {
    seq(|specs|, i requires 0 <= i < |specs| => specs[i].(startPos := specs[i].startPos + offset))
  }

  /**
   * NimParser::adjustedLinkSpecs: copies the spans of the line being appended and moves each
   * start by the offset of that line within the details of the task under construction.
   */
  method AdjustedLinkSpecs(original: seq<LinkSpec>, message: seq<string>) returns (adjusted: seq<LinkSpec>)
    ensures |adjusted| == |original|
    ensures forall i :: 0 <= i < |adjusted| ==>
              adjusted[i].startPos == original[i].startPos + LinkOffset(message)
              && adjusted[i].length == original[i].length && adjusted[i].target == original[i].target
  {
    var details := Details(Join(message, "\n"));
    var offset := if details == "" then 0 else |details| + 1;
    adjusted := original;
    for i := 0 to |adjusted|
      invariant |adjusted| == |original|
      invariant forall k :: 0 <= k < i ==> adjusted[k] == original[k].(startPos := original[k].startPos + offset)
      invariant forall k :: i <= k < |adjusted| ==> adjusted[k] == original[k]
    {
      adjusted := adjusted[i := adjusted[i].(startPos := adjusted[i].startPos + offset)];
    }
  }

  /** Spans moved one by one, keeping length and target, are the shifted spans. */
  lemma ShiftedElementwise(adjusted: seq<LinkSpec>, original: seq<LinkSpec>, offset: int)
    requires |adjusted| == |original|
    requires forall i :: 0 <= i < |adjusted| ==>
               adjusted[i].startPos == original[i].startPos + offset
               && adjusted[i].length == original[i].length && adjusted[i].target == original[i].target
    ensures adjusted == Shifted(original, offset)
  {
  }

  /** PlainStep on a line with a URL inside a block, written out. */
  lemma UrlLineStep(s: ParserState, line: string, m: UrlMatch)
    requires s.message != [] && FirstUrl(line, 0) == Some(m)
    ensures m.start + m.length <= |line|
    ensures var specs := [LinkSpec(m.start, m.length, line[m.start..m.start + m.length])];
            PlainStep(s, line) == Outcome(s.(linkSpecs := s.linkSpecs + Shifted(specs, LinkOffset(s.message)),
                                             message := s.message + [line]),
                                          LineResult(InProgress, specs), None)
  {
  }

  /** What handling one line does: the new state, the line's result, and the task it schedules, if any. */
  datatype Outcome = Outcome(state: ParserState, result: LineResult, scheduled: Option<Scheduled>)

  /** The task a closing line schedules from the buffered block. */
  function TaskOf(s: ParserState): CompileTask
  {
    CompileTask(s.kind, Join(s.message, "\n"), s.fileName, s.lineNumber, s.linkSpecs)
  }

  /** NimParser::handleLine on the state `s`, decision by decision. */
  function Step(h: ParserHost, s: ParserState, line: string): Outcome
  {
    if IsErrorMarker(line) then
      Outcome(s.(kind := Error, message := s.message + [line]), LineResult(InProgress, []), None)
    else if IsWarningMarker(line) then
      Outcome(s.(kind := Warning, message := s.message + [line]), LineResult(InProgress, []), None)
    else match IndentedLocation(line)
      case Some(loc) => LocationStep(h, s, line, loc)
      case None => PlainStep(s, line)
  }

  /** A location line: its file span is kept, and the file and line are recorded unless one already is. */
  function LocationStep(h: ParserHost, s: ParserState, line: string, loc: Location): Outcome
  {
    var path := h.resolve(loc.file);
    var n := DigitsToInt(loc.lineDigits);
    var specs := FileLinks(h, loc, path, n);
    var first := s.fileName == "";
    Outcome(s.(linkSpecs := s.linkSpecs + Shifted(specs, LinkOffset(s.message)),
               message := s.message + [line],
               fileName := if first then path else s.fileName,
               lineNumber := if first then n else s.lineNumber),
            LineResult(InProgress, specs), None)
  }

  /** Any other line: ignored outside a block, appended (with its URL span) or closing the block inside one. */
  function PlainStep(s: ParserState, line: string): Outcome
  {
    if s.message == [] then Outcome(s, LineResult(NotHandled, []), None)
    else match FirstUrl(line, 0)
      case Some(m) =>
        var specs := [LinkSpec(m.start, m.length, line[m.start..m.start + m.length])];
        Outcome(s.(linkSpecs := s.linkSpecs + Shifted(specs, LinkOffset(s.message)), message := s.message + [line]),
                LineResult(InProgress, specs), None)
      case None =>
        if !IsBlank(line) then Outcome(s.(message := s.message + [line]), LineResult(InProgress, []), None)
        else Outcome(Idle, LineResult(Done, []), Some(Scheduled(TaskOf(s), |s.message|)))
  }

  /** The state after a sequence of lines, and the tasks scheduled on the way, in order. */
  datatype RunResult = RunResult(state: ParserState, tasks: seq<Scheduled>)

  function Run(h: ParserHost, s: ParserState, lines: seq<string>): RunResult
  {
    Fold(StepOf(h), s, lines)
  }

  /** handleLine with the host fixed, as a function of the state and the line. */
  function StepOf(h: ParserHost): (ParserState, string) -> Outcome
  {
    (t, line) => Step(h, t, line)
  }

  /** Run takes the first line with Step and goes on from the state it leaves. */
  lemma RunStep(h: ParserHost, s: ParserState, lines: seq<string>)
    requires lines != []
    ensures var o := Step(h, s, lines[0]);
            var r := Run(h, o.state, lines[1..]);
            Run(h, s, lines) == RunResult(r.state, OptionToSeq(o.scheduled) + r.tasks)
  {
    assert StepOf(h)(s, lines[0]) == Step(h, s, lines[0]);
  }

  /** Lines handled one after another by `step`, collecting what each schedules. */
  function Fold(step: (ParserState, string) -> Outcome, s: ParserState, lines: seq<string>): RunResult
    decreases |lines|
  {
    if lines == [] then RunResult(s, [])
    else
      var o := step(s, lines[0]);
      var r := Fold(step, o.state, lines[1..]);
      RunResult(r.state, OptionToSeq(o.scheduled) + r.tasks)
  }

  /** The parser object: its members, the host services it calls, and the tasks it has scheduled. */
  class NimParser {
    const host: ParserHost
    var message: seq<string>
    var fileName: Path
    var lineNumber: int
    var linkSpecs: seq<LinkSpec>
    var kind: TaskType
    var scheduled: seq<Scheduled>

    function State(): ParserState
      reads this
    {
      ParserState(message, fileName, lineNumber, linkSpecs, kind)
    }

    constructor (host: ParserHost)
      ensures this.host == host && State() == Idle && scheduled == []
    {
      this.host := host;
      message, fileName, lineNumber, linkSpecs, kind := [], "", 0, [], Unknown;
      scheduled := [];
    }

    /** NimParser::handleLine. */
    method HandleLine(line: string) returns (r: LineResult)
      modifies this
      ensures var o := Step(host, old(State()), line);
              State() == o.state && r == o.result && scheduled == old(scheduled) + OptionToSeq(o.scheduled)
    {
      if IsErrorMarker(line) {
        kind := Error;
        message := message + [line];
        return LineResult(InProgress, []);
      }
      if IsWarningMarker(line) {
        kind := Warning;
        message := message + [line];
        return LineResult(InProgress, []);
      }
      var location := IndentedLocation(line);
      if location.Some? {
        r := HandleLocation(line, location.value);
      } else {
        r := HandlePlain(line);
      }
    }

    /** The location branch of handleLine. */
    method HandleLocation(line: string, loc: Location) returns (r: LineResult)
      modifies this
      ensures var o := LocationStep(host, old(State()), line, loc);
              State() == o.state && r == o.result && scheduled == old(scheduled)
    {
      var filePath := host.resolve(loc.file);
      var n := DigitsToInt(loc.lineDigits);
      var specs := FileLinks(host, loc, filePath, n);
      var adjusted := AdjustedLinkSpecs(specs, message);
      ShiftedElementwise(adjusted, specs, LinkOffset(message));
      linkSpecs := linkSpecs + adjusted;
      message := message + [line];
      if fileName == "" {
        fileName := filePath;
        lineNumber := n;
      }
      return LineResult(InProgress, specs);
    }

    /** The branches of handleLine after the location test. */
    method HandlePlain(line: string) returns (r: LineResult)
      modifies this
      ensures var o := PlainStep(old(State()), line);
              State() == o.state && r == o.result && scheduled == old(scheduled) + OptionToSeq(o.scheduled)
    {
      if message == [] {
        return LineResult(NotHandled, []);
      }
      var url := FirstUrl(line, 0);
      if url.Some? {
        r := AppendUrlLine(line, url.value);
      } else if !IsBlank(line) {
        message := message + [line];
        r := LineResult(InProgress, []);
      } else {
        r := FinishTask();
      }
    }

    /** Inside a block, a line with a URL is appended and its span kept, moved into the details. */
    method AppendUrlLine(line: string, m: UrlMatch) returns (r: LineResult)
      requires message != [] && FirstUrl(line, 0) == Some(m)
      modifies this
      ensures var o := PlainStep(old(State()), line);
              State() == o.state && r == o.result && scheduled == old(scheduled)
    {
      UrlLineStep(State(), line, m);
      var specs := [LinkSpec(m.start, m.length, line[m.start..m.start + m.length])];
      var adjusted := AdjustedLinkSpecs(specs, message);
      ShiftedElementwise(adjusted, specs, LinkOffset(message));
      linkSpecs := linkSpecs + adjusted;
      message := message + [line];
      return LineResult(InProgress, specs);
    }

    /** A blank line inside a block schedules the buffered task and resets every member. */
    method FinishTask() returns (r: LineResult)
      requires message != []
      modifies this
      ensures State() == Idle && r == LineResult(Done, [])
      ensures scheduled == old(scheduled) + [Scheduled(TaskOf(old(State())), |old(message)|)]
    {
      var t := CompileTask(kind, Join(message, "\n"), fileName, lineNumber, linkSpecs);
      scheduled := scheduled + [Scheduled(t, |message|)];
      message, fileName, lineNumber, linkSpecs, kind := [], "", 0, [], Unknown;
      return LineResult(Done, []);
    }
  }

  /** NimParser::handleLink, without opening the browser: whether `href` holds an http(s) URL. */
  function HandleLink(href: string): (handled: bool)
    ensures handled <==> exists i: nat :: i <= |href| && UrlAt(href, i)
  {
    HasUrl(href)
  }

  // ----- One line at a time -----

  /**
   * An error or warning marker sets the severity, is appended to the message, returns
   * InProgress without spans, and schedules nothing; file, line and spans stay as they were.
   */
  lemma MarkerLineStep(h: ParserHost, s: ParserState, line: string)
    requires IsErrorMarker(line) || IsWarningMarker(line)
    ensures var o := Step(h, s, line);
            && o.result == LineResult(InProgress, []) && o.scheduled.None?
            && o.state.message == s.message + [line]
            && (IsErrorMarker(line) ==> o.state.kind == Error)
            && (IsWarningMarker(line) ==> o.state.kind == Warning)
            && o.state.fileName == s.fileName && o.state.lineNumber == s.lineNumber
            && o.state.linkSpecs == s.linkSpecs
  {
    MarkersDisjoint(line);
  }

  /**
   * A location line is taken whether or not a block is open: it is appended, returns InProgress
   * with the file span, and records the resolved file and the line number only when no file is
   * recorded yet.
   */
  lemma LocationLineStep(h: ParserHost, s: ParserState, line: string, loc: Location)
    requires !IsErrorMarker(line) && !IsWarningMarker(line) && IndentedLocation(line) == Some(loc)
    ensures var o := Step(h, s, line);
            && o.result.status == InProgress && o.scheduled.None?
            && o.result.linkSpecs == FileLinks(h, loc, h.resolve(loc.file), DigitsToInt(loc.lineDigits))
            && o.state.message == s.message + [line] && o.state.kind == s.kind
            && o.state.fileName == (if s.fileName == "" then h.resolve(loc.file) else s.fileName)
            && o.state.lineNumber == (if s.fileName == "" then DigitsToInt(loc.lineDigits) else s.lineNumber)
            && o.state.linkSpecs == s.linkSpecs + Shifted(o.result.linkSpecs, LinkOffset(s.message))
  {
  }

  /** With no block open, any line that is neither a marker nor a location is not handled and changes nothing. */
  lemma IdleLineStep(h: ParserHost, s: ParserState, line: string)
    requires s.message == []
    requires !IsErrorMarker(line) && !IsWarningMarker(line) && IndentedLocation(line).None?
    ensures Step(h, s, line) == Outcome(s, LineResult(NotHandled, []), None)
  {
  }

  /** The URL text of a match: a scheme, at least one more character, no white space. */
  predicate IsUrlText(u: string)
  {
    && ((StartsWith(u, "http://") && |u| > 7) || (StartsWith(u, "https://") && |u| > 8))
    && (forall i :: 0 <= i < |u| ==> NotRegexSpace(u[i]))
  }

  /**
   * Inside a block, a non-blank line that is neither a marker nor a location is appended and
   * returns InProgress; it carries a span exactly when it holds a URL, and then exactly one,
   * whose text in the line is its target.
   */
  lemma BodyLineStep(h: ParserHost, s: ParserState, line: string)
    requires s.message != [] && !IsBlank(line)
    requires !IsErrorMarker(line) && !IsWarningMarker(line) && IndentedLocation(line).None?
    ensures var o := Step(h, s, line);
            && o.result.status == InProgress && o.scheduled.None?
            && o.state.message == s.message + [line] && o.state.kind == s.kind
            && o.state.fileName == s.fileName && o.state.lineNumber == s.lineNumber
            && |o.result.linkSpecs| <= 1
            && (|o.result.linkSpecs| == 1 <==> HasUrl(line))
    ensures var o := Step(h, s, line);
            |o.result.linkSpecs| == 1 ==>
              var sp := o.result.linkSpecs[0];
              && 0 <= sp.startPos && 0 <= sp.length && sp.startPos + sp.length <= |line|
              && sp.target == line[sp.startPos..sp.startPos + sp.length] && IsUrlText(sp.target)
  {
    assert Step(h, s, line) == PlainStep(s, line);
    match FirstUrl(line, 0)
    case Some(m) =>
      UrlMatchText(line, m);
      UrlLineStep(s, line, m);
    case None =>
  }

  /**
   * A line schedules a task exactly when it is blank and a block is open. The task carries the
   * buffered lines joined with '\n', the recorded severity, file, line and spans, and stands for
   * as many output lines as were buffered; the parser is then back in its initial state.
   */
  lemma ScheduleStep(h: ParserHost, s: ParserState, line: string)
    ensures Step(h, s, line).scheduled.Some? <==> s.message != [] && IsBlank(line)
    ensures s.message != [] && IsBlank(line) ==>
              Step(h, s, line) ==
              Outcome(Idle, LineResult(Done, []),
                      Some(Scheduled(CompileTask(s.kind, Join(s.message, "\n"), s.fileName, s.lineNumber, s.linkSpecs),
                                     |s.message|)))
  {
    if IsBlank(line) {
      BlankLineMatchesNothing(line);
    }
  }

  /** The description splits back into the buffered lines, so its first line is the marker and the rest are the details. */
  lemma DescriptionLines(s: ParserState)
    requires s.message != [] && NoneContains(s.message, '\n')
    ensures Split(TaskOf(s).description, '\n') == s.message
  {
    SplitJoin(s.message, '\n');
  }

  // ----- Where the spans land -----

  /** The details of a buffered message are its lines after the first, joined with '\n'. */
  lemma MessageDetails(m: seq<string>)
    requires NoneContains(m, '\n')
    ensures Details(Join(m, "\n")) == if |m| <= 1 then "" else Join(m[1..], "\n")
  {
    if |m| >= 1 {
      SplitJoin(m, '\n');
    } else {
      assert Split("", '\n') == [""];
    }
  }

  /**
   * adjustedLinkSpecs adds 0 while the message has fewer than two lines, and otherwise the length
   * of lines 2..n joined with '\n', plus one.
   */
  lemma LinkOffsetValue(m: seq<string>)
    requires NoneContains(m, '\n')
    requires |m| >= 2 ==> m[1] != ""
    ensures LinkOffset(m) == if |m| < 2 then 0 else |Join(m[1..], "\n")| + 1
  {
    MessageDetails(m);
    if |m| >= 2 {
      JoinNonEmpty(m[1..], "\n");
    }
  }

  /**
   * Appending a line to a non-empty message extends its details: the old details stay a prefix,
   * and the new line sits exactly at LinkOffset of the old message.
   */
  lemma DetailsAppend(m: seq<string>, line: string)
    requires NoneContains(m, '\n') && '\n' !in line
    requires |m| >= 1 && (|m| >= 2 ==> m[1] != "")
    ensures var d := Details(Join(m, "\n"));
            var d' := Details(Join(m + [line], "\n"));
            && |d| <= LinkOffset(m) && |d'| == LinkOffset(m) + |line|
            && d'[..|d|] == d && d'[LinkOffset(m)..] == line
  {
    var m' := m + [line];
    assert NoneContains(m', '\n') by {
      forall i | 0 <= i < |m'| ensures '\n' !in m'[i] {
        if i < |m| {
          assert m'[i] == m[i];
        }
      }
    }
    MessageDetails(m);
    MessageDetails(m');
    LinkOffsetValue(m);
    if |m| >= 2 {
      assert m'[1..] == m[1..] + [line];
      JoinConcat(m[1..], [line], "\n");
    }
  }

  /** A span lies inside `text`, on a single line of it. */
  predicate SpanWithin(sp: LinkSpec, text: string)
  {
    0 <= sp.startPos && 0 <= sp.length && sp.startPos + sp.length <= |text|
    && NotLineFeedIn(text[sp.startPos..sp.startPos + sp.length])
  }

  /** The details of a task: every span lies inside them, on a single line. */
  predicate SpansWithinDetails(t: CompileTask)
  {
    forall i :: 0 <= i < |t.linkSpecs| ==> SpanWithin(t.linkSpecs[i], Details(t.description))
  }

  /**
   * What the parser keeps true between lines: the buffered lines hold no line feed and are not
   * blank, and every collected span lies inside the details of the buffered message.
   */
  predicate Wellformed(s: ParserState)
  {
    && NoneContains(s.message, '\n')
    && (forall i :: 0 <= i < |s.message| ==> !IsBlank(s.message[i]))
    && (forall i :: 0 <= i < |s.linkSpecs| ==> SpanWithin(s.linkSpecs[i], Details(Join(s.message, "\n"))))
  }

  /** A span of a line, shifted to where the line starts in a longer text, keeps its text. */
  lemma ShiftedSpanWithin(sp: LinkSpec, line: string, text: string, offset: nat)
    requires SpanWithin(sp, line)
    requires offset + |line| == |text| && text[offset..] == line
    ensures SpanWithin(sp.(startPos := sp.startPos + offset), text)
    ensures text[offset + sp.startPos..offset + sp.startPos + sp.length] == line[sp.startPos..sp.startPos + sp.length]
  {
    assert text[offset + sp.startPos..offset + sp.startPos + sp.length] == text[offset..][sp.startPos..sp.startPos + sp.length];
  }

  /** Appending a non-blank line with spans of its own to a block keeps the state well formed. */
  lemma AppendKeepsWellformed(s: ParserState, line: string, added: seq<LinkSpec>, s': ParserState)
    requires Wellformed(s) && '\n' !in line && !IsBlank(line)
    requires s.message != [] || added == []
    requires forall i :: 0 <= i < |added| ==> SpanWithin(added[i], line)
    requires s'.message == s.message + [line]
    requires s'.linkSpecs == s.linkSpecs + Shifted(added, LinkOffset(s.message))
    ensures Wellformed(s')
  {
    var m := s.message;
    var m' := m + [line];
    assert forall i :: 0 <= i < |m'| ==> m'[i] == if i < |m| then m[i] else line;
    if m == [] {
      MessageDetails(m);
      MessageDetails(m');
    } else {
      AppendedSpansWithin(s, line, added, s');
    }
  }

  /** The spans after appending to an open block: the old ones stay and the new ones land on the new line. */
  lemma AppendedSpansWithin(s: ParserState, line: string, added: seq<LinkSpec>, s': ParserState)
    requires Wellformed(s) && '\n' !in line && s.message != []
    requires forall i :: 0 <= i < |added| ==> SpanWithin(added[i], line)
    requires s'.message == s.message + [line]
    requires s'.linkSpecs == s.linkSpecs + Shifted(added, LinkOffset(s.message))
    ensures forall i :: 0 <= i < |s'.linkSpecs| ==> SpanWithin(s'.linkSpecs[i], Details(Join(s'.message, "\n")))
  {
    var m := s.message;
    var d := Details(Join(m, "\n"));
    var d' := Details(Join(s'.message, "\n"));
    if |m| >= 2 {
      assert m[1] != "" by {
        assert !IsBlank(m[1]);
      }
    }
    DetailsAppend(m, line);
    ConcatSpansWithin(s.linkSpecs, added, LinkOffset(m), d, d', line);
  }

  /** Spans of `d` and spans of `line` moved to `off` are all spans of `d'`, which extends `d` and ends with `line` at `off`. */
  lemma ConcatSpansWithin(specs: seq<LinkSpec>, added: seq<LinkSpec>, off: nat, d: string, d': string, line: string)
    requires forall i :: 0 <= i < |specs| ==> SpanWithin(specs[i], d)
    requires forall i :: 0 <= i < |added| ==> SpanWithin(added[i], line)
    requires |d| <= off && |d'| == off + |line| && d'[..|d|] == d && d'[off..] == line
    ensures forall i :: 0 <= i < |specs + Shifted(added, off)| ==> SpanWithin((specs + Shifted(added, off))[i], d')
  {
    var all := specs + Shifted(added, off);
    forall i | 0 <= i < |all| ensures SpanWithin(all[i], d') {
      if i < |specs| {
        assert all[i] == specs[i];
        PrefixSpanWithin(specs[i], d, d');
      } else {
        var a := added[i - |specs|];
        assert all[i] == a.(startPos := a.startPos + off);
        ShiftedSpanWithin(a, line, d', off);
      }
    }
  }

  /** A span of a text stays a span, with the same text, of anything that extends it. */
  lemma PrefixSpanWithin(sp: LinkSpec, d: string, d': string)
    requires SpanWithin(sp, d) && |d| <= |d'| && d'[..|d|] == d
    ensures SpanWithin(sp, d')
  {
    var a, b := sp.startPos, sp.startPos + sp.length;
    forall k | a <= k < b ensures d'[k] == d[k] {
      assert d'[k] == d'[..|d|][k];
    }
    assert d'[a..b] == d[a..b];
  }


  /** The file capture of a location lies inside its line, on one line. */
  lemma FileLinksWithin(h: ParserHost, line: string, loc: Location, path: Path, n: int)
    requires IndentedLocation(line) == Some(loc)
    ensures forall i :: 0 <= i < |FileLinks(h, loc, path, n)| ==> SpanWithin(FileLinks(h, loc, path, n)[i], line)
  {
  }

  /**
   * Handling a line keeps the state well formed, provided the line holds no line feed and is
   * not a location line that opens a block (such a line becomes the summary of the task, while
   * its span is measured as if it were in the details).
   */
  lemma StepKeepsWellformed(h: ParserHost, s: ParserState, line: string)
    requires Wellformed(s) && '\n' !in line
    requires s.message != [] || IndentedLocation(line).None?
    ensures Wellformed(Step(h, s, line).state)
  {
    if IsErrorMarker(line) || IsWarningMarker(line) {
      BlankIsNoMarker(line);
      AppendKeepsWellformed(s, line, [], Step(h, s, line).state);
    } else if IndentedLocation(line).Some? {
      LocationKeepsWellformed(h, s, line, IndentedLocation(line).value);
    } else {
      PlainKeepsWellformed(s, line);
    }
  }

  /** The location case of StepKeepsWellformed. */
  lemma LocationKeepsWellformed(h: ParserHost, s: ParserState, line: string, loc: Location)
    requires Wellformed(s) && '\n' !in line && s.message != []
    requires IndentedLocation(line) == Some(loc)
    ensures Wellformed(LocationStep(h, s, line, loc).state)
  {
    BlankHasNoLocation(line);
    var path := h.resolve(loc.file);
    var n := DigitsToInt(loc.lineDigits);
    FileLinksWithin(h, line, loc, path, n);
    AppendKeepsWellformed(s, line, FileLinks(h, loc, path, n), LocationStep(h, s, line, loc).state);
  }

  /** The remaining lines of StepKeepsWellformed. */
  lemma PlainKeepsWellformed(s: ParserState, line: string)
    requires Wellformed(s) && '\n' !in line
    ensures Wellformed(PlainStep(s, line).state)
  {
    if s.message != [] {
      match FirstUrl(line, 0)
      case Some(m) =>
        UrlSpanWithin(line, m);
        UrlLineStep(s, line, m);
        var sp := LinkSpec(m.start, m.length, line[m.start..m.start + m.length]);
        AppendKeepsWellformed(s, line, [sp], PlainStep(s, line).state);
      case None =>
        if !IsBlank(line) {
          AppendKeepsWellformed(s, line, [], PlainStep(s, line).state);
        }
    }
  }

  /** The span of a URL match lies inside its line, which is not blank. */
  lemma UrlSpanWithin(line: string, m: UrlMatch)
    requires FirstUrl(line, 0) == Some(m)
    ensures !IsBlank(line)
    ensures SpanWithin(LinkSpec(m.start, m.length, line[m.start..m.start + m.length]), line)
  {
    BlankHasNoUrl(line);
    UrlMatchText(line, m);
    var u := line[m.start..m.start + m.length];
    forall i | 0 <= i < |u| ensures NotLineFeed(u[i]) {
      assert NotRegexSpace(u[i]);
    }
  }

  // ----- Sequences of lines -----

  /** Running two stretches of output one after the other is running their concatenation. */
  /** Handling `a` and then `b` is handling `a + b`, whatever the step does. */
  lemma {:induction false} FoldConcat(step: (ParserState, string) -> Outcome, s: ParserState, a: seq<string>, b: seq<string>)
    ensures var ra := Fold(step, s, a);
            var rb := Fold(step, ra.state, b);
            Fold(step, s, a + b) == RunResult(rb.state, ra.tasks + rb.tasks)
    decreases |a|
  {
    if a != [] {
      assert (a + b)[0] == a[0];
      assert (a + b)[1..] == a[1..] + b;
      FoldConcat(step, step(s, a[0]).state, a[1..], b);
    } else {
      assert a + b == b;
    }
  }

  lemma RunConcat(h: ParserHost, s: ParserState, a: seq<string>, b: seq<string>)
    ensures var ra := Run(h, s, a);
            var rb := Run(h, ra.state, b);
            Run(h, s, a + b) == RunResult(rb.state, ra.tasks + rb.tasks)
  {
    FoldConcat(StepOf(h), s, a, b);
  }

  /** No location line of `lines` arrives while no block is open. */
  predicate NoLocationOpensBlock(h: ParserHost, s: ParserState, lines: seq<string>)
    decreases |lines|
  {
    lines == [] ||
    ((s.message != [] || IndentedLocation(lines[0]).None?) && NoLocationOpensBlock(h, Step(h, s, lines[0]).state, lines[1..]))
  }

  /**
   * Over any output whose location lines all come inside a block, the state stays well formed
   * and every scheduled task's spans lie inside that task's details, each on a single line.
   */
  lemma {:induction false} RunSpansWithinDetails(h: ParserHost, s: ParserState, lines: seq<string>)
    requires Wellformed(s) && NoneContains(lines, '\n')
    requires NoLocationOpensBlock(h, s, lines)
    ensures Wellformed(Run(h, s, lines).state)
    ensures forall k :: 0 <= k < |Run(h, s, lines).tasks| ==> SpansWithinDetails(Run(h, s, lines).tasks[k].task)
    decreases |lines|
  {
    if lines != [] {
      var o := Step(h, s, lines[0]);
      StepKeepsWellformed(h, s, lines[0]);
      assert NoneContains(lines[1..], '\n') by {
        forall i | 0 <= i < |lines[1..]| ensures '\n' !in lines[1..][i] {
          assert lines[1..][i] == lines[i + 1];
        }
      }
      RunSpansWithinDetails(h, o.state, lines[1..]);
      ScheduleStep(h, s, lines[0]);
      RunStep(h, s, lines);
      var first := OptionToSeq(o.scheduled);
      assert forall k :: 0 <= k < |first| ==> SpansWithinDetails(first[k].task);
      ConcatTasksWithin(first, Run(h, o.state, lines[1..]).tasks);
    }
  }

  lemma ConcatTasksWithin(a: seq<Scheduled>, b: seq<Scheduled>)
    requires forall k :: 0 <= k < |a| ==> SpansWithinDetails(a[k].task)
    requires forall k :: 0 <= k < |b| ==> SpansWithinDetails(b[k].task)
    ensures forall k :: 0 <= k < |a + b| ==> SpansWithinDetails((a + b)[k].task)
  {
    forall k | 0 <= k < |a + b| ensures SpansWithinDetails((a + b)[k].task) {
      if k < |a| {
        assert (a + b)[k] == a[k];
      } else {
        assert (a + b)[k] == b[k - |a|];
      }
    }
  }

  /** A line of a block body: not blank and not a marker. */
  predicate BodyLine(line: string)
  {
    !IsBlank(line) && !IsErrorMarker(line) && !IsWarningMarker(line)
  }

  /**
   * The file and line the parser records from `lines`: those of the first location whose file
   * resolves to a non-empty path (an empty path does not count as recorded).
   */
  function FirstRecorded(h: ParserHost, lines: seq<string>): Option<(Path, int)>
    decreases |lines|
  {
    if lines == [] then None
    else match IndentedLocation(lines[0])
      case Some(loc) =>
        if h.resolve(loc.file) != "" then Some((h.resolve(loc.file), DigitsToInt(loc.lineDigits)))
        else FirstRecorded(h, lines[1..])
      case None => FirstRecorded(h, lines[1..])
  }

  /**
   * Inside an open block, body lines are appended in order, schedule nothing and keep the
   * severity; the first recorded location wins and later ones are ignored.
   */
  lemma {:induction false} RunBlockBody(h: ParserHost, s: ParserState, body: seq<string>)
    requires s.message != []
    requires forall i :: 0 <= i < |body| ==> BodyLine(body[i])
    ensures var r := Run(h, s, body);
            && r.tasks == [] && r.state.message == s.message + body && r.state.kind == s.kind
            && (s.fileName != "" ==> r.state.fileName == s.fileName && r.state.lineNumber == s.lineNumber)
            && (s.fileName == "" && FirstRecorded(h, body).Some? ==>
                  (r.state.fileName, r.state.lineNumber) == FirstRecorded(h, body).value)
            && (s.fileName == "" && FirstRecorded(h, body).None? ==> r.state.fileName == "")
    decreases |body|
  {
    if body != [] {
      assert s.message + body == s.message + [body[0]] + body[1..] by {
        assert body == [body[0]] + body[1..];
      }
      var o := Step(h, s, body[0]);
      BodyHeadStep(h, s, body);
      var rest := Run(h, o.state, body[1..]);
      assert Run(h, s, body) == RunResult(rest.state, rest.tasks);
      assert forall i :: 0 <= i < |body[1..]| ==> body[1..][i] == body[i + 1];
      RunBlockBody(h, o.state, body[1..]);
      if s.fileName == "" && o.state.fileName != "" {
        assert FirstRecorded(h, body) == Some((o.state.fileName, o.state.lineNumber));
      } else if s.fileName == "" {
        assert FirstRecorded(h, body) == FirstRecorded(h, body[1..]);
      }
    }
  }

  /** The first body line: appended, nothing scheduled, and the location recorded if it is the first to count. */
  lemma BodyHeadStep(h: ParserHost, s: ParserState, body: seq<string>)
    requires s.message != [] && body != [] && BodyLine(body[0])
    ensures var o := Step(h, s, body[0]);
            && o.scheduled.None? && o.state.message == s.message + [body[0]] && o.state.kind == s.kind
            && (s.fileName != "" ==> o.state.fileName == s.fileName && o.state.lineNumber == s.lineNumber)
            && (s.fileName == "" && o.state.fileName != "" ==>
                  FirstRecorded(h, body) == Some((o.state.fileName, o.state.lineNumber)))
            && (s.fileName == "" && o.state.fileName == "" ==> FirstRecorded(h, body) == FirstRecorded(h, body[1..]))
  {
    var line := body[0];
    match IndentedLocation(line)
    case Some(loc) => LocationLineStep(h, s, line, loc);
    case None => BodyLineStep(h, s, line);
  }

  /**
   * The test "Parse error message": an error block closed by a blank line, then
   * "error: aborting due to previous error" and a blank line, then a trailing line, yield
   * exactly two Error tasks in order: the first with the block's text and its first recorded
   * location, the second with no file and line 0; the trailing line is not handled.
   */
  lemma ErrorBlockScenario(h: ParserHost, e: string, body: seq<string>, closing: string,
                           abort: string, closing2: string, more: string)
    requires IsErrorMarker(e) && forall i :: 0 <= i < |body| ==> BodyLine(body[i])
    requires IsBlank(closing) && StartsWith(abort, "error: ") && IsBlank(closing2)
    requires !IsErrorMarker(more) && !IsWarningMarker(more) && IndentedLocation(more).None?
    requires FirstRecorded(h, body).Some?
    ensures var r := Run(h, Idle, [e] + body + [closing, abort, closing2, more]);
            && |r.tasks| == 2 && r.state == Idle
            && r.tasks[0].task.kind == Error && r.tasks[0].task.description == Join([e] + body, "\n")
            && (r.tasks[0].task.file, r.tasks[0].task.line) == FirstRecorded(h, body).value
            && r.tasks[0].outputLines == 1 + |body|
            && r.tasks[1] == Scheduled(CompileTask(Error, abort, "", 0, []), 1)
  {
    var tail := [closing, abort, closing2, more];
    MarkerLineStep(h, Idle, e);
    var s1 := Step(h, Idle, e).state;
    RunBlockBody(h, s1, body);
    RunConcat(h, Idle, [e], body);
    var s2 := Run(h, Idle, [e] + body).state;
    RunConcat(h, Idle, [e] + body, tail);
    ClosingThenAbort(h, s2, closing, abort, closing2, more);
  }

  /** A blank line closes the open block; an error: line, a blank line and any plain line follow. */
  lemma ClosingThenAbort(h: ParserHost, s: ParserState, closing: string, abort: string, closing2: string, more: string)
    requires s.message != [] && IsBlank(closing) && StartsWith(abort, "error: ") && IsBlank(closing2)
    requires !IsErrorMarker(more) && !IsWarningMarker(more) && IndentedLocation(more).None?
    ensures Run(h, s, [closing, abort, closing2, more])
            == RunResult(Idle, [Scheduled(TaskOf(s), |s.message|), Scheduled(CompileTask(Error, abort, "", 0, []), 1)])
  {
    var tail := [closing, abort, closing2, more];
    ScheduleStep(h, s, closing);
    AbortTail(h, abort, closing2, more);
    RunStep(h, s, tail);
    assert tail[1..] == [abort, closing2, more];
  }

  /** The end of that test: the one-line error block, its blank line, and a line outside any block. */
  lemma AbortTail(h: ParserHost, abort: string, closing: string, more: string)
    requires StartsWith(abort, "error: ") && IsBlank(closing)
    requires !IsErrorMarker(more) && !IsWarningMarker(more) && IndentedLocation(more).None?
    ensures Run(h, Idle, [abort, closing, more]) == RunResult(Idle, [Scheduled(CompileTask(Error, abort, "", 0, []), 1)])
  {
    MarkerLineStep(h, Idle, abort);
    var s3 := Step(h, Idle, abort).state;
    assert s3 == ParserState([abort], "", 0, [], Error);
    ScheduleStep(h, s3, closing);
    IdleLineStep(h, Idle, more);
    RunStep(h, Idle, [more]);
    assert Run(h, Idle, [more]) == RunResult(Idle, []);
    RunStep(h, s3, [closing, more]);
    assert [closing, more][1..] == [more];
    assert Run(h, s3, [closing, more]) == RunResult(Idle, [Scheduled(CompileTask(Error, abort, "", 0, []), 1)]);
    RunStep(h, Idle, [abort, closing, more]);
    assert [abort, closing, more][1..] == [closing, more];
  }

  /**
   * A warning line followed by an indented location line `ws--> file:ln:col` (the shape of the
   * test "Parse warning string 2"): the location records the resolved file and `ln`, and gets one
   * span over the file name starting |ws| + 4 characters into the details. In that test `ws` is
   * three spaces and the file name has 39 characters, so the span is (7, 39); whatever follows
   * (the test's later location at line 352) does not change what is recorded.
   */
  lemma WarningThenLocation(h: ParserHost, w: string, ws: string, file: string, ln: string, col: string, rest: seq<string>)
    requires IsWarningMarker(w) && '\n' !in w
    requires |ws| > 0 && forall i :: 0 <= i < |ws| ==> IsRegexSpace(ws[i])
    requires NotLineFeedIn(file) && |ln| > 0 && AllDigits(ln) && |col| > 0 && AllDigits(col)
    requires h.resolve(file) != "" && h.linkable(h.resolve(file))
    ensures var line := ws + "--> " + file + ":" + ln + ":" + col;
            var o := Step(h, Step(h, Idle, w).state, line);
            && o.state.fileName == h.resolve(file) && o.state.lineNumber == DigitsToInt(ln) && o.state.kind == Warning
            && o.state.linkSpecs == [LinkSpec(|ws| + 4, |file|, h.linkTarget(h.resolve(file), DigitsToInt(ln)))]
            && FirstRecorded(h, [line] + rest) == Some((h.resolve(file), DigitsToInt(ln)))
  {
    var line := ws + "--> " + file + ":" + ln + ":" + col;
    var loc := Location(|ws| + 4, file, ln);
    IndentedLocationLine(ws, file, ln, col);
    MarkerLineStep(h, Idle, w);
    LocationAfterMarker(h, Step(h, Idle, w).state, w, line, loc);
    FirstRecordedHead(h, line, rest, loc);
  }

  /** The first location line after a one-line block records its file and keeps its span unshifted. */
  lemma LocationAfterMarker(h: ParserHost, s: ParserState, w: string, line: string, loc: Location)
    requires s.message == [w] && '\n' !in w && s.fileName == "" && s.linkSpecs == []
    requires !IsErrorMarker(line) && !IsWarningMarker(line) && IndentedLocation(line) == Some(loc)
    ensures var o := Step(h, s, line);
            && o.state.fileName == h.resolve(loc.file) && o.state.lineNumber == DigitsToInt(loc.lineDigits)
            && o.state.kind == s.kind
            && o.state.linkSpecs == FileLinks(h, loc, h.resolve(loc.file), DigitsToInt(loc.lineDigits))
  {
    LocationLineStep(h, s, line, loc);
    MessageDetails([w]);
    assert LinkOffset(s.message) == 0;
    var specs := FileLinks(h, loc, h.resolve(loc.file), DigitsToInt(loc.lineDigits));
    assert Shifted(specs, 0) == specs;
  }

  /** A location line with a resolvable file at the head of the lines is the one recorded. */
  lemma FirstRecordedHead(h: ParserHost, line: string, rest: seq<string>, loc: Location)
    requires IndentedLocation(line) == Some(loc) && h.resolve(loc.file) != ""
    ensures FirstRecorded(h, [line] + rest) == Some((h.resolve(loc.file), DigitsToInt(loc.lineDigits)))
  {
    assert ([line] + rest)[0] == line;
  }

  /** An indented `--> file:ln:col` line is a location whose capture is `file` and `ln`, and no marker. */
  lemma IndentedLocationLine(ws: string, file: string, ln: string, col: string)
    requires |ws| > 0 && forall i :: 0 <= i < |ws| ==> IsRegexSpace(ws[i])
    requires NotLineFeedIn(file) && |ln| > 0 && AllDigits(ln) && |col| > 0 && AllDigits(col)
    ensures var line := ws + "--> " + file + ":" + ln + ":" + col;
            IndentedLocation(line) == Some(Location(|ws| + 4, file, ln)) && !IsErrorMarker(line) && !IsWarningMarker(line)
  {
    var tail := file + ":" + ln + ":" + col;
    var line := ws + "--> " + file + ":" + ln + ":" + col;
    assert line == ws + "--> " + tail;
    IndentedLocationMeaning(ws, tail);
    assert line[|ws| + 4..] == tail;
    PlainCapture(line, |ws| + 4, file, ln, col);
    assert line[0] == ws[0];
    IndentedLineIsNoMarker(line);
  }
}
