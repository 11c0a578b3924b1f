/**
 * LineStateMachine and the two-channel NimParser of project/nimcompilerbuildstep.cpp (the same
 * code appears again in project/nimblebuildstep.cpp). Unlike the task parser, this machine keeps
 * the message as one string, lets every location overwrite the previous one, and only takes
 * locations whose arrow follows non-white-space characters.
 */
module LineMachine {
  import opened Host
  import opened Text
  import opened Patterns

  /** A non-null Task from addLine: severity, message, file and line (category Compile). */
  datatype Task = Task(kind: TaskType, description: string, file: Path, line: int)

  /** The members m_message, m_fileName, m_lineNumber and m_type. */
  datatype MachineState = MachineState(message: string, fileName: string, lineNumber: int, kind: TaskType)

  /** A fresh machine, and the machine after every task. */
  const Initial := MachineState("", "", 0, Unknown)

  /** The machine after one line, and the task returned (None for a null Task). */
  datatype Added = Added(state: MachineState, task: Option<Task>)

  /**
   * LineStateMachine::addLine on the state `s`, decision by decision; `fromUserInput` is
   * FilePath::fromUserInput, applied to the recorded file when the task is built.
   */
  function Next(fromUserInput: string -> Path, s: MachineState, line: string): Added
  {
    if IsErrorMarker(line) then Added(s.(kind := Error, message := s.message + line), None)
    else if IsWarningMarker(line) then Added(s.(kind := Warning, message := s.message + line), None)
    else match PrefixedLocation(line)
      case Some(loc) =>
        Added(s.(fileName := loc.file, lineNumber := DigitsToInt(loc.lineDigits), message := s.message + line), None)
      case None =>
        if s.message == "" then Added(s, None)
        else if !IsBlank(line) then Added(s.(message := s.message + line), None)
        else Added(Initial, Some(Task(s.kind, s.message, fromUserInput(s.fileName), s.lineNumber)))
  }

  /** The machine after a sequence of lines, and the tasks it returned, in order. */
  datatype MachineRun = MachineRun(state: MachineState, tasks: seq<Task>)

  function RunMachine(fromUserInput: string -> Path, s: MachineState, lines: seq<string>): MachineRun
    decreases |lines|
  {
    if lines == [] then MachineRun(s, [])
    else
      var a := Next(fromUserInput, s, lines[0]);
      var r := RunMachine(fromUserInput, a.state, lines[1..]);
      MachineRun(r.state, OptionToSeq(a.task) + r.tasks)
  }

  class LineStateMachine {
    var message: string
    var fileName: string
    var lineNumber: int
    var kind: TaskType

    function State(): MachineState
      reads this
    {
      MachineState(message, fileName, lineNumber, kind)
    }

    constructor ()
      ensures State() == Initial
    {
      message, fileName, lineNumber, kind := "", "", 0, Unknown;
    }

    /** LineStateMachine::addLine. */
    method AddLine(fromUserInput: string -> Path, line: string) returns (task: Option<Task>)
      modifies this
      ensures Added(State(), task) == Next(fromUserInput, old(State()), line)
    {
      if IsErrorMarker(line) {
        kind := Error;
        message := message + line;
        return None;
      }
      if IsWarningMarker(line) {
        kind := Warning;
        message := message + line;
        return None;
      }
      var location := PrefixedLocation(line);
      if location.Some? {
        fileName := location.value.file;
        lineNumber := DigitsToInt(location.value.lineDigits);
        message := message + line;
        return None;
      }
      if message == "" {
        return None;
      }
      if !IsBlank(line) {
        message := message + line;
        return None;
      }
      task := Some(Task(kind, message, fromUserInput(fileName), lineNumber));
      message, fileName, lineNumber, kind := "", "", 0, Unknown;
    }
  }

  /** The two output channels of a build process. */
  datatype Channel = StdOut | StdErr

  /** A line on a channel. */
  datatype Event = Event(channel: Channel, line: string)

  /**
   * The NimParser output parser: one machine per channel. Tasks go to addTask, and every line
   * is passed on to the next parser (IOutputParser::stdOutput / stdError).
   */
  class NimParser {
    const fromUserInput: string -> Path
    const stdOutput: LineStateMachine
    const stdError: LineStateMachine
    var tasks: seq<Reported>
    var forwarded: seq<Event>

    predicate Valid()
      reads this
    {
      stdOutput != stdError
    }

    /** Both machines, the reported tasks and the forwarded lines, as one value. */
    function Snapshot(): Parsed
      reads this, stdOutput, stdError
    {
      Parsed(stdOutput.State(), stdError.State(), tasks, forwarded)
    }

    constructor (fromUserInput: string -> Path)
      ensures Valid() && fresh(stdOutput) && fresh(stdError) && this.fromUserInput == fromUserInput
      ensures stdOutput.State() == Initial && stdError.State() == Initial && tasks == [] && forwarded == []
    {
      this.fromUserInput := fromUserInput;
      stdOutput := new LineStateMachine();
      stdError := new LineStateMachine();
      tasks, forwarded := [], [];
    }

    /** NimParser::stdOutput: only the stdout machine moves; the line is passed on. */
    method StdOutput(line: string)
      requires Valid()
      modifies this, stdOutput
      ensures Valid()
      ensures var a := Next(fromUserInput, old(stdOutput.State()), line);
              && stdOutput.State() == a.state && tasks == old(tasks) + ReportOf(StdOut, a.task)
      ensures stdError.State() == old(stdError.State())
      ensures forwarded == old(forwarded) + [Event(StdOut, line)]
      ensures Snapshot() == FeedOne(fromUserInput, old(Snapshot()), Event(StdOut, line))
    {
      var task := stdOutput.AddLine(fromUserInput, line);
      if task.Some? {
        tasks := tasks + [Reported(StdOut, task.value)];
      }
      forwarded := forwarded + [Event(StdOut, line)];
    }

    /** NimParser::stdError: only the stderr machine moves; the line is passed on. */
    method StdError(line: string)
      requires Valid()
      modifies this, stdError
      ensures Valid()
      ensures var a := Next(fromUserInput, old(stdError.State()), line);
              && stdError.State() == a.state && tasks == old(tasks) + ReportOf(StdErr, a.task)
      ensures stdOutput.State() == old(stdOutput.State())
      ensures forwarded == old(forwarded) + [Event(StdErr, line)]
      ensures Snapshot() == FeedOne(fromUserInput, old(Snapshot()), Event(StdErr, line))
    {
      var task := stdError.AddLine(fromUserInput, line);
      if task.Some? {
        tasks := tasks + [Reported(StdErr, task.value)];
      }
      forwarded := forwarded + [Event(StdErr, line)];
    }
  }

  // ----- One line at a time -----

  /** Error and warning lines set the severity and are concatenated onto the message; no task. */
  lemma MarkerLineNext(f: string -> Path, s: MachineState, line: string)
    requires IsErrorMarker(line) || IsWarningMarker(line)
    ensures var a := Next(f, s, line);
            && a.task.None? && a.state.message == s.message + line
            && (IsErrorMarker(line) ==> a.state.kind == Error)
            && (IsWarningMarker(line) ==> a.state.kind == Warning)
            && a.state.fileName == s.fileName && a.state.lineNumber == s.lineNumber
  {
    MarkersDisjoint(line);
  }

  /**
   * A location line, whether or not a block is open, overwrites the recorded file with its
   * capture and the line number with its second group, and is concatenated; no task.
   */
  lemma LocationLineNext(f: string -> Path, s: MachineState, line: string, loc: Location)
    requires !IsErrorMarker(line) && !IsWarningMarker(line) && PrefixedLocation(line) == Some(loc)
    ensures Next(f, s, line) ==
            Added(MachineState(s.message + line, loc.file, DigitsToInt(loc.lineDigits), s.kind), None)
  {
  }

  /**
   * A line that starts with white space is never a location: "   --> src/a.rs:1:2" inside a
   * block is ordinary text, concatenated without touching the recorded file and line.
   */
  lemma IndentedArrowIsText(f: string -> Path, s: MachineState, line: string)
    requires s.message != "" && !IsBlank(line)
    requires |line| > 0 && IsRegexSpace(line[0])
    ensures Next(f, s, line) == Added(s.(message := s.message + line), None)
  {
    IndentedLineIsNoMarker(line);
    IndentedLineIsNotPrefixed(line);
  }

  /** With an empty message, a line that is neither a marker nor a location changes nothing and yields no task. */
  lemma IdleLineNext(f: string -> Path, s: MachineState, line: string)
    requires s.message == ""
    requires !IsErrorMarker(line) && !IsWarningMarker(line) && PrefixedLocation(line).None?
    ensures Next(f, s, line) == Added(s, None)
  {
  }

  /**
   * A line yields a task exactly when it is blank and the message is not empty; the task carries
   * the message, severity, file (through fromUserInput) and line, and all four fields are reset.
   */
  lemma TaskNext(f: string -> Path, s: MachineState, line: string)
    ensures Next(f, s, line).task.Some? <==> s.message != "" && IsBlank(line)
    ensures s.message != "" && IsBlank(line) ==>
              Next(f, s, line) == Added(Initial, Some(Task(s.kind, s.message, f(s.fileName), s.lineNumber)))
  {
    if IsBlank(line) {
      BlankLineMatchesNothing(line);
    }
  }

  /** The lines of `lines` concatenated with no separator. */
  function Concat(lines: seq<string>): string
    decreases |lines|
  {
    if lines == [] then "" else lines[0] + Concat(lines[1..])
  }

  /** Concatenation is QStringList::join with the empty separator. */
  lemma {:induction false} ConcatIsJoin(lines: seq<string>)
    ensures Concat(lines) == Join(lines, "")
    decreases |lines|
  {
    if |lines| > 1 {
      ConcatIsJoin(lines[1..]);
    } else if |lines| == 1 {
      assert lines[1..] == [];
    }
  }

  /** The last location among `lines`. */
  function LastLocation(lines: seq<string>): Option<Location>
    decreases |lines|
  {
    if lines == [] then None
    else match LastLocation(lines[1..])
      case Some(loc) => Some(loc)
      case None => PrefixedLocation(lines[0])
  }

  /** A line of a block body: not blank and not a marker. */
  predicate BodyLine(line: string)
  {
    !IsBlank(line) && !IsErrorMarker(line) && !IsWarningMarker(line)
  }

  /**
   * Over body lines of an open block the message is the concatenation of the lines, no task is
   * returned, and the recorded file and line are those of the last location (or unchanged when
   * there is none).
   */
  lemma {:induction false} LastLocationWins(f: string -> Path, s: MachineState, body: seq<string>)
    requires s.message != ""
    requires forall i :: 0 <= i < |body| ==> BodyLine(body[i])
    ensures var r := RunMachine(f, s, body);
            && r.tasks == [] && r.state.message == s.message + Concat(body) && r.state.kind == s.kind
            && (LastLocation(body).Some? ==>
                  r.state.fileName == LastLocation(body).value.file
                  && r.state.lineNumber == DigitsToInt(LastLocation(body).value.lineDigits))
            && (LastLocation(body).None? ==> r.state.fileName == s.fileName && r.state.lineNumber == s.lineNumber)
    decreases |body|
  {
    if body != [] {
      assert s.message + Concat(body) == (s.message + body[0]) + Concat(body[1..]);
      var a := Next(f, s, body[0]);
      BodyHeadNext(f, s, body[0]);
      var r := RunMachine(f, a.state, body[1..]);
      assert RunMachine(f, s, body) == MachineRun(r.state, r.tasks);
      assert forall i :: 0 <= i < |body[1..]| ==> body[1..][i] == body[i + 1];
      LastLocationWins(f, a.state, body[1..]);
    }
  }

  /** One body line of an open block: concatenated, no task, and its location (if any) recorded. */
  lemma BodyHeadNext(f: string -> Path, s: MachineState, line: string)
    requires s.message != "" && BodyLine(line)
    ensures var a := Next(f, s, line);
            && a.task.None? && a.state.message == s.message + line && a.state.kind == s.kind
            && (PrefixedLocation(line).Some? ==>
                  a.state.fileName == PrefixedLocation(line).value.file
                  && a.state.lineNumber == DigitsToInt(PrefixedLocation(line).value.lineDigits))
            && (PrefixedLocation(line).None? ==> a.state.fileName == s.fileName && a.state.lineNumber == s.lineNumber)
  {
  }

  // ----- Two channels -----

  /** A reported task, with the channel whose machine produced it. */
  datatype Reported = Reported(channel: Channel, task: Task)

  /** Both machines and the tasks after a stream of events, as the NimParser methods produce them. */
  datatype Parsed = Parsed(out: MachineState, err: MachineState, tasks: seq<Reported>, forwarded: seq<Event>)

  /** The task a machine step produced, if any, tagged with its channel. */
  function ReportOf(c: Channel, task: Option<Task>): seq<Reported>
  {
    if task.Some? then [Reported(c, task.value)] else []
  }

  /** One event: the machine of its channel moves, its task is reported, and the line is passed on. */
  function FeedOne(f: string -> Path, p: Parsed, e: Event): Parsed
  {
    if e.channel == StdOut then
      var a := Next(f, p.out, e.line);
      Parsed(a.state, p.err, p.tasks + ReportOf(StdOut, a.task), p.forwarded + [e])
    else
      var a := Next(f, p.err, e.line);
      Parsed(p.out, a.state, p.tasks + ReportOf(StdErr, a.task), p.forwarded + [e])
  }

  function Feed(f: string -> Path, p: Parsed, events: seq<Event>): Parsed
    decreases |events|
  {
    if events == [] then p else Feed(f, FeedOne(f, p, events[0]), events[1..])
  }

  /** The lines of the events on channel `c`, in order. */
  function LinesOn(events: seq<Event>, c: Channel): seq<string>
    decreases |events|
  {
    if events == [] then []
    else (if events[0].channel == c then [events[0].line] else []) + LinesOn(events[1..], c)
  }

  /** The reported tasks that came from channel `c`, in order. */
  function TasksOn(rs: seq<Reported>, c: Channel): seq<Task>
    decreases |rs|
  {
    if rs == [] then []
    else (if rs[0].channel == c then [rs[0].task] else []) + TasksOn(rs[1..], c)
  }

  /** Selecting one channel's tasks distributes over concatenation. */
  lemma {:induction false} TasksOnConcat(a: seq<Reported>, b: seq<Reported>, c: Channel)
    ensures TasksOn(a + b, c) == TasksOn(a, c) + TasksOn(b, c)
    decreases |a|
  {
    if a != [] {
      var head := if a[0].channel == c then [a[0].task] else [];
      assert (a + b)[0] == a[0];
      assert (a + b)[1..] == a[1..] + b;
      assert TasksOn(a + b, c) == head + TasksOn(a[1..] + b, c);
      TasksOnConcat(a[1..], b, c);
      assert TasksOn(a, c) == head + TasksOn(a[1..], c);
      Associative(head, TasksOn(a[1..], c), TasksOn(b, c));
    } else {
      assert a + b == b;
    }
  }

  lemma Associative<T>(x: seq<T>, y: seq<T>, z: seq<T>)
    ensures x + (y + z) == (x + y) + z
  {
  }

  /** Every reported task came from exactly one of the two channels. */
  lemma {:induction false} TasksOnSplit(rs: seq<Reported>)
    ensures |TasksOn(rs, StdOut)| + |TasksOn(rs, StdErr)| == |rs|
    decreases |rs|
  {
    if rs != [] {
      TasksOnSplit(rs[1..]);
    }
  }

  /** One step's report, as seen from channel `c`. */
  lemma ReportOn(e: Channel, task: Option<Task>, c: Channel)
    ensures TasksOn(ReportOf(e, task), c) == if e == c then OptionToSeq(task) else []
  {
    if task.Some? {
      assert ReportOf(e, task)[1..] == [];
    }
  }

  /**
   * The channels do not interfere: after any interleaving, each machine is where its own lines
   * alone would take it, the tasks reported from each channel are exactly the tasks its own
   * machine produces from its own lines, and every line is passed on in the order it arrived.
   */
  lemma ChannelsIndependent(f: string -> Path, p: Parsed, events: seq<Event>)
    ensures var q := Feed(f, p, events);
            && q.out == RunMachine(f, p.out, LinesOn(events, StdOut)).state
            && q.err == RunMachine(f, p.err, LinesOn(events, StdErr)).state
            && TasksOn(q.tasks, StdOut) == TasksOn(p.tasks, StdOut) + RunMachine(f, p.out, LinesOn(events, StdOut)).tasks
            && TasksOn(q.tasks, StdErr) == TasksOn(p.tasks, StdErr) + RunMachine(f, p.err, LinesOn(events, StdErr)).tasks
            && |q.tasks| == |p.tasks| + |RunMachine(f, p.out, LinesOn(events, StdOut)).tasks|
                                      + |RunMachine(f, p.err, LinesOn(events, StdErr)).tasks|
            && q.forwarded == p.forwarded + events
  {
    var q := Feed(f, p, events);
    OwnLinesOnly(f, p, events, StdOut);
    OwnLinesOnly(f, p, events, StdErr);
    TasksOnSplit(p.tasks);
    TasksOnSplit(q.tasks);
    EveryLinePassedOn(f, p, events);
  }

  /** The machine of channel `c`. */
  function MachineOf(p: Parsed, c: Channel): MachineState
  {
    if c == StdOut then p.out else p.err
  }

  /**
   * Channel `c`'s machine ends where its own lines take it, and the tasks reported from `c` are
   * the earlier ones followed by exactly the tasks its machine produces from those lines.
   */
  lemma {:induction false} OwnLinesOnly(f: string -> Path, p: Parsed, events: seq<Event>, c: Channel)
    ensures var q := Feed(f, p, events);
            var r := RunMachine(f, MachineOf(p, c), LinesOn(events, c));
            && MachineOf(q, c) == r.state
            && TasksOn(q.tasks, c) == TasksOn(p.tasks, c) + r.tasks
    decreases |events|
  {
    if events != [] {
      var e, rest := events[0], events[1..];
      var p' := FeedOne(f, p, e);
      OwnLinesOnly(f, p', rest, c);
      OneEventOwnTasks(f, p, e, rest, c);
      assert events == [e] + rest;
      assert Feed(f, p, events) == Feed(f, p', rest);
    }
  }

  /** Feeding one event first changes neither where channel `c` ends nor which tasks it reports. */
  lemma OneEventOwnTasks(f: string -> Path, p: Parsed, e: Event, rest: seq<Event>, c: Channel)
    ensures var p' := FeedOne(f, p, e);
            var r' := RunMachine(f, MachineOf(p', c), LinesOn(rest, c));
            var r := RunMachine(f, MachineOf(p, c), LinesOn([e] + rest, c));
            && r'.state == r.state
            && TasksOn(p'.tasks, c) + r'.tasks == TasksOn(p.tasks, c) + r.tasks
  {
    var task := Next(f, MachineOf(p, e.channel), e.line).task;
    OneEventMoves(f, p, e, rest, c);
    FeedOneReports(f, p, e);
    TasksOnConcat(p.tasks, ReportOf(e.channel, task), c);
    ReportOn(e.channel, task, c);
    Regroup(TasksOn(p.tasks, c), TasksOn(ReportOf(e.channel, task), c), OptionToSeq(task),
            RunMachine(f, MachineOf(FeedOne(f, p, e), c), LinesOn(rest, c)).tasks, e.channel == c);
  }

  /** The bookkeeping of one step: the event's task goes either to channel `c` or nowhere on it. */
  lemma Regroup(earlier: seq<Task>, mine: seq<Task>, produced: seq<Task>, later: seq<Task>, same: bool)
    requires mine == if same then produced else []
    ensures (earlier + mine) + later == earlier + (if same then produced + later else later)
  {
  }

  /** One event reports its machine's task, tagged with the event's channel. */
  lemma FeedOneReports(f: string -> Path, p: Parsed, e: Event)
    ensures FeedOne(f, p, e).tasks == p.tasks + ReportOf(e.channel, Next(f, MachineOf(p, e.channel), e.line).task)
  {
  }

  /** Feeding one event, as seen from channel `c`'s machine. */
  lemma OneEventMoves(f: string -> Path, p: Parsed, e: Event, rest: seq<Event>, c: Channel)
    ensures var p' := FeedOne(f, p, e);
            var r := RunMachine(f, MachineOf(p', c), LinesOn(rest, c));
            RunMachine(f, MachineOf(p, c), LinesOn([e] + rest, c)) ==
              if e.channel == c then MachineRun(r.state, OptionToSeq(Next(f, MachineOf(p, c), e.line).task) + r.tasks)
              else r
  {
    assert ([e] + rest)[1..] == rest;
    if e.channel == c {
      var lines := [e.line] + LinesOn(rest, c);
      assert LinesOn([e] + rest, c) == lines;
      assert lines[0] == e.line && lines[1..] == LinesOn(rest, c);
      assert MachineOf(FeedOne(f, p, e), c) == Next(f, MachineOf(p, c), e.line).state;
    } else {
      assert LinesOn([e] + rest, c) == LinesOn(rest, c);
      assert MachineOf(FeedOne(f, p, e), c) == MachineOf(p, c);
    }
  }

  /** Every line is passed on, in the order it arrived. */
  lemma {:induction false} EveryLinePassedOn(f: string -> Path, p: Parsed, events: seq<Event>)
    ensures Feed(f, p, events).forwarded == p.forwarded + events
    decreases |events|
  {
    if events != [] {
      var q := FeedOne(f, p, events[0]);
      FeedOneForwards(f, p, events[0]);
      EveryLinePassedOn(f, q, events[1..]);
      assert Feed(f, p, events) == Feed(f, q, events[1..]);
      assert events == [events[0]] + events[1..];
      Associative(p.forwarded, [events[0]], events[1..]);
    }
  }

  /** One event is passed on, whichever channel it came on. */
  lemma FeedOneForwards(f: string -> Path, p: Parsed, e: Event)
    ensures FeedOne(f, p, e).forwarded == p.forwarded + [e]
  {
  }
}
