/**
 * The editor page (src/App.js): the editor's code, the terminal panel's
 * open flag and text, and `run`, which sends the code through the remote
 * assemble, link and exec calls in turn. It writes a status line to the
 * terminal before each call and after assemble and link succeed, then the
 * program's output; the first failing call ends the run with only
 * `Failed: <message>` written after it.
 *
 * The remote service is a Backend: three stub functions giving each call's
 * answer, a payload or a failure message (the message of the error `run`
 * catches). Waiting is not modelled; every write to the terminal text is
 * recorded in a ghost trace together with the pause that follows it, and every
 * remote call in a ghost record of invocations.
 *
 * The pipeline is specified independently of `run`'s straight-line code by a
 * state machine over the phases Idle, Assembling, Linking, Executing and the
 * settled phases Done and Failed; `run` is proved to produce exactly the
 * writes and calls of that machine.
 */
module App {

  /** The code the editor starts with (lines 16-32). */
  const DefaultCode: string :=
    ".data\nmsg:\n.ascii \"Hello Innsbruck!\"\nlen = . - msg\n.align\n.global _start\n_start:\n"
    + "MOV r0, #1\nLDR r1, =msg\nLDR r2, =len\nMOV r7, #4\nSWI #0\n\nMOV r0, #0\nMOV r7, #1\nSWI #0\n"

  /** The heavy check mark and the emoji presentation selector after it. */
  const Tick: string := "\U{2714}\U{FE0F}"

  const AssemblingText: string := "Assembling..."
  const AssembledText: string := "Assembling " + Tick
  const LinkingText: string := "Linking ..."
  const LinkedText: string := "Linking " + Tick
  const RunningText: string := "Running ..."
  const FailedPrefix: string := "Failed: "

  /** Whatever a stage returns for the next one; `run` never looks inside. */
  type Artifact = seq<int>

  /** The answer of one remote call: its payload, or the caught error's message. */
  datatype Response<T> = Ok(data: T) | Err(message: string)

  /** The remote service as three stubs (src/services/api.js). */
  datatype Backend = Backend(
    assemble: string -> Response<Artifact>,
    link: Artifact -> Response<Artifact>,
    exec: Artifact -> Response<seq<string>>)

  /** One remote call and the data sent with it. */
  datatype Call = AssembleCall(source: string) | LinkCall(assembled: Artifact) | ExecCall(linked: Artifact)

  /** One `setTerminaltext(text)`, followed by a pause of `delay` ms (0: no pause). */
  datatype Write = Write(text: string, delay: nat)

  /** The lengths of all lines added up. */
  function TotalLength(lines: seq<string>): nat {
    if lines == [] then 0 else |lines[0]| + TotalLength(lines[1..])
  }

  /** `lines.join(sep)`: the lines in order with one separator between each two. */
  function Join(lines: seq<string>, sep: string): (r: string)
    ensures lines == [] ==> r == ""
    ensures lines != [] ==> lines[0] <= r
    decreases |lines|
  {
    if |lines| == 0 then ""
    else if |lines| == 1 then lines[0]
    else lines[0] + sep + Join(lines[1..], sep)
  }

  /**
   * The joined text ends with the last line, and its length is the lines'
   * total plus one separator for each gap between two lines.
   */
  lemma {:induction false} JoinShape(lines: seq<string>, sep: string)
    requires lines != []
    ensures |lines[|lines| - 1]| <= |Join(lines, sep)|
    ensures Join(lines, sep)[|Join(lines, sep)| - |lines[|lines| - 1]|..] == lines[|lines| - 1]
    ensures |Join(lines, sep)| == TotalLength(lines) + (|lines| - 1) * |sep|
    decreases |lines|
  {
    if |lines| > 1 {
      var tail := lines[1..];
      JoinShape(tail, sep);
      var last, rest := lines[|lines| - 1], Join(tail, sep);
      assert tail[|tail| - 1] == last;
      var r := lines[0] + sep + rest;
      assert Join(lines, sep) == r;
      assert r[|r| - |last|..] == rest[|rest| - |last|..];
    }
  }

  /** `s.split(sep)` for a one-character separator: the inverse of Join. */
  function Split(s: string, sep: char): (r: seq<string>)
    ensures |r| >= 1
    decreases |s|
  {
    if s == [] then [""]
    else
      var rest := Split(s[1..], sep);
      if s[0] == sep then [""] + rest else [[s[0]] + rest[0]] + rest[1..]
  }

  /** A piece without the separator comes back whole. */
  lemma {:induction false} SplitPlain(s: string, sep: char)
    requires sep !in s
    ensures Split(s, sep) == [s]
    decreases |s|
  {
    if s != [] {
      SplitPlain(s[1..], sep);
      assert [s[0]] + s[1..] == s;
    }
  }

  /** Splitting a piece, a separator and the rest cuts at that separator. */
  lemma {:induction false} SplitAtSeparator(a: string, sep: char, rest: string)
    requires sep !in a
    ensures Split(a + [sep] + rest, sep) == [a] + Split(rest, sep)
    decreases |a|
  {
    var s := a + [sep] + rest;
    if a == [] {
      assert s[0] == sep && s[1..] == rest;
    } else {
      assert s[0] == a[0] && s[1..] == a[1..] + [sep] + rest;
      SplitAtSeparator(a[1..], sep, rest);
      assert [a[0]] + a[1..] == a;
    }
  }

  /**
   * For a non-empty list of lines, none holding the separator, splitting the
   * joined text gives back exactly those lines.
   */
  lemma {:induction false} SplitJoin(lines: seq<string>, sep: char)
    requires lines != []
    requires forall i :: 0 <= i < |lines| ==> sep !in lines[i]
    ensures Split(Join(lines, [sep]), sep) == lines
    decreases |lines|
  {
    if |lines| == 1 {
      SplitPlain(lines[0], sep);
    } else {
      SplitJoin(lines[1..], sep);
      SplitAtSeparator(lines[0], sep, Join(lines[1..], [sep]));
      assert [lines[0]] + lines[1..] == lines;
    }
  }

  /** Two lines are joined with one separator between them. */
  lemma JoinTwo(x: string, y: string, sep: string)
    ensures Join([x, y], sep) == x + sep + y
  {
    assert [x, y][1..] == [y];
  }

  /** The output lines `hello`, `world` are shown as `hello\nworld`. */
  lemma JoinExample()
    ensures Join(["hello", "world"], "\n") == "hello\nworld"
  {
    JoinTwo("hello", "world", "\n");
  }

  /** The phases of one pipeline run. */
  datatype Phase =
    | Idle(code: string)
    | Assembling(code: string)
    | Linking(assembled: Artifact)
    | Executing(linked: Artifact)
    | Done(output: string)
    | Failed(message: string)

  predicate Settled(p: Phase) {
    p.Done? || p.Failed?
  }

  /** How many steps a phase is from settling at most. */
  function Rank(p: Phase): nat {
    match p
    case Idle(_) => 4
    case Assembling(_) => 3
    case Linking(_) => 2
    case Executing(_) => 1
    case Done(_) => 0
    case Failed(_) => 0
  }

  /** What one step writes, which call it makes and where it leads. */
  datatype Step = Step(next: Phase, writes: seq<Write>, calls: seq<Call>)

  /** Announce a stage, or make its call and acknowledge or fail it. */
  function Advance(p: Phase, b: Backend): (s: Step)
    requires !Settled(p)
    ensures Rank(s.next) < Rank(p)
    ensures |s.calls| <= 1
    ensures s.next.Failed? ==> s.writes == [Write(FailedPrefix + s.next.message, 0)]
  {
    match p
    case Idle(code) =>
      Step(Assembling(code), [Write(AssemblingText, 100)], [])
    case Assembling(code) =>
      (match b.assemble(code)
       case Ok(a) => Step(Linking(a), [Write(AssembledText, 200), Write(LinkingText, 100)], [AssembleCall(code)])
       case Err(m) => Step(Failed(m), [Write(FailedPrefix + m, 0)], [AssembleCall(code)]))
    case Linking(a) =>
      (match b.link(a)
       case Ok(l) => Step(Executing(l), [Write(LinkedText, 200), Write(RunningText, 200)], [LinkCall(a)])
       case Err(m) => Step(Failed(m), [Write(FailedPrefix + m, 0)], [LinkCall(a)]))
    case Executing(l) =>
      (match b.exec(l)
       case Ok(lines) => Step(Done(Join(lines, "\n")), [Write(Join(lines, "\n"), 0)], [ExecCall(l)])
       case Err(m) => Step(Failed(m), [Write(FailedPrefix + m, 0)], [ExecCall(l)]))
  }

  /** Where a run ends, with everything it wrote and every call it made. */
  datatype Outcome = Outcome(final: Phase, writes: seq<Write>, calls: seq<Call>)

  /** Step from `p` until the run settles. */
  function Drive(p: Phase, b: Backend): (o: Outcome)
    ensures Settled(o.final)
    ensures |o.calls| <= Rank(p)
    ensures p.Idle? ==> |o.calls| <= 3
    decreases Rank(p)
  {
    if Settled(p) then Outcome(p, [], [])
    else
      var s := Advance(p, b);
      var rest := Drive(s.next, b);
      Outcome(rest.final, s.writes + rest.writes, s.calls + rest.calls)
  }

  /** One run of the pipeline on `code`: it announces assembly first and settles within three calls. */
  function Pipeline(code: string, b: Backend): (o: Outcome)
    ensures Settled(o.final)
    ensures |o.calls| <= 3
    ensures o.writes != [] && o.writes[0] == Write(AssemblingText, 100)
  {
    Drive(Idle(code), b)
  }

  /** What the terminal shows once a run has settled: the output, or the failure text. */
  function Shown(p: Phase): (r: string)
    requires Settled(p)
    ensures p.Done? ==> r == p.output
    ensures p.Failed? ==> FailedPrefix <= r && r[|FailedPrefix|..] == p.message
  {
    if p.Done? then p.output else FailedPrefix + p.message
  }

  /** The call succeeded. */
  predicate Succeeds(b: Backend, c: Call) {
    match c
    case AssembleCall(code) => b.assemble(code).Ok?
    case LinkCall(a) => b.link(a).Ok?
    case ExecCall(l) => b.exec(l).Ok?
  }

  /** The message of a failed call. */
  function ErrorOf(b: Backend, c: Call): string
    requires !Succeeds(b, c)
  {
    match c
    case AssembleCall(code) => b.assemble(code).message
    case LinkCall(a) => b.link(a).message
    case ExecCall(l) => b.exec(l).message
  }

  /** The call that receives a successful call's payload. */
  function NextCall(b: Backend, c: Call): Call
    requires Succeeds(b, c) && !c.ExecCall?
  {
    match c
    case AssembleCall(code) => LinkCall(b.assemble(code).data)
    case LinkCall(a) => ExecCall(b.link(a).data)
  }

  /** The last, calling step of a stage that settles the run. */
  lemma DriveSettles(p: Phase, b: Backend)
    requires !Settled(p) && Settled(Advance(p, b).next)
    ensures Drive(p, b) == Outcome(Advance(p, b).next, Advance(p, b).writes, Advance(p, b).calls)
  {
  }

  /** All three stages succeed: the full sequence of status lines, then the output. */
  lemma PipelineSucceeds(code: string, b: Backend, a: Artifact, l: Artifact, lines: seq<string>)
    requires b.assemble(code) == Ok(a) && b.link(a) == Ok(l) && b.exec(l) == Ok(lines)
    ensures Pipeline(code, b) == Outcome(
      Done(Join(lines, "\n")),
      [Write(AssemblingText, 100), Write(AssembledText, 200), Write(LinkingText, 100),
       Write(LinkedText, 200), Write(RunningText, 200), Write(Join(lines, "\n"), 0)],
      [AssembleCall(code), LinkCall(a), ExecCall(l)])
  {
    DriveSettles(Executing(l), b);
    var o3 := Drive(Executing(l), b);
    var o2 := Drive(Linking(a), b);
    assert o2.writes == [Write(LinkedText, 200), Write(RunningText, 200)] + o3.writes;
    var o1 := Drive(Assembling(code), b);
    assert o1.writes == [Write(AssembledText, 200), Write(LinkingText, 100)] + o2.writes;
  }

  /** Assembling fails: the failure is shown and nothing else is called. */
  lemma PipelineAssembleFails(code: string, b: Backend, m: string)
    requires b.assemble(code) == Err(m)
    ensures Pipeline(code, b) == Outcome(
      Failed(m),
      [Write(AssemblingText, 100), Write(FailedPrefix + m, 0)],
      [AssembleCall(code)])
  {
    DriveSettles(Assembling(code), b);
  }

  /** Linking fails: three status lines, then the failure; exec is never called. */
  lemma PipelineLinkFails(code: string, b: Backend, a: Artifact, m: string)
    requires b.assemble(code) == Ok(a) && b.link(a) == Err(m)
    ensures Pipeline(code, b) == Outcome(
      Failed(m),
      [Write(AssemblingText, 100), Write(AssembledText, 200), Write(LinkingText, 100),
       Write(FailedPrefix + m, 0)],
      [AssembleCall(code), LinkCall(a)])
  {
    DriveSettles(Linking(a), b);
    var o2 := Drive(Linking(a), b);
    var o1 := Drive(Assembling(code), b);
    assert o1.writes == [Write(AssembledText, 200), Write(LinkingText, 100)] + o2.writes;
  }

  /** Exec fails: five status lines, then the failure. */
  lemma PipelineExecFails(code: string, b: Backend, a: Artifact, l: Artifact, m: string)
    requires b.assemble(code) == Ok(a) && b.link(a) == Ok(l) && b.exec(l) == Err(m)
    ensures Pipeline(code, b) == Outcome(
      Failed(m),
      [Write(AssemblingText, 100), Write(AssembledText, 200), Write(LinkingText, 100),
       Write(LinkedText, 200), Write(RunningText, 200), Write(FailedPrefix + m, 0)],
      [AssembleCall(code), LinkCall(a), ExecCall(l)])
  {
    DriveSettles(Executing(l), b);
    var o3 := Drive(Executing(l), b);
    var o2 := Drive(Linking(a), b);
    assert o2.writes == [Write(LinkedText, 200), Write(RunningText, 200)] + o3.writes;
    var o1 := Drive(Assembling(code), b);
    assert o1.writes == [Write(AssembledText, 200), Write(LinkingText, 100)] + o2.writes;
  }

  /**
   * Every run, whatever the service answers: it starts by announcing assembly
   * and calling assemble on the code; each later call receives exactly the
   * previous call's payload and happens only if that call succeeded; the run
   * fails iff its last call failed, with that call's message; it is done iff all
   * three calls succeeded; and the terminal is left showing the settled result.
   */
  lemma PipelineShape(code: string, b: Backend)
    ensures var o := Pipeline(code, b);
      && o.writes != [] && o.writes[0] == Write(AssemblingText, 100)
      && o.writes[|o.writes| - 1].text == Shown(o.final)
      && 1 <= |o.calls| <= 3 && o.calls[0] == AssembleCall(code)
      && (forall i :: 0 <= i < |o.calls| - 1 ==>
            Succeeds(b, o.calls[i]) && !o.calls[i].ExecCall? && o.calls[i + 1] == NextCall(b, o.calls[i]))
      && (o.final.Failed? <==> !Succeeds(b, o.calls[|o.calls| - 1]))
      && (o.final.Failed? ==> o.final.message == ErrorOf(b, o.calls[|o.calls| - 1]))
      && (o.final.Done? <==> |o.calls| == 3 && Succeeds(b, o.calls[2]))
  {
    match b.assemble(code)
    case Err(m) =>
      PipelineAssembleFails(code, b, m);
    case Ok(a) =>
      match b.link(a)
      case Err(m) =>
        PipelineLinkFails(code, b, a, m);
      case Ok(l) =>
        match b.exec(l)
        case Err(m) =>
          PipelineExecFails(code, b, a, l, m);
        case Ok(lines) =>
          PipelineSucceeds(code, b, a, l, lines);
  }

  /*
   * The four lemmas below restate the four outcomes in the shape in which
   * `run` builds its history, one write or call appended at a time after an
   * arbitrary earlier history.
   */

  /** History appended by a run whose assemble call fails. */
  lemma AfterAssembleFails(code: string, b: Backend, m: string, t: seq<Write>, c: seq<Call>)
    requires b.assemble(code) == Err(m)
    ensures t + [Write(AssemblingText, 100)] + [Write(FailedPrefix + m, 0)] == t + Pipeline(code, b).writes
    ensures c + [AssembleCall(code)] == c + Pipeline(code, b).calls
    ensures Shown(Pipeline(code, b).final) == FailedPrefix + m
  {
    PipelineAssembleFails(code, b, m);
  }

  /** History appended by a run whose link call fails. */
  lemma AfterLinkFails(code: string, b: Backend, a: Artifact, m: string, t: seq<Write>, c: seq<Call>)
    requires b.assemble(code) == Ok(a) && b.link(a) == Err(m)
    ensures t + [Write(AssemblingText, 100)] + [Write(AssembledText, 200)] + [Write(LinkingText, 100)]
      + [Write(FailedPrefix + m, 0)] == t + Pipeline(code, b).writes
    ensures c + [AssembleCall(code)] + [LinkCall(a)] == c + Pipeline(code, b).calls
    ensures Shown(Pipeline(code, b).final) == FailedPrefix + m
  {
    PipelineLinkFails(code, b, a, m);
  }

  /** History appended by a run whose exec call fails. */
  lemma AfterExecFails(code: string, b: Backend, a: Artifact, l: Artifact, m: string, t: seq<Write>, c: seq<Call>)
    requires b.assemble(code) == Ok(a) && b.link(a) == Ok(l) && b.exec(l) == Err(m)
    ensures t + [Write(AssemblingText, 100)] + [Write(AssembledText, 200)] + [Write(LinkingText, 100)]
      + [Write(LinkedText, 200)] + [Write(RunningText, 200)] + [Write(FailedPrefix + m, 0)] == t + Pipeline(code, b).writes
    ensures c + [AssembleCall(code)] + [LinkCall(a)] + [ExecCall(l)] == c + Pipeline(code, b).calls
    ensures Shown(Pipeline(code, b).final) == FailedPrefix + m
  {
    PipelineExecFails(code, b, a, l, m);
  }

  /** History appended by a run whose three calls succeed. */
  lemma AfterSuccess(code: string, b: Backend, a: Artifact, l: Artifact, lines: seq<string>, t: seq<Write>, c: seq<Call>)
    requires b.assemble(code) == Ok(a) && b.link(a) == Ok(l) && b.exec(l) == Ok(lines)
    ensures t + [Write(AssemblingText, 100)] + [Write(AssembledText, 200)] + [Write(LinkingText, 100)]
      + [Write(LinkedText, 200)] + [Write(RunningText, 200)] + [Write(Join(lines, "\n"), 0)] == t + Pipeline(code, b).writes
    ensures c + [AssembleCall(code)] + [LinkCall(a)] + [ExecCall(l)] == c + Pipeline(code, b).calls
    ensures Shown(Pipeline(code, b).final) == Join(lines, "\n")
  {
    PipelineSucceeds(code, b, a, l, lines);
  }

  /** The state of the page component. */
  class AppState {
    var code: string
    var terminalOpen: bool
    var terminalText: string
    /** Every write to the terminal text so far, with the pause after it. */
    ghost var trace: seq<Write>
    /** Every remote call made so far. */
    ghost var invoked: seq<Call>

    /** The terminal shows the last text written to it, and nothing before the first. */
    ghost predicate Valid()
      reads this
    {
      if trace == [] then terminalText == "" else terminalText == trace[|trace| - 1].text
    }

    /** The initial state (lines 36-38). */
    constructor ()
      ensures Valid()
      ensures code == DefaultCode && !terminalOpen && terminalText == ""
      ensures trace == [] && invoked == []
    {
      code := DefaultCode;
      terminalOpen := false;
      terminalText := "";
      trace := [];
      invoked := [];
    }

    /** The editor's change handler (line 94). */
    method SetCode(newCode: string)
      requires Valid()
      modifies this
      ensures Valid()
      ensures code == newCode
      ensures terminalOpen == old(terminalOpen) && terminalText == old(terminalText)
      ensures trace == old(trace) && invoked == old(invoked)
    {
      code := newCode;
    }

    /** `printOut(text, delay)` (lines 53-56): show `text`, then wait `delay` ms. */
    method PrintOut(text: string, delay: nat)
      requires Valid()
      modifies this
      ensures Valid()
      ensures terminalText == text && trace == old(trace) + [Write(text, delay)]
      ensures code == old(code) && terminalOpen == old(terminalOpen) && invoked == old(invoked)
    {
      terminalText := text;
      trace := trace + [Write(text, delay)];
    }

    /** `api.assamble(source)`, made only while the terminal is open. */
    method Assemble(b: Backend, source: string) returns (r: Response<Artifact>)
      requires terminalOpen
      modifies this
      ensures r == b.assemble(source)
      ensures invoked == old(invoked) + [AssembleCall(source)]
      ensures code == old(code) && terminalOpen && terminalText == old(terminalText) && trace == old(trace)
    {
      r := b.assemble(source);
      invoked := invoked + [AssembleCall(source)];
    }

    /** `api.link(assembled)`, made only while the terminal is open. */
    method Link(b: Backend, assembled: Artifact) returns (r: Response<Artifact>)
      requires terminalOpen
      modifies this
      ensures r == b.link(assembled)
      ensures invoked == old(invoked) + [LinkCall(assembled)]
      ensures code == old(code) && terminalOpen && terminalText == old(terminalText) && trace == old(trace)
    {
      r := b.link(assembled);
      invoked := invoked + [LinkCall(assembled)];
    }

    /** `api.exec(linked)`, made only while the terminal is open. */
    method Exec(b: Backend, linked: Artifact) returns (r: Response<seq<string>>)
      requires terminalOpen
      modifies this
      ensures r == b.exec(linked)
      ensures invoked == old(invoked) + [ExecCall(linked)]
      ensures code == old(code) && terminalOpen && terminalText == old(terminalText) && trace == old(trace)
    {
      r := b.exec(linked);
      invoked := invoked + [ExecCall(linked)];
    }

    /**
     * `run` (lines 58-74): open the terminal, then the three stages in order;
     * the first failure is caught and shown as `Failed: <message>`.
     */
    method Run(b: Backend)
      requires Valid()
      modifies this
      ensures Valid()
      ensures terminalOpen && code == old(code)
      ensures trace == old(trace) + Pipeline(old(code), b).writes
      ensures invoked == old(invoked) + Pipeline(old(code), b).calls
      ensures terminalText == Shown(Pipeline(old(code), b).final)
    {
      ghost var t0, c0 := trace, invoked;
      terminalOpen := true;
      PrintOut(AssemblingText, 100);
      var assembled := Assemble(b, code);
      if assembled.Err? {
        PrintOut(FailedPrefix + assembled.message, 0);
        AfterAssembleFails(code, b, assembled.message, t0, c0);
        return;
      }
      PrintOut(AssembledText, 200);
      PrintOut(LinkingText, 100);
      var linked := Link(b, assembled.data);
      if linked.Err? {
        PrintOut(FailedPrefix + linked.message, 0);
        AfterLinkFails(code, b, assembled.data, linked.message, t0, c0);
        return;
      }
      PrintOut(LinkedText, 200);
      PrintOut(RunningText, 200);
      var output := Exec(b, linked.data);
      if output.Err? {
        PrintOut(FailedPrefix + output.message, 0);
        AfterExecFails(code, b, assembled.data, linked.data, output.message, t0, c0);
        return;
      }
      PrintOut(Join(output.data, "\n"), 0);
      AfterSuccess(code, b, assembled.data, linked.data, output.data, t0, c0);
    }

    /** The terminal's close button (line 97): hide the panel and nothing else. */
    method Close()
      requires Valid()
      modifies this
      ensures Valid()
      ensures !terminalOpen
      ensures code == old(code) && terminalText == old(terminalText)
      ensures trace == old(trace) && invoked == old(invoked)
    {
      terminalOpen := false;
    }
  }
}
