/** main-client.c: counting the background operations of a client. */
module Background {
  import opened Core
  import CommandLine

  function Newlines(s: string): nat {
    if s == "" then 0 else Newlines(s[..|s| - 1]) + if s[|s| - 1] == '\n' then 1 else 0
  }

  lemma {:induction false} NewlinesAdd(a: string, b: string)
    ensures Newlines(a + b) == Newlines(a) + Newlines(b)
  {
    if b == "" {
      assert a + b == a;
    } else {
      assert (a + b)[..|a + b| - 1] == a + b[..|b| - 1];
      NewlinesAdd(a, b[..|b| - 1]);
    }
  }

  lemma {:induction false} NoNewlines(s: string)
    ensures Newlines(s) == 0 <==> '\n' !in s
  {
    if s != "" {
      NoNewlines(s[..|s| - 1]);
      assert s == s[..|s| - 1] + [s[|s| - 1]];
    }
  }

  // ---------------------------------------------------------------- the client's own code

  datatype Line = Line(text: string) | EndOfFile | ReadFailed

  /**
    read_line: up to `size` - 1 characters of one line. `input` is what comes until end of file; a
    read() is repeated when a signal interrupts it and may fail unless the terminal is `reliable`.
  */
  method ReadLine(input: string, size: nat, interrupts: nat, reliable: bool) returns (r: Line, used: nat)
    ensures used <= |input|
    ensures r.Line? ==> |r.text| <= used <= |r.text| + 1 && r.text == input[..|r.text|] && '\n' !in r.text
    ensures r.Line? && size > 0 ==> |r.text| < size
    ensures r.Line? && used > |r.text| ==> input[|r.text|] == '\n'
    ensures r.Line? && used == |r.text| ==> (used == |input| && used > 0) || |r.text| + 1 >= size
    ensures r.EndOfFile? ==> input == "" && size > 1
    ensures reliable ==> !r.ReadFailed? && (r.EndOfFile? <==> input == "" && size > 1)
  {
    var line, signals := "", interrupts;
    used := 0;
    while |line| + 1 < size
      invariant used == |line| <= |input| && line == input[..used] && '\n' !in line
      invariant size > 0 ==> |line| < size
      invariant size == 0 ==> line == ""
      decreases size - |line|, signals
    {
      var signalled: bool, fails: bool := *, *;
      if signalled && signals > 0 {
        signals := signals - 1;
        continue;
      }
      if fails && !reliable {
        return ReadFailed, used;
      }
      if used == |input| {
        return if used == 0 then EndOfFile else Line(line), used;
      }
      var c := input[used];
      used := used + 1;
      if c == '\n' {
        return Line(line), used;
      }
      line := line + [c];
    }
    r := Line(line);
  }

  /**
    The counting part of the main loop. `world` is the state of all operations so far, of which
    the client sees only what it reads from the pipe.
  */
  class Client {
    var backgroundOperations: int
    ghost var world: State

    ghost predicate Valid()
      reads this
    {
      Inv(world) && backgroundOperations == world.counter
    }

    /** Nothing started yet: `start` is START, which is safe by StartsSafe. */
    constructor (ghost start: State)
      requires Inv(start) && start.counter == 0
      ensures Valid() && world == start
    {
      backgroundOperations, world := 0, start;
    }

    /** A child reports its end or is lost; the client does not notice. */
    ghost method Elsewhere(a: Action)
      requires Valid() && (a.Ends? || a.Dies?)
      modifies `world
      ensures Valid() && world == Step(old(world), a)
    {
      StepKeepsInv(world, a);
      world := Step(world, a);
    }

    /** After spawn_background, whether or not fork() succeeded. */
    method Started(line: string, forked: bool)
      requires Valid() && Startable(line)
      modifies this
      ensures Valid() && world == Step(old(world), Start(line, forked))
    {
      backgroundOperations := backgroundOperations + 1;
      StepKeepsInv(world, Start(line, forked));
      world := Step(world, Start(line, forked));
    }

    /** The pipe is readable: `bytesRead` is what read() returned, -1 for an error. */
    method OnPipe(buf: array<char>, bytesRead: int)
      requires Valid() && -1 <= bytesRead <= 511 && bytesRead < buf.Length
      requires bytesRead > 0 ==> buf[..bytesRead] <= world.written[world.taken..]
      modifies this
      ensures Valid() && world == if bytesRead > 0 then Step(old(world), Read(bytesRead)) else old(world)
    {
      var i := 0;
      while i < bytesRead
        invariant 0 <= i && (i <= bytesRead || i == 0)
        invariant backgroundOperations == old(backgroundOperations) - Newlines(buf[..i])
        invariant world == old(world)
      {
        assert buf[..i + 1][..i] == buf[..i];
        if buf[i] == '\n' {
          backgroundOperations := backgroundOperations - 1;
        }
        i := i + 1;
      }
      if bytesRead > 0 {
        assert buf[..bytesRead] == world.written[world.taken..world.taken + bytesRead];
        StepKeepsInv(world, Read(bytesRead));
        world := Step(world, Read(bytesRead));
      }
    }

    /** The `exit` command is honoured exactly when nothing is outstanding. */
    method MayExit() returns (ok: bool)
      requires Valid()
      ensures ok <==>
        world.failedForks == 0 && (forall c :: c in world.children ==> c.Reported?) && world.taken == |world.written|
    {
      NothingOutstanding(world);
      ok := !(backgroundOperations > 0);
    }
  }

  // ---------------------------------------------------------------- what a child reports

  const MESSAGE_SIZE: nat := 256

  /** "%.90s". */
  function Cut(s: string): (r: string)
    ensures |r| <= 90 && r <= s
  {
    if |s| > 90 then s[..90] else s
  }

  datatype End = LoginFailed | OpenFailed | StreamFailed | Concluded

  /** The line a child writes before it ends. */
  function Report(c: CommandLine.Command, e: End): string {
    match e
    case LoginFailed => LOGIN_FAILED
    case OpenFailed => OPEN_FAILED
    case StreamFailed => STREAM_FAILED
    case Concluded =>
      if c.code == CommandLine.UPLOAD then Conclusion("[Background] Command: upload ", c.buf2, c.buf)
      else Conclusion("[Background] Command: download ", c.buf, c.buf2)
  }

  const LOGIN_FAILED: string := "[ERROR]: Background" + " login failed." + "\n"
  const OPEN_FAILED: string := "Background operation" + " failed to open local file." + "\n"
  const STREAM_FAILED: string := "[ERROR]: Background operation failed" + " during stream transfer." + "\n"

  function Conclusion(head: string, a: string, b: string): string {
    Fit(head + Cut(a) + " " + Cut(b) + " concluded\n", MESSAGE_SIZE)
  }

  predicate OneLine(m: string) {
    m != "" && m[|m| - 1] == '\n' && Newlines(m) == 1
  }

  lemma EndsInNewline(text: string)
    requires '\n' !in text
    ensures OneLine(text + "\n")
  {
    NoNewlines(text);
    NewlinesAdd(text, "\n");
    assert "\n"[..0] == "";
    assert Newlines("\n") == 1;
  }

  /** A message always fits its buffer, so its newline is never cut off. */
  lemma MessageFits(head: string, a: string, b: string)
    requires |head| <= 40 && '\n' !in head && '\n' !in a && '\n' !in b
    ensures OneLine(Conclusion(head, a, b))
  {
    var text := head + Cut(a) + " " + Cut(b) + " concluded";
    assert text + "\n" == head + Cut(a) + " " + Cut(b) + " concluded\n";
    EndsInNewline(text);
  }

  lemma LoginFailedLine()
    ensures OneLine(LOGIN_FAILED)
  {
    Joined("[ERROR]: Background", " login failed.", LOGIN_FAILED);
  }

  lemma OpenFailedLine()
    ensures OneLine(OPEN_FAILED)
  {
    Joined("Background operation", " failed to open local file.", OPEN_FAILED);
  }

  lemma StreamFailedLine()
    ensures OneLine(STREAM_FAILED)
  {
    Joined("[ERROR]: Background operation failed", " during stream transfer.", STREAM_FAILED);
  }

  lemma ConcludedLine(c: CommandLine.Command)
    requires OneLined(c)
    ensures OneLine(Report(c, Concluded))
  {
    MessageFits("[Background] Command: upload ", c.buf2, c.buf);
    MessageFits("[Background] Command: download ", c.buf, c.buf2);
  }

  /** Every report is one line. */
  lemma ReportIsOneLine(c: CommandLine.Command, e: End)
    requires OneLined(c)
    ensures OneLine(Report(c, e))
  {
    match e
    case LoginFailed => LoginFailedLine();
    case OpenFailed => OpenFailedLine();
    case StreamFailed => StreamFailedLine();
    case Concluded => ConcludedLine(c);
  }

  /**
    Success is reported exactly by an operation that concluded, with the names it was given as far as
    the line holds them: an upload by its destination and its source, a download the other way round.
  */
  lemma ReportTells(c: CommandLine.Command, e: End)
    ensures "[Background]" <= Report(c, e) <==> e.Concluded?
    ensures |c.buf| <= 90 && |c.buf2| <= 90 && e.Concluded? ==>
      Report(c, e) == (if c.code == CommandLine.UPLOAD
                       then "[Background] Command: upload " + c.buf2 + " " + c.buf + " concluded" + "\n"
                       else "[Background] Command: download " + c.buf + " " + c.buf2 + " concluded" + "\n")
  {
    ConclusionText("[Background] Command: upload ", c.buf2, c.buf);
    ConclusionText("[Background] Command: download ", c.buf, c.buf2);
    assert LOGIN_FAILED[1] == 'E' && STREAM_FAILED[1] == 'E' && OPEN_FAILED[0] == 'B';
  }

  lemma ConclusionText(head: string, a: string, b: string)
    requires 12 <= |head| <= 40
    ensures |Conclusion(head, a, b)| >= 12 && Conclusion(head, a, b)[..12] == head[..12]
    ensures |a| <= 90 && |b| <= 90 ==> Conclusion(head, a, b) == head + a + " " + b + " concluded" + "\n"
  {
    assert Conclusion(head, a, b) == head + Cut(a) + " " + Cut(b) + " concluded\n";
    assert " concluded" + "\n" == " concluded\n";
  }

  lemma Joined(head: string, tail: string, m: string)
    requires '\n' !in head && '\n' !in tail && m == head + tail + "\n"
    ensures OneLine(m)
  {
    EndsInNewline(head + tail);
  }

  lemma {:induction false} WordsOfLine(line: string)
    requires '\n' !in line
    ensures forall t :: t in CommandLine.Tokens(line) ==> '\n' !in t
    decreases |line|
  {
    if line == "" {
    } else if line[0] == ' ' {
      WordsOfLine(line[1..]);
    } else {
      WordsOfLine(line[CommandLine.WordEnd(line)..]);
    }
  }

  lemma {:induction false} ArgumentsAmong(ts: seq<string>)
    ensures forall t :: t in CommandLine.Arguments(ts) ==> t in ts
  {
    if ts != [] {
      ArgumentsAmong(ts[..|ts| - 1]);
    }
  }

  /** A line as read_line returns it gives a command without newlines. */
  lemma CommandHasNoNewline(line: string)
    requires '\n' !in line
    ensures CommandLine.Parse(line).Accepted? ==> OneLined(CommandLine.Parse(line).command)
  {
    WordsOfLine(line);
    if CommandLine.Parse(line).Accepted? {
      var row := CommandLine.FindRow(CommandLine.Tokens(line)[0], 0).value;
      MeaningIsOneLined(row, CommandLine.Tokens(line)[1..]);
    }
  }

  predicate OneLined(c: CommandLine.Command) {
    '\n' !in c.buf && '\n' !in c.buf2
  }

  lemma MeaningIsOneLined(row: CommandLine.Row, ts: seq<string>)
    requires forall t :: t in ts ==> '\n' !in t
    ensures OneLined(CommandLine.Meaning(row, ts))
  {
    ArgumentsAmong(ts);
    var args := CommandLine.Arguments(ts);
    if |args| > 0 {
      assert args[0] in args;
      FitHasNoNewline(args[0]);
    }
    if |args| > 1 {
      assert args[1] in args;
      FitHasNoNewline(args[1]);
    }
  }

  lemma FitHasNoNewline(w: string)
    requires '\n' !in w
    ensures '\n' !in Fit(w, PATH_MAX)
  {
    var f := Fit(w, PATH_MAX);
    assert forall k :: 0 <= k < |f| ==> f[k] == w[k] && w[k] in w;
  }

  // ---------------------------------------------------------------- any interleaving

  datatype Child = Running(command: CommandLine.Command) | Reported | Lost

  /** `written` is all that ever went into the pipe, `taken` how much of it the client has read. */
  datatype State = State(counter: int, children: seq<Child>, failedForks: nat, written: string, taken: nat)

  datatype Action =
    | Start(line: string, forked: bool)
    | Ends(child: nat, end: End)     // writes its line; a write this short is all or nothing
    | Dies(child: nat)               // no connection, killed, or its write failed
    | Read(n: nat)                   // the pipe hands out any number of bytes up to 511

  const START: State := State(0, [], 0, "", 0)

  predicate Startable(line: string) {
    && '\n' !in line && CommandLine.Parse(line).Accepted?
    && CommandLine.Parse(line).command.background
    && (CommandLine.Parse(line).command.code == CommandLine.UPLOAD ||
      CommandLine.Parse(line).command.code == CommandLine.DOWNLOAD)
  }

  predicate IsRunning(s: State, child: nat) {
    child < |s.children| && s.children[child].Running?
  }

  function Step(s: State, a: Action): State {
    match a
    case Start(line, forked) =>
      if !Startable(line) then s
      else if forked then
        s.(counter := s.counter + 1, children := s.children + [Running(CommandLine.Parse(line).command)])
      else s.(counter := s.counter + 1, failedForks := s.failedForks + 1)
    case Ends(child, end) =>
      if !IsRunning(s, child) then s
      else s.(children := s.children[child := Reported], written := s.written + Report(s.children[child].command, end))
    case Dies(child) => if IsRunning(s, child) then s.(children := s.children[child := Lost]) else s
    case Read(n) =>
      if s.taken > |s.written| then s
      else
        var len := Min(Min(n, 511), |s.written| - s.taken);
        s.(taken := s.taken + len, counter := s.counter - Newlines(s.written[s.taken..s.taken + len]))
  }

  function Run(acts: seq<Action>): State {
    if acts == [] then START else Step(Run(acts[..|acts| - 1]), acts[|acts| - 1])
  }

  function CountReported(cs: seq<Child>): nat {
    if cs == [] then 0 else CountReported(cs[..|cs| - 1]) + if cs[|cs| - 1].Reported? then 1 else 0
  }

  lemma {:induction false} OneMoreReported(cs: seq<Child>, k: nat, c: Child)
    requires k < |cs| && cs[k].Running?
    ensures CountReported(cs[k := c]) == CountReported(cs) + if c.Reported? then 1 else 0
  {
    var n := |cs| - 1;
    if k == n {
      assert cs[k := c][..n] == cs[..n];
    } else {
      assert cs[k := c][..n] == cs[..n][k := c];
      OneMoreReported(cs[..n], k, c);
    }
  }

  lemma {:induction false} AllReported(cs: seq<Child>)
    ensures CountReported(cs) <= |cs|
    ensures CountReported(cs) == |cs| <==> forall c :: c in cs ==> c.Reported?
  {
    if cs != [] {
      AllReported(cs[..|cs| - 1]);
      assert cs == cs[..|cs| - 1] + [cs[|cs| - 1]];
    }
  }

  function Operations(s: State): nat {
    |s.children| + s.failedForks
  }

  ghost predicate Inv(s: State) {
    && s.taken <= |s.written|
    && s.counter == Operations(s) - Newlines(s.written[..s.taken])
    && Newlines(s.written) == CountReported(s.children)
    && (s.written != "" ==> s.written[|s.written| - 1] == '\n')
    && forall k :: 0 <= k < |s.children| && s.children[k].Running? ==> OneLined(s.children[k].command)
  }

  lemma StartKeepsInv(s: State, line: string, forked: bool)
    requires Inv(s)
    ensures Inv(Step(s, Start(line, forked)))
  {
    hide CommandLine.Parse, Newlines, CountReported, OneLined;
    if Startable(line) && forked {
      CommandHasNoNewline(line);
      ChildKeepsInv(s, CommandLine.Parse(line).command);
    }
  }

  lemma ChildKeepsInv(s: State, c: CommandLine.Command)
    requires Inv(s) && OneLined(c)
    ensures Inv(s.(counter := s.counter + 1, children := s.children + [Running(c)]))
  {
    assert (s.children + [Running(c)])[..|s.children|] == s.children;
  }

  lemma EndKeepsInv(s: State, child: nat, end: End)
    requires Inv(s)
    ensures Inv(Step(s, Ends(child, end)))
  {
    if IsRunning(s, child) {
      ReportIsOneLine(s.children[child].command, end);
      ReportKeepsInv(s, child, Report(s.children[child].command, end));
    }
  }

  lemma ReportKeepsInv(s: State, child: nat, m: string)
    requires Inv(s) && IsRunning(s, child) && OneLine(m)
    ensures Inv(s.(children := s.children[child := Reported], written := s.written + m))
  {
    NewlinesAdd(s.written, m);
    OneMoreReported(s.children, child, Reported);
    assert (s.written + m)[..s.taken] == s.written[..s.taken];
  }

  lemma ReadKeepsInv(s: State, n: nat)
    requires Inv(s)
    ensures Inv(Step(s, Read(n)))
  {
    hide Newlines, CountReported, OneLined;
    var len := Min(Min(n, 511), |s.written| - s.taken);
    NewlinesAdd(s.written[..s.taken], s.written[s.taken..s.taken + len]);
    assert s.written[..s.taken] + s.written[s.taken..s.taken + len] == s.written[..s.taken + len];
  }

  lemma StepKeepsInv(s: State, a: Action)
    requires Inv(s)
    ensures Inv(Step(s, a))
  {
    match a
    case Start(line, forked) => StartKeepsInv(s, line, forked);
    case Ends(child, end) => EndKeepsInv(s, child, end);
    case Dies(child) =>
      if IsRunning(s, child) {
        OneMoreReported(s.children, child, Lost);
      }
    case Read(n) => ReadKeepsInv(s, n);
  }

  lemma StartsSafe()
    ensures Inv(START) && START.counter == 0
  {
  }

  lemma {:induction false} RunKeepsInv(acts: seq<Action>)
    ensures Inv(Run(acts))
  {
    if acts == [] {
      StartsSafe();
    } else {
      RunKeepsInv(acts[..|acts| - 1]);
      StepKeepsInv(Run(acts[..|acts| - 1]), acts[|acts| - 1]);
    }
  }

  /**
    At every turn of the main loop, however the pipe cuts up the reports: the counter is the
    number of operations started less the newlines read, and it never falls below zero.
  */
  lemma CounterIsExact(acts: seq<Action>)
    ensures var s := Run(acts);
      s.taken <= |s.written| && s.counter == Operations(s) - Newlines(s.written[..s.taken]) && s.counter >= 0
  {
    RunKeepsInv(acts);
    NeverNegative(Run(acts));
  }

  lemma NeverNegative(s: State)
    requires Inv(s)
    ensures s.counter >= 0
  {
    NewlinesAdd(s.written[..s.taken], s.written[s.taken..]);
    assert s.written[..s.taken] + s.written[s.taken..] == s.written;
    AllReported(s.children);
  }

  /**
    `exit` is honoured exactly when every operation was forked, has reported its end, and the client has read
    all the reports. So one failed fork() or one child that ends silently keeps the client from ever exiting.
  */
  lemma ExitExactlyWhen(acts: seq<Action>)
    ensures var s := Run(acts);
      s.counter <= 0 <==> s.failedForks == 0 && (forall c :: c in s.children ==> c.Reported?) && s.taken == |s.written|
  {
    RunKeepsInv(acts);
    NothingOutstanding(Run(acts));
  }

  lemma NothingOutstanding(s: State)
    requires Inv(s)
    ensures s.counter <= 0 <==>
      s.failedForks == 0 && (forall c :: c in s.children ==> c.Reported?) && s.taken == |s.written|
  {
    var rest := s.written[s.taken..];
    NewlinesAdd(s.written[..s.taken], rest);
    assert s.written[..s.taken] + rest == s.written;
    AllReported(s.children);
    if rest != "" {
      assert rest[|rest| - 1] == s.written[|s.written| - 1] == '\n';
    }
  }

  /** Once a fork() has failed or a child was lost, no later `exit` is honoured. */
  lemma {:induction false} NeverExits(acts: seq<Action>, more: seq<Action>)
    requires Run(acts).failedForks > 0 || Lost in Run(acts).children
    ensures Run(acts + more).counter > 0
  {
    StaysStuck(acts, more);
    ExitExactlyWhen(acts + more);
    CounterIsExact(acts + more);
  }

  lemma {:induction false} StaysStuck(acts: seq<Action>, more: seq<Action>)
    requires Run(acts).failedForks > 0 || Lost in Run(acts).children
    ensures Run(acts + more).failedForks > 0 || Lost in Run(acts + more).children
  {
    if more == [] {
      assert acts + more == acts;
    } else {
      var n := |more| - 1;
      assert (acts + more)[..|acts + more| - 1] == acts + more[..n] && (acts + more)[|acts + more| - 1] == more[n];
      StaysStuck(acts, more[..n]);
      StepStaysStuck(Run(acts + more[..n]), more[n]);
    }
  }

  lemma StepStaysStuck(s: State, a: Action)
    requires s.failedForks > 0 || Lost in s.children
    ensures Step(s, a).failedForks > 0 || Lost in Step(s, a).children
  {
    if Lost in s.children {
      var k :| 0 <= k < |s.children| && s.children[k] == Lost;
      assert Step(s, a).children[k] == Lost;
    }
  }
}
