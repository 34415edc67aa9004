/** protocol.c: from a command line to a command. */
module CommandLine {
  import opened Core
  import opened Decimal

  const MAX_ARGS: nat := 8

  datatype Code =
    | CREATE | CHMOD | MOVE | DELETE | CD | READ | WRITE | LIST | LOGIN | CREATE_USER
    | UPLOAD | DOWNLOAD | TRANSFER_REQ | ACCEPT | REJECT | EXIT

  /** cmd_t; `offset` is -1 when none was given. */
  datatype Command = Command(code: Code, background: bool, dir: bool, offset: int, argc: nat, buf: string, buf2: string)

  datatype Refusal =
    | EmptyLine | UnknownCommand | InvalidOffset | NegativeOffset | UnknownOption | TooManyArguments | WrongCount

  datatype Parsed = Accepted(command: Command) | Refused(why: Refusal)

  /** A row of CMDS; no `argc` when the number of arguments is free. */
  datatype Row = Row(name: string, code: Code, argc: Option<nat>)

  const CMDS: seq<Row> := [
    Row("create", CREATE, Some(2)),
    Row("chmod", CHMOD, Some(2)),
    Row("move", MOVE, Some(2)),
    Row("delete", DELETE, Some(1)),
    Row("cd", CD, Some(1)),
    Row("read", READ, Some(1)),
    Row("write", WRITE, Some(1)),
    Row("list", LIST, None),
    Row("login", LOGIN, Some(1)),
    Row("create_user", CREATE_USER, Some(2)),
    Row("upload", UPLOAD, Some(2)),
    Row("download", DOWNLOAD, Some(2)),
    Row("transfer_request", TRANSFER_REQ, Some(2)),
    Row("accept", ACCEPT, Some(2)),
    Row("reject", REJECT, Some(1)),
    Row("exit", EXIT, None)
  ]

  // ---------------------------------------------------------------- words

  predicate Word(w: string) {
    w != "" && ' ' !in w
  }

  /** How far the first word of `s` reaches. */
  function WordEnd(s: string): (n: nat)
    ensures n <= |s| && ' ' !in s[..n] && (n < |s| ==> s[n] == ' ')
  {
    if s == "" || s[0] == ' ' then 0 else 1 + WordEnd(s[1..])
  }

  /** The words of a line, whatever the number of spaces around them. */
  function Tokens(s: string): (ts: seq<string>)
    ensures forall t :: t in ts ==> Word(t)
    decreases |s|
  {
    if s == "" then []
    else if s[0] == ' ' then Tokens(s[1..])
    else [s[..WordEnd(s)]] + Tokens(s[WordEnd(s)..])
  }

  /** strtok_r(..., " ", &next). */
  method NextToken(s: string, from: nat) returns (token: Option<string>, next: nat)
    requires from <= |s|
    ensures from <= next <= |s|
    ensures token.None? ==> Tokens(s[from..]) == []
    ensures token.Some? ==> next > from && Tokens(s[from..]) == [token.value] + Tokens(s[next..])
    ensures token.Some? ==> Word(token.value)
  {
    var i := from;
    while i < |s| && s[i] == ' '
      invariant from <= i <= |s| && forall k :: from <= k < i ==> s[k] == ' '
    {
      i := i + 1;
    }
    SkipSpaces(s, from, i);
    if i == |s| {
      return None, i;
    }
    next := i;
    while next < |s| && s[next] != ' '
      invariant i <= next <= |s| && forall k :: i <= k < next ==> s[k] != ' '
    {
      next := next + 1;
    }
    WordAt(s, i, next);
    token := Some(s[i..next]);
    assert token.value in Tokens(s[i..]);
  }

  lemma {:induction false} SkipSpaces(s: string, from: nat, i: nat)
    requires from <= i <= |s| && forall k :: from <= k < i ==> s[k] == ' '
    ensures Tokens(s[from..]) == Tokens(s[i..])
    decreases i - from
  {
    if from < i {
      assert s[from..][1..] == s[from + 1..];
      SkipSpaces(s, from + 1, i);
    }
  }

  lemma WordAt(s: string, i: nat, next: nat)
    requires i < next <= |s| && (next < |s| ==> s[next] == ' ') && forall k :: i <= k < next ==> s[k] != ' '
    ensures Tokens(s[i..]) == [s[i..next]] + Tokens(s[next..])
  {
    assert s[i..][..next - i] == s[i..next] && s[i..][next - i..] == s[next..];
    FirstWord(s[i..], next - i);
  }

  lemma {:induction false} FirstWord(s: string, n: nat)
    requires n <= |s| && ' ' !in s[..n] && (n < |s| ==> s[n] == ' ')
    ensures WordEnd(s) == n
  {
    if n > 0 {
      assert s[0] == s[..n][0] && s[1..][..n - 1] == s[..n][1..];
      FirstWord(s[1..], n - 1);
    }
  }

  // ---------------------------------------------------------------- what a line means

  predicate IsOption(t: string) {
    t != "" && t[0] == '-'
  }

  /** The words that are arguments, in order. */
  function Arguments(ts: seq<string>): (args: seq<string>)
    ensures |args| <= |ts|
  {
    if ts == [] then []
    else
      var n := |ts| - 1;
      if IsOption(ts[n]) then Arguments(ts[..n]) else Arguments(ts[..n]) + [ts[n]]
  }

  function Options(ts: seq<string>): seq<string> {
    if ts == [] then []
    else
      var n := |ts| - 1;
      if IsOption(ts[n]) then Options(ts[..n]) + [ts[n]] else Options(ts[..n])
  }

  const OFFSET: string := "-offset="

  predicate IsOffset(t: string) {
    OFFSET <= t
  }

  /** The last offset given, or -1. */
  function LastOffset(ts: seq<string>): int {
    if ts == [] then -1
    else
      var n := |ts| - 1;
      if IsOffset(ts[n]) && ParseLong(ts[n][|OFFSET|..]).Some? then ParseLong(ts[n][|OFFSET|..]).value
      else LastOffset(ts[..n])
  }

  function OptionFault(t: string): Option<Refusal> {
    if t == "-b" || t == "-d" then None
    else if IsOffset(t) then
      var v := ParseLong(t[|OFFSET|..]);
      if v.None? then Some(InvalidOffset) else if v.value < 0 then Some(NegativeOffset) else None
    else Some(UnknownOption)
  }

  /** The first word that is refused, when `seen` arguments came before. */
  function FirstFault(ts: seq<string>, seen: nat): Option<Refusal> {
    if ts == [] then None
    else if IsOption(ts[0]) then
      if OptionFault(ts[0]).Some? then OptionFault(ts[0]) else FirstFault(ts[1..], seen)
    else if seen >= 2 then Some(TooManyArguments)
    else FirstFault(ts[1..], seen + 1)
  }

  function FindRow(name: string, from: nat): (r: Option<Row>)
    requires from <= |CMDS|
    ensures r.Some? ==> r.value in CMDS && r.value.name == name
    ensures r.None? ==> forall k :: from <= k < |CMDS| ==> CMDS[k].name != name
    decreases |CMDS| - from
  {
    if from == |CMDS| then None
    else if CMDS[from].name == name then Some(CMDS[from])
    else FindRow(name, from + 1)
  }

  /** Where CMDS has a code. */
  function RowAt(code: Code): (k: nat)
    ensures k < |CMDS| && CMDS[k].code == code
  {
    match code
    case CREATE => 0
    case CHMOD => 1
    case MOVE => 2
    case DELETE => 3
    case CD => 4
    case READ => 5
    case WRITE => 6
    case LIST => 7
    case LOGIN => 8
    case CREATE_USER => 9
    case UPLOAD => 10
    case DOWNLOAD => 11
    case TRANSFER_REQ => 12
    case ACCEPT => 13
    case REJECT => 14
    case EXIT => 15
  }

  lemma OneRowPerCode(k: nat)
    requires k < |CMDS|
    ensures RowAt(CMDS[k].code) == k
  {
    assert |CMDS| == 16;
  }

  /** No two names agree in length and first letter. */
  function Mark(name: string): (int, char) {
    (|name|, if name == "" then ' ' else name[0])
  }

  function MarkAt(k: nat): (int, char)
    requires k < 16
  {
    [(6, 'c'), (5, 'c'), (4, 'm'), (6, 'd'), (2, 'c'), (4, 'r'), (5, 'w'), (4, 'l'),
     (5, 'l'), (11, 'c'), (6, 'u'), (8, 'd'), (16, 't'), (6, 'a'), (6, 'r'), (4, 'e')][k]
  }

  lemma NameAt(k: nat)
    requires k < |CMDS|
    ensures Mark(CMDS[k].name) == MarkAt(k)
  {
  }

  lemma NameIsWord(k: nat)
    requires k < |CMDS|
    ensures Word(CMDS[k].name)
  {
  }

  lemma MarksDiffer(i: nat, k: nat)
    requires i < k < 16
    ensures MarkAt(i) != MarkAt(k)
  {
  }

  lemma NamesDiffer()
    ensures forall k :: 0 <= k < |CMDS| ==> Word(CMDS[k].name)
    ensures forall i, k :: 0 <= i < k < |CMDS| ==> CMDS[i].name != CMDS[k].name
  {
    forall k | 0 <= k < |CMDS| ensures Word(CMDS[k].name) && Mark(CMDS[k].name) == MarkAt(k) {
      NameAt(k);
      NameIsWord(k);
    }
    forall i, k | 0 <= i < k < |CMDS| ensures CMDS[i].name != CMDS[k].name {
      MarksDiffer(i, k);
    }
  }

  lemma {:induction false} FindsEachName(k: nat, from: nat)
    requires from <= k < |CMDS|
    ensures FindRow(CMDS[k].name, from) == Some(CMDS[k])
    decreases k - from
  {
    NamesDiffer();
    if from < k {
      FindsEachName(k, from + 1);
    }
  }

  function Meaning(row: Row, ts: seq<string>): Command {
    var args := Arguments(ts);
    Command(row.code, "-b" in ts, "-d" in ts, LastOffset(ts), |args|,
            if |args| > 0 then Fit(args[0], PATH_MAX) else "", if |args| > 1 then Fit(args[1], PATH_MAX) else "")
  }

  predicate CountFits(row: Row, n: nat) {
    row.argc.None? || row.argc.value == n
  }

  /** The words after the name. */
  function Understand(row: Row, ts: seq<string>): Parsed {
    if FirstFault(ts, 0).Some? then Refused(FirstFault(ts, 0).value)
    else if !CountFits(row, |Arguments(ts)|) then Refused(WrongCount)
    else Accepted(Meaning(row, ts))
  }

  function Parse(line: string): Parsed {
    var ts := Tokens(line);
    if ts == [] then Refused(EmptyLine)
    else
      var row := FindRow(ts[0], 0);
      if row.None? then Refused(UnknownCommand)
      else Understand(row.value, ts[1..])
  }

  // ---------------------------------------------------------------- parse_command

  lemma Shift(done: seq<string>, left: seq<string>)
    requires left != []
    ensures done + left == (done + [left[0]]) + left[1..]
  {
  }

  /** How one more option changes the command gathered so far. */
  lemma OneMoreOption(row: Row, done: seq<string>, t: string)
    requires IsOption(t) && OptionFault(t).None?
    ensures var c, c' := Meaning(row, done), Meaning(row, done + [t]);
      if t == "-b" then c' == c.(background := true)
      else if t == "-d" then c' == c.(dir := true)
      else c' == c.(offset := ParseLong(t[|OFFSET|..]).value)
  {
    assert (done + [t])[..|done|] == done;
    OffsetIsOption(t);
  }

  /** How one more argument does. */
  lemma OneMoreArgument(row: Row, done: seq<string>, t: string)
    requires !IsOption(t) && |Arguments(done)| <= 1
    ensures var c, c' := Meaning(row, done), Meaning(row, done + [t]);
      if c.argc == 0 then c' == c.(argc := 1, buf := Fit(t, PATH_MAX))
      else c' == c.(argc := 2, buf2 := Fit(t, PATH_MAX))
  {
    assert (done + [t])[..|done|] == done;
    OffsetIsOption(t);
    ArgumentIsNoFlag(done, t);
  }

  lemma ArgumentIsNoFlag(done: seq<string>, t: string)
    requires !IsOption(t)
    ensures "-b" in done + [t] <==> "-b" in done
    ensures "-d" in done + [t] <==> "-d" in done
  {
    assert IsOption("-b") && IsOption("-d");
  }

  lemma OffsetIsOption(t: string)
    ensures IsOffset(t) ==> IsOption(t) && t != "-b" && t != "-d"
  {
    if IsOffset(t) {
      assert t[0] == OFFSET[0] && |t| >= |OFFSET|;
    }
  }

  method FindCommand(name: string) returns (row: Option<Row>)
    ensures row == FindRow(name, 0)
  {
    var i := 0;
    while i < |CMDS|
      invariant 0 <= i <= |CMDS| && FindRow(name, 0) == FindRow(name, i)
    {
      if CMDS[i].name == name {
        return Some(CMDS[i]);
      }
      i := i + 1;
    }
    row := None;
  }

  /** One pass over the words, filling the command as they come. */
  method ParseCommand(line: string) returns (r: Parsed)
    ensures r == Parse(line)
  {
    var token, next := NextToken(line, 0);
    assert line[0..] == line;
    if token.None? {
      return Refused(EmptyLine);
    }
    var row := FindCommand(token.value);
    if row.None? {
      return Refused(UnknownCommand);
    }
    r := ParseWords(line, next, row.value);
  }

  /** One option: its fault, or what it changes. */
  method ReadOption(t: string, background: bool, dir: bool, offset: int)
    returns (fault: Option<Refusal>, background': bool, dir': bool, offset': int)
    requires IsOption(t)
    ensures fault == OptionFault(t)
    ensures fault.None? ==> background' == (background || t == "-b") && dir' == (dir || t == "-d")
    ensures fault.None? ==> offset' == if t == "-b" || t == "-d" then offset else ParseLong(t[|OFFSET|..]).value
  {
    fault, background', dir', offset' := None, background, dir, offset;
    if t == "-b" {
      background' := true;
    } else if t == "-d" {
      dir' := true;
    } else if OFFSET <= t {
      var v := ParseLong(t[|OFFSET|..]);
      if v.None? {
        fault := Some(InvalidOffset);
      } else if v.value < 0 {
        fault := Some(NegativeOffset);
      } else {
        offset' := v.value;
      }
    } else {
      fault := Some(UnknownOption);
    }
  }

  /** The loop over the words after the name. */
  method ParseWords(line: string, from: nat, row: Row) returns (r: Parsed)
    requires from <= |line|
    ensures r == Understand(row, Tokens(line[from..]))
  {
    var offset, background, dir := -1, false, false;
    var buf, buf2 := "", "";
    ghost var words := Tokens(line[from..]);
    ghost var left := words;
    ghost var done: seq<string> := [];
    var argCount := 0;
    var token, next := NextToken(line, from);
    while token.Some? && argCount < MAX_ARGS
      invariant next <= |line| && argCount <= 2
      invariant left == if token.Some? then [token.value] + Tokens(line[next..]) else []
      invariant words == done + left
      invariant token.Some? ==> Word(token.value)
      invariant FirstFault(words, 0) == FirstFault(left, argCount)
      invariant Command(row.code, background, dir, offset, argCount, buf, buf2) == Meaning(row, done)
      decreases |left|
    {
      var t := token.value;
      assert left[0] == t && left[1..] == Tokens(line[next..]);
      Shift(done, left);
      if t[0] == '-' {
        var fault;
        fault, background, dir, offset := ReadOption(t, background, dir, offset);
        if fault.Some? {
          return Refused(fault.value);
        }
        OneMoreOption(row, done, t);
      } else {
        if argCount < 2 {
          OneMoreArgument(row, done, t);
        }
        if argCount == 0 {
          buf := Fit(t, PATH_MAX);
        } else if argCount == 1 {
          buf2 := Fit(t, PATH_MAX);
        } else {
          return Refused(TooManyArguments);
        }
        argCount := argCount + 1;
      }
      done, left := done + [t], left[1..];
      token, next := NextToken(line, next);
    }
    assert done + left == done;
    if row.argc.Some? && argCount != row.argc.value {
      return Refused(WrongCount);
    }
    r := Accepted(Command(row.code, background, dir, offset, argCount, buf, buf2));
  }

  // ---------------------------------------------------------------- order does not matter

  predicate OptionsFine(ts: seq<string>) {
    forall k :: 0 <= k < |ts| && IsOption(ts[k]) ==> OptionFault(ts[k]).None?
  }

  lemma {:induction false} ArgumentsSplit(a: seq<string>, b: seq<string>)
    ensures Arguments(a + b) == Arguments(a) + Arguments(b)
  {
    if b == [] {
      assert a + b == a;
    } else {
      var n := |b| - 1;
      assert (a + b)[..|a + b| - 1] == a + b[..n] && (a + b)[|a + b| - 1] == b[n];
      ArgumentsSplit(a, b[..n]);
    }
  }

  /** No word is refused exactly when every option is fine and there are two arguments at most. */
  lemma {:induction false} NoFault(ts: seq<string>, seen: nat)
    requires seen <= 2
    ensures FirstFault(ts, seen).None? <==> OptionsFine(ts) && seen + |Arguments(ts)| <= 2
  {
    if ts != [] {
      assert ts == [ts[0]] + ts[1..];
      ArgumentsSplit([ts[0]], ts[1..]);
      assert [ts[0]][..0] == [];
      assert OptionsFine(ts) <==> (IsOption(ts[0]) ==> OptionFault(ts[0]).None?) && OptionsFine(ts[1..]) by {
        OptionsSplit(ts);
      }
      if IsOption(ts[0]) {
        NoFault(ts[1..], seen);
      } else if seen < 2 {
        NoFault(ts[1..], seen + 1);
      }
    }
  }

  lemma OptionsSplit(ts: seq<string>)
    requires ts != []
    ensures OptionsFine(ts) <==> (IsOption(ts[0]) ==> OptionFault(ts[0]).None?) && OptionsFine(ts[1..])
  {
    assert forall k :: 0 <= k < |ts[1..]| ==> ts[1..][k] == ts[k + 1];
    if OptionsFine(ts[1..]) && (IsOption(ts[0]) ==> OptionFault(ts[0]).None?) {
      forall k | 0 <= k < |ts| && IsOption(ts[k]) ensures OptionFault(ts[k]).None? {
        assert k > 0 ==> ts[k] == ts[1..][k - 1];
      }
    }
  }

  lemma {:induction false} OptionsAreKept(ts: seq<string>)
    ensures forall t :: t in Options(ts) <==> t in ts && IsOption(t)
  {
    if ts != [] {
      var n := |ts| - 1;
      OptionsAreKept(ts[..n]);
      assert ts == ts[..n] + [ts[n]];
    }
  }

  lemma {:induction false} OffsetIsKept(ts: seq<string>)
    ensures LastOffset(ts) == LastOffset(Options(ts))
  {
    if ts != [] {
      var n := |ts| - 1;
      OffsetIsKept(ts[..n]);
      OffsetIsOption(ts[n]);
      if IsOption(ts[n]) {
        assert Options(ts)[..|Options(ts)| - 1] == Options(ts[..n]);
      }
    }
  }

  lemma FineByWord(ts: seq<string>)
    ensures OptionsFine(ts) <==> forall t :: t in ts && IsOption(t) ==> OptionFault(t).None?
  {
  }

  /**
    Options may stand anywhere: two lines with the same name, the same arguments in order and the
    same options in order are both refused or are the same command.
  */
  lemma OptionsStandAnywhere(a: string, b: string)
    requires Tokens(a) != [] && Tokens(b) != [] && Tokens(a)[0] == Tokens(b)[0]
    requires Arguments(Tokens(a)[1..]) == Arguments(Tokens(b)[1..])
    requires Options(Tokens(a)[1..]) == Options(Tokens(b)[1..])
    ensures Parse(a) == Parse(b) || (Parse(a).Refused? && Parse(b).Refused?)
  {
    SameFlags(a, b);
  }

  /**
    What counts of the options is which flags are set and the last offset, not how often or in what
    order: any line that agrees in these, the name and the arguments is accepted as the same command.
  */
  lemma OnlyFlagsCount(a: string, b: string)
    ensures Parse(a).Accepted? && Tokens(b) != [] && Tokens(a)[0] == Tokens(b)[0]
      && OptionsFine(Tokens(b)[1..]) && Agree(Tokens(a)[1..], Tokens(b)[1..])
      ==> Parse(b) == Parse(a)
  {
    if Parse(a).Accepted? && Tokens(b) != [] {
      NoFault(Tokens(a)[1..], 0);
      NoFault(Tokens(b)[1..], 0);
    }
  }

  /** The same arguments in order, the same flags set and the same last offset. */
  predicate Agree(s: seq<string>, t: seq<string>) {
    && Arguments(s) == Arguments(t) && LastOffset(s) == LastOffset(t)
    && ("-b" in s <==> "-b" in t) && ("-d" in s <==> "-d" in t)
  }

  lemma SameFlags(a: string, b: string)
    requires Tokens(a) != [] && Tokens(b) != [] && Tokens(a)[0] == Tokens(b)[0]
    requires Arguments(Tokens(a)[1..]) == Arguments(Tokens(b)[1..])
    requires Options(Tokens(a)[1..]) == Options(Tokens(b)[1..])
    ensures FirstFault(Tokens(a)[1..], 0).None? <==> FirstFault(Tokens(b)[1..], 0).None?
    ensures forall row :: Meaning(row, Tokens(a)[1..]) == Meaning(row, Tokens(b)[1..])
  {
    var s, t := Tokens(a)[1..], Tokens(b)[1..];
    NoFault(s, 0);
    NoFault(t, 0);
    OptionsAreKept(s);
    OptionsAreKept(t);
    OffsetIsKept(s);
    OffsetIsKept(t);
    FineByWord(s);
    FineByWord(t);
    assert forall o :: IsOption(o) ==> (o in s <==> o in t);
    assert IsOption("-b") && IsOption("-d");
  }

  // ---------------------------------------------------------------- printing and parsing

  /** An argument the server can be given. */
  predicate Argument(w: string) {
    Word(w) && w[0] != '-' && |w| < PATH_MAX
  }

  /** The commands lines stand for. */
  predicate Valid(c: Command) {
    CountFits(CMDS[RowAt(c.code)], c.argc) && WellShaped(c)
  }

  predicate WellShaped(c: Command) {
    && -1 <= c.offset <= LONG_MAX && c.argc <= 2
    && (if c.argc > 0 then Argument(c.buf) else c.buf == "")
    && (if c.argc > 1 then Argument(c.buf2) else c.buf2 == "")
  }

  /** Every accepted line is a valid command: arguments are words, do not look like options and fit. */
  lemma AcceptedIsValid(line: string)
    ensures Parse(line).Accepted? ==> Valid(Parse(line).command)
  {
    if Parse(line).Accepted? {
      AcceptedWordsAreValid(FindRow(Tokens(line)[0], 0).value, Tokens(line)[1..]);
    }
  }

  lemma AcceptedWordsAreValid(row: Row, ts: seq<string>)
    requires row in CMDS && FirstFault(ts, 0).None? && CountFits(row, |Arguments(ts)|)
    requires forall t :: t in ts ==> Word(t)
    ensures Valid(Meaning(row, ts))
  {
    NoFault(ts, 0);
    ArgumentsAreWords(ts);
    OffsetInRange(ts);
    var k :| 0 <= k < |CMDS| && CMDS[k] == row;
    OneRowPerCode(k);
    var args := Arguments(ts);
    if |args| > 0 {
      FitArgument(args[0]);
    }
    if |args| > 1 {
      FitArgument(args[1]);
    }
  }

  lemma FitArgument(w: string)
    requires Word(w) && w[0] != '-'
    ensures Argument(Fit(w, PATH_MAX))
  {
    var f := Fit(w, PATH_MAX);
    assert f != "" && f[0] == w[0];
    assert forall k :: 0 <= k < |f| ==> f[k] == w[k] && w[k] in w;
  }

  lemma {:induction false} ArgumentsAreWords(ts: seq<string>)
    requires forall t :: t in ts ==> Word(t)
    ensures forall t :: t in Arguments(ts) ==> Word(t) && t[0] != '-'
  {
    if ts != [] {
      ArgumentsAreWords(ts[..|ts| - 1]);
    }
  }

  lemma {:induction false} OffsetInRange(ts: seq<string>)
    requires OptionsFine(ts)
    ensures -1 <= LastOffset(ts) <= LONG_MAX
  {
    if ts != [] {
      var n := |ts| - 1;
      assert ts == ts[..n] + [ts[n]];
      OffsetInRange(ts[..n]);
      if IsOffset(ts[n]) {
        assert ts[n][0] == OFFSET[0];
        assert IsOption(ts[n]) && OptionFault(ts[n]).None?;
      }
    }
  }

  function Name(code: Code): string {
    CMDS[RowAt(code)].name
  }

  /** The words of the canonical line: name, options, arguments. */
  function Words(name: string, c: Command): seq<string> {
    [name] + (Flags(c) + Parameters(c))
  }

  function Flags(c: Command): seq<string> {
    (if c.background then ["-b"] else []) + (if c.dir then ["-d"] else [])
    + (if c.offset >= 0 then [OFFSET + Print(c.offset)] else [])
  }

  function Parameters(c: Command): seq<string> {
    (if c.argc > 0 then [c.buf] else []) + (if c.argc > 1 then [c.buf2] else [])
  }

  function Join(ws: seq<string>): string {
    if ws == [] then "" else if |ws| == 1 then ws[0] else ws[0] + " " + Join(ws[1..])
  }

  function Show(c: Command): string {
    Join(Words(Name(c.code), c))
  }

  lemma {:induction false} TokensOfJoin(ws: seq<string>)
    requires forall w :: w in ws ==> Word(w)
    ensures Tokens(Join(ws)) == ws
  {
    if ws != [] {
      var s := Join(ws);
      var n := |ws[0]|;
      assert ws[0] in ws && s[..n] == ws[0] && s[0] == ws[0][0];
      FirstWord(s, n);
      if |ws| == 1 {
        assert s[n..] == "";
      } else {
        assert s[n..][1..] == Join(ws[1..]);
        TokensOfJoin(ws[1..]);
      }
    }
  }

  lemma FlagsAreOptions(c: Command)
    requires -1 <= c.offset <= LONG_MAX
    ensures Arguments(Flags(c)) == [] && OptionsFine(Flags(c))
    ensures forall t :: t in Flags(c) ==> Word(t)
    ensures ("-b" in Flags(c) <==> c.background) && ("-d" in Flags(c) <==> c.dir) && LastOffset(Flags(c)) == c.offset
  {
    hide ParseLong, Print;
    var b := (if c.background then ["-b"] else []) + (if c.dir then ["-d"] else []);
    TwoFlags(c.background, c.dir);
    if c.offset >= 0 {
      var t := OFFSET + Print(c.offset);
      OffsetWord(c.offset);
      assert Flags(c) == b + [t] && (b + [t])[..|b|] == b;
    } else {
      assert Flags(c) == b;
    }
  }

  lemma OffsetWord(n: nat)
    requires n <= LONG_MAX
    ensures var t := OFFSET + Print(n);
      Word(t) && IsOption(t) && IsOffset(t) && OptionFault(t).None? && ParseLong(t[|OFFSET|..]) == Some(n) &&
        t != "-b" && t != "-d"
  {
    ParsePrinted(n);
    var t := OFFSET + Print(n);
    assert t[|OFFSET|..] == Print(n) && t[0] == '-' && t[1] == 'o';
    OffsetIsOption(t);
  }

  lemma TwoFlags(background: bool, dir: bool)
    ensures var b := (if background then ["-b"] else []) + (if dir then ["-d"] else []);
      Arguments(b) == [] && LastOffset(b) == -1 && OptionsFine(b)
  {
    var b := (if background then ["-b"] else []) + (if dir then ["-d"] else []);
    assert !IsOffset("-b") && !IsOffset("-d") && IsOption("-b") && IsOption("-d");
    assert forall t :: t in b ==> t == "-b" || t == "-d";
    OnlyFlags(b);
  }

  lemma {:induction false} OnlyFlags(ts: seq<string>)
    requires forall t :: t in ts ==> IsOption(t) && !IsOffset(t)
    ensures Arguments(ts) == [] && LastOffset(ts) == -1
  {
    if ts != [] {
      assert ts[|ts| - 1] in ts;
      OnlyFlags(ts[..|ts| - 1]);
    }
  }

  lemma ParametersAreArguments(c: Command)
    requires WellShaped(c)
    ensures Arguments(Parameters(c)) == Parameters(c) && |Parameters(c)| == c.argc
    ensures forall t :: t in Parameters(c) ==> Word(t) && !IsOption(t)
  {
    var first, second := if c.argc > 0 then [c.buf] else [], if c.argc > 1 then [c.buf2] else [];
    OneArgument(c.buf);
    OneArgument(c.buf2);
    assert Parameters(c) == first + second;
    ArgumentsSplit(first, second);
  }

  lemma OneArgument(a: string)
    ensures !IsOption(a) ==> Arguments([a]) == [a]
  {
    assert [a][..0] == [];
  }

  lemma WordsOf(name: string, c: Command)
    requires WellShaped(c) && Word(name)
    ensures Tokens(Join(Words(name, c))) == Words(name, c)
  {
    FlagsAreOptions(c);
    ParametersAreArguments(c);
    AllWords([name], Flags(c), Parameters(c));
    TokensOfJoin(Words(name, c));
  }

  lemma AllWords(a: seq<string>, b: seq<string>, c: seq<string>)
    requires (forall w :: w in a ==> Word(w)) && (forall w :: w in b ==> Word(w)) && (forall w :: w in c ==> Word(w))
    ensures forall w :: w in a + (b + c) ==> Word(w)
  {
  }

  lemma ArgumentsOf(c: Command)
    requires WellShaped(c)
    ensures Arguments(Flags(c) + Parameters(c)) == Parameters(c) && OptionsFine(Flags(c) + Parameters(c))
    ensures LastOffset(Flags(c) + Parameters(c)) == c.offset
  {
    var fs, ps := Flags(c), Parameters(c);
    FlagsAreOptions(c);
    ParametersAreArguments(c);
    ArgumentsSplit(fs, ps);
    OffsetBefore(fs, ps);
    FineTogether(fs, ps);
  }

  lemma FlagsOf(c: Command)
    requires WellShaped(c)
    ensures "-b" in Flags(c) + Parameters(c) <==> c.background
    ensures "-d" in Flags(c) + Parameters(c) <==> c.dir
  {
    FlagsAreOptions(c);
    ParametersAreArguments(c);
    assert IsOption("-b") && IsOption("-d");
  }

  lemma MeaningOf(c: Command, row: Row)
    requires WellShaped(c) && row.code == c.code
    ensures var ts := Flags(c) + Parameters(c);
      Meaning(row, ts) == c && FirstFault(ts, 0).None? && |Arguments(ts)| == c.argc
  {
    hide Arguments, OptionsFine, LastOffset, FirstFault, Flags;
    ArgumentsOf(c);
    FlagsOf(c);
    ParametersAreArguments(c);
    NoFault(Flags(c) + Parameters(c), 0);
  }

  /** Printing a command and parsing the line gives the command back. */
  lemma ParseShow(c: Command)
    requires Valid(c)
    ensures Parse(Show(c)) == Accepted(c)
  {
    var row := CMDS[RowAt(c.code)];
    NamesDiffer();
    WordsOf(row.name, c);
    FindsEachName(RowAt(c.code), 0);
    MeaningOf(c, row);
    assert Words(row.name, c)[1..] == Flags(c) + Parameters(c);
  }

  lemma FineTogether(a: seq<string>, b: seq<string>)
    requires OptionsFine(a) && forall t :: t in b ==> !IsOption(t)
    ensures OptionsFine(a + b)
  {
  }

  lemma {:induction false} OffsetBefore(a: seq<string>, b: seq<string>)
    requires forall t :: t in b ==> !IsOption(t)
    ensures LastOffset(a + b) == LastOffset(a)
  {
    if b == [] {
      assert a + b == a;
    } else {
      var n := |b| - 1;
      assert (a + b)[..|a + b| - 1] == a + b[..n] && (a + b)[|a + b| - 1] == b[n] && b[n] in b;
      OffsetIsOption(b[n]);
      OffsetBefore(a, b[..n]);
    }
  }

  /** So every accepted line has a canonical line for the same command. */
  lemma Canonical(line: string)
    ensures Parse(line).Accepted? ==> Parse(Show(Parse(line).command)) == Parse(line)
  {
    AcceptedIsValid(line);
    if Parse(line).Accepted? {
      ParseShow(Parse(line).command);
    }
  }

  /** A line is accepted exactly when its name is known, its options are fine and its arguments as many as asked for. */
  lemma AcceptedExactlyWhen(line: string)
    ensures Parse(line).Accepted? <==> exists k :: 0 <= k < |CMDS| && Accepts(CMDS[k], Tokens(line))
  {
    var ts := Tokens(line);
    if ts != [] {
      NoFault(ts[1..], 0);
      if k :| 0 <= k < |CMDS| && Accepts(CMDS[k], ts) {
        FindsEachName(k, 0);
      }
    }
  }

  predicate Accepts(row: Row, ts: seq<string>) {
    && ts != [] && ts[0] == row.name && OptionsFine(ts[1..])
    && |Arguments(ts[1..])| <= 2 && CountFits(row, |Arguments(ts[1..])|)
  }

  // ---------------------------------------------------------------- why a line is refused

  /** The first `k` words are fine behind `seen` arguments, and the next is refused for that reason. */
  predicate FaultAt(ts: seq<string>, seen: nat, k: nat, why: Refusal) {
    && k < |ts| && OptionsFine(ts[..k]) && seen + |Arguments(ts[..k])| <= 2
    && if IsOption(ts[k]) then OptionFault(ts[k]) == Some(why)
       else why == TooManyArguments && seen + |Arguments(ts[..k])| == 2
  }

  lemma FaultBehind(ts: seq<string>, seen: nat, k: nat, why: Refusal)
    requires 0 < k < |ts|
    ensures FaultAt(ts, seen, k, why) ==
      ((IsOption(ts[0]) ==> OptionFault(ts[0]).None?)
       && FaultAt(ts[1..], if IsOption(ts[0]) then seen else seen + 1, k - 1, why))
  {
    OptionsSplit(ts[..k]);
    assert ts[..k][1..] == ts[1..][..k - 1] && ts[..k] == [ts[0]] + ts[1..][..k - 1];
    ArgumentsSplit([ts[0]], ts[1..][..k - 1]);
    assert [ts[0]][..0] == [];
  }

  lemma {:induction false} FaultFound(ts: seq<string>, seen: nat) returns (k: nat)
    requires seen <= 2 && FirstFault(ts, seen).Some?
    ensures FaultAt(ts, seen, k, FirstFault(ts, seen).value)
  {
    assert ts[..0] == [];
    if IsOption(ts[0]) && OptionFault(ts[0]).None? {
      k := FaultFound(ts[1..], seen);
      k := k + 1;
      FaultBehind(ts, seen, k, FirstFault(ts, seen).value);
    } else if !IsOption(ts[0]) && seen < 2 {
      k := FaultFound(ts[1..], seen + 1);
      k := k + 1;
      FaultBehind(ts, seen, k, FirstFault(ts, seen).value);
    } else {
      k := 0;
    }
  }

  lemma {:induction false} FaultDecides(ts: seq<string>, seen: nat, k: nat, why: Refusal)
    requires seen <= 2 && FaultAt(ts, seen, k, why)
    ensures FirstFault(ts, seen) == Some(why)
    decreases k
  {
    assert ts[..0] == [];
    if k > 0 {
      FaultBehind(ts, seen, k, why);
      FaultDecides(ts[1..], if IsOption(ts[0]) then seen else seen + 1, k - 1, why);
    }
  }

  predicate Miscounts(row: Row, ts: seq<string>) {
    OptionsFine(ts) && |Arguments(ts)| <= 2 && !CountFits(row, |Arguments(ts)|)
  }

  /** What is wrong behind the name. */
  ghost predicate Wrong(row: Row, ts: seq<string>, why: Refusal) {
    if why.WrongCount? then Miscounts(row, ts) else exists k :: FaultAt(ts, 0, k, why)
  }

  lemma UnderstoodUnless(row: Row, ts: seq<string>, why: Refusal)
    ensures Understand(row, ts) == Refused(why) <==> Wrong(row, ts, why)
  {
    NoFault(ts, 0);
    if FirstFault(ts, 0).Some? {
      var k := FaultFound(ts, 0);
    }
    forall k: nat | FaultAt(ts, 0, k, why) ensures FirstFault(ts, 0) == Some(why) {
      FaultDecides(ts, 0, k, why);
    }
  }

  ghost predicate Because(ts: seq<string>, why: Refusal) {
    match why
    case EmptyLine => ts == []
    case UnknownCommand => ts != [] && forall k :: 0 <= k < |CMDS| ==> CMDS[k].name != ts[0]
    case _ => ts != [] && exists k :: 0 <= k < |CMDS| && CMDS[k].name == ts[0] && Wrong(CMDS[k], ts[1..], why)
  }

  /**
    Exactly why a line is refused: it has no word, its first word names no command, the first word
    that is not fine behind the name is what the message says (a third argument counts as such), or
    all of them are fine and are not as many as the command asks for.
  */
  lemma RefusedBecause(line: string, why: Refusal)
    ensures Parse(line) == Refused(why) <==> Because(Tokens(line), why)
  {
    hide Wrong, Understand;
    var ts := Tokens(line);
    if ts != [] {
      var row := FindRow(ts[0], 0);
      forall k | 0 <= k < |CMDS| && CMDS[k].name == ts[0] ensures row == Some(CMDS[k]) {
        FindsEachName(k, 0);
      }
      if row.Some? {
        UnderstoodUnless(row.value, ts[1..], why);
        NotOtherwise(row.value, ts[1..]);
      }
    }
  }

  lemma {:induction false} NotOtherwise(row: Row, ts: seq<string>)
    ensures Understand(row, ts) != Refused(EmptyLine) && Understand(row, ts) != Refused(UnknownCommand)
  {
    UnderstoodUnless(row, ts, EmptyLine);
    UnderstoodUnless(row, ts, UnknownCommand);
  }
}
