/** What a client is told is what became of its command. */
module ConversationAnswers {
  import opened Core
  import opened Streams
  import opened Conversation

  /** What the server has decided about the command under way, and whether its upload was broken off. */
  datatype Fate = Fate(told: Option<bool>, broken: bool)

  const UNDECIDED: Fate := Fate(None, false)

  /** The steps that decide: a new command is open until the server has refused, finished or settled it. */
  function Decides(s: State, a: Action, f: Fate): Fate {
    match a
    case ClientSends(cmd) => if s.client.Idle? && ClientCommand(cmd) then UNDECIDED else f
    case ClientFails => if s.client.Storing? then f.(broken := true) else f
    case ServerAnswers(ok) =>
      if !s.server.Dispatching? then f
      else if !ok || !ClientCommand(s.server.cmd) then f.(told := Some(false))
      else if s.server.cmd == CMD_TRANSFER_REQ || Fetches(s.server.cmd) || Stores(s.server.cmd) then f
      else f.(told := Some(true))
    case ServerUnannounced => if s.server == Dispatching(CMD_TRANSFER_REQ) then f.(told := Some(false)) else f
    case ServerSettles(ok) => if s.server.Listening? && s.owed then f.(told := Some(ok)) else f
    case ServerEnd => if s.server.Sending? then f.(told := Some(true)) else f
    case ServerFails => if s.server.Sending? then f.(told := Some(false)) else f
    case ServerReports(ok) => if s.server.Reporting? then f.(told := Some(ok && !f.broken)) else f
    case _ => f
  }

  function FateOf(s: State, acts: seq<Action>): Fate {
    if acts == [] then UNDECIDED
    else
      var init, a := acts[..|acts| - 1], acts[|acts| - 1];
      Decides(Run(s, init), a, FateOf(s, init))
  }

  /** The packet that ends a command: the end of the stream it asked for, or the answer. */
  function Verdict(cmd: byte, ok: bool): byte {
    if !ok then RSP_ERR else if Fetches(cmd) then EndCode(cmd) else RSP_OK
  }

  /** The last packet that is no notification. */
  function LastAnswer(own: seq<byte>): byte {
    if own == [] then RSP_NOTIFY
    else if own[|own| - 1] != RSP_NOTIFY then own[|own| - 1]
    else LastAnswer(own[..|own| - 1])
  }

  lemma LastAppended(own: seq<byte>, code: byte)
    ensures LastAnswer(own + [code]) == if code == RSP_NOTIFY then LastAnswer(own) else code
  {
    assert (own + [code])[..|own|] == own;
  }

  lemma {:induction false} LastOfNotes(own: seq<byte>)
    requires Notes(own)
    ensures LastAnswer(own) == RSP_NOTIFY
  {
    if own != [] {
      LastOfNotes(own[..|own| - 1]);
    }
  }

  lemma {:induction false} LastWithoutFirst(own: seq<byte>)
    requires own != []
    ensures Notes(own[1..]) ==> LastAnswer(own) == own[0]
    ensures !Notes(own[1..]) ==> LastAnswer(own[1..]) == LastAnswer(own)
  {
    var n := |own|;
    if n > 1 && own[n - 1] == RSP_NOTIFY {
      LastWithoutFirst(own[..n - 1]);
      assert own[..n - 1][1..] == own[1..][..n - 2];
      assert own[1..] == own[1..][..n - 2] + [RSP_NOTIFY];
    } else if n > 1 {
      assert own[1..][n - 2] == own[n - 1];
    } else {
      assert own[..0] == [];
    }
  }

  /** The command is over and its last packet under way. */
  predicate Over(s: State) {
    s.server.Listening? && s.up == [] && !s.owed && !s.client.Storing?
  }

  ghost predicate Fits(s: State, f: Fate) {
    s.client.Idle? ||
    ((if Over(s) then f.told.Some? && LastAnswer(OwnCodes(s.down)) == Verdict(s.client.cmd, f.told.value)
      else f.told.None?)
     && (s.client.AwaitReady? || s.client.Storing? ==> !f.broken)
     && (s.client.AwaitOutcome? && s.server.Receiving? ==>
       s.up != [] && (s.up[|s.up| - 1] == RSP_ERR <==> f.broken))
     && (s.client.AwaitOutcome? && s.server.Reporting? ==> (s.server.failed <==> f.broken)))
  }

  lemma ClientFits(s: State, a: Action, f: Fate)
    requires InStep(s) && Fits(s, f) && OfClient(a) && !Upsets(s, a)
    ensures Fits(Step(s, a), Decides(s, a, f))
  {
    hide OwnCodes, LastAnswer, OneAnswer, Announced, StreamRest, Permission;
    var own := OwnCodes(s.down);
    if a.ClientReceives? && s.down != [] && !s.client.Idle? && !s.client.Storing? {
      ClientKeepsStep(s, a);
      OwnHead(s.down);
      LastWithoutFirst(own);
      if !Step(s, a).client.Idle? {
        ReceiverGoesOn(s, own);
      }
    }
  }

  /** What a client leaves behind when it goes on still holds the last packet of its command. */
  lemma ReceiverGoesOn(s: State, own: seq<byte>)
    requires InStep(s) && own == OwnCodes(s.down) && own != []
    requires !s.client.Idle? && !s.client.Storing? && !ClientStep(s.client, own[0]).Idle?
    ensures Over(s) ==> !Notes(own[1..])
    ensures Over(s) ==> !ClientStep(s.client, own[0]).Storing?
  {
    ReceivedFits(s.client, s.server, s.up, own, s.owed);
    AnswersOf(own[1..], s.client.cmd);
  }

  lemma ServerReadFits(s: State, a: Action, f: Fate)
    requires InStep(s) && Fits(s, f) && Reads(a) && !Upsets(s, a)
    ensures Fits(Step(s, a), Decides(s, a, f))
  {
    if a.ServerReceives? && s.server.Receiving? && s.up != [] {
      assert s.client.Storing? || s.client.AwaitOutcome?;
      StreamLasts(s.up, s.server.cmd, s.client.AwaitOutcome?);
    }
  }

  /** Taking data from the front leaves the last packet of the stream. */
  lemma StreamLasts(up: seq<byte>, c: byte, over: bool)
    requires Uploaded(up, c, over) && up != []
    ensures up[0] == DataCode(c) && over ==> |up| > 1 && up[1..][|up| - 2] == up[|up| - 1]
    ensures up[0] != DataCode(c) ==> over && |up| == 1 && (up[0] == EndCode(c) || up[0] == RSP_ERR)
  {
  }

  lemma ServerForwardsFit(s: State, a: Action, f: Fate)
    requires InStep(s) && Fits(s, f) && Forwards(a)
    ensures Fits(Step(s, a), Decides(s, a, f))
  {
    hide OneAnswer, Announced, StreamRest, Permission, Uploaded, OwnCodes, Notes, LastAnswer;
    SaidOwn(s);
    LastAppended(OwnCodes(s.down), RSP_OK);
    LastAppended(OwnCodes(s.down), RSP_ERR);
    LastAppended(OwnCodes(s.down), RSP_NOTIFY);
  }

  lemma ServerAnswersFit(s: State, a: Action, f: Fate)
    requires InStep(s) && Fits(s, f) && (a.ServerAnswers? || a.ServerUnannounced?)
    ensures Fits(Step(s, a), Decides(s, a, f))
  {
    hide OneAnswer, Announced, StreamRest, Permission, Uploaded, OwnCodes, Notes, LastAnswer;
    SaidOwn(s);
    LastAppended(OwnCodes(s.down), RSP_OK);
    LastAppended(OwnCodes(s.down), RSP_ERR);
  }

  lemma ServerReportsFit(s: State, ok: bool, f: Fate)
    requires InStep(s) && Fits(s, f)
    ensures Fits(Step(s, ServerReports(ok)), Decides(s, ServerReports(ok), f))
  {
    hide OneAnswer, Announced, StreamRest, Permission, Uploaded, OwnCodes, Notes, LastAnswer;
    SaidOwn(s);
    LastAppended(OwnCodes(s.down), RSP_OK);
    LastAppended(OwnCodes(s.down), RSP_ERR);
  }

  lemma ServerStreamsFit(s: State, a: Action, f: Fate)
    requires InStep(s) && Fits(s, f) && (a.ServerChunk? || a.ServerEnd? || a.ServerFails?)
    ensures Fits(Step(s, a), Decides(s, a, f))
  {
    hide OneAnswer, Announced, StreamRest, Permission, Uploaded, OwnCodes, Notes, LastAnswer;
    if s.server.Sending? {
      var own, c := OwnCodes(s.down), s.server.cmd;
      OwnAppend(s.down, Own(DataCode(c)));
      OwnAppend(s.down, Own(EndCode(c)));
      OwnAppend(s.down, Own(RSP_ERR));
      LastAppended(own, EndCode(c));
      LastAppended(own, RSP_ERR);
    }
  }

  lemma {:induction false} RunFits(s: State, acts: seq<Action>)
    requires InStep(s) && s.client.Idle? && !Upset(s, acts)
    ensures Fits(Run(s, acts), FateOf(s, acts))
  {
    if acts != [] {
      var init, a := acts[..|acts| - 1], acts[|acts| - 1];
      RunFits(s, init);
      RunsStayInStep(s, init);
      if OfClient(a) {
        ClientFits(Run(s, init), a, FateOf(s, init));
      } else if Reads(a) {
        ServerReadFits(Run(s, init), a, FateOf(s, init));
      } else if Forwards(a) {
        ServerForwardsFit(Run(s, init), a, FateOf(s, init));
      } else if a.ServerAnswers? || a.ServerUnannounced? {
        ServerAnswersFit(Run(s, init), a, FateOf(s, init));
      } else if a.ServerReports? {
        ServerReportsFit(Run(s, init), a.ok, FateOf(s, init));
      } else {
        ServerStreamsFit(Run(s, init), a, FateOf(s, init));
      }
    }
  }

  /** Only a packet brings a client back, and it is the last of its command. */
  lemma ReturnTells(t: State, a: Action, f: Fate)
    requires InStep(t) && Fits(t, f) && !Upsets(t, a) && !t.client.Idle? && Step(t, a).client.Idle?
    ensures a.ClientReceives? && t.down != [] && f.told.Some? && Decides(t, a, f) == f
    ensures Code(t.down[0]) == Verdict(t.client.cmd, f.told.value)
  {
    if OfClient(a) {
      OwnHead(t.down);
      ClientKeepsStep(t, a);
      LastWithoutFirst(OwnCodes(t.down));
    } else {
      ServerIgnoresClient(t, t, a);
    }
  }

  /**
    In every run in which the sides stay in step: the packet with which a client returns to its main
    loop says what was decided about its command, and nothing else. A refusal, a broken-off stream,
    a failed report and a request that was not announced or was rejected read RSP_ERR; a stream that
    ended reads its end code; everything else that went well reads RSP_OK.
  */
  lemma ToldTheTruth(acts: seq<Action>)
    requires !Upset(INIT, acts) && acts != []
    requires !Run(INIT, acts[..|acts| - 1]).client.Idle? && Run(INIT, acts).client.Idle?
    ensures var t, fate := Run(INIT, acts[..|acts| - 1]), FateOf(INIT, acts);
      && fate.told.Some? && t.down != []
      && Code(t.down[0]) == (if !fate.told.value then RSP_ERR
                             else if Fetches(t.client.cmd) then EndCode(t.client.cmd) else RSP_OK)
  {
    hide InStep, Fits, Step, Decides, Upsets;
    var init := acts[..|acts| - 1];
    StartsInStep();
    RunsStayInStep(INIT, init);
    RunFits(INIT, init);
    ReturnTells(Run(INIT, init), acts[|acts| - 1], FateOf(INIT, init));
  }
}
