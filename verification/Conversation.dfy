/**
  The two-party command protocol: `run_stream_command`, `recv_response` and the main loop of
  the client against `dispatch` and `handle_session` of the server, packet by packet over two
  queues. Only the code of a packet matters here; Framing and Streams deal with its bytes.
*/
module Conversation {
  import opened Core
  import opened Streams

  datatype Client =
    | Idle                     // in select()
    | AwaitReply(cmd: byte)    // wait_response
    | AwaitSize(cmd: byte)     // the announced size of a read, download or list
    | Fetching(cmd: byte)      // recv_stream
    | AwaitReady(cmd: byte)    // the first OK of a write or upload
    | Storing(cmd: byte)       // send_stream
    | AwaitOutcome(cmd: byte)  // the second OK

  datatype Server =
    | Listening                      // in select()
    | Dispatching(cmd: byte)
    | Sending(cmd: byte)             // send_stream
    | Receiving(cmd: byte, started: bool) // recv_stream, before and behind its lseek
    | Reporting(cmd: byte, failed: bool)

  /**
    A packet to the client. An ACCEPT, REJECT or FAIL line for a request nobody on this connection
    waits for becomes a stray answer; nothing on the wire tells it from the answer to a command.
  */
  datatype Packet = Own(code: byte) | Stray(ok: bool)

  function Code(p: Packet): byte {
    match p
    case Own(code) => code
    case Stray(ok) => Answer(ok)
  }

  /**
    `up` holds the codes of the packets to the server. `owed`: the client waits for the answer to a
    transfer request. `late`: requests of this session that are open although it was told they failed.
  */
  datatype State = State(client: Client, server: Server, up: seq<byte>, down: seq<Packet>, owed: bool, late: nat)

  const INIT: State := State(Idle, Listening, [], [], false, 0)

  predicate Fetches(cmd: byte) {
    cmd == CMD_READ || cmd == CMD_DOWNLOAD_BEGIN || cmd == CMD_LIST
  }

  predicate Stores(cmd: byte) {
    cmd == CMD_WRITE || cmd == CMD_UPLOAD_BEGIN
  }

  /** Commands parse_command yields and the client sends. */
  predicate ClientCommand(cmd: byte) {
    1 <= cmd <= CMD_DOWNLOAD_BEGIN || CMD_TRANSFER_REQ <= cmd <= CMD_REJECT
  }

  function DataCode(cmd: byte): byte {
    if cmd == CMD_READ then CMD_READ_DATA
    else if cmd == CMD_LIST then CMD_LIST_DATA
    else if cmd == CMD_WRITE then CMD_WRITE_DATA
    else CMD_DATA
  }

  function EndCode(cmd: byte): byte {
    if cmd == CMD_READ then CMD_READ_END
    else if cmd == CMD_LIST then CMD_LIST_END
    else if cmd == CMD_WRITE then CMD_WRITE_END
    else CMD_DATA_END
  }

  datatype Action =
    | ClientSends(cmd: byte)
    | ClientReceives            // one packet: recv_response, recv_stream or the main loop
    | ClientChunk | ClientEnd   // send_stream
    | ClientFails               // a local read error is reported with RSP_ERR
    | ServerTakes
    | ServerAnswers(ok: bool)   // the single reply of a plain command, or a refusal
    | ServerChunk | ServerEnd
    | ServerFails               // a read error in the middle of a stream
    | ServerReceives            // one packet of an upload; a disk error does not stop it
    | ServerSeekFails           // lseek fails after "Ready to receive data"
    | ServerReports(ok: bool)
    | ServerNotifies            // a REQ line of the FIFO
    | ServerUnannounced         // a transfer request is added, but its REQ line cannot be delivered
    | ServerSettles(ok: bool)   // an ACCEPT, REJECT or FAIL line for the request the client waits for
    | ServerLate(ok: bool)      // such a line for an earlier request that was reported as failed
    | ServerMisdelivers(ok: bool) // such a line for a request another session of the user opened

  function Answer(ok: bool): byte {
    if ok then RSP_OK else RSP_ERR
  }

  function ClientStep(client: Client, head: byte): Client {
    match client
    case Idle => Idle
    case AwaitReply(_) => if head == RSP_NOTIFY then client else Idle
    case AwaitSize(c) => if head == RSP_NOTIFY then client else if head == RSP_OK then Fetching(c) else Idle
    case AwaitReady(c) => if head == RSP_NOTIFY then client else if head == RSP_OK then Storing(c) else Idle
    case AwaitOutcome(_) => if head == RSP_NOTIFY then client else Idle
    case Fetching(c) => if head == DataCode(c) then client else Idle
    case Storing(_) => client // does not read
  }

  function Say(s: State, code: byte): State {
    s.(down := s.down + [Own(code)])
  }

  /** One step; an action that is not possible now changes nothing. */
  function Step(s: State, a: Action): State {
    match a
    case ClientSends(cmd) =>
      if s.client.Idle? && ClientCommand(cmd) then
        s.(up := s.up + [cmd],
           client := if Fetches(cmd) then AwaitSize(cmd) else if Stores(cmd) then AwaitReady(cmd) else AwaitReply(cmd))
      else s
    case ClientReceives =>
      if s.down != [] && !s.client.Storing?
        then s.(client := ClientStep(s.client, Code(s.down[0])), down := s.down[1..]) else s
    case ClientChunk => if s.client.Storing? then s.(up := s.up + [DataCode(s.client.cmd)]) else s
    case ClientEnd =>
      if s.client.Storing? then s.(up := s.up + [EndCode(s.client.cmd)], client := AwaitOutcome(s.client.cmd)) else s
    case ClientFails =>
      if s.client.Storing? then s.(up := s.up + [RSP_ERR], client := AwaitOutcome(s.client.cmd)) else s
    case ServerTakes =>
      if s.server.Listening? && s.up != [] then s.(server := Dispatching(s.up[0]), up := s.up[1..]) else s
    case ServerAnswers(ok) =>
      if !s.server.Dispatching? then s
      else if !ok then Say(s, RSP_ERR).(server := Listening)
      else if s.server.cmd == CMD_TRANSFER_REQ then s.(server := Listening, owed := true) // no reply yet
      else if Fetches(s.server.cmd) then Say(s, RSP_OK).(server := Sending(s.server.cmd))
      else if Stores(s.server.cmd) then Say(s, RSP_OK).(server := Receiving(s.server.cmd, false))
      else if !ClientCommand(s.server.cmd) then Say(s, RSP_ERR).(server := Listening) // "Command not recognized"
      else Say(s, RSP_OK).(server := Listening)
    case ServerChunk => if s.server.Sending? then Say(s, DataCode(s.server.cmd)) else s
    case ServerEnd => if s.server.Sending? then Say(s, EndCode(s.server.cmd)).(server := Listening) else s
    case ServerFails => if s.server.Sending? then Say(s, RSP_ERR).(server := Listening) else s
    case ServerReceives =>
      if s.server.Receiving? && s.up != [] then
        var c, head := s.server.cmd, s.up[0];
        s.(up := s.up[1..], server := if head == DataCode(c) then Receiving(c, true)
          else Reporting(c, head != EndCode(c)))
      else s
    case ServerSeekFails =>
      if s.server == Receiving(CMD_WRITE, false) then s.(server := Reporting(CMD_WRITE, true)) else s
    case ServerReports(ok) =>
      if s.server.Reporting? then Say(s, Answer(ok && !s.server.failed)).(server := Listening) else s
    case ServerNotifies => if s.server.Listening? then Say(s, RSP_NOTIFY) else s
    case ServerUnannounced =>
      if s.server == Dispatching(CMD_TRANSFER_REQ) then Say(s, RSP_ERR).(server := Listening, late := s.late + 1) else s
    case ServerSettles(ok) => if s.server.Listening? && s.owed then Say(s, Answer(ok)).(owed := false) else s
    case ServerLate(ok) =>
      if s.server.Listening? && s.late > 0 then s.(down := s.down + [Stray(ok)], late := s.late - 1) else s
    case ServerMisdelivers(ok) => if s.server.Listening? then s.(down := s.down + [Stray(ok)]) else s
  }

  function Run(s: State, acts: seq<Action>): State {
    if acts == [] then s else Step(Run(s, acts[..|acts| - 1]), acts[|acts| - 1])
  }

  // ---------------------------------------------------------------- the shape of the queues

  /** The packets that belong to the commands of this session. */
  function OwnCodes(q: seq<Packet>): seq<byte> {
    if q == [] then [] else (if q[0].Own? then [q[0].code] else []) + OwnCodes(q[1..])
  }

  lemma {:induction false} OwnAppend(q: seq<Packet>, p: Packet)
    ensures p.Own? ==> OwnCodes(q + [p]) == OwnCodes(q) + [p.code]
    ensures p.Stray? ==> OwnCodes(q + [p]) == OwnCodes(q)
  {
    if q == [] {
      assert q + [p] == [p] && [p][1..] == [];
    } else {
      assert (q + [p])[1..] == q[1..] + [p] && (q + [p])[0] == q[0];
      OwnAppend(q[1..], p);
    }
  }

  /** Only notifications. */
  predicate Notes(q: seq<byte>) {
    forall i :: 0 <= i < |q| ==> q[i] == RSP_NOTIFY
  }

  /** Notifications around one answer; `okay` tells whether it may be OK. */
  predicate OneAnswer(q: seq<byte>, okay: bool) {
    q != [] && if q[0] == RSP_NOTIFY then OneAnswer(q[1..], okay)
               else (q[0] == RSP_ERR || (okay && q[0] == RSP_OK)) && Notes(q[1..])
  }

  /** The rest of a stream: data, and once it is `over` an end or error packet and notifications. */
  predicate StreamRest(q: seq<byte>, cmd: byte, over: bool) {
    if q == [] then !over
    else if q[0] == DataCode(cmd) then StreamRest(q[1..], cmd, over)
    else over && (q[0] == EndCode(cmd) || q[0] == RSP_ERR) && Notes(q[1..])
  }

  /** The announcement of a stream and the stream. */
  predicate Announced(q: seq<byte>, cmd: byte, over: bool) {
    q != [] && if q[0] == RSP_NOTIFY then Announced(q[1..], cmd, over)
               else q[0] == RSP_OK && StreamRest(q[1..], cmd, over)
  }

  /** Notifications and the permission to start. */
  predicate Permission(q: seq<byte>) {
    q != [] && if q[0] == RSP_NOTIFY then Permission(q[1..]) else q == [RSP_OK]
  }

  /** What a sender has under way: data, and once it is `over` its last packet. */
  predicate Uploaded(q: seq<byte>, cmd: byte, over: bool) {
    if q == [] then !over
    else if q[0] == DataCode(cmd) then Uploaded(q[1..], cmd, over)
    else over && (q == [EndCode(cmd)] || q == [RSP_ERR])
  }

  lemma {:induction false} Appending(q: seq<byte>, cmd: byte, okay: bool)
    ensures Notes(q) ==> Notes(q + [RSP_NOTIFY]) && OneAnswer(q + [RSP_ERR], okay) && OneAnswer(q + [RSP_OK], true)
    ensures Notes(q) ==> Announced(q + [RSP_OK], cmd, false) && Permission(q + [RSP_OK])
    ensures OneAnswer(q, okay) ==> OneAnswer(q + [RSP_NOTIFY], okay)
  {
    if q == [] {
      assert q + [RSP_OK] == [RSP_OK] && q + [RSP_ERR] == [RSP_ERR];
    } else {
      Appending(q[1..], cmd, okay);
      assert forall x: byte :: (q + [x])[1..] == q[1..] + [x];
    }
  }

  lemma {:induction false} StreamAppending(q: seq<byte>, cmd: byte)
    ensures StreamRest(q, cmd, false) ==> StreamRest(q + [DataCode(cmd)], cmd, false)
    ensures StreamRest(q, cmd, false) ==>
      StreamRest(q + [EndCode(cmd)], cmd, true) && StreamRest(q + [RSP_ERR], cmd, true)
    ensures StreamRest(q, cmd, true) ==> StreamRest(q + [RSP_NOTIFY], cmd, true)
    ensures Uploaded(q, cmd, false) ==> Uploaded(q + [DataCode(cmd)], cmd, false)
    ensures Uploaded(q, cmd, false) ==> Uploaded(q + [EndCode(cmd)], cmd, true) && Uploaded(q + [RSP_ERR], cmd, true)
  {
    if q == [] {
      assert forall x: byte :: q + [x] == [x];
    } else {
      StreamAppending(q[1..], cmd);
      assert forall x: byte :: (q + [x])[1..] == q[1..] + [x];
    }
  }

  lemma {:induction false} AnnouncedAppending(q: seq<byte>, cmd: byte)
    ensures Announced(q, cmd, false) ==> Announced(q + [DataCode(cmd)], cmd, false)
    ensures Announced(q, cmd, false) ==> Announced(q + [EndCode(cmd)], cmd, true) && Announced(q + [RSP_ERR], cmd, true)
    ensures Announced(q, cmd, true) ==> Announced(q + [RSP_NOTIFY], cmd, true)
  {
    if q != [] {
      AnnouncedAppending(q[1..], cmd);
      StreamAppending(q[1..], cmd);
      assert forall x: byte :: (q + [x])[1..] == q[1..] + [x];
    }
  }

  // ---------------------------------------------------------------- what every run keeps

  /** The two sides and the packets between them fit together; `own` are the codes of the session's own packets. */
  ghost predicate Matches(client: Client, server: Server, up: seq<byte>, own: seq<byte>, owed: bool) {
    match client
    case Idle => server.Listening? && up == [] && Notes(own) && !owed
    case AwaitReply(c) =>
      && ClientCommand(c) && !Fetches(c) && !Stores(c) && (owed ==> c == CMD_TRANSFER_REQ)
      && (match server
          case Listening =>
            || (up == [c] && Notes(own) && !owed)
            || (up == [] && OneAnswer(own, true) && !owed)
            || (up == [] && Notes(own) && owed)
          case Dispatching(d) => d == c && up == [] && Notes(own) && !owed
          case _ => false)
    case AwaitSize(c) =>
      && Fetches(c) && !owed
      && (match server
          case Listening =>
            || (up == [c] && Notes(own))
            || (up == [] && (OneAnswer(own, false) || Announced(own, c, true)))
          case Dispatching(d) => d == c && up == [] && Notes(own)
          case Sending(d) => d == c && up == [] && Announced(own, c, false)
          case _ => false)
    case Fetching(c) =>
      && Fetches(c) && !owed && up == []
      && (match server
          case Listening => StreamRest(own, c, true)
          case Sending(d) => d == c && StreamRest(own, c, false)
          case _ => false)
    case AwaitReady(c) =>
      && Stores(c) && !owed
      && (match server
          case Listening => (up == [c] && Notes(own)) || (up == [] && OneAnswer(own, false))
          case Dispatching(d) => d == c && up == [] && Notes(own)
          case Receiving(d, _) => d == c && up == [] && Permission(own)
          case _ => false)
    case Storing(c) => Stores(c) && !owed && server.Receiving? && server.cmd == c && own == [] && Uploaded(up, c, false)
    case AwaitOutcome(c) =>
      && Stores(c) && !owed
      && (match server
          case Listening => up == [] && OneAnswer(own, true)
          case Receiving(d, _) => d == c && own == [] && Uploaded(up, c, true)
          case Reporting(d, _) => d == c && up == [] && own == []
          case _ => false)
  }

  ghost predicate InStep(s: State) {
    Matches(s.client, s.server, s.up, OwnCodes(s.down), s.owed)
  }

  /** A client that waits for a packet of its command takes a stray answer for it. */
  predicate TakesStray(s: State, a: Action) {
    a.ClientReceives? && !s.client.Idle? && !s.client.Storing? && s.down != [] && s.down[0].Stray?
  }

  /** lseek() fails behind a permission that was given. */
  predicate SeekFails(s: State, a: Action) {
    a.ServerSeekFails? && s.server == Receiving(CMD_WRITE, false)
  }

  predicate Upsets(s: State, a: Action) {
    TakesStray(s, a) || SeekFails(s, a)
  }

  /** Somewhere in the run the two sides are put out of step. */
  predicate Upset(s: State, acts: seq<Action>) {
    acts != [] && (Upset(s, acts[..|acts| - 1]) || Upsets(Run(s, acts[..|acts| - 1]), acts[|acts| - 1]))
  }

  predicate OfClient(a: Action) {
    a.ClientSends? || a.ClientReceives? || a.ClientChunk? || a.ClientEnd? || a.ClientFails?
  }

  lemma ClientKeepsStep(s: State, a: Action)
    requires InStep(s) && OfClient(a) && !Upsets(s, a)
    ensures InStep(Step(s, a))
  {
    if s.client.Storing? {
      StreamAppending(s.up, s.client.cmd);
    } else if a.ClientReceives? && s.down != [] {
      OwnHead(s.down);
      if s.down[0].Own? {
        ReceivedFits(s.client, s.server, s.up, OwnCodes(s.down), s.owed);
      }
    }
  }

  lemma OwnHead(q: seq<Packet>)
    requires q != []
    ensures q[0].Stray? ==> OwnCodes(q) == OwnCodes(q[1..])
    ensures q[0].Own? ==> OwnCodes(q) != [] && OwnCodes(q)[0] == q[0].code && OwnCodes(q)[1..] == OwnCodes(q[1..])
  {
  }

  lemma ReceivedFits(client: Client, server: Server, up: seq<byte>, own: seq<byte>, owed: bool)
    requires Matches(client, server, up, own, owed) && own != [] && !client.Storing?
    ensures Matches(ClientStep(client, own[0]), server, up, own[1..], owed)
  {
  }

  /** A packet the server sends fits what was sent before. */
  lemma OwnAppending(own: seq<byte>, cmd: byte)
    ensures Notes(own) ==>
      Notes(own + [RSP_NOTIFY]) && OneAnswer(own + [RSP_ERR], false) && OneAnswer(own + [RSP_ERR], true)
    ensures Notes(own) ==>
      OneAnswer(own + [RSP_OK], true) && Announced(own + [RSP_OK], cmd, false) && Permission(own + [RSP_OK])
    ensures OneAnswer(own, true) ==> OneAnswer(own + [RSP_NOTIFY], true)
    ensures OneAnswer(own, false) ==> OneAnswer(own + [RSP_NOTIFY], false)
    ensures StreamRest(own, cmd, false) ==> StreamRest(own + [DataCode(cmd)], cmd, false)
    ensures StreamRest(own, cmd, false) ==>
      StreamRest(own + [EndCode(cmd)], cmd, true) && StreamRest(own + [RSP_ERR], cmd, true)
    ensures StreamRest(own, cmd, true) ==> StreamRest(own + [RSP_NOTIFY], cmd, true)
    ensures Announced(own, cmd, false) ==> Announced(own + [DataCode(cmd)], cmd, false)
    ensures Announced(own, cmd, false) ==>
      Announced(own + [EndCode(cmd)], cmd, true) && Announced(own + [RSP_ERR], cmd, true)
    ensures Announced(own, cmd, true) ==> Announced(own + [RSP_NOTIFY], cmd, true)
  {
    Appending(own, cmd, true);
    Appending(own, cmd, false);
    StreamAppending(own, cmd);
    AnnouncedAppending(own, cmd);
  }

  /** Steps of the server that send nothing. */
  predicate Reads(a: Action) {
    a.ServerTakes? || a.ServerReceives? || a.ServerSeekFails?
  }

  /** Lines of the FIFO. */
  predicate Forwards(a: Action) {
    a.ServerNotifies? || a.ServerSettles? || a.ServerLate? || a.ServerMisdelivers?
  }

  lemma ServerReadsInStep(s: State, a: Action)
    requires InStep(s) && Reads(a) && !Upsets(s, a)
    ensures InStep(Step(s, a))
  {
  }

  lemma ServerForwardsInStep(s: State, a: Action)
    requires InStep(s) && Forwards(a)
    ensures InStep(Step(s, a))
  {
    hide OneAnswer, Announced, StreamRest, Permission, Uploaded, OwnCodes, Notes;
    OwnAppending(OwnCodes(s.down), if s.client.Idle? then CMD_LOGIN else s.client.cmd);
    SaidOwn(s);
  }

  lemma ServerAnswersInStep(s: State, a: Action)
    requires InStep(s) && (a.ServerAnswers? || a.ServerUnannounced?)
    ensures InStep(Step(s, a))
  {
    hide OneAnswer, Announced, StreamRest, Permission, Uploaded, OwnCodes, Notes;
    OwnAppending(OwnCodes(s.down), if s.client.Idle? then CMD_LOGIN else s.client.cmd);
    SaidOwn(s);
  }

  lemma ServerStreamsInStep(s: State, a: Action)
    requires InStep(s) && (a.ServerChunk? || a.ServerEnd? || a.ServerFails? || a.ServerReports?)
    ensures InStep(Step(s, a))
  {
    hide OneAnswer, Announced, StreamRest, Permission, Uploaded, OwnCodes;
    OwnAppending(OwnCodes(s.down), if s.client.Idle? then CMD_LOGIN else s.client.cmd);
    SaidOwn(s);
  }

  lemma ServerKeepsStep(s: State, a: Action)
    requires InStep(s) && !OfClient(a) && !Upsets(s, a)
    ensures InStep(Step(s, a))
  {
    if Reads(a) {
      ServerReadsInStep(s, a);
    } else if Forwards(a) {
      ServerForwardsInStep(s, a);
    } else if a.ServerAnswers? || a.ServerUnannounced? {
      ServerAnswersInStep(s, a);
    } else {
      ServerStreamsInStep(s, a);
    }
  }

  /** What the packets the server may send next do to the session's own ones. */
  lemma SaidOwn(s: State)
    ensures forall p :: p in [Own(RSP_OK), Own(RSP_ERR), Own(RSP_NOTIFY)] ==>
      OwnCodes(s.down + [p]) == OwnCodes(s.down) + [p.code]
    ensures forall ok :: OwnCodes(s.down + [Stray(ok)]) == OwnCodes(s.down)
    ensures s.server.Sending? ==>
      OwnCodes(s.down + [Own(DataCode(s.server.cmd))]) == OwnCodes(s.down) + [DataCode(s.server.cmd)]
      && OwnCodes(s.down + [Own(EndCode(s.server.cmd))]) == OwnCodes(s.down) + [EndCode(s.server.cmd)]
  {
    OwnAppend(s.down, Own(RSP_OK));
    OwnAppend(s.down, Own(RSP_ERR));
    OwnAppend(s.down, Own(RSP_NOTIFY));
    OwnAppend(s.down, Stray(true));
    OwnAppend(s.down, Stray(false));
    if s.server.Sending? {
      OwnAppend(s.down, Own(DataCode(s.server.cmd)));
      OwnAppend(s.down, Own(EndCode(s.server.cmd)));
    }
  }

  lemma StepKeepsStep(s: State, a: Action)
    requires InStep(s) && !Upsets(s, a)
    ensures InStep(Step(s, a))
  {
    if OfClient(a) {
      ClientKeepsStep(s, a);
    } else {
      ServerKeepsStep(s, a);
    }
  }

  lemma {:induction false} RunsStayInStep(s: State, acts: seq<Action>)
    requires InStep(s) && !Upset(s, acts)
    ensures InStep(Run(s, acts))
  {
    if acts != [] {
      RunsStayInStep(s, acts[..|acts| - 1]);
      StepKeepsStep(Run(s, acts[..|acts| - 1]), acts[|acts| - 1]);
    }
  }

  // ---------------------------------------------------------------- results over all runs

  /** Between two commands nothing of this session but notifications is under way. */
  predicate AtBoundary(s: State) {
    s.server.Listening? && s.up == [] && Notes(OwnCodes(s.down)) && !s.owed
  }

  /**
    Lockstep: in every run, whichever failures happen on either side and however many stray answers
    arrive, as long as no waiting client takes one and no seek fails behind a given permission: the
    client is back in its main loop only when the server is back in its own and every reply and
    data packet is consumed. Stray answers the main loop drains do no harm.
  */
  lemma Lockstep(acts: seq<Action>)
    requires !Upset(INIT, acts)
    ensures Run(INIT, acts).client.Idle? ==> AtBoundary(Run(INIT, acts))
  {
    RunsStayInStep(INIT, acts);
  }

  /** A step that is neither a notification nor the delivery of a line about a transfer request. */
  predicate Progress(a: Action) {
    !a.ServerNotifies? && !a.ServerSettles? && !a.ServerLate? && !a.ServerMisdelivers? && !a.ServerSeekFails?
  }

  /** Notifications, stray lines, data packets and new commands; everything else uses up what there is to do. */
  predicate Feeds(a: Action) {
    a.ServerNotifies? || a.ServerMisdelivers? || a.ServerChunk? || a.ClientChunk? || a.ClientSends?
  }

  /** What can happen next while a client waits. */
  lemma NextStep(s: State) returns (a: Action)
    requires InStep(s) && !s.client.Idle? && !s.owed
    ensures Progress(a) && !Feeds(a) && Step(s, a) != s
  {
    if s.client.Storing? {
      a := ClientEnd;
      assert Step(s, a).client != s.client;
    } else if s.down != [] {
      a := ClientReceives;
      assert Step(s, a).down != s.down;
    } else {
      a := NextServerStep(s);
    }
  }

  lemma NextServerStep(s: State) returns (a: Action)
    requires InStep(s) && !s.client.Idle? && !s.client.Storing? && s.down == [] && !s.owed
    ensures Progress(a) && !Feeds(a) && Step(s, a) != s
  {
    match s.server
    case Listening =>
      a := ServerTakes;
      assert Step(s, a).server != s.server;
    case Dispatching(_) =>
      a := ServerAnswers(false);
      assert Step(s, a).server != s.server;
    case Sending(_) =>
      a := ServerEnd;
      assert Step(s, a).server != s.server;
    case Receiving(_, _) =>
      a := ServerReceives;
      assert Step(s, a).up != s.up;
    case Reporting(_, _) =>
      a := ServerReports(true);
      assert Step(s, a).server != s.server;
  }

  /**
    No client waits for a packet the server will not send, unless it waits for the answer to a
    transfer request. Whether that one can still come is up to others; AnsweredRequests.AnswerableExactly says when.
  */
  lemma NoDeadlock(acts: seq<Action>)
    requires !Upset(INIT, acts)
    requires !Run(INIT, acts).client.Idle? && !Run(INIT, acts).owed
    ensures exists a :: Progress(a) && Step(Run(INIT, acts), a) != Run(INIT, acts)
  {
    RunsStayInStep(INIT, acts);
    var a := NextStep(Run(INIT, acts));
  }

  /** How many steps the two sides can still make at most before somebody feeds them again. */
  function ToDo(s: State): nat {
    6 * |s.up| + |s.down| + 2 * s.late + (if s.owed then 2 else 0)
    + (match s.client
       case AwaitReady(_) => 7
       case Storing(_) => 7
       case _ => 0)
    + (match s.server
       case Listening => 0
       case Dispatching(_) => 5
       case Sending(_) => 2
       case Receiving(_, _) => 3
       case Reporting(_, _) => 2)
  }

  lemma StepUsesUp(s: State, a: Action)
    requires !Feeds(a) && Step(s, a) != s
    ensures ToDo(Step(s, a)) < ToDo(s)
  {
    if a.ServerAnswers? {
      AnsweringUsesUp(s, a.ok);
    }
  }

  lemma AnsweringUsesUp(s: State, ok: bool)
    requires s.server.Dispatching?
    ensures ToDo(Step(s, ServerAnswers(ok))) < ToDo(s)
  {
  }

  /** A run in which every step does something and none is a notification, a stray line, data or a new command. */
  predicate Unfed(s: State, acts: seq<Action>)
    decreases |acts|
  {
    acts != [] ==> !Feeds(acts[0]) && Step(s, acts[0]) != s && Unfed(Step(s, acts[0]), acts[1..])
  }

  /**
    Every exchange ends: once notifications, stray lines and data packets stop, the two sides make
    at most `ToDo` more steps, whatever state they are in.
  */
  lemma {:induction false} ExchangeEnds(s: State, acts: seq<Action>)
    requires Unfed(s, acts)
    ensures |acts| <= ToDo(s)
    decreases |acts|
  {
    if acts != [] {
      StepUsesUp(s, acts[0]);
      ExchangeEnds(Step(s, acts[0]), acts[1..]);
    }
  }

  /** The waiting client is about to take a stray answer. */
  predicate StrayAhead(s: State) {
    TakesStray(s, ClientReceives)
  }

  function Resumed(s: State, acts: seq<Action>): State
    decreases |acts|
  {
    if acts == [] then s else Resumed(Step(s, acts[0]), acts[1..])
  }

  /** Going on with such steps brings the client back, or leaves it with an answer others owe it. */
  lemma {:induction false} ReturnsAtLast(s: State) returns (acts: seq<Action>)
    requires InStep(s)
    ensures Unfed(s, acts) && forall a :: a in acts ==> Progress(a)
    ensures var s' := Resumed(s, acts); InStep(s') && (s'.client.Idle? || s'.owed || StrayAhead(s'))
    decreases ToDo(s)
  {
    if s.client.Idle? || s.owed || StrayAhead(s) {
      acts := [];
    } else {
      var a := NextStep(s);
      StepKeepsStep(s, a);
      StepUsesUp(s, a);
      var rest := ReturnsAtLast(Step(s, a));
      acts := [a] + rest;
      assert acts[1..] == rest;
    }
  }

  // ---------------------------------------------------------------- when lockstep is lost

  function Answers(own: seq<byte>): nat {
    if own == [] then 0 else (if own[0] == RSP_NOTIFY then 0 else 1) + Answers(own[1..])
  }

  lemma {:induction false} AnswersAppend(own: seq<byte>, code: byte)
    ensures Answers(own + [code]) == Answers(own) + if code == RSP_NOTIFY then 0 else 1
  {
    if own == [] {
      assert own + [code] == [code];
    } else {
      assert (own + [code])[1..] == own[1..] + [code];
      AnswersAppend(own[1..], code);
    }
  }

  lemma {:induction false} AnswersOf(own: seq<byte>, cmd: byte)
    ensures Notes(own) <==> Answers(own) == 0
    ensures OneAnswer(own, true) || OneAnswer(own, false) || Permission(own) ==> Answers(own) == 1
    ensures Announced(own, cmd, true) || Announced(own, cmd, false) || StreamRest(own, cmd, true) ==> Answers(own) >= 1
  {
    if own != [] {
      AnswersOf(own[1..], cmd);
      assert own == [own[0]] + own[1..];
      assert Permission(own) && own[0] != RSP_NOTIFY ==> own[1..] == [];
    }
  }

  /** How many answers the session has under way or will certainly still be given. */
  function Outstanding(s: State): nat {
    Answers(OwnCodes(s.down)) +
    match s.server
    case Listening => |s.up|
    case Receiving(_, _) => 1
    case _ => 1 + |s.up|
  }

  /** No packet on its way up starts anything but the command `c`. */
  predicate Harmless(up: seq<byte>, c: byte) {
    forall i :: 0 <= i < |up| ==> up[i] == c || !ClientCommand(up[i])
  }

  /** The client of a write or upload is ahead: more answers are coming than it will read before it returns. */
  ghost predicate Ahead(s: State) {
    && (match s.client
        case AwaitReady(c) => Stores(c) && s.up == [] && (s.server.Listening? || s.server.Reporting?) &&
          Outstanding(s) >= 2
        case Storing(c) => Stores(c) && Outstanding(s) >= 1 && (s.server.Receiving? ==> Answers(OwnCodes(s.down)) >= 1)
        case AwaitOutcome(c) => Stores(c) && Outstanding(s) >= 2
        case _ => false)
    && !s.owed && !s.server.Sending? && Harmless(s.up, s.client.cmd)
    && (s.server.Dispatching? ==> s.server.cmd == s.client.cmd || !ClientCommand(s.server.cmd))
  }

  /** The sides are out of step while the client is still busy with its command. */
  ghost predicate Lost(s: State) {
    match s.client
    case Fetching(c) => Matches(AwaitSize(c), s.server, s.up, OwnCodes(s.down), s.owed) // took a stray OK for the size
    case _ => Ahead(s)
  }

  /** The one way back: a stray OK was taken for the announced size and the refusal follows at once. */
  predicate Excused(s: State, a: Action) {
    a.ClientReceives? && s.client.Fetching? && s.down != [] && s.down[0] == Own(RSP_ERR)
  }

  lemma OutstandingShows(s: State)
    requires Outstanding(s) >= 1
    ensures !AtBoundary(s)
  {
    AnswersOf(OwnCodes(s.down), CMD_WRITE);
  }

  lemma {:induction false} UploadedIsHarmless(up: seq<byte>, c: byte, over: bool)
    requires Stores(c) && Uploaded(up, c, over)
    ensures Harmless(up, c)
  {
    if up != [] {
      if up[0] == DataCode(c) {
        UploadedIsHarmless(up[1..], c, over);
      }
      assert forall i :: 1 <= i < |up| ==> up[i] == up[1..][i - 1];
    }
  }

  /** A client that still reads has something of its command under way. */
  lemma StillOpen(client: Client, server: Server, up: seq<byte>, own: seq<byte>, owed: bool)
    requires Matches(client, server, up, own, owed) && !client.Idle? && !client.Storing?
    ensures !(server.Listening? && up == [] && Notes(own) && !owed)
  {
    AnswersOf(own, client.cmd);
  }

  lemma StrayIsTaken(s: State)
    requires InStep(s) && TakesStray(s, ClientReceives)
    ensures var s' := Step(s, ClientReceives);
      if s'.client.Idle? then !AtBoundary(s') else Lost(s')
  {
    OwnHead(s.down);
    StillOpen(s.client, s.server, s.up, OwnCodes(s.down), s.owed);
    var s' := Step(s, ClientReceives);
    assert OwnCodes(s'.down) == OwnCodes(s.down) && s'.up == s.up && s'.server == s.server && s'.owed == s.owed;
    if s.client.AwaitReady? && s.down[0].ok {
      StrayPermission(s, s');
    }
  }

  lemma StrayPermission(s: State, s': State)
    requires InStep(s) && s.client.AwaitReady? && s'.client == Storing(s.client.cmd)
    requires OwnCodes(s'.down) == OwnCodes(s.down) && s'.up == s.up && s'.server == s.server && s'.owed == s.owed
    ensures Ahead(s')
  {
    AnswersOf(OwnCodes(s.down), s.client.cmd);
  }

  lemma SeekIsLost(s: State)
    requires InStep(s) && SeekFails(s, ServerSeekFails)
    ensures Ahead(Step(s, ServerSeekFails)) && !Step(s, ServerSeekFails).client.Idle?
  {
    AnswersOf(OwnCodes(s.down), CMD_WRITE);
    if s.client.Storing? || s.client.AwaitOutcome? {
      UploadedIsHarmless(s.up, s.client.cmd, s.client.AwaitOutcome?);
    }
  }

  lemma AheadClientSteps(s: State, a: Action)
    requires Ahead(s) && OfClient(a)
    ensures var s' := Step(s, a);
      if s'.client.Idle? then !AtBoundary(s') else Ahead(s')
  {
    var s' := Step(s, a);
    if a.ClientReceives? && s.down != [] && !s.client.Storing? {
      OwnHead(s.down);
    }
    if s'.client.Idle? {
      OutstandingShows(s');
    }
  }

  lemma AheadReads(s: State, a: Action)
    requires Ahead(s) && Reads(a)
    ensures Ahead(Step(s, a))
  {
  }

  lemma AheadSays(s: State, a: Action)
    requires Ahead(s) && !OfClient(a) && !Reads(a) && !a.ServerAnswers?
    ensures Ahead(Step(s, a))
  {
    SaidOwn(s);
    AnswersAppend(OwnCodes(s.down), RSP_OK);
    AnswersAppend(OwnCodes(s.down), RSP_ERR);
    AnswersAppend(OwnCodes(s.down), RSP_NOTIFY);
  }

  lemma AheadAnswers(s: State, ok: bool)
    requires Ahead(s)
    ensures Ahead(Step(s, ServerAnswers(ok)))
  {
    SaidOwn(s);
    AnswersAppend(OwnCodes(s.down), RSP_OK);
    AnswersAppend(OwnCodes(s.down), RSP_ERR);
  }

  lemma AheadServerSteps(s: State, a: Action)
    requires Ahead(s) && !OfClient(a)
    ensures Ahead(Step(s, a))
  {
    if Reads(a) {
      AheadReads(s, a);
    } else if a.ServerAnswers? {
      AheadAnswers(s, a.ok);
    } else {
      AheadSays(s, a);
    }
  }

  /** With a stray OK for the size the client leaves at the next packet; the server goes on for a client that waits. */
  lemma FetchingLost(s: State, a: Action)
    requires Lost(s) && s.client.Fetching?
    ensures var s' := Step(s, a);
      if s'.client.Idle? then (AtBoundary(s') <==> Excused(s, a)) else Lost(s')
  {
    if OfClient(a) {
      FetchingLeaves(s, a);
    } else {
      var waiting := s.(client := AwaitSize(s.client.cmd));
      ServerIgnoresClient(s, waiting, a);
      ServerKeepsStep(waiting, a);
    }
  }

  lemma ServerIgnoresClient(s: State, t: State, a: Action)
    requires t == s.(client := t.client) && !OfClient(a)
    ensures Step(s, a) == Step(t, a).(client := s.client)
    ensures Step(t, a).client == t.client
  {
  }

  lemma FetchingLeaves(s: State, a: Action)
    requires Lost(s) && s.client.Fetching? && OfClient(a)
    ensures var s' := Step(s, a);
      if s'.client.Idle? then (AtBoundary(s') <==> Excused(s, a)) else Lost(s')
  {
    var c, own := s.client.cmd, OwnCodes(s.down);
    if a.ClientReceives? && s.down != [] {
      OwnHead(s.down);
      if s.down[0].Own? {
        RefusedOrNot(c, s.server, s.up, own, s.owed);
      } else {
        StillOpen(AwaitSize(c), s.server, s.up, own, s.owed);
      }
    }
  }

  /** What the first packet tells a client that expects a size leaves nothing behind only if it is the refusal. */
  lemma RefusedOrNot(c: byte, server: Server, up: seq<byte>, own: seq<byte>, owed: bool)
    requires Matches(AwaitSize(c), server, up, own, owed) && own != []
    ensures own[0] != DataCode(c)
    ensures server.Listening? && up == [] && Notes(own[1..]) && !owed <==> own[0] == RSP_ERR
  {
    AnswersOf(own[1..], c);
    AnswersOf(own, c);
  }

  lemma LostSteps(s: State, a: Action)
    requires Lost(s) && !s.client.Idle?
    ensures var s' := Step(s, a);
      if s'.client.Idle? then (AtBoundary(s') <==> Excused(s, a)) else Lost(s')
  {
    if s.client.Fetching? {
      FetchingLost(s, a);
    } else if OfClient(a) {
      AheadClientSteps(s, a);
    } else {
      AheadServerSteps(s, a);
    }
  }

  /** From a boundary the client sends one command and is busy with it until the last step at least. */
  predicate Exchange(s: State, acts: seq<Action>) {
    && s.client.Idle? && AtBoundary(s)
    && acts != [] && acts[0].ClientSends? && ClientCommand(acts[0].cmd)
    && forall k :: 1 <= k < |acts| ==> !Run(s, acts[..k]).client.Idle?
  }

  /** In step as long as nothing upsets the exchange, lost from then on. */
  lemma {:induction false} Tracked(s: State, acts: seq<Action>)
    requires Exchange(s, acts) && !Run(s, acts).client.Idle?
    ensures if Upset(s, acts) then Lost(Run(s, acts)) else InStep(Run(s, acts))
  {
    hide Lost, InStep, Upsets, Step;
    var n := |acts|;
    if n == 1 {
      FirstSends(s, acts);
    }
    if Upset(s, acts) {
      var init := acts[..n - 1];
      Shorter(s, acts);
      Tracked(s, init);
      if Upset(s, init) {
        LostSteps(Run(s, init), acts[n - 1]);
      } else {
        Falls(Run(s, init), acts[n - 1]);
      }
    } else {
      RunsStayInStep(s, acts);
    }
  }

  lemma Shorter(s: State, acts: seq<Action>)
    requires Exchange(s, acts) && |acts| > 1
    ensures Exchange(s, acts[..|acts| - 1]) && !Run(s, acts[..|acts| - 1]).client.Idle?
  {
    var init := acts[..|acts| - 1];
    assert forall k :: 1 <= k < |init| ==> init[..k] == acts[..k];
  }

  lemma FirstSends(s: State, acts: seq<Action>)
    requires Exchange(s, acts) && |acts| == 1
    ensures !Upset(s, acts) && !Run(s, acts).client.Idle?
  {
    assert acts[..0] == [];
  }

  lemma Falls(s: State, a: Action)
    requires InStep(s) && Upsets(s, a)
    ensures var s' := Step(s, a);
      if s'.client.Idle? then !AtBoundary(s') && !Excused(s, a) else Lost(s')
  {
    if TakesStray(s, a) {
      StrayIsTaken(s);
    } else {
      SeekIsLost(s);
    }
  }

  /**
    Exactly when one exchange keeps lockstep. Take any command sent at a boundary and any run until
    the client is back in its main loop for the first time. It is back at a boundary exactly when
    no waiting client took a stray answer and no seek failed behind a permission, or a stray OK was
    taken for the size of a stream the server refuses at once.
  */
  lemma LockstepExactly(s: State, acts: seq<Action>)
    requires Exchange(s, acts) && Run(s, acts).client.Idle?
    ensures AtBoundary(Run(s, acts)) <==> !Upset(s, acts) || Excused(Run(s, acts[..|acts| - 1]), acts[|acts| - 1])
  {
    var n := |acts|;
    var init, last := acts[..n - 1], acts[n - 1];
    if n == 1 {
      FirstSends(s, acts);
    }
    Shorter(s, acts);
    Tracked(s, init);
    var t := Run(s, init);
    if Upset(s, init) {
      LostSteps(t, last);
    } else if Upsets(t, last) {
      Falls(t, last);
    } else {
      StepKeepsStep(t, last);
    }
  }

  /** The client is busy before every step of the run. */
  predicate Busy(s: State, acts: seq<Action>) {
    forall k :: 0 <= k < |acts| ==> !Run(s, acts[..k]).client.Idle?
  }

  /** Once lost, the client's first return is no boundary, however both sides go on. */
  lemma {:induction false} FirstReturn(s: State, more: seq<Action>)
    requires Ahead(s) && !s.client.Idle?
    requires Busy(s, more)
    ensures if Run(s, more).client.Idle? then !AtBoundary(Run(s, more)) else Ahead(Run(s, more))
  {
    if more != [] {
      var init := more[..|more| - 1];
      assert forall k :: 0 <= k < |init| ==> init[..k] == more[..k];
      FirstReturn(s, init);
      if OfClient(more[|more| - 1]) {
        AheadClientSteps(Run(s, init), more[|more| - 1]);
      } else {
        AheadServerSteps(Run(s, init), more[|more| - 1]);
      }
    }
  }

  lemma SeekIsReported(s: State)
    requires s.server == Receiving(CMD_WRITE, false)
    ensures forall ok :: Step(Step(s, ServerSeekFails), ServerReports(ok)).down == s.down + [Own(RSP_ERR)]
  {
  }

  lemma StartsInStep()
    ensures InStep(INIT) && INIT.client.Idle?
  {
  }

  /**
    If lseek fails after the permission of `write -offset=N` was given, the error is answered at
    once and the stream is never read. However the client and the server go on, with the server
    taking the packets of the stream for commands: when the client first returns to its main loop,
    packets of the stream or the errors they caused are still under way. Once the main loop has
    drained those errors the two sides may be at a boundary again.
  */
  lemma SeekFailureStrands(acts: seq<Action>, more: seq<Action>)
    requires !Upset(INIT, acts) && Run(INIT, acts).server == Receiving(CMD_WRITE, false)
    requires Busy(Step(Run(INIT, acts), ServerSeekFails), more)
    ensures var s := Step(Run(INIT, acts), ServerSeekFails);
      && (forall ok :: Step(s, ServerReports(ok)).down == Run(INIT, acts).down + [Own(RSP_ERR)])
      && (Run(s, more).client.Idle? ==> !AtBoundary(Run(s, more)))
  {
    hide Run, Ahead, AtBoundary, InStep;
    StartsInStep();
    RunsStayInStep(INIT, acts);
    SeekIsLost(Run(INIT, acts));
    SeekIsReported(Run(INIT, acts));
    FirstReturn(Step(Run(INIT, acts), ServerSeekFails), more);
  }

  /**
    A stray answer in front of the reply: from any boundary with an empty queue, whatever plain
    command the client sends, a late or misdelivered line that arrives first is taken for the
    reply, OK or error as the line has it, and the client is back before the server has even read
    the command.
  */
  lemma StrayComesFirst(s: State, cmd: byte, line: Action)
    requires s.client.Idle? && AtBoundary(s) && s.down == []
    requires ClientCommand(cmd) && !Fetches(cmd) && !Stores(cmd)
    requires line.ServerMisdelivers? || (line.ServerLate? && s.late > 0)
    ensures var t := Step(Step(s, ClientSends(cmd)), line);
      && |t.down| == 1 && Code(t.down[0]) == (if line.ok then RSP_OK else RSP_ERR)
      && var s' := Step(t, ClientReceives);
      s'.client.Idle? && s'.up == [cmd] && !AtBoundary(s')
  {
  }

  /** Where a late line comes from: the sender is told that its request failed, yet the request is open. */
  lemma UnannouncedStaysOpen(s: State)
    requires InStep(s) && s.server == Dispatching(CMD_TRANSFER_REQ)
    ensures var s' := Step(s, ServerUnannounced);
      InStep(s') && !s'.owed && s'.late == s.late + 1 && OwnCodes(s'.down) == OwnCodes(s.down) + [RSP_ERR]
  {
    ServerKeepsStep(s, ServerUnannounced);
    OwnAppend(s.down, Own(RSP_ERR));
  }
}
