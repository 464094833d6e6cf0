/** Runs of the task protocol: one in which a command completes, and one in which the
    agent refuses a command that the server accepted. */
module TaskExample {
  import opened Wrappers
  import opened AgentWire
  import opened AgentPeers
  import opened AgentClients
  import opened JsonText
  import opened TaskProtocol
  import Audit

  const LINKED := NewConn(0).(admitted := true, server := 1)
  const RUNNING := LINKED.(slot := Some(0), job := Some(0), tasks := {0}, era := Some(0))
  const FOUND := NewSession(1, [120]).(phase := Found(0))
  const STREAMING := FOUND.(phase := Streaming(0), conn := Some(0), runs := 1)
  const HELLO := Output(0, Stdout, [104])
  const PRINTED := STREAMING.(emitted := [HELLO])
  const SHOWN := PRINTED.(taken := [HELLO], written := Bytes(HELLO), total := 1)
  const EXITED := SHOWN.(emitted := [HELLO, Exit(0, 7)])
  const DONE := EXITED.(taken := [HELLO, Exit(0, 7)])
  const IDLE := RUNNING.(job := None, tasks := {})

  // The payload of an exec request for a command of one byte, and its records.
  const PAYLOAD: seq<Byte> := [0, 0, 0, 1, 120]
  const TOLD := Telling([], Written, 1, true)
  const FIRST := NewRecord(PAYLOAD, TOLD)
  const SECOND := Show(FIRST, [104])
  const LAST := Tell(SECOND, AgentExit(7), TOLD)

  function One(k: Conn, x: Session, r: Record): World {
    World([k], [x], map[1 := 0], [r])
  }

  // The worlds up to the dispatch of a command.
  function Opening(payload: seq<Byte>, n: nat): World
    requires n <= 6 && Commands(payload)
  {
    var command := Audit.ParseString(payload).text;
    var x, r := NewSession(1, command), NewRecord(payload, TOLD);
    var claimed := x.(phase := Claimed(0), conn := Some(0));
    match n
    case 0 => INIT
    case 1 => World([NewConn(0)], [], map[], [])
    case 2 => World([LINKED], [], map[1 := 0], [])
    case 3 => One(LINKED, x, r)
    case 4 => One(LINKED, x.(phase := Found(0)), r)
    case 5 => One(LINKED.(slot := Some(0), era := Some(0)), claimed, r)
    case _ =>
      One(LINKED.(slot := Some(0), era := Some(0), down := [Exec(0, Coerce(command))]), claimed.(phase := Streaming(0)), r)
  }

  // A command from its SSH request to its exit code, world by world.
  function Script(n: nat): World
    requires n <= 17
  {
    Asked();
    match n
    case 0 => Opening(PAYLOAD, 0)
    case 1 => Opening(PAYLOAD, 1)
    case 2 => Opening(PAYLOAD, 2)
    case 3 => Opening(PAYLOAD, 3)
    case 4 => Opening(PAYLOAD, 4)
    case 5 => Opening(PAYLOAD, 5)
    case 6 => Opening(PAYLOAD, 6)
    case 7 => One(RUNNING, STREAMING, FIRST)
    case 8 => One(RUNNING.(up := [HELLO]), PRINTED, FIRST)
    case 9 => One(RUNNING.(reader := Passing(HELLO, 0)), PRINTED, FIRST)
    case 10 => One(RUNNING, PRINTED.(events := [HELLO]), FIRST)
    case 11 => One(RUNNING, SHOWN, SECOND)
    case 12 => One(IDLE.(up := [Exit(0, 7)]), EXITED, SECOND)
    case 13 => One(IDLE.(reader := Passing(Exit(0, 7), 0)), EXITED, SECOND)
    case 14 => One(IDLE, EXITED.(events := [Exit(0, 7)]), SECOND)
    case 15 => One(IDLE, DONE.(phase := Finishing(0, 7)), SECOND)
    case 16 => One(IDLE.(slot := None), DONE.(phase := Forwarding(0, 7)), SECOND)
    case _ => One(IDLE.(slot := None), DONE.(phase := Closed(AgentExit(7))), LAST)
  }

  lemma Single(m: Message)
    ensures [] + [m] == [m] && [m][1..] == []
  {
  }

  lemma NoBytesBefore(m: Message)
    ensures [] + Bytes(m) == Bytes(m)
  {
  }

  // Replacing the only connection, the only session and the only record.
  lemma OneChanges(k: Conn, x: Session, k': Conn, x': Session, r: Record, r': Record)
    ensures SetConn(One(k, x, r), 0, k') == One(k', x, r)
    ensures SetSession(One(k, x, r), 0, x') == One(k, x', r)
    ensures SetBoth(One(k, x, r), 0, k', 0, x') == One(k', x', r)
    ensures One(k, x, r).records[0 := r'] == [r']
  {
  }

  lemma Asked()
    ensures Commands(PAYLOAD) && Audit.ParseString(PAYLOAD).text == [120]
  {
    assert Audit.Word(PAYLOAD) == 1;
    assert PAYLOAD[4..5] == [120];
  }

  // One step of the opening, whatever the command.
  ghost predicate Opens(payload: seq<Byte>, n: nat, step: Step)
    requires n < 6 && Commands(payload)
  {
    Enabled(Opening(payload, n), step) && Opening(payload, n + 1) == Apply(Opening(payload, n), step)
  }

  lemma OpensConnected(payload: seq<Byte>)
    requires Commands(payload)
    ensures Opens(payload, 0, Agent(Dial(0))) && Opens(payload, 1, Hub(Admit(0, 1)))
    ensures Opens(payload, 2, Ssh(Open(1, payload), TOLD))
  {
  }

  lemma OpensFound(payload: seq<Byte>)
    requires Commands(payload)
    ensures Opens(payload, 3, Ssh(Lookup(0), TOLD)) && Opens(payload, 4, Ssh(Claim(0), TOLD))
  {
    var r := NewRecord(payload, TOLD);
    OneChanges(LINKED, Opening(payload, 3).sessions[0], LINKED, Opening(payload, 4).sessions[0], r, r);
    OneChanges(LINKED, Opening(payload, 4).sessions[0], Opening(payload, 5).conns[0], Opening(payload, 5).sessions[0], r, r);
  }

  lemma OpensDispatched(payload: seq<Byte>)
    requires Commands(payload)
    ensures Opens(payload, 5, Ssh(SendExec(0, Sent), TOLD))
  {
    var r := NewRecord(payload, TOLD);
    Single(Exec(0, Coerce(Audit.ParseString(payload).text)));
    OneChanges(Opening(payload, 5).conns[0], Opening(payload, 5).sessions[0],
               Opening(payload, 6).conns[0], Opening(payload, 6).sessions[0], r, r);
  }

  lemma OpeningReaches(payload: seq<Byte>, n: nat)
    requires n < 6 && Commands(payload)
    ensures Reaches(Opening(payload, n), Opening(payload, n + 1))
  {
    if n < 3 { OpensConnected(payload); }
    else if n < 5 { OpensFound(payload); }
    else { OpensDispatched(payload); }
  }

  /** Every command the server accepts can reach the agent; and if its arriving text is
      beyond the limit, the agent refuses it and stops reading. */
  lemma DispatchRun(payload: seq<Byte>) returns (trace: seq<World>)
    requires Commands(payload)
    ensures IsRun(trace) && |trace| == 7 && IsConn(trace[6], 0) && trace[6].conns[0].looping
    ensures var command := Audit.ParseString(payload).text;
            var k := trace[6].conns[0];
            && k.down == [Exec(0, Coerce(command))]
            && (ClientDecision(k.job, k.down[0]) == Abort(InvalidTask) <==> |Coerce(command)| > 65536)
            && (|Coerce(command)| > 65536 ==>
                  Enabled(trace[6], Agent(ClientRead(0))) && !Apply(trace[6], Agent(ClientRead(0))).conns[0].looping)
  {
    trace := seq(7, n requires 0 <= n < 7 => Opening(payload, n));
    forall i | 0 < i < |trace| ensures StepAt(trace, i) {
      OpeningReaches(payload, i - 1);
    }
    CoercedLength(Audit.ParseString(payload).text);
    assert trace[6] == Opening(payload, 6);
  }

  /** An exec request of 21846 bytes 0xFF: the server accepts it, the agent does not. */
  lemma AcceptedThenRefused() returns (trace: seq<World>)
    ensures IsRun(trace) && |trace| == 7 && IsConn(trace[6], 0) && trace[6].conns[0].looping && trace[6].conns[0].down != []
    ensures ClientDecision(trace[6].conns[0].job, trace[6].conns[0].down[0]) == Abort(InvalidTask)
  {
    var command := Repeat(0xFF, 21846);
    var payload := Audit.Marshal(command);
    Audit.ParseMarshal(command, []);
    assert payload + [] == payload;
    CoercionCanExceedTheLimit();
    trace := DispatchRun(payload);
  }

  ghost predicate Moves(n: nat, step: Step)
    requires n < 17
  {
    Enabled(Script(n), step) && Script(n + 1) == Apply(Script(n), step)
  }

  lemma Starts()
    ensures Moves(6, Agent(ClientRead(0)))
  {
    Asked();
    assert RuneLength([120]) == 1 && Invalid([120]) == Invalid([120][1..]);
    CoercedLength([120]);
    Single(Exec(0, [120]));
    assert {} + {0} == {0};
    OneChanges(Script(6).conns[0], Script(6).sessions[0], RUNNING, STREAMING, FIRST, FIRST);
  }

  lemma Prints()
    ensures Moves(7, Agent(TaskWrite(0, 0, Stdout, [104], Sent)))
  {
    Single(HELLO);
    OneChanges(RUNNING, STREAMING, Script(8).conns[0], PRINTED, FIRST, FIRST);
  }

  lemma Reads()
    ensures Moves(8, Hub(ReaderRead(0)))
  {
    Single(HELLO);
    OneChanges(Script(8).conns[0], PRINTED, Script(9).conns[0], PRINTED, FIRST, FIRST);
  }

  lemma Shows()
    ensures Moves(9, Hub(ReaderDeliver(0))) && Moves(10, Ssh(Receive(0, Written), TOLD))
  {
    Single(HELLO);
    NoBytesBefore(HELLO);
    assert |Bytes(HELLO)| == 1;
    OneChanges(Script(9).conns[0], PRINTED, RUNNING, Script(10).sessions[0], FIRST, FIRST);
    OneChanges(RUNNING, Script(10).sessions[0], RUNNING, SHOWN, FIRST, SECOND);
  }

  lemma Exits()
    ensures Moves(11, Agent(TaskExit(0, 0, 7, Sent)))
  {
    Single(Exit(0, 7));
    assert [HELLO] + [Exit(0, 7)] == [HELLO, Exit(0, 7)] && {0} - {0} == {};
    OneChanges(RUNNING, SHOWN, Script(12).conns[0], EXITED, SECOND, SECOND);
  }

  lemma ReadsTheExit()
    ensures Moves(12, Hub(ReaderRead(0)))
  {
    Single(Exit(0, 7));
    OneChanges(Script(12).conns[0], EXITED, Script(13).conns[0], EXITED, SECOND, SECOND);
  }

  lemma DeliversTheExit()
    ensures Moves(13, Hub(ReaderDeliver(0)))
  {
    Single(Exit(0, 7));
    OneChanges(Script(13).conns[0], EXITED, IDLE, Script(14).sessions[0], SECOND, SECOND);
  }

  lemma ReceivesTheExit()
    ensures Moves(14, Ssh(Receive(0, Written), TOLD))
  {
    Single(Exit(0, 7));
    assert [HELLO] + [Exit(0, 7)] == [HELLO, Exit(0, 7)];
    OneChanges(IDLE, Script(14).sessions[0], IDLE, Script(15).sessions[0], SECOND, SECOND);
  }

  lemma FreesTheSlot()
    ensures Moves(15, Ssh(Release(0), TOLD))
  {
    OneChanges(IDLE, Script(15).sessions[0], IDLE.(slot := None), Script(16).sessions[0], SECOND, SECOND);
  }

  lemma FinishOne(k: Conn, x: Session, r: Record, code: int, told: Telling)
    requires x.phase == Forwarding(0, code)
    ensures Enabled(One(k, x, r), Ssh(Finish(0), told))
    ensures Apply(One(k, x, r), Ssh(Finish(0), told))
            == One(k.(slot := SlotAfterRelease(k.slot, 0)), x.(phase := Closed(AgentExit(code))), Tell(r, AgentExit(code), told))
  {
  }

  lemma ForwardsTheCode()
    ensures Moves(16, Ssh(Finish(0), TOLD))
  {
    FinishOne(IDLE.(slot := None), DONE.(phase := Forwarding(0, 7)), SECOND, 7, TOLD);
  }

  lemma ScriptReaches(n: nat)
    requires n < 17
    ensures Reaches(Script(n), Script(n + 1))
  {
    if n < 6 { Asked(); OpeningReaches(PAYLOAD, n); }
    else if n < 7 { Starts(); }
    else if n < 8 { Prints(); }
    else if n < 9 { Reads(); }
    else if n < 11 { Shows(); }
    else if n < 12 { Exits(); }
    else if n < 13 { ReadsTheExit(); }
    else if n < 14 { DeliversTheExit(); }
    else if n < 15 { ReceivesTheExit(); }
    else if n < 16 { FreesTheSlot(); }
    else { ForwardsTheCode(); }
  }

  /** The protocol does complete commands: a run in which one prints a byte, exits
      with code 7, and the SSH client gets both. */
  lemma ACommandCompletes() returns (trace: seq<World>)
    ensures IsRun(trace) && |trace| == 18 && IsSession(trace[17], 0)
    ensures trace[17].sessions[0].phase == Closed(AgentExit(7)) && trace[17].sessions[0].written == Bytes(HELLO)
  {
    trace := seq(18, n requires 0 <= n < 18 => Script(n));
    forall i | 0 < i < |trace| ensures StepAt(trace, i) {
      ScriptReaches(i - 1);
    }
  }
}
