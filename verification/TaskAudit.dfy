/** What the audit records of agent sessions say, over every run of the task
    protocol: a session writes the SSH channel first and audits only a write that
    succeeded (agent.go, agentSession; audit.go). */
module TaskAudit {
  import opened Wrappers
  import opened AgentWire
  import opened AgentPeers
  import opened AgentClients
  import opened TaskProtocol
  import opened TaskSafety
  import Audit

  // The bytes an SSH client sees, whichever stream they arrive on.
  function Plain(s: seq<OutByte>): seq<Byte> {
    seq(|s|, i requires 0 <= i < |s| => s[i].byte)
  }

  lemma PlainConcat(a: seq<OutByte>, b: seq<OutByte>)
    ensures Plain(a + b) == Plain(a) + Plain(b)
  {
  }

  lemma PlainBytes(m: Message)
    requires m.Output?
    ensures Plain(Bytes(m)) == m.data
  {
  }

  // Everything a session has written whole: the agent's frames, then its own message.
  function WrittenWhole(x: Session, r: Record): seq<Byte>
    requires r.partial <= |x.written|
  {
    Plain(x.written[..|x.written| - r.partial]) + r.notice
  }

  // The session may still write frames.
  predicate MayShow(p: Phase) {
    p.Looking? || p.Found? || p.Claimed? || p.Streaming? || p.Finishing? || p.Forwarding?
  }

  ghost predicate Captures(r: Record) {
    && r.audit.event == Audit.ExecEvent
    && r.audit.output == Audit.TakeAll(r.shown)
    && forall p | p in r.shown :: p != []
  }

  ghost predicate RecordFits(r: Record, x: Session) {
    && Captures(r)
    && r.audit.command == x.command
    && r.partial <= |x.written|
    && Audit.Concat(r.shown) == WrittenWhole(x, r)
    && (MayShow(x.phase) || AgentCode(x.phase).Some? ==> r.partial == 0 && r.notice == [])
    && (x.phase.Looking? || x.phase.Found? || x.phase.Claimed? ==> x.written == [])
    && ExitNoted(r.audit.exit, x.phase)
    && (x.phase.Unwinding? ==> !x.phase.why.AgentExit?)
  }

  // How a session that is over, or is cleaning up, ended.
  function Ending(p: Phase): Option<Outcome> {
    match p
    case Unwinding(_, _, why) => Some(why)
    case Closed(why) => Some(why)
    case _ => None
  }

  // The exit status is noted with the ending, unless a write to the channel failed.
  predicate ExitNoted(exit: Option<int>, p: Phase) {
    exit == match Ending(p)
            case None => None
            case Some(why) => if why.WriteFailed? then None else Some(Code(why) % Audit.WORD)
  }

  ghost predicate RecordsFit(xs: seq<Session>, rs: seq<Record>) {
    |rs| == |xs| && forall s | 0 <= s < |xs| :: RecordFits(rs[s], xs[s])
  }

  // ---- one write ----

  lemma ShowCaptures(r: Record, p: seq<Byte>)
    requires Captures(r) && p != []
    ensures Captures(Show(r, p))
    ensures Audit.Concat(Show(r, p).shown) == Audit.Concat(r.shown) + p
    ensures Show(r, p).audit.exit == r.audit.exit && Show(r, p).audit.command == r.audit.command
  {
    var shown := r.shown + [p];
    assert shown[..|shown| - 1] == r.shown;
  }

  lemma NoteExitKeeps(a: Audit.State, code: int, told: Telling)
    ensures var a' := NoteExit(a, code, told);
            && a'.event == a.event && a'.output == a.output && a'.command == a.command
            && a'.exit == Some(code % Audit.WORD)
  {
    Audit.WordRoundTrip(code % Audit.WORD, []);
    assert Audit.WordBytes(code % Audit.WORD) + [] == Audit.WordBytes(code % Audit.WORD);
  }

  lemma SayCaptures(r: Record, text: seq<Byte>, writing: Writing)
    requires Captures(r) && r.notice == []
    ensures var r' := Say(r, text, writing);
            && Captures(r') && r'.partial == r.partial && r'.audit.command == r.audit.command
            && Audit.Concat(r'.shown) == Audit.Concat(r.shown) + r'.notice
            && (text == [] ==> r'.notice == [])
  {
    if text != [] && writing.Written? {
      ShowCaptures(r, text);
    } else {
      assert Audit.Concat(r.shown) + [] == Audit.Concat(r.shown);
    }
  }

  // The message, then the code.
  lemma TellCaptures(r: Record, why: Outcome, told: Telling)
    requires Captures(r) && r.notice == []
    ensures var r' := Tell(r, why, told);
            && Captures(r') && r'.partial == r.partial && r'.audit.command == r.audit.command
            && Audit.Concat(r'.shown) == Audit.Concat(r.shown) + r'.notice
            && r'.audit.exit == Some(Code(why) % Audit.WORD)
            && (why.AgentExit? ==> r'.notice == [])
  {
    var text := if why.AgentExit? then [] else told.text;
    SayCaptures(r, text, told.writing);
    NoteExitKeeps(Say(r, text, told.writing).audit, Code(why), told);
  }

  // A session that ends with its own message.
  lemma TellFits(r: Record, x: Session, x': Session, why: Outcome, told: Telling)
    requires RecordFits(r, x) && MayShow(x.phase)
    requires x'.written == x.written && x'.command == x.command
    requires !MayShow(x'.phase)
    requires Ending(x'.phase) == Some(why) && !why.WriteFailed? && (why.AgentExit? ==> x'.phase.Closed?)
    requires AgentCode(x'.phase).Some? <==> why.AgentExit?
    ensures RecordFits(Tell(r, why, told), x')
  {
    TellCaptures(r, why, told);
    assert WrittenWhole(x', Tell(r, why, told)) == WrittenWhole(x, r) + Tell(r, why, told).notice;
  }

  // A session that moves on without writing.
  lemma QuietFits(r: Record, x: Session, x': Session)
    requires RecordFits(r, x)
    requires x'.written == x.written && x'.command == x.command
    requires MayShow(x'.phase) ==> MayShow(x.phase)
    requires x'.phase.Looking? || x'.phase.Found? || x'.phase.Claimed? ==> x.phase.Looking? || x.phase.Found? || x.phase.Claimed?
    requires Ending(x'.phase).Some? ==> x.phase.Unwinding? && Ending(x.phase) == Ending(x'.phase)
    ensures RecordFits(r, x')
  {
  }

  // ---- frames ----

  lemma FrameWritten(r: Record, x: Session, m: Message, x': Session)
    requires RecordFits(r, x) && x.phase.Streaming? && m.Output? && m.data != []
    requires x'.written == x.written + Bytes(m) && x'.command == x.command && x'.phase == x.phase
    ensures RecordFits(Show(r, m.data), x')
  {
    ShowCaptures(r, m.data);
    PlainConcat(x.written, Bytes(m));
    PlainBytes(m);
    assert x.written[..|x.written|] == x.written && x'.written[..|x'.written|] == x'.written;
  }

  lemma FrameBroken(r: Record, x: Session, m: Message, n: nat, x': Session)
    requires RecordFits(r, x) && x.phase.Streaming? && m.Output? && n <= |Bytes(m)|
    requires x'.written == x.written + Bytes(m)[..n] && x'.command == x.command
    requires x'.phase.Unwinding? && x'.phase.why.WriteFailed?
    ensures RecordFits(r.(partial := n), x')
  {
    assert x'.written[..|x'.written| - n] == x.written;
    assert x.written[..|x.written|] == x.written;
  }

  lemma ReceiveRecordFits(r: Record, x: Session, s: JobId, writing: Writing, told: Telling)
    requires RecordFits(r, x) && SessionLocal(x, s) && x.phase.Streaming? && x.events != []
    requires writing.Partial? ==> writing.n <= |Bytes(x.events[0])|
    ensures RecordFits(RecordFrame(r, x, x.events[0], writing, told), AfterReceive(x, writing))
  {
    var m, x' := x.events[0], AfterReceive(x, writing);
    TakeNext(x, s);
    if m.Exit? {
      QuietFits(r, x, x');
    } else {
      NextIsNotEmpty(x, s);
      match writing
      case Written => FrameWritten(r, x, m, x');
      case Partial(n) => FrameBroken(r, x, m, n, x');
    }
  }

  lemma NextIsNotEmpty(x: Session, s: JobId)
    requires SessionLocal(x, s) && x.events != [] && x.events[0].Output?
    ensures x.events[0].data != []
  {
    assert (x.taken + x.events)[|x.taken|] == x.events[0];
    assert x.emitted[|x.taken|] == x.events[0];
  }

  // ---- steps ----

  lemma OpenRecordFits(payload: seq<Byte>, srv: ServerId, told: Telling)
    requires Commands(payload)
    ensures RecordFits(NewRecord(payload, told), NewSession(srv, Audit.ParseString(payload).text))
  {
    var r := NewRecord(payload, told);
    assert r.audit.output == Audit.NOTHING;
  }

  lemma EarlyStepFits(w: World, step: SessionStep, told: Telling, r: Record)
    requires SessionEnabled(w, step) && !step.Open? && RecordFits(r, w.sessions[step.s])
    requires step.Refuse? || step.Lookup? || step.Claim? || step.SendExec? || step.Interrupt?
    ensures var x' := SessionApply(w, step).sessions[step.s];
            RecordFits(RecordAfter(r, w.sessions[step.s], x'.phase, step, told), x')
  {
    var x, x' := w.sessions[step.s], SessionApply(w, step).sessions[step.s];
    match step
    case Refuse(_, why) => TellFits(r, x, x', why, told);
    case Lookup(_) =>
      if x'.phase.Closed? { TellFits(r, x, x', Offline, told); } else { QuietFits(r, x, x'); }
    case Claim(_) =>
      if x'.phase.Closed? { TellFits(r, x, x', Busy, told); } else { QuietFits(r, x, x'); }
    case SendExec(_, sending) =>
      if sending.Sent? { QuietFits(r, x, x'); } else { TellFits(r, x, x', NotDispatched, told); }
    case Interrupt(_, why) => TellFits(r, x, x', why, told);
  }

  lemma ReceiveStepFits(w: World, s: nat, writing: Writing, told: Telling, r: Record)
    requires Inv(w) && SessionEnabled(w, Receive(s, writing)) && RecordFits(r, w.sessions[s])
    ensures var x' := SessionApply(w, Receive(s, writing)).sessions[s];
            RecordFits(RecordAfter(r, w.sessions[s], x'.phase, Receive(s, writing), told), x')
  {
    assert SessionFits(w.sessions[s], s, w.conns);
    ReceiveRecordFits(r, w.sessions[s], s, writing, told);
  }

  lemma LateStepFits(w: World, step: SessionStep, told: Telling, r: Record)
    requires SessionEnabled(w, step) && !step.Open? && RecordFits(r, w.sessions[step.s])
    requires step.Release? || step.Finish? || step.Unwind?
    ensures var x' := SessionApply(w, step).sessions[step.s];
            RecordFits(RecordAfter(r, w.sessions[step.s], x'.phase, step, told), x')
  {
    var x, x' := w.sessions[step.s], SessionApply(w, step).sessions[step.s];
    match step
    case Release(_) => QuietFits(r, x, x');
    case Finish(_) => TellFits(r, x, x', x'.phase.why, told);
    case Unwind(_, _) => QuietFits(r, x, x');
  }

  lemma MoveFits(w: World, step: SessionStep, told: Telling, r: Record)
    requires Inv(w) && SessionEnabled(w, step) && !step.Open? && RecordFits(r, w.sessions[step.s])
    ensures var x' := SessionApply(w, step).sessions[step.s];
            RecordFits(RecordAfter(r, w.sessions[step.s], x'.phase, step, told), x')
  {
    if step.Receive? {
      ReceiveStepFits(w, step.s, step.writing, told, r);
    } else if step.Release? || step.Finish? || step.Unwind? {
      LateStepFits(w, step, told, r);
    } else {
      EarlyStepFits(w, step, told, r);
    }
  }

  // One record and its session replaced, or one of each added.
  lemma RecordReplaced(xs: seq<Session>, rs: seq<Record>, s: nat, x: Session, r: Record)
    requires RecordsFit(xs, rs) && s < |xs| && RecordFits(r, x)
    ensures RecordsFit(xs[s := x], rs[s := r])
  {
  }

  lemma RecordAdded(xs: seq<Session>, rs: seq<Record>, x: Session, r: Record)
    requires RecordsFit(xs, rs) && RecordFits(r, x)
    ensures RecordsFit(xs + [x], rs + [r])
  {
  }

  lemma OpenStepFits(w: World, srv: ServerId, payload: seq<Byte>, told: Telling)
    requires RecordsFit(w.sessions, w.records) && Commands(payload)
    ensures RecordsFit(SessionApply(w, Open(srv, payload)).sessions, RecordsAfter(w, Open(srv, payload), told))
  {
    OpenRecordFits(payload, srv, told);
    RecordAdded(w.sessions, w.records, NewSession(srv, Audit.ParseString(payload).text), NewRecord(payload, told));
  }

  lemma OnlyOneSession(w: World, step: SessionStep)
    requires SessionEnabled(w, step) && !step.Open?
    ensures var x' := SessionApply(w, step).sessions[step.s];
            SessionApply(w, step).sessions == w.sessions[step.s := x']
  {
  }

  lemma OnlyOneRecord(w: World, step: SessionStep, told: Telling)
    requires SessionEnabled(w, step) && !step.Open? && step.s < |w.records|
    ensures var p := SessionApply(w, step).sessions[step.s].phase;
            RecordsAfter(w, step, told)
            == w.records[step.s := RecordAfter(w.records[step.s], w.sessions[step.s], p, step, told)]
  {
  }

  lemma MoveStepFits(w: World, step: SessionStep, told: Telling)
    requires Inv(w) && RecordsFit(w.sessions, w.records) && SessionEnabled(w, step) && !step.Open?
    ensures RecordsFit(SessionApply(w, step).sessions, RecordsAfter(w, step, told))
  {
    var s := step.s;
    assert RecordFits(w.records[s], w.sessions[s]);
    MoveFits(w, step, told, w.records[s]);
    OnlyOneSession(w, step);
    OnlyOneRecord(w, step, told);
    var x' := SessionApply(w, step).sessions[s];
    RecordReplaced(w.sessions, w.records, s, x', RecordAfter(w.records[s], w.sessions[s], x'.phase, step, told));
  }

  lemma SessionRecordsFit(w: World, step: SessionStep, told: Telling)
    requires Inv(w) && RecordsFit(w.sessions, w.records) && SessionEnabled(w, step)
    ensures RecordsFit(SessionApply(w, step).sessions, RecordsAfter(w, step, told))
  {
    if step.Open? {
      OpenStepFits(w, step.srv, step.payload, told);
    } else {
      MoveStepFits(w, step, told);
    }
  }

  // Hub and agent neither write to an SSH channel nor move a session.
  lemma OthersWriteNothing(w: World, step: Step)
    requires Enabled(w, step) && !step.Ssh?
    ensures var w' := Apply(w, step);
            && w'.records == w.records && |w'.sessions| == |w.sessions|
            && forall s | 0 <= s < |w.sessions| ::
                 && w'.sessions[s].written == w.sessions[s].written && w'.sessions[s].command == w.sessions[s].command
                 && w'.sessions[s].phase == w.sessions[s].phase
  {
  }

  lemma OtherRecordsFit(xs: seq<Session>, rs: seq<Record>, xs': seq<Session>)
    requires RecordsFit(xs, rs) && |xs'| == |xs|
    requires forall s | 0 <= s < |xs| ::
               xs'[s].written == xs[s].written && xs'[s].command == xs[s].command && xs'[s].phase == xs[s].phase
    ensures RecordsFit(xs', rs)
  {
    forall s | 0 <= s < |xs'| ensures RecordFits(rs[s], xs'[s]) {
      assert RecordFits(rs[s], xs[s]);
    }
  }

  lemma StepRecordsFit(w: World, step: Step)
    requires Inv(w) && RecordsFit(w.sessions, w.records) && Enabled(w, step)
    ensures RecordsFit(Apply(w, step).sessions, Apply(w, step).records)
  {
    if step.Ssh? {
      SessionRecordsFit(w, step.ssh, step.told);
    } else {
      OthersWriteNothing(w, step);
      OtherRecordsFit(w.sessions, w.records, Apply(w, step).sessions);
    }
  }

  lemma NextRecordsFit(w: World, w': World)
    requires Inv(w) && RecordsFit(w.sessions, w.records) && Reaches(w, w')
    ensures RecordsFit(w'.sessions, w'.records)
  {
    var step :| Enabled(w, step) && w' == Apply(w, step);
    StepRecordsFit(w, step);
  }

  lemma {:induction false} RunRecordsFit(trace: seq<World>, i: nat)
    requires IsRun(trace) && i < |trace|
    ensures RecordsFit(trace[i].sessions, trace[i].records)
  {
    if i == 0 {
    } else {
      RunRecordsFit(trace, i - 1);
      RunKeeps(trace, i - 1);
      assert StepAt(trace, i);
      NextRecordsFit(trace[i - 1], trace[i]);
    }
  }

  lemma RunRecordFits(trace: seq<World>, i: nat, s: nat)
    requires IsRun(trace) && i < |trace| && IsSession(trace[i], s)
    ensures s < |trace[i].records| && RecordFits(trace[i].records[s], trace[i].sessions[s])
  {
    RunRecordsFit(trace, i);
  }

  // ---- results ----

  lemma ExactFlag(r: Record)
    requires Captures(r)
    ensures r.audit.output.bytes == Audit.Prefix(Audit.Concat(r.shown))
    ensures r.audit.output.cut <==> |Audit.Concat(r.shown)| > Audit.LIMIT
  {
    Audit.CaptureIsPrefix(r.shown);
    Audit.FlagIsExactIff(r.shown);
    assert r.shown == [] || r.shown[|r.shown| - 1] in r.shown;
  }

  /** In every world of every run a session's record holds the first 64 KiB of what
      was written whole to the SSH channel, agent output and own message, and the
      flag is set exactly when there was more. A frame written in part is not in it. */
  lemma RecordIsWhatWasWritten(trace: seq<World>, i: nat, s: nat)
    requires IsRun(trace) && i < |trace| && IsSession(trace[i], s)
    ensures s < |trace[i].records|
    ensures var x, r := trace[i].sessions[s], trace[i].records[s];
            && r.partial <= |x.written|
            && r.audit.output.bytes == Audit.Prefix(WrittenWhole(x, r))
            && (r.audit.output.cut <==> |WrittenWhole(x, r)| > Audit.LIMIT)
            && r.audit.event == Audit.ExecEvent && r.audit.command == x.command
  {
    RunRecordFits(trace, i, s);
    ExactFlag(trace[i].records[s]);
  }

  /** The exit status a session has recorded once it is over: the agent's code in 32
      bits if that was forwarded, 130 if the task was cancelled, 124 if it timed out,
      none if a write to the SSH channel failed, and 125 for every other ending. */
  lemma EndingIsRecorded(trace: seq<World>, i: nat, s: nat)
    requires IsRun(trace) && i < |trace| && IsSession(trace[i], s) && trace[i].sessions[s].phase.Closed?
    ensures s < |trace[i].records|
    ensures trace[i].records[s].audit.exit ==
            match trace[i].sessions[s].phase.why
            case AgentExit(code) => Some(code % 0x1_0000_0000)
            case Cancelled => Some(130)
            case TimedOut => Some(124)
            case WriteFailed => None
            case _ => Some(125)
  {
    RunRecordFits(trace, i, s);
  }

  /** What a recorded exit status tells, at any moment: 130 that the task was cancelled,
      124 that it timed out, or that the agent's own code is that number. */
  lemma RecordedCodeTells(trace: seq<World>, i: nat, s: nat, status: int)
    requires IsRun(trace) && i < |trace| && IsSession(trace[i], s)
    requires s < |trace[i].records| && trace[i].records[s].audit.exit == Some(status)
    ensures Ending(trace[i].sessions[s].phase).Some?
    ensures var why := Ending(trace[i].sessions[s].phase).value;
            && !why.WriteFailed?
            && (status == 130 ==> why.Cancelled? || (why.AgentExit? && why.code % 0x1_0000_0000 == 130))
            && (status == 124 ==> why.TimedOut? || (why.AgentExit? && why.code % 0x1_0000_0000 == 124))
            && (status != 124 && status != 125 && status != 130 ==> why.AgentExit? && why.code % 0x1_0000_0000 == status)
  {
    RunRecordFits(trace, i, s);
  }

  /** Once the agent's exit code is forwarded, the record holds that code and the
      first 64 KiB of everything the agent emitted for the job. */
  lemma CompletedRecordIsExact(trace: seq<World>, i: nat, s: nat, code: int)
    requires IsRun(trace) && i < |trace| && IsSession(trace[i], s)
    requires trace[i].sessions[s].phase == Closed(AgentExit(code))
    ensures s < |trace[i].records|
    ensures var all, a := Plain(AllBytes(trace[i].sessions[s].emitted)), trace[i].records[s].audit;
            && a.output.bytes == Audit.Prefix(all)
            && (a.output.cut <==> |all| > Audit.LIMIT)
            && a.exit == Some(code % Audit.WORD)
  {
    RunRecordFits(trace, i, s);
    OutputIsFaithful(trace, i, s);
    AllWasWritten(trace[i].records[s], trace[i].sessions[s], code);
    ExactFlag(trace[i].records[s]);
  }

  lemma AllWasWritten(r: Record, x: Session, code: int)
    requires RecordFits(r, x) && x.phase == Closed(AgentExit(code)) && x.written == AllBytes(x.emitted)
    ensures Audit.Concat(r.shown) == Plain(AllBytes(x.emitted)) && r.audit.exit == Some(code % Audit.WORD)
  {
    assert x.written[..|x.written|] == x.written;
    assert Plain(x.written) + [] == Plain(x.written);
  }
}
