/** Sessions do not get stuck: in every world of every run a session that is not over
    can move, and one that streams can be ended (agent.go, agentSession). */
module TaskEndings {
  import opened Wrappers
  import opened AgentWire
  import opened TaskProtocol
  import opened TaskSafety
  import opened TaskAudit
  import opened TaskRouting

  const QUIET := Telling([], Written, 1, true)

  ghost predicate CanMove(w: World, s: nat, step: SessionStep) {
    !step.Open? && step.s == s && SessionEnabled(w, step)
  }

  /** Whatever hub, agent and network have done, a session that is not over has a step. */
  lemma EverySessionCanMove(trace: seq<World>, i: nat, s: nat) returns (step: SessionStep)
    requires IsRun(trace) && i < |trace| && IsSession(trace[i], s) && !trace[i].sessions[s].phase.Closed?
    ensures CanMove(trace[i], s, step)
  {
    RunKeeps(trace, i);
    var x := trace[i].sessions[s];
    assert SessionFits(x, s, trace[i].conns);
    match x.phase
    case Looking => step := Lookup(s);
    case Found(c) => step := Claim(s);
    case Claimed(c) => step := SendExec(s, Broken(false));
    case Streaming(c) => step := Interrupt(s, Cancelled);
    case Finishing(c, code) => step := Release(s);
    case Forwarding(c, code) => step := Finish(s);
    case Unwinding(c, stage, why) => step := Unwind(s, Broken(false));
  }

  /** How a session ends before it dispatches: offline exactly if no connection is
      mapped for its server, busy exactly if another session holds the slot. */
  lemma RefusalTells(w: World, s: nat, step: SessionStep)
    requires CanMove(w, s, step) && (step.Lookup? || step.Claim?)
    ensures var x, x' := w.sessions[s], SessionApply(w, step).sessions[s];
            if step.Lookup? then
              (x'.phase == Closed(Offline) <==> x.server !in w.hub) && (x'.phase.Found? <==> x.server in w.hub)
            else
              (x'.phase == Closed(Busy) <==> w.conns[x.phase.conn].slot.Some?)
              && (x'.phase == Claimed(x.phase.conn) <==> w.conns[x.phase.conn].slot.None?)
  {
  }

  // An ending shows and records the session's message last, if there is one and its
  // write succeeds. A forwarded exit and a failed write come with no message.
  ghost predicate Announced(r: Record, r': Record, why: Outcome, told: Telling) {
    if !why.AgentExit? && !why.WriteFailed? && told.text != [] && told.writing.Written?
    then r'.shown == r.shown + [told.text] && r'.notice == told.text
    else r'.shown == r.shown && r'.notice == r.notice
  }

  lemma TellAnnounces(r: Record, why: Outcome, told: Telling)
    requires !why.WriteFailed?
    ensures Announced(r, Tell(r, why, told), why, told)
  {
  }

  lemma EarlyAnnounces(w: World, s: nat, step: SessionStep, r: Record, told: Telling)
    requires CanMove(w, s, step) && (step.Refuse? || step.Lookup? || step.Claim? || step.SendExec? || step.Interrupt?)
    requires Ending(SessionApply(w, step).sessions[s].phase).Some?
    ensures var p := SessionApply(w, step).sessions[s].phase;
            Announced(r, RecordAfter(r, w.sessions[s], p, step, told), Ending(p).value, told)
  {
    TellAnnounces(r, Ending(SessionApply(w, step).sessions[s].phase).value, told);
  }

  lemma ReceiveAnnounces(x: Session, s: JobId, writing: Writing, r: Record, told: Telling)
    requires SessionLocal(x, s) && x.phase.Streaming? && x.events != []
    requires writing.Partial? ==> writing.n <= |Bytes(x.events[0])|
    requires Ending(AfterReceive(x, writing).phase).Some?
    ensures Announced(r, RecordFrame(r, x, x.events[0], writing, told), Ending(AfterReceive(x, writing).phase).value, told)
  {
    TakeNext(x, s);
  }

  lemma LateAnnounces(w: World, s: nat, step: SessionStep, r: Record, told: Telling)
    requires CanMove(w, s, step) && (step.Release? || step.Finish?)
    requires Ending(SessionApply(w, step).sessions[s].phase).Some?
    ensures var p := SessionApply(w, step).sessions[s].phase;
            Announced(r, RecordAfter(r, w.sessions[s], p, step, told), Ending(p).value, told)
  {
    TellAnnounces(r, Ending(SessionApply(w, step).sessions[s].phase).value, told);
  }

  /** In every run a session that ends says so: its own message, if there is one and
      the write succeeds, is shown and recorded last. */
  lemma EndingsAreAnnounced(trace: seq<World>, i: nat, s: nat, step: SessionStep, told: Telling)
    requires IsRun(trace) && i < |trace| && CanMove(trace[i], s, step)
    requires Ending(trace[i].sessions[s].phase).None? && Ending(SessionApply(trace[i], step).sessions[s].phase).Some?
    ensures s < |trace[i].records| && s < |RecordsAfter(trace[i], step, told)|
    ensures Announced(trace[i].records[s], RecordsAfter(trace[i], step, told)[s],
                      Ending(SessionApply(trace[i], step).sessions[s].phase).value, told)
  {
    RunKeeps(trace, i);
    RunRecordFits(trace, i, s);
    assert SessionFits(trace[i].sessions[s], s, trace[i].conns);
    OnlyOneRecord(trace[i], step, told);
    var r := trace[i].records[s];
    if step.Receive? {
      ReceiveAnnounces(trace[i].sessions[s], s, step.writing, r, told);
    } else if step.Release? || step.Finish? {
      LateAnnounces(trace[i], s, step, r, told);
    } else {
      EarlyAnnounces(trace[i], s, step, r, told);
    }
  }

  ghost function Last(trace: seq<World>): World
    requires trace != []
  {
    trace[|trace| - 1]
  }

  lemma Go(trace: seq<World>, step: SessionStep) returns (next: seq<World>)
    requires IsRun(trace) && SessionEnabled(Last(trace), step)
    ensures IsRun(next) && trace <= next && |next| == |trace| + 1
    ensures Last(next) == Apply(Last(trace), Ssh(step, QUIET))
  {
    next := trace + [Apply(Last(trace), Ssh(step, QUIET))];
    forall i | 0 < i < |next| ensures StepAt(next, i) {
      if i < |trace| {
        assert StepAt(trace, i);
        assert next[i - 1] == trace[i - 1] && next[i] == trace[i];
      } else {
        assert Enabled(next[i - 1], Ssh(step, QUIET));
      }
    }
  }

  // One stage of the clean-up, with a cancel that does not get through.
  lemma NextStage(trace: seq<World>, s: nat) returns (next: seq<World>)
    requires IsRun(trace) && IsSession(Last(trace), s) && Last(trace).sessions[s].phase.Unwinding?
    ensures IsRun(next) && trace <= next && IsSession(Last(next), s)
    ensures Last(next).sessions[s].phase == AfterUnwind(Last(trace).sessions[s]).phase
  {
    RunKeeps(trace, |trace| - 1);
    assert SessionFits(Last(trace).sessions[s], s, Last(trace).conns);
    next := Go(trace, Unwind(s, Broken(false)));
  }

  lemma CleanUp(trace: seq<World>, s: nat) returns (next: seq<World>)
    requires IsRun(trace) && IsSession(Last(trace), s)
    requires Last(trace).sessions[s].phase.Unwinding? && Last(trace).sessions[s].phase.stage == 0
    ensures IsRun(next) && trace <= next && IsSession(Last(next), s)
    ensures Last(next).sessions[s].phase == Closed(Last(trace).sessions[s].phase.why)
  {
    next := NextStage(trace, s);
    next := NextStage(next, s);
    next := NextStage(next, s);
  }

  // A streaming session may end for this reason now.
  predicate MayEnd(w: World, x: Session, why: Outcome) {
    && x.phase.Streaming? && IsConn(w, x.phase.conn)
    && (why.Cancelled? || why.TimedOut? || (why.Disconnected? && w.conns[x.phase.conn].reader.Stopped?))
  }

  lemma Interrupted(trace: seq<World>, s: nat, why: Outcome) returns (next: seq<World>)
    requires IsRun(trace) && IsSession(Last(trace), s) && MayEnd(Last(trace), Last(trace).sessions[s], why)
    ensures IsRun(next) && trace <= next && IsSession(Last(next), s)
    ensures Last(next).sessions[s].phase == Unwinding(Last(trace).sessions[s].phase.conn, 0, why)
  {
    RunRoutes(trace, |trace| - 1);
    next := Go(trace, Interrupt(s, why));
  }

  /** A session that streams can be cancelled and can time out, and it can see the end
      of its connection once the hub's reader has stopped: the run goes on to a world
      in which it is over for that reason, and has recorded 130, 124 or 125. */
  lemma StreamingCanEnd(trace: seq<World>, s: nat, why: Outcome) returns (next: seq<World>)
    requires IsRun(trace) && IsSession(Last(trace), s) && MayEnd(Last(trace), Last(trace).sessions[s], why)
    ensures IsRun(next) && trace <= next && IsSession(Last(next), s) && s < |Last(next).records|
    ensures Last(next).sessions[s].phase == Closed(why)
    ensures Last(next).records[s].audit.exit == Some(if why.Cancelled? then 130 else if why.TimedOut? then 124 else 125)
  {
    next := Interrupted(trace, s, why);
    next := CleanUp(next, s);
    EndingIsRecorded(next, |next| - 1, s);
  }
}
