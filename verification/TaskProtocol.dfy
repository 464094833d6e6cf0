/** The agent task protocol as a transition system: any number of SSH sessions
    (agent.go, agentSession), the hub's frame reader per connection (agent.go,
    ServeHTTP) and agent processes that reconnect (internal/winagent/client.go,
    run and connect), joined by one FIFO link in each direction. Every lock
    acquisition, channel operation and frame transfer is one step; cancellation,
    time-outs, failing sends and closing connections may happen at any step. Each
    session also keeps its audit record, beside what it wrote to the SSH channel. */
module TaskProtocol {
  import opened Wrappers
  import opened AgentWire
  import opened AgentPeers
  import opened AgentClients
  import opened JsonText
  import Audit

  type AgentId = nat
  type ServerId = int

  // The hub's frame reader: waiting for a frame, holding a frame together with
  // the event channel it looked up for it, or gone.
  datatype Reader = Waiting | Passing(m: Message, job: JobId) | Stopped

  // One WebSocket connection, with the state both ends keep about it.
  datatype Conn = Conn(
    agent: AgentId,
    // server side
    server: ServerId,
    admitted: bool,         // placed in the hub's peer map
    serverOpen: bool,       // the server has not closed the connection
    done: bool,             // peer.done is closed
    slot: Option<JobId>,    // peer.jobID and peer.events
    reader: Reader,
    // links
    down: seq<Message>,     // server to agent
    up: seq<Message>,       // agent to server
    // agent side
    clientOpen: bool,       // the agent has not closed the connection
    looping: bool,          // connect is still reading
    ended: bool,            // connect has returned
    job: Option<JobId>,     // jobCancel and jobID
    tasks: set<JobId>,      // task goroutines that have not sent their exit
    // history: the last job that claimed the slot while the server end was open
    era: Option<JobId>)

  datatype Outcome =
    | Unavailable | Offline | Busy | NotDispatched | Cancelled | Disconnected | TimedOut | Oversize | WriteFailed
    | AgentExit(code: int)

  datatype Phase =
    | Looking                                     // exec request accepted
    | Found(conn: nat)                            // peer read from the hub map
    | Claimed(conn: nat)                          // slot taken, exec not yet sent
    | Streaming(conn: nat)
    | Finishing(conn: nat, code: int)             // exit received, slot still taken
    | Forwarding(conn: nat, code: int)            // slot freed, deferred clean-up pending
    | Unwinding(conn: nat, stage: nat, why: Outcome)  // deferred clean-up without an exit
    | Closed(why: Outcome)

  // One SSH exec session. Its index is its job identifier.
  datatype Session = Session(
    server: ServerId,
    command: seq<Byte>,
    phase: Phase,
    events: seq<Message>,       // the channel made for this job
    written: seq<OutByte>,      // agent output written to the SSH channel
    total: nat,
    // history
    conn: Option<nat>,          // connection whose slot this session claimed
    taken: seq<Message>,        // messages received from the event channel
    emitted: seq<Message>,      // frames the agent put on the link for this job
    runs: nat)                  // times the agent started this job

  // A session's audit object, with what the session wrote to the SSH channel so far.
  datatype Record = Record(
    audit: Audit.State,
    // history
    shown: seq<seq<Byte>>,      // the writes that succeeded, oldest first
    partial: nat,               // bytes of the agent frame whose write failed
    notice: seq<Byte>)          // the session's own message, if its write succeeded

  datatype World = World(conns: seq<Conn>, sessions: seq<Session>, hub: map<ServerId, nat>, records: seq<Record>)

  const EVENT_BUFFER := 128

  // How one Send ends: the frame is on the link, or an error is reported and the
  // frame may or may not have reached the link before the connection broke.
  datatype Sending = Sent | Broken(delivered: bool)

  datatype Writing = Written | Partial(n: nat)

  // Steps of the hub and of network failures on the server's side.
  datatype HubStep =
    | Admit(c: nat, srv: ServerId)
    | Disconnect(srv: ServerId)
    | ServerClose(c: nat)
    | ReaderRead(c: nat)
    | ReaderDeliver(c: nat)
    | ReaderStop(c: nat)
    | Teardown(c: nat)

  // Steps of an agent process.
  datatype AgentStep =
    | Dial(a: AgentId)
    | ClientRead(c: nat)
    | ClientLoopExit(c: nat)
    | ClientClose(c: nat)
    | ClientEnd(c: nat)
    | TaskWrite(c: nat, job: JobId, stream: Stream, data: seq<Byte>, sending: Sending)
    | TaskExit(c: nat, job: JobId, code: int, sending: Sending)

  // Steps of an SSH exec session.
  datatype SessionStep =
    | Open(srv: ServerId, payload: seq<Byte>)
    | Refuse(s: nat, why: Outcome)
    | Lookup(s: nat)
    | Claim(s: nat)
    | SendExec(s: nat, sending: Sending)
    | Interrupt(s: nat, why: Outcome)
    | Receive(s: nat, writing: Writing)
    | Release(s: nat)
    | Finish(s: nat)
    | Unwind(s: nat, sending: Sending)

  // The session's own message, whatever its text, what happens to its write, and what
  // happens to an audit row that is due.
  datatype Telling = Telling(text: seq<Byte>, writing: Writing, key: int, stored: bool)

  datatype Step = Hub(hub: HubStep) | Agent(agent: AgentStep) | Ssh(ssh: SessionStep, told: Telling)

  const INIT := World([], [], map[], [])

  predicate IsConn(w: World, c: nat) { c < |w.conns| }
  predicate IsSession(w: World, s: nat) { s < |w.sessions| }

  // The slot holder's connection in phases between claim and clean-up.
  function SlotConn(p: Phase): Option<nat> {
    match p
    case Claimed(c) => Some(c)
    case Streaming(c) => Some(c)
    case Finishing(c, _) => Some(c)
    case Unwinding(c, _, _) => Some(c)
    case _ => None
  }

  function SendResult(open: bool, link: seq<Message>, m: Message, sending: Sending): seq<Message> {
    if open && (sending.Sent? || sending.delivered) then link + [m] else link
  }

  // A write on a connection that this end has closed always fails.
  predicate SendPossible(open: bool, sending: Sending) {
    sending.Sent? ==> open
  }

  predicate HubEnabled(w: World, step: HubStep) {
    match step
    case Admit(c, srv) => IsConn(w, c) && !w.conns[c].admitted && w.conns[c].serverOpen && srv !in w.hub
    case Disconnect(srv) => srv in w.hub && IsConn(w, w.hub[srv])
    case ServerClose(c) => IsConn(w, c)
    case ReaderRead(c) => IsConn(w, c) && w.conns[c].admitted && w.conns[c].reader.Waiting? && w.conns[c].up != []
    case ReaderDeliver(c) =>
      IsConn(w, c) && w.conns[c].reader.Passing? && IsSession(w, w.conns[c].reader.job)
      && |w.sessions[w.conns[c].reader.job].events| < EVENT_BUFFER
    case ReaderStop(c) => IsConn(w, c) && w.conns[c].admitted && !w.conns[c].reader.Stopped?
    case Teardown(c) => IsConn(w, c) && w.conns[c].reader.Stopped?
  }

  predicate AgentEnabled(w: World, step: AgentStep) {
    match step
    case Dial(a) => forall i | 0 <= i < |w.conns| && w.conns[i].agent == a :: w.conns[i].ended
    case ClientRead(c) => IsConn(w, c) && w.conns[c].looping && w.conns[c].down != []
    case ClientLoopExit(c) => IsConn(w, c) && w.conns[c].looping
    case ClientClose(c) => IsConn(w, c)
    case ClientEnd(c) => IsConn(w, c) && !w.conns[c].looping && w.conns[c].tasks == {}
    case TaskWrite(c, job, stream, data, sending) =>
      IsConn(w, c) && job in w.conns[c].tasks && IsSession(w, job)
      && FrameAllowed(OutputLength(w.sessions[job].emitted), data)
      && SendPossible(w.conns[c].clientOpen, sending)
    case TaskExit(c, job, code, sending) =>
      IsConn(w, c) && job in w.conns[c].tasks && IsSession(w, job) && code >= 0
      && SendPossible(w.conns[c].clientOpen, sending)
  }

  // An exec request that agentSession accepts.
  predicate Commands(payload: seq<Byte>) {
    Audit.ParseString(payload).Text? && 0 < |Audit.ParseString(payload).text| <= MAX_COMMAND
  }

  predicate SessionEnabled(w: World, step: SessionStep) {
    match step
    case Open(srv, payload) => Commands(payload)
    case _ => IsSession(w, step.s) && PhaseAllows(w, w.sessions[step.s], step)
  }

  predicate PhaseAllows(w: World, x: Session, step: SessionStep)
    requires !step.Open?
  {
    match step
    case Refuse(_, why) => (x.phase.Looking? || x.phase.Found?) && (why.Unavailable? || why.Offline?)
    case Lookup(_) => x.phase.Looking?
    case Claim(_) => x.phase.Found? && IsConn(w, x.phase.conn)
    case SendExec(_, sending) =>
      x.phase.Claimed? && IsConn(w, x.phase.conn) && SendPossible(w.conns[x.phase.conn].serverOpen, sending)
    case Interrupt(_, why) =>
      x.phase.Streaming? && IsConn(w, x.phase.conn)
      && (why.Cancelled? || why.TimedOut? || (why.Disconnected? && w.conns[x.phase.conn].done))
    case Receive(_, writing) =>
      x.phase.Streaming? && x.events != [] && (writing.Partial? ==> writing.n <= |Bytes(x.events[0])|)
    case Release(_) => x.phase.Finishing? && IsConn(w, x.phase.conn)
    case Finish(_) => x.phase.Forwarding? && IsConn(w, x.phase.conn)
    case Unwind(_, sending) =>
      x.phase.Unwinding? && IsConn(w, x.phase.conn)
      && (x.phase.stage == 0 ==> SendPossible(w.conns[x.phase.conn].serverOpen, sending))
  }

  predicate Enabled(w: World, step: Step) {
    match step
    case Hub(h) => HubEnabled(w, h)
    case Agent(a) => AgentEnabled(w, a)
    case Ssh(s, _) => SessionEnabled(w, s)
  }

  // ---- the connection halves of the steps ----

  function NewConn(a: AgentId): Conn {
    Conn(a, 0, false, true, false, None, Waiting, [], [], true, true, false, None, {}, None)
  }

  function StopReader(c: Conn): Conn {
    c.(reader := Stopped, serverOpen := false, done := true)
  }

  // One frame through the checks of ServeHTTP's loop.
  function ReadFrame(c: Conn): Conn
    requires c.up != []
  {
    var m, c' := c.up[0], c.(up := c.up[1..]);
    if PeerAccepts(c.slot, m) then c'.(reader := Passing(m, m.id)) else StopReader(c')
  }

  // One frame through connect's switch.
  function ReadOrder(c: Conn): Conn
    requires c.down != []
  {
    var m, c' := c.down[0], c.(down := c.down[1..]);
    match ClientDecision(c.job, m)
    case Start => c'.(job := Some(m.id), tasks := c.tasks + {m.id})
    case Ignore => c'
    case Stop => c'
    case Abort(_) => c'.(looping := false)
  }

  // A frame of a task; the exit also clears the job, and a failed send closes the connection.
  function EmitFrame(c: Conn, m: Message, sending: Sending): Conn {
    var c' := c.(up := SendResult(c.clientOpen, c.up, m, sending), clientOpen := c.clientOpen && sending.Sent?);
    if m.Exit? then c'.(job := None, tasks := c.tasks - {m.id}) else c'
  }

  function ClaimConn(c: Conn, s: JobId): Conn {
    c.(slot := SlotAfterClaim(c.slot, s),
       era := if c.slot.None? && c.serverOpen then Some(s) else c.era)
  }

  function UnwindConn(c: Conn, s: JobId, stage: nat, sending: Sending): Conn {
    if stage == 0 then c.(down := SendResult(c.serverOpen, c.down, Cancel(s), sending))
    else if stage == 1 then c.(serverOpen := false)
    else c.(slot := SlotAfterRelease(c.slot, s))
  }

  // ---- the session halves of the steps ----

  function NewSession(srv: ServerId, command: seq<Byte>): Session {
    Session(srv, command, Looking, [], [], 0, None, [], [], 0)
  }

  function WithEmitted(x: Session, open: bool, m: Message, sending: Sending): Session {
    x.(emitted := SendResult(open, x.emitted, m, sending))
  }

  function AfterClaim(x: Session, slot: Option<JobId>): Session
    requires x.phase.Found?
  {
    if slot.Some? then x.(phase := Closed(Busy))
    else x.(phase := Claimed(x.phase.conn), conn := Some(x.phase.conn))
  }

  function AfterDispatch(x: Session, sending: Sending): Session
    requires x.phase.Claimed?
  {
    x.(phase := if sending.Sent? then Streaming(x.phase.conn) else Unwinding(x.phase.conn, 0, NotDispatched))
  }

  function AfterReceive(x: Session, writing: Writing): Session
    requires x.phase.Streaming? && x.events != []
    requires writing.Partial? ==> writing.n <= |Bytes(x.events[0])|
  {
    var m := x.events[0];
    var x' := x.(events := x.events[1..], taken := x.taken + [m]);
    var c := x.phase.conn;
    if m.Exit? then x'.(phase := Finishing(c, m.code))
    else
      var total := x.total + |Bytes(m)|;
      if total > MAX_OUTPUT then x'.(total := total, phase := Unwinding(c, 0, Oversize))
      else match writing
        case Written => x'.(total := total, written := x.written + Bytes(m))
        case Partial(n) =>
          x'.(total := total, written := x.written + Bytes(m)[..n], phase := Unwinding(c, 0, WriteFailed))
  }

  function AfterUnwind(x: Session): Session
    requires x.phase.Unwinding?
  {
    x.(phase := if x.phase.stage < 2 then x.phase.(stage := x.phase.stage + 1) else Closed(x.phase.why))
  }

  // ---- the steps ----

  function SetConn(w: World, c: nat, x: Conn): World
    requires IsConn(w, c)
  {
    w.(conns := w.conns[c := x])
  }

  function SetSession(w: World, s: nat, x: Session): World
    requires IsSession(w, s)
  {
    w.(sessions := w.sessions[s := x])
  }

  function SetBoth(w: World, c: nat, x: Conn, s: nat, y: Session): World
    requires IsConn(w, c) && IsSession(w, s)
  {
    w.(conns := w.conns[c := x], sessions := w.sessions[s := y])
  }

  function HubApply(w: World, step: HubStep): World
    requires HubEnabled(w, step)
  {
    match step
    case Admit(c, srv) => SetConn(w, c, w.conns[c].(admitted := true, server := srv)).(hub := w.hub[srv := c])
    case Disconnect(srv) => SetConn(w, w.hub[srv], w.conns[w.hub[srv]].(serverOpen := false)).(hub := w.hub - {srv})
    case ServerClose(c) => SetConn(w, c, w.conns[c].(serverOpen := false))
    case ReaderRead(c) => SetConn(w, c, ReadFrame(w.conns[c]))
    case ReaderDeliver(c) =>
      var r := w.conns[c].reader;
      var x := w.sessions[r.job];
      SetBoth(w, c, w.conns[c].(reader := Waiting), r.job, x.(events := x.events + [r.m]))
    case ReaderStop(c) => SetConn(w, c, StopReader(w.conns[c]))
    case Teardown(c) =>
      var srv := w.conns[c].server;
      if srv in w.hub && w.hub[srv] == c then w.(hub := w.hub - {srv}) else w
  }

  function EmitStep(w: World, c: nat, m: Message, sending: Sending): World
    requires IsConn(w, c) && IsSession(w, m.id)
  {
    SetBoth(w, c, EmitFrame(w.conns[c], m, sending),
            m.id, WithEmitted(w.sessions[m.id], w.conns[c].clientOpen, m, sending))
  }

  function AgentApply(w: World, step: AgentStep): World
    requires AgentEnabled(w, step)
  {
    match step
    case Dial(a) => w.(conns := w.conns + [NewConn(a)])
    case ClientRead(c) =>
      var k, m := w.conns[c], w.conns[c].down[0];
      if ClientDecision(k.job, m).Start? && IsSession(w, m.id) then
        SetBoth(w, c, ReadOrder(k), m.id, w.sessions[m.id].(runs := w.sessions[m.id].runs + 1))
      else SetConn(w, c, ReadOrder(k))
    case ClientLoopExit(c) => SetConn(w, c, w.conns[c].(looping := false))
    case ClientClose(c) => SetConn(w, c, w.conns[c].(clientOpen := false))
    case ClientEnd(c) => SetConn(w, c, w.conns[c].(ended := true, clientOpen := false))
    case TaskWrite(c, job, stream, data, sending) => EmitStep(w, c, Output(job, stream, data), sending)
    case TaskExit(c, job, code, sending) => EmitStep(w, c, Exit(job, code), sending)
  }

  function SessionApply(w: World, step: SessionStep): World
    requires SessionEnabled(w, step)
  {
    match step
    case Open(srv, payload) => w.(sessions := w.sessions + [NewSession(srv, Audit.ParseString(payload).text)])
    case _ => SessionMove(w, step.s, w.sessions[step.s], step)
  }

  function SessionMove(w: World, s: nat, x: Session, step: SessionStep): World
    requires IsSession(w, s) && !step.Open? && PhaseAllows(w, x, step)
  {
    match step
    case Refuse(_, why) => SetSession(w, s, x.(phase := Closed(why)))
    case Lookup(_) =>
      SetSession(w, s, x.(phase := if x.server in w.hub then Found(w.hub[x.server]) else Closed(Offline)))
    case Claim(_) =>
      var k := w.conns[x.phase.conn];
      SetBoth(w, x.phase.conn, ClaimConn(k, s), s, AfterClaim(x, k.slot))
    case SendExec(_, sending) =>
      var c, k := x.phase.conn, w.conns[x.phase.conn];
      SetBoth(w, c, k.(down := SendResult(k.serverOpen, k.down, Exec(s, Coerce(x.command)), sending)),
              s, AfterDispatch(x, sending))
    case Interrupt(_, why) => SetSession(w, s, x.(phase := Unwinding(x.phase.conn, 0, why)))
    case Receive(_, writing) => SetSession(w, s, AfterReceive(x, writing))
    case Release(_) =>
      var c := x.phase.conn;
      SetBoth(w, c, w.conns[c].(slot := None), s, x.(phase := Forwarding(c, x.phase.code)))
    case Finish(_) =>
      var c := x.phase.conn;
      SetBoth(w, c, w.conns[c].(slot := SlotAfterRelease(w.conns[c].slot, s)),
              s, x.(phase := Closed(AgentExit(x.phase.code))))
    case Unwind(_, sending) =>
      var c := x.phase.conn;
      SetBoth(w, c, UnwindConn(w.conns[c], s, x.phase.stage, sending), s, AfterUnwind(x))
  }

  // ---- the audit halves of the steps ----

  function Code(why: Outcome): int {
    match why
    case AgentExit(code) => code
    case Cancelled => 130
    case TimedOut => 124
    case _ => 125
  }

  // The exit-status request carries the code in 32 bits.
  function NoteExit(a: Audit.State, code: int, told: Telling): Audit.State {
    Audit.Note(a, Audit.ExitStatus(Audit.WordBytes(code % Audit.WORD)), told.key, told.stored)
  }

  // One write to the SSH channel and, if all of it succeeded, to the audit object.
  function Show(r: Record, p: seq<Byte>): Record {
    r.(audit := Audit.Do(r.audit, Audit.Shown(p)), shown := r.shown + [p])
  }

  // A message to stderr, unless there is none.
  function Say(r: Record, text: seq<Byte>, writing: Writing): Record {
    if text != [] && writing.Written? then Show(r, text).(notice := text) else r
  }

  // The closure exit: the message, then the code.
  function Tell(r: Record, why: Outcome, told: Telling): Record {
    var r' := Say(r, if why.AgentExit? then [] else told.text, told.writing);
    r'.(audit := NoteExit(r'.audit, Code(why), told))
  }

  function NewRecord(payload: seq<Byte>, told: Telling): Record {
    Record(Audit.Note(Audit.START, Audit.ExecRequest(payload), told.key, told.stored), [], 0, [])
  }

  // A frame taken from the event channel: write it, or say that it is too much.
  function RecordFrame(r: Record, x: Session, m: Message, writing: Writing, told: Telling): Record {
    if !m.Output? then r
    else if x.total + |Bytes(m)| > MAX_OUTPUT then Tell(r, Oversize, told)
    else
      match writing
      case Written => Show(r, m.data)
      case Partial(n) => r.(partial := n)
  }

  // How a step of session x, which ends in phase p, changes its record.
  function RecordAfter(r: Record, x: Session, p: Phase, step: SessionStep, told: Telling): Record
    requires step.Receive? ==> x.events != []
  {
    match step
    case Open(_, _) => r
    case Refuse(_, why) => Tell(r, why, told)
    case Lookup(_) => if p.Closed? then Tell(r, Offline, told) else r
    case Claim(_) => if p.Closed? then Tell(r, Busy, told) else r
    case SendExec(_, sending) => if sending.Sent? then r else Tell(r, NotDispatched, told)
    case Interrupt(_, why) => Tell(r, why, told)
    case Receive(_, writing) => RecordFrame(r, x, x.events[0], writing, told)
    case Release(_) => r
    case Finish(_) => if p.Closed? then Tell(r, p.why, told) else r
    case Unwind(_, _) => r
  }

  function RecordsAfter(w: World, step: SessionStep, told: Telling): seq<Record>
    requires SessionEnabled(w, step)
  {
    if step.Open? then w.records + [NewRecord(step.payload, told)]
    else if step.s < |w.records| then
      w.records[step.s := RecordAfter(w.records[step.s], w.sessions[step.s],
                                      SessionApply(w, step).sessions[step.s].phase, step, told)]
    else w.records
  }

  // ---- all steps ----

  function Apply(w: World, step: Step): World
    requires Enabled(w, step)
  {
    match step
    case Hub(h) => HubApply(w, h)
    case Agent(a) => AgentApply(w, a)
    case Ssh(s, told) => SessionApply(w, s).(records := RecordsAfter(w, s, told))
  }

  // A run: a sequence of worlds, each reached from the one before by one enabled step.
  ghost predicate IsRun(trace: seq<World>) {
    && trace != []
    && trace[0] == INIT
    && forall i | 0 < i < |trace| :: StepAt(trace, i)
  }

  // World i follows from the one before it.
  ghost predicate StepAt(trace: seq<World>, i: nat)
    requires 0 < i < |trace|
  {
    Reaches(trace[i - 1], trace[i])
  }

  ghost predicate Reaches(w: World, w': World) {
    exists step :: Enabled(w, step) && w' == Apply(w, step)
  }
}
