/** What every step of the task protocol keeps, and what follows for every run. */
module TaskSafety {
  import opened Wrappers
  import opened AgentWire
  import opened AgentPeers
  import opened AgentClients
  import opened JsonText
  import opened TaskProtocol
  import Audit

  // ---- frames of one job ----

  predicate HasExit(ms: seq<Message>) {
    exists k | 0 <= k < |ms| :: ms[k].Exit?
  }

  // What an agent may emit for job j: output frames, then at most one exit.
  ghost predicate Emittable(ms: seq<Message>, j: JobId) {
    && OutputLength(ms) <= MAX_OUTPUT
    && forall k | 0 <= k < |ms| ::
         && ms[k].id == j
         && (ms[k].Output? || ms[k].Exit?)
         && (ms[k].Output? ==> 0 < |ms[k].data| <= CHUNK)
         && (ms[k].Exit? ==> k == |ms| - 1 && ms[k].code >= 0)
  }

  // Frames the agent sent that have not reached an event channel.
  function InFlight(c: Conn): seq<Message> {
    if c.reader.Passing? then [c.reader.m] + c.up else c.up
  }

  // ---- per-session invariant ----

  predicate BeforeClaim(p: Phase) {
    p.Looking? || p.Found?
  }

  ghost predicate SessionLocal(x: Session, j: JobId) {
    && x.command != [] && |x.command| <= MAX_COMMAND
    && x.runs <= 1
    && Emittable(x.emitted, j)
    && (x.emitted != [] ==> x.runs == 1)
    && x.taken + x.events <= x.emitted
    && x.written <= AllBytes(x.taken)
    && (x.phase.Streaming? ==> !HasExit(x.taken) && x.written == AllBytes(x.taken) && x.total == |x.written|)
    && ExitFits(x, j)
    && (BeforeClaim(x.phase) ==> x.conn == None)
    && (BeforeClaim(x.phase) || x.phase.Claimed? ==> x.taken == [] && x.written == [] && x.total == 0)
    && (x.conn == None ==> x.runs == 0 && !x.phase.Finishing? && !x.phase.Forwarding?)
    && (SlotConn(x.phase).Some? ==> x.conn == SlotConn(x.phase))
    && (x.phase.Unwinding? ==> !x.phase.why.AgentExit? && !x.phase.why.Oversize?)
    && (x.phase.Closed? ==> !x.phase.why.Oversize?)
    && (x.phase.Forwarding? ==> x.conn == Some(x.phase.conn))
  }

  // The code this session has taken from the agent, if any, is the last frame received.
  function AgentCode(p: Phase): Option<int> {
    match p
    case Finishing(_, code) => Some(code)
    case Forwarding(_, code) => Some(code)
    case Closed(why) => if why.AgentExit? then Some(why.code) else None
    case _ => None
  }

  ghost predicate ExitFits(x: Session, j: JobId) {
    AgentCode(x.phase).Some? ==>
      && x.taken != [] && x.taken[|x.taken| - 1] == Exit(j, AgentCode(x.phase).value)
      && x.written == AllBytes(x.taken)
  }

  // ---- per-connection invariant ----

  // Nothing is left over from an earlier job.
  predicate Clean(c: Conn) {
    c.down == [] && c.up == [] && c.tasks == {} && c.job == None && !c.reader.Passing?
  }

  predicate DownFits(down: seq<Message>, j: JobId, command: seq<Byte>) {
    forall k | 0 <= k < |down| ::
      down[k] == Cancel(j) || (k == 0 && down[k] == Exec(j, Coerce(command)))
  }

  predicate PendingExec(down: seq<Message>) {
    down != [] && down[0].Exec?
  }

  // Connection c and the last job that claimed it while open.
  ghost predicate Pipeline(c: Conn, x: Session, j: JobId) {
    && (forall k | 0 <= k < |c.up| :: c.up[k].id == j)
    && (c.reader.Passing? ==> c.reader.job == j && c.reader.m.id == j)
    && (!c.reader.Stopped? ==> x.emitted == x.taken + x.events + InFlight(c))
    && DownFits(c.down, j, x.command)
    && c.tasks == (if c.job == Some(j) then {j} else {})
    && (c.job == None || c.job == Some(j))
    && (c.job.Some? ==> x.runs == 1 && !HasExit(x.emitted))
    && (PendingExec(c.down) ==> x.runs == 0)
    && (c.serverOpen ==>
          && (x.phase.Claimed? ==> c.down == [] && x.runs == 0)
          && (forall k | 0 <= k < |c.down| :: c.down[k].Cancel? ==> x.phase.Unwinding? && x.phase.stage == 1))
  }

  // A session that ended without an exit has closed the connection by now.
  predicate PastClose(p: Phase) {
    p.Unwinding? && p.stage >= 2
  }

  ghost predicate ConnFits(c: Conn, i: nat, xs: seq<Session>) {
    && (c.reader.Stopped? ==> !c.serverOpen)
    && (c.ended ==> !c.looping && c.tasks == {})
    && (c.era == None ==> Clean(c))
    && (c.era.Some? ==> c.era.value < |xs| && xs[c.era.value].conn == Some(i) && Pipeline(c, xs[c.era.value], c.era.value))
    && (c.slot.Some? ==> c.slot.value < |xs| && SlotConn(xs[c.slot.value].phase) == Some(i))
    && (c.slot.Some? && c.serverOpen ==> c.era == c.slot && !PastClose(xs[c.slot.value].phase))
    && (c.slot == None && c.serverOpen ==> Clean(c))
  }

  ghost predicate SessionFits(x: Session, j: JobId, cs: seq<Conn>) {
    && SessionLocal(x, j)
    && (x.phase.Found? ==> x.phase.conn < |cs|)
    && (x.conn.Some? ==> x.conn.value < |cs|)
    && (SlotConn(x.phase).Some? ==> cs[SlotConn(x.phase).value].slot == Some(j))
  }

  // Earlier connections of an agent process have ended.
  predicate OneLive(cs: seq<Conn>) {
    forall i, k | 0 <= i < k < |cs| && cs[i].agent == cs[k].agent :: cs[i].ended
  }

  ghost predicate Inv(w: World) {
    && (forall i | 0 <= i < |w.conns| :: ConnFits(w.conns[i], i, w.sessions))
    && (forall j | 0 <= j < |w.sessions| :: SessionFits(w.sessions[j], j, w.conns))
    && (forall srv | srv in w.hub :: w.hub[srv] < |w.conns|)
    && OneLive(w.conns)
  }

  // ---- framing: a step touches one connection and at most one session ----

  // Connection i changes its own data only; sessions stay.
  lemma ConnChange(w: World, i: nat, c: Conn)
    requires Inv(w) && IsConn(w, i)
    requires ConnFits(c, i, w.sessions)
    requires c.slot == w.conns[i].slot && c.agent == w.conns[i].agent && (w.conns[i].ended ==> c.ended)
    ensures Inv(SetConn(w, i, c))
  {
  }

  // Session j changes its own data only; no connection depends on what changed.
  lemma SessionChange(w: World, j: nat, x: Session)
    requires Inv(w) && IsSession(w, j)
    requires SessionFits(x, j, w.conns)
    requires x.conn == w.sessions[j].conn
    requires SlotConn(x.phase) == SlotConn(w.sessions[j].phase) && !PastClose(x.phase)
    requires forall i | 0 <= i < |w.conns| && w.conns[i].era == Some(j) :: Pipeline(w.conns[i], x, j)
    ensures Inv(SetSession(w, j, x))
  {
    var w' := SetSession(w, j, x);
    forall k | 0 <= k < |w'.conns| ensures ConnFits(w'.conns[k], k, w'.sessions) {
      assert ConnFits(w.conns[k], k, w.sessions);
    }
    forall k | 0 <= k < |w'.sessions| ensures SessionFits(w'.sessions[k], k, w'.conns) {
      if k != j {
        assert SessionFits(w.sessions[k], k, w.conns);
      }
    }
  }

  // Connection i and session j change together.
  lemma BothChange(w: World, i: nat, c: Conn, j: nat, x: Session)
    requires Inv(w) && IsConn(w, i) && IsSession(w, j)
    requires w.sessions[j].conn == None || w.sessions[j].conn == Some(i)
    requires x.conn == None || x.conn == Some(i)
    requires ConnFits(c, i, w.sessions[j := x])
    requires SessionFits(x, j, w.conns[i := c])
    requires forall k | k != j && w.conns[i].slot == Some(k) :: c.slot == Some(k)
    requires c.agent == w.conns[i].agent && (w.conns[i].ended ==> c.ended)
    ensures Inv(SetBoth(w, i, c, j, x))
  {
    var w' := SetBoth(w, i, c, j, x);
    forall k | 0 <= k < |w'.conns| ensures ConnFits(w'.conns[k], k, w'.sessions) {
      if k != i {
        assert ConnFits(w.conns[k], k, w.sessions);
        assert w.conns[k].era != Some(j) && w.conns[k].slot != Some(j);
      }
    }
    forall k | 0 <= k < |w'.sessions| ensures SessionFits(w'.sessions[k], k, w'.conns) {
      if k != j {
        assert SessionFits(w.sessions[k], k, w.conns);
      }
    }
  }

  // ---- each step keeps the invariant ----

  lemma FrameAccepted(c: Conn, x: Session, j: JobId)
    requires Pipeline(c, x, j) && c.reader.Waiting? && c.up != [] && PeerAccepts(c.slot, c.up[0])
    ensures Pipeline(ReadFrame(c), x, j)
  {
    assert InFlight(c) == [c.up[0]] + c.up[1..];
    assert forall k | 0 <= k < |c.up[1..]| :: c.up[1..][k] == c.up[k + 1];
  }

  lemma FrameRefused(c: Conn, x: Session, j: JobId)
    requires Pipeline(c, x, j) && c.reader.Waiting? && c.up != [] && !PeerAccepts(c.slot, c.up[0])
    ensures Pipeline(ReadFrame(c), x, j)
  {
    assert forall k | 0 <= k < |c.up[1..]| :: c.up[1..][k] == c.up[k + 1];
  }

  lemma ReadFrameFits(c: Conn, x: Session, j: JobId)
    requires Pipeline(c, x, j) && c.reader.Waiting? && c.up != []
    ensures Pipeline(ReadFrame(c), x, j)
  {
    if PeerAccepts(c.slot, c.up[0]) {
      FrameAccepted(c, x, j);
    } else {
      FrameRefused(c, x, j);
    }
  }

  lemma ReadFrameConnFits(k: Conn, c: nat, xs: seq<Session>)
    requires ConnFits(k, c, xs) && k.reader.Waiting? && k.up != []
    ensures ConnFits(ReadFrame(k), c, xs)
  {
    ReadFrameFits(k, xs[k.era.value], k.era.value);
  }

  lemma ReadFrameShape(c: Conn)
    requires c.up != []
    ensures var c' := ReadFrame(c); c'.slot == c.slot && c'.agent == c.agent && c'.ended == c.ended
  {
  }

  lemma ReaderReadKeeps(w: World, c: nat)
    requires Inv(w) && IsConn(w, c) && w.conns[c].reader.Waiting? && w.conns[c].up != []
    ensures Inv(SetConn(w, c, ReadFrame(w.conns[c])))
  {
    ReadFrameConnFits(w.conns[c], c, w.sessions);
    ReadFrameShape(w.conns[c]);
    ConnChange(w, c, ReadFrame(w.conns[c]));
  }

  lemma Shift(all: seq<Message>, a: seq<Message>, b: seq<Message>, m: Message, rest: seq<Message>)
    requires all == a + b + ([m] + rest)
    ensures all == a + (b + [m]) + rest
    ensures a + (b + [m]) <= all
  {
  }

  lemma DeliverFits(c: Conn, x: Session, j: JobId)
    requires Pipeline(c, x, j) && SessionLocal(x, j) && c.reader.Passing?
    ensures Pipeline(c.(reader := Waiting), x.(events := x.events + [c.reader.m]), j)
    ensures SessionLocal(x.(events := x.events + [c.reader.m]), j)
  {
    Shift(x.emitted, x.taken, x.events, c.reader.m, c.up);
  }

  lemma ReaderDeliverKeeps(w: World, c: nat)
    requires Inv(w) && IsConn(w, c) && w.conns[c].reader.Passing? && IsSession(w, w.conns[c].reader.job)
    ensures var k := w.conns[c];
            var x := w.sessions[k.reader.job];
            Inv(SetBoth(w, c, k.(reader := Waiting), k.reader.job, x.(events := x.events + [k.reader.m])))
  {
    var k := w.conns[c];
    assert ConnFits(k, c, w.sessions);
    var j := k.reader.job;
    var x := w.sessions[j];
    assert SessionFits(x, j, w.conns);
    DeliverFits(k, x, j);
    BothChange(w, c, k.(reader := Waiting), j, x.(events := x.events + [k.reader.m]));
  }

  lemma HubConnKeeps(w: World, c: nat, k: Conn)
    requires Inv(w) && IsConn(w, c)
    requires k == w.conns[c].(serverOpen := false) || k == StopReader(w.conns[c])
          || k == w.conns[c].(admitted := k.admitted, server := k.server)
    ensures Inv(SetConn(w, c, k))
  {
    assert ConnFits(w.conns[c], c, w.sessions);
    ConnChange(w, c, k);
  }

  lemma HubKeeps(w: World, step: HubStep)
    requires Inv(w) && HubEnabled(w, step)
    ensures Inv(HubApply(w, step))
  {
    match step
    case Admit(c, srv) => HubConnKeeps(w, c, w.conns[c].(admitted := true, server := srv));
    case Disconnect(srv) => HubConnKeeps(w, w.hub[srv], w.conns[w.hub[srv]].(serverOpen := false));
    case ServerClose(c) => HubConnKeeps(w, c, w.conns[c].(serverOpen := false));
    case ReaderRead(c) => ReaderReadKeeps(w, c);
    case ReaderDeliver(c) => ReaderDeliverKeeps(w, c);
    case ReaderStop(c) => HubConnKeeps(w, c, StopReader(w.conns[c]));
    case Teardown(c) =>
  }

  lemma OrdersOf(down: seq<Message>, j: JobId, command: seq<Byte>)
    requires DownFits(down, j, command)
    ensures down == [] || PendingExec(down) || down[0].Cancel?
  {
  }

  lemma TailFits(down: seq<Message>, j: JobId, command: seq<Byte>)
    requires DownFits(down, j, command) && down != []
    ensures DownFits(down[1..], j, command) && !PendingExec(down[1..])
  {
    assert forall k | 0 <= k < |down[1..]| :: down[1..][k] == down[k + 1];
  }

  // The agent starts a command whose arriving text is within the limit.
  predicate Arrives(command: seq<Byte>) {
    |Coerce(command)| <= MAX_COMMAND
  }

  lemma ExecDecision(c: Conn, x: Session, j: JobId)
    requires Pipeline(c, x, j) && SessionLocal(x, j) && PendingExec(c.down)
    ensures c.down[0] == Exec(j, Coerce(x.command)) && c.job == None && c.tasks == {} && x.runs == 0 && x.emitted == []
    ensures ClientDecision(c.job, c.down[0]) == if Arrives(x.command) then Start else Abort(InvalidTask)
  {
    CoercedLength(x.command);
  }

  lemma ExecFits(c: Conn, x: Session, j: JobId)
    requires Pipeline(c, x, j) && SessionLocal(x, j) && x.conn.Some? && PendingExec(c.down) && Arrives(x.command)
    ensures Pipeline(ReadOrder(c), x.(runs := 1), j) && SessionLocal(x.(runs := 1), j)
  {
    ExecDecision(c, x, j);
    TailFits(c.down, j, x.command);
    assert InFlight(ReadOrder(c)) == InFlight(c);
  }

  lemma RefusedFits(c: Conn, x: Session, j: JobId)
    requires Pipeline(c, x, j) && SessionLocal(x, j) && PendingExec(c.down) && !Arrives(x.command)
    ensures Pipeline(ReadOrder(c), x, j)
  {
    ExecDecision(c, x, j);
    TailFits(c.down, j, x.command);
    assert InFlight(ReadOrder(c)) == InFlight(c);
  }

  lemma CancelReadFits(c: Conn, x: Session, j: JobId)
    requires Pipeline(c, x, j) && c.down != [] && !PendingExec(c.down)
    ensures c.down[0] == Cancel(j) && !ClientDecision(c.job, c.down[0]).Abort?
    ensures Pipeline(ReadOrder(c), x, j)
  {
    TailFits(c.down, j, x.command);
    assert InFlight(ReadOrder(c)) == InFlight(c);
  }

  lemma ReadOrderShape(c: Conn)
    requires c.down != []
    ensures var c' := ReadOrder(c); c'.slot == c.slot && c'.agent == c.agent && c'.ended == c.ended
  {
    var d := ClientDecision(c.job, c.down[0]);
    assert d.Start? || d.Ignore? || d.Stop? || d.Abort?;
  }

  lemma ReadExecConnFits(k: Conn, c: nat, xs: seq<Session>)
    requires ConnFits(k, c, xs) && k.looping && k.era.Some? && SessionLocal(xs[k.era.value], k.era.value)
    requires PendingExec(k.down) && Arrives(xs[k.era.value].command)
    ensures ConnFits(ReadOrder(k), c, xs[k.era.value := xs[k.era.value].(runs := 1)])
  {
    ExecDecision(k, xs[k.era.value], k.era.value);
    ExecFits(k, xs[k.era.value], k.era.value);
  }

  lemma ReadRefusedConnFits(k: Conn, c: nat, xs: seq<Session>)
    requires ConnFits(k, c, xs) && k.looping && k.era.Some? && SessionLocal(xs[k.era.value], k.era.value)
    requires PendingExec(k.down) && !Arrives(xs[k.era.value].command)
    ensures ConnFits(ReadOrder(k), c, xs)
  {
    ExecDecision(k, xs[k.era.value], k.era.value);
    RefusedFits(k, xs[k.era.value], k.era.value);
  }

  lemma ReadCancelConnFits(k: Conn, c: nat, xs: seq<Session>)
    requires ConnFits(k, c, xs) && k.looping && k.era.Some?
    requires k.down != [] && !k.down[0].Exec?
    ensures ConnFits(ReadOrder(k), c, xs)
  {
    CancelReadFits(k, xs[k.era.value], k.era.value);
  }

  // The last claimant of a connection on which orders wait.
  lemma OrderedSession(w: World, c: nat)
    requires Inv(w) && IsConn(w, c) && w.conns[c].down != []
    ensures var k := w.conns[c];
            && ConnFits(k, c, w.sessions)
            && k.era.Some? && IsSession(w, k.era.value) && SessionFits(w.sessions[k.era.value], k.era.value, w.conns)
            && w.sessions[k.era.value].conn == Some(c)
            && Pipeline(k, w.sessions[k.era.value], k.era.value)
  {
    assert ConnFits(w.conns[c], c, w.sessions);
  }

  lemma ReadExecKeeps(w: World, c: nat, j: nat)
    requires Inv(w) && IsConn(w, c) && w.conns[c].looping && PendingExec(w.conns[c].down)
    requires w.conns[c].era == Some(j) && IsSession(w, j) && Arrives(w.sessions[j].command)
    ensures w.sessions[j].runs == 0 && Inv(SetBoth(w, c, ReadOrder(w.conns[c]), j, w.sessions[j].(runs := 1)))
  {
    OrderedSession(w, c);
    var k := w.conns[c];
    ExecDecision(k, w.sessions[j], j);
    ExecFits(k, w.sessions[j], j);
    ReadOrderShape(k);
    ReadExecConnFits(k, c, w.sessions);
    BothChange(w, c, ReadOrder(k), j, w.sessions[j].(runs := 1));
  }

  lemma ReadRefusedKeeps(w: World, c: nat, j: nat)
    requires Inv(w) && IsConn(w, c) && w.conns[c].looping && PendingExec(w.conns[c].down)
    requires w.conns[c].era == Some(j) && IsSession(w, j) && !Arrives(w.sessions[j].command)
    ensures Inv(SetConn(w, c, ReadOrder(w.conns[c])))
  {
    OrderedSession(w, c);
    ReadOrderShape(w.conns[c]);
    ReadRefusedConnFits(w.conns[c], c, w.sessions);
    ConnChange(w, c, ReadOrder(w.conns[c]));
  }

  lemma ReadCancelKeeps(w: World, c: nat)
    requires Inv(w) && IsConn(w, c) && w.conns[c].looping && w.conns[c].down != [] && !w.conns[c].down[0].Exec?
    ensures w.conns[c].down[0].Cancel? && Inv(SetConn(w, c, ReadOrder(w.conns[c])))
  {
    OrderedSession(w, c);
    var k := w.conns[c];
    CancelReadFits(k, w.sessions[k.era.value], k.era.value);
    ReadOrderShape(k);
    ReadCancelConnFits(k, c, w.sessions);
    ConnChange(w, c, ReadOrder(k));
  }

  lemma ReadPendingKeeps(w: World, c: nat)
    requires Inv(w) && IsConn(w, c) && w.conns[c].looping && PendingExec(w.conns[c].down)
    ensures var k, m := w.conns[c], w.conns[c].down[0];
            Inv(if ClientDecision(k.job, m).Start? && IsSession(w, m.id)
                then SetBoth(w, c, ReadOrder(k), m.id, w.sessions[m.id].(runs := w.sessions[m.id].runs + 1))
                else SetConn(w, c, ReadOrder(k)))
  {
    OrderedSession(w, c);
    var j := w.conns[c].era.value;
    ExecDecision(w.conns[c], w.sessions[j], j);
    if Arrives(w.sessions[j].command) {
      ReadExecKeeps(w, c, j);
    } else {
      ReadRefusedKeeps(w, c, j);
    }
  }

  lemma ClientReadKeeps(w: World, c: nat)
    requires Inv(w) && IsConn(w, c) && w.conns[c].looping && w.conns[c].down != []
    ensures var k, m := w.conns[c], w.conns[c].down[0];
            Inv(if ClientDecision(k.job, m).Start? && IsSession(w, m.id)
                then SetBoth(w, c, ReadOrder(k), m.id, w.sessions[m.id].(runs := w.sessions[m.id].runs + 1))
                else SetConn(w, c, ReadOrder(k)))
  {
    if PendingExec(w.conns[c].down) {
      ReadPendingKeeps(w, c);
    } else {
      ReadCancelKeeps(w, c);
    }
  }

  ghost predicate MayEmit(x: Session, m: Message) {
    (m.Exit? && m.code >= 0) || (m.Output? && FrameAllowed(OutputLength(x.emitted), m.data))
  }

  lemma EmittableSnoc(x: Session, j: JobId, m: Message)
    requires Emittable(x.emitted, j) && !HasExit(x.emitted) && m.id == j && MayEmit(x, m)
    ensures Emittable(x.emitted + [m], j)
    ensures m.Output? ==> !HasExit(x.emitted + [m])
  {
    AllBytesSnoc(x.emitted, m);
  }

  lemma InFlightSnoc(c: Conn, c': Conn, x: Session, m: Message)
    requires c'.reader == c.reader && c'.up == c.up + [m]
    ensures InFlight(c') == InFlight(c) + [m]
    ensures x.taken + x.events + (InFlight(c) + [m]) == x.taken + x.events + InFlight(c) + [m]
  {
  }

  // An output frame that reached the link, and an exit that did.
  lemma OutputDelivered(c: Conn, x: Session, m: Message, sending: Sending)
    requires Pipeline(c, x, m.id) && m.id in c.tasks && m.Output? && !HasExit(x.emitted + [m])
    requires c.clientOpen && (sending.Sent? || sending.delivered)
    ensures Pipeline(EmitFrame(c, m, sending), WithEmitted(x, c.clientOpen, m, sending), m.id)
  {
    InFlightSnoc(c, EmitFrame(c, m, sending), x, m);
  }

  lemma ExitDelivered(c: Conn, x: Session, m: Message, sending: Sending)
    requires Pipeline(c, x, m.id) && m.id in c.tasks && m.Exit?
    requires c.clientOpen && (sending.Sent? || sending.delivered)
    ensures Pipeline(EmitFrame(c, m, sending), WithEmitted(x, c.clientOpen, m, sending), m.id)
  {
    InFlightSnoc(c, EmitFrame(c, m, sending), x, m);
  }

  lemma EmitLost(c: Conn, x: Session, m: Message, sending: Sending)
    requires Pipeline(c, x, m.id) && m.id in c.tasks
    requires !(c.clientOpen && (sending.Sent? || sending.delivered))
    ensures Pipeline(EmitFrame(c, m, sending), WithEmitted(x, c.clientOpen, m, sending), m.id)
  {
    assert WithEmitted(x, c.clientOpen, m, sending) == x;
    assert InFlight(EmitFrame(c, m, sending)) == InFlight(c);
  }

  lemma EmitPipeline(c: Conn, x: Session, m: Message, sending: Sending)
    requires Pipeline(c, x, m.id) && SessionLocal(x, m.id) && m.id in c.tasks && MayEmit(x, m)
    requires SendPossible(c.clientOpen, sending)
    ensures Pipeline(EmitFrame(c, m, sending), WithEmitted(x, c.clientOpen, m, sending), m.id)
  {
    if c.clientOpen && (sending.Sent? || sending.delivered) {
      if m.Exit? {
        ExitDelivered(c, x, m, sending);
      } else {
        EmittableSnoc(x, m.id, m);
        OutputDelivered(c, x, m, sending);
      }
    } else {
      EmitLost(c, x, m, sending);
    }
  }

  lemma EmitLocal(x: Session, j: JobId, emitted: seq<Message>)
    requires SessionLocal(x, j) && x.runs == 1 && x.emitted <= emitted && Emittable(emitted, j)
    ensures SessionLocal(x.(emitted := emitted), j)
  {
    assert x.taken + x.events <= emitted;
  }

  lemma EmitFits(c: Conn, x: Session, m: Message, sending: Sending)
    requires Pipeline(c, x, m.id) && SessionLocal(x, m.id) && m.id in c.tasks && MayEmit(x, m)
    requires SendPossible(c.clientOpen, sending)
    ensures Pipeline(EmitFrame(c, m, sending), WithEmitted(x, c.clientOpen, m, sending), m.id)
    ensures SessionLocal(WithEmitted(x, c.clientOpen, m, sending), m.id)
  {
    EmitPipeline(c, x, m, sending);
    EmittableSnoc(x, m.id, m);
    EmitLocal(x, m.id, WithEmitted(x, c.clientOpen, m, sending).emitted);
  }

  lemma EmitKeeps(w: World, c: nat, m: Message, sending: Sending)
    requires Inv(w) && IsConn(w, c) && IsSession(w, m.id) && m.id in w.conns[c].tasks
    requires SendPossible(w.conns[c].clientOpen, sending) && MayEmit(w.sessions[m.id], m)
    ensures Inv(EmitStep(w, c, m, sending))
  {
    var k, x := w.conns[c], w.sessions[m.id];
    assert ConnFits(k, c, w.sessions);
    assert SessionFits(x, m.id, w.conns);
    EmitFits(k, x, m, sending);
    BothChange(w, c, EmitFrame(k, m, sending), m.id, WithEmitted(x, k.clientOpen, m, sending));
  }

  lemma DialKeeps(w: World, a: AgentId)
    requires Inv(w) && AgentEnabled(w, Dial(a))
    ensures Inv(AgentApply(w, Dial(a)))
  {
    var w' := AgentApply(w, Dial(a));
    forall j | 0 <= j < |w'.sessions| ensures SessionFits(w'.sessions[j], j, w'.conns) {
      assert SessionFits(w.sessions[j], j, w.conns);
    }
  }

  lemma ClientConnKeeps(w: World, c: nat, k: Conn)
    requires Inv(w) && IsConn(w, c)
    requires k == w.conns[c].(looping := false) || k == w.conns[c].(clientOpen := false)
          || (k == w.conns[c].(ended := true, clientOpen := false) && !w.conns[c].looping && w.conns[c].tasks == {})
    ensures Inv(SetConn(w, c, k))
  {
    assert ConnFits(w.conns[c], c, w.sessions);
    ConnChange(w, c, k);
  }

  lemma AgentKeeps(w: World, step: AgentStep)
    requires Inv(w) && AgentEnabled(w, step)
    ensures Inv(AgentApply(w, step))
  {
    match step
    case Dial(a) => DialKeeps(w, a);
    case ClientRead(c) => ClientReadKeeps(w, c);
    case ClientLoopExit(c) => ClientConnKeeps(w, c, w.conns[c].(looping := false));
    case ClientClose(c) => ClientConnKeeps(w, c, w.conns[c].(clientOpen := false));
    case ClientEnd(c) => ClientConnKeeps(w, c, w.conns[c].(ended := true, clientOpen := false));
    case TaskWrite(c, job, stream, data, sending) => EmitKeeps(w, c, Output(job, stream, data), sending);
    case TaskExit(c, job, code, sending) => EmitKeeps(w, c, Exit(job, code), sending);
  }

  lemma OpenKeeps(w: World, srv: ServerId, command: seq<Byte>)
    requires Inv(w) && command != [] && |command| <= MAX_COMMAND
    ensures Inv(w.(sessions := w.sessions + [NewSession(srv, command)]))
  {
    var w' := w.(sessions := w.sessions + [NewSession(srv, command)]);
    forall i | 0 <= i < |w'.conns| ensures ConnFits(w'.conns[i], i, w'.sessions) {
      assert ConnFits(w.conns[i], i, w.sessions);
    }
    forall j | 0 <= j < |w'.sessions| ensures SessionFits(w'.sessions[j], j, w'.conns) {
      if j < |w.sessions| {
        assert SessionFits(w.sessions[j], j, w.conns);
      }
    }
  }

  // A session that has claimed nothing concerns no connection.
  lemma PhaseKeeps(w: World, s: nat, p: Phase)
    requires Inv(w) && IsSession(w, s) && BeforeClaim(w.sessions[s].phase)
    requires (p.Found? && p.conn < |w.conns|) || (p.Closed? && (p.why.Unavailable? || p.why.Offline?))
    ensures Inv(SetSession(w, s, w.sessions[s].(phase := p)))
  {
    assert SessionFits(w.sessions[s], s, w.conns);
    forall i | 0 <= i < |w.conns| ensures w.conns[i].era != Some(s) {
      assert ConnFits(w.conns[i], i, w.sessions);
    }
    SessionChange(w, s, w.sessions[s].(phase := p));
  }

  // A session that has claimed nothing is neither holder nor last claimant.
  lemma UnclaimedIsForeign(k: Conn, c: nat, xs: seq<Session>, s: nat)
    requires ConnFits(k, c, xs) && s < |xs| && xs[s].conn == None && xs[s].phase.Found?
    ensures k.era != Some(s) && k.slot != Some(s)
  {
  }

  // A new holder of an open connection starts its pipeline with nothing in it.
  lemma ClaimPipeline(k: Conn, x: Session, s: JobId)
    requires Clean(k) && k.slot == None && k.serverOpen && SessionLocal(x, s) && x.phase.Found?
    ensures Pipeline(ClaimConn(k, s), AfterClaim(x, None), s)
  {
  }

  lemma ClaimRefusedFits(k: Conn, c: nat, xs: seq<Session>, s: nat)
    requires ConnFits(k, c, xs) && s < |xs| && k.slot.Some? && xs[s].conn == None && xs[s].phase.Found?
    ensures ConnFits(ClaimConn(k, s), c, xs[s := AfterClaim(xs[s], k.slot)])
  {
    UnclaimedIsForeign(k, c, xs, s);
    assert ClaimConn(k, s) == k;
  }

  lemma ClaimOpenFits(k: Conn, c: nat, xs: seq<Session>, s: nat)
    requires ConnFits(k, c, xs) && s < |xs| && SessionLocal(xs[s], s) && xs[s].phase == Found(c)
    requires k.slot == None && k.serverOpen
    ensures ConnFits(ClaimConn(k, s), c, xs[s := AfterClaim(xs[s], k.slot)])
  {
    ClaimPipeline(k, xs[s], s);
    assert ClaimConn(k, s) == k.(slot := Some(s), era := Some(s));
  }

  lemma SamePipeline(k: Conn, k': Conn, y: Session, j: JobId)
    requires Pipeline(k, y, j) && k' == k.(slot := k'.slot)
    ensures Pipeline(k', y, j)
  {
    assert InFlight(k') == InFlight(k);
  }

  lemma ClaimClosedFits(k: Conn, c: nat, xs: seq<Session>, s: nat)
    requires ConnFits(k, c, xs) && s < |xs| && xs[s].conn == None && xs[s].phase == Found(c)
    requires k.slot == None && !k.serverOpen
    ensures ConnFits(ClaimConn(k, s), c, xs[s := AfterClaim(xs[s], k.slot)])
  {
    UnclaimedIsForeign(k, c, xs, s);
    assert ClaimConn(k, s) == k.(slot := Some(s));
    if k.era.Some? {
      SamePipeline(k, ClaimConn(k, s), xs[k.era.value], k.era.value);
    }
  }

  lemma ClaimConnFits(k: Conn, c: nat, xs: seq<Session>, s: nat)
    requires ConnFits(k, c, xs) && s < |xs| && SessionLocal(xs[s], s)
    requires xs[s].phase == Found(c)
    ensures k.era != Some(s) && k.slot != Some(s)
    ensures ConnFits(ClaimConn(k, s), c, xs[s := AfterClaim(xs[s], k.slot)])
  {
    UnclaimedIsForeign(k, c, xs, s);
    if k.slot.Some? {
      ClaimRefusedFits(k, c, xs, s);
    } else if k.serverOpen {
      ClaimOpenFits(k, c, xs, s);
    } else {
      ClaimClosedFits(k, c, xs, s);
    }
  }

  lemma ClaimSessionFits(x: Session, s: JobId, cs: seq<Conn>)
    requires SessionFits(x, s, cs) && x.phase.Found?
    ensures var c := x.phase.conn;
            SessionFits(AfterClaim(x, cs[c].slot), s, cs[c := ClaimConn(cs[c], s)])
  {
  }

  lemma ClaimKeeps(w: World, s: nat)
    requires Inv(w) && IsSession(w, s) && w.sessions[s].phase.Found? && IsConn(w, w.sessions[s].phase.conn)
    ensures var x := w.sessions[s];
            var k := w.conns[x.phase.conn];
            Inv(SetBoth(w, x.phase.conn, ClaimConn(k, s), s, AfterClaim(x, k.slot)))
  {
    var x := w.sessions[s];
    var c := x.phase.conn;
    var k := w.conns[c];
    assert SessionFits(x, s, w.conns);
    ClaimConnFits(k, c, w.sessions, s);
    ClaimSessionFits(x, s, w.conns);
    BothChange(w, c, ClaimConn(k, s), s, AfterClaim(x, k.slot));
  }

  // A dispatched exec is the first order on its link; no frame of the job is anywhere.
  lemma SendExecFits(k: Conn, x: Session, s: JobId, down: seq<Message>, sending: Sending)
    requires Pipeline(k, x, s) && x.phase.Claimed?
    requires down == k.down || (k.serverOpen && down == k.down + [Exec(s, Coerce(x.command))])
    ensures Pipeline(k.(down := down), AfterDispatch(x, sending), s)
  {
    assert InFlight(k.(down := down)) == InFlight(k);
  }

  lemma SendExecConnFits(k: Conn, c: nat, xs: seq<Session>, s: nat, down: seq<Message>, sending: Sending)
    requires ConnFits(k, c, xs) && s < |xs| && xs[s].phase == Claimed(c) && k.slot == Some(s)
    requires down == k.down || (k.serverOpen && down == k.down + [Exec(s, Coerce(xs[s].command))])
    ensures ConnFits(k.(down := down), c, xs[s := AfterDispatch(xs[s], sending)])
  {
    if k.era == Some(s) {
      SendExecFits(k, xs[s], s, down, sending);
    } else {
      assert down == k.down && k.(down := down) == k;
    }
  }

  lemma SendExecSessionFits(x: Session, s: JobId, cs: seq<Conn>, c: nat, k': Conn, sending: Sending)
    requires SessionFits(x, s, cs) && x.phase == Claimed(c) && c < |cs| && k'.slot == cs[c].slot
    ensures SessionFits(AfterDispatch(x, sending), s, cs[c := k'])
  {
    assert SessionLocal(AfterDispatch(x, sending), s);
  }

  lemma SendExecKeeps(w: World, s: nat, sending: Sending)
    requires Inv(w) && IsSession(w, s) && w.sessions[s].phase.Claimed? && IsConn(w, w.sessions[s].phase.conn)
    ensures var x := w.sessions[s];
            var c := x.phase.conn;
            var k := w.conns[c];
            Inv(SetBoth(w, c, k.(down := SendResult(k.serverOpen, k.down, Exec(s, Coerce(x.command)), sending)),
                        s, AfterDispatch(x, sending)))
  {
    var x := w.sessions[s];
    var c := x.phase.conn;
    var k := w.conns[c];
    assert SessionFits(x, s, w.conns);
    assert ConnFits(k, c, w.sessions);
    var down := SendResult(k.serverOpen, k.down, Exec(s, Coerce(x.command)), sending);
    SendExecConnFits(k, c, w.sessions, s, down, sending);
    SendExecSessionFits(x, s, w.conns, c, k.(down := down), sending);
    BothChange(w, c, k.(down := down), s, AfterDispatch(x, sending));
  }

  // A streaming session changes without touching its connection.
  lemma StreamKeeps(w: World, s: nat, x': Session)
    requires Inv(w) && IsSession(w, s) && w.sessions[s].phase.Streaming?
    requires var x := w.sessions[s];
             && x'.conn == x.conn && x'.runs == x.runs && x'.emitted == x.emitted && x'.command == x.command
             && x'.taken + x'.events == x.taken + x.events
             && SlotConn(x'.phase) == SlotConn(x.phase) && !x'.phase.Claimed? && !PastClose(x'.phase)
             && SessionLocal(x', s)
    ensures Inv(SetSession(w, s, x'))
  {
    var x := w.sessions[s];
    assert SessionFits(x, s, w.conns);
    forall i | 0 <= i < |w.conns| && w.conns[i].era == Some(s) ensures Pipeline(w.conns[i], x', s) {
      assert ConnFits(w.conns[i], i, w.sessions);
    }
    SessionChange(w, s, x');
  }

  lemma InterruptKeeps(w: World, s: nat, why: Outcome)
    requires Inv(w) && IsSession(w, s) && w.sessions[s].phase.Streaming?
    requires !why.AgentExit? && !why.Oversize?
    ensures Inv(SetSession(w, s, w.sessions[s].(phase := Unwinding(w.sessions[s].phase.conn, 0, why))))
  {
    var x := w.sessions[s];
    assert SessionFits(x, s, w.conns);
    StreamKeeps(w, s, x.(phase := Unwinding(x.phase.conn, 0, why)));
  }

  lemma NextInOrder(all: seq<Message>, taken: seq<Message>, events: seq<Message>)
    requires taken + events <= all && events != []
    ensures taken + [events[0]] <= all && all[|taken|] == events[0]
    ensures (taken + [events[0]]) + events[1..] == taken + events
  {
    assert (taken + events)[|taken|] == events[0];
  }

  // The next message fits the bytes still allowed, and taking it keeps the order.
  lemma TakeNext(x: Session, s: JobId)
    requires SessionLocal(x, s) && x.phase.Streaming? && x.events != []
    ensures var m := x.events[0];
            && x.taken + [m] <= x.emitted
            && (x.taken + [m]) + x.events[1..] == x.taken + x.events
            && (m.Output? || m.Exit?) && m.id == s
            && x.total + |Bytes(m)| <= MAX_OUTPUT
            && AllBytes(x.taken + [m]) == x.written + Bytes(m)
            && (m.Output? ==> !HasExit(x.taken + [m]))
  {
    var m := x.events[0];
    NextInOrder(x.emitted, x.taken, x.events);
    AllBytesSnoc(x.taken, m);
    AllBytesPrefix(x.taken + [m], x.emitted);
  }

  lemma ReceiveExit(x: Session, s: JobId, writing: Writing)
    requires SessionLocal(x, s) && x.phase.Streaming? && x.events != [] && x.events[0].Exit?
    requires writing.Partial? ==> writing.n <= |Bytes(x.events[0])|
    ensures SessionLocal(AfterReceive(x, writing), s)
  {
    TakeNext(x, s);
  }

  lemma ReceiveOutput(x: Session, s: JobId, writing: Writing)
    requires SessionLocal(x, s) && x.phase.Streaming? && x.events != [] && x.events[0].Output?
    requires writing.Partial? ==> writing.n <= |Bytes(x.events[0])|
    ensures SessionLocal(AfterReceive(x, writing), s)
  {
    TakeNext(x, s);
  }

  lemma ReceiveFits(x: Session, s: JobId, writing: Writing)
    requires SessionLocal(x, s) && x.phase.Streaming? && x.events != []
    requires writing.Partial? ==> writing.n <= |Bytes(x.events[0])|
    ensures SessionLocal(AfterReceive(x, writing), s)
    ensures var x' := AfterReceive(x, writing); x'.taken + x'.events == x.taken + x.events
  {
    TakeNext(x, s);
    if x.events[0].Exit? {
      ReceiveExit(x, s, writing);
    } else {
      ReceiveOutput(x, s, writing);
    }
  }

  lemma ReceiveKeeps(w: World, s: nat, writing: Writing)
    requires Inv(w) && IsSession(w, s) && w.sessions[s].phase.Streaming? && w.sessions[s].events != []
    requires writing.Partial? ==> writing.n <= |Bytes(w.sessions[s].events[0])|
    ensures Inv(SetSession(w, s, AfterReceive(w.sessions[s], writing)))
  {
    assert SessionFits(w.sessions[s], s, w.conns);
    ReceiveFits(w.sessions[s], s, writing);
    StreamKeeps(w, s, AfterReceive(w.sessions[s], writing));
  }

  // Clearing the slot after an exit leaves nothing of the job behind, unless the
  // server has closed the connection.
  lemma ExitLeavesClean(k: Conn, c: nat, x: Session, s: JobId, xs: seq<Session>)
    requires s < |xs| && xs[s] == x && x.phase.Finishing? && x.phase.conn == c
    requires ConnFits(k, c, xs) && SessionLocal(x, s) && k.slot == Some(s)
    ensures k.serverOpen ==> Clean(k)
  {
    if k.serverOpen {
      assert x.taken[|x.taken| - 1].Exit?;
      assert x.emitted[|x.taken| - 1] == x.taken[|x.taken| - 1];
      assert |x.emitted| == |x.taken|;
      assert InFlight(k) == [];
      assert HasExit(x.emitted);
      assert k.job == None;
      OrdersOf(k.down, s, x.command);
    }
  }

  lemma ReleaseKeeps(w: World, s: nat)
    requires Inv(w) && IsSession(w, s) && w.sessions[s].phase.Finishing? && IsConn(w, w.sessions[s].phase.conn)
    ensures var x := w.sessions[s];
            var c := x.phase.conn;
            Inv(SetBoth(w, c, w.conns[c].(slot := None), s, x.(phase := Forwarding(c, x.phase.code))))
  {
    var x := w.sessions[s];
    var c := x.phase.conn;
    var k := w.conns[c];
    assert SessionFits(x, s, w.conns);
    assert ConnFits(k, c, w.sessions);
    ExitLeavesClean(k, c, x, s, w.sessions);
    BothChange(w, c, k.(slot := None), s, x.(phase := Forwarding(c, x.phase.code)));
  }

  // After an exit the deferred clean-up finds the slot empty or taken by another job.
  lemma FinishKeeps(w: World, s: nat)
    requires Inv(w) && IsSession(w, s) && w.sessions[s].phase.Forwarding? && IsConn(w, w.sessions[s].phase.conn)
    ensures var x := w.sessions[s];
            var c := x.phase.conn;
            && w.conns[c].slot != Some(s)
            && Inv(SetBoth(w, c, w.conns[c].(slot := SlotAfterRelease(w.conns[c].slot, s)),
                           s, x.(phase := Closed(AgentExit(x.phase.code)))))
  {
    var x := w.sessions[s];
    var c := x.phase.conn;
    var k := w.conns[c];
    assert SessionFits(x, s, w.conns);
    assert ConnFits(k, c, w.sessions);
    assert k.(slot := SlotAfterRelease(k.slot, s)) == k;
    BothChange(w, c, k, s, x.(phase := Closed(AgentExit(x.phase.code))));
  }

  lemma CancelFits(down: seq<Message>, s: JobId, command: seq<Byte>)
    requires DownFits(down, s, command)
    ensures DownFits(down + [Cancel(s)], s, command)
    ensures PendingExec(down + [Cancel(s)]) <==> PendingExec(down)
  {
  }

  // The order of the deferred clean-up: cancel, close, release.
  lemma UnwindFirst(k: Conn, x: Session, s: JobId, sending: Sending)
    requires Pipeline(k, x, s) && x.phase.Unwinding? && x.phase.stage == 0
    ensures Pipeline(UnwindConn(k, s, 0, sending), AfterUnwind(x), s)
  {
    CancelFits(k.down, s, x.command);
    assert InFlight(UnwindConn(k, s, 0, sending)) == InFlight(k);
  }

  lemma UnwindSecond(k: Conn, x: Session, s: JobId, sending: Sending)
    requires Pipeline(k, x, s) && x.phase.Unwinding? && x.phase.stage == 1
    ensures Pipeline(UnwindConn(k, s, 1, sending), AfterUnwind(x), s)
  {
    assert InFlight(UnwindConn(k, s, 1, sending)) == InFlight(k);
  }

  lemma UnwindThird(k: Conn, x: Session, s: JobId, sending: Sending)
    requires Pipeline(k, x, s) && x.phase.Unwinding? && x.phase.stage >= 2 && !k.serverOpen
    ensures Pipeline(UnwindConn(k, s, x.phase.stage, sending), AfterUnwind(x), s)
  {
    assert InFlight(UnwindConn(k, s, x.phase.stage, sending)) == InFlight(k);
  }

  lemma UnwindFits(k: Conn, x: Session, s: JobId, sending: Sending)
    requires Pipeline(k, x, s) && x.phase.Unwinding? && (k.serverOpen ==> x.phase.stage < 2)
    ensures Pipeline(UnwindConn(k, s, x.phase.stage, sending), AfterUnwind(x), s)
  {
    if x.phase.stage == 0 {
      UnwindFirst(k, x, s, sending);
    } else if x.phase.stage == 1 {
      UnwindSecond(k, x, s, sending);
    } else {
      UnwindThird(k, x, s, sending);
    }
  }

  lemma UnwindSession(x: Session, s: JobId)
    requires SessionLocal(x, s) && x.phase.Unwinding?
    ensures SessionLocal(AfterUnwind(x), s) && AfterUnwind(x).conn == x.conn
  {
  }

  // The pipeline of another job does not notice: the server end is closed.
  lemma UnwindOther(k: Conn, y: Session, j: JobId, s: JobId, stage: nat, sending: Sending)
    requires Pipeline(k, y, j) && !k.serverOpen
    ensures Pipeline(UnwindConn(k, s, stage, sending), y, j)
  {
    assert UnwindConn(k, s, stage, sending) == k.(slot := UnwindConn(k, s, stage, sending).slot);
    assert InFlight(UnwindConn(k, s, stage, sending)) == InFlight(k);
  }

  lemma UnwindShape(k: Conn, s: JobId, stage: nat, sending: Sending)
    requires k.slot == Some(s)
    ensures var k' := UnwindConn(k, s, stage, sending);
            && k' == k.(down := k'.down, serverOpen := k'.serverOpen, slot := k'.slot)
            && k'.slot == (if stage < 2 then Some(s) else None)
            && k'.serverOpen == (k.serverOpen && stage != 1)
  {
  }

  lemma UnwindPhase(x: Session)
    requires x.phase.Unwinding?
    ensures AfterUnwind(x) == x.(phase := AfterUnwind(x).phase)
    ensures SlotConn(AfterUnwind(x).phase) == if x.phase.stage < 2 then Some(x.phase.conn) else None
    ensures PastClose(AfterUnwind(x).phase) <==> x.phase.stage == 1
    ensures !AfterUnwind(x).phase.Found?
  {
  }

  lemma UnwindPipeline(k: Conn, c: nat, xs: seq<Session>, s: nat, sending: Sending)
    requires ConnFits(k, c, xs) && s < |xs| && k.era.Some?
    requires xs[s].phase.Unwinding? && k.slot == Some(s)
    ensures Pipeline(UnwindConn(k, s, xs[s].phase.stage, sending), xs[s := AfterUnwind(xs[s])][k.era.value], k.era.value)
  {
    if k.era == Some(s) {
      UnwindFits(k, xs[s], s, sending);
    } else {
      UnwindOther(k, xs[k.era.value], k.era.value, s, xs[s].phase.stage, sending);
    }
  }

  lemma UnwindConnFits(k: Conn, c: nat, xs: seq<Session>, s: nat, sending: Sending)
    requires ConnFits(k, c, xs) && s < |xs|
    requires xs[s].phase.Unwinding? && xs[s].phase.conn == c && k.slot == Some(s)
    ensures ConnFits(UnwindConn(k, s, xs[s].phase.stage, sending), c, xs[s := AfterUnwind(xs[s])])
  {
    UnwindShape(k, s, xs[s].phase.stage, sending);
    UnwindPhase(xs[s]);
    if k.era.Some? {
      UnwindPipeline(k, c, xs, s, sending);
    }
  }

  lemma UnwindSessionFits(x: Session, s: JobId, cs: seq<Conn>, k': Conn)
    requires SessionFits(x, s, cs) && x.phase.Unwinding? && x.phase.conn < |cs|
    requires k'.slot == if x.phase.stage < 2 then Some(s) else None
    ensures SessionFits(AfterUnwind(x), s, cs[x.phase.conn := k'])
  {
    UnwindSession(x, s);
    UnwindPhase(x);
  }

  lemma UnwindKeeps(w: World, s: nat, sending: Sending)
    requires Inv(w) && IsSession(w, s) && w.sessions[s].phase.Unwinding? && IsConn(w, w.sessions[s].phase.conn)
    ensures var x := w.sessions[s];
            var c := x.phase.conn;
            Inv(SetBoth(w, c, UnwindConn(w.conns[c], s, x.phase.stage, sending), s, AfterUnwind(x)))
  {
    var x := w.sessions[s];
    var c := x.phase.conn;
    var k := w.conns[c];
    UnwindHolds(w, s);
    UnwindShape(k, s, x.phase.stage, sending);
    UnwindConnFits(k, c, w.sessions, s, sending);
    UnwindSessionFits(x, s, w.conns, UnwindConn(k, s, x.phase.stage, sending));
    UnwindPhase(x);
    BothChange(w, c, UnwindConn(k, s, x.phase.stage, sending), s, AfterUnwind(x));
  }

  lemma UnwindHolds(w: World, s: nat)
    requires Inv(w) && IsSession(w, s) && w.sessions[s].phase.Unwinding? && IsConn(w, w.sessions[s].phase.conn)
    ensures var x := w.sessions[s];
            && x.conn == Some(x.phase.conn) && w.conns[x.phase.conn].slot == Some(s)
            && SessionFits(x, s, w.conns) && ConnFits(w.conns[x.phase.conn], x.phase.conn, w.sessions)
  {
    assert SessionFits(w.sessions[s], s, w.conns);
  }

  lemma SessionKeeps(w: World, step: SessionStep)
    requires Inv(w) && SessionEnabled(w, step)
    ensures Inv(SessionApply(w, step))
  {
    match step
    case Open(srv, payload) => OpenKeeps(w, srv, Audit.ParseString(payload).text);
    case Refuse(s, why) => PhaseKeeps(w, s, Closed(why));
    case Lookup(s) =>
      var srv := w.sessions[s].server;
      PhaseKeeps(w, s, if srv in w.hub then Found(w.hub[srv]) else Closed(Offline));
    case Claim(s) => ClaimKeeps(w, s);
    case SendExec(s, sending) => SendExecKeeps(w, s, sending);
    case Interrupt(s, why) => InterruptKeeps(w, s, why);
    case Receive(s, writing) => ReceiveKeeps(w, s, writing);
    case Release(s) => ReleaseKeeps(w, s);
    case Finish(s) => FinishKeeps(w, s);
    case Unwind(s, sending) => UnwindKeeps(w, s, sending);
  }

  lemma RecordsDoNotMatter(w: World, records: seq<Record>)
    requires Inv(w)
    ensures Inv(w.(records := records))
  {
  }

  lemma StepKeeps(w: World, step: Step)
    requires Inv(w) && Enabled(w, step)
    ensures Inv(Apply(w, step))
  {
    match step
    case Hub(h) => HubKeeps(w, h);
    case Agent(a) => AgentKeeps(w, a);
    case Ssh(s, told) =>
      SessionKeeps(w, s);
      RecordsDoNotMatter(SessionApply(w, s), RecordsAfter(w, s, told));
  }

  lemma {:induction false} RunKeeps(trace: seq<World>, i: nat)
    requires IsRun(trace) && i < |trace|
    ensures Inv(trace[i])
  {
    if i == 0 {
    } else {
      RunKeeps(trace, i - 1);
      assert StepAt(trace, i);
      var step :| Enabled(trace[i - 1], step) && trace[i] == Apply(trace[i - 1], step);
      StepKeeps(trace[i - 1], step);
    }
  }

  // ---- what holds in every world of every run ----

  /** In every world of every run the next order on a live link is a cancel, or the
      exec of a session that claimed the connection, with its command as it arrives,
      while the agent has no task. So the agent never refuses an order as concurrent or
      unsupported, and it refuses an exec as invalid if and only if the arriving text
      is beyond the limit, although the server measured the command to be within. */
  lemma AgentRefusesIff(trace: seq<World>, i: nat, c: nat)
    requires IsRun(trace) && i < |trace| && IsConn(trace[i], c)
    requires trace[i].conns[c].looping && trace[i].conns[c].down != []
    ensures var k := trace[i].conns[c];
            var m := k.down[0];
            && IsSession(trace[i], m.id) && trace[i].sessions[m.id].conn == Some(c)
            && |trace[i].sessions[m.id].command| <= 65536
            && (m == Cancel(m.id) || m == Exec(m.id, Coerce(trace[i].sessions[m.id].command)))
            && (m.Exec? ==> k.job == None && k.tasks == {})
            && ClientDecision(k.job, m) != Abort(ConcurrentTask) && ClientDecision(k.job, m) != Abort(Unsupported)
            && (ClientDecision(k.job, m).Abort? <==> m.Exec? && |Coerce(trace[i].sessions[m.id].command)| > 65536)
  {
    RunKeeps(trace, i);
    OrderedSession(trace[i], c);
    var k := trace[i].conns[c];
    var j := k.era.value;
    if PendingExec(k.down) {
      ExecDecision(k, trace[i].sessions[j], j);
    } else {
      CancelReadFits(k, trace[i].sessions[j], j);
    }
  }

  /** A command that is valid UTF-8 is accepted, and arrives as it was sent. */
  lemma ValidCommandsAreStarted(trace: seq<World>, i: nat, c: nat)
    requires IsRun(trace) && i < |trace| && IsConn(trace[i], c)
    requires trace[i].conns[c].looping && PendingExec(trace[i].conns[c].down)
    ensures var k := trace[i].conns[c];
            var j := k.down[0].id;
            IsSession(trace[i], j) && (IsUtf8(trace[i].sessions[j].command) ==>
              ClientDecision(k.job, k.down[0]) == Start && k.down[0].command == trace[i].sessions[j].command)
  {
    AgentRefusesIff(trace, i, c);
    CoercedLength(trace[i].sessions[trace[i].conns[c].down[0].id].command);
    RunKeeps(trace, i);
    OrderedSession(trace[i], c);
    ExecDecision(trace[i].conns[c], trace[i].sessions[trace[i].conns[c].era.value], trace[i].conns[c].era.value);
  }

  /** What an SSH client has received from the agent is an in-order prefix of what
      the agent emitted for this very job, and all of it, ending with the agent's
      exit code, once the session forwards that code. */
  lemma OutputIsFaithful(trace: seq<World>, i: nat, s: nat)
    requires IsRun(trace) && i < |trace| && IsSession(trace[i], s)
    ensures var x := trace[i].sessions[s];
            && x.written <= AllBytes(x.emitted)
            && (forall m | m in x.emitted :: m.id == s)
            && (AgentCode(x.phase).Some? ==>
                  && x.written == AllBytes(x.emitted)
                  && x.emitted != []
                  && x.emitted[|x.emitted| - 1] == Exit(s, AgentCode(x.phase).value))
  {
    RunKeeps(trace, i);
    var x := trace[i].sessions[s];
    assert SessionFits(x, s, trace[i].conns);
    AllBytesPrefix(x.taken, x.emitted);
    if AgentCode(x.phase).Some? {
      assert x.emitted[|x.taken| - 1] == x.taken[|x.taken| - 1];
      assert x.taken == x.emitted;
    }
  }

  /** Across all its connections an agent process has at most one task, each task
      belongs to a session that claimed that connection, and no job starts twice. */
  lemma OneTaskPerAgent(trace: seq<World>, i: nat, c: nat, d: nat, t: JobId, u: JobId)
    requires IsRun(trace) && i < |trace| && IsConn(trace[i], c) && IsConn(trace[i], d)
    requires trace[i].conns[c].agent == trace[i].conns[d].agent
    requires t in trace[i].conns[c].tasks && u in trace[i].conns[d].tasks
    ensures c == d && t == u
    ensures IsSession(trace[i], t) && trace[i].sessions[t].conn == Some(c) && trace[i].sessions[t].runs == 1
  {
    RunKeeps(trace, i);
    var w := trace[i];
    assert ConnFits(w.conns[c], c, w.sessions) && ConnFits(w.conns[d], d, w.sessions);
    OneLiveOf(w.conns, c, d);
  }

  lemma OneLiveOf(cs: seq<Conn>, c: nat, d: nat)
    requires OneLive(cs) && c < |cs| && d < |cs| && cs[c].agent == cs[d].agent
    ensures c == d || cs[c].ended || cs[d].ended
  {
  }

  lemma NoJobStartsTwice(trace: seq<World>, i: nat, s: nat)
    requires IsRun(trace) && i < |trace| && IsSession(trace[i], s)
    ensures trace[i].sessions[s].runs <= 1
  {
    RunKeeps(trace, i);
    assert SessionFits(trace[i].sessions[s], s, trace[i].conns);
  }

  /** A connection's slot names the one session that is between claiming it and
      cleaning up; no two sessions are in that state on the same connection. */
  lemma SlotIsExclusive(trace: seq<World>, i: nat, s: nat, t: nat)
    requires IsRun(trace) && i < |trace| && IsSession(trace[i], s) && IsSession(trace[i], t)
    requires SlotConn(trace[i].sessions[s].phase).Some?
    requires SlotConn(trace[i].sessions[s].phase) == SlotConn(trace[i].sessions[t].phase)
    ensures s == t
    ensures var c := SlotConn(trace[i].sessions[s].phase).value;
            IsConn(trace[i], c) && trace[i].conns[c].slot == Some(s)
  {
    RunKeeps(trace, i);
    assert SessionFits(trace[i].sessions[s], s, trace[i].conns);
    assert SessionFits(trace[i].sessions[t], t, trace[i].conns);
  }

  /** A held slot is only given up by the session that holds it, and only after the
      agent's exit was received or the server closed the connection. */
  lemma SlotIsOnlyGivenUp(trace: seq<World>, i: nat, step: Step, c: nat, t: JobId)
    requires IsRun(trace) && i < |trace| && Enabled(trace[i], step)
    requires IsConn(trace[i], c) && trace[i].conns[c].slot == Some(t)
    ensures IsConn(Apply(trace[i], step), c) && IsSession(trace[i], t)
    ensures Apply(trace[i], step).conns[c].slot != Some(t) ==>
              && Apply(trace[i], step).conns[c].slot == None
              && ((step.Ssh? && step.ssh == Release(t) && AgentCode(trace[i].sessions[t].phase).Some?)
                  || (step.Ssh? && step.ssh.Unwind? && step.ssh.s == t && !trace[i].conns[c].serverOpen))
  {
    RunKeeps(trace, i);
    var w := trace[i];
    assert ConnFits(w.conns[c], c, w.sessions);
    match step
    case Hub(h) => HubLeavesSlots(w, h, c);
    case Agent(a) => AgentLeavesSlots(w, a, c);
    case Ssh(s, _) =>
      if !s.Open? {
        SlotHolder(w, s.s, c, t);
        SessionSlots(w, s, c, t);
      }
  }

  lemma HubLeavesSlots(w: World, step: HubStep, c: nat)
    requires HubEnabled(w, step) && IsConn(w, c)
    ensures IsConn(HubApply(w, step), c) && HubApply(w, step).conns[c].slot == w.conns[c].slot
  {
  }

  lemma AgentLeavesSlots(w: World, step: AgentStep, c: nat)
    requires AgentEnabled(w, step) && IsConn(w, c)
    ensures IsConn(AgentApply(w, step), c) && AgentApply(w, step).conns[c].slot == w.conns[c].slot
  {
  }

  // What the invariant says about the holder of a slot.
  lemma SlotHolder(w: World, s: nat, c: nat, t: JobId)
    requires Inv(w) && IsSession(w, s) && IsConn(w, c) && w.conns[c].slot == Some(t)
    ensures IsSession(w, t) && SlotConn(w.sessions[t].phase) == Some(c)
    ensures w.conns[c].serverOpen ==> !PastClose(w.sessions[t].phase)
    ensures SlotConn(w.sessions[s].phase) == Some(c) ==> s == t
  {
    assert ConnFits(w.conns[c], c, w.sessions);
    assert SessionFits(w.sessions[s], s, w.conns);
  }

  lemma SessionSlots(w: World, step: SessionStep, c: nat, t: JobId)
    requires SessionEnabled(w, step) && !step.Open?
    requires IsConn(w, c) && w.conns[c].slot == Some(t) && IsSession(w, t)
    requires SlotConn(w.sessions[t].phase) == Some(c)
    requires w.conns[c].serverOpen ==> !PastClose(w.sessions[t].phase)
    requires SlotConn(w.sessions[step.s].phase) == Some(c) ==> step.s == t
    ensures IsConn(SessionApply(w, step), c)
    ensures SessionApply(w, step).conns[c].slot != Some(t) ==>
              && SessionApply(w, step).conns[c].slot == None
              && ((step == Release(t) && AgentCode(w.sessions[t].phase).Some?)
                  || (step.Unwind? && step.s == t && !w.conns[c].serverOpen))
  {
  }

  /** Against this agent the hub's checks on type, size and exit code never fail,
      and the check on the job identifier only fails after the server has closed
      the connection. */
  lemma HubNeverRefusesAFrame(trace: seq<World>, i: nat, c: nat)
    requires IsRun(trace) && i < |trace| && IsConn(trace[i], c)
    requires trace[i].conns[c].reader.Waiting? && trace[i].conns[c].up != []
    ensures var k := trace[i].conns[c];
            && PeerAccepts(Some(k.up[0].id), k.up[0])
            && (k.serverOpen ==> PeerAccepts(k.slot, k.up[0]))
  {
    RunKeeps(trace, i);
    var w := trace[i];
    var k := w.conns[c];
    assert ConnFits(k, c, w.sessions);
    var x := w.sessions[k.era.value];
    assert SessionFits(x, k.era.value, w.conns);
    assert x.emitted[|x.taken + x.events|] == k.up[0];
  }

  lemma OutputLimitNeverReached(trace: seq<World>, i: nat, s: nat)
    requires IsRun(trace) && i < |trace| && IsSession(trace[i], s)
    ensures trace[i].sessions[s].phase != Closed(Oversize)
    ensures !(trace[i].sessions[s].phase.Unwinding? && trace[i].sessions[s].phase.why == Oversize)
    ensures |trace[i].sessions[s].written| <= 8388608
  {
    RunKeeps(trace, i);
    var x := trace[i].sessions[s];
    assert SessionFits(x, s, trace[i].conns);
    AllBytesPrefix(x.taken, x.emitted);
  }
}
