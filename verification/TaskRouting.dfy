/** Which agent a session reaches, over every run of the task protocol: a session
    only ever uses a connection that was admitted for its own server, a task is only
    told to stop for a session that gave it up, and a connection that a session left
    without the agent's exit is closed (agent.go, ServeHTTP and agentSession). */
module TaskRouting {
  import opened Wrappers
  import opened AgentWire
  import opened AgentPeers
  import opened AgentClients
  import opened JsonText
  import opened TaskProtocol
  import opened TaskSafety
  import Audit

  // Placed in the hub's peer map under this server.
  predicate Serves(c: Conn, srv: ServerId) {
    c.admitted && c.server == srv
  }

  // The clean-up without an exit has begun, or closed the connection.
  predicate GivesUp(p: Phase, stage: nat) {
    (p.Unwinding? && p.stage >= stage) || (p.Closed? && !p.why.AgentExit?)
  }

  predicate SessionRouted(x: Session, cs: seq<Conn>) {
    && (x.phase.Found? ==> x.phase.conn < |cs| && Serves(cs[x.phase.conn], x.server))
    && (x.conn.Some? ==>
          && x.conn.value < |cs| && Serves(cs[x.conn.value], x.server)
          && (GivesUp(x.phase, 2) ==> !cs[x.conn.value].serverOpen))
  }

  // A cancel is for a session whose clean-up has begun.
  predicate OrdersFit(c: Conn, xs: seq<Session>) {
    forall k | 0 <= k < |c.down| && c.down[k].Cancel? :: c.down[k].id < |xs| && GivesUp(xs[c.down[k].id].phase, 1)
  }

  ghost predicate Routed(w: World) {
    && (forall srv | srv in w.hub :: w.hub[srv] < |w.conns| && Serves(w.conns[w.hub[srv]], srv))
    && (forall s | 0 <= s < |w.sessions| :: SessionRouted(w.sessions[s], w.conns))
    && (forall c | 0 <= c < |w.conns| :: OrdersFit(w.conns[c], w.sessions))
    && (forall c | 0 <= c < |w.conns| :: w.conns[c].done <==> w.conns[c].reader.Stopped?)
  }

  // ---- what never changes back ----

  predicate ConnGrows(c: Conn, c': Conn) {
    && (c.admitted ==> Serves(c', c.server))
    && (!c.serverOpen ==> !c'.serverOpen)
  }

  ghost predicate ConnsGrow(cs: seq<Conn>, cs': seq<Conn>) {
    |cs| <= |cs'| && forall c | 0 <= c < |cs| :: ConnGrows(cs[c], cs'[c])
  }

  predicate SessionGrows(x: Session, x': Session) {
    x'.server == x.server && (GivesUp(x.phase, 1) ==> GivesUp(x'.phase, 1))
  }

  ghost predicate SessionsGrow(xs: seq<Session>, xs': seq<Session>) {
    |xs| <= |xs'| && forall s | 0 <= s < |xs| :: SessionGrows(xs[s], xs'[s])
  }

  lemma SetGrows(cs: seq<Conn>, c: nat, k: Conn)
    requires c < |cs| && ConnGrows(cs[c], k)
    ensures ConnsGrow(cs, cs[c := k])
  {
  }

  lemma HubGrows(w: World, step: HubStep)
    requires HubEnabled(w, step)
    ensures ConnsGrow(w.conns, HubApply(w, step).conns) && SessionsGrow(w.sessions, HubApply(w, step).sessions)
  {
  }

  lemma AgentConnsGrow(w: World, step: AgentStep)
    requires AgentEnabled(w, step)
    ensures ConnsGrow(w.conns, AgentApply(w, step).conns)
  {
  }

  lemma AgentSessionsGrow(w: World, step: AgentStep)
    requires AgentEnabled(w, step)
    ensures SessionsGrow(w.sessions, AgentApply(w, step).sessions)
  {
  }

  lemma AgentGrows(w: World, step: AgentStep)
    requires AgentEnabled(w, step)
    ensures ConnsGrow(w.conns, AgentApply(w, step).conns) && SessionsGrow(w.sessions, AgentApply(w, step).sessions)
  {
    AgentConnsGrow(w, step);
    AgentSessionsGrow(w, step);
  }

  // A step of a session changes that session and at most the connection it uses.
  lemma MovedShape(w: World, step: SessionStep)
    requires SessionEnabled(w, step) && !step.Open?
    ensures var w' := SessionApply(w, step);
            && |w'.sessions| == |w.sessions| && w'.sessions == w.sessions[step.s := w'.sessions[step.s]]
            && w'.sessions[step.s].server == w.sessions[step.s].server && w'.hub == w.hub
  {
  }

  lemma MovedPhase(x: Session, s: JobId, w: World, step: SessionStep)
    requires SessionEnabled(w, step) && !step.Open? && step.s == s && w.sessions[s] == x && SessionLocal(x, s)
    ensures GivesUp(x.phase, 1) ==> GivesUp(SessionApply(w, step).sessions[s].phase, 1)
  {
  }

  lemma MovedConns(w: World, step: SessionStep)
    requires SessionEnabled(w, step) && !step.Open?
    ensures ConnsGrow(w.conns, SessionApply(w, step).conns)
  {
    var x, w' := w.sessions[step.s], SessionApply(w, step);
    if step.Claim? || step.SendExec? || step.Release? || step.Finish? || step.Unwind? {
      var c := x.phase.conn;
      assert w'.conns == w.conns[c := w'.conns[c]];
      SetGrows(w.conns, c, w'.conns[c]);
    } else {
      assert w'.conns == w.conns;
    }
  }

  lemma MoveGrows(w: World, step: SessionStep)
    requires Inv(w) && SessionEnabled(w, step)
    ensures ConnsGrow(w.conns, SessionApply(w, step).conns) && SessionsGrow(w.sessions, SessionApply(w, step).sessions)
  {
    if !step.Open? {
      assert SessionFits(w.sessions[step.s], step.s, w.conns);
      MovedShape(w, step);
      MovedPhase(w.sessions[step.s], step.s, w, step);
      MovedConns(w, step);
    }
  }

  // ---- what grows keeps ----

  lemma RoutedStays(x: Session, cs: seq<Conn>, x': Session, cs': seq<Conn>)
    requires SessionRouted(x, cs) && ConnsGrow(cs, cs')
    requires x'.server == x.server && x'.phase == x.phase && x'.conn == x.conn
    ensures SessionRouted(x', cs')
  {
  }

  lemma OrdersStay(c: Conn, xs: seq<Session>, c': Conn, xs': seq<Session>)
    requires OrdersFit(c, xs) && SessionsGrow(xs, xs')
    requires forall m | m in c'.down && m.Cancel? :: m in c.down
    ensures OrdersFit(c', xs')
  {
    forall k | 0 <= k < |c'.down| && c'.down[k].Cancel?
      ensures c'.down[k].id < |xs'| && GivesUp(xs'[c'.down[k].id].phase, 1)
    {
      assert c'.down[k] in c'.down;
      var i :| 0 <= i < |c.down| && c.down[i] == c'.down[k];
      assert SessionGrows(xs[c.down[i].id], xs'[c.down[i].id]);
    }
  }

  ghost predicate NoNewOrders(cs: seq<Conn>, c: nat, k: Conn) {
    forall m | m in k.down :: c < |cs| && m in cs[c].down
  }

  // Hub and agent move no session and send no cancel.
  lemma PassiveKeeps(w: World, w': World)
    requires Routed(w) && ConnsGrow(w.conns, w'.conns) && SessionsGrow(w.sessions, w'.sessions)
    requires |w'.sessions| == |w.sessions|
    requires forall s | 0 <= s < |w.sessions| ::
               w'.sessions[s].phase == w.sessions[s].phase && w'.sessions[s].conn == w.sessions[s].conn
    requires forall c | 0 <= c < |w'.conns| :: NoNewOrders(w.conns, c, w'.conns[c])
    requires forall c | 0 <= c < |w'.conns| :: w'.conns[c].done <==> w'.conns[c].reader.Stopped?
    requires forall srv | srv in w'.hub :: w'.hub[srv] < |w'.conns| && Serves(w'.conns[w'.hub[srv]], srv)
    ensures Routed(w')
  {
    forall s | 0 <= s < |w'.sessions| ensures SessionRouted(w'.sessions[s], w'.conns) {
      assert SessionGrows(w.sessions[s], w'.sessions[s]);
      RoutedStays(w.sessions[s], w.conns, w'.sessions[s], w'.conns);
    }
    forall c | 0 <= c < |w'.conns| ensures OrdersFit(w'.conns[c], w'.sessions) {
      if c < |w.conns| {
        OrdersStay(w.conns[c], w.sessions, w'.conns[c], w'.sessions);
      } else {
        assert forall k | 0 <= k < |w'.conns[c].down| :: w'.conns[c].down[k] in w'.conns[c].down;
      }
    }
  }

  lemma HubKeepsRoutes(w: World, step: HubStep)
    requires Routed(w) && HubEnabled(w, step)
    ensures Routed(HubApply(w, step))
  {
    HubGrows(w, step);
    PassiveKeeps(w, HubApply(w, step));
  }

  // An agent takes orders from its link and leaves the server's end alone.
  lemma AgentOrders(w: World, step: AgentStep, c: nat)
    requires AgentEnabled(w, step) && IsConn(AgentApply(w, step), c)
    ensures NoNewOrders(w.conns, c, AgentApply(w, step).conns[c])
  {
  }

  lemma AgentLeavesReaders(w: World, step: AgentStep, c: nat)
    requires AgentEnabled(w, step) && IsConn(AgentApply(w, step), c)
    ensures var k' := AgentApply(w, step).conns[c];
            if IsConn(w, c) then k'.done == w.conns[c].done && k'.reader == w.conns[c].reader
            else !k'.done && k'.reader.Waiting?
  {
  }

  lemma AgentKeepsRoutes(w: World, step: AgentStep)
    requires Routed(w) && AgentEnabled(w, step)
    ensures Routed(AgentApply(w, step))
  {
    var w' := AgentApply(w, step);
    AgentGrows(w, step);
    forall c | 0 <= c < |w'.conns| ensures NoNewOrders(w.conns, c, w'.conns[c]) {
      AgentOrders(w, step, c);
    }
    forall c | 0 <= c < |w'.conns| ensures w'.conns[c].done <==> w'.conns[c].reader.Stopped? {
      AgentLeavesReaders(w, step, c);
    }
    forall srv | srv in w'.hub ensures w'.hub[srv] < |w'.conns| && Serves(w'.conns[w'.hub[srv]], srv) {
      assert ConnGrows(w.conns[w.hub[srv]], w'.conns[w'.hub[srv]]);
    }
    PassiveKeeps(w, w');
  }

  // ---- the steps of a session ----

  lemma FoundSession(w: World, step: SessionStep)
    requires Routed(w) && SessionEnabled(w, step) && (step.Lookup? || step.Claim?)
    requires w.sessions[step.s].conn == None
    ensures SessionRouted(SessionApply(w, step).sessions[step.s], SessionApply(w, step).conns)
  {
    var x, w' := w.sessions[step.s], SessionApply(w, step);
    assert SessionRouted(x, w.conns);
    MovedConns(w, step);
    if step.Claim? {
      assert ConnGrows(w.conns[x.phase.conn], w'.conns[x.phase.conn]);
    }
  }

  // Any other step keeps the session's connection, and gives up only what it closed.
  lemma LaterShape(w: World, step: SessionStep)
    requires SessionEnabled(w, step) && !step.Open? && !step.Lookup? && !step.Claim?
    ensures var x, w' := w.sessions[step.s], SessionApply(w, step);
            var x' := w'.sessions[step.s];
            && x'.conn == x.conn && x'.server == x.server && !x'.phase.Found?
            && (GivesUp(x'.phase, 2) && !GivesUp(x.phase, 2) ==>
                  || BeforeClaim(x.phase)
                  || (x.phase.Unwinding? && IsConn(w', x.phase.conn) && !w'.conns[x.phase.conn].serverOpen))
  {
  }

  lemma StaysRouted(x: Session, cs: seq<Conn>, x': Session, cs': seq<Conn>, s: JobId)
    requires SessionRouted(x, cs) && SessionLocal(x, s) && ConnsGrow(cs, cs')
    requires x'.conn == x.conn && x'.server == x.server && !x'.phase.Found?
    requires GivesUp(x'.phase, 2) && !GivesUp(x.phase, 2) ==>
               BeforeClaim(x.phase) || (x.phase.Unwinding? && x.phase.conn < |cs'| && !cs'[x.phase.conn].serverOpen)
    ensures SessionRouted(x', cs')
  {
    if x.conn.Some? {
      assert ConnGrows(cs[x.conn.value], cs'[x.conn.value]);
    }
  }

  lemma LaterSession(w: World, step: SessionStep)
    requires Inv(w) && Routed(w) && SessionEnabled(w, step) && !step.Open? && !step.Lookup? && !step.Claim?
    ensures SessionRouted(SessionApply(w, step).sessions[step.s], SessionApply(w, step).conns)
  {
    assert SessionFits(w.sessions[step.s], step.s, w.conns);
    LaterShape(w, step);
    MovedConns(w, step);
    StaysRouted(w.sessions[step.s], w.conns, SessionApply(w, step).sessions[step.s], SessionApply(w, step).conns, step.s);
  }

  lemma MovedSession(w: World, step: SessionStep)
    requires Inv(w) && Routed(w) && SessionEnabled(w, step) && !step.Open?
    ensures SessionRouted(SessionApply(w, step).sessions[step.s], SessionApply(w, step).conns)
  {
    assert SessionFits(w.sessions[step.s], step.s, w.conns);
    if step.Lookup? || step.Claim? {
      FoundSession(w, step);
    } else {
      LaterSession(w, step);
    }
  }

  // The orders on the links after a session's step: at most its own cancel is new.
  lemma MovedOrders(w: World, step: SessionStep, c: nat)
    requires Inv(w) && Routed(w) && SessionEnabled(w, step) && !step.Open? && IsConn(w, c)
    ensures OrdersFit(SessionApply(w, step).conns[c], SessionApply(w, step).sessions)
  {
    var s, w' := step.s, SessionApply(w, step);
    var k, k' := w.conns[c], w'.conns[c];
    MoveGrows(w, step);
    assert OrdersFit(k, w.sessions);
    if step.Unwind? && k'.down != k.down {
      assert k'.down == k.down + [Cancel(s)];
      OrdersStay(k, w.sessions, k, w'.sessions);
    } else {
      OrdersStay(k, w.sessions, k', w'.sessions);
    }
  }

  lemma MoveKeepsRoutes(w: World, step: SessionStep)
    requires Inv(w) && Routed(w) && SessionEnabled(w, step) && !step.Open?
    ensures Routed(SessionApply(w, step))
  {
    var w' := SessionApply(w, step);
    MoveGrows(w, step);
    MovedSession(w, step);
    forall s | 0 <= s < |w'.sessions| ensures SessionRouted(w'.sessions[s], w'.conns) {
      if s != step.s {
        assert w'.sessions[s] == w.sessions[s];
        RoutedStays(w.sessions[s], w.conns, w'.sessions[s], w'.conns);
      }
    }
    forall c | 0 <= c < |w'.conns| ensures OrdersFit(w'.conns[c], w'.sessions) {
      MovedOrders(w, step, c);
    }
    forall srv | srv in w'.hub ensures w'.hub[srv] < |w'.conns| && Serves(w'.conns[w'.hub[srv]], srv) {
      assert ConnGrows(w.conns[w.hub[srv]], w'.conns[w'.hub[srv]]);
    }
  }

  lemma OpenKeepsRoutes(w: World, step: SessionStep)
    requires Routed(w) && SessionEnabled(w, step) && step.Open?
    ensures Routed(SessionApply(w, step))
  {
    var w' := SessionApply(w, step);
    forall c | 0 <= c < |w'.conns| ensures OrdersFit(w'.conns[c], w'.sessions) {
      assert OrdersFit(w.conns[c], w.sessions);
      assert forall s | 0 <= s < |w.sessions| :: w'.sessions[s] == w.sessions[s];
    }
  }

  lemma StepKeepsRoutes(w: World, step: Step)
    requires Inv(w) && Routed(w) && Enabled(w, step)
    ensures Routed(Apply(w, step))
  {
    match step
    case Hub(h) => HubKeepsRoutes(w, h);
    case Agent(a) => AgentKeepsRoutes(w, a);
    case Ssh(s, _) =>
      if s.Open? { OpenKeepsRoutes(w, s); } else { MoveKeepsRoutes(w, s); }
  }

  lemma NextKeepsRoutes(w: World, w': World)
    requires Inv(w) && Routed(w) && Reaches(w, w')
    ensures Routed(w')
  {
    var step :| Enabled(w, step) && w' == Apply(w, step);
    StepKeepsRoutes(w, step);
  }

  lemma {:induction false} RunRoutes(trace: seq<World>, i: nat)
    requires IsRun(trace) && i < |trace|
    ensures Routed(trace[i])
  {
    if i > 0 {
      RunRoutes(trace, i - 1);
      RunKeeps(trace, i - 1);
      assert StepAt(trace, i);
      NextKeepsRoutes(trace[i - 1], trace[i]);
    }
  }

  // ---- what holds in every world of every run ----

  /** A command runs only on an agent whose connection was admitted for the server that
      its SSH session was opened for. */
  lemma TasksServeTheirServer(trace: seq<World>, i: nat, c: nat, t: JobId)
    requires IsRun(trace) && i < |trace| && IsConn(trace[i], c) && t in trace[i].conns[c].tasks
    ensures IsSession(trace[i], t) && Serves(trace[i].conns[c], trace[i].sessions[t].server)
  {
    OneTaskPerAgent(trace, i, c, c, t, t);
    RunRoutes(trace, i);
    assert SessionRouted(trace[i].sessions[t], trace[i].conns);
  }

  /** Whatever claims a connection and ends without the agent's exit has closed that
      connection, so no later session finds a task of it still running there. */
  lemma GivenUpIsClosed(trace: seq<World>, i: nat, s: nat)
    requires IsRun(trace) && i < |trace| && IsSession(trace[i], s)
    requires trace[i].sessions[s].phase.Closed? && !trace[i].sessions[s].phase.why.AgentExit?
    requires trace[i].sessions[s].conn.Some?
    ensures var c := trace[i].sessions[s].conn.value;
            && IsConn(trace[i], c) && !trace[i].conns[c].serverOpen
            && Serves(trace[i].conns[c], trace[i].sessions[s].server)
  {
    RunRoutes(trace, i);
    assert SessionRouted(trace[i].sessions[s], trace[i].conns);
  }

  /** An agent that reads a cancel stops the named task if it runs and nothing else,
      and the session of that name has given the task up. */
  lemma CancelsAreMeant(trace: seq<World>, i: nat, c: nat)
    requires IsRun(trace) && i < |trace| && IsConn(trace[i], c)
    requires trace[i].conns[c].looping && trace[i].conns[c].down != [] && trace[i].conns[c].down[0].Cancel?
    ensures var k := trace[i].conns[c];
            var t := k.down[0].id;
            && IsSession(trace[i], t) && GivesUp(trace[i].sessions[t].phase, 1) && trace[i].sessions[t].conn == Some(c)
            && ClientDecision(k.job, k.down[0]) == (if t in k.tasks then Stop else Ignore)
            && k.tasks <= {t}
  {
    RunRoutes(trace, i);
    RunKeeps(trace, i);
    assert OrdersFit(trace[i].conns[c], trace[i].sessions);
    AgentRefusesIff(trace, i, c);
    OrderedSession(trace[i], c);
  }

  /** What an agent does with the next order, in every world of every run. An exec whose
      command arrives within the limit is started, as the connection's only task; one
      beyond the limit ends the loop; a cancel changes nothing here. */
  lemma OrdersAreCarriedOut(trace: seq<World>, i: nat, c: nat)
    requires IsRun(trace) && i < |trace| && IsConn(trace[i], c)
    requires trace[i].conns[c].looping && trace[i].conns[c].down != []
    ensures Enabled(trace[i], Agent(ClientRead(c)))
    ensures var k, w' := trace[i].conns[c], Apply(trace[i], Agent(ClientRead(c)));
            var rest := k.(down := k.down[1..]);
            match k.down[0]
            case Exec(j, command) =>
              if |command| <= 65536 then
                && w'.conns[c] == rest.(job := Some(j), tasks := {j})
                && IsSession(w', j) && w'.sessions[j].runs == 1
              else w'.conns[c] == rest.(looping := false) && w'.sessions == trace[i].sessions
            case _ => w'.conns[c] == rest && w'.sessions == trace[i].sessions
  {
    RunKeeps(trace, i);
    OrderedSession(trace[i], c);
    var k := trace[i].conns[c];
    AgentRefusesIff(trace, i, c);
    if PendingExec(k.down) {
      ExecDecision(k, trace[i].sessions[k.era.value], k.era.value);
      assert {} + {k.era.value} == {k.era.value};
    }
  }

  /** A session that gives up sends a cancel for its own job, unless the send breaks. */
  lemma GivingUpSendsACancel(w: World, s: nat, told: Telling)
    requires Enabled(w, Ssh(Unwind(s, Sent), told)) && w.sessions[s].phase.stage == 0
    ensures var c := w.sessions[s].phase.conn;
            && Apply(w, Ssh(Unwind(s, Sent), told)).conns[c].down == w.conns[c].down + [Cancel(s)]
            && Apply(w, Ssh(Unwind(s, Sent), told)).sessions[s].phase == Unwinding(c, 1, w.sessions[s].phase.why)
  {
  }

  // ---- connections that leave the map ----

  /** A mapped connection stays mapped until its server is disconnected, or its own
      reader has stopped and tears it down. */
  lemma MappingIsKept(trace: seq<World>, i: nat, step: Step, srv: ServerId)
    requires IsRun(trace) && i < |trace| && Enabled(trace[i], step) && srv in trace[i].hub
    ensures (srv in Apply(trace[i], step).hub && Apply(trace[i], step).hub[srv] == trace[i].hub[srv])
            <==> !(step == Hub(Disconnect(srv)) || step == Hub(Teardown(trace[i].hub[srv])))
  {
    RunRoutes(trace, i);
    assert Serves(trace[i].conns[trace[i].hub[srv]], srv);
  }

  // The connection is not in the map and never will be, is closed, and is not this session's.
  ghost predicate Avoided(w: World, c: nat, s: nat) {
    && IsConn(w, c) && w.conns[c].admitted && !w.conns[c].serverOpen
    && (forall srv | srv in w.hub :: w.hub[srv] != c)
    && (IsSession(w, s) ==> w.sessions[s].phase != Found(c) && w.sessions[s].conn != Some(c))
  }

  lemma HubAvoids(w: World, step: HubStep, c: nat, s: nat)
    requires HubEnabled(w, step) && Avoided(w, c, s)
    ensures Avoided(HubApply(w, step), c, s)
  {
    HubGrows(w, step);
    assert ConnGrows(w.conns[c], HubApply(w, step).conns[c]);
  }

  lemma AgentAvoids(w: World, step: AgentStep, c: nat, s: nat)
    requires AgentEnabled(w, step) && Avoided(w, c, s)
    ensures Avoided(AgentApply(w, step), c, s)
  {
    AgentGrows(w, step);
    assert ConnGrows(w.conns[c], AgentApply(w, step).conns[c]);
  }

  lemma MovedAvoids(w: World, step: SessionStep, c: nat)
    requires SessionEnabled(w, step) && !step.Open? && Avoided(w, c, step.s)
    ensures var x' := SessionApply(w, step).sessions[step.s]; x'.phase != Found(c) && x'.conn != Some(c)
  {
    if !step.Lookup? && !step.Claim? {
      LaterShape(w, step);
    }
  }

  lemma SessionAvoids(w: World, step: SessionStep, c: nat, s: nat)
    requires SessionEnabled(w, step) && Avoided(w, c, s)
    ensures Avoided(SessionApply(w, step), c, s)
  {
    if !step.Open? {
      MovedShape(w, step);
      MovedConns(w, step);
      assert ConnGrows(w.conns[c], SessionApply(w, step).conns[c]);
      if step.s == s {
        MovedAvoids(w, step, c);
      }
    }
  }

  lemma AvoidedStays(w: World, step: Step, c: nat, s: nat)
    requires Inv(w) && Enabled(w, step) && Avoided(w, c, s)
    ensures Avoided(Apply(w, step), c, s)
  {
    match step
    case Hub(h) => HubAvoids(w, h, c, s);
    case Agent(a) => AgentAvoids(w, a, c, s);
    case Ssh(x, _) => SessionAvoids(w, x, c, s);
  }

  lemma AvoidedNext(w: World, w': World, c: nat, s: nat)
    requires Inv(w) && Reaches(w, w') && Avoided(w, c, s)
    ensures Avoided(w', c, s)
  {
    var step :| Enabled(w, step) && w' == Apply(w, step);
    AvoidedStays(w, step, c, s);
  }

  lemma {:induction false} AvoidedAlong(trace: seq<World>, i: nat, j: nat, c: nat, s: nat)
    requires IsRun(trace) && i <= j < |trace| && Avoided(trace[i], c, s)
    ensures Avoided(trace[j], c, s)
    decreases j
  {
    if i < j {
      AvoidedAlong(trace, i, j - 1, c, s);
      RunKeeps(trace, j - 1);
      assert StepAt(trace, j);
      AvoidedNext(trace[j - 1], trace[j], c, s);
    }
  }

  /** Once a handler has disconnected a server, the connection it found is closed and
      unmapped for good, and no session that has not looked it up by then ever uses it. */
  lemma DisconnectedIsNeverUsed(trace: seq<World>, i: nat, j: nat, srv: ServerId, s: nat)
    requires IsRun(trace) && i < j < |trace| && Enabled(trace[i], Hub(Disconnect(srv)))
    requires trace[i + 1] == Apply(trace[i], Hub(Disconnect(srv)))
    requires IsSession(trace[i], s) ==> trace[i].sessions[s].phase.Looking?
    ensures Avoided(trace[j], trace[i].hub[srv], s)
  {
    RunKeeps(trace, i);
    RunRoutes(trace, i);
    assert Serves(trace[i].conns[trace[i].hub[srv]], srv);
    assert IsSession(trace[i], s) ==> SessionFits(trace[i].sessions[s], s, trace[i].conns);
    AvoidedAlong(trace, i + 1, j, trace[i].hub[srv], s);
  }

  // ---- which exec requests are accepted ----

  /** An exec request is accepted exactly when its payload starts with a text of 1 to
      65536 bytes in SSH form (section 5 of RFC 4251). */
  lemma CommandsIff(payload: seq<Byte>)
    ensures Commands(payload) <==>
              |payload| >= 4 && 0 < Audit.Word(payload) <= 65536 && 4 + Audit.Word(payload) <= |payload|
  {
    if |payload| >= 4 {
      Audit.ParseReadsTheString(payload);
    }
  }
}
