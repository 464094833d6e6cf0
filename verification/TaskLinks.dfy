/** Closed ends of a connection over every run of the task protocol: an end that is
    closed puts nothing more on its link, and an agent process can always go on to a
    new connection (agent.go; internal/winagent/client.go, run and connect). */
module TaskLinks {
  import opened Wrappers
  import opened AgentWire
  import opened TaskProtocol
  import opened TaskSafety
  import opened TaskEndings

  // What is left of a link after some frames were read.
  predicate LeftOf(rest: seq<Message>, link: seq<Message>) {
    |rest| <= |link| && rest == link[|link| - |rest|..]
  }

  predicate Shut(c: Conn, c': Conn) {
    && (!c.serverOpen ==> !c'.serverOpen && LeftOf(c'.down, c.down))
    && (!c.clientOpen ==> !c'.clientOpen && LeftOf(c'.up, c.up))
  }

  lemma LeftOfTwice(a: seq<Message>, b: seq<Message>, c: seq<Message>)
    requires LeftOf(a, b) && LeftOf(b, c)
    ensures LeftOf(a, c)
  {
  }

  lemma ShutTwice(a: Conn, b: Conn, c: Conn)
    requires Shut(a, b) && Shut(b, c)
    ensures Shut(a, c)
  {
    if !a.serverOpen {
      LeftOfTwice(c.down, b.down, a.down);
    }
    if !a.clientOpen {
      LeftOfTwice(c.up, b.up, a.up);
    }
  }

  // The link as it was, or without its first frame.
  predicate Reads(after: seq<Message>, link: seq<Message>) {
    after == link || (link != [] && after == link[1..])
  }

  lemma ReadIsLeft(after: seq<Message>, link: seq<Message>)
    requires Reads(after, link)
    ensures LeftOf(after, link)
  {
  }

  lemma HubReads(w: World, step: HubStep, c: nat)
    requires HubEnabled(w, step) && IsConn(w, c)
    ensures IsConn(HubApply(w, step), c)
    ensures var k, k' := w.conns[c], HubApply(w, step).conns[c];
            && Reads(k'.up, k.up) && k'.clientOpen == k.clientOpen
            && k'.down == k.down && (!k.serverOpen ==> !k'.serverOpen)
  {
  }

  lemma AgentReads(w: World, step: AgentStep, c: nat)
    requires AgentEnabled(w, step) && IsConn(w, c)
    ensures IsConn(AgentApply(w, step), c)
    ensures var k, k' := w.conns[c], AgentApply(w, step).conns[c];
            && Reads(k'.down, k.down) && k'.serverOpen == k.serverOpen
            && (!k.clientOpen ==> !k'.clientOpen && k'.up == k.up)
  {
  }

  // The connection a session uses, after its step.
  lemma SessionSends(w: World, step: SessionStep, c: nat)
    requires SessionEnabled(w, step) && IsConn(w, c)
    ensures IsConn(SessionApply(w, step), c)
    ensures var k, k' := w.conns[c], SessionApply(w, step).conns[c];
            && k'.up == k.up && k'.clientOpen == k.clientOpen
            && (!k.serverOpen ==> !k'.serverOpen && k'.down == k.down)
  {
  }

  lemma StepShuts(w: World, step: Step, c: nat)
    requires Enabled(w, step) && IsConn(w, c)
    ensures IsConn(Apply(w, step), c) && Shut(w.conns[c], Apply(w, step).conns[c])
  {
    var k := w.conns[c];
    match step
    case Hub(h) =>
      HubReads(w, h, c);
      ReadIsLeft(Apply(w, step).conns[c].up, k.up);
    case Agent(a) =>
      AgentReads(w, a, c);
      ReadIsLeft(Apply(w, step).conns[c].down, k.down);
    case Ssh(s, _) => SessionSends(w, s, c);
  }

  lemma NextShuts(w: World, w': World, c: nat)
    requires Reaches(w, w') && IsConn(w, c)
    ensures IsConn(w', c) && Shut(w.conns[c], w'.conns[c])
  {
    var step :| Enabled(w, step) && w' == Apply(w, step);
    StepShuts(w, step, c);
  }

  lemma {:induction false} ShutAlong(trace: seq<World>, i: nat, j: nat, c: nat)
    requires IsRun(trace) && i <= j < |trace| && IsConn(trace[i], c)
    ensures IsConn(trace[j], c) && Shut(trace[i].conns[c], trace[j].conns[c])
    decreases j
  {
    if i < j {
      ShutAlong(trace, i, j - 1, c);
      assert StepAt(trace, j);
      NextShuts(trace[j - 1], trace[j], c);
      ShutTwice(trace[i].conns[c], trace[j - 1].conns[c], trace[j].conns[c]);
    }
  }

  // The steps that close the server's, or the agent's, end of a connection.
  predicate ClosesServerEnd(w: World, step: Step, c: nat) {
    step.Hub? && (step.hub == ServerClose(c) || step.hub == ReaderStop(c)
                  || (step.hub.Disconnect? && step.hub.srv in w.hub && w.hub[step.hub.srv] == c))
  }

  predicate ClosesAgentEnd(step: Step, c: nat) {
    step.Agent? && (step.agent == ClientClose(c) || step.agent == ClientEnd(c)
                    || ((step.agent.TaskWrite? || step.agent.TaskExit?) && step.agent.c == c && step.agent.sending.Broken?))
  }

  /** Once an end of a connection is closed, by whichever step, it stays closed and no
      frame is added to its link for the rest of the run: what is there is only read. */
  lemma ClosedEndsStayShut(trace: seq<World>, i: nat, j: nat, step: Step, c: nat)
    requires IsRun(trace) && i < j < |trace| && IsConn(trace[i], c)
    requires Enabled(trace[i], step) && trace[i + 1] == Apply(trace[i], step)
    ensures IsConn(trace[j], c)
    ensures ClosesServerEnd(trace[i], step, c) ==> !trace[j].conns[c].serverOpen && LeftOf(trace[j].conns[c].down, trace[i].conns[c].down)
    ensures ClosesAgentEnd(step, c) ==>
              !trace[j].conns[c].clientOpen && LeftOf(trace[j].conns[c].up, trace[i + 1].conns[c].up)
  {
    ShutAlong(trace, i, i + 1, c);
    ShutAlong(trace, i + 1, j, c);
    if ClosesServerEnd(trace[i], step, c) {
      ServerEndCloses(trace[i], step, c);
    }
    if ClosesAgentEnd(step, c) {
      AgentEndCloses(trace[i], step, c);
    }
  }

  lemma ServerEndCloses(w: World, step: Step, c: nat)
    requires IsConn(w, c) && Enabled(w, step) && ClosesServerEnd(w, step, c)
    ensures !Apply(w, step).conns[c].serverOpen && Apply(w, step).conns[c].down == w.conns[c].down
  {
  }

  lemma AgentEndCloses(w: World, step: Step, c: nat)
    requires IsConn(w, c) && Enabled(w, step) && ClosesAgentEnd(step, c)
    ensures !Apply(w, step).conns[c].clientOpen
  {
  }

  // ---- reconnecting ----

  lemma AgentGo(trace: seq<World>, step: AgentStep) returns (next: seq<World>)
    requires IsRun(trace) && AgentEnabled(Last(trace), step)
    ensures IsRun(next) && trace <= next && Last(next) == AgentApply(Last(trace), step)
  {
    next := trace + [Apply(Last(trace), Agent(step))];
    forall i | 0 < i < |next| ensures StepAt(next, i) {
      if i < |trace| {
        assert StepAt(trace, i);
        assert next[i - 1] == trace[i - 1] && next[i] == trace[i];
      } else {
        assert Enabled(next[i - 1], Agent(step));
      }
    }
  }

  // Only connection c of this world differs in the next one.
  ghost predicate OnlyConn(w: World, w': World, c: nat) {
    && |w'.conns| == |w.conns| && IsConn(w, c) && w'.conns[c].agent == w.conns[c].agent
    && forall k | 0 <= k < |w.conns| && k != c :: w'.conns[k] == w.conns[k]
  }

  lemma EndTask(trace: seq<World>, c: nat) returns (next: seq<World>)
    requires IsRun(trace) && IsConn(Last(trace), c) && !Last(trace).conns[c].looping
    ensures IsRun(next) && trace <= next && OnlyConn(Last(trace), Last(next), c)
    ensures !Last(next).conns[c].looping && Last(next).conns[c].tasks == {}
  {
    next := trace;
    var k := Last(trace).conns[c];
    if k.tasks != {} {
      RunKeeps(trace, |trace| - 1);
      assert ConnFits(k, c, Last(trace).sessions);
      var j := k.era.value;
      assert k.tasks == {j};
      next := AgentGo(trace, TaskExit(c, j, 0, Broken(false)));
    }
  }

  lemma EndConn(trace: seq<World>, c: nat) returns (next: seq<World>)
    requires IsRun(trace) && IsConn(Last(trace), c)
    ensures IsRun(next) && trace <= next && OnlyConn(Last(trace), Last(next), c) && Last(next).conns[c].ended
  {
    next := trace;
    if Last(trace).conns[c].looping {
      next := AgentGo(trace, ClientLoopExit(c));
    }
    var mid := next;
    next := EndTask(mid, c);
    next := AgentGo(next, ClientEnd(c));
  }

  /** Whatever has happened, an agent process can give up its connection and dial again:
      every run goes on to a world in which the newest connection is a fresh one of it. */
  lemma AgentCanReconnect(trace: seq<World>, a: AgentId) returns (next: seq<World>)
    requires IsRun(trace)
    ensures IsRun(next) && trace <= next && Last(next).conns != []
    ensures Last(next).conns[|Last(next).conns| - 1] == NewConn(a)
  {
    next := trace;
    RunKeeps(trace, |trace| - 1);
    if c :| 0 <= c < |Last(trace).conns| && Last(trace).conns[c].agent == a && !Last(trace).conns[c].ended {
      assert forall k | 0 <= k < |Last(trace).conns| && k != c && Last(trace).conns[k].agent == a :: Last(trace).conns[k].ended by {
        forall k | 0 <= k < |Last(trace).conns| && k != c && Last(trace).conns[k].agent == a ensures Last(trace).conns[k].ended {
          OneLiveOf(Last(trace).conns, c, k);
        }
      }
      next := EndConn(trace, c);
    }
    next := AgentGo(next, Dial(a));
  }
}
