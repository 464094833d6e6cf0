/** The agent process: the read loop of connect and the output path of a task
    (internal/winagent/client.go). */
module AgentClients {
  import opened Wrappers
  import opened AgentWire

  datatype Refusal = InvalidTask | ConcurrentTask | Unsupported

  // What the read loop does with one message.
  datatype Decision = Start | Stop | Ignore | Abort(why: Refusal)

  function ClientDecision(job: Option<JobId>, m: Message): Decision {
    match m
    case Exec(_, command) =>
      if command == [] || |command| > MAX_COMMAND then Abort(InvalidTask)
      else if job.Some? then Abort(ConcurrentTask)
      else Start
    case Cancel(id) => if job == Some(id) then Stop else Ignore
    case _ => Abort(Unsupported)
  }

  // A frame the stream writer may send when `sent` bytes of this task are already out.
  predicate FrameAllowed(sent: nat, data: seq<Byte>) {
    0 < |data| <= CHUNK && sent + |data| <= MAX_OUTPUT
  }

  // jobCancel, jobID and the task goroutines of one connection.
  class Connection {
    var job: Option<JobId>
    var cancelled: bool          // the running task's context has been cancelled
    var tasks: set<JobId>
    var sent: seq<Message>       // frames accepted by the connection so far
    var open: bool

    constructor ()
      ensures job == None && tasks == {} && sent == [] && open
    {
      job, cancelled, tasks, sent, open := None, false, {}, [], true;
    }

    // One iteration of the read loop. The loop returns when the decision is Abort.
    // `named` says whether the frame carries an identifier: without one an exec is
    // refused, and a cancel names no task.
    method Receive(m: Message, named: bool) returns (d: Decision)
      modifies this`job, this`cancelled, this`tasks
      ensures d == if named then ClientDecision(old(job), m)
                   else if m.Exec? then Abort(InvalidTask)
                   else if m.Cancel? then Ignore
                   else Abort(Unsupported)
      ensures job == if d.Start? then Some(m.id) else old(job)
      ensures tasks == if d.Start? then old(tasks) + {m.id} else old(tasks)
      ensures cancelled == (if d.Start? then false else old(cancelled) || d.Stop?)
    {
      match m {
        case Exec(id, command) =>
          if !named || command == [] || |command| > MAX_COMMAND {
            return Abort(InvalidTask);
          }
          if job.Some? {
            return Abort(ConcurrentTask);
          }
          job, cancelled := Some(id), false;
          tasks := tasks + {id};
          return Start;
        case Cancel(id) =>
          if named && job == Some(id) {
            cancelled := true;
            return Stop;
          }
          return Ignore;
        case _ =>
          return Abort(Unsupported);
      }
    }

    // The end of a task goroutine: the slot is cleared and the exit is sent under one lock.
    method FinishTask(id: JobId, code: int, sendOk: bool)
      modifies this`job, this`tasks, this`sent, this`open
      ensures job == None && tasks == old(tasks) - {id}
      ensures sent == if old(open) && sendOk then old(sent) + [Exit(id, code)] else old(sent)
      ensures open == (old(open) && sendOk)
    {
      job := None;
      tasks := tasks - {id};
      if open && sendOk {
        sent := sent + [Exit(id, code)];
      } else {
        open := false;
      }
    }
  }

  function ChunkSize(data: seq<Byte>): nat {
    if |data| < CHUNK then |data| else CHUNK
  }

  // The frames one Write produces, whole chunks first.
  function Chunks(id: JobId, stream: Stream, data: seq<Byte>): seq<Message>
    decreases |data|
  {
    if data == [] then []
    else
      var n := ChunkSize(data);
      [Output(id, stream, data[..n])] + Chunks(id, stream, data[n..])
  }

  // What a task puts on its connection, frame by frame.
  predicate TaskFrame(id: JobId, m: Message) {
    m.Output? && m.id == id && 0 < |m.data| <= CHUNK
  }

  predicate TaskFrames(id: JobId, ms: seq<Message>) {
    forall k | 0 <= k < |ms| :: TaskFrame(id, ms[k])
  }

  // What one Write does to the output of a task; `limit` is how many frames the
  // connection still takes before a send fails.
  datatype OutputState = OutputState(total: nat, exceeded: bool, cancelled: bool, open: bool, sent: seq<Message>)

  datatype Attempt = Attempt(stream: Stream, data: seq<Byte>, limit: nat)

  const FRESH_OUTPUT := OutputState(0, false, false, true, [])

  function Carried(o: OutputState, id: JobId, w: Attempt): seq<Message> {
    var all := Chunks(id, w.stream, w.data);
    if o.total + |w.data| > MAX_OUTPUT then [] else all[..Through(o.open, |all|, w.limit)]
  }

  function AfterWrite(o: OutputState, id: JobId, w: Attempt): OutputState {
    var oversized := o.total + |w.data| > MAX_OUTPUT;
    var frames := Carried(o, id, w);
    var ok := !oversized && |frames| == |Chunks(id, w.stream, w.data)|;
    OutputState(o.total + OutputLength(frames), o.exceeded || oversized, o.cancelled || !ok,
                o.open && (oversized || ok), o.sent + frames)
  }

  // taskOutput and the streamWriters that share it. `sent` is what the connection
  // has accepted for this task.
  class TaskOutput {
    const id: JobId
    var total: nat
    var exceeded: bool
    var cancelled: bool
    var open: bool
    var sent: seq<Message>

    ghost predicate Valid()
      reads this
    {
      total == OutputLength(sent) <= MAX_OUTPUT && TaskFrames(id, sent)
    }

    ghost function Now(): OutputState
      reads this
    {
      OutputState(total, exceeded, cancelled, open, sent)
    }

    constructor (id: JobId)
      ensures Valid() && this.id == id && Now() == FRESH_OUTPUT
    {
      this.id := id;
      total, exceeded, cancelled, open, sent := 0, false, false, true, [];
    }

    // A frame that the connection took.
    method Accept(frame: Message)
      requires Valid() && TaskFrame(id, frame) && total + |frame.data| <= MAX_OUTPUT
      modifies this`total, this`sent
      ensures Valid() && sent == old(sent) + [frame] && total == old(total) + |frame.data|
    {
      SentOneMore(id, sent, frame);
      sent := sent + [frame];
      total := total + |frame.data|;
    }

    // Sends data in chunks; `limit` is how many frames the connection still takes
    // before a send fails. An oversized write is refused whole.
    method Write(stream: Stream, data: seq<Byte>, limit: nat) returns (n: nat, ok: bool)
      requires Valid()
      modifies this`total, this`exceeded, this`cancelled, this`open, this`sent
      ensures Valid() && Now() == AfterWrite(old(Now()), id, Attempt(stream, data, limit))
      ensures ok <==> old(total) + |data| <= MAX_OUTPUT && (data == [] || (old(open) && |Chunks(id, stream, data)| <= limit))
      ensures n == if ok then |data| else 0
    {
      ghost var all, was := Chunks(id, stream, data), Now();
      ghost var w := Attempt(stream, data, limit);
      assert sent + all[..0] == sent;
      if total + |data| > MAX_OUTPUT {
        exceeded := true;
        cancelled := true;
        EffectIs(was, id, w, Now(), 0);
        return 0, false;
      }
      var rest, k := data, 0;
      while |rest| > 0
        invariant Valid()
        invariant 0 <= k <= |all| && all[k..] == Chunks(id, stream, rest)
        invariant sent == old(sent) + all[..k]
        invariant total + |rest| == old(total) + |data| <= MAX_OUTPUT
        invariant exceeded == old(exceeded) && open == old(open) && cancelled == old(cancelled)
        invariant k > 0 ==> open && k <= limit
      {
        var size := ChunkSize(rest);
        var frame := Output(id, stream, rest[..size]);
        NextChunk(id, stream, rest, all, k);
        if !open || k == limit {
          cancelled := true;
          open := false;
          EffectIs(was, id, w, Now(), k);
          return 0, false;
        }
        Accept(frame);
        rest := rest[size..];
        k := k + 1;
      }
      assert all[..k] == all;
      EffectIs(was, id, w, Now(), k);
      return |data|, true;
    }
  }

  // The effect of a write that sent k frames.
  lemma EffectIs(o: OutputState, id: JobId, w: Attempt, o': OutputState, k: nat)
    requires o.total == OutputLength(o.sent) && o'.total == OutputLength(o'.sent)
    requires var oversized := o.total + |w.data| > MAX_OUTPUT;
             var all := Chunks(id, w.stream, w.data);
             && k == (if oversized then 0 else Through(o.open, |all|, w.limit))
             && k <= |all| && o'.sent == o.sent + all[..k]
             && o'.exceeded == (o.exceeded || oversized)
             && o'.cancelled == (o.cancelled || oversized || k < |all|)
             && o'.open == (o.open && (oversized || k == |all|))
    ensures o' == AfterWrite(o, id, w)
  {
    var all := Chunks(id, w.stream, w.data);
    AllBytesConcat(o.sent, all[..k]);
    assert Carried(o, id, w) == all[..k];
  }

  function Through(open: bool, frames: nat, limit: nat): nat {
    if !open then 0 else if frames <= limit then frames else limit
  }

  lemma SentOneMore(id: JobId, sent: seq<Message>, frame: Message)
    requires TaskFrames(id, sent) && TaskFrame(id, frame)
    ensures TaskFrames(id, sent + [frame])
    ensures OutputLength(sent + [frame]) == OutputLength(sent) + |frame.data|
  {
    AllBytesSnoc(sent, frame);
  }

  lemma NextChunk(id: JobId, stream: Stream, rest: seq<Byte>, all: seq<Message>, k: nat)
    requires rest != [] && k <= |all| && all[k..] == Chunks(id, stream, rest)
    ensures k < |all|
    ensures var size := ChunkSize(rest);
            all[k] == Output(id, stream, rest[..size])
            && all[k + 1..] == Chunks(id, stream, rest[size..])
            && all[..k + 1] == all[..k] + [Output(id, stream, rest[..size])]
  {
    assert all[k..][0] == all[k];
    assert all[k + 1..] == all[k..][1..];
  }

  // Every frame was within the allowance left by the frames before it.
  lemma SentWithinAllowance(id: JobId, sent: seq<Message>, k: nat)
    requires TaskFrames(id, sent) && OutputLength(sent) <= MAX_OUTPUT && k < |sent|
    ensures FrameAllowed(OutputLength(sent[..k]), sent[k].data)
  {
    assert TaskFrame(id, sent[k]);
    assert sent[..k + 1] == sent[..k] + [sent[k]];
    AllBytesSnoc(sent[..k], sent[k]);
    AllBytesPrefix(sent[..k + 1], sent);
  }

  lemma OneFrame(m: Message)
    ensures AllBytes([m]) == Bytes(m)
  {
    assert [m][..0] == [];
  }

  lemma TagSplit(stream: Stream, data: seq<Byte>, n: nat)
    requires n <= |data|
    ensures Tag(stream, data[..n]) + Tag(stream, data[n..]) == Tag(stream, data)
  {
  }

  // The chunks carry exactly the data, in order and on one stream.
  lemma {:induction false} ChunksCarryData(id: JobId, stream: Stream, data: seq<Byte>)
    ensures AllBytes(Chunks(id, stream, data)) == Tag(stream, data)
    decreases |data|
  {
    if data == [] {
    } else {
      var n := ChunkSize(data);
      var first, rest := Output(id, stream, data[..n]), Chunks(id, stream, data[n..]);
      calc {
        AllBytes(Chunks(id, stream, data));
        AllBytes([first] + rest);
        { AllBytesConcat([first], rest); OneFrame(first); }
        Tag(stream, data[..n]) + AllBytes(rest);
        { ChunksCarryData(id, stream, data[n..]); }
        Tag(stream, data[..n]) + Tag(stream, data[n..]);
        { TagSplit(stream, data, n); }
        Tag(stream, data);
      }
    }
  }

  lemma {:induction false} ChunksAreTaskFrames(id: JobId, stream: Stream, data: seq<Byte>)
    ensures TaskFrames(id, Chunks(id, stream, data))
    decreases |data|
  {
    if data == [] {
    } else {
      ChunksAreTaskFrames(id, stream, data[ChunkSize(data)..]);
    }
  }

  // ---- any history of writes, the final error trailer included ----

  function AfterWrites(id: JobId, ws: seq<Attempt>): OutputState {
    if ws == [] then FRESH_OUTPUT else AfterWrite(AfterWrites(id, ws[..|ws| - 1]), id, ws[|ws| - 1])
  }

  // The part of a write's data that is sent: all of it, or none if it is too much,
  // or the whole chunks before the first failing send.
  function AcceptedPart(o: OutputState, w: Attempt): seq<Byte> {
    if o.total + |w.data| > 8388608 || !o.open then []
    else if w.limit * CHUNK < |w.data| then w.data[..w.limit * CHUNK]
    else w.data
  }

  function Accepted(id: JobId, ws: seq<Attempt>): seq<OutByte> {
    if ws == [] then []
    else
      var front, w := ws[..|ws| - 1], ws[|ws| - 1];
      Accepted(id, front) + Tag(w.stream, AcceptedPart(AfterWrites(id, front), w))
  }

  lemma {:induction false} ChunkCount(id: JobId, stream: Stream, data: seq<Byte>)
    ensures |Chunks(id, stream, data)| == (|data| + CHUNK - 1) / CHUNK
    decreases |data|
  {
    if |data| <= CHUNK {
    } else {
      ChunkCount(id, stream, data[CHUNK..]);
    }
  }

  // The first k chunks carry the first k * CHUNK bytes.
  lemma {:induction false} FirstChunks(id: JobId, stream: Stream, data: seq<Byte>, k: nat)
    requires k <= |Chunks(id, stream, data)|
    ensures AllBytes(Chunks(id, stream, data)[..k]) == Tag(stream, if k * CHUNK < |data| then data[..k * CHUNK] else data)
    decreases |data|
  {
    var all := Chunks(id, stream, data);
    if k == 0 {
      assert Tag(stream, data[..0]) == [];
    } else if |data| <= CHUNK {
      assert all[..k] == all;
      ChunksCarryData(id, stream, data);
      ChunkCount(id, stream, data);
    } else {
      var first, rest := Output(id, stream, data[..CHUNK]), Chunks(id, stream, data[CHUNK..]);
      assert all[..k] == [first] + rest[..k - 1];
      AllBytesConcat([first], rest[..k - 1]);
      OneFrame(first);
      FirstChunks(id, stream, data[CHUNK..], k - 1);
      FirstPart(stream, data, k);
    }
  }

  lemma FirstPart(stream: Stream, data: seq<Byte>, k: nat)
    requires k > 0 && |data| > CHUNK
    ensures var rest := data[CHUNK..];
            Tag(stream, data[..CHUNK]) + Tag(stream, if (k - 1) * CHUNK < |rest| then rest[..(k - 1) * CHUNK] else rest)
            == Tag(stream, if k * CHUNK < |data| then data[..k * CHUNK] else data)
  {
    if k * CHUNK < |data| {
      assert data[CHUNK..][..(k - 1) * CHUNK] == data[..k * CHUNK][CHUNK..];
      TagSplit(stream, data[..k * CHUNK], CHUNK);
      assert data[..k * CHUNK][..CHUNK] == data[..CHUNK];
    } else {
      TagSplit(stream, data, CHUNK);
    }
  }

  lemma MoreChunksIff(n: nat, k: nat)
    ensures k < (n + CHUNK - 1) / CHUNK <==> k * CHUNK < n
  {
  }

  lemma CarriedWhole(id: JobId, stream: Stream, data: seq<Byte>, limit: nat)
    ensures var all := Chunks(id, stream, data);
            AllBytes(all[..Through(true, |all|, limit)])
            == Tag(stream, if limit * CHUNK < |data| then data[..limit * CHUNK] else data)
  {
    var all := Chunks(id, stream, data);
    ChunkCount(id, stream, data);
    MoreChunksIff(|data|, limit);
    if limit < |all| {
      FirstChunks(id, stream, data, limit);
    } else {
      assert all[..|all|] == all;
      ChunksCarryData(id, stream, data);
    }
  }

  lemma CarriedBytes(o: OutputState, id: JobId, w: Attempt)
    ensures AllBytes(Carried(o, id, w)) == Tag(w.stream, AcceptedPart(o, w))
  {
    if o.total + |w.data| > MAX_OUTPUT || !o.open {
      assert Carried(o, id, w) == [];
      assert Tag(w.stream, []) == [];
    } else {
      CarriedWhole(id, w.stream, w.data, w.limit);
    }
  }

  lemma CarriedFrames(o: OutputState, id: JobId, w: Attempt)
    ensures TaskFrames(id, Carried(o, id, w))
  {
    ChunksAreTaskFrames(id, w.stream, w.data);
  }

  ghost predicate SoundOutput(o: OutputState, id: JobId) {
    o.total == OutputLength(o.sent) <= MAX_OUTPUT && TaskFrames(id, o.sent)
  }

  lemma WriteKeepsSound(o: OutputState, id: JobId, w: Attempt)
    requires SoundOutput(o, id)
    ensures SoundOutput(AfterWrite(o, id, w), id)
    ensures AllBytes(AfterWrite(o, id, w).sent) == AllBytes(o.sent) + Tag(w.stream, AcceptedPart(o, w))
  {
    CarriedBytes(o, id, w);
    CarriedFrames(o, id, w);
    AllBytesConcat(o.sent, Carried(o, id, w));
    TagLength(w.stream, AcceptedPart(o, w));
    AcceptedFits(o, w);
  }

  lemma TagLength(stream: Stream, data: seq<Byte>)
    ensures |Tag(stream, data)| == |data|
  {
  }

  lemma AcceptedFits(o: OutputState, w: Attempt)
    requires o.total <= MAX_OUTPUT
    ensures o.total + |AcceptedPart(o, w)| <= MAX_OUTPUT
  {
  }

  /** Whatever a task writes and whichever sends fail, the frames that reach the
      server concatenate to the accepted data, in order; each is non-empty and within
      the chunk size, and together they stay within 8 MiB. */
  lemma {:induction false} FramesCarryAcceptedData(id: JobId, ws: seq<Attempt>)
    ensures SoundOutput(AfterWrites(id, ws), id)
    ensures AfterWrites(id, ws).total <= 8388608 && forall m | m in AfterWrites(id, ws).sent :: 0 < |m.data| <= 8192
    ensures AllBytes(AfterWrites(id, ws).sent) == Accepted(id, ws)
    ensures AfterWrites(id, ws).total == |Accepted(id, ws)|
  {
    if ws == [] {
    } else {
      FramesCarryAcceptedData(id, ws[..|ws| - 1]);
      WriteKeepsSound(AfterWrites(id, ws[..|ws| - 1]), id, ws[|ws| - 1]);
    }
  }
}
