/** The audit record of one SSH session channel (audit.go). Every method runs under
    the session's mutex, so an interleaving of requests and writes is a sequence of
    operations. */
module Audit {
  import opened Wrappers
  import opened AgentWire

  const LIMIT := 64 * 1024

  // ---- length-prefixed strings (section 5 of RFC 4251) ----

  const WORD := 0x1_0000_0000

  function Word(b: seq<Byte>): (n: nat)
    requires |b| >= 4
    ensures n < WORD
  {
    var a: int, e: int, c: int, d: int := b[0], b[1], b[2], b[3];
    a * 0x100_0000 + e * 0x1_0000 + c * 0x100 + d
  }

  function WordBytes(n: nat): (b: seq<Byte>)
    requires n < WORD
    ensures |b| == 4
  {
    [n / 0x100_0000, n / 0x1_0000 % 0x100, n / 0x100 % 0x100, n % 0x100]
  }

  // A string, a refusal, or the out-of-range slice that stops the program.
  datatype Parsed = Text(text: seq<Byte>) | Refused | Fault

  // The end of the string is computed in 32 bits.
  function ParseString(payload: seq<Byte>): Parsed {
    if |payload| < 4 then Refused
    else
      var end := (4 + Word(payload)) % WORD;
      if end > |payload| then Refused
      else if end < 4 then Fault
      else Text(payload[4..end])
  }

  function Marshal(text: seq<Byte>): seq<Byte>
    requires |text| < WORD
  {
    WordBytes(|text|) + text
  }

  lemma WordRoundTrip(n: nat, rest: seq<Byte>)
    requires n < WORD
    ensures Word(WordBytes(n) + rest) == n
  {
    var b := WordBytes(n) + rest;
    assert b[0] == n / 0x100_0000 && b[1] == n / 0x1_0000 % 0x100 && b[2] == n / 0x100 % 0x100 && b[3] == n % 0x100;
    assert n / 0x1_0000 == n / 0x100_0000 * 0x100 + n / 0x1_0000 % 0x100;
    assert n / 0x100 == n / 0x1_0000 * 0x100 + n / 0x100 % 0x100;
  }

  /** For every length below 2^32 - 4 parsing reads exactly the leading string of a
      payload; the arithmetic only overflows at and above that length. */
  lemma ParseReadsTheString(payload: seq<Byte>)
    requires |payload| >= 4
    ensures Word(payload) < WORD - 4 ==>
              ParseString(payload) ==
                if 4 + Word(payload) <= |payload| then Text(payload[4..4 + Word(payload)]) else Refused
    ensures Word(payload) >= WORD - 4 <==> ParseString(payload) == Fault
  {
    if Word(payload) < WORD - 4 {
      assert (4 + Word(payload)) % WORD == 4 + Word(payload);
    } else {
      assert (4 + Word(payload)) % WORD == 4 + Word(payload) - WORD;
    }
  }

  lemma ParseMarshal(text: seq<Byte>, rest: seq<Byte>)
    requires |text| < WORD - 4
    ensures ParseString(Marshal(text) + rest) == Text(text)
  {
    assert Marshal(text) + rest == WordBytes(|text|) + (text + rest);
    WordRoundTrip(|text|, text + rest);
    assert (Marshal(text) + rest)[4..4 + |text|] == text;
  }

  // ---- bounded capture ----

  datatype Capture = Capture(bytes: seq<Byte>, cut: bool)

  const NOTHING := Capture([], false)

  function Take(c: Capture, p: seq<Byte>): Capture {
    if c.cut then c
    else if LIMIT - |c.bytes| <= 0 then c.(cut := true)
    else if |p| > LIMIT - |c.bytes| then Capture(c.bytes + p[..LIMIT - |c.bytes|], true)
    else Capture(c.bytes + p, false)
  }

  function TakeAll(ps: seq<seq<Byte>>): Capture {
    if ps == [] then NOTHING else Take(TakeAll(ps[..|ps| - 1]), ps[|ps| - 1])
  }

  function Concat(ps: seq<seq<Byte>>): seq<Byte> {
    if ps == [] then [] else Concat(ps[..|ps| - 1]) + ps[|ps| - 1]
  }

  function Prefix(s: seq<Byte>): seq<Byte> {
    if |s| <= 65536 then s else s[..65536]
  }

  /** Whatever is written, the capture is the first 64 KiB of it. */
  lemma {:induction false} CaptureIsPrefix(ps: seq<seq<Byte>>)
    ensures TakeAll(ps).bytes == Prefix(Concat(ps))
    ensures |Concat(ps)| > LIMIT ==> TakeAll(ps).cut
    ensures TakeAll(ps).cut ==> |Concat(ps)| >= LIMIT
  {
    if ps == [] {
    } else {
      CaptureIsPrefix(ps[..|ps| - 1]);
      var before := Concat(ps[..|ps| - 1]);
      assert Prefix(before) == before || |before| > LIMIT;
    }
  }

  /** The flag says that bytes were dropped, except when an empty write follows
      exactly 64 KiB: then it is set although nothing was dropped. */
  lemma {:induction false} FlagIsExactIff(ps: seq<seq<Byte>>)
    ensures (TakeAll(ps).cut <==> |Concat(ps)| > LIMIT)
            <==> !(|Concat(ps)| == LIMIT && ps[|ps| - 1] == [])
  {
    if ps == [] {
    } else {
      var front := ps[..|ps| - 1];
      FlagIsExactIff(front);
      CaptureIsPrefix(front);
      CaptureIsPrefix(ps);
    }
  }

  // 64 KiB followed by an empty write.
  lemma EmptyWriteSetsTheFlag(p: seq<Byte>)
    requires |p| == LIMIT
    ensures TakeAll([p, []]).cut && Concat([p, []]) == p
  {
    assert [p, []][..1] == [p] && [p][..0] == [];
    assert TakeAll([p]) == Capture([] + p, false);
    assert Concat([p]) == p;
  }

  // ---- one session ----

  datatype Event = NoEvent | ExecEvent | ShellEvent | Subsystem(name: seq<Byte>)

  datatype Request = ExecRequest(payload: seq<Byte>) | ShellRequest | SubsystemRequest(payload: seq<Byte>)
                   | ExitStatus(payload: seq<Byte>) | OtherRequest

  datatype State = State(
    row: Option<int>, event: Event, command: seq<Byte>, exit: Option<int>, output: Capture, detail: Capture)

  const START := State(None, NoEvent, [], None, NOTHING, NOTHING)

  predicate Readable(r: Request) {
    (r.ExecRequest? || r.SubsystemRequest?) ==> ParseString(r.payload) != Fault
  }

  function Observe(s: State, r: Request): State {
    match r
    case ExecRequest(payload) =>
      (match ParseString(payload)
       case Text(command) => s.(event := ExecEvent, command := command)
       case _ => s)
    case ShellRequest => if s.event.NoEvent? then s.(event := ShellEvent) else s
    case SubsystemRequest(payload) =>
      (match ParseString(payload)
       case Text(name) => s.(event := Subsystem(name))
       case _ => s)
    case ExitStatus(payload) => if |payload| >= 4 then s.(exit := Some(Word(payload))) else s
    case OtherRequest => s
  }

  // noteRequest; the insert, if one is due, succeeds with key id when ok.
  function Note(s: State, r: Request, id: int, ok: bool): State {
    var s' := Observe(s, r);
    if s'.row.None? && !s'.event.NoEvent? && ok then s'.(row := Some(id)) else s'
  }

  datatype Op = Asked(request: Request, id: int, ok: bool) | Typed(p: seq<Byte>) | Shown(p: seq<Byte>)

  function Do(s: State, op: Op): State {
    match op
    case Asked(r, id, ok) => Note(s, r, id, ok)
    case Typed(p) => s.(detail := Take(s.detail, p))
    case Shown(p) => if s.event.ExecEvent? then s.(output := Take(s.output, p)) else s
  }

  function DoAll(ops: seq<Op>): State {
    if ops == [] then START else Do(DoAll(ops[..|ops| - 1]), ops[|ops| - 1])
  }

  // The inserts that succeed along a sequence of operations, oldest first.
  function Inserts(ops: seq<Op>): seq<int> {
    if ops == [] then []
    else
      var before, after := DoAll(ops[..|ops| - 1]), DoAll(ops);
      Inserts(ops[..|ops| - 1]) + if after.row.Some? && before.row != after.row then [after.row.value] else []
  }

  lemma RowIsKept(s: State, op: Op)
    requires s.row.Some?
    ensures Do(s, op).row == s.row
  {
  }

  /** Over any interleaving a session inserts at most one row, and it keeps the key
      of that row. */
  lemma {:induction false} AtMostOneInsert(ops: seq<Op>)
    ensures Inserts(ops) == if DoAll(ops).row.Some? then [DoAll(ops).row.value] else []
  {
    if ops == [] {
    } else {
      var front := ops[..|ops| - 1];
      AtMostOneInsert(front);
      if DoAll(front).row.Some? {
        RowIsKept(DoAll(front), ops[|ops| - 1]);
      }
    }
  }

  function ShownBytes(ops: seq<Op>): seq<seq<Byte>> {
    if ops == [] then []
    else ShownBytes(ops[..|ops| - 1]) + if ops[|ops| - 1].Shown? then [ops[|ops| - 1].p] else []
  }

  /** In a session that starts with a readable exec request and starts no subsystem,
      the recorded output is the capture of everything shown, in order. */
  lemma {:induction false} ExecRecordsOutput(ops: seq<Op>)
    requires ops != [] && ops[0].Asked? && ops[0].request.ExecRequest? && ParseString(ops[0].request.payload).Text?
    requires forall k | 0 < k < |ops| :: ops[k].Asked? ==> !ops[k].request.SubsystemRequest?
    ensures DoAll(ops).event == ExecEvent
    ensures DoAll(ops).output == TakeAll(ShownBytes(ops))
    ensures DoAll(ops).output.bytes == Prefix(Concat(ShownBytes(ops)))
  {
    CaptureIsPrefix(ShownBytes(ops));
    var front := ops[..|ops| - 1];
    if front == [] {
      assert DoAll(front) == START && ShownBytes(front) == [];
    } else {
      ExecRecordsOutput(front);
      var op := ops[|ops| - 1];
      if op.Shown? {
        assert ShownBytes(ops) == ShownBytes(front) + [op.p];
        assert ShownBytes(ops)[..|ShownBytes(ops)| - 1] == ShownBytes(front);
      } else {
        assert ShownBytes(ops) == ShownBytes(front);
        assert DoAll(ops).output == DoAll(front).output;
      }
    }
  }

  lemma {:induction false} ShownIsNotEmpty(ops: seq<Op>)
    requires forall k | 0 <= k < |ops| && ops[k].Shown? :: ops[k].p != []
    ensures forall p | p in ShownBytes(ops) :: p != []
  {
    if ops == [] {
    } else {
      ShownIsNotEmpty(ops[..|ops| - 1]);
    }
  }

  /** If moreover no write is empty, as an agent's frames never are, the flag says
      exactly that bytes were dropped. */
  lemma ExecFlagIsExact(ops: seq<Op>)
    requires ops != [] && ops[0].Asked? && ops[0].request.ExecRequest? && ParseString(ops[0].request.payload).Text?
    requires forall k | 0 < k < |ops| :: ops[k].Asked? ==> !ops[k].request.SubsystemRequest?
    requires forall k | 0 <= k < |ops| && ops[k].Shown? :: ops[k].p != []
    ensures DoAll(ops).output.cut <==> |Concat(ShownBytes(ops))| > LIMIT
  {
    ExecRecordsOutput(ops);
    ShownIsNotEmpty(ops);
    FlagIsExactIff(ShownBytes(ops));
    var ps := ShownBytes(ops);
    assert ps == [] || ps[|ps| - 1] in ps;
  }

  function TypedBytes(ops: seq<Op>): seq<seq<Byte>> {
    if ops == [] then []
    else TypedBytes(ops[..|ops| - 1]) + if ops[|ops| - 1].Typed? then [ops[|ops| - 1].p] else []
  }

  /** Whatever kind of session it is and whatever happens between, the recorded detail
      is the first 64 KiB of what the client typed, in order, and its flag says that
      bytes were dropped, except after an empty write at exactly 64 KiB. */
  lemma {:induction false} DetailRecordsTyping(ops: seq<Op>)
    ensures DoAll(ops).detail == TakeAll(TypedBytes(ops))
    ensures DoAll(ops).detail.bytes == Prefix(Concat(TypedBytes(ops)))
    ensures var ps := TypedBytes(ops);
            (DoAll(ops).detail.cut <==> |Concat(ps)| > 65536) <==> !(|Concat(ps)| == 65536 && ps[|ps| - 1] == [])
  {
    CaptureIsPrefix(TypedBytes(ops));
    FlagIsExactIff(TypedBytes(ops));
    if ops != [] {
      var front, op := ops[..|ops| - 1], ops[|ops| - 1];
      DetailRecordsTyping(front);
      if op.Typed? {
        assert TypedBytes(ops)[..|TypedBytes(ops)| - 1] == TypedBytes(front);
      } else {
        assert TypedBytes(ops) == TypedBytes(front);
      }
    }
  }

  /** A session that never had a readable exec request records no output. */
  lemma {:induction false} OthersRecordNoOutput(ops: seq<Op>)
    requires forall k | 0 <= k < |ops| && ops[k].Asked? && ops[k].request.ExecRequest? :: !ParseString(ops[k].request.payload).Text?
    ensures DoAll(ops).output == NOTHING && !DoAll(ops).event.ExecEvent?
  {
    if ops != [] {
      OthersRecordNoOutput(ops[..|ops| - 1]);
    }
  }

  // ---- the session object and its table ----

  datatype Status = Running | Completed

  datatype Row = Row(
    event: Event, command: seq<Byte>, status: Status,
    output: seq<Byte>, detail: seq<Byte>, exit: Option<int>, truncated: bool)

  class AuditTable {
    var rows: map<int, Row>
    var next: int

    ghost predicate Valid()
      reads this
    {
      next > 0 && forall id | id in rows :: 0 < id < next
    }

    constructor ()
      ensures Valid() && rows == map[] && next == 1
    {
      rows, next := map[], 1;
    }

    method Insert(event: Event, command: seq<Byte>) returns (id: int)
      requires Valid()
      modifies this
      ensures Valid() && id == old(next) && next == old(next) + 1
      ensures rows == old(rows)[id := Row(event, command, Running, [], [], None, false)]
    {
      id := next;
      rows := rows[id := Row(event, command, Running, [], [], None, false)];
      next := next + 1;
    }

    // CompleteAuditLog
    method Complete(id: int, output: seq<Byte>, detail: seq<Byte>, exit: Option<int>, truncated: bool)
      requires Valid()
      modifies this`rows
      ensures Valid()
      ensures rows == if id in old(rows)
                      then old(rows)[id := Row(old(rows)[id].event, old(rows)[id].command, Completed, output, detail, exit, truncated)]
                      else old(rows)
    {
      if id in rows {
        rows := rows[id := Row(rows[id].event, rows[id].command, Completed, output, detail, exit, truncated)];
      }
    }
  }

  class AuditSession {
    const table: AuditTable
    var dbID: int              // 0 until a row is inserted
    var event: Event
    var command: seq<Byte>
    var output: seq<Byte>
    var outputCut: bool
    var detail: seq<Byte>
    var detailCut: bool
    var exit: Option<int>

    ghost predicate Valid()
      reads this, table
    {
      table.Valid() && dbID >= 0 && (dbID > 0 ==> dbID in table.rows)
    }

    ghost function Now(): State
      reads this
    {
      State(if dbID == 0 then None else Some(dbID), event, command, exit, Capture(output, outputCut), Capture(detail, detailCut))
    }

    constructor (table: AuditTable)
      requires table.Valid()
      ensures Valid() && this.table == table && Now() == START
    {
      this.table := table;
      dbID, event, command, exit := 0, NoEvent, [], None;
      output, outputCut, detail, detailCut := [], false, [], false;
    }

    // insertOk: whether the store accepts the insert, if one is due. A length prefix
    // whose sum wraps stops the program before anything is changed.
    method NoteRequest(r: Request, insertOk: bool) returns (stopped: bool)
      requires Valid()
      modifies this, table
      ensures stopped <==> !Readable(r)
      ensures stopped ==> Now() == old(Now()) && dbID == old(dbID)
      ensures Valid() && (!stopped ==> Now() == Note(old(Now()), r, old(table.next), insertOk))
      ensures old(dbID) != 0 || dbID == 0 ==> table.rows == old(table.rows)
      ensures old(dbID) == 0 && dbID != 0 ==>
                table.rows == old(table.rows)[dbID := Row(event, command, Running, [], [], None, false)]
    {
      stopped := !Readable(r);
      if stopped {
        return;
      }
      match r {
        case ExecRequest(payload) =>
          var parsed := ParseString(payload);
          if parsed.Text? {
            event, command := ExecEvent, parsed.text;
          }
        case ShellRequest =>
          if event.NoEvent? {
            event := ShellEvent;
          }
        case SubsystemRequest(payload) =>
          var parsed := ParseString(payload);
          if parsed.Text? {
            event := Subsystem(parsed.text);
          }
        case ExitStatus(payload) =>
          if |payload| >= 4 {
            exit := Some(Word(payload));
          }
        case OtherRequest =>
      }
      if dbID == 0 && !event.NoEvent? {
        if !insertOk {
          return;
        }
        dbID := table.Insert(event, command);
      }
    }

    // What the client types.
    method Write(p: seq<Byte>)
      requires Valid()
      modifies this`detail, this`detailCut
      ensures Valid() && Now() == Do(old(Now()), Typed(p))
    {
      if !detailCut {
        var remain := LIMIT - |detail|;
        if remain <= 0 {
          detailCut := true;
        } else {
          var s := p;
          if |s| > remain {
            s := s[..remain];
            detailCut := true;
          }
          detail := detail + s;
        }
      }
    }

    // What the command prints.
    method WriteOutput(p: seq<Byte>)
      requires Valid()
      modifies this`output, this`outputCut
      ensures Valid() && Now() == Do(old(Now()), Shown(p))
    {
      if !event.ExecEvent? || outputCut {
        return;
      }
      var s := p;
      var remain := LIMIT - |output|;
      if remain <= 0 {
        outputCut := true;
        return;
      }
      if |s| > remain {
        s := s[..remain];
        outputCut := true;
      }
      output := output + s;
    }

    // Completes the session's row, and no other.
    method Finish()
      requires Valid()
      modifies table`rows
      ensures Valid() && Now() == old(Now())
      ensures dbID == 0 ==> table.rows == old(table.rows)
      ensures dbID != 0 ==>
                var before := old(table.rows)[dbID];
                table.rows == old(table.rows)[dbID :=
                  Row(before.event, before.command, Completed, output, detail, exit, detailCut || outputCut)]
    {
      if dbID == 0 {
        return;
      }
      table.Complete(dbID, output, detail, exit, detailCut || outputCut);
    }
  }
}
