/** The bounded, single-task agent protocol: message alphabet and size limits
    (internal/agentwire/wire.go, the server's frame check in agent.go, the
    client's chunk size in internal/winagent/client.go). */
module AgentWire {

  const MAX_COMMAND := 64 * 1024
  const MAX_OUTPUT := 8 * 1024 * 1024
  const MAX_FRAME := 16 * 1024
  const CHUNK := 8 * 1024

  type Byte = b: int | 0 <= b < 256

  // Identifiers are random text in the program; here they are numbered, so that
  // two tasks never share one and none is empty.
  type JobId = nat

  datatype Stream = Stdout | Stderr

  datatype Message =
    | Exec(id: JobId, command: seq<Byte>)
    | Cancel(id: JobId)
    | Output(id: JobId, stream: Stream, data: seq<Byte>)
    | Exit(id: JobId, code: int)

  // One byte as an SSH client sees it: tagged with the stream it arrives on.
  datatype OutByte = OutByte(stream: Stream, byte: Byte)

  function Tag(stream: Stream, data: seq<Byte>): seq<OutByte> {
    seq(|data|, i requires 0 <= i < |data| => OutByte(stream, data[i]))
  }

  // The bytes carried by one message, and by a sequence of messages in order.
  function Bytes(m: Message): seq<OutByte> {
    if m.Output? then Tag(m.stream, m.data) else []
  }

  function AllBytes(ms: seq<Message>): seq<OutByte> {
    if ms == [] then [] else AllBytes(ms[..|ms| - 1]) + Bytes(ms[|ms| - 1])
  }

  function OutputLength(ms: seq<Message>): nat {
    |AllBytes(ms)|
  }

  lemma {:induction false} AllBytesConcat(a: seq<Message>, b: seq<Message>)
    ensures AllBytes(a + b) == AllBytes(a) + AllBytes(b)
  {
    if b == [] {
      assert a + b == a;
    } else {
      var front := b[..|b| - 1];
      assert (a + b)[..|a + b| - 1] == a + front && (a + b)[|a + b| - 1] == b[|b| - 1];
      AllBytesConcat(a, front);
      assert AllBytes(a + b) == AllBytes(a) + AllBytes(front) + Bytes(b[|b| - 1]);
    }
  }

  lemma AllBytesSnoc(a: seq<Message>, m: Message)
    ensures AllBytes(a + [m]) == AllBytes(a) + Bytes(m)
  {
    assert (a + [m])[..|a|] == a;
  }

  lemma AllBytesPrefix(a: seq<Message>, b: seq<Message>)
    requires a <= b
    ensures AllBytes(a) <= AllBytes(b)
  {
    assert b == a + b[|a|..];
    AllBytesConcat(a, b[|a|..]);
  }
}
