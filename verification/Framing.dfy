/** Length-prefixed framing of ISO 8583 messages (send and readFrame of
    internal/gateway/ethswitch/iso8583/router.go). */
module Framing {
  import opened Common

  type Byte = b: int | 0 <= b < 256
  type Message = seq<Byte>

  const MAX_LENGTH := 9999

  /** The length as an unsigned 16-bit number: longer messages wrap around. */
  function Uint16(n: nat): nat { n % 65536 }

  function Header(n: nat): Message { [Uint16(n) / 256, Uint16(n) % 256] }

  function Frame(data: Message): Message { Header(|data|) + data }

  function Length(stream: Message): nat
    requires |stream| >= 2
  {
    stream[0] as int * 256 + stream[1] as int
  }

  /** The payload of the first frame, or None when the stream ends early or the length is refused. */
  function First(stream: Message): Option<Message> {
    if |stream| < 2 then None
    else
      var n := Length(stream);
      if n == 0 || n > MAX_LENGTH || |stream| < 2 + n then None else Some(stream[2..2 + n])
  }

  /** A connection: what was written to it and not yet read. */
  class Wire {
    var stream: Message

    constructor ()
      ensures stream == []
    {
      stream := [];
    }

    method Send(data: Message)
      modifies this
      ensures stream == old(stream) + Frame(data)
    {
      var frame := new Byte[2 + |data|];
      frame[0], frame[1] := Uint16(|data|) / 256, Uint16(|data|) % 256;
      for i := 0 to |data|
        invariant stream == old(stream)
        invariant frame[..2 + i] == Header(|data|) + data[..i]
      {
        frame[2 + i] := data[i];
      }
      assert data[..|data|] == data && frame[..] == frame[..2 + |data|];
      stream := stream + frame[..];
    }

    /** io.ReadFull: exactly n bytes, or an error once the stream is used up. */
    method ReadFull(n: nat) returns (r: Option<Message>)
      modifies this
      ensures if |old(stream)| < n then r == None && stream == []
              else r == Some(old(stream)[..n]) && stream == old(stream)[n..]
    {
      if |stream| < n {
        stream := [];
        return None;
      }
      r := Some(stream[..n]);
      stream := stream[n..];
    }

    method ReadFrame() returns (r: Option<Message>)
      modifies this
      ensures r == First(old(stream))
      ensures r.Some? ==> stream == old(stream)[2 + |r.value|..]
    {
      var lengthBuf := ReadFull(2);
      if lengthBuf.None? { return None; }
      var msgLen := lengthBuf.value[0] as int * 256 + lengthBuf.value[1] as int;
      if msgLen == 0 || msgLen > MAX_LENGTH { return None; }
      r := ReadFull(msgLen);
      if r.Some? {
        assert old(stream)[2..][..msgLen] == old(stream)[2..2 + msgLen];
        assert old(stream)[2..][msgLen..] == old(stream)[2 + msgLen..];
      }
    }
  }

  // ---------------------------------------------------------------- streams of frames

  function Frames(ms: seq<Message>): Message { if ms == [] then [] else Frame(ms[0]) + Frames(ms[1..]) }

  /** Repeated reading: the messages obtained, and what is left where reading stops. */
  function ReadAll(stream: Message): (seq<Message>, Message)
    decreases |stream|
  {
    var m := First(stream);
    if m.None? then ([], stream)
    else
      var (ms, rest) := ReadAll(stream[2 + |m.value|..]);
      ([m.value] + ms, rest)
  }

  predicate Sendable(m: Message) { 1 <= |m| <= MAX_LENGTH }

  /** The wire format: a frame is two bytes longer than its message, and its first byte counts 256s and its
      second ones, up to 65536. */
  lemma BigEndian(data: Message)
    ensures var f := Frame(data);
            |f| == |data| + 2 && f[2..] == data && (f[0] as int * 256 + f[1] as int) % 65536 == |data| % 65536
    ensures |data| < 65536 ==> Frame(data)[0] as int * 256 + Frame(data)[1] as int == |data|
  {
    var f := Frame(data);
    assert f[0] == Uint16(|data|) / 256 && f[1] == Uint16(|data|) % 256;
  }

  /** What is read, byte by byte: the stream starts with a length of 1 to 9999, high byte first, and has that
      many bytes after it; those are the payload. */
  lemma ReadExactly(stream: Message)
    ensures First(stream).Some? <==>
            |stream| >= 2 && 1 <= 256 * stream[0] as int + stream[1] as int <= 9999
            && |stream| >= 2 + 256 * stream[0] as int + stream[1] as int
    ensures First(stream).Some? ==> First(stream).value == stream[2..2 + 256 * stream[0] as int + stream[1] as int]
  {}

  lemma HeaderLength(data: Message, rest: Message)
    ensures |Frame(data) + rest| >= 2 && Length(Frame(data) + rest) == Uint16(|data|)
  {}

  /** A frame is read back whole exactly when the message is 1 to 9999 bytes long. */
  lemma FrameRoundTrip(data: Message, rest: Message)
    ensures First(Frame(data) + rest) == Some(data) <==> Sendable(data)
    ensures Sendable(data) ==> (Frame(data) + rest)[2 + |data|..] == rest
  {
    HeaderLength(data, rest);
    var stream := Frame(data) + rest;
    assert stream[2..2 + |data|] == data;
  }

  /** What comes of a message send should not have accepted: an empty one and one of 10000 to 65535 bytes
      stop the reader for good, and one whose length wraps into the range is cut down to its beginning. */
  lemma Misread(data: Message, rest: Message)
    requires !Sendable(data)
    ensures First(Frame(data) + rest) ==
            if 1 <= Uint16(|data|) <= MAX_LENGTH then Some(data[..Uint16(|data|)]) else None
    ensures |data| < 65536 ==> ReadAll(Frame(data) + rest) == ([], Frame(data) + rest)
  {
    HeaderLength(data, rest);
    var stream, n := Frame(data) + rest, Uint16(|data|);
    assert |data| < 65536 ==> n == |data|;
    assert n <= |data| && stream[2..2 + n] == data[..n];
  }

  /** A message of 65537 bytes arrives as a message of one byte, with the rest taken for further frames. */
  lemma MisreadExample()
    ensures var data: Message := seq(65537, _ => 7); First(Frame(data)) == Some([7]) && First(Frame([])) == None
  {
    var data: Message := seq(65537, _ => 7);
    Misread(data, []);
    assert Frame(data) + [] == Frame(data) && data[..1] == [7];
    Misread([], []);
  }

  lemma ReadGood(m: Message, rest: Message)
    requires Sendable(m)
    ensures ReadAll(Frame(m) + rest) == ([m] + ReadAll(rest).0, ReadAll(rest).1)
  {
    FrameRoundTrip(m, rest);
  }

  /** A message outside the range is lost: reading stops before it, or returns another one instead. */
  lemma ReadBad(m: Message, rest: Message, ms: seq<Message>)
    requires !Sendable(m)
    ensures ReadAll(Frame(m) + rest) != ([m] + ms, [])
  {
    FrameRoundTrip(m, rest);
    var got, want := ReadAll(Frame(m) + rest).0, [m] + ms;
    assert want[0] == m;
    if First(Frame(m) + rest).Some? { assert got[0] == First(Frame(m) + rest).value; }
  }

  predicate AllSendable(ms: seq<Message>) { forall i :: 0 <= i < |ms| ==> Sendable(ms[i]) }

  /** Round trip on streams: the concatenated frames of a list of messages are read back as exactly
      that list with nothing left over if and only if every message is 1 to 9999 bytes long. */
  lemma {:induction false} StreamRoundTrip(ms: seq<Message>)
    ensures ReadAll(Frames(ms)) == (ms, []) <==> AllSendable(ms)
    decreases |ms|
  {
    if ms != [] {
      var m, tail, rest := ms[0], ms[1..], Frames(ms[1..]);
      assert ms == [m] + tail;
      assert AllSendable(ms) <==> Sendable(m) && AllSendable(tail) by {
        assert forall i :: 0 <= i < |tail| ==> tail[i] == ms[i + 1];
      }
      StreamRoundTrip(tail);
      if Sendable(m) {
        ReadGood(m, rest);
        var got := ReadAll(rest).0;
        assert ([m] + got)[1..] == got && ([m] + tail)[1..] == tail;
      } else {
        ReadBad(m, rest, tail);
      }
    }
  }
}
