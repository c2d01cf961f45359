/**
 Length-delimited framing: a big-endian u32 length followed by the payload, and
 the resumable reader that reassembles frames from arbitrary socket chunks.
 */
module Framing {
  import opened Basics

  type Byte = x: int | 0 <= x < 256

  const MAX_FRAME_LEN := 16 * 1024 * 1024
  const U32_MAX := 0xFFFF_FFFF
  const PREFIX_LEN := 4

  datatype FrameError =
    | TruncatedLengthPrefix
    | FrameTooLarge(len: nat)
    | TruncatedPayload(need: nat, have: nat)

  function BigEndian(n: nat): (r: seq<Byte>)
    requires n <= U32_MAX
    ensures |r| == PREFIX_LEN
    ensures FromBigEndian(r) == n
  {
    [n / 0x100_0000, n / 0x1_0000 % 256, n / 256 % 256, n % 256]
  }

  function FromBigEndian(b: seq<Byte>): nat
    requires |b| >= PREFIX_LEN
  {
    (b[0] as int) * 0x100_0000 + (b[1] as int) * 0x1_0000 + (b[2] as int) * 256 + b[3]
  }

  function EncodeFrame(payload: seq<Byte>): Result<seq<Byte>, FrameError> {
    if |payload| > U32_MAX then Err(FrameTooLarge(U32_MAX))
    else if |payload| > MAX_FRAME_LEN then Err(FrameTooLarge(|payload|))
    else Ok(BigEndian(|payload|) + payload)
  }

  /** The payload at the head of `buf` and the bytes it takes, prefix included. */
  function DecodeFrame(buf: seq<Byte>): Result<(seq<Byte>, nat), FrameError> {
    if |buf| < PREFIX_LEN then Err(TruncatedLengthPrefix)
    else
      var len := FromBigEndian(buf);
      if len > MAX_FRAME_LEN then Err(FrameTooLarge(len))
      else if |buf| - PREFIX_LEN < len then Err(TruncatedPayload(len, |buf| - PREFIX_LEN))
      else Ok((buf[PREFIX_LEN..PREFIX_LEN + len], PREFIX_LEN + len))
  }

  predicate Truncated(r: Result<(seq<Byte>, nat), FrameError>) {
    r.Err? && (r.error.TruncatedLengthPrefix? || r.error.TruncatedPayload?)
  }

  /** Decoding undoes encoding, whatever bytes follow the frame. */
  lemma {:induction false} DecodeAfterEncode(payload: seq<Byte>, tail: seq<Byte>)
    requires |payload| <= MAX_FRAME_LEN
    ensures EncodeFrame(payload).Ok?
    ensures DecodeFrame(EncodeFrame(payload).value + tail)
         == Ok((payload, |EncodeFrame(payload).value|))
  {
    var head := BigEndian(|payload|);
    var buf := head + payload + tail;
    assert buf[..PREFIX_LEN] == head;
    assert FromBigEndian(buf) == FromBigEndian(head);
    assert buf[PREFIX_LEN..PREFIX_LEN + |payload|] == payload;
  }

  /** A payload of more than 16 MiB is refused, and no other; the prefix is four bytes, the highest first. */
  lemma {:induction false} EncodeTable(payload: seq<Byte>)
    ensures EncodeFrame(payload).Err? <==> |payload| > 16_777_216
    ensures EncodeFrame(payload).Ok? ==>
              && |EncodeFrame(payload).value| == 4 + |payload|
              && EncodeFrame(payload).value[4..] == payload
              && EncodeFrame(payload).value[0] as int == |payload| / 16_777_216
              && EncodeFrame(payload).value[3] as int == |payload| % 256
  {
  }

  /** What a buffer holds: too little for a length, a length over the limit, too little for the payload, or a frame. */
  lemma {:induction false} DecodeTable(buf: seq<Byte>)
    ensures DecodeFrame(buf) == Err(TruncatedLengthPrefix) <==> |buf| < 4
    ensures |buf| >= 4 ==>
              var n := buf[0] as int * 16_777_216 + buf[1] as int * 65_536 + buf[2] as int * 256 + buf[3] as int;
              && (DecodeFrame(buf) == Err(FrameTooLarge(n)) <==> n > 16_777_216)
              && (DecodeFrame(buf) == Err(TruncatedPayload(n, |buf| - 4)) <==> n <= 16_777_216 && |buf| - 4 < n)
              && (DecodeFrame(buf).Ok? <==> n <= 16_777_216 && |buf| - 4 >= n)
              && (DecodeFrame(buf).Ok? ==> DecodeFrame(buf).value == (buf[4..4 + n], 4 + n))
  {
  }

  lemma {:induction false} BigEndianUnique(b: seq<Byte>)
    requires |b| >= PREFIX_LEN
    ensures FromBigEndian(b) <= U32_MAX
    ensures BigEndian(FromBigEndian(b)) == b[..PREFIX_LEN]
  {
    BytesOf(b[0], b[1], b[2], b[3]);
  }

  /** The four bytes of a number are those it is made of. */
  lemma {:induction false} BytesOf(a: Byte, b: Byte, c: Byte, d: Byte)
    ensures var n := a as int * 0x100_0000 + b as int * 0x1_0000 + c as int * 256 + d;
      n / 0x100_0000 == a && n / 0x1_0000 % 256 == b && n / 256 % 256 == c && n % 256 == d
  {
    var n := a as int * 0x100_0000 + b as int * 0x1_0000 + c as int * 256 + d;
    var low, mid := c as int * 256 + d, b as int * 0x1_0000 + c as int * 256 + d;
    assert 0 <= low < 0x1_0000 && 0 <= mid < 0x100_0000;
    assert n / 0x100_0000 == a;
    assert n / 0x1_0000 == a as int * 256 + b;
    assert n / 256 == a as int * 0x1_0000 + b as int * 256 + c;
  }

  /** Encoding undoes decoding: only the canonical encoding is ever accepted. */
  lemma {:induction false} EncodeAfterDecode(buf: seq<Byte>)
    requires DecodeFrame(buf).Ok?
    ensures var (payload, used) := DecodeFrame(buf).value;
      used <= |buf| && EncodeFrame(payload) == Ok(buf[..used])
  {
    BigEndianUnique(buf);
    var (payload, used) := DecodeFrame(buf).value;
    assert buf[..used] == buf[..PREFIX_LEN] + payload;
  }

  /** More bytes settle a truncated frame only; any other answer is final. */
  lemma {:induction false} DecodeIsStable(buf: seq<Byte>, more: seq<Byte>)
    requires !Truncated(DecodeFrame(buf))
    ensures DecodeFrame(buf + more) == DecodeFrame(buf)
  {
    assert (buf + more)[..PREFIX_LEN] == buf[..PREFIX_LEN];
    if DecodeFrame(buf).Ok? {
      var used := DecodeFrame(buf).value.1;
      assert (buf + more)[PREFIX_LEN..used] == buf[PREFIX_LEN..used];
    }
  }

  lemma {:induction false} TakeHead(rx: seq<Byte>, wire: seq<Byte>)
    requires DecodeFrame(rx).Ok?
    ensures var (payload, used) := DecodeFrame(rx).value;
      rx + wire == BigEndian(|payload|) + payload + (rx[used..] + wire)
  {
    EncodeAfterDecode(rx);
    var (_, used) := DecodeFrame(rx).value;
    assert rx == rx[..used] + rx[used..];
  }

  lemma {:induction false} ResumeSame(early: seq<Byte>, rx: seq<Byte>)
    requires early <= rx && !Truncated(DecodeFrame(early))
    ensures DecodeFrame(rx) == DecodeFrame(early)
  {
    DecodeIsStable(early, rx[|early|..]);
    assert rx == early + rx[|early|..];
  }

  // --- a stream of frames -------------------------------------------------

  ghost predicate Sendable(frames: seq<seq<Byte>>) {
    forall i :: 0 <= i < |frames| ==> |frames[i]| <= MAX_FRAME_LEN
  }

  ghost function EncodeAll(frames: seq<seq<Byte>>): seq<Byte>
    requires Sendable(frames)
  {
    if frames == [] then []
    else BigEndian(|frames[0]|) + frames[0] + EncodeAll(frames[1..])
  }

  /**
   Framing is a prefix code: when the frames read so far and the bytes left over
   make up what was sent, the reader has exactly a prefix of the sent frames and
   the leftover is the encoding of the rest.
   */
  lemma {:induction false} ReassemblyIsUnique(sent: seq<seq<Byte>>, got: seq<seq<Byte>>, rest: seq<Byte>)
    requires Sendable(sent) && Sendable(got)
    requires EncodeAll(got) + rest == EncodeAll(sent)
    ensures got <= sent && rest == EncodeAll(sent[|got|..])
    decreases |got|
  {
    if got == [] {
      assert sent[0..] == sent;
    } else {
      var stream := EncodeAll(sent);
      assert stream == (BigEndian(|got[0]|) + got[0]) + (EncodeAll(got[1..]) + rest);
      DecodeAfterEncode(got[0], EncodeAll(got[1..]) + rest);
      assert sent != [];
      DecodeAfterEncode(sent[0], EncodeAll(sent[1..]));
      assert stream == (BigEndian(|sent[0]|) + sent[0]) + EncodeAll(sent[1..]);
      assert got[0] == sent[0];
      var n := PREFIX_LEN + |got[0]|;
      assert stream[n..] == EncodeAll(got[1..]) + rest;
      assert stream[n..] == EncodeAll(sent[1..]);
      ReassemblyIsUnique(sent[1..], got[1..], rest);
      assert sent[1..][|got| - 1..] == sent[|got|..];
    }
  }

  /** The frame at the head of an encoded stream is the next one sent. */
  lemma {:induction false} NextFrame(sent: seq<seq<Byte>>, payload: seq<Byte>, rest: seq<Byte>)
    requires Sendable(sent) && |payload| <= MAX_FRAME_LEN
    requires EncodeAll(sent) == BigEndian(|payload|) + payload + rest
    ensures sent != [] && payload == sent[0] && rest == EncodeAll(sent[1..])
  {
    assert EncodeAll([payload]) == BigEndian(|payload|) + payload + EncodeAll([]);
    ReassemblyIsUnique(sent, [payload], rest);
  }

  /** A well-formed stream never looks oversized, and only an exhausted one looks truncated. */
  lemma {:induction false} StarvedMeansDone(sent: seq<seq<Byte>>, rx: seq<Byte>, wire: seq<Byte>)
    requires Sendable(sent) && rx + wire == EncodeAll(sent)
    ensures DecodeFrame(rx).Ok? || Truncated(DecodeFrame(rx))
    ensures wire == [] && !DecodeFrame(rx).Ok? ==> sent == []
  {
    if sent != [] {
      DecodeAfterEncode(sent[0], EncodeAll(sent[1..]));
      if !Truncated(DecodeFrame(rx)) {
        DecodeIsStable(rx, wire);
      } else if wire == [] {
        assert rx == rx + wire;
      }
    }
  }

  // --- the reader ----------------------------------------------------------

  /** What one `recv` does: deliver some bytes, time out (or would block), or end. */
  datatype Recv = Chunk(size: nat) | TimedOut

  /** How a `_fill` or a `_read_frame` ends. */
  datatype FillEnd = Filled | FillTimedOut | FillEof
  datatype ReadEnd = Frame(payload: seq<Byte>) | ReadTimedOut | ReadEof | TooLarge(len: nat)

  /**
   One connection: the bytes still on the wire, an arbitrary schedule of how the
   socket hands them over, and the receive buffer. An exhausted schedule times
   out; a wire with nothing left to deliver reads as end of stream when asked
   for a chunk.
   */
  class Connection {
    var wire: seq<Byte>
    var schedule: seq<Recv>
    var rx: seq<Byte>

    constructor (wire: seq<Byte>, schedule: seq<Recv>)
      ensures this.wire == wire && this.schedule == schedule && rx == []
    {
      this.wire, this.schedule, this.rx := wire, schedule, [];
    }

    /** Every byte the peer sent that no returned frame has consumed. */
    ghost function Pending(): seq<Byte>
      reads this
    {
      rx + wire
    }

    /** Buffer at least `n` bytes, keeping whatever arrived on any outcome. */
    method Fill(n: nat) returns (end: FillEnd)
      modifies this
      ensures Pending() == old(Pending()) && old(rx) <= rx
      ensures |schedule| <= old(|schedule|)
      ensures end.Filled? <==> |rx| >= n
      ensures end.FillEof? ==> wire == []
      ensures end.FillTimedOut? ==> schedule == [] || |schedule| < old(|schedule|)
      ensures old(|rx|) >= n ==> rx == old(rx) && wire == old(wire) && schedule == old(schedule)
    {
      while |rx| < n
        invariant Pending() == old(Pending()) && old(rx) <= rx
        invariant |schedule| <= old(|schedule|)
        invariant old(|rx|) >= n ==> rx == old(rx) && wire == old(wire) && schedule == old(schedule)
        decreases |schedule|
      {
        if schedule == [] || schedule[0].TimedOut? {
          schedule := if schedule == [] then [] else schedule[1..];
          return FillTimedOut;
        }
        var most := if n - |rx| > 65536 then n - |rx| else 65536;
        var size := if schedule[0].size == 0 then 1 else schedule[0].size;
        size := if size > most then most else size;
        size := if size > |wire| then |wire| else size;
        schedule := schedule[1..];
        if size == 0 {
          return FillEof;
        }
        assert rx + wire == rx + wire[..size] + wire[size..];
        rx, wire := rx + wire[..size], wire[size..];
      }
      return Filled;
    }

    /**
     One frame, or the reason there is none. The buffer decides: a frame is
     returned exactly when the buffered bytes hold one, and nothing is lost on
     a timeout, so the next call resumes where this one stopped.
     */
    method ReadFrame() returns (end: ReadEnd)
      modifies this
      ensures |schedule| <= old(|schedule|)
      ensures end.Frame? ==> |end.payload| <= MAX_FRAME_LEN
      ensures end.Frame? ==> old(Pending()) == BigEndian(|end.payload|) + end.payload + Pending()
      ensures !end.Frame? ==> Pending() == old(Pending())
      ensures end.ReadTimedOut? || end.ReadEof? ==> Truncated(DecodeFrame(rx))
      ensures end.ReadEof? ==> wire == []
      ensures end.ReadTimedOut? ==> schedule == [] || |schedule| < old(|schedule|)
      ensures end.TooLarge? ==> DecodeFrame(rx) == Err(FrameTooLarge(end.len))
      ensures DecodeFrame(old(rx)).Ok? ==> end == Frame(DecodeFrame(old(rx)).value.0) && wire == old(wire)
    {
      var filled := Fill(PREFIX_LEN);
      if !filled.Filled? {
        return if filled.FillTimedOut? then ReadTimedOut else ReadEof;
      }
      var length := FromBigEndian(rx);
      if length > MAX_FRAME_LEN {
        return TooLarge(length);
      }
      ghost var early := rx;
      filled := Fill(PREFIX_LEN + length);
      assert FromBigEndian(rx) == length by { assert rx[..PREFIX_LEN] == early[..PREFIX_LEN]; }
      if !filled.Filled? {
        return if filled.FillTimedOut? then ReadTimedOut else ReadEof;
      }
      var payload := rx[PREFIX_LEN..PREFIX_LEN + length];
      TakeHead(rx, wire);
      if !Truncated(DecodeFrame(old(rx))) { ResumeSame(old(rx), rx); }
      rx := rx[PREFIX_LEN + length..];
      return Frame(payload);
    }

    /**
     Read until `stop` frames arrived or the stream ended, trying again after a
     timeout as the polling callers do. For every sequence of frames sent and every
     schedule of chunks and timeouts, the payloads are a prefix of those sent,
     buffer plus wire encode exactly the rest, and reading ends early only when every
     frame was returned, or the socket has nothing more to give and the buffer holds no
     whole frame.
     */
    method ReadRun(stop: nat, ghost sent: seq<seq<Byte>>) returns (got: seq<seq<Byte>>)
      requires Sendable(sent) && Pending() == EncodeAll(sent)
      modifies this
      ensures got <= sent && Pending() == EncodeAll(sent[|got|..])
      ensures |got| < stop ==> got == sent || (schedule == [] && Truncated(DecodeFrame(rx)))
    {
      got := [];
      var ended := false;
      while |got| < stop && !ended
        invariant got <= sent && Pending() == EncodeAll(sent[|got|..])
        invariant ended ==> got == sent || (schedule == [] && Truncated(DecodeFrame(rx)))
        decreases |schedule|, !ended, stop - |got|
      {
        ghost var rest := sent[|got|..];
        var end := ReadFrame();
        match end {
          case Frame(payload) =>
            NextFrame(rest, payload, Pending());
            got := got + [payload];
          case ReadTimedOut =>
            ended := schedule == [];
          case ReadEof =>
            assert Pending() == rx;
            StarvedMeansDone(rest, rx, wire);
            ended := true;
          case TooLarge(_) =>
            StarvedMeansDone(rest, rx, wire);
            assert false;
        }
      }
    }
  }
}
