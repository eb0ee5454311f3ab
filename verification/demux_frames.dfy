/** Docker's multiplexed output: frames of an eight-byte header and a payload. */
module Frames {

  type Byte = x: int | 0 <= x < 256

  const HEADER: nat := 8
  const MAX_PAYLOAD: nat := 8 * 1024 * 1024

  /** Byte 0 names the stream, bytes 1 to 3 mean nothing. */
  datatype Frame = Frame(stream: Byte, filler: (Byte, Byte, Byte), payload: seq<Byte>)

  datatype Status = Complete | Truncated | TooLarge | WriteFailed

  /** What was written to the two outputs, and how the copy ended. */
  datatype Copied = Copied(stdout: seq<Byte>, stderr: seq<Byte>, status: Status)

  predicate Valid(frames: seq<Frame>) {
    forall i :: 0 <= i < |frames| ==> |frames[i].payload| <= MAX_PAYLOAD
  }

  function BigEndian(a: Byte, b: Byte, c: Byte, d: Byte): nat {
    ((a * 256 + b) * 256 + c) * 256 + d
  }

  function Length(n: nat): seq<Byte>
    requires n < 0x1_0000_0000
  {
    [n / 256 / 256 / 256, n / 256 / 256 % 256, n / 256 % 256, n % 256]
  }

  function Encode(frame: Frame): seq<Byte>
    requires |frame.payload| <= MAX_PAYLOAD
  {
    [frame.stream, frame.filler.0, frame.filler.1, frame.filler.2] + Length(|frame.payload|) + frame.payload
  }

  function EncodeAll(frames: seq<Frame>): seq<Byte>
    requires Valid(frames)
  {
    if |frames| == 0 then [] else Encode(frames[0]) + EncodeAll(frames[1..])
  }

  /** The payloads of one stream, in order. */
  function Payloads(frames: seq<Frame>, stream: Byte): seq<Byte> {
    if |frames| == 0 then []
    else (if frames[0].stream == stream then frames[0].payload else []) + Payloads(frames[1..], stream)
  }

  function Written(stream: Byte, data: seq<Byte>, copied: Copied): Copied {
    if stream == 1 then copied.(stdout := data + copied.stdout)
    else if stream == 2 then copied.(stderr := data + copied.stderr)
    else copied
  }

  function Size(src: seq<Byte>): nat
    requires |src| >= HEADER
  {
    BigEndian(src[4], src[5], src[6], src[7])
  }

  /** What the copy makes of a source; a frame that breaks off is written as far as it goes. */
  function Decode(src: seq<Byte>): Copied {
    if |src| == 0 then Copied([], [], Complete)
    else if |src| < HEADER then Copied([], [], Truncated)
    else if Size(src) > MAX_PAYLOAD then Copied([], [], TooLarge)
    else if |src| - HEADER < Size(src) then Written(src[0], src[HEADER..], Copied([], [], Truncated))
    else Written(src[0], src[HEADER..HEADER + Size(src)], Decode(src[HEADER + Size(src)..]))
  }

  /** How much an output still takes before its writes fail. */
  datatype Room = Unlimited | Bytes(n: nat)

  predicate Fits(n: nat, room: Room) {
    room.Unlimited? || n <= room.n
  }

  function Left(room: Room, n: nat): Room
    requires Fits(n, room)
  {
    if room.Unlimited? then room else Bytes(room.n - n)
  }

  /** The room for a stream; what belongs to neither output is discarded. */
  function RoomFor(stream: Byte, out: Room, err: Room): Room {
    if stream == 1 then out else if stream == 2 then err else Unlimited
  }

  /** What the copy makes of a source when the outputs take no more than this: the first write that
      does not fit is carried out as far as it does, and ends the copy. */
  function Copy(src: seq<Byte>, out: Room, err: Room): Copied {
    if |src| == 0 then Copied([], [], Complete)
    else if |src| < HEADER then Copied([], [], Truncated)
    else if Size(src) > MAX_PAYLOAD then Copied([], [], TooLarge)
    else
      var n := if |src| - HEADER < Size(src) then |src| - HEADER else Size(src);
      var stream, data, room := src[0], src[HEADER..HEADER + n], RoomFor(src[0], out, err);
      if !Fits(n, room) then Written(stream, data[..room.n], Copied([], [], WriteFailed))
      else if n < Size(src) then Written(stream, data, Copied([], [], Truncated))
      else Written(stream, data, Copy(src[HEADER + n..], if stream == 1 then Left(out, n) else out, if stream == 2 then Left(err, n) else err))
  }

  /******* Lengths *******/

  lemma LengthRoundTrip(n: nat)
    requires n < 0x1_0000_0000
    ensures var bytes := Length(n); BigEndian(bytes[0], bytes[1], bytes[2], bytes[3]) == n
  {
  }

  lemma LengthOfBigEndian(a: Byte, b: Byte, c: Byte, d: Byte)
    ensures BigEndian(a, b, c, d) < 0x1_0000_0000 && Length(BigEndian(a, b, c, d)) == [a, b, c, d]
  {
    LastByte((a * 256 + b) * 256 + c, d);
    LastByte(a * 256 + b, c);
    LastByte(a, b);
  }

  lemma LastByte(high: nat, low: Byte)
    ensures (high * 256 + low) / 256 == high && (high * 256 + low) % 256 == low
  {
  }

  /******* Encoding and decoding *******/

  lemma EncodedFrame(frame: Frame, rest: seq<Byte>)
    requires |frame.payload| <= MAX_PAYLOAD
    ensures var src := Encode(frame) + rest;
            && |src| == HEADER + |frame.payload| + |rest| && src[0] == frame.stream && Size(src) == |frame.payload|
            && src[HEADER..HEADER + Size(src)] == frame.payload && src[HEADER + Size(src)..] == rest
  {
    LengthRoundTrip(|frame.payload|);
    assert |Encode(frame)| == HEADER + |frame.payload|;
    var src := Encode(frame) + rest;
    assert [src[4], src[5], src[6], src[7]] == Length(|frame.payload|);
    hide BigEndian, Length;
    assert src[HEADER..HEADER + |frame.payload|] == frame.payload;
    assert src[HEADER + |frame.payload|..] == rest;
  }

  lemma DecodeFrame(frame: Frame, rest: seq<Byte>)
    requires |frame.payload| <= MAX_PAYLOAD
    ensures Decode(Encode(frame) + rest) == Written(frame.stream, frame.payload, Decode(rest))
  {
    hide Encode, Size, Written;
    EncodedFrame(frame, rest);
  }

  lemma WrittenFirst(first: Frame, frames: seq<Frame>, copied: Copied)
    ensures Written(first.stream, first.payload,
                    Copied(Payloads(frames, 1) + copied.stdout, Payloads(frames, 2) + copied.stderr, copied.status))
         == Copied(Payloads([first] + frames, 1) + copied.stdout, Payloads([first] + frames, 2) + copied.stderr, copied.status)
  {
    assert ([first] + frames)[1..] == frames;
    assert first.payload + (Payloads(frames, 1) + copied.stdout) == first.payload + Payloads(frames, 1) + copied.stdout;
    assert first.payload + (Payloads(frames, 2) + copied.stderr) == first.payload + Payloads(frames, 2) + copied.stderr;
    assert [] + Payloads(frames, 1) == Payloads(frames, 1) && [] + Payloads(frames, 2) == Payloads(frames, 2);
  }

  /** Decoding what was encoded yields the payloads of stream 1 as output and those of stream 2 as
      errors, whatever the other streams carry, and goes on with what follows. */
  lemma {:induction false} DecodeEncoded(frames: seq<Frame>, rest: seq<Byte>)
    requires Valid(frames)
    ensures Decode(EncodeAll(frames) + rest)
         == Copied(Payloads(frames, 1) + Decode(rest).stdout, Payloads(frames, 2) + Decode(rest).stderr, Decode(rest).status)
  {
    hide Encode, Decode, Written;
    if |frames| == 0 {
      assert EncodeAll(frames) + rest == rest;
    } else {
      var tail := EncodeAll(frames[1..]) + rest;
      assert EncodeAll(frames) + rest == Encode(frames[0]) + tail;
      DecodeFrame(frames[0], tail);
      DecodeEncoded(frames[1..], rest);
      WrittenFirst(frames[0], frames[1..], Decode(rest));
      assert [frames[0]] + frames[1..] == frames;
    }
  }

  lemma RoundTrip(frames: seq<Frame>)
    requires Valid(frames)
    ensures Decode(EncodeAll(frames)) == Copied(Payloads(frames, 1), Payloads(frames, 2), Complete)
  {
    DecodeEncoded(frames, []);
    assert EncodeAll(frames) + [] == EncodeAll(frames);
  }

  /** The frame that a source begins with. */
  function FirstFrame(src: seq<Byte>): Frame
    requires HEADER <= |src| && HEADER + Size(src) <= |src|
  {
    Frame(src[0], (src[1], src[2], src[3]), src[HEADER..HEADER + Size(src)])
  }

  lemma FirstFrameIsEncoded(src: seq<Byte>)
    requires HEADER <= |src| && HEADER + Size(src) <= |src| && Size(src) <= MAX_PAYLOAD
    ensures Encode(FirstFrame(src)) == src[..HEADER + Size(src)]
  {
    hide BigEndian, Length;
    LengthOfBigEndian(src[4], src[5], src[6], src[7]);
  }

  /** The frames of a source that decodes completely. */
  lemma {:induction false} CompleteIsEncoded(src: seq<Byte>) returns (frames: seq<Frame>)
    requires Decode(src).status.Complete?
    ensures Valid(frames) && EncodeAll(frames) == src
  {
    hide BigEndian, Length, Encode;
    if |src| == 0 {
      return [];
    }
    var n := Size(src);
    var first := FirstFrame(src);
    FirstFrameIsEncoded(src);
    var rest := CompleteIsEncoded(src[HEADER + n..]);
    frames := [first] + rest;
    assert frames[1..] == rest;
    assert src == src[..HEADER + n] + src[HEADER + n..];
  }

  ghost predicate WholeFrames(src: seq<Byte>) {
    exists frames :: Valid(frames) && EncodeAll(frames) == src
  }

  /** The copy succeeds exactly on a whole number of frames. */
  lemma SucceedsOnWholeFrames(src: seq<Byte>)
    ensures Decode(src).status.Complete? <==> WholeFrames(src)
  {
    if Decode(src).status.Complete? {
      var frames := CompleteIsEncoded(src);
    }
    if WholeFrames(src) {
      var frames :| Valid(frames) && EncodeAll(frames) == src;
      RoundTrip(frames);
    }
  }

  /** A source that breaks off inside a frame: an error, with everything before it written. */
  lemma TruncationIsAnError(frames: seq<Frame>, last: Frame, k: nat)
    requires Valid(frames) && |last.payload| <= MAX_PAYLOAD && 0 < k < |Encode(last)|
    ensures var copied := Decode(EncodeAll(frames) + Encode(last)[..k]);
            && copied.status.Truncated?
            && Payloads(frames, 1) <= copied.stdout <= Payloads(frames, 1) + Payloads([last], 1)
            && Payloads(frames, 2) <= copied.stderr <= Payloads(frames, 2) + Payloads([last], 2)
  {
    var src := Encode(last)[..k];
    DecodeEncoded(frames, src);
    BrokenFrame(last, k);
    assert Payloads([], 1) == [] && Payloads([], 2) == [];
    assert Payloads([last], 1) == (if last.stream == 1 then last.payload else []);
    assert Payloads([last], 2) == (if last.stream == 2 then last.payload else []);
  }

  lemma BrokenFrame(last: Frame, k: nat)
    requires |last.payload| <= MAX_PAYLOAD && 0 < k < |Encode(last)|
    ensures var copied := Decode(Encode(last)[..k]);
            && copied.status.Truncated?
            && copied.stdout <= (if last.stream == 1 then last.payload else [])
            && copied.stderr <= (if last.stream == 2 then last.payload else [])
  {
    var src, whole := Encode(last)[..k], Encode(last) + [];
    EncodedFrame(last, []);
    assert whole == Encode(last);
    if k >= HEADER {
      assert src[4] == whole[4] && src[5] == whole[5] && src[6] == whole[6] && src[7] == whole[7];
      assert Size(src) == Size(whole);
      assert src[HEADER..] == last.payload[..k - HEADER];
    }
  }

  /******* Outputs that take no more *******/

  /** What was written of a decoded source before a write failed: one output is full with some of
      its bytes missing, and the other has what came before. */
  predicate BrokenOff(copied: Copied, decoded: Copied, out: Room, err: Room) {
    && copied.stdout <= decoded.stdout && copied.stderr <= decoded.stderr
    && Fits(|copied.stdout|, out) && Fits(|copied.stderr|, err)
    && (|| (out == Bytes(|copied.stdout|) && |copied.stdout| < |decoded.stdout|)
        || (err == Bytes(|copied.stderr|) && |copied.stderr| < |decoded.stderr|))
  }

  /** The rooms after a frame's data was written. */
  predicate RoomsLeft(stream: Byte, n: nat, out: Room, err: Room, out': Room, err': Room) {
    && Fits(n, RoomFor(stream, out, err))
    && out' == (if stream == 1 then Left(out, n) else out) && err' == (if stream == 2 then Left(err, n) else err)
  }

  /** What copying with limited room means, beside decoding. */
  predicate Limited(copied: Copied, decoded: Copied, out: Room, err: Room) {
    && (copied.status.WriteFailed? <==> !(Fits(|decoded.stdout|, out) && Fits(|decoded.stderr|, err)))
    && (if copied.status.WriteFailed? then BrokenOff(copied, decoded, out, err) else copied == decoded)
  }

  lemma LimitedAfterFrame(
    stream: Byte, data: seq<Byte>, copied: Copied, decoded: Copied, out: Room, err: Room, out': Room, err': Room)
    requires RoomsLeft(stream, |data|, out, err, out', err') && Limited(copied, decoded, out', err')
    ensures Limited(Written(stream, data, copied), Written(stream, data, decoded), out, err)
  {
  }

  lemma LimitedAtRefusal(stream: Byte, data: seq<Byte>, decoded: Copied, out: Room, err: Room)
    requires !Fits(|data|, RoomFor(stream, out, err))
    ensures Limited(Written(stream, data[..RoomFor(stream, out, err).n], Copied([], [], WriteFailed)),
                    Written(stream, data, decoded), out, err)
  {
  }

  /** A write fails exactly when the decoded bytes do not fit, and otherwise all of them are written. */
  lemma {:induction false} WriteFailsExactly(src: seq<Byte>, out: Room, err: Room)
    ensures Limited(Copy(src, out, err), Decode(src), out, err)
    decreases |src|
  {
    hide Size, Written, BrokenOff;
    if |src| >= HEADER && Size(src) <= MAX_PAYLOAD {
      var n := if |src| - HEADER < Size(src) then |src| - HEADER else Size(src);
      var data := src[HEADER..HEADER + n];
      assert n < Size(src) ==> data == src[HEADER..];
      var decoded := if n < Size(src) then Copied([], [], Truncated) else Decode(src[HEADER + n..]);
      if !Fits(n, RoomFor(src[0], out, err)) {
        LimitedAtRefusal(src[0], data, decoded, out, err);
      } else {
        var out', err' := if src[0] == 1 then Left(out, n) else out, if src[0] == 2 then Left(err, n) else err;
        if n < Size(src) {
          LimitedAfterFrame(src[0], data, decoded, decoded, out, err, out', err');
        } else {
          WriteFailsExactly(src[HEADER + n..], out', err');
          LimitedAfterFrame(src[0], data, Copy(src[HEADER + n..], out', err'), decoded, out, err, out', err');
        }
      }
    }
  }

  /** A header says in its last four bytes, the first of them the highest, how long the payload is: a
      frame of more than eight mebibytes is refused before any of it is written, and of a shorter one
      exactly the bytes that are there go to the first output for 1 and to the second for 2. */
  lemma FirstFrameExactly(src: seq<Byte>)
    requires |src| >= 8
    ensures var n: nat := 0x100_0000 * (src[4] as nat) + 0x1_0000 * (src[5] as nat) + 0x100 * (src[6] as nat) + src[7];
            if n > 0x80_0000 then Decode(src) == Copied([], [], TooLarge)
            else if |src| <= 8 + n then
              Decode(src) == Copied(if src[0] == 1 then src[8..] else [], if src[0] == 2 then src[8..] else [],
                                    if |src| == 8 + n then Complete else Truncated)
            else Decode(src) == Written(src[0], src[8..8 + n], Decode(src[8 + n..]))
  {
    var n := Size(src);
    if |src| == 8 + n {
      assert src[8..8 + n] == src[8..] && src[8 + n..] == [];
    }
  }
}
