/** The demultiplexer (internal/runtime/docker/backup.go): a loop over a reader with a reused
    header buffer, writing to two outputs. */
module Demux {
  import opened Frames

  datatype ReadError = Fine | EndOfFile | Broken

  datatype CopyError = None | Short | Refused

  /** An output that takes what there is room for. */
  class Sink {
    var data: seq<Byte>
    var room: Room

    constructor (room: Room)
      ensures data == [] && this.room == room
    {
      data, this.room := [], room;
    }

    method Write(more: seq<Byte>) returns (ok: bool)
      modifies this
      ensures ok == Fits(|more|, old(room))
      ensures ok ==> data == old(data) + more && room == Left(old(room), |more|)
      ensures !ok ==> data == old(data) + more[..old(room).n]
    {
      ok := Fits(|more|, room);
      if ok {
        data, room := data + more, Left(room, |more|);
      } else {
        data, room := data + more[..room.n], Bytes(0);
      }
    }
  }

  class Reader {
    var rest: seq<Byte>

    constructor (src: seq<Byte>)
      ensures rest == src
    {
      rest := src;
    }

    /** Fill the buffer; the end of the source before its first byte is no error of the stream. */
    method ReadFull(buffer: array<Byte>) returns (e: ReadError)
      modifies this, buffer
      ensures old(|rest|) >= buffer.Length ==>
                e.Fine? && buffer[..] == old(rest[..buffer.Length]) && rest == old(rest[buffer.Length..])
      ensures old(|rest|) < buffer.Length ==> rest == [] && e == if old(|rest|) == 0 then EndOfFile else Broken
    {
      var n := if |rest| < buffer.Length then |rest| else buffer.Length;
      for i := 0 to n
        invariant rest == old(rest)
        invariant forall j :: 0 <= j < i ==> buffer[j] == rest[j]
      {
        buffer[i] := rest[i];
      }
      e := if n == buffer.Length then Fine else if n == 0 then EndOfFile else Broken;
      rest := rest[n..];
    }

    /** Copy `n` bytes, or as many as there are, or as many as the output takes. */
    method CopyN(out: Sink, n: nat) returns (e: CopyError)
      modifies this, out
      ensures var data := old(if |rest| >= n then rest[..n] else rest);
              && e == (if !Fits(|data|, old(out.room)) then Refused else if |data| < n then Short else None)
              && out.data == old(out.data) + (if e.Refused? then data[..old(out.room).n] else data)
              && (!e.Refused? ==> out.room == Left(old(out.room), |data|))
      ensures !e.Refused? ==> rest == old(if |rest| >= n then rest[n..] else [])
    {
      var m := if |rest| >= n then n else |rest|;
      assert rest[..|rest|] == rest;
      var ok := out.Write(rest[..m]);
      e := if !ok then Refused else if m < n then Short else None;
      rest := rest[m..];
    }
  }

  function Joined(stdout: seq<Byte>, stderr: seq<Byte>, copied: Copied): Copied {
    Copied(stdout + copied.stdout, stderr + copied.stderr, copied.status)
  }

  lemma JoinedWritten(stdout: seq<Byte>, stderr: seq<Byte>, stream: Byte, data: seq<Byte>, copied: Copied)
    ensures Joined(stdout, stderr, Written(stream, data, copied))
         == Joined(if stream == 1 then stdout + data else stdout, if stream == 2 then stderr + data else stderr, copied)
  {
    assert stdout + (data + copied.stdout) == stdout + data + copied.stdout;
    assert stderr + (data + copied.stderr) == stderr + data + copied.stderr;
  }

  lemma JoinedEnd(stdout: seq<Byte>, stderr: seq<Byte>, status: Status)
    ensures Joined(stdout, stderr, Copied([], [], status)) == Copied(stdout, stderr, status)
  {
  }

  lemma TailSlices(src: seq<Byte>, n: nat)
    requires HEADER + n <= |src|
    ensures src[HEADER..][..n] == src[HEADER..HEADER + n] && src[HEADER..][n..] == src[HEADER + n..]
  {
  }

  method CopyDockerOutput(stdout: Sink, stderr: Sink, src: Reader) returns (status: Status)
    requires stdout != stderr
    modifies stdout, stderr, src
    ensures Copied(stdout.data, stderr.data, status)
         == Joined(old(stdout.data), old(stderr.data), Copy(old(src.rest), old(stdout.room), old(stderr.room)))
  {
    hide BigEndian, Written, Joined;
    var header := new Byte[HEADER](_ => 0);
    var discard := new Sink(Unlimited);
    ghost var expected := Joined(stdout.data, stderr.data, Copy(src.rest, stdout.room, stderr.room));
    while true
      invariant fresh(header) && fresh(discard) && header.Length == HEADER && discard != stdout && discard != stderr
      invariant discard.room.Unlimited?
      invariant Joined(stdout.data, stderr.data, Copy(src.rest, stdout.room, stderr.room)) == expected
      decreases |src.rest|
    {
      ghost var before, o, e := src.rest, stdout.data, stderr.data;
      var read := src.ReadFull(header);
      if read.EndOfFile? {
        JoinedEnd(o, e, Complete);
        return Complete;
      }
      if !read.Fine? {
        JoinedEnd(o, e, Truncated);
        return Truncated;
      }
      assert header[..] == before[..HEADER];
      var n := BigEndian(header[4], header[5], header[6], header[7]);
      assert n == Size(before);
      if n > MAX_PAYLOAD {
        JoinedEnd(o, e, TooLarge);
        return TooLarge;
      }
      var out := discard;
      if header[0] == 1 {
        out := stdout;
      } else if header[0] == 2 {
        out := stderr;
      }
      ghost var m := if |before| - HEADER < n then |before| - HEADER else n;
      ghost var room := out.room;
      TailSlices(before, m);
      assert m < n ==> before[HEADER..HEADER + m] == before[HEADER..];
      var copied := src.CopyN(out, n);
      if copied.Refused? {
        JoinedWritten(o, e, before[0], before[HEADER..HEADER + m][..room.n], Copied([], [], WriteFailed));
        JoinedEnd(stdout.data, stderr.data, WriteFailed);
        return WriteFailed;
      }
      if copied.Short? {
        JoinedWritten(o, e, before[0], before[HEADER..HEADER + m], Copied([], [], Truncated));
        JoinedEnd(stdout.data, stderr.data, Truncated);
        return Truncated;
      }
      JoinedWritten(o, e, before[0], before[HEADER..HEADER + m], Copy(src.rest, stdout.room, stderr.room));
    }
  }
}
