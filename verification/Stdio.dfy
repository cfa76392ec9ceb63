// Line framing over a pipe (upstream/stdio.py): however the bytes arrive, the frames are the same.
module Stdio {
  import opened Wrappers

  type Byte = b: int | 0 <= b < 256

  const NEWLINE: Byte := 10

  datatype FrameError = TooLarge | IncompleteFrame

  // Where the first newline is.
  function NewlineAt(bytes: seq<Byte>): (r: Option<nat>)
    ensures r.Some? ==> r.value < |bytes| && bytes[r.value] == NEWLINE
    ensures forall i | 0 <= i < (if r.Some? then r.value else |bytes|) :: bytes[i] != NEWLINE
  {
    if bytes == [] then None
    else if bytes[0] == NEWLINE then Some(0)
    else
      var rest := NewlineAt(bytes[1..]);
      assert forall i | 1 <= i < |bytes| :: bytes[i] == bytes[1..][i - 1];
      if rest.None? then None else Some(rest.value + 1)
  }

  // The next frame of a stream, and what is left of it. A blank line and the end of the stream
  // both read as the empty line.
  function NextFrame(bytes: seq<Byte>, max: nat): (Result<seq<Byte>, FrameError>, seq<Byte>) {
    var newline := NewlineAt(bytes);
    if newline.Some? && newline.value <= max then (Success(bytes[..newline.value]), bytes[newline.value + 1..])
    else if |bytes| > max then (Failure(TooLarge), bytes)
    else if bytes != [] then (Failure(IncompleteFrame), bytes)
    else (Success([]), [])
  }

  lemma NewlineStays(front: seq<Byte>, rest: seq<Byte>)
    ensures NewlineAt(front).Some? ==> NewlineAt(front + rest) == NewlineAt(front)
    ensures NewlineAt(front).None? && NewlineAt(front + rest).Some? ==> NewlineAt(front + rest).value >= |front|
  {
    hide NewlineAt;
    var whole := front + rest;
    assert forall i | 0 <= i < |front| :: whole[i] == front[i];
  }

  lemma LineFound(buffer: seq<Byte>, rest: seq<Byte>, max: nat)
    requires NewlineAt(buffer).Some? && |buffer| <= max + 1
    ensures var n := NewlineAt(buffer).value;
      NextFrame(buffer + rest, max) == (Success(buffer[..n]), buffer[n + 1..] + rest)
      && buffer == buffer[..n] + [NEWLINE] + buffer[n + 1..]
  {
    hide NewlineAt;
    var n := NewlineAt(buffer).value;
    NewlineStays(buffer, rest);
    CutAt(buffer, rest, n);
  }

  lemma CutAt(buffer: seq<Byte>, rest: seq<Byte>, n: nat)
    requires n < |buffer| && buffer[n] == NEWLINE
    ensures (buffer + rest)[..n] == buffer[..n]
    ensures (buffer + rest)[n + 1..] == buffer[n + 1..] + rest
    ensures buffer == buffer[..n] + [NEWLINE] + buffer[n + 1..]
  {
  }

  lemma Regroup(a: seq<Byte>, b: seq<Byte>, c: seq<Byte>)
    ensures (a + b) + c == a + (b + c)
  {
  }

  lemma LineTooLong(buffer: seq<Byte>, rest: seq<Byte>, max: nat)
    requires NewlineAt(buffer).None? && |buffer| > max
    ensures NextFrame(buffer + rest, max) == (Failure(TooLarge), buffer + rest)
  {
    hide NewlineAt;
    NewlineStays(buffer, rest);
  }

  // `arriving` is what the pipe still has to deliver; `sizes` how much of it each read gets.
  class StdioUpstream {
    var readBuffer: seq<Byte>
    var arriving: seq<Byte>
    var sizes: seq<nat>
    const maxResponseBytes: nat

    ghost predicate Valid()
      reads this
    {
      |readBuffer| <= maxResponseBytes + 1
    }

    // The bytes of the stream that have not been returned.
    ghost function Pending(): seq<Byte>
      reads this
    {
      readBuffer + arriving
    }

    constructor (stream: seq<Byte>, sizes: seq<nat>, maxResponseBytes: nat)
      ensures Valid() && Pending() == stream && readBuffer == []
      ensures this.maxResponseBytes == maxResponseBytes
    {
      readBuffer, arriving, this.sizes, this.maxResponseBytes := [], stream, sizes, maxResponseBytes;
    }

    // os.read: at least one byte and at most `limit`, or nothing at the end of the stream.
    method Read(limit: nat) returns (chunk: seq<Byte>)
      requires limit >= 1
      modifies this`arriving, this`sizes
      ensures |chunk| <= limit && (chunk == [] <==> old(arriving) == [])
      ensures old(arriving) == chunk + arriving
    {
      var size := if sizes == [] then limit else sizes[0];
      if sizes != [] { sizes := sizes[1..]; }
      if size < 1 { size := 1; }
      if size > limit { size := limit; }
      if size > |arriving| { size := |arriving|; }
      chunk := arriving[..size];
      arriving := arriving[size..];
    }

    // `consumed` is what this call took from the pipe; none of it is lost.
    method ReadLine() returns (r: Result<seq<Byte>, FrameError>, ghost consumed: seq<Byte>)
      requires Valid()
      modifies this
      ensures Valid()
      ensures (r, Pending()) == NextFrame(old(Pending()), maxResponseBytes)
      ensures r.Success? ==> |r.value| <= maxResponseBytes
      ensures old(arriving) == consumed + arriving
      ensures old(readBuffer) + consumed
           == (if r.Success? && old(Pending()) != [] then r.value + [NEWLINE] else []) + readBuffer
    {
      hide NewlineAt, NextFrame;
      ghost var whole := Pending();
      consumed := [];
      while true
        invariant Valid() && Pending() == whole
        invariant old(arriving) == consumed + arriving && readBuffer == old(readBuffer) + consumed
        decreases |arriving|
      {
        var newline := NewlineAt(readBuffer);
        if newline.Some? {
          LineFound(readBuffer, arriving, maxResponseBytes);
          var line := readBuffer[..newline.value];
          readBuffer := readBuffer[newline.value + 1..];
          return Success(line), consumed;
        }
        if |readBuffer| > maxResponseBytes {
          LineTooLong(readBuffer, arriving, maxResponseBytes);
          return Failure(TooLarge), consumed;
        }
        var room := maxResponseBytes + 1 - |readBuffer|;
        var chunk := Read(if room < 65536 then room else 65536);
        if chunk == [] {
          assert arriving == [] && Pending() == readBuffer;
          StreamEnded(readBuffer, maxResponseBytes);
          if readBuffer != [] { return Failure(IncompleteFrame), consumed; }
          return Success([]), consumed;
        }
        Regroup(consumed, chunk, arriving);
        Regroup(readBuffer, chunk, arriving);
        Regroup(old(readBuffer), consumed, chunk);
        consumed := consumed + chunk;
        readBuffer := readBuffer + chunk;
      }
    }
  }

  lemma StreamEnded(bytes: seq<Byte>, max: nat)
    requires NewlineAt(bytes).None? && |bytes| <= max
    ensures NextFrame(bytes, max) == if bytes != [] then (Failure(IncompleteFrame), bytes) else (Success([]), [])
  {
  }

  // A line is returned exactly when the bytes go on with it and a newline within the limit. Without a
  // newline there, too much is an error, too little is one, and nothing at all is the end.
  lemma FrameExactly(bytes: seq<Byte>, max: nat, line: seq<Byte>, rest: seq<Byte>)
    ensures NextFrame(bytes, max) == (Success(line), rest)
       <==> || (bytes == line + [NEWLINE] + rest && NEWLINE !in line && |line| <= max)
            || bytes == line == rest == []
    ensures NextFrame(bytes, max) == (Failure(TooLarge), rest)
       <==> rest == bytes && |bytes| > max && NEWLINE !in bytes[..max + 1]
    ensures NextFrame(bytes, max) == (Failure(IncompleteFrame), rest)
       <==> rest == bytes && 1 <= |bytes| <= max && NEWLINE !in bytes
  {
    var newline := NewlineAt(bytes);
    if newline.Some? {
      var n := newline.value;
      assert bytes == bytes[..n] + [NEWLINE] + bytes[n + 1..];
      assert n <= max < |bytes| ==> bytes[..max + 1][n] == NEWLINE;
    }
    if bytes == line + [NEWLINE] + rest && NEWLINE !in line {
      assert bytes[|line|] == NEWLINE && bytes[..|line|] == line && bytes[|line| + 1..] == rest;
      assert forall i | 0 <= i < |line| :: bytes[i] == line[i];
      assert newline == Some(|line|);
    }
  }

  // The empty line stands for a blank line and for the end of the stream alike, and for nothing else.
  lemma EmptyLineIsBlankOrEnd(bytes: seq<Byte>, max: nat)
    ensures NextFrame(bytes, max).0 == Success([]) <==> bytes == [] || bytes[0] == NEWLINE
  {
    if NewlineAt(bytes).Some? { assert |bytes[..NewlineAt(bytes).value]| == NewlineAt(bytes).value; }
  }

  // What `n` calls give.
  function Frames(bytes: seq<Byte>, max: nat, n: nat): seq<Result<seq<Byte>, FrameError>> {
    if n == 0 then []
    else var (frame, rest) := NextFrame(bytes, max); [frame] + Frames(rest, max, n - 1)
  }

  // The frames are a function of the bytes: two pipes that carry the same stream in different
  // pieces give the same lines and the same errors.
  method ReadBoth(a: StdioUpstream, b: StdioUpstream, n: nat)
    returns (x: seq<Result<seq<Byte>, FrameError>>, y: seq<Result<seq<Byte>, FrameError>>)
    requires a != b && a.Valid() && b.Valid() && a.Pending() == b.Pending() && a.maxResponseBytes == b.maxResponseBytes
    modifies a, b
    ensures x == y == Frames(old(a.Pending()), a.maxResponseBytes, n)
    ensures a.Valid() && b.Valid() && a.Pending() == b.Pending()
  {
    hide NextFrame;
    x, y := [], [];
    for i := 0 to n
      invariant a.Valid() && b.Valid() && a.Pending() == b.Pending() && x == y
      invariant Frames(old(a.Pending()), a.maxResponseBytes, n) == x + Frames(a.Pending(), a.maxResponseBytes, n - i)
    {
      var r, _ := a.ReadLine();
      var q, _ := b.ReadLine();
      x, y := x + [r], y + [q];
    }
  }

  function Framed(lines: seq<seq<Byte>>): seq<Byte> {
    if lines == [] then [] else lines[0] + [NEWLINE] + Framed(lines[1..])
  }

  // Lines that were written come back, one by one, and then whatever follows them.
  lemma {:induction false} LinesComeBack(lines: seq<seq<Byte>>, tail: seq<Byte>, max: nat, n: nat)
    requires forall i | 0 <= i < |lines| :: |lines[i]| <= max && NEWLINE !in lines[i]
    ensures Frames(Framed(lines) + tail, max, |lines| + n) == Returned(lines) + Frames(tail, max, n)
  {
    hide NewlineAt, NextFrame, Frames;
    if lines == [] {
      assert Framed(lines) + tail == tail && Returned(lines) == [];
      assert Returned(lines) + Frames(tail, max, n) == Frames(tail, max, n);
    } else {
      var whole := Framed(lines) + tail;
      var line := lines[0];
      var rest := Framed(lines[1..]) + tail;
      assert whole == (line + [NEWLINE]) + rest;
      NewlineOf(line);
      LineFound(line + [NEWLINE], rest, max);
      assert (line + [NEWLINE])[..|line|] == line && (line + [NEWLINE])[|line| + 1..] + rest == rest;
      LinesComeBack(lines[1..], tail, max, n);
      FramesStep(whole, max, |lines| + n - 1);
    }
  }

  lemma FramesStep(bytes: seq<Byte>, max: nat, n: nat)
    ensures Frames(bytes, max, n + 1) == [NextFrame(bytes, max).0] + Frames(NextFrame(bytes, max).1, max, n)
  {
  }

  lemma NewlineOf(line: seq<Byte>)
    requires NEWLINE !in line
    ensures NewlineAt(line + [NEWLINE]) == Some(|line|)
  {
    hide NewlineAt;
    var whole := line + [NEWLINE];
    assert whole[|line|] == NEWLINE;
    assert forall i | 0 <= i < |line| :: whole[i] == line[i] && line[i] in line;
  }

  function Returned(lines: seq<seq<Byte>>): (r: seq<Result<seq<Byte>, FrameError>>)
    ensures |r| == |lines| && forall i | 0 <= i < |lines| :: r[i] == Success(lines[i])
  {
    if lines == [] then [] else [Success(lines[0])] + Returned(lines[1..])
  }
}
