// Incremental splitting of a server-sent event byte stream into frames.
module SseFrames {
  import opened Common

  type byte = x: int | 0 <= x < 256

  type Bytes = seq<byte>

  const CR: byte := 13
  const LF: byte := 10

  // The length of the delimiter that starts at i ("\r\n\r\n", "\n\n" or "\r\r"), or 0.
  function DelimiterAt(buffer: Bytes, i: nat): nat {
    if |buffer| < i + 2 then 0
    else if buffer[i] == buffer[i + 1] && buffer[i] in {LF, CR} then 2
    else if i + 4 <= |buffer| && buffer[i] == buffer[i + 2] == CR && buffer[i + 1] == buffer[i + 3] == LF then 4
    else 0
  }

  // Where the first delimiter at or after i ends, if there is one.
  function Cut(buffer: Bytes, i: nat): (end: Option<nat>)
    requires i <= |buffer|
    ensures end.Some? ==> i + 2 <= end.value <= |buffer|
    decreases |buffer| - i
  {
    if i == |buffer| then None
    else if DelimiterAt(buffer, i) > 0 then Some(i + DelimiterAt(buffer, i))
    else Cut(buffer, i + 1)
  }

  // All complete frames of a stream, delimiters included, and what is left over.
  function Drain(stream: Bytes): (r: (seq<Bytes>, Bytes))
    decreases |stream|
  {
    match Cut(stream, 0)
    case None => ([], stream)
    case Some(end) =>
      var (frames, residue) := Drain(stream[end..]);
      ([stream[..end]] + frames, residue)
  }

  // No complete frame is left in the buffer.
  predicate Drained(buffer: Bytes) {
    Drain(buffer) == ([], buffer)
  }

  function Flatten(chunks: seq<Bytes>): Bytes {
    if chunks == [] then [] else chunks[0] + Flatten(chunks[1..])
  }

  // Appending chunk after chunk and draining after each.
  function Feed(buffer: Bytes, chunks: seq<Bytes>): (seq<Bytes>, Bytes)
    decreases |chunks|
  {
    if chunks == [] then ([], buffer)
    else
      var (now, rest) := Drain(buffer + chunks[0]);
      var (later, residue) := Feed(rest, chunks[1..]);
      (now + later, residue)
  }

  // ---- chunking does not matter ----

  // A delimiter stays one when more bytes arrive, and no delimiter that runs past the end of `a`
  // starts before one that `a` already holds.
  lemma DelimitersOfPrefix(a: Bytes, b: Bytes, j: nat, i: nat)
    requires j <= i && DelimiterAt(a, i) > 0
    ensures DelimiterAt(a + b, j) == DelimiterAt(a, j)
  {
  }

  lemma {:induction false} CutFindsFirst(buffer: Bytes, i: nat) returns (at: nat)
    requires i <= |buffer| && Cut(buffer, i).Some?
    ensures i <= at < |buffer| && DelimiterAt(buffer, at) > 0
    ensures Cut(buffer, i) == Some(at + DelimiterAt(buffer, at))
    ensures forall j :: i <= j < at ==> DelimiterAt(buffer, j) == 0
    decreases |buffer| - i
  {
    if DelimiterAt(buffer, i) > 0 { at := i; } else { at := CutFindsFirst(buffer, i + 1); }
  }

  lemma {:induction false} CutIsFirst(buffer: Bytes, i: nat, at: nat)
    requires i <= at < |buffer| && DelimiterAt(buffer, at) > 0
    requires forall j :: i <= j < at ==> DelimiterAt(buffer, j) == 0
    ensures Cut(buffer, i) == Some(at + DelimiterAt(buffer, at))
    decreases at - i
  {
    if i < at { CutIsFirst(buffer, i + 1, at); }
  }

  // A frame found in what has arrived so far is the frame of the whole stream.
  lemma CutOfPrefix(a: Bytes, b: Bytes)
    requires Cut(a, 0).Some?
    ensures Cut(a + b, 0) == Cut(a, 0)
  {
    var at := CutFindsFirst(a, 0);
    forall j | 0 <= j <= at ensures DelimiterAt(a + b, j) == DelimiterAt(a, j) { DelimitersOfPrefix(a, b, j, at); }
    CutIsFirst(a + b, 0, at);
  }

  lemma SliceConcat(a: Bytes, b: Bytes, n: nat)
    requires n <= |a|
    ensures (a + b)[..n] == a[..n] && (a + b)[n..] == a[n..] + b
  {
  }

  lemma Associative<T>(x: seq<T>, y: seq<T>, z: seq<T>)
    ensures (x + y) + z == x + (y + z)
  {
  }

  lemma FlattenCons(chunk: Bytes, chunks: seq<Bytes>)
    ensures Flatten([chunk] + chunks) == chunk + Flatten(chunks)
  {
    assert ([chunk] + chunks)[1..] == chunks;
  }

  lemma DrainUnfolds(stream: Bytes, end: nat)
    requires Cut(stream, 0) == Some(end)
    ensures Drain(stream) == ([stream[..end]] + Drain(stream[end..]).0, Drain(stream[end..]).1)
  {
  }

  lemma {:induction false} DrainInTwo(a: Bytes, b: Bytes)
    ensures Drain(a + b) == (Drain(a).0 + Drain(Drain(a).1 + b).0, Drain(Drain(a).1 + b).1)
    decreases |a|
  {
    if Cut(a, 0).None? {
      assert [] + Drain(a + b).0 == Drain(a + b).0;
    } else {
      var end := Cut(a, 0).value;
      CutOfPrefix(a, b);
      SliceConcat(a, b, end);
      DrainUnfolds(a + b, end);
      DrainUnfolds(a, end);
      DrainInTwo(a[end..], b);
      var d := Drain(a[end..]);
      Associative([a[..end]], d.0, Drain(d.1 + b).0);
    }
  }

  // Frame splitting is independent of chunking: however the stream is cut, the same frames come out
  // and the same bytes are left over.
  lemma {:induction false} ChunkingIsInvisible(buffer: Bytes, chunks: seq<Bytes>)
    requires Drained(buffer)
    ensures Feed(buffer, chunks) == Drain(buffer + Flatten(chunks))
    decreases |chunks|
  {
    if chunks == [] {
      assert buffer + Flatten(chunks) == buffer;
    } else {
      var first, later := buffer + chunks[0], Flatten(chunks[1..]);
      assert buffer + Flatten(chunks) == first + later;
      ResidueIsDrained(first);
      ChunkingIsInvisible(Drain(first).1, chunks[1..]);
      DrainInTwo(first, later);
    }
  }

  lemma {:induction false} ResidueIsDrained(stream: Bytes)
    ensures Drained(Drain(stream).1)
    decreases |stream|
  {
    if Cut(stream, 0).Some? {
      DrainUnfolds(stream, Cut(stream, 0).value);
      ResidueIsDrained(stream[Cut(stream, 0).value..]);
    }
  }

  lemma FlattenJoins(head: Bytes, tail: Bytes, frames: seq<Bytes>, residue: Bytes)
    requires Flatten(frames) + residue == tail
    ensures Flatten([head] + frames) + residue == head + tail
  {
    FlattenCons(head, frames);
    Associative(head, Flatten(frames), residue);
  }

  // No byte is lost or invented: the frames and the residue are the stream.
  lemma {:induction false} DrainConserves(stream: Bytes)
    ensures Flatten(Drain(stream).0) + Drain(stream).1 == stream
    decreases |stream|
  {
    match Cut(stream, 0)
    case None =>
    case Some(end) =>
      var tail := stream[end..];
      DrainConserves(tail);
      DrainUnfolds(stream, end);
      FlattenJoins(stream[..end], tail, Drain(tail).0, Drain(tail).1);
      assert stream[..end] + tail == stream;
  }

  // ---- the code ----

  const CRLFCRLF: Bytes := [CR, LF, CR, LF]
  const LFLF: Bytes := [LF, LF]
  const CRCR: Bytes := [CR, CR]

  predicate OccursAt(buffer: Bytes, needle: Bytes, i: nat) {
    i + |needle| <= |buffer| && buffer[i..i + |needle|] == needle
  }

  // The first window of the buffer that equals the needle.
  method Position(buffer: Bytes, needle: Bytes) returns (index: Option<nat>)
    requires needle != []
    ensures index.Some? ==> OccursAt(buffer, needle, index.value)
    ensures forall j :: 0 <= j < (if index.Some? then index.value else |buffer|) ==> !OccursAt(buffer, needle, j)
  {
    var i := 0;
    while i + |needle| <= |buffer|
      invariant 0 <= i <= |buffer|
      invariant forall j :: 0 <= j < i ==> !OccursAt(buffer, needle, j)
    {
      if buffer[i..i + |needle|] == needle { return Some(i); }
      i := i + 1;
    }
    index := None;
  }

  lemma DelimiterIsNeedle(buffer: Bytes, i: nat)
    ensures DelimiterAt(buffer, i) == 4 <==> OccursAt(buffer, CRLFCRLF, i)
    ensures DelimiterAt(buffer, i) == 2 <==> OccursAt(buffer, LFLF, i) || OccursAt(buffer, CRCR, i)
  {
    if i + 2 <= |buffer| { assert buffer[i..i + 2] == [buffer[i], buffer[i + 1]]; }
    if i + 4 <= |buffer| { assert buffer[i..i + 4] == [buffer[i], buffer[i + 1], buffer[i + 2], buffer[i + 3]]; }
  }

  // take_sse_frame: the earliest of the three delimiters ends the first frame, which is drained from
  // the front of the buffer.
  method TakeSseFrame(buffer: Bytes) returns (frame: Option<Bytes>, rest: Bytes)
    ensures Cut(buffer, 0) == None ==> frame == None && rest == buffer
    ensures Cut(buffer, 0).Some? ==>
              frame == Some(buffer[..Cut(buffer, 0).value]) && rest == buffer[Cut(buffer, 0).value..]
  {
    var delimiter: Option<(nat, nat)> := None;
    var index := Position(buffer, CRLFCRLF);
    if index.Some? { delimiter := Some((index.value, 4)); }
    index := Position(buffer, LFLF);
    if index.Some? && (delimiter.None? || index.value < delimiter.value.0) { delimiter := Some((index.value, 2)); }
    index := Position(buffer, CRCR);
    if index.Some? && (delimiter.None? || index.value < delimiter.value.0) { delimiter := Some((index.value, 2)); }
    forall j: nat | j <= (if delimiter.Some? then delimiter.value.0 else |buffer|)
      ensures delimiter.Some? && j == delimiter.value.0 ==> DelimiterAt(buffer, j) == delimiter.value.1
      ensures delimiter.None? || j < delimiter.value.0 ==> DelimiterAt(buffer, j) == 0
    {
      DelimiterIsNeedle(buffer, j);
    }
    if delimiter.None? {
      CutNone(buffer, 0);
      return None, buffer;
    }
    var at, length := delimiter.value.0, delimiter.value.1;
    CutIsFirst(buffer, 0, at);
    frame, rest := Some(buffer[..at + length]), buffer[at + length..];
  }

  lemma {:induction false} CutNone(buffer: Bytes, i: nat)
    requires i <= |buffer| && forall j :: i <= j < |buffer| ==> DelimiterAt(buffer, j) == 0
    ensures Cut(buffer, i) == None
    decreases |buffer| - i
  {
    if i < |buffer| { CutNone(buffer, i + 1); }
  }
}
