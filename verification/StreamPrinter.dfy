// The AI web adapter's bounded frame printer and its event loop, and the round trip through the
// MCP client's splitter and parser.
module StreamPrinter {
  import opened Common
  import opened SseFrames
  import opened SseParser

  const MIN_MAX_FRAME_BYTES: nat := 128

  datatype Format = Sse | Ndjson

  datatype EncodingError = TooLarge | SerializationRejected

  // "data: "
  const SSE_PREFIX: Bytes := [100, 97, 116, 97, 58, 32]

  function Prefix(format: Format): Bytes {
    if format == Sse then SSE_PREFIX else []
  }

  function Suffix(format: Format): Bytes {
    if format == Sse then [LF, LF] else [LF]
  }

  function Framed(format: Format, payload: Bytes): Bytes {
    Prefix(format) + payload + Suffix(format)
  }

  class BoundedFrameBuffer {
    var bytes: Bytes
    const maxBytes: nat
    var exceeded: bool

    ghost predicate Valid()
      reads this
    {
      |bytes| <= maxBytes
    }

    constructor (maxBytes: nat)
      ensures Valid() && this.maxBytes == maxBytes && bytes == [] && !exceeded
    {
      this.maxBytes := maxBytes;
      bytes, exceeded := [], false;
    }

    // A write fits whole or changes nothing but the flag.
    method Write(piece: Bytes) returns (ok: bool)
      requires Valid()
      modifies this
      ensures Valid()
      ensures ok <==> |old(bytes)| + |piece| <= maxBytes
      ensures bytes == if ok then old(bytes) + piece else old(bytes)
      ensures exceeded == (old(exceeded) || !ok)
    {
      if |piece| > maxBytes - |bytes| {
        exceeded := true;
        return false;
      }
      bytes := bytes + piece;
      return true;
    }

    // The serializer writes its pieces until one is refused.
    method WritePieces(pieces: seq<Bytes>) returns (ok: bool)
      requires Valid() && !exceeded
      modifies this
      ensures Valid() && exceeded == !ok
      ensures ok <==> |old(bytes)| + |Flatten(pieces)| <= maxBytes
      ensures ok ==> bytes == old(bytes) + Flatten(pieces)
    {
      var i := 0;
      assert pieces[..0] == [] && pieces[0..] == pieces;
      while i < |pieces|
        invariant 0 <= i <= |pieces|
        invariant Valid() && !exceeded && bytes == old(bytes) + Flatten(pieces[..i])
        invariant |Flatten(pieces)| == |Flatten(pieces[..i])| + |Flatten(pieces[i..])|
      {
        FlattenSnoc(pieces[..i], pieces[i]);
        assert pieces[..i + 1] == pieces[..i] + [pieces[i]];
        assert pieces[i..][1..] == pieces[i + 1..];
        ok := Write(pieces[i]);
        if !ok { return; }
        i := i + 1;
      }
      assert pieces[..i] == pieces;
      ok := true;
    }
  }

  lemma {:induction false} FlattenSnoc(pieces: seq<Bytes>, piece: Bytes)
    ensures Flatten(pieces + [piece]) == Flatten(pieces) + piece
    decreases |pieces|
  {
    if pieces == [] {
      assert pieces + [piece] == [piece] && Flatten([piece]) == piece + Flatten([]);
    } else {
      assert (pieces + [piece])[1..] == pieces[1..] + [piece];
      FlattenSnoc(pieces[1..], piece);
    }
  }

  // encode_frame: the result does not depend on how the serializer splits its writes, and no frame
  // exceeds the limit.
  method EncodeFrame(format: Format, pieces: seq<Bytes>, accepted: bool, limit: nat)
      returns (result: Result<Bytes, EncodingError>)
    ensures result == Encode(format, Flatten(pieces), accepted, limit)
  {
    var buffer := new BoundedFrameBuffer(limit);
    assert [] + Prefix(format) == Prefix(format);
    var ok := buffer.Write(Prefix(format));
    if !ok { return Err(TooLarge); }
    ok := buffer.WritePieces(pieces);
    if buffer.exceeded { return Err(TooLarge); }
    if !accepted { return Err(SerializationRejected); }
    ok := buffer.Write(Suffix(format));
    if !ok { return Err(TooLarge); }
    result := Ok(buffer.bytes);
  }

  // What encode_frame promises of the serialized payload, whole.
  function Encode(format: Format, payload: Bytes, accepted: bool, limit: nat): (r: Result<Bytes, EncodingError>)
    ensures r.Ok? ==> |r.value| <= limit && r.value == Framed(format, payload)
    ensures r.Ok? <==> accepted && |Framed(format, payload)| <= limit
    ensures r == Err(SerializationRejected) ==> !accepted
  {
    if |Prefix(format) + payload| > limit then Err(TooLarge)
    else if !accepted then Err(SerializationRejected)
    else if |Framed(format, payload)| > limit then Err(TooLarge)
    else Ok(Framed(format, payload))
  }

  // ---- the event loop ----

  // One item of the upstream stream: an event as its serializer writes it, or an upstream failure.
  datatype Item = Event(pieces: seq<Bytes>, accepted: bool, completed: bool) | UpstreamFailure

  function Text(s: string): Bytes {
    seq(|s|, i requires 0 <= i < |s| => if s[i] as int < 128 then s[i] as int else 63)
  }

  const ERROR_OPEN := "{\"type\":\"error\",\"code\":\""
  const ERROR_CLOSE := "\"}"
  const FAILED_CODE := "ai_stream_failed"
  const TOO_LARGE_CODE := "ai_stream_event_too_large"

  const STREAM_FAILED: Bytes := Text(ERROR_OPEN + FAILED_CODE + ERROR_CLOSE)
  const EVENT_TOO_LARGE: Bytes := Text(ERROR_OPEN + TOO_LARGE_CODE + ERROR_CLOSE)

  // The payload an item turns into, and whether it ends the response.
  function PayloadOf(format: Format, item: Item, limit: nat): (Bytes, bool) {
    match item
    case UpstreamFailure => (STREAM_FAILED, true)
    case Event(pieces, accepted, completed) =>
      match Encode(format, Flatten(pieces), accepted, limit)
      case Ok(_) => (Flatten(pieces), completed)
      case Err(TooLarge) => (EVENT_TOO_LARGE, true)
      case Err(SerializationRejected) => (STREAM_FAILED, true)
  }

  // The frame sent for an item carries its payload and fits the limit.
  predicate Answers(format: Format, item: Item, limit: nat, frame: Bytes) {
    frame == Framed(format, PayloadOf(format, item, limit).0) && |frame| <= limit
  }

  predicate Ends(format: Format, item: Item, limit: nat) {
    PayloadOf(format, item, limit).1
  }

  // stream_response: one frame per polled item, each within the limit; only the last frame may be
  // terminal, and polling stops there.
  method StreamResponse(format: Format, items: seq<Item>, limit: nat) returns (frames: seq<Bytes>)
    requires MIN_MAX_FRAME_BYTES <= limit
    ensures |frames| <= |items|
    ensures forall i :: 0 <= i < |frames| ==> Answers(format, items[i], limit, frames[i])
    ensures forall i :: 0 <= i < |frames| - 1 ==> !Ends(format, items[i], limit)
    ensures |frames| < |items| ==> frames != [] && Ends(format, items[|frames| - 1], limit)
  {
    frames := [];
    while |frames| < |items|
      invariant |frames| <= |items|
      invariant forall i :: 0 <= i < |frames| ==> Answers(format, items[i], limit, frames[i])
      invariant forall i :: 0 <= i < |frames| ==> !Ends(format, items[i], limit)
    {
      var frame, terminal := FrameItem(format, items[|frames|], limit);
      frames := frames + [frame];
      if terminal { break; }
    }
  }

  method FrameItem(format: Format, item: Item, limit: nat) returns (frame: Bytes, terminal: bool)
    requires MIN_MAX_FRAME_BYTES <= limit
    ensures Answers(format, item, limit, frame) && terminal == Ends(format, item, limit)
  {
    match item {
      case UpstreamFailure =>
        frame, terminal := Framed(format, STREAM_FAILED), true;
      case Event(pieces, accepted, completed) =>
        var encoded := EncodeFrame(format, pieces, accepted, limit);
        match encoded {
          case Ok(bytes) => frame, terminal := bytes, completed;
          case Err(TooLarge) => frame, terminal := Framed(format, EVENT_TOO_LARGE), true;
          case Err(SerializationRejected) => frame, terminal := Framed(format, STREAM_FAILED), true;
        }
    }
  }

  // ---- the round trip ----

  // A JSON text as serde_json writes it: not empty, no raw line breaks, UTF-8.
  predicate JsonText(payload: Bytes) {
    payload != [] && CR !in payload && LF !in payload && ValidUtf8(payload)
  }

  lemma {:induction false} NormalizeKeeps(s: Bytes)
    requires CR !in s
    ensures Normalize(s) == s
    decreases |s|
  {
    if s != [] { NormalizeKeeps(s[1..]); }
  }

  lemma FirstLine(line: Bytes, rest: Bytes)
    requires LF !in line
    ensures Lines(line + [LF] + rest) == [line] + Lines(rest)
  {
    var text := line + [LF] + rest;
    assert text[|line|] == LF && forall j :: 0 <= j < |line| ==> text[j] == line[j];
    assert IndexOf(text, LF) == |line|;
    assert text[..|line|] == line && text[|line| + 1..] == rest;
  }

  lemma LinesOfFrame(payload: Bytes)
    requires LF !in payload
    ensures Lines(Framed(Sse, payload)) == [SSE_PREFIX + payload, []]
  {
    var line := SSE_PREFIX + payload;
    assert Framed(Sse, payload) == line + [LF] + [LF];
    FirstLine(line, [LF]);
    assert [] + [LF] + [] == [LF];
    FirstLine([], []);
  }

  lemma DataLine(payload: Bytes)
    ensures IsField(SSE_PREFIX + payload, DATA) && Value(SSE_PREFIX + payload) == payload
  {
    var line := SSE_PREFIX + payload;
    assert line[4] == COLON && forall j :: 0 <= j < 4 ==> line[j] != COLON;
    assert IndexOf(line, COLON) == 4;
    assert line[..4] == DATA;
  }

  lemma FrameIsUtf8(payload: Bytes)
    requires ValidUtf8(payload)
    ensures ValidUtf8(Framed(Sse, payload))
  {
    AsciiIsUtf8(SSE_PREFIX);
    AsciiIsUtf8([LF, LF]);
    Utf8Concat(SSE_PREFIX, payload);
    Utf8Concat(SSE_PREFIX + payload, [LF, LF]);
  }

  // The parser undoes the printer on one frame.
  lemma ParseUndoesPrint(payload: Bytes)
    requires JsonText(payload)
    ensures Parse(Framed(Sse, payload)) == Ok(Frame(None, None, Some(payload)))
  {
    FrameIsUtf8(payload);
    NormalizeKeeps(Framed(Sse, payload));
    LinesOfFrame(payload);
    DataLine(payload);
    LinesSayData(SSE_PREFIX + payload, payload);
  }

  lemma LinesSayData(line: Bytes, payload: Bytes)
    requires IsField(line, DATA) && Value(line) == payload
    ensures var lines := [line, []];
            IdsValid(lines) && LastId(lines) == None && LastRetry(lines) == None && DataValues(lines) == [payload]
  {
    var lines := [line, []];
    assert lines[..1] == [line] && lines[..2] == lines && lines[..0] == [];
    OneMoreLine(lines, 0);
    OneMoreLine(lines, 1);
    OneMoreId(lines, 0);
    OneMoreId(lines, 1);
  }

  function Frames(payloads: seq<Bytes>): seq<Bytes> {
    seq(|payloads|, i requires 0 <= i < |payloads| => Framed(Sse, payloads[i]))
  }

  lemma CutAfterFrame(payload: Bytes, rest: Bytes)
    requires JsonText(payload)
    ensures Cut(Framed(Sse, payload) + rest, 0) == Some(|Framed(Sse, payload)|)
  {
    var stream := Framed(Sse, payload) + rest;
    var line := SSE_PREFIX + payload;
    assert stream[|line|] == LF && stream[|line| + 1] == LF;
    forall j | 0 <= j < |line| ensures DelimiterAt(stream, j) == 0 {
      assert stream[j] == line[j];
      assert stream[j] != CR && stream[j] != LF;
    }
    CutIsFirst(stream, 0, |line|);
  }

  lemma {:induction false} SplitUndoesPrint(payloads: seq<Bytes>)
    requires forall i :: 0 <= i < |payloads| ==> JsonText(payloads[i])
    ensures Drain(Flatten(Frames(payloads))) == (Frames(payloads), [])
    decreases |payloads|
  {
    if payloads != [] {
      var frame, rest := Framed(Sse, payloads[0]), Flatten(Frames(payloads[1..]));
      assert Frames(payloads)[1..] == Frames(payloads[1..]) && Frames(payloads)[0] == frame;
      CutAfterFrame(payloads[0], rest);
      SplitUndoesPrint(payloads[1..]);
      assert (frame + rest)[..|frame|] == frame && (frame + rest)[|frame|..] == rest;
      DrainUnfolds(frame + rest, |frame|);
      assert Frames(payloads) == [frame] + Frames(payloads[1..]);
    }
  }

  // Printer and parser undo each other: print any payloads, cut the bytes anywhere, split and parse,
  // and exactly those payloads come back, with nothing left over.
  lemma RoundTrip(payloads: seq<Bytes>, chunks: seq<Bytes>)
    requires forall i :: 0 <= i < |payloads| ==> JsonText(payloads[i])
    requires Flatten(chunks) == Flatten(Frames(payloads))
    ensures Feed([], chunks) == (Frames(payloads), [])
    ensures forall i :: 0 <= i < |payloads| ==>
              Parse(Feed([], chunks).0[i]) == Ok(Frame(None, None, Some(payloads[i])))
  {
    ChunkingIsInvisible([], chunks);
    assert [] + Flatten(chunks) == Flatten(chunks);
    SplitUndoesPrint(payloads);
    forall i | 0 <= i < |payloads| ensures Parse(Framed(Sse, payloads[i])) == Ok(Frame(None, None, Some(payloads[i]))) {
      ParseUndoesPrint(payloads[i]);
    }
  }

  predicate Plain(s: string) {
    s != "" && forall i :: 0 <= i < |s| ==> ' ' <= s[i] <= '~'
  }

  lemma PlainTextIsJson(s: string)
    requires Plain(s)
    ensures JsonText(Text(s))
  {
    AsciiIsUtf8(Text(s));
  }

  lemma ErrorTextIsPlain(code: string)
    requires Plain(code)
    ensures Plain(ERROR_OPEN + code + ERROR_CLOSE)
  {
    assert Plain(ERROR_OPEN) && Plain(ERROR_CLOSE);
  }

  lemma ErrorPayloadsAreJson()
    ensures JsonText(STREAM_FAILED) && JsonText(EVENT_TOO_LARGE)
  {
    assert Plain(FAILED_CODE) && Plain(TOO_LARGE_CODE);
    ErrorTextIsPlain(FAILED_CODE);
    ErrorTextIsPlain(TOO_LARGE_CODE);
    PlainTextIsJson(ERROR_OPEN + FAILED_CODE + ERROR_CLOSE);
    PlainTextIsJson(ERROR_OPEN + TOO_LARGE_CODE + ERROR_CLOSE);
  }

  // What a client reads from an SSE response: the payload of every polled item, in order, the terminal
  // error included.
  lemma ClientSeesTheStream(items: seq<Item>, limit: nat, payloads: seq<Bytes>, chunks: seq<Bytes>)
    requires |payloads| <= |items|
    requires forall i :: 0 <= i < |payloads| ==> payloads[i] == PayloadOf(Sse, items[i], limit).0
    requires forall i :: 0 <= i < |payloads| && items[i].Event? && items[i].accepted ==>
              JsonText(Flatten(items[i].pieces))
    requires Flatten(chunks) == Flatten(Frames(payloads))
    ensures forall i :: 0 <= i < |payloads| ==> JsonText(payloads[i])
    ensures Feed([], chunks) == (Frames(payloads), [])
    ensures forall i :: 0 <= i < |payloads| ==>
              Parse(Feed([], chunks).0[i]) == Ok(Frame(None, None, Some(PayloadOf(Sse, items[i], limit).0)))
  {
    ErrorPayloadsAreJson();
    RoundTrip(payloads, chunks);
  }
}
