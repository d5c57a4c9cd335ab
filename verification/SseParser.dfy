// Parsing of one server-sent event frame (section 9.2.6 of the WHATWG HTML Living Standard, with the
// client's own checks on event IDs and retry delays).
module SseParser {
  import opened Common
  import opened SseFrames

  const COLON: byte := 58
  const SPACE: byte := 32
  const DATA: Bytes := [100, 97, 116, 97]        // "data"
  const ID: Bytes := [105, 100]                  // "id"
  const RETRY: Bytes := [114, 101, 116, 114, 121] // "retry"
  const MAX_SSE_EVENT_ID_BYTES: nat := 512
  const U64_MAX: nat := 0xFFFF_FFFF_FFFF_FFFF

  datatype McpError =
    | MalformedResponse | RemoteError | ResponseTooLarge | SseStreamTerminated | SseRetryLimit
    | SessionExpired | Transport | OtherStatus

  datatype Frame = Frame(eventId: Option<Bytes>, retryDelay: Option<nat>, payload: Option<Bytes>)

  // ---- well-formed UTF-8 (section 4 of RFC 3629) ----

  predicate Tail(b: byte) {
    0x80 <= b <= 0xBF
  }

  // The length of the well-formed character at the front, or 0.
  function CharLength(s: Bytes): (n: nat)
    ensures n <= |s|
  {
    if s == [] then 0
    else if s[0] < 0x80 then 1
    else if |s| < 2 then 0
    else if 0xC2 <= s[0] <= 0xDF && Tail(s[1]) then 2
    else if |s| < 3 || !Tail(s[2]) then 0
    else if (s[0] == 0xE0 && 0xA0 <= s[1] <= 0xBF) || (s[0] == 0xED && 0x80 <= s[1] <= 0x9F) then 3
    else if 0xE1 <= s[0] <= 0xEF && s[0] != 0xED && Tail(s[1]) then 3
    else if |s| < 4 || !Tail(s[3]) then 0
    else if (s[0] == 0xF0 && 0x90 <= s[1] <= 0xBF) || (s[0] == 0xF4 && 0x80 <= s[1] <= 0x8F) then 4
    else if 0xF1 <= s[0] <= 0xF3 && Tail(s[1]) then 4
    else 0
  }

  predicate ValidUtf8(s: Bytes)
    decreases |s|
  {
    s == [] || (CharLength(s) > 0 && ValidUtf8(s[CharLength(s)..]))
  }

  lemma {:induction false} Utf8Concat(a: Bytes, b: Bytes)
    requires ValidUtf8(a) && ValidUtf8(b)
    ensures ValidUtf8(a + b)
    decreases |a|
  {
    if a == [] {
      assert a + b == b;
    } else {
      var n := CharLength(a);
      assert CharLength(a + b) == n && (a + b)[n..] == a[n..] + b;
      Utf8Concat(a[n..], b);
    }
  }

  lemma {:induction false} AsciiIsUtf8(s: Bytes)
    requires forall i :: 0 <= i < |s| ==> s[i] < 0x80
    ensures ValidUtf8(s)
    decreases |s|
  {
    if s != [] { AsciiIsUtf8(s[1..]); }
  }

  // ---- lines and fields ----

  // CR LF pairs and lone CRs become LF.
  function Normalize(s: Bytes): Bytes
    decreases |s|
  {
    if s == [] then []
    else if s[0] != CR then [s[0]] + Normalize(s[1..])
    else if |s| > 1 && s[1] == LF then [LF] + Normalize(s[2..])
    else [LF] + Normalize(s[1..])
  }

  function IndexOf(s: Bytes, b: byte): (i: nat)
    ensures i <= |s| && (i < |s| ==> s[i] == b)
    ensures forall j :: 0 <= j < i ==> s[j] != b
  {
    if s == [] || s[0] == b then 0 else IndexOf(s[1..], b) + 1
  }

  // The lines of a text; a final line feed ends the last one.
  function Lines(s: Bytes): seq<Bytes>
    decreases |s|
  {
    if s == [] then []
    else
      var i := IndexOf(s, LF);
      [s[..i]] + if i == |s| then [] else Lines(s[i + 1..])
  }

  predicate Comment(line: Bytes) {
    line == [] || line[0] == COLON
  }

  function Name(line: Bytes): Bytes {
    line[..IndexOf(line, COLON)]
  }

  function Value(line: Bytes): Bytes {
    var i := IndexOf(line, COLON);
    if i == |line| then []
    else if i + 1 < |line| && line[i + 1] == SPACE then line[i + 2..]
    else line[i + 1..]
  }

  predicate IsField(line: Bytes, name: Bytes) {
    !Comment(line) && Name(line) == name
  }

  // valid_printable_header_value
  predicate Printable(value: Bytes, max: nat) {
    0 < |value| <= max && forall i :: 0 <= i < |value| ==> 0x21 <= value[i] <= 0x7E
  }

  predicate Digits(value: Bytes) {
    value != [] && forall i :: 0 <= i < |value| ==> 48 <= value[i] <= 57
  }

  function Decimal(value: Bytes): (n: nat)
    requires forall i :: 0 <= i < |value| ==> 48 <= value[i] <= 57
  {
    if value == [] then 0 else Decimal(value[..|value| - 1]) * 10 + (value[|value| - 1] - 48)
  }

  // The number, if it fits 64 bits.
  function ParseU64(value: Bytes): Option<nat>
    requires Digits(value)
  {
    if Decimal(value) <= U64_MAX then Some(Decimal(value)) else None
  }

  // ---- what a frame says ----

  predicate IdsValid(lines: seq<Bytes>) {
    forall i :: 0 <= i < |lines| && IsField(lines[i], ID) ==> Printable(Value(lines[i]), MAX_SSE_EVENT_ID_BYTES)
  }

  // The last event ID wins.
  function LastId(lines: seq<Bytes>): Option<Bytes> {
    if lines == [] then None
    else var last := lines[|lines| - 1];
      if IsField(last, ID) then Some(Value(last)) else LastId(lines[..|lines| - 1])
  }

  // The last all-digits retry line wins, even one too large to represent, which unsets the delay.
  function LastRetry(lines: seq<Bytes>): Option<nat> {
    if lines == [] then None
    else var last := lines[|lines| - 1];
      if IsField(last, RETRY) && Digits(Value(last)) then ParseU64(Value(last)) else LastRetry(lines[..|lines| - 1])
  }

  function DataValues(lines: seq<Bytes>): seq<Bytes> {
    if lines == [] then []
    else var last := lines[|lines| - 1];
      DataValues(lines[..|lines| - 1]) + if IsField(last, DATA) then [Value(last)] else []
  }

  // The values with a line feed between each two.
  function Join(values: seq<Bytes>): Bytes {
    if values == [] then [] else if |values| == 1 then values[0] else values[0] + [LF] + Join(values[1..])
  }

  function Parse(frame: Bytes): Result<Frame, McpError> {
    var lines := Lines(Normalize(frame));
    if !ValidUtf8(frame) || !IdsValid(lines) then Err(MalformedResponse)
    else
      var payload := Join(DataValues(lines));
      Ok(Frame(LastId(lines), LastRetry(lines), if payload == [] then None else Some(payload)))
  }

  lemma OneMoreId(lines: seq<Bytes>, i: nat)
    requires i < |lines|
    ensures IdsValid(lines[..i + 1]) <==>
              IdsValid(lines[..i]) && (IsField(lines[i], ID) ==> Printable(Value(lines[i]), MAX_SSE_EVENT_ID_BYTES))
  {
    forall j | 0 <= j <= i ensures lines[..i + 1][j] == if j < i then lines[..i][j] else lines[i] {}
  }

  lemma OneMoreLine(lines: seq<Bytes>, i: nat)
    requires i < |lines|
    ensures LastId(lines[..i + 1]) == if IsField(lines[i], ID) then Some(Value(lines[i])) else LastId(lines[..i])
    ensures LastRetry(lines[..i + 1]) ==
              if IsField(lines[i], RETRY) && Digits(Value(lines[i])) then ParseU64(Value(lines[i]))
              else LastRetry(lines[..i])
    ensures DataValues(lines[..i + 1]) ==
              DataValues(lines[..i]) + if IsField(lines[i], DATA) then [Value(lines[i])] else []
  {
    assert lines[..i + 1][..i] == lines[..i];
  }

  // parse_sse_frame
  method ParseSseFrame(frame: Bytes) returns (result: Result<Frame, McpError>)
    ensures result == Parse(frame)
  {
    if !ValidUtf8(frame) { return Err(MalformedResponse); }
    var lines := Lines(Normalize(frame));
    var eventId: Option<Bytes>, retryDelay: Option<nat>, payload: seq<Bytes> := None, None, [];
    var i := 0;
    while i < |lines|
      invariant 0 <= i <= |lines|
      invariant IdsValid(lines[..i]) && eventId == LastId(lines[..i])
      invariant retryDelay == LastRetry(lines[..i]) && payload == DataValues(lines[..i])
    {
      OneMoreId(lines, i);
      OneMoreLine(lines, i);
      var failed;
      failed, eventId, retryDelay, payload := ReadLine(lines[i], eventId, retryDelay, payload);
      if failed {
        assert IsField(lines[i], ID);
        return Err(MalformedResponse);
      }
      i := i + 1;
    }
    assert lines[..i] == lines;
    var text := Join(payload);
    result := Ok(Frame(eventId, retryDelay, if text == [] then None else Some(text)));
  }

  // One turn of the line loop.
  method ReadLine(line: Bytes, eventId: Option<Bytes>, retryDelay: Option<nat>, payload: seq<Bytes>)
      returns (failed: bool, eventId': Option<Bytes>, retryDelay': Option<nat>, payload': seq<Bytes>)
    ensures failed <==> IsField(line, ID) && !Printable(Value(line), MAX_SSE_EVENT_ID_BYTES)
    ensures !failed ==> eventId' == if IsField(line, ID) then Some(Value(line)) else eventId
    ensures var delayed := IsField(line, RETRY) && Digits(Value(line));
            !failed ==> retryDelay' == if delayed then ParseU64(Value(line)) else retryDelay
    ensures !failed ==> payload' == payload + if IsField(line, DATA) then [Value(line)] else []
  {
    failed, eventId', retryDelay', payload' := false, eventId, retryDelay, payload;
    if Comment(line) { return; }
    var name, value := Name(line), Value(line);
    if name == DATA {
      payload' := payload + [value];
    } else if name == ID {
      failed := !Printable(value, MAX_SSE_EVENT_ID_BYTES);
      eventId' := Some(value);
    } else if name == RETRY && Digits(value) {
      retryDelay' := ParseU64(value);
    }
  }
}
