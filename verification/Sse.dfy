/** Server-sent-event framing of the `GET /mcp` stream, against the stream
    interpretation of section 9.2.6 of the WHATWG HTML Living Standard. */
module Sse {
  import opened Prelude

  newtype Byte = x: int | 0 <= x < 256

  const LF: Byte := 10
  const CR: Byte := 13
  const COLON: Byte := 58
  const SPACE: Byte := 32
  const DATA: seq<Byte> := [100, 97, 116, 97]                         // data
  const DATA_PREFIX: seq<Byte> := [100, 97, 116, 97, 58, 32]          // data:
  const KEEP_ALIVE: seq<Byte> := [58, 32, 107, 101, 101, 112, 45, 97, 108, 105, 118, 101, 10, 10]

  // ----- The writer

  /** `payload.split(b'\n')`: always at least one line. */
  function SplitLines(payload: seq<Byte>): (lines: seq<seq<Byte>>)
    ensures lines != []
  {
    if payload == [] then [[]]
    else
      var rest := SplitLines(payload[1..]);
      if payload[0] == LF then [[]] + rest else [[payload[0]] + rest[0]] + rest[1..]
  }

  function DataLines(lines: seq<seq<Byte>>): seq<Byte> {
    if lines == [] then [] else DATA_PREFIX + lines[0] + [LF] + DataLines(lines[1..])
  }

  function Frame(payload: seq<Byte>): seq<Byte> { DataLines(SplitLines(payload)) + [LF] }

  lemma {:induction false} DataLinesSnoc(lines: seq<seq<Byte>>, line: seq<Byte>)
    ensures DataLines(lines + [line]) == DataLines(lines) + DATA_PREFIX + line + [LF]
  {
    if lines == [] {
      assert lines + [line] == [line] && [line][1..] == [];
    } else {
      assert (lines + [line])[1..] == lines[1..] + [line];
      DataLinesSnoc(lines[1..], line);
    }
  }

  /** A byte joins the last line, or ends it. */
  function Extended(lines: seq<seq<Byte>>, b: Byte): seq<seq<Byte>>
    requires lines != []
  {
    if b == LF then lines + [[]] else lines[..|lines| - 1] + [lines[|lines| - 1] + [b]]
  }

  lemma ExtendedBlank(lines: seq<seq<Byte>>, b: Byte)
    requires lines != []
    ensures Extended([[]] + lines, b) == [[]] + Extended(lines, b)
  {}

  lemma ExtendedGrows(c: Byte, lines: seq<seq<Byte>>, b: Byte)
    requires lines != []
    ensures Extended([[c] + lines[0]] + lines[1..], b) == [[c] + Extended(lines, b)[0]] + Extended(lines, b)[1..]
  {
    if |lines| == 1 && b != LF {
      assert [c] + lines[0] + [b] == [c] + (lines[0] + [b]);
    }
  }

  lemma {:induction false} SplitLinesSnoc(payload: seq<Byte>, b: Byte)
    ensures SplitLines(payload + [b]) == Extended(SplitLines(payload), b)
    decreases |payload|
  {
    if payload == [] {
      assert payload + [b] == [b] && [b][1..] == [];
      assert SplitLines([b]) == if b == LF then [[]] + [[]] else [[b] + []] + [];
      assert [b] + [] == [b] && [] + [b] == [b];
    } else {
      assert (payload + [b])[1..] == payload[1..] + [b];
      SplitLinesSnoc(payload[1..], b);
      ExtendedBlank(SplitLines(payload[1..]), b);
      ExtendedGrows(payload[0], SplitLines(payload[1..]), b);
    }
  }

  /** The frame buffer filled in one pass over the payload. */
  method SseFrame(payload: seq<Byte>) returns (frame: seq<Byte>)
    ensures frame == Frame(payload)
  {
    frame := DATA_PREFIX;
    ghost var lines: seq<seq<Byte>> := [[]];
    assert DataLines([]) == [];
    for i := 0 to |payload|
      invariant lines == SplitLines(payload[..i])
      invariant frame == DataLines(lines[..|lines| - 1]) + DATA_PREFIX + lines[|lines| - 1]
    {
      ghost var last := |lines| - 1;
      assert payload[..i + 1] == payload[..i] + [payload[i]];
      SplitLinesSnoc(payload[..i], payload[i]);
      if payload[i] == LF {
        frame := frame + [LF] + DATA_PREFIX;
        DataLinesSnoc(lines[..last], lines[last]);
        assert lines[..last] + [lines[last]] == lines;
        lines := lines + [[]];
        assert lines[..|lines| - 1] == lines[..last + 1];
      } else {
        frame := frame + [payload[i]];
        lines := lines[..last] + [lines[last] + [payload[i]]];
      }
    }
    assert payload[..|payload|] == payload;
    DataLinesSnoc(lines[..|lines| - 1], lines[|lines| - 1]);
    assert lines[..|lines| - 1] + [lines[|lines| - 1]] == lines;
    frame := frame + [LF] + [LF];
  }

  // ----- The reader of the standard

  /** Where the first line ends: at a carriage return or a line feed. */
  function LineEnd(stream: seq<Byte>): (end: nat)
    ensures end <= |stream|
    ensures forall i :: 0 <= i < end ==> stream[i] != LF && stream[i] != CR
    ensures end < |stream| ==> stream[end] == LF || stream[end] == CR
  {
    if stream == [] || stream[0] == LF || stream[0] == CR then 0 else 1 + LineEnd(stream[1..])
  }

  /** The data buffer of the event being read, and the data of the events dispatched. */
  datatype Reader = Reader(data: seq<Byte>, events: seq<seq<Byte>>)

  function IndexOf(line: seq<Byte>, b: Byte): (at: nat)
    ensures at <= |line| && (at < |line| ==> line[at] == b)
    ensures forall i :: 0 <= i < at ==> line[i] != b
  {
    if line == [] || line[0] == b then 0 else 1 + IndexOf(line[1..], b)
  }

  /** One line: blank dispatches, a leading colon is a comment, else a field. */
  function Feed(r: Reader, line: seq<Byte>): Reader {
    if line == [] then
      if r.data == [] then r else Reader([], r.events + [r.data[..|r.data| - 1]])
    else
      var colon := IndexOf(line, COLON);
      var field := line[..colon];
      var raw := if colon < |line| then line[colon + 1..] else [];
      var value := if raw != [] && raw[0] == SPACE then raw[1..] else raw;
      if colon == 0 || field != DATA then r
      else r.(data := r.data + value + [LF])
  }

  /** Complete lines are interpreted in order; an unfinished line is discarded. */
  function Read(r: Reader, stream: seq<Byte>): Reader
    decreases |stream|
  {
    var end := LineEnd(stream);
    if end == |stream| then r
    else
      var skip := if stream[end] == CR && end + 1 < |stream| && stream[end + 1] == LF then end + 2 else end + 1;
      Read(Feed(r, stream[..end]), stream[skip..])
  }

  function Dispatched(stream: seq<Byte>): seq<seq<Byte>> { Read(Reader([], []), stream).events }

  // ----- The writer undone by the reader

  lemma ReadLine(r: Reader, line: seq<Byte>, rest: seq<Byte>)
    requires LF !in line && CR !in line
    ensures Read(r, line + [LF] + rest) == Read(Feed(r, line), rest)
  {
    var stream := line + [LF] + rest;
    assert stream[|line|] == LF;
    assert forall i :: 0 <= i < |line| ==> stream[i] == line[i] && line[i] in line;
    assert LineEnd(stream) == |line|;
    assert stream[..|line|] == line && stream[|line| + 1..] == rest;
  }

  lemma FeedData(r: Reader, line: seq<Byte>)
    ensures Feed(r, DATA_PREFIX + line) == r.(data := r.data + line + [LF])
  {
    var whole := DATA_PREFIX + line;
    assert whole[4] == COLON && IndexOf(whole, COLON) == 4;
    assert whole[..4] == DATA;
    assert whole[5..] == [SPACE] + line;
  }

  function Buffered(lines: seq<seq<Byte>>): seq<Byte> {
    if lines == [] then [] else lines[0] + [LF] + Buffered(lines[1..])
  }

  lemma DataLinesFirst(lines: seq<seq<Byte>>, rest: seq<Byte>)
    requires lines != []
    ensures DataLines(lines) + rest == (DATA_PREFIX + lines[0]) + [LF] + (DataLines(lines[1..]) + rest)
  {}

  lemma BufferedFirst(data: seq<Byte>, lines: seq<seq<Byte>>)
    requires lines != []
    ensures data + Buffered(lines) == (data + lines[0] + [LF]) + Buffered(lines[1..])
  {}

  lemma {:induction false} ReadDataLines(r: Reader, lines: seq<seq<Byte>>, rest: seq<Byte>)
    requires forall line :: line in lines ==> LF !in line && CR !in line
    ensures Read(r, DataLines(lines) + rest) == Read(r.(data := r.data + Buffered(lines)), rest)
    decreases |lines|
  {
    if lines == [] {
      assert DataLines(lines) + rest == rest;
      assert r.(data := r.data + Buffered(lines)) == r;
    } else {
      assert lines[0] in lines;
      ReadFirstDataLine(r, lines, rest);
      ReadDataLines(r.(data := r.data + lines[0] + [LF]), lines[1..], rest);
      BufferedFirst(r.data, lines);
    }
  }

  lemma ReadFirstDataLine(r: Reader, lines: seq<seq<Byte>>, rest: seq<Byte>)
    requires lines != [] && LF !in lines[0] && CR !in lines[0]
    ensures Read(r, DataLines(lines) + rest) ==
            Read(r.(data := r.data + lines[0] + [LF]), DataLines(lines[1..]) + rest)
  {
    DataLinesFirst(lines, rest);
    ReadLine(r, DATA_PREFIX + lines[0], DataLines(lines[1..]) + rest);
    FeedData(r, lines[0]);
  }

  lemma BufferedGrows(b: Byte, lines: seq<seq<Byte>>)
    requires lines != []
    ensures Buffered([[b] + lines[0]] + lines[1..]) == [b] + Buffered(lines)
  {
    assert ([[b] + lines[0]] + lines[1..])[1..] == lines[1..];
    Associates([b], lines[0], [LF]);
    Associates([b], lines[0] + [LF], Buffered(lines[1..]));
  }

  lemma BufferedBlank(lines: seq<seq<Byte>>)
    ensures Buffered([[]] + lines) == [LF] + Buffered(lines)
  {
    assert ([[]] + lines)[1..] == lines;
  }

  lemma {:induction false} SplitLinesBuffered(payload: seq<Byte>)
    ensures Buffered(SplitLines(payload)) == payload + [LF]
    decreases |payload|
  {
    if payload != [] {
      var rest := SplitLines(payload[1..]);
      SplitLinesBuffered(payload[1..]);
      BufferedBlank(rest);
      BufferedGrows(payload[0], rest);
      assert payload + [LF] == [payload[0]] + (payload[1..] + [LF]);
    }
  }

  predicate Without(lines: seq<seq<Byte>>, b: Byte) { forall line :: line in lines ==> b !in line }

  lemma {:induction false} LinesHoldNoEnds(payload: seq<Byte>)
    ensures Without(SplitLines(payload), LF)
    ensures CR !in payload ==> Without(SplitLines(payload), CR)
    decreases |payload|
  {
    if payload != [] {
      LinesHoldNoEnds(payload[1..]);
      var rest := SplitLines(payload[1..]);
      assert payload[0] in payload && forall b :: b in payload[1..] ==> b in payload;
      assert rest[0] in rest;
      forall line | line in SplitLines(payload)
        ensures LF !in line && (CR !in payload ==> CR !in line)
      {
        assert line in rest || line == [] || (payload[0] != LF && line == [payload[0]] + rest[0]);
      }
    }
  }

  lemma ReadFrame(r: Reader, payload: seq<Byte>, rest: seq<Byte>)
    requires CR !in payload && r.data == []
    ensures Read(r, Frame(payload) + rest) == Read(Reader([], r.events + [payload]), rest)
  {
    var lines := SplitLines(payload);
    SplitLinesBuffered(payload);
    LinesHoldNoEnds(payload);
    assert Frame(payload) + rest == DataLines(lines) + ([] + [LF] + rest);
    ReadDataLines(r, lines, [] + [LF] + rest);
    var full := r.(data := r.data + Buffered(lines));
    assert full.data == payload + [LF];
    ReadLine(full, [], rest);
    assert full.data[..|full.data| - 1] == payload;
  }

  lemma ReadKeepAlive(r: Reader, rest: seq<Byte>)
    requires r.data == []
    ensures Read(r, KEEP_ALIVE + rest) == Read(r, rest)
  {
    var comment := KEEP_ALIVE[..12];
    assert KEEP_ALIVE + rest == comment + [LF] + ([] + [LF] + rest);
    ReadLine(r, comment, [] + [LF] + rest);
    ReadLine(r, [], rest);
  }

  /** What the stream loop writes: one frame a message, one comment a timeout. */
  datatype Chunk = Message(payload: seq<Byte>) | KeepAlive

  function Stream(chunks: seq<Chunk>): seq<Byte> {
    if chunks == [] then []
    else (match chunks[0] case Message(payload) => Frame(payload) case KeepAlive => KEEP_ALIVE) + Stream(chunks[1..])
  }

  function Payloads(chunks: seq<Chunk>): seq<seq<Byte>> {
    if chunks == [] then []
    else (match chunks[0] case Message(payload) => [payload] case KeepAlive => []) + Payloads(chunks[1..])
  }

  lemma {:induction false} ReadStream(r: Reader, chunks: seq<Chunk>)
    requires r.data == [] && forall payload :: payload in Payloads(chunks) ==> CR !in payload
    ensures Read(r, Stream(chunks)) == Reader([], r.events + Payloads(chunks))
    decreases |chunks|
  {
    if chunks == [] {
      assert r.events + [] == r.events;
    } else if chunks[0].Message? {
      assert Payloads(chunks) == [chunks[0].payload] + Payloads(chunks[1..]);
      assert Payloads(chunks)[0] == chunks[0].payload;
      ReadFrame(r, chunks[0].payload, Stream(chunks[1..]));
      ReadStream(Reader([], r.events + [chunks[0].payload]), chunks[1..]);
      Associates(r.events, [chunks[0].payload], Payloads(chunks[1..]));
    } else {
      assert Payloads(chunks) == Payloads(chunks[1..]);
      ReadKeepAlive(r, Stream(chunks[1..]));
      ReadStream(r, chunks[1..]);
    }
  }

  ghost predicate CarriageFree(r: Reader) {
    CR !in r.data && forall event :: event in r.events ==> CR !in event
  }

  /** No dispatched event can hold a carriage return: it would have ended a line. */
  lemma {:induction false} ReadKeepsCarriageFree(r: Reader, stream: seq<Byte>)
    requires CarriageFree(r)
    ensures CarriageFree(Read(r, stream))
    decreases |stream|
  {
    var end := LineEnd(stream);
    if end != |stream| {
      var line := stream[..end];
      var skip := if stream[end] == CR && end + 1 < |stream| && stream[end + 1] == LF then end + 2 else end + 1;
      assert CR !in line;
      ReadKeepsCarriageFree(Feed(r, line), stream[skip..]);
    }
  }

  /** Interpreting the written stream, with keep-alive comments anywhere between
      frames, yields the payloads in order - empty ones, ones with line feeds or
      leading spaces included - exactly when no payload holds a carriage return. */
  lemma FramingRoundTrip(chunks: seq<Chunk>)
    ensures Dispatched(Stream(chunks)) == Payloads(chunks) <==>
            forall payload :: payload in Payloads(chunks) ==> CR !in payload
  {
    if forall payload :: payload in Payloads(chunks) ==> CR !in payload {
      ReadStream(Reader([], []), chunks);
    } else {
      ReadKeepsCarriageFree(Reader([], []), Stream(chunks));
    }
  }
}
