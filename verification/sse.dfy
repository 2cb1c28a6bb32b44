/** The scanner's reading of a Server-Sent Events body: the payload of the
    first `data: ` line, and nothing else. This is a deliberately small subset
    of the event-stream parsing of the HTML Living Standard (section 9.2.5):
    event names, ids, retry hints, comments and multi-line data are ignored. */
module Sse {
  import opened Wrappers
  import opened GoStrings

  /** A body starting with this is treated as an event stream. */
  const EventPrefix := "event:"

  /** The prefix of the one line that carries the payload (note the space). */
  const DataPrefix := "data: "

  datatype SseError = NoDataField

  /** A line carries data when, once trimmed, it starts with `data: `. */
  predicate IsDataLine(line: string) {
    HasPrefix(TrimSpace(line), DataPrefix)
  }

  /** What follows `data: ` on a trimmed line. */
  function Payload(line: string): string {
    TrimPrefix(TrimSpace(line), DataPrefix)
  }

  /** The index of the first element satisfying `p`, if any. */
  function FirstMatch<T>(xs: seq<T>, p: T -> bool): (r: Option<nat>)
    ensures r.Some? ==> r.value < |xs| && p(xs[r.value])
    ensures r.Some? ==> forall j :: 0 <= j < r.value ==> !p(xs[j])
    ensures r.None? <==> forall j :: 0 <= j < |xs| ==> !p(xs[j])
  {
    if |xs| == 0 then None
    else if p(xs[0]) then Some(0)
    else
      match FirstMatch(xs[1..], p)
      case None => None
      case Some(k) => Some(k + 1)
  }

  /** Some line carries data. */
  predicate HasDataLine(lines: seq<string>) {
    exists i :: 0 <= i < |lines| && IsDataLine(lines[i])
  }

  /** Line `i` is the first line that carries data. */
  predicate IsFirstDataLine(lines: seq<string>, i: int) {
    && 0 <= i < |lines| && IsDataLine(lines[i])
    && forall j :: 0 <= j < i ==> !IsDataLine(lines[j])
  }

  /** The payload of the first data line among `lines`; earlier and later
      lines play no part. Without a data line it fails. */
  function FirstDataPayload(lines: seq<string>): (r: Result<string, SseError>)
    ensures r.Ok? <==> HasDataLine(lines)
    ensures r.Ok? ==> exists i :: IsFirstDataLine(lines, i) && r.value == Payload(lines[i])
    ensures r.Err? ==> r.error == NoDataField
  {
    match FirstMatch(lines, IsDataLine)
    case None => Err(NoDataField)
    case Some(i) => assert IsFirstDataLine(lines, i); Ok(Payload(lines[i]))
  }

  /** `parseSSEResponse`: the payload of the first data line of the body
      split on line feeds; without a data line, the framing error. */
  function ParseSSEResponse(sseData: string): (r: Result<string, SseError>)
    ensures r.Ok? <==> HasDataLine(Split(sseData, '\n'))
    ensures r.Ok? ==> exists i :: IsFirstDataLine(Split(sseData, '\n'), i) && r.value == Payload(Split(sseData, '\n')[i])
    ensures r.Err? ==> r.error == NoDataField
  {
    FirstDataPayload(Split(sseData, '\n'))
  }

  /** When the first line of the body is a data line, its payload is the
      result, whatever follows. */
  lemma FirstLineDataWins(first: string, rest: string)
    requires '\n' !in first && IsDataLine(first)
    ensures ParseSSEResponse(first + "\n" + rest) == Ok(Payload(first))
  {
    SplitAfterFirst(first, rest, '\n');
  }

  /** A first line that is not a data line is skipped: the result is that of
      the remaining lines. */
  lemma NonDataLineSkipped(first: string, rest: string)
    requires '\n' !in first && !IsDataLine(first)
    ensures ParseSSEResponse(first + "\n" + rest) == ParseSSEResponse(rest)
  {
    SplitAfterFirst(first, rest, '\n');
    SkipNonDataLine(first, Split(rest, '\n'));
  }

  /** On lines: a leading line that carries no data does not change the
      payload found. */
  lemma SkipNonDataLine(first: string, lines: seq<string>)
    requires !IsDataLine(first)
    ensures FirstDataPayload([first] + lines) == FirstDataPayload(lines)
  {
    FirstMatchSkips(first, lines, IsDataLine);
    match FirstMatch(lines, IsDataLine)
    case None =>
    case Some(k) => assert ([first] + lines)[k + 1] == lines[k];
  }

  /** An element that does not match shifts the first match by one. */
  lemma FirstMatchSkips<T>(x: T, xs: seq<T>, p: T -> bool)
    requires !p(x)
    ensures FirstMatch([x] + xs, p) == match FirstMatch(xs, p) case None => None case Some(k) => Some(k + 1)
  {
    assert ([x] + xs)[1..] == xs;
  }

  /** A single-event stream: an `event:` line naming the event and a `data: `
      line carrying the payload, terminated by a blank line. */
  function Frame(event: string, payload: string): string {
    EventPrefix + " " + event + "\n" + DataPrefix + payload + "\n\n"
  }

  /** A framed stream is recognised as one by its `event:` prefix. */
  lemma FrameStartsWithEvent(event: string, payload: string)
    ensures HasPrefix(Frame(event, payload), EventPrefix)
  {
    var rest := " " + event + "\n" + DataPrefix + payload + "\n\n";
    assert Frame(event, payload) == EventPrefix + rest;
    TrimPrefixOfConcat(EventPrefix, rest);
  }

  /** The `event:` line of a frame never carries data. */
  lemma EventLineIsNotData(event: string)
    ensures !IsDataLine(EventPrefix + " " + event)
  {
    var first := EventPrefix + " " + event;
    assert first[0] == 'e';
    TrimSpaceKeepsFirst(first);
  }

  /** Framing a one-line payload that does not end in white space and
      parsing it back gives the payload. */
  lemma FrameRoundTrip(event: string, payload: string)
    requires '\n' !in event && '\n' !in payload
    requires payload != [] && !IsSpace(payload[|payload| - 1])
    ensures HasPrefix(Frame(event, payload), EventPrefix)
    ensures ParseSSEResponse(Frame(event, payload)) == Ok(payload)
  {
    FrameStartsWithEvent(event, payload);
    FrameSkipsEventLine(event, payload);
    DataLineThenBlankLine(payload);
  }

  /** The `event:` line of a frame is skipped. */
  lemma FrameSkipsEventLine(event: string, payload: string)
    requires '\n' !in event
    ensures ParseSSEResponse(Frame(event, payload)) == ParseSSEResponse(DataPrefix + payload + "\n" + "\n")
  {
    var first := EventPrefix + " " + event;
    var rest := DataPrefix + payload + "\n" + "\n";
    assert Frame(event, payload) == first + "\n" + rest;
    EventLineIsNotData(event);
    NonDataLineSkipped(first, rest);
  }

  /** A data line followed by the blank line ending the event yields its payload. */
  lemma DataLineThenBlankLine(payload: string)
    requires '\n' !in payload
    requires payload != [] && !IsSpace(payload[|payload| - 1])
    ensures ParseSSEResponse(DataPrefix + payload + "\n" + "\n") == Ok(payload)
  {
    var second := DataPrefix + payload;
    DataLinePayload(DataPrefix, payload);
    FirstLineDataWins(second, "\n");
  }

  /** A line made of the data prefix and a payload that ends in a non-space
      character is a data line carrying that payload. */
  lemma DataLinePayload(prefix: string, payload: string)
    requires prefix == DataPrefix
    requires payload != [] && !IsSpace(payload[|payload| - 1])
    ensures IsDataLine(prefix + payload)
    ensures Payload(prefix + payload) == payload
  {
    var line := prefix + payload;
    assert line[0] == 'd' && line[|line| - 1] == payload[|payload| - 1];
    TrimSpaceKeepsTrimmed(line);
    TrimPrefixOfConcat(prefix, payload);
  }

  /** A body of one line parses exactly as that line decides. */
  lemma SingleLine(line: string)
    requires '\n' !in line
    ensures ParseSSEResponse(line) == if IsDataLine(line) then Ok(Payload(line)) else Err(NoDataField)
  {
    SplitWithoutSeparator(line, '\n');
  }

  /** `data:` directly followed by anything but a space is not a data line. */
  lemma MissingSpaceIsNotData(rest: string)
    requires rest == [] || rest[0] != ' '
    ensures !IsDataLine("data:" + rest)
  {
    var line := "data:" + rest;
    assert line[0] == 'd';
    assert TrimLeftSpace(line) == line;
    var t := TrimSpace(line);
    assert t == line[..|t|];
    if |t| >= |DataPrefix| {
      assert t[5] == line[5];
      assert DataPrefix[5] == ' ';
    }
  }

  /** An event whose data line lacks the space after `data:` is a framing
      error, as in `event: message` followed by `data:{}`. */
  lemma MissingSpaceRejected(event: string, rest: string)
    requires '\n' !in event && '\n' !in rest
    requires rest == [] || rest[0] != ' '
    ensures ParseSSEResponse(EventPrefix + " " + event + "\n" + ("data:" + rest)).Err?
  {
    EventLineIsNotData(event);
    NonDataLineSkipped(EventPrefix + " " + event, "data:" + rest);
    MissingSpaceIsNotData(rest);
    SingleLine("data:" + rest);
  }

  /** The data prefix on its own is trimmed to `data:` and so carries no data. */
  lemma DataPrefixAloneIsNotData(line: string)
    requires line == DataPrefix
    ensures !IsDataLine(line)
  {
    assert line[|line| - 1] == ' ';
    TrimSpaceDropsTrailingSpace(line);
  }

  /** A data line with nothing after `data: ` is trimmed to `data:` and so
      is a framing error too. */
  lemma EmptyDataRejected(event: string)
    requires '\n' !in event
    ensures ParseSSEResponse(EventPrefix + " " + event + "\n" + DataPrefix).Err?
  {
    EventLineIsNotData(event);
    NonDataLineSkipped(EventPrefix + " " + event, DataPrefix);
    DataPrefixAloneIsNotData(DataPrefix);
    SingleLine(DataPrefix);
  }
}
