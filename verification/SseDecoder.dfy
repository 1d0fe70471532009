/** The browser's incremental decoder of an event stream (section 9.2.6 of the HTML Living Standard). */
module SseDecoder {

  // ---------- text ----------

  function Flat(parts: seq<string>): string {
    if parts == [] then "" else parts[0] + Flat(parts[1..])
  }

  /** `lines.join("\n")` */
  function JoinLines(lines: seq<string>): string {
    if lines == [] then ""
    else if |lines| == 1 then lines[0]
    else lines[0] + "\n" + JoinLines(lines[1..])
  }

  lemma {:induction false} AppendAssociates(a: seq<string>, b: seq<string>, c: seq<string>)
    ensures a + (b + c) == (a + b) + c
  {
  }

  lemma {:induction false} AppendToEmpty(a: seq<string>)
    ensures [] + a == a == a + []
  {
  }

  predicate StartsWith(s: string, prefix: string) {
    prefix <= s
  }

  predicate IsLineEnd(c: char) {
    c == '\n' || c == '\r'
  }

  /** The index of the first line terminator, or the length of the text. */
  function LineEnd(s: string): (i: nat)
    ensures i <= |s|
    ensures forall k :: 0 <= k < i ==> !IsLineEnd(s[k])
    ensures i < |s| ==> IsLineEnd(s[i])
  {
    if s == "" || IsLineEnd(s[0]) then 0 else 1 + LineEnd(s[1..])
  }

  // ---------- the decoder, as functions ----------

  datatype Decoder = Decoder(buffer: string, dataLines: seq<string>)

  const START := Decoder("", [])

  /** The value of a `data` line, if it is one. */
  function DataValues(line: string): seq<string> {
    if line == "data" then [""]
    else if StartsWith(line, "data:") then
      var value := line[5..];
      [if StartsWith(value, " ") then value[1..] else value]
    else []
  }

  /** A blank line dispatches what has been collected. */
  function Consume(line: string, dataLines: seq<string>): (seq<string>, seq<string>) {
    if line == "" then ([], if dataLines != [] then [JoinLines(dataLines)] else [])
    else (dataLines + DataValues(line), [])
  }

  /** Can the first line be taken off the buffer? Not while its CR may be half of a CR LF. */
  predicate HasLine(buffer: string) {
    var end := LineEnd(buffer);
    end < |buffer| && !(buffer[end] == '\r' && end == |buffer| - 1)
  }

  function TerminatorLength(buffer: string): (n: nat)
    requires HasLine(buffer)
    ensures 1 <= n <= |buffer| - LineEnd(buffer)
  {
    var end := LineEnd(buffer);
    if buffer[end] == '\r' && buffer[end + 1] == '\n' then 2 else 1
  }

  /** The first line taken, and what it dispatches. */
  function TakeLine(d: Decoder): (r: (Decoder, seq<string>))
    requires HasLine(d.buffer)
    ensures |r.0.buffer| < |d.buffer|
  {
    var end := LineEnd(d.buffer);
    var (dataLines, events) := Consume(d.buffer[..end], d.dataLines);
    (Decoder(d.buffer[end + TerminatorLength(d.buffer)..], dataLines), events)
  }

  function Drain(d: Decoder): (Decoder, seq<string>)
    decreases |d.buffer|
  {
    if !HasLine(d.buffer) then (d, [])
    else
      var (next, events) := TakeLine(d);
      var (rest, more) := Drain(next);
      (rest, events + more)
  }

  function Feed(d: Decoder, text: string): (Decoder, seq<string>) {
    Drain(d.(buffer := d.buffer + text))
  }

  // ---------- gateway-client.ts: SseEventDecoder ----------

  class SseEventDecoder {
    var buffer: string
    var dataLines: seq<string>

    function View(): Decoder
      reads this
    {
      Decoder(buffer, dataLines)
    }

    constructor ()
      ensures View() == START
    {
      buffer, dataLines := "", [];
    }

    method Push(text: string) returns (events: seq<string>)
      modifies this
      ensures (View(), events) == Feed(old(View()), text)
    {
      buffer := buffer + text;
      events := [];
      ghost var whole := View();
      AppendToEmpty(Drain(whole).1);
      while buffer != ""
        invariant Drain(whole) == (Drain(View()).0, events + Drain(View()).1)
        decreases |buffer|
      {
        ghost var before, soFar := View(), events;
        var found, dispatched := NextLine();
        if !found {
          break;
        }
        events := events + dispatched;
        DrainStep(before);
        AppendAssociates(soFar, dispatched, Drain(View()).1);
      }
      assert !HasLine(buffer);
      AppendToEmpty(events);
    }

    /** The body of the loop: take a line off the buffer, if there is a settled one. */
    method NextLine() returns (found: bool, dispatched: seq<string>)
      modifies this
      ensures found == HasLine(old(buffer))
      ensures (View(), dispatched) == if found then TakeLine(old(View())) else (old(View()), [])
    {
      found, dispatched := false, [];
      var lineEnd := FindLineEnd(buffer);
      if lineEnd == |buffer| {
        return;
      }
      if buffer[lineEnd] == '\r' && lineEnd == |buffer| - 1 {
        return;
      }
      var line := buffer[..lineEnd];
      var terminatorLength := if buffer[lineEnd] == '\r' && buffer[lineEnd + 1] == '\n' then 2 else 1;
      buffer := buffer[lineEnd + terminatorLength..];
      dispatched := ConsumeLine(line);
      found := true;
    }

    method ConsumeLine(line: string) returns (events: seq<string>)
      modifies this`dataLines
      ensures (dataLines, events) == Consume(line, old(dataLines))
    {
      if line == "" {
        events := if |dataLines| > 0 then [JoinLines(dataLines)] else [];
        dataLines := [];
        return;
      }
      events := [];
      assert dataLines + [] == dataLines;
      if StartsWith(line, ":") {
        assert line[0] == ':';
        return;
      }
      if line == "data" {
        dataLines := dataLines + [""];
        return;
      }
      if !StartsWith(line, "data:") {
        return;
      }
      var value := line[5..];
      dataLines := dataLines + [if StartsWith(value, " ") then value[1..] else value];
    }
  }

  method FindLineEnd(s: string) returns (i: nat)
    ensures i == LineEnd(s)
  {
    i := 0;
    while i < |s|
      invariant i <= |s| && forall k :: 0 <= k < i ==> !IsLineEnd(s[k])
    {
      if IsLineEnd(s[i]) {
        break;
      }
      i := i + 1;
    }
    LineEndUnique(s, i);
  }

  lemma {:induction false} LineEndUnique(s: string, i: nat)
    requires i <= |s| && (forall k :: 0 <= k < i ==> !IsLineEnd(s[k])) && (i < |s| ==> IsLineEnd(s[i]))
    ensures LineEnd(s) == i
  {
  }

  // ---------- chunking invariance ----------

  function Followed(d: Decoder, more: string): Decoder {
    d.(buffer := d.buffer + more)
  }

  /** A line that can be taken now is the same line when more text follows. */
  lemma {:induction false} LineIsSettled(d: Decoder, more: string)
    requires HasLine(d.buffer)
    ensures HasLine(d.buffer + more)
    ensures TakeLine(Followed(d, more)) == (Followed(TakeLine(d).0, more), TakeLine(d).1)
  {
    var all, end := d.buffer + more, LineEnd(d.buffer);
    LineEndUnique(all, end);
    var n := end + TerminatorLength(d.buffer);
    assert all[..end] == d.buffer[..end] && all[n..] == d.buffer[n..] + more;
  }

  /** Draining early and going on is draining once at the end. */
  lemma {:induction false} DrainTwice(d: Decoder, more: string)
    ensures
      var (mid, first) := Drain(d);
      Drain(Followed(d, more)) == (Drain(Followed(mid, more)).0, first + Drain(Followed(mid, more)).1)
    decreases |d.buffer|
  {
    var (mid, first) := Drain(d);
    var second := Drain(Followed(mid, more)).1;
    if HasLine(d.buffer) {
      LineIsSettled(d, more);
      var (next, events) := TakeLine(d);
      DrainTwice(next, more);
      DrainStep(d);
      DrainStep(Followed(d, more));
      AppendAssociates(events, Drain(next).1, second);
    } else {
      AppendToEmpty(second);
    }
  }

  lemma {:induction false} DrainStep(d: Decoder)
    requires HasLine(d.buffer)
    ensures Drain(d) == (Drain(TakeLine(d).0).0, TakeLine(d).1 + Drain(TakeLine(d).0).1)
  {
  }

  /** `push(a)` and then `push(b)` is `push(a + b)`, even when a CR LF pair is cut between them. */
  lemma {:induction false} ChunkingInvariance(d: Decoder, a: string, b: string)
    ensures
      var (mid, first) := Feed(d, a);
      var (end, second) := Feed(mid, b);
      Feed(d, a + b) == (end, first + second)
  {
    DrainTwice(Followed(d, a), b);
    assert d.buffer + (a + b) == (d.buffer + a) + b;
  }

  function FeedAll(d: Decoder, chunks: seq<string>): (Decoder, seq<string>)
    decreases |chunks|
  {
    if chunks == [] then Drain(d)
    else
      var (mid, first) := Feed(d, chunks[0]);
      var (end, rest) := FeedAll(mid, chunks[1..]);
      (end, first + rest)
  }

  /** However a text is cut into chunks, the decoder ends in the same state with the same events. */
  lemma {:induction false} AnyChunking(d: Decoder, chunks: seq<string>)
    ensures FeedAll(d, chunks) == Feed(d, Flat(chunks))
    decreases |chunks|
  {
    if chunks == [] {
      assert d.buffer + "" == d.buffer;
    } else {
      AnyChunking(Feed(d, chunks[0]).0, chunks[1..]);
      ChunkingInvariance(d, chunks[0], Flat(chunks[1..]));
    }
  }

  // ---------- framed text ----------

  predicate IsLine(s: string) {
    forall k :: 0 <= k < |s| ==> !IsLineEnd(s[k])
  }

  /** Lines ended by LF, and a blank line that dispatches them. */
  function Frame(lines: seq<string>): string {
    if lines == [] then "\n" else lines[0] + "\n" + Frame(lines[1..])
  }

  function Collect(lines: seq<string>): seq<string> {
    if lines == [] then [] else DataValues(lines[0]) + Collect(lines[1..])
  }

  function Dispatch(dataLines: seq<string>): seq<string> {
    if dataLines != [] then [JoinLines(dataLines)] else []
  }

  lemma {:induction false} DrainLine(line: string, rest: string, dataLines: seq<string>)
    requires IsLine(line)
    ensures
      var (now, events) := Consume(line, dataLines);
      var (end, more) := Drain(Decoder(rest, now));
      Drain(Decoder(line + "\n" + rest, dataLines)) == (end, events + more)
  {
    var buffer := line + "\n" + rest;
    LineEndUnique(buffer, |line|);
    assert buffer[..|line|] == line && buffer[|line| + 1..] == rest;
  }

  lemma {:induction false} DrainFrame(lines: seq<string>, rest: string, dataLines: seq<string>)
    requires forall line :: line in lines ==> IsLine(line) && line != ""
    ensures
      var (end, more) := Drain(Decoder(rest, []));
      Drain(Decoder(Frame(lines) + rest, dataLines)) == (end, Dispatch(dataLines + Collect(lines)) + more)
  {
    if lines == [] {
      assert "" + "\n" + rest == "\n" + rest;
      DrainLine("", rest, dataLines);
      assert dataLines + [] == dataLines;
    } else {
      var tail := Frame(lines[1..]) + rest;
      assert Frame(lines) + rest == lines[0] + "\n" + tail;
      DrainLine(lines[0], tail, dataLines);
      var now := dataLines + DataValues(lines[0]);
      var (end, more) := Drain(Decoder(tail, now));
      AppendToEmpty(more);
      AppendAssociates(dataLines, DataValues(lines[0]), Collect(lines[1..]));
      DrainFrame(lines[1..], rest, now);
    }
  }

  function Frames(groups: seq<seq<string>>): string {
    if groups == [] then "" else Frame(groups[0]) + Frames(groups[1..])
  }

  function EventsOf(groups: seq<seq<string>>): seq<string> {
    if groups == [] then [] else Dispatch(Collect(groups[0])) + EventsOf(groups[1..])
  }

  ghost predicate WellFramed(groups: seq<seq<string>>) {
    forall g, line :: g in groups && line in g ==> IsLine(line) && line != ""
  }

  lemma {:induction false} DecodeFrames(groups: seq<seq<string>>)
    requires WellFramed(groups)
    ensures Feed(START, Frames(groups)) == (START, EventsOf(groups))
  {
    assert "" + Frames(groups) == Frames(groups);
    if groups != [] {
      DecodeFrames(groups[1..]);
      assert "" + Frames(groups[1..]) == Frames(groups[1..]);
      DrainFrame(groups[0], Frames(groups[1..]), []);
      assert [] + Collect(groups[0]) == Collect(groups[0]);
    }
  }

  // ---------- other line endings ----------

  /** A line and what ends it: LF, CR LF, or CR. */
  datatype Ending = Lf | CrLf | Cr
  datatype EndedLine = EndedLine(line: string, ending: Ending)

  function Terminator(ending: Ending): string {
    match ending case Lf => "\n" case CrLf => "\r\n" case Cr => "\r"
  }

  function Text(ended: seq<EndedLine>): string {
    if ended == [] then "" else ended[0].line + Terminator(ended[0].ending) + Text(ended[1..])
  }

  /** Only another character that is no LF settles a line ended by CR. */
  ghost predicate Settled(ended: seq<EndedLine>) {
    ended == [] ||
    (&& IsLine(ended[0].line)
     && (ended[0].ending.Cr? ==> |ended| > 1 && ended[1] != EndedLine("", Lf))
     && Settled(ended[1..]))
  }

  /** The same lines, each ended by LF. */
  function WithLf(ended: seq<EndedLine>): seq<EndedLine> {
    if ended == [] then [] else [EndedLine(ended[0].line, Lf)] + WithLf(ended[1..])
  }

  lemma {:induction false} TakesEnded(line: string, ending: Ending, rest: string)
    requires IsLine(line) && (ending.Cr? ==> rest != "" && rest[0] != '\n')
    ensures
      var buffer := line + Terminator(ending) + rest;
      && LineEnd(buffer) == |line| && HasLine(buffer) && buffer[..|line|] == line
      && buffer[|line| + TerminatorLength(buffer)..] == rest
  {
    var ends := Terminator(ending) + rest;
    var buffer := line + Terminator(ending) + rest;
    assert buffer == line + ends && buffer[|line|] == ends[0] && buffer[..|line|] == line;
    LineEndUnique(buffer, |line|);
    assert |ends| > 1 ==> buffer[|line| + 1] == ends[1];
  }

  lemma {:induction false} DrainEndedLine(line: string, ending: Ending, rest: string, dataLines: seq<string>)
    requires IsLine(line) && (ending.Cr? ==> rest != "" && rest[0] != '\n')
    ensures
      var (now, events) := Consume(line, dataLines);
      var (end, more) := Drain(Decoder(rest, now));
      Drain(Decoder(line + Terminator(ending) + rest, dataLines)) == (end, events + more)
  {
    TakesEnded(line, ending, rest);
  }

  lemma {:induction false} TextStart(ended: seq<EndedLine>)
    requires Settled(ended) && ended != [] && ended[0] != EndedLine("", Lf)
    ensures Text(ended) != "" && Text(ended)[0] != '\n'
  {
    var line, ends := ended[0].line, Terminator(ended[0].ending) + Text(ended[1..]);
    assert Text(ended) == line + ends && (line != "" ==> !IsLineEnd(line[0]));
  }

  lemma {:induction false} DrainsAsLf(ended: seq<EndedLine>, dataLines: seq<string>)
    requires Settled(ended)
    ensures Drain(Decoder(Text(ended), dataLines)) == Drain(Decoder(Text(WithLf(ended)), dataLines))
    decreases |ended|
  {
    if ended != [] {
      var line, rest := ended[0].line, ended[1..];
      if ended[0].ending.Cr? {
        TextStart(rest);
      }
      DrainsAsLf(rest, Consume(line, dataLines).0);
      DrainEndedLine(line, ended[0].ending, Text(rest), dataLines);
      DrainEndedLine(line, Lf, Text(WithLf(rest)), dataLines);
      assert WithLf(ended)[0] == EndedLine(line, Lf) && WithLf(ended)[1..] == WithLf(rest);
    }
  }

  /** Lines ended by CR LF, or by CR before another character, decode as the same lines ended by LF, in any chunks. */
  lemma {:induction false} LineEndingsAreAlike(ended: seq<EndedLine>, chunks: seq<string>, withLf: seq<string>)
    requires Settled(ended) && Flat(chunks) == Text(ended) && Flat(withLf) == Text(WithLf(ended))
    ensures FeedAll(START, chunks) == FeedAll(START, withLf)
  {
    AnyChunking(START, chunks);
    AnyChunking(START, withLf);
    DrainsAsLf(ended, []);
    assert "" + Text(ended) == Text(ended) && "" + Text(WithLf(ended)) == Text(WithLf(ended));
  }

  /** A line is data if it is a bare `data`, or `data:` and one optional space come before the value. */
  lemma {:induction false} DataLineExactly(line: string, v: string)
    ensures DataValues(line) == [v] <==>
            line == "data: " + v || (line == "data:" + v && !StartsWith(v, " ")) || (line == "data" && v == "")
    ensures DataValues(line) == [] <==> line != "data" && !StartsWith(line, "data:")
  {
    if StartsWith(line, "data:") {
      assert line == "data:" + line[5..];
      if StartsWith(line[5..], " ") {
        assert line == "data: " + line[5..][1..];
      }
    }
    if line == "data: " + v {
      assert line[5..] == " " + v && line[5..][1..] == v;
    } else if line == "data:" + v {
      assert line[5..] == v;
    }
  }

  // ---------- round trip ----------

  /** The lines of a payload: it is cut at each LF. */
  function SplitLines(payload: string): (lines: seq<string>)
    ensures lines != []
  {
    var end := LineEnd(payload);
    if end == |payload| then [payload] else [payload[..end]] + SplitLines(payload[end + 1..])
  }

  function Prefixed(lines: seq<string>): seq<string> {
    if lines == [] then [] else ["data: " + lines[0]] + Prefixed(lines[1..])
  }

  /** An event carrying the payload, as a server writes it. */
  function EncodeEvent(payload: string): seq<string> {
    Prefixed(SplitLines(payload))
  }

  function EncodeAll(payloads: seq<string>): seq<seq<string>> {
    if payloads == [] then [] else [EncodeEvent(payloads[0])] + EncodeAll(payloads[1..])
  }

  lemma {:induction false} SplitThenJoin(payload: string)
    requires '\r' !in payload
    ensures JoinLines(SplitLines(payload)) == payload
    ensures forall line :: line in SplitLines(payload) ==> IsLine(line)
  {
    var end := LineEnd(payload);
    if end < |payload| {
      assert payload[end] in payload;
      SplitThenJoin(payload[end + 1..]);
      assert payload == payload[..end] + "\n" + payload[end + 1..];
    }
  }

  lemma {:induction false} CollectPrefixed(lines: seq<string>)
    requires forall line :: line in lines ==> IsLine(line)
    ensures Collect(Prefixed(lines)) == lines
    ensures forall line :: line in Prefixed(lines) ==> IsLine(line) && line != ""
  {
    if lines != [] {
      var line := "data: " + lines[0];
      assert lines[0] in lines;
      assert line[5..] == " " + lines[0] && line[5..][1..] == lines[0];
      assert DataValues(line) == [lines[0]];
      CollectPrefixed(lines[1..]);
      assert [lines[0]] + lines[1..] == lines;
    }
  }

  lemma {:induction false} EncodedEvents(payloads: seq<string>)
    requires forall p :: p in payloads ==> '\r' !in p
    ensures WellFramed(EncodeAll(payloads)) && EventsOf(EncodeAll(payloads)) == payloads
  {
    if payloads != [] {
      SplitThenJoin(payloads[0]);
      CollectPrefixed(SplitLines(payloads[0]));
      EncodedEvents(payloads[1..]);
    }
  }

  /** Any payloads without CR, framed and cut into any chunks, come back exactly, and nothing is left over. */
  lemma {:induction false} RoundTrip(payloads: seq<string>, chunks: seq<string>)
    requires forall p :: p in payloads ==> '\r' !in p
    requires Flat(chunks) == Frames(EncodeAll(payloads))
    ensures FeedAll(START, chunks) == (START, payloads)
  {
    AnyChunking(START, chunks);
    EncodedEvents(payloads);
    DecodeFrames(EncodeAll(payloads));
  }
}
