/** The gateway's side of the stream: regrouping upstream lines into events, and reading their data back. */
module SseServer {
  import opened SseDecoder
  import opened Whitespace

  // ---------- str.splitlines ----------

  predicate IsBoundary(c: char) {
    c in {'\n', '\r', '\U{0B}', '\U{0C}', '\U{1C}', '\U{1D}', '\U{1E}', '\U{85}', '\U{2028}', '\U{2029}'}
  }

  predicate IsTextLine(s: string) {
    forall k :: 0 <= k < |s| ==> !IsBoundary(s[k])
  }

  function Boundary(s: string): (i: nat)
    ensures i <= |s|
    ensures forall k :: 0 <= k < i ==> !IsBoundary(s[k])
    ensures i < |s| ==> IsBoundary(s[i])
  {
    if s == "" || IsBoundary(s[0]) then 0 else 1 + Boundary(s[1..])
  }

  function TextLines(s: string): seq<string>
    decreases |s|
  {
    if s == "" then []
    else
      var i := Boundary(s);
      if i == |s| then [s]
      else if s[i] == '\r' && i + 1 < |s| && s[i + 1] == '\n' then [s[..i]] + TextLines(s[i + 2..])
      else [s[..i]] + TextLines(s[i + 1..])
  }

  lemma {:induction false} BoundaryUnique(s: string, i: nat)
    requires i < |s| && IsBoundary(s[i]) && (forall k :: 0 <= k < i ==> !IsBoundary(s[k]))
    ensures Boundary(s) == i
  {
  }

  /** Every boundary ends one line; CR LF is one boundary. */
  lemma {:induction false} EndedTextLine(line: string, boundary: string, rest: string)
    requires IsTextLine(line)
    requires boundary == "\r\n" || (|boundary| == 1 && IsBoundary(boundary[0]))
    requires boundary == "\r" ==> rest == "" || rest[0] != '\n'
    ensures TextLines(line + boundary + rest) == [line] + TextLines(rest)
  {
    var s, n := line + boundary + rest, |line| + |boundary|;
    assert s == line + (boundary + rest) && s[..|line|] == line && s[|line|] == boundary[0];
    assert s[n..] == rest && (n < |s| ==> s[n] == rest[0]) && (|boundary| == 2 ==> s[|line| + 1] == boundary[1]);
    BoundaryUnique(s, |line|);
  }

  lemma {:induction false} FirstTextLine(line: string, rest: string)
    requires IsTextLine(line)
    ensures TextLines(line + "\n" + rest) == [line] + TextLines(rest)
  {
    EndedTextLine(line, "\n", rest);
  }

  // ---------- adapters.py: _iter_sse_events ----------

  /** Upstream lines up to each blank one; a group that ends with the stream is kept. */
  function Groups(lines: seq<string>, current: seq<string>): seq<seq<string>>
    decreases |lines|
  {
    if lines == [] then (if current != [] then [current] else [])
    else if lines[0] == "" then (if current != [] then [current] else []) + Groups(lines[1..], [])
    else Groups(lines[1..], current + [lines[0]])
  }

  function FrameEach(groups: seq<seq<string>>): seq<string> {
    if groups == [] then [] else [Frame(groups[0])] + FrameEach(groups[1..])
  }

  lemma {:induction false} FrameEachAppend(groups: seq<seq<string>>, g: seq<string>)
    ensures FrameEach(groups + [g]) == FrameEach(groups) + [Frame(g)]
  {
    if groups == [] {
      assert groups + [g] == [g];
    } else {
      assert (groups + [g])[1..] == groups[1..] + [g];
      FrameEachAppend(groups[1..], g);
    }
  }

  lemma {:induction false} JoinedIsFrame(lines: seq<string>)
    requires lines != []
    ensures JoinLines(lines) + "\n\n" == Frame(lines)
  {
    if |lines| == 1 {
      assert Frame(lines) == lines[0] + "\n" + "\n";
    } else {
      JoinedIsFrame(lines[1..]);
      assert JoinLines(lines) + "\n\n" == lines[0] + "\n" + (JoinLines(lines[1..]) + "\n\n");
    }
  }

  method IterSseEvents(upstream: seq<string>) returns (events: seq<string>)
    ensures events == FrameEach(Groups(upstream, []))
  {
    events := [];
    var lines: seq<string> := [];
    ghost var done: seq<seq<string>> := [];
    for i := 0 to |upstream|
      invariant events == FrameEach(done)
      invariant Groups(upstream, []) == done + Groups(upstream[i..], lines)
    {
      assert upstream[i..][1..] == upstream[i + 1..];
      if upstream[i] == "" {
        if lines != [] {
          JoinedIsFrame(lines);
          FrameEachAppend(done, lines);
          assert done + ([lines] + Groups(upstream[i + 1..], [])) == (done + [lines]) + Groups(upstream[i + 1..], []);
          events := events + [JoinLines(lines) + "\n\n"];
          done := done + [lines];
          lines := [];
        }
      } else {
        lines := lines + [upstream[i]];
      }
    }
    assert upstream[|upstream|..] == [] && done + [] == done;
    if lines != [] {
      JoinedIsFrame(lines);
      FrameEachAppend(done, lines);
      events := events + [JoinLines(lines) + "\n\n"];
    }
  }

  // ---------- main.py: _sse_data_values ----------

  /** Unlike the browser, the server does not read a bare `data` line. */
  function ServerDataValue(line: string): seq<string> {
    if StartsWith(line, "data:") then
      var value := line[5..];
      [if StartsWith(value, " ") then value[1..] else value]
    else []
  }

  function Value(dataLines: seq<string>, strip: Strip): seq<string> {
    if dataLines != [] then [strip(JoinLines(dataLines))] else []
  }

  function Scan(lines: seq<string>, dataLines: seq<string>, strip: Strip): seq<string>
    decreases |lines|
  {
    if lines == [] then Value(dataLines, strip)
    else if lines[0] == "" then Value(dataLines, strip) + Scan(lines[1..], [], strip)
    else Scan(lines[1..], dataLines + ServerDataValue(lines[0]), strip)
  }

  function DataOf(event: string, strip: Strip): seq<string> {
    Scan(TextLines(event), [], strip)
  }

  method SseDataValues(event: string, strip: Strip) returns (values: seq<string>)
    ensures values == DataOf(event, strip)
  {
    values := [];
    var dataLines: seq<string> := [];
    var lines := TextLines(event);
    for i := 0 to |lines|
      invariant DataOf(event, strip) == values + Scan(lines[i..], dataLines, strip)
    {
      var line := lines[i];
      ghost var later := lines[i + 1..];
      assert lines[i..][1..] == later;
      if line == "" {
        AppendAssociates(values, Value(dataLines, strip), Scan(later, [], strip));
        if dataLines != [] {
          values := values + [strip(JoinLines(dataLines))];
          dataLines := [];
        } else {
          AppendToEmpty(Scan(later, [], strip));
          AppendToEmpty(values);
        }
      } else if StartsWith(line, "data:") {
        var value := line[5..];
        if StartsWith(value, " ") {
          value := value[1..];
        }
        dataLines := dataLines + [value];
      } else {
        assert dataLines + [] == dataLines;
      }
    }
    if dataLines != [] {
      values := values + [strip(JoinLines(dataLines))];
    }
  }

  // ---------- the server reads whole events ----------

  function ServerCollect(lines: seq<string>): seq<string> {
    if lines == [] then [] else ServerDataValue(lines[0]) + ServerCollect(lines[1..])
  }

  function ServerEvents(groups: seq<seq<string>>, strip: Strip): seq<string> {
    if groups == [] then [] else Value(ServerCollect(groups[0]), strip) + ServerEvents(groups[1..], strip)
  }

  /** Upstream lines carry no line boundary, and groups have no blank line. */
  ghost predicate UpstreamGroups(groups: seq<seq<string>>) {
    forall g, line :: g in groups && line in g ==> IsTextLine(line) && line != ""
  }

  ghost predicate NoBareData(groups: seq<seq<string>>) {
    forall g :: g in groups ==> "data" !in g
  }

  lemma {:induction false} ScanFrame(lines: seq<string>, rest: string, dataLines: seq<string>, strip: Strip)
    requires forall line :: line in lines ==> IsTextLine(line) && line != ""
    ensures Scan(TextLines(Frame(lines) + rest), dataLines, strip)
            == Value(dataLines + ServerCollect(lines), strip) + Scan(TextLines(rest), [], strip)
  {
    if lines == [] {
      assert "" + "\n" + rest == Frame(lines) + rest;
      FirstTextLine("", rest);
      AppendToEmpty(dataLines);
    } else {
      var tail := Frame(lines[1..]) + rest;
      assert Frame(lines) + rest == lines[0] + "\n" + tail;
      FirstTextLine(lines[0], tail);
      AppendAssociates(dataLines, ServerDataValue(lines[0]), ServerCollect(lines[1..]));
      ScanFrame(lines[1..], rest, dataLines + ServerDataValue(lines[0]), strip);
    }
  }

  /** Reading a block of joined events gives the values of the events, one by one. */
  lemma {:induction false} BlockValues(groups: seq<seq<string>>, strip: Strip)
    requires UpstreamGroups(groups)
    ensures DataOf(Frames(groups), strip) == ServerEvents(groups, strip)
  {
    if groups != [] {
      BlockValues(groups[1..], strip);
      ScanFrame(groups[0], Frames(groups[1..]), [], strip);
      AppendToEmpty(ServerCollect(groups[0]));
    }
  }

  lemma {:induction false} GroupsAreUpstream(lines: seq<string>, current: seq<string>)
    requires forall line :: line in lines || line in current ==> IsTextLine(line)
    requires "" !in current
    ensures UpstreamGroups(Groups(lines, current)) && [] !in Groups(lines, current)
    ensures "data" !in lines && "data" !in current ==> NoBareData(Groups(lines, current))
    decreases |lines|
  {
    if lines != [] {
      if lines[0] == "" {
        GroupsAreUpstream(lines[1..], []);
      } else {
        GroupsAreUpstream(lines[1..], current + [lines[0]]);
      }
    }
  }
}
