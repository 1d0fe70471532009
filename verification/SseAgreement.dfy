/** Server and browser over one stream: what is forwarded, what is decoded, and the answer it adds up to. */
module SseAgreement {
  import opened SseDecoder
  import opened SseServer
  import opened StreamChunks
  import opened Whitespace

  // ---------- what the gateway forwards ----------

  predicate IsUsageOnly(event: string, parse: Parser) {
    var values := DataOf(event, PyStrip);
    values != [] && forall v :: v in values ==> IsUsage(v, parse)
  }

  /** The observer reads a block before it is forwarded; if it raises, the stream ends there. */
  predicate IsAccepted(event: string, parse: Parser) {
    forall v :: v in DataOf(event, PyStrip) ==> Observes(v, parse)
  }

  type Block = seq<seq<string>>

  /** The events of an opened stream: the prefetched ones joined into one block, then one by one. */
  function Blocks(groups: seq<seq<string>>, prefetched: nat): seq<Block>
    requires prefetched <= |groups|
  {
    [groups[..prefetched]] + Singles(groups[prefetched..])
  }

  function Singles(groups: seq<seq<string>>): seq<Block> {
    if groups == [] then [] else [[groups[0]]] + Singles(groups[1..])
  }

  /** Unless the client asked for usage, blocks that carry only usage are withheld. */
  function Forwarded(blocks: seq<Block>, includeUsage: bool, parse: Parser): seq<Block> {
    if blocks == [] || !IsAccepted(Frames(blocks[0]), parse) then []
    else
      (if includeUsage || !IsUsageOnly(Frames(blocks[0]), parse) then [blocks[0]] else [])
      + Forwarded(blocks[1..], includeUsage, parse)
  }

  function Wire(blocks: seq<Block>): string {
    if blocks == [] then "" else Frames(blocks[0]) + Wire(blocks[1..])
  }

  /** The values the gateway's own observer reads, block by block. */
  function Observed(blocks: seq<Block>): seq<string> {
    if blocks == [] then [] else DataOf(Frames(blocks[0]), PyStrip) + Observed(blocks[1..])
  }

  function Stripped(values: seq<string>, strip: Strip): seq<string> {
    if values == [] then [] else [strip(values[0])] + Stripped(values[1..], strip)
  }

  // ---------- what reaches the browser's decoder ----------

  const MARK := "\U{FEFF}"

  /** `TextDecoder` drops one byte order mark at the start of a stream. */
  function TextDecoded(text: string): string {
    if StartsWith(text, MARK) then text[1..] else text
  }

  /** No line begins with a byte order mark. */
  ghost predicate Unmarked(groups: seq<seq<string>>) {
    forall g, line :: g in groups && line in g ==> !StartsWith(line, MARK)
  }

  lemma {:induction false} UnmarkedIsKept(groups: seq<seq<string>>)
    requires Unmarked(groups)
    ensures TextDecoded(Frames(groups)) == Frames(groups)
  {
    if groups != [] {
      assert groups[0] in groups;
      if groups[0] == [] {
        assert Frames(groups)[0] == '\n';
      } else {
        var line := groups[0][0];
        assert line in groups[0];
        assert Frames(groups) == line + ("\n" + Frame(groups[0][1..]) + Frames(groups[1..]));
        assert Frames(groups)[0] == if line == "" then '\n' else line[0];
      }
    }
  }

  // ---------- both sides read the same values ----------

  ghost predicate Readable(blocks: seq<Block>) {
    forall b :: b in blocks ==> UpstreamGroups(b) && NoBareData(b)
  }

  function Ungroup(blocks: seq<Block>): seq<seq<string>> {
    if blocks == [] then [] else blocks[0] + Ungroup(blocks[1..])
  }

  lemma {:induction false} FramesConcat(a: seq<seq<string>>, b: seq<seq<string>>)
    ensures Frames(a + b) == Frames(a) + Frames(b)
    ensures EventsOf(a + b) == EventsOf(a) + EventsOf(b)
  {
    if a == [] {
      assert a + b == b;
      AppendToEmpty(EventsOf(b));
    } else {
      assert (a + b)[1..] == a[1..] + b;
      FramesConcat(a[1..], b);
      AppendAssociates(Dispatch(Collect(a[0])), EventsOf(a[1..]), EventsOf(b));
      assert Frame(a[0]) + (Frames(a[1..]) + Frames(b)) == (Frame(a[0]) + Frames(a[1..])) + Frames(b);
    }
  }

  lemma {:induction false} WireIsFrames(blocks: seq<Block>)
    ensures Wire(blocks) == Frames(Ungroup(blocks))
  {
    if blocks != [] {
      WireIsFrames(blocks[1..]);
      FramesConcat(blocks[0], Ungroup(blocks[1..]));
    }
  }

  lemma {:induction false} StrippedConcat(a: seq<string>, b: seq<string>, strip: Strip)
    ensures Stripped(a + b, strip) == Stripped(a, strip) + Stripped(b, strip)
  {
    if a == [] {
      AppendToEmpty(b);
      AppendToEmpty(Stripped(b, strip));
    } else {
      assert (a + b)[1..] == a[1..] + b;
      StrippedConcat(a[1..], b, strip);
      AppendAssociates([strip(a[0])], Stripped(a[1..], strip), Stripped(b, strip));
    }
  }

  lemma {:induction false} SameDataLines(lines: seq<string>)
    requires "data" !in lines
    ensures Collect(lines) == ServerCollect(lines)
  {
    if lines != [] {
      SameDataLines(lines[1..]);
    }
  }

  lemma {:induction false} SameEvents(groups: seq<seq<string>>, strip: Strip)
    requires NoBareData(groups)
    ensures Stripped(EventsOf(groups), strip) == ServerEvents(groups, strip)
  {
    if groups != [] {
      SameDataLines(groups[0]);
      SameEvents(groups[1..], strip);
      StrippedConcat(Dispatch(Collect(groups[0])), EventsOf(groups[1..]), strip);
      var dataLines := Collect(groups[0]);
      if dataLines != [] {
        assert Stripped([JoinLines(dataLines)], strip) == [strip(JoinLines(dataLines))];
      }
    }
  }

  lemma {:induction false} SameBlocks(blocks: seq<Block>)
    requires Readable(blocks)
    ensures WellFramed(Ungroup(blocks))
    ensures Stripped(EventsOf(Ungroup(blocks)), PyStrip) == Observed(blocks)
  {
    if blocks != [] {
      var first, rest := blocks[0], Ungroup(blocks[1..]);
      SameBlocks(blocks[1..]);
      BlockValues(first, PyStrip);
      SameEvents(first, PyStrip);
      FramesConcat(first, rest);
      StrippedConcat(EventsOf(first), EventsOf(rest), PyStrip);
      assert first in blocks;
      assert forall g, line :: g in first && line in g ==> IsTextLine(line) && line != "";
    }
  }

  lemma {:induction false} ForwardedAreBlocks(blocks: seq<Block>, includeUsage: bool, parse: Parser)
    ensures forall b :: b in Forwarded(blocks, includeUsage, parse) ==> b in blocks
  {
    if blocks != [] {
      ForwardedAreBlocks(blocks[1..], includeUsage, parse);
    }
  }

  lemma {:induction false} UngroupIsUnmarked(blocks: seq<Block>)
    requires forall b :: b in blocks ==> Unmarked(b)
    ensures Unmarked(Ungroup(blocks))
  {
    if blocks != [] {
      assert blocks[0] in blocks;
      UngroupIsUnmarked(blocks[1..]);
    }
  }

  lemma {:induction false} GroupsAreUnmarked(lines: seq<string>, current: seq<string>)
    requires forall line :: line in lines || line in current ==> !StartsWith(line, MARK)
    ensures Unmarked(Groups(lines, current))
    decreases |lines|
  {
    if lines != [] {
      GroupsAreUnmarked(lines[1..], if lines[0] == "" then [] else current + [lines[0]]);
    }
  }

  lemma {:induction false} BlocksAreReadable(upstream: seq<string>, prefetched: nat)
    requires prefetched <= |Groups(upstream, [])|
    requires forall line :: line in upstream ==> IsTextLine(line) && line != "data" && !StartsWith(line, MARK)
    ensures Readable(Blocks(Groups(upstream, []), prefetched))
    ensures forall b :: b in Blocks(Groups(upstream, []), prefetched) ==> Unmarked(b)
  {
    var groups := Groups(upstream, []);
    GroupsAreUpstream(upstream, []);
    SinglesAreGroups(groups[prefetched..]);
    GroupsAreUnmarked(upstream, []);
    forall b | b in Blocks(groups, prefetched) ensures UpstreamGroups(b) && NoBareData(b) && Unmarked(b) {
      assert forall g :: g in b ==> g in groups;
    }
  }

  lemma {:induction false} SinglesAreGroups(groups: seq<seq<string>>)
    ensures forall b, g :: b in Singles(groups) && g in b ==> g in groups
  {
    if groups != [] {
      SinglesAreGroups(groups[1..]);
    }
  }

  /**
   * For any upstream lines, any prefetch, and any chunking on the way: the browser decodes, up to surrounding white
   * space, exactly the values the gateway observed in the blocks it forwarded, and is left with nothing half read.
   */
  lemma {:induction false} BrowserSeesWhatTheGatewaySaw(upstream: seq<string>, prefetched: nat, includeUsage: bool,
                                                        parse: Parser, chunks: seq<string>)
    requires prefetched <= |Groups(upstream, [])|
    requires forall line :: line in upstream ==> IsTextLine(line) && line != "data" && !StartsWith(line, MARK)
    requires Flat(chunks) == TextDecoded(Wire(Forwarded(Blocks(Groups(upstream, []), prefetched), includeUsage, parse)))
    ensures
      var (end, events) := FeedAll(START, chunks);
      && end == START
      && Stripped(events, PyStrip) == Observed(Forwarded(Blocks(Groups(upstream, []), prefetched), includeUsage, parse))
  {
    var blocks := Blocks(Groups(upstream, []), prefetched);
    var sent := Forwarded(blocks, includeUsage, parse);
    BlocksAreReadable(upstream, prefetched);
    ForwardedAreBlocks(blocks, includeUsage, parse);
    AnyChunking(START, chunks);
    WireIsFrames(sent);
    SameBlocks(sent);
    UngroupIsUnmarked(sent);
    UnmarkedIsKept(Ungroup(sent));
    DecodeFrames(Ungroup(sent));
  }

  // ---------- bare data lines ----------

  /** The gateway's values before it strips them. */
  function Unstripped(): Strip { (s: string) => s }

  lemma {:induction false} ServerCollectsLess(lines: seq<string>)
    ensures |ServerCollect(lines)| <= |Collect(lines)|
    ensures |ServerCollect(lines)| == |Collect(lines)| <==> "data" !in lines
  {
    if lines != [] {
      ServerCollectsLess(lines[1..]);
    }
  }

  /** Lines can be told from their join by counting: there is one line break fewer. */
  function CountBreaks(s: string): nat {
    if s == "" then 0 else (if s[0] == '\n' then 1 else 0) + CountBreaks(s[1..])
  }

  lemma {:induction false} BreaksConcat(a: string, b: string)
    ensures CountBreaks(a + b) == CountBreaks(a) + CountBreaks(b)
  {
    if a == "" {
      assert a + b == b;
    } else {
      assert (a + b)[1..] == a[1..] + b;
      BreaksConcat(a[1..], b);
    }
  }

  lemma {:induction false} NoBreaks(line: string)
    requires '\n' !in line
    ensures CountBreaks(line) == 0
  {
    if line != "" {
      NoBreaks(line[1..]);
    }
  }

  lemma {:induction false} JoinedBreaks(lines: seq<string>)
    requires lines != [] && forall line :: line in lines ==> '\n' !in line
    ensures CountBreaks(JoinLines(lines)) == |lines| - 1
  {
    NoBreaks(lines[0]);
    if |lines| > 1 {
      JoinedBreaks(lines[1..]);
      BreaksConcat(lines[0] + "\n", JoinLines(lines[1..]));
      BreaksConcat(lines[0], "\n");
    }
  }

  lemma {:induction false} CollectedLines(lines: seq<string>)
    requires forall line :: line in lines ==> '\n' !in line
    ensures forall v :: v in Collect(lines) || v in ServerCollect(lines) ==> '\n' !in v
  {
    if lines != [] {
      CollectedLines(lines[1..]);
      OneLineCollected(lines[0]);
    }
  }

  lemma {:induction false} OneLineCollected(line: string)
    requires '\n' !in line
    ensures forall v :: v in DataValues(line) || v in ServerDataValue(line) ==> '\n' !in v
  {
    if StartsWith(line, "data:") {
      assert forall c :: c in line[5..] ==> c in line;
      assert forall c :: |line| > 5 && c in line[5..][1..] ==> c in line[5..];
    }
  }

  /** One event: the browser dispatches what the gateway reads exactly if no line of it is a bare `data`. */
  lemma {:induction false} OneEventAgreesExactly(lines: seq<string>)
    requires forall line :: line in lines ==> '\n' !in line
    ensures |Value(ServerCollect(lines), Unstripped())| <= |Dispatch(Collect(lines))|
    ensures Dispatch(Collect(lines)) == Value(ServerCollect(lines), Unstripped()) <==> "data" !in lines
  {
    ServerCollectsLess(lines);
    CollectedLines(lines);
    if "data" !in lines {
      SameDataLines(lines);
    } else if ServerCollect(lines) != [] {
      JoinedBreaks(Collect(lines));
      JoinedBreaks(ServerCollect(lines));
    }
  }

  /** Where neither part is shorter on the left, the whole lists agree exactly if both parts do. */
  lemma {:induction false} HeadsDecide(c: seq<string>, s: seq<string>, cs: seq<string>, ss: seq<string>)
    requires |s| <= |c| && |ss| <= |cs|
    ensures c + cs == s + ss <==> c == s && cs == ss
  {
    if |c| == |s| {
      SplitEqual(c, s, cs, ss);
    } else {
      assert |c + cs| > |s + ss|;
    }
  }

  lemma {:induction false} ServerReadsFewer(groups: seq<seq<string>>)
    requires forall g, line :: g in groups && line in g ==> '\n' !in line
    ensures |ServerEvents(groups, Unstripped())| <= |EventsOf(groups)|
  {
    if groups != [] {
      assert groups[0] in groups;
      OneEventAgreesExactly(groups[0]);
      ServerReadsFewer(groups[1..]);
    }
  }

  /**
   * A whole stream: the browser's events are the gateway's values, before it strips them, exactly if there is no bare
   * `data` line in it. A difference in one event cannot be made up for by another.
   */
  lemma {:induction false} StreamsAgreeExactly(groups: seq<seq<string>>)
    requires forall g, line :: g in groups && line in g ==> '\n' !in line
    ensures EventsOf(groups) == ServerEvents(groups, Unstripped()) <==> NoBareData(groups)
  {
    if groups != [] {
      assert groups[0] in groups;
      var c, s := Dispatch(Collect(groups[0])), Value(ServerCollect(groups[0]), Unstripped());
      var cs, ss := EventsOf(groups[1..]), ServerEvents(groups[1..], Unstripped());
      OneEventAgreesExactly(groups[0]);
      StreamsAgreeExactly(groups[1..]);
      ServerReadsFewer(groups[1..]);
      assert NoBareData(groups) <==> "data" !in groups[0] && NoBareData(groups[1..]);
      HeadsDecide(c, s, cs, ss);
    }
  }

  lemma {:induction false} SplitEqual(a: seq<string>, b: seq<string>, c: seq<string>, d: seq<string>)
    requires |a| == |b|
    ensures a + c == b + d <==> a == b && c == d
  {
    if a + c == b + d {
      assert a == (a + c)[..|a|] && b == (b + d)[..|b|];
      assert c == (a + c)[|a|..] && d == (b + d)[|b|..];
    }
  }

  /** No line is lost in regrouping. */
  lemma {:induction false} GroupsHoldLines(lines: seq<string>, current: seq<string>, line: string)
    requires line != "" && (line in lines || line in current)
    ensures exists g :: g in Groups(lines, current) && line in g
    decreases |lines|
  {
    if lines == [] {
      assert current in Groups(lines, current);
    } else if lines[0] == "" {
      if line in current {
        assert Groups(lines, current)[0] == current;
      } else {
        GroupsHoldLines(lines[1..], [], line);
      }
    } else {
      GroupsHoldLines(lines[1..], current + [lines[0]], line);
    }
  }

  /** A mark before a data line hides it from the gateway alone. */
  predicate MarkHides(line: string) {
    StartsWith(line, MARK) && (line[1..] == "data" || StartsWith(line[1..], "data:"))
  }

  lemma {:induction false} MarkedText(groups: seq<seq<string>>)
    requires groups != [] && groups[0] != [] && StartsWith(groups[0][0], MARK)
    ensures groups[0][0][0] == MARK[0]
    ensures TextDecoded(Frames(groups)) == groups[0][0][1..] + "\n" + (Frame(groups[0][1..]) + Frames(groups[1..]))
  {
    var first, tail := groups[0][0], Frame(groups[0][1..]) + Frames(groups[1..]);
    assert first[0] == first[..1][0];
    assert Frames(groups) == first + ("\n" + tail);
    assert Frames(groups)[..1] == first[..1];
    assert Frames(groups)[1..] == first[1..] + "\n" + tail;
  }

  /** Decoding a first line, blank or not, with the event it begins and what follows. */
  lemma {:induction false} FirstLineDecoded(line: string, lines: seq<string>, rest: seq<seq<string>>)
    requires IsLine(line) && WellFramed([lines] + rest)
    ensures Feed(START, line + "\n" + (Frame(lines) + Frames(rest))).1
            == Dispatch(DataValues(line) + Collect(lines)) + EventsOf(rest)
  {
    var tail := Frame(lines) + Frames(rest);
    assert "" + (line + "\n" + tail) == line + "\n" + tail;
    assert lines == ([lines] + rest)[0] && forall g :: g in rest ==> g in [lines] + rest;
    DrainLine(line, tail, []);
    assert [] + DataValues(line) == DataValues(line);
    DrainFrame(lines, Frames(rest), DataValues(line));
    DecodeFrames(rest);
    assert "" + Frames(rest) == Frames(rest);
  }

  /** The first event, and what follows, when it begins with a mark. */
  lemma {:induction false} MarkedDecoded(groups: seq<seq<string>>)
    requires WellFramed(groups) && groups != [] && groups[0] != [] && StartsWith(groups[0][0], MARK)
    ensures Feed(START, TextDecoded(Frames(groups))).1
            == Dispatch(DataValues(groups[0][0][1..]) + Collect(groups[0][1..])) + EventsOf(groups[1..])
  {
    MarkedText(groups);
    assert groups[0] in groups && groups[0][0] in groups[0];
    FirstLineDecoded(groups[0][0][1..], groups[0][1..], groups[1..]);
  }

  lemma {:induction false} MarkedUnread(groups: seq<seq<string>>)
    requires UpstreamGroups(groups) && groups != [] && groups[0] != [] && StartsWith(groups[0][0], MARK)
    ensures DataOf(Frames(groups), Unstripped())
            == Value(ServerCollect(groups[0][1..]), Unstripped()) + ServerEvents(groups[1..], Unstripped())
  {
    BlockValues(groups, Unstripped());
    assert ServerDataValue(groups[0][0]) == [];
    assert [] + ServerCollect(groups[0][1..]) == ServerCollect(groups[0][1..]);
  }

  /** A line more on one side cannot be hidden in the join. */
  lemma {:induction false} JoinsDiffer(more: seq<string>, fewer: seq<string>)
    requires |fewer| < |more| && forall v :: v in more || v in fewer ==> '\n' !in v
    ensures Dispatch(more) != Value(fewer, Unstripped()) && |Value(fewer, Unstripped())| <= |Dispatch(more)|
  {
    if fewer != [] {
      JoinedBreaks(more);
      JoinedBreaks(fewer);
    }
  }

  /** The event that a marked line begins. */
  lemma {:induction false} MarkedEventAgreesExactly(line: string, lines: seq<string>)
    requires '\n' !in line && forall other :: other in lines ==> '\n' !in other
    ensures
      var c, s := Dispatch(DataValues(line) + Collect(lines)), Value(ServerCollect(lines), Unstripped());
      && |s| <= |c|
      && (c == s <==> line != "data" && !StartsWith(line, "data:") && "data" !in lines)
  {
    if line == "data" || StartsWith(line, "data:") {
      ServerCollectsLess(lines);
      CollectedLines(lines);
      OneLineCollected(line);
      JoinsDiffer(DataValues(line) + Collect(lines), ServerCollect(lines));
    } else {
      assert DataValues(line) + Collect(lines) == Collect(lines);
      OneEventAgreesExactly(lines);
    }
  }

  lemma {:induction false} MarkedAgreesExactly(groups: seq<seq<string>>)
    requires groups != [] && groups[0] != [] && StartsWith(groups[0][0], MARK)
    requires forall g, line :: g in groups && line in g ==> '\n' !in line
    ensures
      var line, lines := groups[0][0][1..], groups[0][1..];
      Dispatch(DataValues(line) + Collect(lines)) + EventsOf(groups[1..])
          == Value(ServerCollect(lines), Unstripped()) + ServerEvents(groups[1..], Unstripped())
      <==> !MarkHides(groups[0][0]) && NoBareData(groups)
  {
    var line, lines, rest := groups[0][0][1..], groups[0][1..], groups[1..];
    assert groups[0] in groups && groups[0][0] in groups[0];
    MarkedText(groups);
    assert groups[0] == [groups[0][0]] + lines && groups[0][0] != "data";
    assert NoBareData(groups) <==> "data" !in lines && NoBareData(rest);
    MarkedEventAgreesExactly(line, lines);
    StreamsAgreeExactly(rest);
    ServerReadsFewer(rest);
    HeadsDecide(Dispatch(DataValues(line) + Collect(lines)), Value(ServerCollect(lines), Unstripped()),
                EventsOf(rest), ServerEvents(rest, Unstripped()));
  }

  /** The first line that is not blank, if there is one. */
  function FirstLine(upstream: seq<string>): string {
    if upstream == [] then "" else if upstream[0] != "" then upstream[0] else FirstLine(upstream[1..])
  }

  lemma {:induction false} GroupsBegin(upstream: seq<string>, current: seq<string>)
    requires "" !in current
    ensures
      var first := if current != [] then current[0] else FirstLine(upstream);
      && (first == "" <==> Groups(upstream, current) == [])
      && (first != "" ==> Groups(upstream, current)[0] != [] && Groups(upstream, current)[0][0] == first)
    decreases |upstream|
  {
    if upstream != [] {
      if upstream[0] == "" {
        GroupsBegin(upstream[1..], []);
      } else {
        GroupsBegin(upstream[1..], current + [upstream[0]]);
      }
    }
  }

  /**
   * From upstream lines to decoded events, under any chunking: the two sides agree exactly if no line is a bare `data`
   * and no byte order mark at the very start hides a data line.
   */
  lemma {:induction false} BareDataExactly(upstream: seq<string>, chunks: seq<string>)
    requires forall line :: line in upstream ==> IsTextLine(line)
    requires Flat(chunks) == TextDecoded(Frames(Groups(upstream, [])))
    ensures FeedAll(START, chunks).1 == DataOf(Frames(Groups(upstream, [])), Unstripped())
            <==> "data" !in upstream && !MarkHides(FirstLine(upstream))
  {
    var groups := Groups(upstream, []);
    GroupsAreUpstream(upstream, []);
    GroupsBegin(upstream, []);
    AnyChunking(START, chunks);
    forall g, line | g in groups && line in g ensures IsLine(line) && line != "" && '\n' !in line {
      assert IsTextLine(line);
    }
    if "data" in upstream {
      GroupsHoldLines(upstream, [], "data");
    }
    if groups != [] && StartsWith(groups[0][0], MARK) {
      MarkedDecoded(groups);
      MarkedUnread(groups);
      MarkedAgreesExactly(groups);
    } else {
      if groups != [] {
        assert groups[0] in groups && groups[0][0] in groups[0];
      }
      DecodeFrames(groups);
      BlockValues(groups, Unstripped());
      StreamsAgreeExactly(groups);
    }
  }

  lemma {:induction false} BareDataDecoded()
    ensures Feed(START, Frames([["data"]])).1 == [""]
  {
    DecodeFrames([["data"]]);
    assert Collect(["data"]) == [""];
    assert EventsOf([["data"]]) == [""];
  }

  /** The witness: the browser dispatches an empty value, the gateway sees none, stripped or not. */
  lemma {:induction false} BareDataDiffers(strip: Strip)
    ensures Feed(START, Frames([["data"]])).1 == [""] && DataOf(Frames([["data"]]), strip) == []
  {
    BareDataDecoded();
    BlockValues([["data"]], strip);
    assert ServerCollect(["data"]) == [];
  }

  lemma {:induction false} MarkedLine()
    ensures
      var line := MARK + "data:x";
      && StartsWith(line, MARK) && line[1..] == "data:x" && DataValues("data:x") == ["x"]
      && IsTextLine(line) && IsLine(line)
  {
    var line := MARK + "data:x";
    assert line[1..][5..] == "x" && "x"[0] != " "[0];
  }

  /** The other witness: the mark hides the first line from the gateway and not from the browser. */
  lemma {:induction false} MarkedDataDiffers()
    ensures Feed(START, TextDecoded(Frames([[MARK + "data:x"]]))).1 == ["x"]
    ensures DataOf(Frames([[MARK + "data:x"]]), Unstripped()) == []
  {
    MarkedLine();
    MarkedDecoded([[MARK + "data:x"]]);
    MarkedUnread([[MARK + "data:x"]]);
    assert DataValues("data:x") + Collect([]) == ["x"];
  }
}
