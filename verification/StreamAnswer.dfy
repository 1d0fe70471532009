/** The answer the browser builds from the decoded values. */
module StreamAnswer {
  import opened Wrappers
  import opened SseDecoder
  import opened SseServer
  import opened SseAgreement
  import opened StreamChunks
  import opened Whitespace

  datatype Failure = Partial | Validation

  /** `answer`, the arguments `onDelta` was called with, `sawDone`, and the error thrown, which ends the reading. */
  datatype Answer = Answer(text: string, deltas: seq<string>, sawDone: bool, thrown: Option<Failure>)

  const EMPTY := Answer("", [], false, None)

  function AddTexts(a: Answer, texts: seq<Option<string>>): Answer
    decreases |texts|
  {
    if texts == [] then a
    else
      var t := texts[0];
      AddTexts(if t.None? || t.value == "" then a
          else a.(text := a.text + t.value, deltas := a.deltas + [t.value]), texts[1..])
  }

  function Thrown(a: Answer): Answer {
    a.(thrown := Some(if a.text != "" then Partial else Validation))
  }

  function ConsumeValue(a: Answer, data: string, parse: Parser): Answer {
    if a.thrown.Some? || a.sawDone then a
    else if IsEndMark(data) then a.(sawDone := true)
    else
      match BrowserReads(data, parse)
      case Texts(texts) => AddTexts(a, texts)
      case Broken => Thrown(a)
  }

  function ConsumeAll(a: Answer, events: seq<string>, parse: Parser): Answer
    decreases |events|
  {
    if events == [] then a else ConsumeAll(ConsumeValue(a, events[0], parse), events[1..], parse)
  }

  // ---------- gateway-client.ts: the reading loop of requestStreamingCompletion ----------

  class StreamReader {
    const parse: Parser
    const decoder: SseEventDecoder
    var text: string
    var deltas: seq<string>
    var sawDone: bool
    var thrown: Option<Failure>

    function View(): Answer
      reads this
    {
      Answer(text, deltas, sawDone, thrown)
    }

    constructor (parse: Parser)
      ensures fresh(decoder) && this.parse == parse && View() == EMPTY && decoder.View() == START
    {
      this.parse := parse;
      decoder := new SseEventDecoder();
      text, deltas, sawDone, thrown := "", [], false, None;
    }

    method ConsumeData(data: string)
      modifies this
      ensures View() == ConsumeValue(old(View()), data, parse)
    {
      if thrown.Some? || sawDone {
        return;
      }
      if JsTrim(data) == "[DONE]" {
        sawDone := true;
        return;
      }
      var chunk := ReadJson(data, parse);
      if chunk.None? || chunk.value.Scalar? || (chunk.value.Object? && chunk.value.error != NoError) {
        thrown := Some(if text != "" then Partial else Validation);
        return;
      }
      if chunk.value.Array? || !chunk.value.choices.Listed? {
        return;
      }
      AddContents(chunk.value.choices.choices);
    }

    /** The loop over the choices, each with its checks. */
    method AddContents(choices: seq<Choice>)
      modifies this
      ensures View() == AddTexts(old(View()), ContentsOf(choices))
    {
      ghost var before := View();
      for i := 0 to |choices|
        invariant AddTexts(before, ContentsOf(choices)) == AddTexts(View(), ContentsOf(choices[i..]))
      {
        var choice := choices[i];
        assert choices[i..][1..] == choices[i + 1..];
        assert ContentsOf(choices[i..])[1..] == ContentsOf(choices[i + 1..]);
        if choice.Dict? && choice.content.Some? && choice.content.value != "" {
          text := text + choice.content.value;
          deltas := deltas + [choice.content.value];
        }
      }
    }

    /** One chunk read from the network. */
    method Read(chunk: string)
      modifies this, decoder
      ensures (decoder.View(), View()) == Reading(old(decoder.View()), old(View()), chunk, parse)
    {
      var events := decoder.Push(chunk);
      ghost var before := View();
      for i := 0 to |events|
        invariant ConsumeAll(before, events, parse) == ConsumeAll(View(), events[i..], parse)
        invariant decoder.View() == Feed(old(decoder.View()), chunk).0
      {
        assert events[i..][1..] == events[i + 1..];
        ConsumeData(events[i]);
      }
    }
  }

  function Reading(d: Decoder, a: Answer, chunk: string, parse: Parser): (Decoder, Answer) {
    var (next, events) := Feed(d, chunk);
    (next, ConsumeAll(a, events, parse))
  }

  function ReadAll(d: Decoder, a: Answer, chunks: seq<string>, parse: Parser): (Decoder, Answer)
    decreases |chunks|
  {
    if chunks == [] then (d, a)
    else
      var (next, now) := Reading(d, a, chunks[0], parse);
      ReadAll(next, now, chunks[1..], parse)
  }

  // ---------- the answer is the deltas ----------

  ghost predicate AnswerIsDeltas(a: Answer) {
    a.text == Flat(a.deltas) && "" !in a.deltas
  }

  lemma {:induction false} FlatAppend(parts: seq<string>, last: string)
    ensures Flat(parts + [last]) == Flat(parts) + last
  {
    if parts == [] {
      assert parts + [last] == [last] && Flat([last]) == last + "";
    } else {
      assert (parts + [last])[1..] == parts[1..] + [last];
      FlatAppend(parts[1..], last);
    }
  }

  lemma {:induction false} AddTextsKeeps(a: Answer, texts: seq<Option<string>>)
    requires AnswerIsDeltas(a)
    ensures AnswerIsDeltas(AddTexts(a, texts))
    decreases |texts|
  {
    if texts != [] {
      var t := texts[0];
      if t.Some? && t.value != "" {
        FlatAppend(a.deltas, t.value);
        AddTextsKeeps(a.(text := a.text + t.value, deltas := a.deltas + [t.value]), texts[1..]);
      } else {
        AddTextsKeeps(a, texts[1..]);
      }
    }
  }

  lemma {:induction false} ConsumeAllKeeps(a: Answer, events: seq<string>, parse: Parser)
    requires AnswerIsDeltas(a)
    ensures AnswerIsDeltas(ConsumeAll(a, events, parse))
    decreases |events|
  {
    if events != [] {
      var now := ConsumeValue(a, events[0], parse);
      if !(a.thrown.Some? || a.sawDone) && BrowserReads(events[0], parse).Texts? {
        AddTextsKeeps(a, BrowserReads(events[0], parse).texts);
      }
      ConsumeAllKeeps(now, events[1..], parse);
    }
  }

  lemma {:induction false} ConsumeConcat(a: Answer, first: seq<string>, second: seq<string>, parse: Parser)
    ensures ConsumeAll(a, first + second, parse) == ConsumeAll(ConsumeAll(a, first, parse), second, parse)
    decreases |first|
  {
    if first == [] {
      AppendToEmpty(second);
    } else {
      assert (first + second)[1..] == first[1..] + second;
      ConsumeConcat(ConsumeValue(a, first[0], parse), first[1..], second, parse);
    }
  }

  lemma {:induction false} DrainedStays(d: Decoder)
    ensures Drain(Drain(d).0) == (Drain(d).0, [])
    decreases |d.buffer|
  {
    if HasLine(d.buffer) {
      DrainedStays(TakeLine(d).0);
    }
  }

  /** Reading chunk by chunk is reading the whole text at once. */
  lemma {:induction false} ReadingInChunks(d: Decoder, a: Answer, chunks: seq<string>, parse: Parser)
    requires Drain(d) == (d, [])
    ensures ReadAll(d, a, chunks, parse) == Reading(d, a, Flat(chunks), parse)
    decreases |chunks|
  {
    if chunks == [] {
      assert d.buffer + "" == d.buffer;
    } else {
      var (next, now) := Reading(d, a, chunks[0], parse);
      DrainedStays(d.(buffer := d.buffer + chunks[0]));
      ReadingInChunks(next, now, chunks[1..], parse);
      ChunkingInvariance(d, chunks[0], Flat(chunks[1..]));
      ConsumeConcat(a, Feed(d, chunks[0]).1, Feed(next, Flat(chunks[1..])).1, parse);
    }
  }

  /** However a stream arrives, the answer is the same, and it is what `onDelta` was told, piece by piece. */
  lemma {:induction false} StreamedAnswer(payloads: seq<string>, chunks: seq<string>, parse: Parser)
    requires forall p :: p in payloads ==> '\r' !in p
    requires Flat(chunks) == Frames(EncodeAll(payloads))
    ensures
      var (d, a) := ReadAll(START, EMPTY, chunks, parse);
      d == START && a == ConsumeAll(EMPTY, payloads, parse) && a.text == Flat(a.deltas)
  {
    ReadingInChunks(START, EMPTY, chunks, parse);
    RoundTrip(payloads, chunks);
    AnyChunking(START, chunks);
    ConsumeAllKeeps(EMPTY, payloads, parse);
  }

  // ---------- which answer it is ----------

  function Pieces(texts: seq<Option<string>>): seq<string> {
    if texts == [] then []
    else (if texts[0].None? || texts[0].value == "" then [] else [texts[0].value]) + Pieces(texts[1..])
  }

  /** The values before the first end mark. */
  function BeforeDone(events: seq<string>, parse: Parser): seq<string> {
    if events == [] || IsEndMark(events[0]) then [] else [events[0]] + BeforeDone(events[1..], parse)
  }

  /** The texts of all these values, none of them unreadable. */
  function TextsOf(values: seq<string>, parse: Parser): seq<string>
    requires forall v :: v in values ==> BrowserReads(v, parse).Texts?
  {
    if values == [] then []
    else
      assert values[0] in values && forall v :: v in values[1..] ==> v in values;
      Pieces(BrowserReads(values[0], parse).texts) + TextsOf(values[1..], parse)
  }

  lemma {:induction false} AddTextsAll(a: Answer, texts: seq<Option<string>>)
    ensures
      var r := AddTexts(a, texts);
      r.deltas == a.deltas + Pieces(texts) && r.sawDone == a.sawDone && r.thrown == a.thrown
    decreases |texts|
  {
    if texts == [] {
      AppendToEmpty(a.deltas);
    } else {
      var t := texts[0];
      var first := if t.None? || t.value == "" then [] else [t.value];
      AddTextsAll(if t.None? || t.value == "" then a
          else a.(text := a.text + t.value, deltas := a.deltas + [t.value]), texts[1..]);
      AppendAssociates(a.deltas, first, Pieces(texts[1..]));
      AppendToEmpty(a.deltas);
    }
  }

  /**
   * Reading throws exactly if some value before the first end mark is unreadable or an error. Otherwise the deltas are
   * all the texts of those values, and nothing after the mark counts.
   */
  lemma {:induction false} AnswerIsAllTexts(a: Answer, events: seq<string>, parse: Parser)
    requires a.thrown.None? && !a.sawDone
    ensures
      var r, values := ConsumeAll(a, events, parse), BeforeDone(events, parse);
      && (r.thrown.None? <==> forall v :: v in values ==> BrowserReads(v, parse).Texts?)
      && (r.thrown.None? ==> r.deltas == a.deltas + TextsOf(values, parse))
      && (r.thrown.None? ==> (r.sawDone <==> |values| < |events|))
    decreases |events|
  {
    if events == [] || IsEndMark(events[0]) {
      AppendToEmpty(a.deltas);
      if events != [] {
        NothingAfter(a.(sawDone := true), events[1..], parse);
      }
    } else {
      var values, now := BeforeDone(events, parse), ConsumeValue(a, events[0], parse);
      assert values[0] == events[0] && values[1..] == BeforeDone(events[1..], parse);
      assert forall v :: v in values <==> v == events[0] || v in values[1..];
      if BrowserReads(events[0], parse).Texts? {
        AddTextsAll(a, BrowserReads(events[0], parse).texts);
        AnswerIsAllTexts(now, events[1..], parse);
        if ConsumeAll(now, events[1..], parse).thrown.None? {
          AppendAssociates(a.deltas, Pieces(BrowserReads(events[0], parse).texts), TextsOf(values[1..], parse));
        }
      } else {
        NothingAfter(now, events[1..], parse);
        assert events[0] in values;
      }
    }
  }

  lemma {:induction false} NothingAfter(a: Answer, events: seq<string>, parse: Parser)
    requires a.thrown.Some? || a.sawDone
    ensures ConsumeAll(a, events, parse) == a
    decreases |events|
  {
    if events != [] {
      NothingAfter(a, events[1..], parse);
    }
  }

  // ---------- how the reading ends ----------

  /** The checks after the loop: what the caller gets. */
  function Final(a: Answer): Result<string, Failure> {
    if a.thrown.Some? then Err(a.thrown.value)
    else if !a.sawDone then Err(Partial)
    else if a.text == "" then Err(Validation)
    else Ok(a.text)
  }

  /**
   * The browser returns exactly the texts before the end mark, and only if the mark came, all of them were readable,
   * and there was any.
   */
  lemma {:induction false} AnswerReturnedExactly(events: seq<string>, parse: Parser)
    ensures
      var r, values := Final(ConsumeAll(EMPTY, events, parse)), BeforeDone(events, parse);
      && (r.Ok? <==>
            && |values| < |events|
            && (forall v :: v in values ==> BrowserReads(v, parse).Texts?)
            && TextsOf(values, parse) != [])
      && (r.Ok? ==> r.value == Flat(TextsOf(values, parse)))
  {
    AnswerIsAllTexts(EMPTY, events, parse);
    ConsumeAllKeeps(EMPTY, events, parse);
    var a := ConsumeAll(EMPTY, events, parse);
    if a.thrown.None? {
      AppendToEmpty(TextsOf(BeforeDone(events, parse), parse));
      FlatIsEmpty(a.deltas);
    }
  }

  lemma {:induction false} FlatIsEmpty(parts: seq<string>)
    requires "" !in parts
    ensures Flat(parts) == "" <==> parts == []
  {
    if parts != [] {
      assert parts[0] in parts;
    }
  }

  // ---------- what withholding usage does to the answer ----------

  predicate Ended(a: Answer) { a.thrown.Some? || a.sawDone }

  /** Does reading these values come to an end mark, or to a value that cannot be read? */
  predicate EndsReading(values: seq<string>, parse: Parser) {
    exists v :: v in values && (IsEndMark(v) || BrowserReads(v, parse).Broken?)
  }

  /** Is the first of these values that does anything one that cannot be read? */
  predicate BreaksFirst(values: seq<string>, parse: Parser)
    decreases |values|
  {
    && values != [] && !IsEndMark(values[0])
    && match BrowserReads(values[0], parse)
       case Broken => true
       case Texts(texts) => Pieces(texts) == [] && BreaksFirst(values[1..], parse)
  }

  predicate AllReadable(values: seq<string>, parse: Parser) {
    forall v :: v in values ==> BrowserReads(v, parse).Texts?
  }

  /** The values of the blocks that are forwarded when usage was not asked for. */
  function Kept(blocks: seq<Block>, parse: Parser): seq<string> {
    EventsOf(Ungroup(Forwarded(blocks, false, parse)))
  }

  /**
   * Along the accepted blocks, until the reading ends: every withheld block is readable to the browser, or else the
   * very next thing it would read after the first one that is not is as unreadable.
   */
  ghost predicate HidesNothing(blocks: seq<Block>, parse: Parser) {
    blocks == [] || !IsAccepted(Frames(blocks[0]), parse) ||
    var values := EventsOf(blocks[0]);
    if !IsUsageOnly(Frames(blocks[0]), parse) then EndsReading(values, parse) || HidesNothing(blocks[1..], parse)
    else if AllReadable(values, parse) then HidesNothing(blocks[1..], parse)
    else BreaksFirst(Kept(blocks[1..], parse), parse)
  }

  lemma {:induction false} DeltasGrow(a: Answer, events: seq<string>, parse: Parser)
    ensures a.deltas <= ConsumeAll(a, events, parse).deltas
    decreases |events|
  {
    if events != [] {
      if BrowserReads(events[0], parse).Texts? {
        AddTextsAll(a, BrowserReads(events[0], parse).texts);
      }
      DeltasGrow(ConsumeValue(a, events[0], parse), events[1..], parse);
    }
  }

  lemma {:induction false} QuietTexts(a: Answer, texts: seq<Option<string>>)
    requires Pieces(texts) == []
    ensures AddTexts(a, texts) == a
    decreases |texts|
  {
    if texts != [] {
      QuietTexts(a, texts[1..]);
    }
  }

  /** Reading throws where it stands exactly if the first value that does anything is unreadable. */
  lemma {:induction false} ThrowsHereExactly(a: Answer, events: seq<string>, parse: Parser)
    requires !Ended(a)
    ensures ConsumeAll(a, events, parse) == Thrown(a) <==> BreaksFirst(events, parse)
    decreases |events|
  {
    if events != [] {
      var now := ConsumeValue(a, events[0], parse);
      if IsEndMark(events[0]) || BrowserReads(events[0], parse).Broken? {
        NothingAfter(now, events[1..], parse);
      } else {
        var texts := BrowserReads(events[0], parse).texts;
        if Pieces(texts) == [] {
          QuietTexts(a, texts);
          ThrowsHereExactly(a, events[1..], parse);
        } else {
          AddTextsAll(a, texts);
          DeltasGrow(now, events[1..], parse);
        }
      }
    }
  }

  lemma {:induction false} EndedExactly(a: Answer, events: seq<string>, parse: Parser)
    requires !Ended(a)
    ensures Ended(ConsumeAll(a, events, parse)) <==> EndsReading(events, parse)
    decreases |events|
  {
    if events != [] {
      var now := ConsumeValue(a, events[0], parse);
      assert events[0] in events && forall v :: v in events <==> v == events[0] || v in events[1..];
      if IsEndMark(events[0]) || BrowserReads(events[0], parse).Broken? {
        NothingAfter(now, events[1..], parse);
      } else {
        AddTextsAll(a, BrowserReads(events[0], parse).texts);
        EndedExactly(now, events[1..], parse);
      }
    }
  }

  /** The values of a usage-only block: each one says nothing, or throws. */
  ghost predicate OnlyUsage(events: seq<string>, parse: Parser) {
    forall v :: v in events ==> IsUsage(PyStrip(v), parse)
  }

  lemma {:induction false} UsageEffect(a: Answer, events: seq<string>, parse: Parser)
    requires ReadsJson(parse) && OnlyUsage(events, parse) && !Ended(a)
    ensures ConsumeAll(a, events, parse) == if AllReadable(events, parse) then a else Thrown(a)
    decreases |events|
  {
    if events != [] {
      assert events[0] in events && forall v :: v in events <==> v == events[0] || v in events[1..];
      UsageReadExactly(events[0], parse);
      if BrowserReads(events[0], parse).Broken? {
        NothingAfter(Thrown(a), events[1..], parse);
      } else {
        UsageEffect(a, events[1..], parse);
      }
    }
  }

  lemma {:induction false} StrippedMember(events: seq<string>, v: string)
    requires v in events
    ensures PyStrip(v) in Stripped(events, PyStrip)
  {
    assert PyStrip(v) == Stripped([v], PyStrip)[0];
    if v == events[0] {
      assert Stripped(events, PyStrip)[0] == PyStrip(v);
    } else {
      StrippedMember(events[1..], v);
      var i :| 0 <= i < |Stripped(events[1..], PyStrip)| && Stripped(events[1..], PyStrip)[i] == PyStrip(v);
      assert Stripped(events, PyStrip)[i + 1] == PyStrip(v);
    }
  }

  lemma {:induction false} WithheldIsUsage(b: Block, parse: Parser)
    requires UpstreamGroups(b) && NoBareData(b) && IsUsageOnly(Frames(b), parse)
    ensures OnlyUsage(EventsOf(b), parse)
  {
    BlockValues(b, PyStrip);
    SameEvents(b, PyStrip);
    forall v | v in EventsOf(b) ensures IsUsage(PyStrip(v), parse) {
      StrippedMember(EventsOf(b), v);
    }
  }

  /** The block at the head of a stream, then the rest. */
  lemma {:induction false} HeadThenRest(a: Answer, blocks: seq<Block>, includeUsage: bool, parse: Parser)
    requires blocks != [] && IsAccepted(Frames(blocks[0]), parse)
    ensures
      var rest := EventsOf(Ungroup(Forwarded(blocks[1..], includeUsage, parse)));
      var sent := EventsOf(Ungroup(Forwarded(blocks, includeUsage, parse)));
      if includeUsage || !IsUsageOnly(Frames(blocks[0]), parse)
      then ConsumeAll(a, sent, parse) == ConsumeAll(ConsumeAll(a, EventsOf(blocks[0]), parse), rest, parse)
      else sent == rest
  {
    var sent, rest := Forwarded(blocks, includeUsage, parse), Forwarded(blocks[1..], includeUsage, parse);
    if includeUsage || !IsUsageOnly(Frames(blocks[0]), parse) {
      assert sent[0] == blocks[0] && sent[1..] == rest;
      FramesConcat(blocks[0], Ungroup(rest));
      ConsumeConcat(a, EventsOf(blocks[0]), EventsOf(Ungroup(rest)), parse);
    } else {
      assert [] + rest == rest;
    }
  }

  /**
   * The client that did not ask for usage reads the same answer as the one that did, errors included, exactly if
   * withholding hid nothing from it.
   */
  lemma {:induction false} WithholdingKeepsAnswerExactly(a: Answer, blocks: seq<Block>, parse: Parser)
    requires ReadsJson(parse) && Readable(blocks) && !Ended(a)
    ensures
      ConsumeAll(a, Kept(blocks, parse), parse)
          == ConsumeAll(a, EventsOf(Ungroup(Forwarded(blocks, true, parse))), parse)
      <==> HidesNothing(blocks, parse)
    decreases |blocks|
  {
    if blocks != [] && IsAccepted(Frames(blocks[0]), parse) {
      var values, rest := EventsOf(blocks[0]), blocks[1..];
      var kept, all := Kept(rest, parse), EventsOf(Ungroup(Forwarded(rest, true, parse)));
      assert blocks[0] in blocks;
      HeadThenRest(a, blocks, false, parse);
      HeadThenRest(a, blocks, true, parse);
      var now := ConsumeAll(a, values, parse);
      if !IsUsageOnly(Frames(blocks[0]), parse) {
        EndedExactly(a, values, parse);
        if Ended(now) {
          NothingAfter(now, kept, parse);
          NothingAfter(now, all, parse);
        } else {
          WithholdingKeepsAnswerExactly(now, rest, parse);
        }
      } else {
        WithheldIsUsage(blocks[0], parse);
        UsageEffect(a, values, parse);
        if AllReadable(values, parse) {
          WithholdingKeepsAnswerExactly(a, rest, parse);
        } else {
          NothingAfter(Thrown(a), all, parse);
          ThrowsHereExactly(a, kept, parse);
        }
      }
    }
  }

  /** No object of the withheld block has an `error` key, and only JSON's own white space surrounds them. */
  ghost predicate CleanUsage(b: Block, parse: Parser) {
    forall v :: v in EventsOf(b) ==>
      && JsonTrim(v) == PyStrip(v)
      && ReadJson(PyStrip(v), parse).Some? && ReadJson(PyStrip(v), parse).value.Object?
      && ReadJson(PyStrip(v), parse).value.error == NoError
  }

  /** So withholding clean usage never changes the answer. */
  lemma {:induction false} CleanUsageHidesNothing(blocks: seq<Block>, parse: Parser)
    requires ReadsJson(parse) && Readable(blocks)
    requires forall b :: b in blocks && IsUsageOnly(Frames(b), parse) ==> CleanUsage(b, parse)
    ensures HidesNothing(blocks, parse)
  {
    if blocks != [] && IsAccepted(Frames(blocks[0]), parse) {
      assert blocks[0] in blocks;
      CleanUsageHidesNothing(blocks[1..], parse);
      if IsUsageOnly(Frames(blocks[0]), parse) {
        WithheldIsUsage(blocks[0], parse);
        forall v | v in EventsOf(blocks[0]) ensures BrowserReads(v, parse).Texts? {
          UsageReadExactly(v, parse);
        }
      }
    }
  }

  /**
   * A chunk that says `"error": null` beside its usage is withheld, and the stream goes on; forwarded, it makes the
   * browser throw.
   */
  lemma {:induction false} WithholdingHidesError(line: string, parse: Parser)
    requires ReadsJson(parse) && line != "" && IsTextLine(line) && StartsWith(line, "data: ")
            && line[6..] == PyStrip(line[6..])
    requires ReadJson(line[6..], parse) == Some(Object(NullError, NoChoices, Given(true)))
    ensures
      var blocks := [[[line]]];
      && Readable(blocks) && !HidesNothing(blocks, parse)
      && ConsumeAll(EMPTY, Kept(blocks, parse), parse) == EMPTY
      && ConsumeAll(EMPTY, EventsOf(Ungroup(Forwarded(blocks, true, parse))), parse) == Thrown(EMPTY)
  {
    NullErrorWithheld(line, parse);
    HeadThenRest(EMPTY, [[[line]]], false, parse);
    HeadThenRest(EMPTY, [[[line]]], true, parse);
    UsageEffect(EMPTY, [line[6..]], parse);
  }

  lemma {:induction false} NullErrorWithheld(line: string, parse: Parser)
    requires ReadsJson(parse) && line != "" && IsTextLine(line) && StartsWith(line, "data: ")
    requires line[6..] == PyStrip(line[6..])
    requires ReadJson(line[6..], parse) == Some(Object(NullError, NoChoices, Given(true)))
    ensures Readable([[[line]]]) && EventsOf([[line]]) == [line[6..]] && OnlyUsage([line[6..]], parse)
    ensures IsAccepted(Frames([[line]]), parse) && IsUsageOnly(Frames([[line]]), parse)
    ensures !AllReadable([line[6..]], parse)
  {
    OneUsageLine(line);
    assert line[6..] != "[DONE]" && line[6..] != "" by {
      assert JsonTrim("[DONE]") == "[DONE]" && JsonTrim("") == "";
    }
    WithheldIsUsage([[line]], parse);
    UsageReadExactly(line[6..], parse);
  }

  lemma {:induction false} OneUsageLine(line: string)
    requires line != "" && IsTextLine(line) && StartsWith(line, "data: ") && line[6..] == PyStrip(line[6..])
    ensures EventsOf([[line]]) == [line[6..]] && DataOf(Frames([[line]]), PyStrip) == [line[6..]]
    ensures Readable([[[line]]])
  {
    var v := line[6..];
    assert line[5..][1..] == v && line[5..][0] == ' ';
    assert Collect([line]) == [v] + [] && ServerCollect([line]) == [v] + [];
    assert EventsOf([[line]]) == [v];
    BlockValues([[line]], PyStrip);
    assert ServerEvents([[line]], PyStrip) == [PyStrip(v)];
  }
}
