/** What a stream's chunks say, in their own fields, and that it is what the browser answers. */
module StreamSpeech {
  import opened Wrappers
  import opened Lists
  import opened SseDecoder
  import opened SseServer
  import opened SseAgreement
  import opened StreamChunks
  import opened StreamAnswer
  import opened Whitespace

  /** A choice that is no object, or has no content, says nothing. */
  ghost function SaidBy(choice: Choice): seq<string> {
    match choice
    case Dict(Some(content)) => [content]
    case _ => []
  }

  ghost function SaidByEach(choices: seq<Choice>): seq<string> {
    if choices == [] then [] else SaidBy(choices[0]) + SaidByEach(choices[1..])
  }

  ghost function Said(value: JsonValue): seq<string> {
    match value
    case Object(_, Listed(choices), _) => SaidByEach(choices)
    case _ => []
  }

  ghost function AllSaid(values: seq<JsonValue>): seq<string> {
    if values == [] then [] else Said(values[0]) + AllSaid(values[1..])
  }

  /** What `onDelta` is told: everything but empty strings. */
  function NonEmpty(): string -> bool { (t: string) => t != "" }

  /** The payload is this value's text, perhaps with JSON's white space around it. */
  ghost predicate Writes(payload: string, value: JsonValue, parse: Parser) {
    parse(JsonTrim(payload)) == Some(value)
  }

  ghost predicate WriteAll(payloads: seq<string>, values: seq<JsonValue>, parse: Parser) {
    && |payloads| == |values|
    && forall i :: 0 <= i < |values| ==> Writes(payloads[i], values[i], parse)
  }

  /** An object without an `error` key, or an array. */
  ghost predicate Sound(value: JsonValue) {
    value.Array? || (value.Object? && value.error == NoError)
  }

  // ---------- one value ----------

  lemma {:induction false} FlatConcat(a: seq<string>, b: seq<string>)
    ensures Flat(a + b) == Flat(a) + Flat(b)
  {
    if a == [] {
      assert [] + b == b;
    } else {
      assert (a + b)[1..] == a[1..] + b;
      FlatConcat(a[1..], b);
    }
  }

  /** The answer that has also heard these contents. */
  ghost function Hearing(a: Answer, contents: seq<string>): Answer {
    a.(text := a.text + Flat(contents), deltas := a.deltas + Filter(contents, NonEmpty()))
  }

  lemma {:induction false} HearingMore(a: Answer, first: seq<string>, second: seq<string>)
    ensures Hearing(Hearing(a, first), second) == Hearing(a, first + second)
  {
    FlatConcat(first, second);
    FilterConcat(first, second, NonEmpty());
    assert a.text + Flat(first) + Flat(second) == a.text + (Flat(first) + Flat(second));
    AppendAssociates(a.deltas, Filter(first, NonEmpty()), Filter(second, NonEmpty()));
  }

  lemma {:induction false} HearingNothing(a: Answer)
    ensures Hearing(a, []) == a
  {
  }

  lemma {:induction false} HearingOne(a: Answer, content: string)
    ensures Hearing(a, [content])
         == if content == "" then a else a.(text := a.text + content, deltas := a.deltas + [content])
  {
    assert Flat([content]) == content + "";
    assert [content][..0] == [] && Filter([content], NonEmpty()) == [] + if content == "" then [] else [content];
  }

  /** One step of the loop over the choices. */
  lemma {:induction false} ChoiceIsHeard(a: Answer, choice: Choice, rest: seq<Choice>)
    ensures AddTexts(a, ContentsOf([choice] + rest)) == AddTexts(Hearing(a, SaidBy(choice)), ContentsOf(rest))
  {
    var all := [choice] + rest;
    assert all[1..] == rest && ContentsOf(all)[1..] == ContentsOf(rest);
    HearingNothing(a);
    if choice.Dict? && choice.content.Some? {
      HearingOne(a, choice.content.value);
    }
  }

  lemma {:induction false} ChoicesAreHeard(a: Answer, choices: seq<Choice>)
    ensures AddTexts(a, ContentsOf(choices)) == Hearing(a, SaidByEach(choices))
    decreases |choices|
  {
    if choices == [] {
      HearingNothing(a);
    } else {
      assert choices == [choices[0]] + choices[1..];
      ChoiceIsHeard(a, choices[0], choices[1..]);
      ChoicesAreHeard(Hearing(a, SaidBy(choices[0])), choices[1..]);
      HearingMore(a, SaidBy(choices[0]), SaidByEach(choices[1..]));
    }
  }

  lemma {:induction false} ValueIsNoEndMark(payload: string, value: JsonValue, parse: Parser)
    requires ReadsJson(parse) && Writes(payload, value, parse)
    ensures !IsEndMark(payload)
  {
    if IsEndMark(payload) {
      assert Solid(JsTrim(payload));
      SolidIsUnique(payload, IsJsonSpace, IsJsSpace);
    }
  }

  lemma {:induction false} ValueIsHeard(a: Answer, payload: string, value: JsonValue, parse: Parser)
    requires ReadsJson(parse) && Writes(payload, value, parse) && !Ended(a)
    ensures ConsumeValue(a, payload, parse) == if Sound(value) then Hearing(a, Said(value)) else Thrown(a)
  {
    ValueIsNoEndMark(payload, value, parse);
    HearingNothing(a);
    if value.Object? && value.choices.Listed? {
      ChoicesAreHeard(a, value.choices.choices);
    }
  }

  // ---------- whole streams ----------

  lemma {:induction false} ValuesAreHeard(a: Answer, payloads: seq<string>, values: seq<JsonValue>, parse: Parser)
    requires ReadsJson(parse) && WriteAll(payloads, values, parse) && !Ended(a)
    requires forall v :: v in values ==> Sound(v)
    ensures ConsumeAll(a, payloads, parse) == Hearing(a, AllSaid(values))
    decreases |values|
  {
    if values == [] {
      HearingNothing(a);
    } else {
      assert Writes(payloads[0], values[0], parse);
      ValueIsHeard(a, payloads[0], values[0], parse);
      ValuesAreHeard(Hearing(a, Said(values[0])), payloads[1..], values[1..], parse);
      HearingMore(a, Said(values[0]), AllSaid(values[1..]));
    }
  }

  /** How a stream goes on after sound values: with the end mark, with a value that is none, or not at all. */
  datatype Rest = Marked | Unsound(payload: string) | Cut

  ghost predicate IsRest(rest: Rest, after: seq<string>, parse: Parser) {
    match rest
    case Marked => after != [] && JsTrim(after[0]) == "[DONE]"
    case Unsound(payload) =>
      && after != [] && after[0] == payload && JsTrim(payload) != "[DONE]"
      && forall v :: Writes(payload, v, parse) ==> !Sound(v)
    case Cut => after == []
  }

  /** What the caller gets: all that was said, or an error that tells whether anything was. */
  ghost function Told(rest: Rest, said: string): Result<string, Failure> {
    match rest
    case Marked => if said == "" then Err(Validation) else Ok(said)
    case Unsound(_) => Err(if said == "" then Validation else Partial)
    case Cut => Err(Partial)
  }

  lemma {:induction false} RestIsTold(a: Answer, rest: Rest, after: seq<string>, parse: Parser)
    requires !Ended(a) && IsRest(rest, after, parse)
    ensures
      var r := ConsumeAll(a, after, parse);
      r.text == a.text && r.deltas == a.deltas && Final(r) == Told(rest, a.text)
  {
    if after != [] {
      var now := ConsumeValue(a, after[0], parse);
      if !rest.Marked? && ReadJson(after[0], parse).Some? {
        assert Writes(after[0], ReadJson(after[0], parse).value, parse);
      }
      NothingAfter(now, after[1..], parse);
    }
  }

  /**
   * However a stream of sound values arrives, `onDelta` is told the contents of their choices, in order and without the
   * empty ones, and the caller gets all of them together if the end mark follows, whatever comes after it; if a value
   * that is not sound follows, or nothing, an error.
   */
  lemma {:induction false} SaidIsAnswered(payloads: seq<string>, values: seq<JsonValue>, rest: Rest,
                                          after: seq<string>, chunks: seq<string>, parse: Parser)
    requires ReadsJson(parse) && WriteAll(payloads, values, parse) && forall v :: v in values ==> Sound(v)
    requires IsRest(rest, after, parse)
    requires forall p :: p in payloads + after ==> '\r' !in p
    requires Flat(chunks) == Frames(EncodeAll(payloads + after))
    ensures
      var a := ReadAll(START, EMPTY, chunks, parse).1;
      && a.deltas == Filter(AllSaid(values), NonEmpty())
      && a.text == Flat(AllSaid(values))
      && Final(a) == Told(rest, Flat(AllSaid(values)))
  {
    StreamedAnswer(payloads + after, chunks, parse);
    ConsumeConcat(EMPTY, payloads, after, parse);
    ValuesAreHeard(EMPTY, payloads, values, parse);
    RestIsTold(Hearing(EMPTY, AllSaid(values)), rest, after, parse);
  }

  /** So one chunk with one content, and then the end mark, is answered with that content. */
  lemma {:induction false} OneContentAnswered(payload: string, content: string, usage: Usage, parse: Parser)
    requires ReadsJson(parse) && content != ""
    requires Writes(payload, Object(NoError, Listed([NotADict, Dict(None), Dict(Some(content))]), usage), parse)
    ensures
      var a := ConsumeAll(EMPTY, [payload, "[DONE]"], parse);
      a.deltas == [content] && Final(a) == Ok(content)
  {
    var value := Object(NoError, Listed([NotADict, Dict(None), Dict(Some(content))]), usage);
    ThreeChoices(content, usage);
    ValuesAreHeard(EMPTY, [payload], [value], parse);
    HearingFirst(content);
    ConsumeConcat(EMPTY, [payload], ["[DONE]"], parse);
    MarkIsTold(content, parse);
  }

  lemma {:induction false} MarkIsTold(content: string, parse: Parser)
    requires content != ""
    ensures ConsumeAll(Answer(content, [content], false, None), ["[DONE]"], parse)
         == Answer(content, [content], true, None)
  {
    assert JsTrim("[DONE]") == "[DONE]";
  }

  lemma {:induction false} HearingFirst(content: string)
    requires content != ""
    ensures Hearing(EMPTY, [content]) == Answer(content, [content], false, None)
  {
    HearingOne(EMPTY, content);
    assert "" + content == content;
  }

  lemma {:induction false} ThreeChoices(content: string, usage: Usage)
    ensures AllSaid([Object(NoError, Listed([NotADict, Dict(None), Dict(Some(content))]), usage)]) == [content]
  {
    var last := [Dict(Some(content))];
    assert SaidByEach(last) == [content] + SaidByEach([]);
    assert ([Dict(None)] + last)[1..] == last && ([NotADict, Dict(None)] + last)[1..] == [Dict(None)] + last;
    assert SaidByEach([Dict(None)] + last) == [] + SaidByEach(last);
    assert SaidByEach([NotADict, Dict(None)] + last) == [] + SaidByEach([Dict(None)] + last);
    assert [NotADict, Dict(None)] + last == [NotADict, Dict(None), Dict(Some(content))];
  }

  // ---------- through the gateway ----------

  /** The observer gets through it: an object without a real error, with countable usage, whose choices are objects. */
  ghost predicate Countable(value: JsonValue) {
    && value.Object? && value.error != SomeError
    && value.usage != Given(false)
    && match value.choices
       case NoChoices => true
       case Listed(choices) => forall c :: c in choices ==> c != NotADict
       case OtherChoices => false
  }

  /** The end mark, or such a value without any error, with only JSON's white space around it. */
  ghost predicate Passes(payload: string, parse: Parser) {
    || payload == "[DONE]"
    || (JsonTrim(payload) == PyStrip(payload)
        && exists value :: Writes(payload, value, parse) && Countable(value) && value.error == NoError)
  }

  ghost predicate AllPass(blocks: seq<Block>, parse: Parser) {
    forall b, p :: b in blocks && p in EventsOf(b) ==> Passes(p, parse)
  }

  lemma {:induction false} StripsFrom(events: seq<string>, v: string) returns (p: string)
    requires v in Stripped(events, PyStrip)
    ensures p in events && v == PyStrip(p)
  {
    if v == PyStrip(events[0]) {
      p := events[0];
    } else {
      var i :| 0 <= i < |Stripped(events, PyStrip)| && Stripped(events, PyStrip)[i] == v;
      assert Stripped(events, PyStrip)[0] == PyStrip(events[0]);
      assert Stripped(events, PyStrip)[i] == Stripped(events[1..], PyStrip)[i - 1];
      p := StripsFrom(events[1..], v);
    }
  }

  lemma {:induction false} PassingIsObserved(payload: string, parse: Parser)
    requires ReadsJson(parse) && Passes(payload, parse)
    ensures Observes(PyStrip(payload), parse)
    ensures payload != "[DONE]" ==> ReadJson(PyStrip(payload), parse) == parse(JsonTrim(payload))
  {
    if payload == "[DONE]" {
      assert PyStrip("[DONE]") == "[DONE]";
    } else {
      var t := PyStrip(payload);
      assert Solid(t) && JsonTrim(t) == t;
    }
  }

  /** What the gateway's observer reads of a block, payload by payload. */
  lemma {:induction false} ObservedFrom(b: Block, v: string) returns (p: string)
    requires UpstreamGroups(b) && NoBareData(b) && v in DataOf(Frames(b), PyStrip)
    ensures p in EventsOf(b) && v == PyStrip(p)
  {
    BlockValues(b, PyStrip);
    SameEvents(b, PyStrip);
    p := StripsFrom(EventsOf(b), v);
  }

  lemma {:induction false} PassingIsForwarded(blocks: seq<Block>, parse: Parser)
    requires ReadsJson(parse) && Readable(blocks) && AllPass(blocks, parse)
    ensures Forwarded(blocks, true, parse) == blocks
  {
    if blocks != [] {
      var b := blocks[0];
      assert b in blocks && forall x :: x in blocks[1..] ==> x in blocks;
      forall v | v in DataOf(Frames(b), PyStrip) ensures Observes(v, parse) {
        var p := ObservedFrom(b, v);
        PassingIsObserved(p, parse);
      }
      PassingIsForwarded(blocks[1..], parse);
    }
  }

  lemma {:induction false} PassingUsage(payload: string, parse: Parser)
    requires ReadsJson(parse) && Passes(payload, parse) && IsUsage(PyStrip(payload), parse)
    ensures JsonTrim(payload) == PyStrip(payload) && ReadJson(PyStrip(payload), parse).Some?
    ensures var value := ReadJson(PyStrip(payload), parse).value; value.Object? && value.error == NoError
  {
    assert PyStrip("[DONE]") == "[DONE]";
    PassingIsObserved(payload, parse);
  }

  lemma {:induction false} PassingUsageIsClean(b: Block, parse: Parser)
    requires ReadsJson(parse) && UpstreamGroups(b) && NoBareData(b) && IsUsageOnly(Frames(b), parse)
    requires forall p :: p in EventsOf(b) ==> Passes(p, parse)
    ensures CleanUsage(b, parse)
  {
    WithheldIsUsage(b, parse);
    forall p | p in EventsOf(b)
      ensures JsonTrim(p) == PyStrip(p) && ReadJson(PyStrip(p), parse).Some?
      ensures ReadJson(PyStrip(p), parse).value.Object? && ReadJson(PyStrip(p), parse).value.error == NoError
    {
      PassingUsage(p, parse);
    }
  }

  /**
   * Blocks that the observer gets through reach the browser whole: whether usage was asked for or not, it answers as if
   * it had read every value upstream sent.
   */
  lemma {:induction false} PassingIsAnswered(blocks: seq<Block>, includeUsage: bool, chunks: seq<string>,
                                             parse: Parser)
    requires ReadsJson(parse) && Readable(blocks) && AllPass(blocks, parse)
    requires Flat(chunks) == Wire(Forwarded(blocks, includeUsage, parse))
    ensures ReadAll(START, EMPTY, chunks, parse).1 == ConsumeAll(EMPTY, EventsOf(Ungroup(blocks)), parse)
  {
    var sent := Forwarded(blocks, includeUsage, parse);
    ForwardedIsRead(blocks, includeUsage, chunks, parse);
    PassingIsForwarded(blocks, parse);
    if !includeUsage {
      forall b | b in blocks && IsUsageOnly(Frames(b), parse) ensures CleanUsage(b, parse) {
        PassingUsageIsClean(b, parse);
      }
      CleanUsageHidesNothing(blocks, parse);
      WithholdingKeepsAnswerExactly(EMPTY, blocks, parse);
    }
  }

  /** Whatever is forwarded, the browser reads the values of those blocks. */
  lemma {:induction false} ForwardedIsRead(blocks: seq<Block>, includeUsage: bool, chunks: seq<string>, parse: Parser)
    requires Readable(blocks) && Flat(chunks) == Wire(Forwarded(blocks, includeUsage, parse))
    ensures ReadAll(START, EMPTY, chunks, parse).1
         == ConsumeAll(EMPTY, EventsOf(Ungroup(Forwarded(blocks, includeUsage, parse))), parse)
  {
    var sent := Forwarded(blocks, includeUsage, parse);
    ForwardedAreBlocks(blocks, includeUsage, parse);
    WireIsFrames(sent);
    SameBlocks(sent);
    DecodeFrames(Ungroup(sent));
    ReadingInChunks(START, EMPTY, chunks, parse);
  }

  /** Nothing but a usage count: usage is given, and there is no choice. */
  ghost predicate OnlyCounts(payload: string, parse: Parser) {
    exists value ::
      && Writes(payload, value, parse) && value.Object? && value.usage.Given?
      && (value.choices == NoChoices || value.choices == Listed([]))
  }

  /** Exactly the blocks of nothing but usage counts are withheld from who did not ask for usage. */
  lemma {:induction false} WithheldExactly(b: Block, later: seq<Block>, includeUsage: bool, parse: Parser)
    requires ReadsJson(parse) && UpstreamGroups(b) && NoBareData(b)
    requires forall p :: p in EventsOf(b) ==> Passes(p, parse)
    ensures
      var withheld := !includeUsage && EventsOf(b) != [] && forall p :: p in EventsOf(b) ==> OnlyCounts(p, parse);
      Forwarded([b] + later, includeUsage, parse)
      == (if withheld then [] else [b]) + Forwarded(later, includeUsage, parse)
  {
    assert ([b] + later)[0] == b && ([b] + later)[1..] == later;
    assert AllPass([b], parse) && forall x :: x in [b] ==> x == b;
    PassingIsForwarded([b], parse);
    forall p | p in EventsOf(b) ensures OnlyCounts(p, parse) <==> IsUsage(PyStrip(p), parse) {
      CountsAreUsage(p, parse);
    }
    BlockValues(b, PyStrip);
    SameEvents(b, PyStrip);
    forall p | p in EventsOf(b) ensures PyStrip(p) in DataOf(Frames(b), PyStrip) {
      StrippedMember(EventsOf(b), p);
    }
    forall v | v in DataOf(Frames(b), PyStrip) ensures exists p :: p in EventsOf(b) && v == PyStrip(p) {
      var p := ObservedFrom(b, v);
    }
    assert DataOf(Frames(b), PyStrip) != [] ==> DataOf(Frames(b), PyStrip)[0] in DataOf(Frames(b), PyStrip);
    assert EventsOf(b) != [] ==> EventsOf(b)[0] in EventsOf(b);
  }

  lemma {:induction false} CountsAreUsage(payload: string, parse: Parser)
    requires ReadsJson(parse) && Passes(payload, parse)
    ensures OnlyCounts(payload, parse) <==> IsUsage(PyStrip(payload), parse)
  {
    if payload == "[DONE]" {
      MarkCountsNothing(parse);
    } else {
      PassingIsObserved(payload, parse);
      assert Solid(PyStrip(payload)) && parse(PyStrip(payload)).Some?;
    }
  }

  lemma {:induction false} MarkCountsNothing(parse: Parser)
    requires ReadsJson(parse)
    ensures !OnlyCounts("[DONE]", parse) && !IsUsage(PyStrip("[DONE]"), parse)
  {
    assert PyStrip("[DONE]") == "[DONE]" && JsonTrim("[DONE]") == "[DONE]";
  }

  /** The gateway ends the stream at a value the observer cannot take: it sends none of its block, nor what follows. */
  lemma {:induction false} ErrorEndsForwarding(blocks: seq<Block>, bad: Block, later: seq<Block>, payload: string,
                                               includeUsage: bool, parse: Parser)
    requires UpstreamGroups(bad) && NoBareData(bad)
    requires payload in EventsOf(bad) && payload == PyStrip(payload) && payload != "[DONE]"
    requires forall value :: Writes(payload, value, parse) ==> !Countable(value)
    ensures Forwarded(blocks + ([bad] + later), includeUsage, parse) == Forwarded(blocks, includeUsage, parse)
  {
    BadIsRefused(bad, payload, parse);
    RefusalEndsForwarding(blocks, bad, later, includeUsage, parse);
  }

  lemma {:induction false} RefusalEndsForwarding(blocks: seq<Block>, bad: Block, later: seq<Block>, includeUsage: bool,
                                                 parse: Parser)
    requires !IsAccepted(Frames(bad), parse)
    ensures Forwarded(blocks + ([bad] + later), includeUsage, parse) == Forwarded(blocks, includeUsage, parse)
    decreases |blocks|
  {
    var all := blocks + ([bad] + later);
    if blocks == [] {
      assert all[0] == bad;
    } else {
      assert all[0] == blocks[0] && all[1..] == blocks[1..] + ([bad] + later);
      RefusalEndsForwarding(blocks[1..], bad, later, includeUsage, parse);
    }
  }

  lemma {:induction false} BadIsRefused(bad: Block, payload: string, parse: Parser)
    requires UpstreamGroups(bad) && NoBareData(bad)
    requires payload in EventsOf(bad) && payload == PyStrip(payload) && payload != "[DONE]"
    requires forall value :: Writes(payload, value, parse) ==> !Countable(value)
    ensures !IsAccepted(Frames(bad), parse)
  {
    BlockValues(bad, PyStrip);
    SameEvents(bad, PyStrip);
    StrippedMember(EventsOf(bad), payload);
    if ReadJson(payload, parse).Some? {
      assert Writes(payload, ReadJson(payload, parse).value, parse);
    }
    assert !Observes(payload, parse);
  }
}
