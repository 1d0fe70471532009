/** The JSON of a stream's chunks, as the gateway's observer, its usage filter and the browser each read it. */
module StreamChunks {
  import opened Wrappers
  import opened Whitespace

  // ---------- parsed chunks ----------

  datatype ErrorField = NoError | NullError | SomeError

  /** `content` is there if the choice has a delta object whose content is a string. */
  datatype Choice = NotADict | Dict(content: Option<string>)

  /** `NoChoices` is absent, or any value Python takes for false; `OtherChoices` is any other value that is no array. */
  datatype Choices = NoChoices | Listed(choices: seq<Choice>) | OtherChoices

  /** `NoUsage` is absent or null; `countable` says whether the token counts can be read as integers. */
  datatype Usage = NoUsage | Given(countable: bool)

  datatype JsonValue = Scalar | Array | Object(error: ErrorField, choices: Choices, usage: Usage)

  /** From a JSON text without surrounding white space to its value. Both sides parse alike. */
  type Parser = string -> Option<JsonValue>

  /** A JSON text begins and ends with a character that is blank in no language, and the end mark is not one. */
  ghost predicate ReadsJson(parse: Parser) {
    && (forall text :: parse(text).Some? ==> Solid(text))
    && parse("[DONE]").None?
  }

  function ReadJson(data: string, parse: Parser): Option<JsonValue> {
    parse(JsonTrim(data))
  }

  // ---------- main.py: _StreamObservation.consume and _is_usage_only_event, on one value ----------

  predicate ChoicesIterate(c: Choices) {
    match c
    case NoChoices => true
    case Listed(choices) => forall choice :: choice in choices ==> choice.Dict?
    case OtherChoices => false
  }

  /** Does the observer get through this value without raising? */
  predicate Observes(data: string, parse: Parser) {
    data == "[DONE]" ||
    match ReadJson(data, parse)
    case Some(Object(error, choices, usage)) => !error.SomeError? && usage != Given(false) && ChoicesIterate(choices)
    case _ => false
  }

  predicate IsUsage(data: string, parse: Parser) {
    && data != "" && data != "[DONE]"
    && match ReadJson(data, parse)
       case Some(Object(_, choices, usage)) => (choices.NoChoices? || choices == Listed([])) && usage.Given?
       case _ => false
  }

  // ---------- gateway-client.ts: consumeData, on one value ----------

  /** `Broken` makes the browser throw; otherwise these are the contents of the choices, where there is one. */
  datatype BrowserReading = Broken | Texts(texts: seq<Option<string>>)

  function ContentsOf(choices: seq<Choice>): seq<Option<string>> {
    if choices == [] then []
    else [if choices[0].Dict? then choices[0].content else None] + ContentsOf(choices[1..])
  }

  function BrowserReads(data: string, parse: Parser): BrowserReading {
    match ReadJson(data, parse)
    case None => Broken
    case Some(Scalar) => Broken
    case Some(Array) => Texts([])
    case Some(Object(error, choices, _)) =>
      if error != NoError then Broken else Texts(if choices.Listed? then ContentsOf(choices.choices) else [])
  }

  predicate IsEndMark(data: string) {
    JsTrim(data) == "[DONE]"
  }

  // ---------- the two languages on one value ----------

  /** The gateway strips a value before it parses it; the browser does not. */
  lemma {:induction false} ReadingAfterStrip(data: string, parse: Parser)
    requires ReadsJson(parse) && ReadJson(PyStrip(data), parse).Some?
    ensures ReadJson(data, parse) == if JsonTrim(data) == PyStrip(data) then ReadJson(PyStrip(data), parse) else None
    ensures !IsEndMark(data)
  {
    var t := PyStrip(data);
    var left, right := TrimParts(data, IsPySpace);
    assert JsonTrim("") == "" && t != "";
    assert JsonTrim(t) == t && Solid(t);
    if ReadJson(data, parse).Some? {
      SolidIsUnique(data, IsJsonSpace, IsPySpace);
    }
    if IsEndMark(data) {
      assert Solid(JsTrim(data));
      SolidIsUnique(data, IsJsSpace, IsPySpace);
    }
  }

  /**
   * The browser reads a usage-only value without a word exactly if the object has no `error` key, not even a null one,
   * and only JSON's own white space surrounds it. Otherwise it throws.
   */
  lemma {:induction false} UsageReadExactly(data: string, parse: Parser)
    requires ReadsJson(parse) && IsUsage(PyStrip(data), parse)
    ensures !IsEndMark(data) && BrowserReads(data, parse) in {Broken, Texts([])}
    ensures BrowserReads(data, parse).Texts? <==>
            ReadJson(PyStrip(data), parse).value.error == NoError && JsonTrim(data) == PyStrip(data)
  {
    ReadingAfterStrip(data, parse);
  }
}
