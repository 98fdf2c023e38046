/**
 The request-body rule: an `application/json` request body must carry an
 `example` or `examples` entry.
 */
module RequireJsonExamples {
  import opened JsValue
  import opened Diagnostics

  const MissingExampleMessage: string := "application/json requestBody must include an example or examples."

  /** Where, below the request body, the diagnostic points. */
  const JsonMediaPath: Path := [Key("content"), Key("application/json")]

  /** The truthy `content["application/json"]` entry of a request body, when there is one. */
  function JsonMedia(input: Value): Option<Value> {
    if input.Obj? && "content" in input.props then
      var content := input.props["content"];
      if content.Obj? && "application/json" in content.props
         && Truthy(content.props["application/json"])
      then Some(content.props["application/json"])
      else None
    else None
  }

  /**
   What the rule produces for `input`. Without a JSON media entry nothing is
   reported. A JSON media entry that is a string, a number or `true` makes
   the `in` operator throw. An object with `example` or `examples` passes; an
   object without them, or an array, gets one diagnostic below the body's path.
   */
  function Findings(input: Value, context: Context): (r: Completion<seq<Diagnostic>>)
    ensures !IsNonNullObject(input) ==> r == Normal([])
    ensures JsonMedia(input).None? ==> r == Normal([])
    ensures r.Normal? ==> |r.value| <= 1
    ensures r.Normal? ==>
      forall d :: d in r.value ==> d == Diagnostic(MissingExampleMessage, context.path + JsonMediaPath)
    ensures r.Abrupt? ==> r.error == TypeError
    ensures r.Abrupt? <==>
      JsonMedia(input).Some? && !(JsonMedia(input).value.Arr? || JsonMedia(input).value.Obj?)
    ensures JsonMedia(input).Some? && JsonMedia(input).value.Arr? ==>
      r == Normal([Diagnostic(MissingExampleMessage, context.path + JsonMediaPath)])
  {
    match JsonMedia(input)
    case None => Normal([])
    case Some(media) =>
      if !(media.Arr? || media.Obj?) then Abrupt(TypeError)
      else if media.Obj? && ("example" in media.props || "examples" in media.props) then Normal([])
      else Normal([Diagnostic(MissingExampleMessage, context.path + JsonMediaPath)])
  }

  /**
   Reading `(input.content || {})["application/json"]` and keeping it when
   truthy finds exactly the JSON media entry.
   */
  lemma JsonContentIsJsonMedia(input: Value)
    requires IsNonNullObject(input)
    ensures var content := if Truthy(Get(input, "content")) then Get(input, "content") else Obj(map[]);
            var media := Get(content, "application/json");
            JsonMedia(input) == if Truthy(media) then Some(media) else None
  {
  }

  /** On an array, `example` and `examples` are never properties. */
  lemma ExampleKeysOfMedia(media: Value)
    requires media.Arr? || media.Obj?
    ensures HasProperty(media, "example") <==> media.Obj? && "example" in media.props
    ensures HasProperty(media, "examples") <==> media.Obj? && "examples" in media.props
  {
  }

  /**
   The rule as the linting engine calls it. `options` is never read. A
   missing or falsy `content` stands for an empty one; the diagnostic's path
   is `context.path` extended by two keys.
   */
  method Rule(input: Value, options: Value, context: Context) returns (outcome: Completion<seq<Diagnostic>>)
    ensures outcome == Findings(input, context)
  {
    var results: seq<Diagnostic> := [];
    if !Truthy(input) || TypeOf(input) != "object" {
      return Normal(results);
    }
    var content := Get(input, "content");
    if !Truthy(content) {
      content := Obj(map[]);
    }
    var jsonContent := Get(content, "application/json");
    JsonContentIsJsonMedia(input);
    if !Truthy(jsonContent) {
      return Normal(results);
    }
    assert JsonMedia(input) == Some(jsonContent);
    var hasExample :- In("example", jsonContent);
    ExampleKeysOfMedia(jsonContent);
    if !hasExample {
      // the first `in` did not throw, so jsonContent is an object and the second cannot
      if !HasProperty(jsonContent, "examples") {
        results := results + [Diagnostic(MissingExampleMessage, context.path + JsonMediaPath)];
      }
    }
    assert results == (if hasExample || HasProperty(jsonContent, "examples") then [] else [Diagnostic(MissingExampleMessage, context.path + JsonMediaPath)]);
    return Normal(results);
  }

  /** The reported path keeps the caller's path as a prefix and adds exactly two keys. */
  lemma DiagnosticPathExtendsContext(input: Value, context: Context, d: Diagnostic)
    requires Findings(input, context).Normal? && d in Findings(input, context).value
    ensures |d.path| == |context.path| + 2
    ensures d.path[..|context.path|] == context.path
    ensures d.path[|context.path|..] == [Key("content"), Key("application/json")]
  {
  }

  /** A missing or falsy `content` reports nothing. */
  lemma FalsyContentPasses(props: map<string, Value>, context: Context)
    requires "content" !in props || !Truthy(props["content"])
    ensures Findings(Obj(props), context) == Normal([])
  {
  }

  /**
   A `content` map without a truthy `application/json` entry reports nothing,
   whatever other media types it lists.
   */
  lemma NoJsonEntryPasses(props: map<string, Value>, content: map<string, Value>, context: Context)
    requires "application/json" !in content || !Truthy(content["application/json"])
    ensures Findings(Obj(props["content" := Obj(content)]), context) == Normal([])
  {
  }

  /** The examples a request body is expected to produce. */
  lemma Examples(context: Context)
    ensures Findings(Obj(map[]), context) == Normal([])
    ensures Findings(Obj(map["content" := Obj(map["text/plain" := Obj(map[])])]), context) == Normal([])
    ensures Findings(Obj(map["content" := Obj(map["application/json" := Obj(map["schema" := Obj(map[])])])]), context)
         == Normal([Diagnostic(MissingExampleMessage, context.path + [Key("content"), Key("application/json")])])
    ensures Findings(Obj(map["content" := Obj(map["application/json" := Obj(map["example" := Obj(map[])])])]), context)
         == Normal([])
  {
  }

  /** Only the `application/json` entry is inspected: other media types never matter. */
  lemma OnlyJsonMediaMatters(props: map<string, Value>, content: map<string, Value>,
                             content': map<string, Value>, context: Context)
    requires ("application/json" in content) == ("application/json" in content')
    requires "application/json" in content ==> content["application/json"] == content'["application/json"]
    ensures Findings(Obj(props["content" := Obj(content)]), context)
         == Findings(Obj(props["content" := Obj(content')]), context)
  {
  }

  /** An `example` or `examples` key on the JSON media object silences the rule. */
  lemma ExampleKeySilences(media: map<string, Value>, rest: map<string, Value>, context: Context)
    requires "example" in media || "examples" in media
    ensures Findings(Obj(rest["content" := Obj(map["application/json" := Obj(media)])]), context)
         == Normal([])
  {
  }

  /** A JSON media object with neither key gets exactly the one diagnostic. */
  lemma MissingExampleReported(media: map<string, Value>, rest: map<string, Value>, context: Context)
    requires "example" !in media && "examples" !in media
    ensures Findings(Obj(rest["content" := Obj(map["application/json" := Obj(media)])]), context)
         == Normal([Diagnostic(MissingExampleMessage, context.path + [Key("content"), Key("application/json")])])
  {
  }

  /** An array as the JSON media entry has neither key, so it gets the one diagnostic. */
  lemma ArrayMediaReported(elems: seq<Value>, rest: map<string, Value>, context: Context)
    ensures Findings(Obj(rest["content" := Obj(map["application/json" := Arr(elems)])]), context)
         == Normal([Diagnostic(MissingExampleMessage, context.path + [Key("content"), Key("application/json")])])
  {
  }

  /** A truthy primitive JSON media entry makes the `in` operator throw. */
  lemma PrimitiveMediaThrows(media: Value, rest: map<string, Value>, context: Context)
    requires Truthy(media) && !(media.Arr? || media.Obj?)
    ensures Findings(Obj(rest["content" := Obj(map["application/json" := media])]), context)
         == Abrupt(TypeError)
  {
  }
}
