/**
 The responses rule: a responses object must list explicit status codes and
 not a `default` response.
 */
module NoDefaultResponse {
  import opened JsValue
  import opened Diagnostics

  const DefaultMessage: string := "Avoid 'default' response; use explicit status codes."

  /**
   The rule as the linting engine calls it. `options` is never read. Anything
   that is not a non-null object passes; otherwise it reports one diagnostic
   exactly when `default` is one of the object's own keys.
   */
  function Rule(input: Value, options: Value, context: Context): (r: seq<Diagnostic>)
    ensures |r| <= 1
    ensures r != [] <==> input.Obj? && "default" in input.props
    ensures forall d :: d in r ==> d == Diagnostic(DefaultMessage, context.path)
  {
    NonDigitKeyIsNoIndex("default");
    if !Truthy(input) || TypeOf(input) != "object" then []
    else if IsOwnEnumerableKey(input, "default") then
      [Diagnostic(DefaultMessage, context.path)]
    else []
  }

  /**
   The check is shallow: the result depends only on the top-level key set,
   so the values (and any `default` nested inside them) never matter.
   */
  lemma OnlyTopLevelKeysMatter(m: map<string, Value>, m': map<string, Value>,
                               options: Value, options': Value, context: Context)
    requires m.Keys == m'.Keys
    ensures Rule(Obj(m), options, context) == Rule(Obj(m'), options', context)
  {
  }

  /** The examples a responses object is expected to produce. */
  lemma Examples(options: Value, context: Context)
    ensures Rule(Null, options, context) == []
    ensures Rule(Str("x"), options, context) == []
    ensures Rule(Arr([Obj(map["default" := Null])]), options, context) == []
    ensures Rule(Obj(map["200" := Obj(map[]), "default" := Obj(map[])]), options, context)
      == [Diagnostic(DefaultMessage, context.path)]
    ensures Rule(Obj(map["200" := Obj(map["default" := Obj(map[])])]), options, context) == []
  {
  }
}
