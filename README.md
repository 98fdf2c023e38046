# API description linting rules, modelled in Dafny

This project models three custom rule functions for an API-description linting engine.
The engine calls each rule with `(input, options, context)`. Each rule returns a list of
diagnostics `{message, path}`. The rules are:

- `descriptionValidation`: a description must be a string, shorter than 20 characters,
  and made only of ASCII letters and digits. A non-string gets one type diagnostic and
  nothing else. For a string the length check and the character check run independently.
- `noDefaultResponse`: a responses object must not have a `default` key of its own.
- `requireJsonExamples`: a request body whose `content["application/json"]` entry is truthy
  must give that entry an `example` or an `examples` key. The diagnostic points at
  `context.path + ["content", "application/json"]`.

Modules, one file each:

- `JsValue` (`js_value.dfy`): JSON-like values and the JavaScript semantics the rules use.
  This covers truthiness, `typeof`, property access, the `in` operator (which can throw a
  `TypeError`), membership in `Object.keys`, and the decimal rendering of non-negative
  integers. That rendering is used by template literals and by array index keys.
- `Diagnostics` (`diagnostics.dfy`): path segments, the invocation context and the diagnostic record.
- `DescriptionValidation`, `NoDefaultResponse`, `RequireJsonExamples`: the three rules.

The two rules that build a local `results` array and push onto it are methods (`Rule`).
Each is proved equal to a declarative specification function (`Findings`), and the
properties are stated about that function. `noDefaultResponse` only returns array
literals, so it is a function. Every rule takes `options` and never reads it. The
method contracts mention only `input` and `context`, so the result cannot depend on `options`.

The regular expression `/^[A-Za-z0-9]+$/` is modelled by its grammar: one class character
followed by zero or more of them. It is proved equivalent to "non-empty and every character
is an ASCII letter or digit".

The rules' shared contract says a rule never throws; the code does not fully keep it,
and the model follows the code. `requireJsonExamples` applies `in` to the JSON
media entry, and that throws a `TypeError` when the entry is a truthy primitive, for example
`{"content": {"application/json": "x"}}`. The model returns that as the explicit outcome
`Abrupt(TypeError)`. It is not treated as a pass.

## Model

| member | source | states |
|---|---|---|
| `JsValue.Truthy` | functions/requireJsonExamples.js:6-12 | the falsy values are exactly `null`, `undefined`, `false`, `0` and `""`, as `!input`, `input.content \|\| {}` and `!jsonContent` test them |
| `JsValue.TypeOf` | functions/noDefaultResponse.js:3 | `typeof` is "object" exactly for null, arrays and objects, and "string" exactly for strings |
| `JsValue.IsNonNullObject` | functions/requireJsonExamples.js:6 | the guard `input && typeof input === "object"` passes exactly for arrays and objects |
| `JsValue.NatToString` | functions/descriptionValidation.js:16 | the rendering of a number in a template is a non-empty string of decimal digits, one digit for a number below 10, and with no leading zero when it has more than one |
| `JsValue.NatToStringRoundTrip` | functions/descriptionValidation.js:16 | reading the rendered digits back gives the original number |
| `JsValue.NatToStringInjective` | functions/descriptionValidation.js:16 | two numbers render the same exactly when they are equal |
| `JsValue.CanonicalIndexIff` | functions/noDefaultResponse.js:7 | a key names array index `i` exactly when it is the rendering of `i` |
| `JsValue.NonDigitKeyIsNoIndex` | functions/noDefaultResponse.js:7 | a key starting with a non-digit, such as `default`, names no array index |
| `JsValue.IsOwnEnumerableKey` | functions/noDefaultResponse.js:7 | `Object.keys(v).includes(key)` holds for an object exactly when `key` is one of its keys, and for an array exactly when `key` renders one of its indices |
| `JsValue.InThrowsIffNotObject` | functions/requireJsonExamples.js:17 | `key in v` throws exactly on the values the guard `v && typeof v === "object"` rejects |
| `JsValue.InAgreesWithGet` | functions/requireJsonExamples.js:17 | on a JSON array or object, `key in v` holds exactly when reading `v[key]` does not give `undefined` |
| `JsValue.Get` | functions/requireJsonExamples.js:10-11 | reading an own key of an object gives its entry, and of an array the element at the index the key names; reading a key that is neither an own key nor `length` gives `undefined`, as does any read on a boolean or number |
| `JsValue.GetNamedKey` | functions/requireJsonExamples.js:10-11 | reading a named key finds the object's own entry, and `undefined` on strings, numbers, booleans and arrays |
| `DescriptionValidation.ClassStarIffAllAlnum` | functions/descriptionValidation.js:22 | `[A-Za-z0-9]*` matches a string exactly when every character is an ASCII letter or digit |
| `DescriptionValidation.MatchesAlnumPattern` | functions/descriptionValidation.js:22 | `/^[A-Za-z0-9]+$/` accepts exactly the non-empty strings of ASCII letters and digits |
| `DescriptionValidation.MessagesDistinct` | functions/descriptionValidation.js:7-24 | the type, length and character-set messages are pairwise different |
| `DescriptionValidation.TooLongMessageReportsLength` | functions/descriptionValidation.js:16 | the length message determines the length: equal messages mean equal lengths |
| `DescriptionValidation.NotAlphanumericMessageReportsInput` | functions/descriptionValidation.js:24 | the character-set message determines the offending input |
| `DescriptionValidation.Findings` | functions/descriptionValidation.js:2-30 | a non-string gets exactly the type diagnostic; a string gets at most two diagnostics and never the type one; the length diagnostic appears iff the length is at least 20; the character-set diagnostic appears iff the regular expression rejects the string; with two diagnostics the length one comes first; every path is `context.path` |
| `DescriptionValidation.Rule` | functions/descriptionValidation.js:2-30 | the accumulate-and-return procedure yields exactly `Findings`, whatever `options` is |
| `DescriptionValidation.StringPassesIff` | functions/descriptionValidation.js:13-29 | a string passes exactly when it has 1 to 19 characters, all ASCII letters or digits |
| `DescriptionValidation.LengthBoundary` | functions/descriptionValidation.js:14 | 19 alphanumeric characters pass; 20 get exactly the length diagnostic, reporting 20 |
| `DescriptionValidation.BothChecksReport` | functions/descriptionValidation.js:13-27 | a 26-character string with hyphens gets both diagnostics, length first |
| `DescriptionValidation.EmptyStringFindings` | functions/descriptionValidation.js:22-27 | the empty string gets only the character-set diagnostic |
| `DescriptionValidation.TrailingNewlineRejected` | functions/descriptionValidation.js:22 | `$` does not accept a trailing newline |
| `NoDefaultResponse.Rule` | functions/noDefaultResponse.js:2-17 | at most one diagnostic; one exactly when `input` is an object with an own key `default` (never for arrays or primitives); that diagnostic has the fixed message and path `context.path` |
| `NoDefaultResponse.OnlyTopLevelKeysMatter` | functions/noDefaultResponse.js:7 | two objects with the same top-level keys give the same result, whatever their values and options |
| `NoDefaultResponse.Examples` | functions/noDefaultResponse.js:3-16 | null, a string, an array and a `default` nested one level down pass; `{"200", "default"}` gets the one diagnostic |
| `RequireJsonExamples.Findings` | functions/requireJsonExamples.js:2-25 | a falsy or non-object input passes; a body without a truthy `application/json` entry in an object `content` passes; a normal result has at most one diagnostic, with the fixed message and path `context.path + ["content", "application/json"]`; the rule throws exactly when the JSON media entry is a truthy primitive, and the throw is a TypeError; an array as the JSON media entry gets exactly the one diagnostic |
| `RequireJsonExamples.JsonContentIsJsonMedia` | functions/requireJsonExamples.js:10-14 | `(input.content \|\| {})["application/json"]`, kept only when truthy, is exactly the JSON media entry |
| `RequireJsonExamples.ExampleKeysOfMedia` | functions/requireJsonExamples.js:17 | on the JSON media entry, `example` and `examples` are properties only of an object that has them as keys |
| `RequireJsonExamples.Rule` | functions/requireJsonExamples.js:2-25 | the procedure, including its early returns and the TypeError of `in`, yields exactly `Findings`, whatever `options` is |
| `RequireJsonExamples.DiagnosticPathExtendsContext` | functions/requireJsonExamples.js:20 | a reported path keeps `context.path` as a prefix and is exactly two keys longer |
| `RequireJsonExamples.FalsyContentPasses` | functions/requireJsonExamples.js:10-14 | a missing or falsy `content` reports nothing |
| `RequireJsonExamples.NoJsonEntryPasses` | functions/requireJsonExamples.js:11-13 | a `content` map without a truthy `application/json` entry reports nothing, whatever other media types it lists |
| `RequireJsonExamples.Examples` | functions/requireJsonExamples.js:6-22 | `{}` and a `text/plain`-only body pass; a JSON media object with only a `schema` gets the one diagnostic; one with an `example` passes |
| `RequireJsonExamples.OnlyJsonMediaMatters` | functions/requireJsonExamples.js:11-14 | content maps that agree on `application/json` give the same result, so other media types are never inspected |
| `RequireJsonExamples.ExampleKeySilences` | functions/requireJsonExamples.js:17 | a JSON media object with `example` or `examples` passes |
| `RequireJsonExamples.MissingExampleReported` | functions/requireJsonExamples.js:17-22 | a JSON media object with neither key gets exactly the one diagnostic |
| `RequireJsonExamples.ArrayMediaReported` | functions/requireJsonExamples.js:17-21 | an array as the JSON media entry does not throw and gets exactly the one diagnostic |
| `RequireJsonExamples.PrimitiveMediaThrows` | functions/requireJsonExamples.js:17 | a truthy string, number or `true` as the JSON media entry makes the rule throw a TypeError |

## Left out

- The host linting engine: document parsing, node selection, rule registration, severities and output. None of it is in these files.
- JavaScript numbers beyond integers: floating point and NaN are not modelled. NaN would be falsy like 0.
- String length counts UTF-16 code units in JavaScript. Here it is the length of a Dafny `seq<char>`.
- Prototype chains. Objects are finite maps of own properties. This matters for neither lookup here: no built-in prototype property is named `content`, `application/json`, `example`, `examples` or `default`.
- Value kinds that JSON cannot hold (functions, symbols, big integers) are not modelled.
- `context.path` is assumed to be a sequence, as the rules dereference it unguarded. Its elements are modelled as keys and non-negative indices.
- Sharing of the path array. Paths are values here, so it is not modelled that `descriptionValidation` and `noDefaultResponse` return `context.path` itself, the same array, while `requireJsonExamples` builds a new one.
- The regular-expression engine: only the one pattern the description rule uses is modelled, through its grammar.
