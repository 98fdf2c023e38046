/**
 The description rule: a description must be a string shorter than 20
 characters made only of ASCII letters and digits.
 */
module DescriptionValidation {
  import opened JsValue
  import opened Diagnostics

  /** Descriptions must be strictly shorter than this. */
  const MaxLength: nat := 20

  const NotStringMessage: string := "Description must be a string."

  function TooLongMessage(length: nat): string {
    "Description is too long (" + NatToString(length) + " chars). Must be < 20."
  }

  function NotAlphanumericMessage(found: string): string {
    "Description must be alphanumeric only. Found: \"" + found + "\""
  }

  predicate IsAsciiAlnum(c: char) {
    'A' <= c <= 'Z' || 'a' <= c <= 'z' || '0' <= c <= '9'
  }

  predicate AllAsciiAlnum(s: string) {
    forall i :: 0 <= i < |s| ==> IsAsciiAlnum(s[i])
  }

  /** The language of `[A-Za-z0-9]*`: empty, or one class character followed by more. */
  predicate MatchesClassStar(s: string) {
    s == [] || (IsAsciiAlnum(s[0]) && MatchesClassStar(s[1..]))
  }

  /**
   `/^[A-Za-z0-9]+$/.test(s)`: the anchors make the match cover the whole
   string, and `x+` is `x` followed by `x*`. Without the `m` flag `$` matches
   only at the very end, so a trailing newline is not accepted.
   */
  predicate MatchesAlnumPattern(s: string): (b: bool)
    ensures b <==> |s| > 0 && AllAsciiAlnum(s)
  {
    if |s| > 0 then
      ClassStarIffAllAlnum(s[1..]);
      assert forall i :: 1 <= i < |s| ==> s[i] == s[1..][i - 1];
      IsAsciiAlnum(s[0]) && MatchesClassStar(s[1..])
    else false
  }

  lemma {:induction false} ClassStarIffAllAlnum(s: string)
    ensures MatchesClassStar(s) <==> AllAsciiAlnum(s)
  {
    if s != [] {
      ClassStarIffAllAlnum(s[1..]);
      assert forall i :: 1 <= i < |s| ==> s[i] == s[1..][i - 1];
    }
  }

  /** The three messages can never be confused with one another. */
  lemma MessagesDistinct(length: nat, found: string)
    ensures TooLongMessage(length) != NotAlphanumericMessage(found)
    ensures TooLongMessage(length) != NotStringMessage
    ensures NotAlphanumericMessage(found) != NotStringMessage
  {
    assert TooLongMessage(length)[12] == 'i';
    assert NotAlphanumericMessage(found)[12] == 'm';
    assert NotStringMessage[12] == 'm';
    assert NotAlphanumericMessage(found)[21] == 'l';
    assert NotStringMessage[21] == ' ';
  }

  /** The length message tells the lengths apart: it embeds the actual length. */
  lemma {:induction false} TooLongMessageReportsLength(m: nat, n: nat)
    ensures TooLongMessage(m) == TooLongMessage(n) <==> m == n
  {
    if TooLongMessage(m) == TooLongMessage(n) {
      var prefix, suffix := "Description is too long (", " chars). Must be < 20.";
      var a, b := NatToString(m), NatToString(n);
      assert prefix + a + suffix == prefix + b + suffix;
      assert |a| == |b|;
      assert forall i :: 0 <= i < |a| ==> a[i] == (prefix + a + suffix)[|prefix| + i];
      assert a == b;
      NatToStringInjective(m, n);
    }
  }

  /** The alphanumeric message tells the inputs apart: it embeds the offending string. */
  lemma {:induction false} NotAlphanumericMessageReportsInput(s: string, t: string)
    ensures NotAlphanumericMessage(s) == NotAlphanumericMessage(t) <==> s == t
  {
    if NotAlphanumericMessage(s) == NotAlphanumericMessage(t) {
      var prefix := "Description must be alphanumeric only. Found: \"";
      assert |s| == |t|;
      assert forall i :: 0 <= i < |s| ==> s[i] == NotAlphanumericMessage(s)[|prefix| + i];
    }
  }

  /**
   The diagnostics the rule reports for `input`: a type mismatch alone for a
   non-string, otherwise the length finding and then the character-set finding,
   each present when its check fails.
   */
  function Findings(input: Value, context: Context): (r: seq<Diagnostic>)
    ensures !input.Str? ==> r == [Diagnostic(NotStringMessage, context.path)]
    ensures input.Str? ==> |r| <= 2 && Diagnostic(NotStringMessage, context.path) !in r
    ensures forall d :: d in r ==> d.path == context.path
    ensures input.Str? ==>
      (Diagnostic(TooLongMessage(|input.s|), context.path) in r <==> |input.s| >= MaxLength)
    ensures input.Str? ==>
      (Diagnostic(NotAlphanumericMessage(input.s), context.path) in r <==> !MatchesAlnumPattern(input.s))
    ensures input.Str? && |r| == 2 ==>
      r[0].message == TooLongMessage(|input.s|) && r[1].message == NotAlphanumericMessage(input.s)
  {
    if !input.Str? then
      [Diagnostic(NotStringMessage, context.path)]
    else
      var s := input.s;
      MessagesDistinct(|s|, s);
      (if |s| >= MaxLength then [Diagnostic(TooLongMessage(|s|), context.path)] else [])
      + (if |s| > 0 && AllAsciiAlnum(s) then [] else [Diagnostic(NotAlphanumericMessage(s), context.path)])
  }

  /**
   The rule as the linting engine calls it. `options` is never read. It
   collects findings into a local list, stopping after the type check.
   */
  method Rule(input: Value, options: Value, context: Context) returns (results: seq<Diagnostic>)
    ensures results == Findings(input, context)
  {
    results := [];
    if TypeOf(input) != "string" {
      results := results + [Diagnostic(NotStringMessage, context.path)];
      return;
    }
    if |input.s| >= MaxLength {
      results := results + [Diagnostic(TooLongMessage(|input.s|), context.path)];
    }
    if !MatchesAlnumPattern(input.s) {
      results := results + [Diagnostic(NotAlphanumericMessage(input.s), context.path)];
    }
  }

  /** A string input passes exactly when it has 1 to 19 ASCII letters and digits. */
  lemma StringPassesIff(s: string, context: Context)
    ensures Findings(Str(s), context) == [] <==> 0 < |s| < MaxLength && AllAsciiAlnum(s)
  {
  }

  /** The length check's boundary: 19 characters pass it, 20 fail it. */
  lemma LengthBoundary(context: Context)
    ensures Findings(Str("abcdefghijklmnopqrs"), context) == []
    ensures Findings(Str("abcdefghijklmnopqrst"), context)
      == [Diagnostic(TooLongMessage(20), context.path)]
  {
    assert AllAsciiAlnum("abcdefghijklmnopqrs");
    assert AllAsciiAlnum("abcdefghijklmnopqrst");
  }

  /** Both checks run: a long string with a hyphen gets both findings, length first. */
  lemma BothChecksReport(context: Context)
    ensures Findings(Str("an-overly-long-description"), context)
      == [Diagnostic(TooLongMessage(26), context.path),
          Diagnostic(NotAlphanumericMessage("an-overly-long-description"), context.path)]
  {
    assert !IsAsciiAlnum("an-overly-long-description"[2]);
  }

  /** The empty string fails the character-set check only. */
  lemma EmptyStringFindings(context: Context)
    ensures Findings(Str(""), context) == [Diagnostic(NotAlphanumericMessage(""), context.path)]
  {
  }

  /** A trailing newline is not accepted by `$`. */
  lemma TrailingNewlineRejected(context: Context)
    ensures Findings(Str("abc\n"), context) == [Diagnostic(NotAlphanumericMessage("abc\n"), context.path)]
  {
  }
}
