/**
 * Patterns: the per-track sequence of transpositions and control tokens, and
 * the "Set Pattern" handler's text handling in EasyLoop (validation of the
 * typed text, the rebuild of the stored pattern, and the text shown for it).
 */
module Patterns {
  import opened JavaLang

  const MIN_TRANSPOSE: int := -60
  const MAX_TRANSPOSE: int := 60

  /** One pattern entry: an Integer (semitones) or one of the control Strings. */
  datatype Step = Pitch(semitones: int) | Rest | Hold | Layer

  const REST: string := "!"
  const HOLD: string := ">"
  const LAYER: string := "|"

  predicate IsControl(s: string) {
    s == REST || s == HOLD || s == LAYER
  }

  function ControlStep(s: string): (x: Step)
    requires IsControl(s)
    ensures !x.Pitch? && StepText(x) == s
  {
    if s == REST then Rest else if s == HOLD then Hold else Layer
  }

  /** What `"" + entry` prints for a pattern entry. */
  function StepText(x: Step): string {
    match x
    case Pitch(n) => IntToString(n)
    case Rest => REST
    case Hold => HOLD
    case Layer => LAYER
  }

  function StepTexts(p: seq<Step>): (r: seq<string>)
    ensures |r| == |p| && forall i :: 0 <= i < |p| ==> r[i] == StepText(p[i])
  {
    seq(|p|, i requires 0 <= i < |p| => StepText(p[i]))
  }

  /** Every transposition of the pattern is within [-60, 60]. */
  predicate InRange(p: seq<Step>) {
    forall i :: 0 <= i < |p| && p[i].Pitch? ==> MIN_TRANSPOSE <= p[i].semitones <= MAX_TRANSPOSE
  }

  /** Every transposition of the pattern is a Java int. */
  predicate Int32Steps(p: seq<Step>) {
    forall i :: 0 <= i < |p| && p[i].Pitch? ==> IsInt32(p[i].semitones)
  }

  /** A token the "Set Pattern" handler accepts: a control token or an int in [-60, 60]. */
  predicate ValidToken(s: string) {
    IsControl(s) || (ParseInt(s).Some? && MIN_TRANSPOSE <= ParseInt(s).value <= MAX_TRANSPOSE)
  }

  /** A token that becomes an entry: a control token or any text Integer.parseInt accepts. */
  predicate ParsableToken(s: string) {
    IsControl(s) || ParseInt(s).Some?
  }

  function TokenStep(s: string): Step
    requires ParsableToken(s)
  {
    if IsControl(s) then ControlStep(s) else Pitch(ParseInt(s).value)
  }

  /** The entries the tokens become, in order. */
  function TokenSteps(tokens: seq<string>): (p: seq<Step>)
    requires forall i :: 0 <= i < |tokens| ==> ParsableToken(tokens[i])
    ensures |p| == |tokens|
  {
    if tokens == [] then [] else TokenSteps(tokens[..|tokens| - 1]) + [TokenStep(tokens[|tokens| - 1])]
  }

  /** Each entry is its own token's. */
  lemma {:induction false} TokenStepsAt(tokens: seq<string>)
    requires forall i :: 0 <= i < |tokens| ==> ParsableToken(tokens[i])
    ensures forall i :: 0 <= i < |tokens| ==> TokenSteps(tokens)[i] == TokenStep(tokens[i])
  {
    if tokens != [] {
      TokenStepsAt(tokens[..|tokens| - 1]);
    }
  }

  /**
   * load's reading of a pattern's tokens: each becomes its entry, and the
   * first that is neither a control token nor an int fails them all.
   */
  function ParseTokens(tokens: seq<string>): (r: Option<seq<Step>>)
    ensures r.Some? ==> |r.value| == |tokens| && Int32Steps(r.value)
  {
    if tokens == [] then Some([])
    else
      var last := tokens[|tokens| - 1];
      match ParseTokens(tokens[..|tokens| - 1])
      case None => None
      case Some(p) => if ParsableToken(last) then Some(p + [TokenStep(last)]) else None
  }

  /** The tokens parse exactly when each is parsable, and then into their entries. */
  lemma {:induction false} ParseTokensAll(tokens: seq<string>)
    ensures ParseTokens(tokens).Some? <==> forall i :: 0 <= i < |tokens| ==> ParsableToken(tokens[i])
    ensures ParseTokens(tokens).Some? ==> forall i :: 0 <= i < |tokens| ==> ParseTokens(tokens).value[i] == TokenStep(tokens[i])
  {
    if tokens != [] {
      var init := tokens[..|tokens| - 1];
      ParseTokensAll(init);
      assert forall i :: 0 <= i < |init| ==> init[i] == tokens[i];
    }
  }

  /** Tokens that are all parsable read as the entries the "Set Pattern" handler builds from them. */
  lemma {:induction false} ParseTokensSteps(tokens: seq<string>)
    requires forall i :: 0 <= i < |tokens| ==> ParsableToken(tokens[i])
    ensures ParseTokens(tokens) == Some(TokenSteps(tokens))
  {
    if tokens != [] {
      ParseTokensSteps(tokens[..|tokens| - 1]);
    }
  }

  /** The tokens the handler reads out of the dialog text. */
  function PatternTokens(text: string): seq<string> {
    Split(text, ' ')
  }

  /**
   * The "Set Pattern" acceptance test exactly as the handler writes it: a
   * cancelled dialog (null) is refused, and so is any token that is neither a
   * control token nor an integer in range; an empty token list passes.
   */
  function ParsePatternAsWritten(input: Option<string>): Option<seq<Step>> {
    if input.None? then None
    else
      var tokens := PatternTokens(input.value);
      if forall i :: 0 <= i < |tokens| ==> ValidToken(tokens[i]) then Some(TokenSteps(tokens)) else None
  }

  /**
   * The acceptance test the rest of the model uses: as written, except that
   * text made of spaces only, which splits into no tokens at all, is refused.
   */
  function ParsePattern(input: Option<string>): (r: Option<seq<Step>>)
    ensures r.Some? ==> |r.value| >= 1 && InRange(r.value) && Int32Steps(r.value)
    ensures r.Some? ==> ParsePatternAsWritten(input) == r
  {
    match ParsePatternAsWritten(input)
    case None => None
    case Some(p) =>
      TokenStepsAt(PatternTokens(input.value));
      if |p| == 0 then None else Some(p)
  }

  /** The text the dialog is pre-filled with: every entry followed by a space. */
  function PatternText(p: seq<Step>): string {
    Terminated(StepTexts(p), ' ')
  }

  /**
   * The pattern label: the tokens as typed, each followed by a space, after the
   * given prefix (" " in Set Pattern, "" in load), and then every " | "
   * collapsed to "|".
   */
  function Display(prefix: string, tokens: seq<string>): string {
    Replace(prefix + Terminated(tokens, ' '), " | ", "|")
  }

  // ---------------------------------------------------------------------
  // The handler's loops
  // ---------------------------------------------------------------------

  /** The validation loop: stops at the first refused token. */
  method ValidateTokens(tokens: seq<string>) returns (pass: bool)
    ensures pass <==> forall i :: 0 <= i < |tokens| ==> ValidToken(tokens[i])
  {
    pass := true;
    var i := 0;
    while i < |tokens|
      invariant 0 <= i <= |tokens|
      invariant forall j :: 0 <= j < i ==> ValidToken(tokens[j])
    {
      var s := tokens[i];
      if !IsControl(s) {
        var n := ParseInt(s);
        if n.None? || n.value < MIN_TRANSPOSE || n.value > MAX_TRANSPOSE {
          pass := false;
          break;
        }
      }
      i := i + 1;
    }
  }

  /**
   * The rebuild loop (Set Pattern, and load's pattern loop): each token
   * becomes an entry and is written to the label text after `prefix`,
   * followed by a space. A token that is neither a control token nor an
   * integer is a NumberFormatException (None).
   */
  method ReadSteps(tokens: seq<string>, prefix: string) returns (r: Option<(seq<Step>, string)>)
    ensures r.Some? <==> forall i :: 0 <= i < |tokens| ==> ParsableToken(tokens[i])
    ensures r.Some? ==> r.value.0 == TokenSteps(tokens) && r.value.1 == prefix + Terminated(tokens, ' ')
  {
    var p, text := [], prefix;
    var i := 0;
    while i < |tokens|
      invariant 0 <= i <= |tokens|
      invariant forall j :: 0 <= j < i ==> ParsableToken(tokens[j])
      invariant p == TokenSteps(tokens[..i])
      invariant text == prefix + Terminated(tokens[..i], ' ')
    {
      var s := tokens[i];
      if !IsControl(s) {
        var n := ParseInt(s);
        if n.None? {
          return None;
        }
        p := p + [Pitch(n.value)];
      } else {
        p := p + [ControlStep(s)];
      }
      text := text + s + " ";
      assert tokens[..i + 1][..i] == tokens[..i];
      i := i + 1;
    }
    assert tokens[..i] == tokens;
    r := Some((p, text));
  }

  // ---------------------------------------------------------------------
  // Properties
  // ---------------------------------------------------------------------

  /** An accepted pattern holds exactly the typed tokens, in order. */
  lemma ParsePatternContents(text: string)
    requires ParsePattern(Some(text)).Some?
    ensures var p := ParsePattern(Some(text)).value; var tokens := PatternTokens(text);
      |p| == |tokens| >= 1 &&
      forall i :: 0 <= i < |p| ==>
        (IsControl(tokens[i]) ==> p[i] == ControlStep(tokens[i])) &&
        (!IsControl(tokens[i]) ==> p[i] == Pitch(ParseInt(tokens[i]).value))
  {
    TokenStepsAt(PatternTokens(text));
  }

  /** Acceptance is exactly: some token, and every token valid. */
  lemma ParsePatternAccepts(text: string)
    ensures ParsePattern(Some(text)).Some? <==>
      |PatternTokens(text)| >= 1 && forall i :: 0 <= i < |PatternTokens(text)| ==> ValidToken(PatternTokens(text)[i])
  {
  }

  lemma StepTextProperties(x: Step)
    requires x.Pitch? ==> IsInt32(x.semitones)
    ensures |StepText(x)| >= 1 && ' ' !in StepText(x) && ',' !in StepText(x) && '@' !in StepText(x)
    ensures ParsableToken(StepText(x)) && TokenStep(StepText(x)) == x
  {
    if x.Pitch? {
      var n := x.semitones;
      var s := IntToString(n);
      IntToStringRoundTrip(n);
      assert s[0] == '-' || IsDigit(s[0]);
      assert !IsControl(s);
      if n < 0 {
        assert forall i :: 1 <= i < |s| ==> s[i] == NatToString(-n)[i - 1];
      }
    }
  }

  /** Each entry's text is one token without delimiters, and the tokens read back as the entries. */
  lemma StepTextsRead(p: seq<Step>)
    requires Int32Steps(p)
    ensures var texts := StepTexts(p);
      (forall i :: 0 <= i < |texts| ==>
        |texts[i]| >= 1 && ' ' !in texts[i] && ',' !in texts[i] && '@' !in texts[i] && ParsableToken(texts[i])) &&
      TokenSteps(texts) == p
  {
    var texts := StepTexts(p);
    forall i | 0 <= i < |p|
      ensures |texts[i]| >= 1 && ' ' !in texts[i] && ',' !in texts[i] && '@' !in texts[i]
      ensures ParsableToken(texts[i]) && TokenStep(texts[i]) == p[i]
    {
      StepTextProperties(p[i]);
    }
    TokenStepsAt(texts);
    assert TokenSteps(texts) == p;
  }

  /** Confirming the pre-filled text unchanged gives back the pattern in force. */
  lemma PrefillRoundTrip(p: seq<Step>)
    requires |p| >= 1 && InRange(p)
    ensures ParsePattern(Some(PatternText(p))) == Some(p)
  {
    assert Int32Steps(p);
    StepTextsRead(p);
    SplitTerminated(StepTexts(p), ' ');
    StepTextsValid(p);
  }

  /** The text of an entry in range passes the handler's check. */
  lemma StepTextsValid(p: seq<Step>)
    requires InRange(p)
    ensures forall i :: 0 <= i < |p| ==> ValidToken(StepTexts(p)[i])
  {
    var texts := StepTexts(p);
    forall i | 0 <= i < |p| ensures ValidToken(texts[i]) {
      if !IsControl(texts[i]) {
        assert p[i].Pitch?;
        IntToStringRoundTrip(p[i].semitones);
      }
    }
  }

  /** The text keeps every character of the tokens in order; only spaces go. */
  lemma DisplayKeepsTokens(prefix: string, tokens: seq<string>)
    requires forall i :: 0 <= i < |tokens| ==> ' ' !in tokens[i]
    ensures NonSpace(Display(prefix, tokens)) == NonSpace(prefix) + Concat(tokens)
  {
    ReplaceKeepsNonSpace(prefix + Terminated(tokens, ' '), " | ", "|");
    NonSpaceAppend(prefix, Terminated(tokens, ' '));
    NonSpaceTerminated(tokens);
  }

  lemma DisplayExample()
    ensures Display(" ", ["5", "|", "-3"]) == " 5|-3 "
  {
    TerminatedExample();
    ReplaceExample();
  }

  lemma TerminatedExample()
    ensures " " + Terminated(["5", "|", "-3"], ' ') == " 5 | -3 "
  {
    var t := ["5", "|", "-3"];
    assert t[..2] == ["5", "|"];
    assert ["5", "|"][..1] == ["5"];
    assert ["5"][..0] == [];
    assert Terminated(["5"], ' ') == "5 ";
    assert Terminated(["5", "|"], ' ') == "5 | ";
  }

  lemma ReplaceExample()
    ensures Replace(" 5 | -3 ", " | ", "|") == " 5|-3 "
  {
    var s := " 5 | -3 ";
    assert s[..3] != " | " by { assert s[..3][1] != " | "[1]; }
    assert s[1..] == "5 | -3 ";
    assert "5 | -3 "[..3] != " | " by { assert "5 | -3 "[..3][1] != " | "[1]; }
    assert "5 | -3 "[1..] == " | -3 ";
    assert " | -3 "[..3] == " | ";
    assert " | -3 "[3..] == "-3 ";
    assert "-3 "[..3] != " | " by { assert "-3 "[..3][0] != " | "[0]; }
    assert "-3 "[1..] == "3 ";
  }

  /**
   * Text made of spaces only passes the handler's check as written and
   * empties the pattern, after which reading its first entry fails; the
   * corrected check refuses it.
   */
  lemma SpacesOnlyAccepted()
    ensures ParsePatternAsWritten(Some(" ")) == Some([])
    ensures ParsePattern(Some(" ")) == None
    ensures ParsePatternAsWritten(Some("")) == None
  {
    assert ' ' in " ";
    assert SplitAll(" "[1..], ' ') == [""];
    assert SplitAll(" ", ' ') == ["", ""];
    assert DropTrailingEmpty(["", ""][..1]) == [];
    assert PatternTokens(" ") == [];
    assert PatternTokens("") == [""];
  }
}
