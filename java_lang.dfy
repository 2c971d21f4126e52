/**
 * The few pieces of java.lang that the sequencer's text handling depends on:
 * 32-bit int arithmetic, Integer.parseInt / Integer.toString, String.split
 * with a one-character delimiter, String.replace, and the regular-expression
 * String.replaceAll(".wav", "") that AudioTrack.setTrack applies to file names.
 */
module JavaLang {

  datatype Option<+T> = None | Some(value: T)

  const MIN_INT: int := -0x8000_0000
  const MAX_INT: int := 0x7fff_ffff
  const TWO_32: int := 0x1_0000_0000

  predicate IsInt32(x: int) {
    MIN_INT <= x <= MAX_INT
  }

  /** The value Java's 32-bit int arithmetic keeps of the mathematical result x. */
  function Wrap32(x: int): (r: int)
    ensures IsInt32(r)
    ensures IsInt32(x) ==> r == x
    ensures (r - x) % TWO_32 == 0
  {
    (x - MIN_INT) % TWO_32 + MIN_INT
  }

  // ---------------------------------------------------------------------
  // Integer.toString and Integer.parseInt (decimal, ASCII digits)
  // ---------------------------------------------------------------------

  predicate IsDigit(c: char) {
    '0' <= c <= '9'
  }

  predicate AllDigits(s: string) {
    forall i :: 0 <= i < |s| ==> IsDigit(s[i])
  }

  function DigitChar(d: nat): (c: char)
    requires d < 10
    ensures IsDigit(c)
  {
    ('0' as int + d) as char
  }

  function DigitValue(c: char): (d: nat)
    requires IsDigit(c)
    ensures d < 10
  {
    c as int - '0' as int
  }

  /** The number a string of decimal digits denotes (most significant first), None when one is not a digit. */
  function DigitsValue(s: string): (r: Option<nat>)
    decreases |s|
  {
    if s == [] then Some(0)
    else if !IsDigit(s[|s| - 1]) then None
    else
      match DigitsValue(s[..|s| - 1])
      case None => None
      case Some(v) => Some(v * 10 + DigitValue(s[|s| - 1]))
  }

  /** Decimal digits of n without leading zeros. */
  function NatToString(n: nat): (s: string)
    ensures |s| >= 1 && AllDigits(s)
    ensures n >= 10 ==> s[0] != '0'
  {
    if n < 10 then [DigitChar(n)] else NatToString(n / 10) + [DigitChar(n % 10)]
  }

  /** Integer.toString(n), which is also what `"" + n` produces. */
  function IntToString(n: int): string {
    if n < 0 then "-" + NatToString(-n) else NatToString(n)
  }

  /**
   * Integer.parseInt(s): an optional '-' or '+' followed by at least one
   * decimal digit, whose value must fit in an int; anything else is a
   * NumberFormatException, modelled as None.
   */
  function ParseInt(s: string): (r: Option<int>)
    ensures r.Some? ==> IsInt32(r.value)
  {
    if |s| == 0 then None
    else
      var digits := if s[0] == '-' || s[0] == '+' then s[1..] else s;
      if |digits| == 0 then None
      else
        match DigitsValue(digits)
        case None => None
        case Some(d) =>
        var v: int := if s[0] == '-' then -(d as int) else d;
        if IsInt32(v) then Some(v) else None
  }

  lemma {:induction false} NatToStringValue(n: nat)
    ensures DigitsValue(NatToString(n)) == Some(n)
  {
    if n >= 10 {
      var s := NatToString(n);
      NatToStringValue(n / 10);
      assert s[..|s| - 1] == NatToString(n / 10);
    }
  }

  /** Integer.parseInt undoes Integer.toString on every int. */
  lemma IntToStringRoundTrip(n: int)
    requires IsInt32(n)
    ensures ParseInt(IntToString(n)) == Some(n)
  {
    var s := IntToString(n);
    if n < 0 {
      NatToStringValue(-n);
      assert s[1..] == NatToString(-n);
    } else {
      NatToStringValue(n);
    }
  }

  /** Integer.toString writes only digits and a leading minus sign. */
  lemma IntToStringAvoids(n: int, c: char)
    requires !IsDigit(c) && c != '-'
    ensures |IntToString(n)| >= 1 && c !in IntToString(n)
  {
    if n < 0 {
      assert forall i :: 1 <= i < |IntToString(n)| ==> IntToString(n)[i] == NatToString(-n)[i - 1];
    }
  }

  // ---------------------------------------------------------------------
  // String.split with a one-character, non-special delimiter
  // ---------------------------------------------------------------------

  /** All the pieces between occurrences of d, empty pieces included. */
  function SplitAll(s: string, d: char): (r: seq<string>)
    ensures |r| >= 1
    ensures forall i :: 0 <= i < |r| ==> d !in r[i]
  {
    if s == [] then [""]
    else if s[0] == d then [""] + SplitAll(s[1..], d)
    else
      var rest := SplitAll(s[1..], d);
      [[s[0]] + rest[0]] + rest[1..]
  }

  function DropTrailingEmpty(parts: seq<string>): (r: seq<string>)
    ensures |r| <= |parts| && r == parts[..|r|]
    ensures r != [] ==> r[|r| - 1] != ""
  {
    if parts != [] && parts[|parts| - 1] == "" then DropTrailingEmpty(parts[..|parts| - 1]) else parts
  }

  /**
   * s.split(d): when d does not occur the result is the whole string (so ""
   * gives [""]); otherwise the pieces with all trailing empty pieces removed
   * (so " ".split(" ") is empty).
   */
  function Split(s: string, d: char): (r: seq<string>)
    ensures forall i :: 0 <= i < |r| ==> d !in r[i]
  {
    if d !in s then [s] else DropTrailingEmpty(SplitAll(s, d))
  }

  /** Every field followed by the delimiter: how save writes its fields and patterns. */
  function Terminated(fields: seq<string>, d: char): string {
    if fields == [] then "" else Terminated(fields[..|fields| - 1], d) + fields[|fields| - 1] + [d]
  }

  /** A character in no field and other than the delimiter is not in the terminated text. */
  lemma {:induction false} TerminatedAvoids(fields: seq<string>, d: char, c: char)
    requires c != d && forall i :: 0 <= i < |fields| ==> c !in fields[i]
    ensures c !in Terminated(fields, d)
    decreases |fields|
  {
    if fields != [] {
      TerminatedAvoids(fields[..|fields| - 1], d, c);
    }
  }

  lemma {:induction false} TerminatedAppend(a: seq<string>, b: seq<string>, d: char)
    ensures Terminated(a + b, d) == Terminated(a, d) + Terminated(b, d)
    decreases |b|
  {
    if b == [] {
      assert a + b == a;
    } else {
      var b' := b[..|b| - 1];
      assert (a + b)[..|a + b| - 1] == a + b';
      TerminatedAppend(a, b', d);
    }
  }

  lemma {:induction false} SplitAllPiece(f: string, rest: string, d: char)
    requires d !in f
    ensures SplitAll(f + [d] + rest, d) == [f] + SplitAll(rest, d)
    decreases |f|
  {
    if f == [] {
      assert f + [d] + rest == [d] + rest;
      assert ([d] + rest)[1..] == rest;
    } else {
      var s := f + [d] + rest;
      assert s[0] == f[0];
      assert s[1..] == f[1..] + [d] + rest;
      SplitAllPiece(f[1..], rest, d);
      assert [f[0]] + f[1..] == f;
    }
  }

  lemma {:induction false} SplitAllTerminated(fields: seq<string>, d: char)
    requires forall i :: 0 <= i < |fields| ==> d !in fields[i]
    ensures SplitAll(Terminated(fields, d), d) == fields + [""]
    decreases |fields|
  {
    if fields == [] {
    } else {
      var rest := fields[1..];
      assert fields == [fields[0]] + rest;
      TerminatedAppend([fields[0]], rest, d);
      assert Terminated([fields[0]], d) == fields[0] + [d] by {
        assert [fields[0]][..0] == [];
      }
      SplitAllPiece(fields[0], Terminated(rest, d), d);
      SplitAllTerminated(rest, d);
    }
  }

  /**
   * Splitting a delimiter-terminated list gives the list back, provided no
   * field contains the delimiter and the last field is not empty (Java drops
   * trailing empty pieces).
   */
  lemma SplitTerminated(fields: seq<string>, d: char)
    requires |fields| >= 1 && fields[|fields| - 1] != ""
    requires forall i :: 0 <= i < |fields| ==> d !in fields[i]
    ensures Split(Terminated(fields, d), d) == fields
  {
    var s := Terminated(fields, d);
    assert s[|s| - 1] == d;
    assert d in s;
    SplitAllTerminated(fields, d);
    var parts := fields + [""];
    assert parts[..|parts| - 1] == fields;
    assert DropTrailingEmpty(parts) == DropTrailingEmpty(fields);
  }

  // ---------------------------------------------------------------------
  // String.replace (literal) and String.replaceAll(".wav", "") (regex)
  // ---------------------------------------------------------------------

  /** target occurs in s at some position */
  predicate OccursAt(s: string, target: string, i: int) {
    0 <= i <= |s| - |target| && s[i..i + |target|] == target
  }

  ghost predicate Occurs(s: string, target: string) {
    exists i :: OccursAt(s, target, i)
  }

  /** s.replace(target, replacement): left to right, non-overlapping. */
  function Replace(s: string, target: string, replacement: string): string
    requires |target| > 0
    decreases |s|
  {
    if |s| < |target| then s
    else if s[..|target|] == target then replacement + Replace(s[|target|..], target, replacement)
    else [s[0]] + Replace(s[1..], target, replacement)
  }

  /** Characters that the regular-expression dot does not match. */
  predicate IsLineTerminator(c: char) {
    c == '\n' || c == '\r' || c == '\U{85}' || c == '\U{2028}' || c == '\U{2029}'
  }

  /**
   * s.replaceAll(".wav", ""): the pattern is a regular expression, so it
   * removes every non-overlapping "any character, then wav", scanning left
   * to right, and not only the literal extension.
   */
  function ReplaceAllDotWav(s: string): string
    decreases |s|
  {
    if |s| >= 4 && !IsLineTerminator(s[0]) && s[1..4] == "wav" then ReplaceAllDotWav(s[4..])
    else if s == [] then []
    else [s[0]] + ReplaceAllDotWav(s[1..])
  }

  /** s with every space removed. */
  function NonSpace(s: string): string {
    if s == [] then [] else (if s[0] == ' ' then [] else [s[0]]) + NonSpace(s[1..])
  }

  lemma {:induction false} NonSpaceAppend(a: string, b: string)
    ensures NonSpace(a + b) == NonSpace(a) + NonSpace(b)
    decreases |a|
  {
    if a == [] {
      assert a + b == b;
    } else {
      assert (a + b)[0] == a[0];
      assert (a + b)[1..] == a[1..] + b;
      NonSpaceAppend(a[1..], b);
    }
  }

  /** Replacing a target by text with the same non-space characters keeps the non-space characters. */
  lemma {:induction false} ReplaceKeepsNonSpace(s: string, target: string, replacement: string)
    requires |target| > 0 && NonSpace(target) == NonSpace(replacement)
    ensures NonSpace(Replace(s, target, replacement)) == NonSpace(s)
    decreases |s|
  {
    if |s| < |target| {
    } else if s[..|target|] == target {
      ReplaceKeepsNonSpace(s[|target|..], target, replacement);
      NonSpaceAppend(replacement, Replace(s[|target|..], target, replacement));
      assert s == target + s[|target|..];
      NonSpaceAppend(target, s[|target|..]);
    } else {
      ReplaceKeepsNonSpace(s[1..], target, replacement);
      NonSpaceAppend([s[0]], Replace(s[1..], target, replacement));
      assert s == [s[0]] + s[1..];
      NonSpaceAppend([s[0]], s[1..]);
    }
  }

  /** The strings of a list written one after another. */
  function Concat(parts: seq<string>): string {
    if parts == [] then "" else Concat(parts[..|parts| - 1]) + parts[|parts| - 1]
  }

  lemma {:induction false} NonSpaceOfSpaceFree(s: string)
    requires ' ' !in s
    ensures NonSpace(s) == s
    decreases |s|
  {
    if s != [] {
      assert s[1..] == s[1..];
      NonSpaceOfSpaceFree(s[1..]);
    }
  }

  /** Writing space-free tokens each followed by a space and dropping the spaces gives the tokens. */
  lemma {:induction false} NonSpaceTerminated(tokens: seq<string>)
    requires forall i :: 0 <= i < |tokens| ==> ' ' !in tokens[i]
    ensures NonSpace(Terminated(tokens, ' ')) == Concat(tokens)
    decreases |tokens|
  {
    if tokens != [] {
      var init := tokens[..|tokens| - 1];
      var last := tokens[|tokens| - 1];
      NonSpaceTerminated(init);
      NonSpaceAppend(Terminated(init, ' ') + last, [' ']);
      NonSpaceAppend(Terminated(init, ' '), last);
      NonSpaceOfSpaceFree(last);
    }
  }
}
