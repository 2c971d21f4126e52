/**
 * SaveText: the one-line text format that EasyLoop.save writes and
 * EasyLoop.load reads back. The line is a list of '@'-terminated fields:
 * the track count, the loop length, the main track index, and then five
 * fields per track: the source file (or "null"), the pattern with every
 * entry followed by ',', the "Playing" flag, the rate and the counter.
 */
module SaveText {
  import opened JavaLang
  import opened Patterns

  /** Index of the first track field. */
  const SAVE_ARRAY_LENGTH: nat := 3
  /** Ten tracks at most: two rows of five, and the hotkey table has ten entries. */
  const MAX_TRACKS: nat := 10
  const NULL_TEXT: string := "null"

  datatype SavedTrack = SavedTrack(file: Option<string>, pattern: seq<Step>, playing: bool, rate: int, counter: int)

  /** What save writes: the loop length stays text (its double value is not modelled). */
  datatype Session = Session(loopLength: string, main: int, tracks: seq<SavedTrack>)

  /** `"" + file`: a java.io.File prints as its path, a null one as "null". */
  function FileText(file: Option<string>): string {
    if file.None? then NULL_TEXT else file.value
  }

  function BoolText(b: bool): string {
    if b then "true" else "false"
  }

  function PatternField(p: seq<Step>): string {
    Terminated(StepTexts(p), ',')
  }

  function TrackFields(t: SavedTrack): (r: seq<string>)
    ensures |r| == 5
  {
    [FileText(t.file), PatternField(t.pattern), BoolText(t.playing), IntToString(t.rate), IntToString(t.counter)]
  }

  function AllTrackFields(ts: seq<SavedTrack>): (r: seq<string>)
    ensures |r| == 5 * |ts|
  {
    if ts == [] then [] else TrackFields(ts[0]) + AllTrackFields(ts[1..])
  }

  function Header(s: Session): seq<string> {
    [IntToString(|s.tracks|), s.loopLength, IntToString(s.main)]
  }

  function Fields(s: Session): seq<string> {
    Header(s) + AllTrackFields(s.tracks)
  }

  /** The text save writes (before the line terminator println adds). */
  function Encode(s: Session): string {
    Terminated(Fields(s), '@')
  }

  /**
   * load's pattern loop: every ','-separated token must be a control token or
   * an int (otherwise NumberFormatException); a pattern left with no entry
   * makes the label update read a missing first entry.
   */
  function DecodePattern(field: string): (r: Option<seq<Step>>)
    ensures r.Some? ==> |r.value| >= 1 && Int32Steps(r.value)
  {
    var tokens := Split(field, ',');
    if |tokens| >= 1 then ParseTokens(tokens) else None
  }

  /**
   * One track from the five fields at the front of a. A track with a file
   * always comes back as playing: load selects its box before it reads the
   * saved flag.
   */
  function DecodeTrack(a: seq<string>): (r: Option<SavedTrack>)
    ensures r.Some? ==> |a| >= 5
    ensures r.Some? ==> |r.value.pattern| >= 1 && Int32Steps(r.value.pattern) && IsInt32(r.value.rate) && IsInt32(r.value.counter)
    ensures r.Some? ==> (r.value.file.Some? ==> r.value.playing)
  {
    if |a| < 5 then None
    else
      var file := if a[0] == NULL_TEXT then None else Some(a[0]);
      match DecodePattern(a[1])
      case None => None
      case Some(p) =>
        match ParseInt(a[3])
        case None => None
        case Some(rate) =>
          match ParseInt(a[4])
          case None => None
          case Some(counter) => Some(SavedTrack(file, p, file.Some? || a[2] == "true", rate, counter))
  }

  /** The values when every entry has one, None as soon as one has none. */
  function Collect<T>(xs: seq<Option<T>>): (r: Option<seq<T>>)
    ensures r.Some? ==> |r.value| == |xs|
  {
    if xs == [] then Some([])
    else
      match Collect(xs[..|xs| - 1])
      case None => None
      case Some(ys) =>
        match xs[|xs| - 1]
        case None => None
        case Some(y) => Some(ys + [y])
  }

  /** Collect succeeds exactly when every entry has a value, and then lists those values. */
  lemma {:induction false} CollectAll<T>(xs: seq<Option<T>>)
    ensures Collect(xs).Some? <==> forall j :: 0 <= j < |xs| ==> xs[j].Some?
    ensures Collect(xs).Some? ==> forall j :: 0 <= j < |xs| ==> Collect(xs).value[j] == xs[j].value
  {
    if xs != [] {
      var init := xs[..|xs| - 1];
      CollectAll(init);
      assert forall j :: 0 <= j < |init| ==> init[j] == xs[j];
    }
  }

  /** The fields of the j-th of k tracks from the front of a, decoded. */
  function EachTrack(a: seq<string>, k: nat): (r: seq<Option<SavedTrack>>)
    requires |a| >= 5 * k
    ensures |r| == k && forall j :: 0 <= j < k ==> r[j] == DecodeTrack(a[5 * j..])
  {
    seq(k, j requires 0 <= j < k => DecodeTrack(a[5 * j..]))
  }

  /** k tracks from the front of a, each five fields after the one before; one that fails fails them all. */
  function DecodeTracks(a: seq<string>, k: nat): (r: Option<seq<SavedTrack>>)
    ensures r.Some? ==> |r.value| == k && |a| >= 5 * k
  {
    if |a| < 5 * k then None else Collect(EachTrack(a, k))
  }

  /** From start on, the fields of each track, five after the one before, decode as its entry. */
  ghost predicate TracksDecodeAt(a: seq<string>, start: nat, saved: seq<SavedTrack>) {
    |a| >= start + 5 * |saved| &&
    forall j :: 0 <= j < |saved| ==> DecodeTrack(a[start + 5 * j..]) == Some(saved[j])
  }

  /** The tracks from start decode as saved when the fields of each decode as its entry. */
  lemma DecodeEach(a: seq<string>, start: nat, saved: seq<SavedTrack>)
    requires TracksDecodeAt(a, start, saved)
    ensures DecodeTracks(a[start..], |saved|) == Some(saved)
  {
    var b := a[start..];
    var xs := EachTrack(b, |saved|);
    forall j | 0 <= j < |saved|
      ensures xs[j] == Some(saved[j])
    {
      assert b[5 * j..] == a[start + 5 * j..];
    }
    CollectAll(xs);
    assert Collect(xs).value == saved;
  }

  /**
   * When the n-th track's fields do not decode, no k tracks past it do:
   * load fails there.
   */
  lemma DecodeStops(a: seq<string>, start: nat, n: nat, k: nat)
    requires n < k && |a| >= start + 5 * n
    requires DecodeTrack(a[start + 5 * n..]).None?
    ensures DecodeTracks(a[start..], k).None?
  {
    var b := a[start..];
    if |b| >= 5 * k {
      assert b[5 * n..] == a[start + 5 * n..];
      CollectAll(EachTrack(b, k));
    }
  }

  /** The number of tracks load creates for a saved count: the loop runs no time for a negative one. */
  function TrackCount(c: int): nat {
    if c < 0 then 0 else c
  }

  /**
   * load: split at '@', read the loop length and the main index, then as
   * many tracks as the first field says. A missing field, an unparsable
   * number or pattern, or more than ten tracks is a failed load (None).
   */
  function Decode(text: string): (r: Option<Session>)
    ensures r.Some? ==> |r.value.tracks| <= MAX_TRACKS && IsInt32(r.value.main) && '@' !in r.value.loopLength
    ensures r.Some? ==> |Split(text, '@')| >= SAVE_ARRAY_LENGTH + 5 * |r.value.tracks|
  {
    var a := Split(text, '@');
    if |a| < SAVE_ARRAY_LENGTH then None
    else
      match ParseInt(a[2])
      case None => None
      case Some(main) =>
        match ParseInt(a[0])
        case None => None
        case Some(c) =>
          if TrackCount(c) > MAX_TRACKS then None
          else
            match DecodeTracks(a[SAVE_ARRAY_LENGTH..], TrackCount(c))
            case None => None
            case Some(ts) => Some(Session(a[1], main, ts))
  }

  /** The label load shows for a saved pattern field: its tokens, spaced, with " | " compacted. */
  function LoadedLabel(field: string): string {
    "Pattern: " + Display("", Split(field, ','))
  }

  // ---------------------------------------------------------------------
  // How save's loop builds the text
  // ---------------------------------------------------------------------

  lemma {:induction false} AllTrackFieldsSnoc(ts: seq<SavedTrack>, t: SavedTrack)
    ensures AllTrackFields(ts + [t]) == AllTrackFields(ts) + TrackFields(t)
    decreases |ts|
  {
    if ts == [] {
      assert [t][1..] == [];
    } else {
      assert (ts + [t])[1..] == ts[1..] + [t];
      AllTrackFieldsSnoc(ts[1..], t);
    }
  }

  /** Terminating two fields writes each with an '@' after it. */
  lemma TerminatedTwo(x: string, y: string)
    ensures Terminated([x, y], '@') == x + "@" + y + "@"
  {
    assert [x, y][..1] == [x];
    assert [x][..0] == [];
    assert Terminated([x], '@') == x + "@";
  }

  lemma TerminatedThree(x: string, y: string, z: string)
    ensures Terminated([x, y, z], '@') == x + "@" + y + "@" + z + "@"
  {
    assert [x, y, z][..2] == [x, y];
    TerminatedTwo(x, y);
  }

  /** One track's text, the five fields each with an '@' after it. */
  lemma TrackText(t: SavedTrack)
    ensures Terminated(TrackFields(t), '@') ==
      FileText(t.file) + "@" + PatternField(t.pattern) + "@" + BoolText(t.playing) + "@" +
      IntToString(t.rate) + "@" + IntToString(t.counter) + "@"
  {
    var f := TrackFields(t);
    assert f == [f[0], f[1], f[2]] + [f[3], f[4]];
    TerminatedAppend([f[0], f[1], f[2]], [f[3], f[4]], '@');
    TerminatedThree(f[0], f[1], f[2]);
    TerminatedTwo(f[3], f[4]);
  }

  /** One more entry of the pattern loop: its text and a ','. */
  lemma PatternFieldSnoc(p: seq<Step>, j: int)
    requires 0 <= j < |p|
    ensures Terminated(StepTexts(p[..j + 1]), ',') == Terminated(StepTexts(p[..j]), ',') + StepText(p[j]) + ","
  {
    assert StepTexts(p[..j + 1])[..j] == StepTexts(p[..j]);
  }

  // ---------------------------------------------------------------------
  // The round trip
  // ---------------------------------------------------------------------

  /** What load gives back for a saved session: a track with a file is playing. */
  function Restored(s: Session): (r: Session)
    ensures r.loopLength == s.loopLength && r.main == s.main && |r.tracks| == |s.tracks|
  {
    s.(tracks := RestoredTracks(s.tracks))
  }

  function RestoredTrack(t: SavedTrack): SavedTrack {
    t.(playing := t.file.Some? || t.playing)
  }

  /** A source path that survives the format: no '@', and not the word standing for no file. */
  predicate SavablePath(file: Option<string>) {
    file.Some? ==> '@' !in file.value && file.value != NULL_TEXT
  }

  predicate WellFormedTrack(t: SavedTrack) {
    SavablePath(t.file) && |t.pattern| >= 1 && Int32Steps(t.pattern) && IsInt32(t.rate) && IsInt32(t.counter)
  }

  predicate WellFormedSession(s: Session) {
    '@' !in s.loopLength && IsInt32(s.main) && |s.tracks| <= MAX_TRACKS &&
    forall i :: 0 <= i < |s.tracks| ==> WellFormedTrack(s.tracks[i])
  }

  lemma PatternFieldRoundTrip(p: seq<Step>)
    requires |p| >= 1 && Int32Steps(p)
    ensures Split(PatternField(p), ',') == StepTexts(p)
    ensures DecodePattern(PatternField(p)) == Some(p)
  {
    StepTextsRead(p);
    SplitTerminated(StepTexts(p), ',');
    ParseTokensSteps(StepTexts(p));
  }

  lemma TrackFieldsShape(t: SavedTrack)
    requires WellFormedTrack(t)
    ensures forall i :: 0 <= i < 5 ==> '@' !in TrackFields(t)[i]
    ensures TrackFields(t)[4] != ""
  {
    StepTextsRead(t.pattern);
    TerminatedAvoids(StepTexts(t.pattern), ',', '@');
    IntToStringAvoids(t.rate, '@');
    IntToStringAvoids(t.counter, '@');
  }

  lemma {:induction false} AllTrackFieldsShape(ts: seq<SavedTrack>)
    requires forall i :: 0 <= i < |ts| ==> WellFormedTrack(ts[i])
    ensures var r := AllTrackFields(ts); forall i :: 0 <= i < |r| ==> '@' !in r[i]
    ensures ts != [] ==> AllTrackFields(ts)[|AllTrackFields(ts)| - 1] != ""
  {
    if ts != [] {
      TrackFieldsShape(ts[0]);
      AllTrackFieldsShape(ts[1..]);
      var r := AllTrackFields(ts);
      assert forall i :: 5 <= i < |r| ==> r[i] == AllTrackFields(ts[1..])[i - 5];
    }
  }

  lemma TrackRoundTrip(a: seq<string>, t: SavedTrack)
    requires |a| >= 5 && WellFormedTrack(t)
    requires a[0] == FileText(t.file) && a[1] == PatternField(t.pattern) && a[2] == BoolText(t.playing)
    requires a[3] == IntToString(t.rate) && a[4] == IntToString(t.counter)
    ensures DecodeTrack(a) == Some(RestoredTrack(t))
  {
    PatternFieldRoundTrip(t.pattern);
    IntToStringRoundTrip(t.rate);
    IntToStringRoundTrip(t.counter);
  }

  function RestoredTracks(ts: seq<SavedTrack>): (r: seq<SavedTrack>)
    ensures |r| == |ts| && forall i :: 0 <= i < |ts| ==> r[i] == RestoredTrack(ts[i])
  {
    seq(|ts|, i requires 0 <= i < |ts| => RestoredTrack(ts[i]))
  }

  /** One track's fields at the front of the rest: the track, and the rest after them. */
  lemma TrackThenRest(t: SavedTrack, y: seq<string>)
    requires WellFormedTrack(t)
    ensures DecodeTrack(TrackFields(t) + y) == Some(RestoredTrack(t))
    ensures (TrackFields(t) + y)[5..] == y
  {
    TrackRoundTrip(TrackFields(t) + y, t);
  }

  /** The tracks save wrote from field start on decode as the tracks restored. */
  lemma TracksRoundTrip(a: seq<string>, start: nat, ts: seq<SavedTrack>)
    requires start <= |a| && a[start..] == AllTrackFields(ts)
    requires forall i :: 0 <= i < |ts| ==> WellFormedTrack(ts[i])
    ensures DecodeTracks(a[start..], |ts|) == Some(RestoredTracks(ts))
  {
    var r := RestoredTracks(ts);
    forall j | 0 <= j < |r|
      ensures DecodeTrack(a[start + 5 * j..]) == Some(r[j])
    {
      TrackAt(a, start, ts, j);
    }
    DecodeEach(a, start, r);
  }

  /** Track j decodes from its place in the saved fields. */
  lemma TrackAt(a: seq<string>, start: nat, ts: seq<SavedTrack>, j: nat)
    requires start <= |a| && a[start..] == AllTrackFields(ts)
    requires j < |ts| && WellFormedTrack(ts[j])
    ensures DecodeTrack(a[start + 5 * j..]) == Some(RestoredTrack(ts[j]))
  {
    FieldsAt(a, start, ts, j);
    TrackThenRest(ts[j], AllTrackFields(ts[j + 1..]));
  }

  lemma FieldsAt(a: seq<string>, start: nat, ts: seq<SavedTrack>, j: nat)
    requires start <= |a| && a[start..] == AllTrackFields(ts) && j < |ts|
    ensures a[start + 5 * j..] == TrackFields(ts[j]) + AllTrackFields(ts[j + 1..])
  {
    AllTrackFieldsFrom(ts, j);
    assert a[start + 5 * j..] == a[start..][5 * j..];
  }

  /** The fields from track j on: track j's, then those of the tracks after it. */
  lemma {:induction false} AllTrackFieldsFrom(ts: seq<SavedTrack>, j: nat)
    requires j < |ts|
    ensures AllTrackFields(ts)[5 * j..] == TrackFields(ts[j]) + AllTrackFields(ts[j + 1..])
    decreases j
  {
    if j > 0 {
      AllTrackFieldsFrom(ts[1..], j - 1);
      assert ts[1..][j..] == ts[j + 1..];
    }
  }

  /** The saved line splits back into its fields. */
  lemma EncodeSplits(s: Session)
    requires WellFormedSession(s)
    ensures Split(Encode(s), '@') == Fields(s)
  {
    var fields := Fields(s);
    AllTrackFieldsShape(s.tracks);
    IntToStringAvoids(|s.tracks|, '@');
    IntToStringAvoids(s.main, '@');
    assert forall i :: 0 <= i < |fields| ==> '@' !in fields[i];
    SplitTerminated(fields, '@');
  }

  /**
   * load(save(s)) gives s back, except that a track with a file comes back
   * playing whatever its saved flag says.
   */
  lemma RoundTrip(s: Session)
    requires WellFormedSession(s)
    ensures Decode(Encode(s)) == Some(Restored(s))
  {
    var n := |s.tracks|;
    EncodeSplits(s);
    var a := Fields(s);
    assert a[0] == IntToString(n) && a[1] == s.loopLength && a[2] == IntToString(s.main);
    IntToStringRoundTrip(n);
    IntToStringRoundTrip(s.main);
    assert a[SAVE_ARRAY_LENGTH..] == AllTrackFields(s.tracks);
    TracksRoundTrip(a, SAVE_ARRAY_LENGTH, s.tracks);
  }

  /** load shows a saved pattern with its entries separated by spaces. */
  lemma LoadedLabelOfSaved(p: seq<Step>)
    requires |p| >= 1 && Int32Steps(p)
    ensures LoadedLabel(PatternField(p)) == "Pattern: " + Display("", StepTexts(p))
  {
    PatternFieldRoundTrip(p);
  }

  /** A track with a file that was saved muted comes back playing. */
  lemma MutedTrackLoadsPlaying()
    ensures var t := SavedTrack(Some("a.wav"), [Pitch(0)], false, 1, 1);
      Decode(Encode(Session("0.75", -1, [t]))) == Some(Session("0.75", -1, [t.(playing := true)]))
  {
    var t := SavedTrack(Some("a.wav"), [Pitch(0)], false, 1, 1);
    var s := Session("0.75", -1, [t]);
    assert WellFormedTrack(s.tracks[0]);
    RoundTrip(s);
    assert Restored(s).tracks == [t.(playing := true)];
  }
}
