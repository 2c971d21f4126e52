/**
 * Sequencer: the parts of the EasyLoop window that hold the sequencer's
 * state — the parallel per-track lists, the main track, and the handlers
 * that change them (Add/Remove Track, Set Pattern, Set Rate of Occurrence,
 * Main, Set Loop Length, Play, save and load). Buttons, labels other than
 * the pattern label, and dialogs are not modelled; a dialog's answer is a
 * parameter, with None for a cancelled dialog.
 */
module Sequencer {
  import opened JavaLang
  import opened Patterns
  import opened Track
  import opened SaveText

  /** mainTrackIndex when no track is the main one. */
  const NO_MAIN: int := -1
  const DEFAULT_LOOP_LENGTH: string := "0.75"
  /** The text a new pattern label starts with. */
  const DEFAULT_LABEL: string := "0"
  const PATTERN_PREFIX: string := "Pattern: "

  /** ArrayList.remove(w): the list without its entry w. */
  function RemoveAt<T>(s: seq<T>, w: int): (r: seq<T>)
    requires 0 <= w < |s|
    ensures |r| == |s| - 1
    ensures forall j :: 0 <= j < w ==> r[j] == s[j]
    ensures forall j :: w <= j < |r| ==> r[j] == s[j + 1]
  {
    s[..w] + s[w + 1..]
  }

  /**
   * The Remove Track check as written: the 1-based answer v is refused when
   * v - 1 < 0 or v > size, with v - 1 computed in 32-bit int arithmetic, and
   * the index handed to removeTrack is that v - 1.
   */
  function RemoveIndexAsWritten(input: Option<string>, size: int): Option<int> {
    if input.None? then None
    else
      match ParseInt(input.value)
      case None => None
      case Some(v) => if Wrap32(v - 1) < 0 || v > size then None else Some(Wrap32(v - 1))
  }

  /** The Remove Track check the model uses: the answer must name a track, 1 to size. */
  function RemoveIndex(input: Option<string>, size: int): (r: Option<int>)
    ensures r.Some? ==> 0 <= r.value < size
    ensures r.Some? <==> input.Some? && ParseInt(input.value).Some? && 1 <= ParseInt(input.value).value <= size
  {
    if input.None? then None
    else
      match ParseInt(input.value)
      case None => None
      case Some(v) => if v < 1 || v > size then None else Some(v - 1)
  }

  /**
   * The answer "-2147483648" (the smallest int, as Integer.toString writes
   * it) passes the check as written: v - 1 wraps to the largest int, which
   * is not negative, and v itself is not above the size; the index handed on
   * is then far past the last track. The corrected check refuses it.
   */
  lemma MinIntPassesRemoveCheck(size: int)
    requires 0 <= size <= MAX_TRACKS
    ensures RemoveIndexAsWritten(Some(IntToString(MIN_INT)), size) == Some(MAX_INT)
    ensures RemoveIndex(Some(IntToString(MIN_INT)), size) == None
  {
    IntToStringRoundTrip(MIN_INT);
  }

  /** On every other answer the two checks agree. */
  lemma RemoveChecksAgree(input: Option<string>, size: int)
    requires 0 <= size <= MAX_INT
    requires input.Some? ==> ParseInt(input.value) != Some(MIN_INT)
    ensures RemoveIndexAsWritten(input, size) == RemoveIndex(input, size)
  {
  }

  /** The rate dialog's check: an int greater than zero. */
  function RateInput(input: Option<string>): (r: Option<int>)
    ensures r.Some? <==> input.Some? && ParseInt(input.value).Some? && ParseInt(input.value).value > 0
    ensures r.Some? ==> r.value == ParseInt(input.value).value
  {
    if input.None? then None
    else
      match ParseInt(input.value)
      case None => None
      case Some(v) => if v <= 0 then None else Some(v)
  }

  /** The saved form of the tracks, from the parallel lists. */
  function SavedTracks(files: seq<Option<string>>, patterns: seq<seq<Step>>, playing: seq<bool>, rates: seq<int>, counters: seq<int>): (r: seq<SavedTrack>)
    requires |patterns| == |files| && |playing| == |files| && |rates| == |files| && |counters| == |files|
    ensures |r| == |files|
    ensures forall i :: 0 <= i < |r| ==> r[i] == SavedTrack(files[i], patterns[i], playing[i], rates[i], counters[i])
  {
    seq(|files|, i requires 0 <= i < |files| => SavedTrack(files[i], patterns[i], playing[i], rates[i], counters[i]))
  }

  /** A track the Play button can start: with a source, a non-empty order whose look-ahead always stops. */
  predicate Startable(s: TrackState) {
    s.hasTrack ==> |s.order| >= 1 && WellFormed(s.order)
  }

  class EasyLoop {
    /** TRACK_DIRECTORY: where each new AudioTrack writes its renders. */
    const trackDirectory: string

    var trackList: seq<AudioTrack>
    var patternList: seq<seq<Step>>
    /** The text of each track's pattern label. */
    var patternLabels: seq<string>
    /** Each track's rate of occurrence, and its counter towards the next fire. */
    var maxList: seq<int>
    var currentList: seq<int>
    /** Whether each track's "Playing" box and "Main Track" radio button are selected. */
    var playingList: seq<bool>
    var masterList: seq<bool>
    var trackNumber: int
    var mainTrackIndex: int
    /** The loop length in seconds, as text: its double value is not modelled. */
    var loopLength: string
    var playEnabled: bool
    var prepareEnabled: bool

    /** The parallel lists all have one entry per track, and no track object is shared. */
    ghost predicate Valid()
      reads this
    {
      0 <= trackNumber <= MAX_TRACKS &&
      |trackList| == trackNumber && |patternList| == trackNumber && |patternLabels| == trackNumber &&
      |maxList| == trackNumber && |currentList| == trackNumber &&
      |playingList| == trackNumber && |masterList| == trackNumber &&
      forall i, j :: 0 <= i < j < trackNumber ==> trackList[i] != trackList[j]
    }

    function Files(): (r: seq<Option<string>>)
      reads this, trackList
      ensures |r| == |trackList| && forall i :: 0 <= i < |r| ==> r[i] == trackList[i].track
    {
      var ts := trackList;
      seq(|ts|, i requires 0 <= i < |ts| reads ts => ts[i].track)
    }

    /** What save writes about the current state. */
    function Snapshot(): Session
      requires Valid()
      reads this, trackList
    {
      Session(loopLength, mainTrackIndex, SavedTracks(Files(), patternList, playingList, maxList, currentList))
    }

    ghost predicate AllRunnable()
      reads this, trackList
    {
      forall i :: 0 <= i < |trackList| ==> Runnable(trackList[i].State())
    }

    /** The window starts with one track and no main track. */
    constructor(trackDirectory: string)
      ensures Valid() && trackNumber == 1 && fresh(trackList[0])
      ensures patternList == [[Pitch(0)]] && maxList == [1] && currentList == [1]
      ensures playingList == [false] && masterList == [false] && patternLabels == [DEFAULT_LABEL]
      ensures mainTrackIndex == NO_MAIN && loopLength == DEFAULT_LOOP_LENGTH && !playEnabled && !prepareEnabled
    {
      this.trackDirectory := trackDirectory;
      trackList, patternList, patternLabels := [], [], [];
      maxList, currentList, playingList, masterList := [], [], [], [];
      trackNumber, mainTrackIndex, loopLength := 0, NO_MAIN, DEFAULT_LOOP_LENGTH;
      playEnabled, prepareEnabled := false, false;
      new;
      AddTrack();
    }

    /** addTrack: a new track with pattern [0], rate 1 and counter 1, not playing and not main. */
    method AddTrack()
      requires Valid() && trackNumber < MAX_TRACKS
      modifies this
      ensures Valid() && trackNumber == old(trackNumber) + 1
      ensures trackList[..old(trackNumber)] == old(trackList) && fresh(trackList[old(trackNumber)])
      ensures var t := trackList[old(trackNumber)];
        t.trackDirectory == trackDirectory && t.State() == TrackState(false, true, 0, [], []) && t.Valid()
      ensures patternList == old(patternList) + [[Pitch(0)]] && patternLabels == old(patternLabels) + [DEFAULT_LABEL]
      ensures maxList == old(maxList) + [1] && currentList == old(currentList) + [1]
      ensures playingList == old(playingList) + [false] && masterList == old(masterList) + [false]
      ensures mainTrackIndex == old(mainTrackIndex) && loopLength == old(loopLength)
      ensures playEnabled == old(playEnabled) && prepareEnabled == old(prepareEnabled)
    {
      var prev := trackList;
      var t := new AudioTrack(trackDirectory);
      assert forall i :: 0 <= i < |prev| ==> prev[i] != t;
      AppendDefaults();
      trackList := prev + [t];
      trackNumber := trackNumber + 1;
      assert trackList[..old(trackNumber)] == prev;
    }

    /** The list entries addTrack appends for the new track. */
    method AppendDefaults()
      modifies this`patternList, this`patternLabels, this`maxList, this`currentList, this`playingList, this`masterList
      ensures patternList == old(patternList) + [[Pitch(0)]] && patternLabels == old(patternLabels) + [DEFAULT_LABEL]
      ensures maxList == old(maxList) + [1] && currentList == old(currentList) + [1]
      ensures playingList == old(playingList) + [false] && masterList == old(masterList) + [false]
    {
      patternLabels := patternLabels + [DEFAULT_LABEL];
      maxList := maxList + [1];
      currentList := currentList + [1];
      patternList := patternList + [[Pitch(0)]];
      playingList := playingList + [false];
      masterList := masterList + [false];
    }

    /** removeTrack(w): entry w leaves every list; mainTrackIndex is not adjusted. */
    method RemoveTrack(w: int)
      requires Valid() && 0 <= w < trackNumber
      modifies this
      ensures Valid() && trackNumber == old(trackNumber) - 1
      ensures trackList == RemoveAt(old(trackList), w) && patternList == RemoveAt(old(patternList), w)
      ensures patternLabels == RemoveAt(old(patternLabels), w)
      ensures maxList == RemoveAt(old(maxList), w) && currentList == RemoveAt(old(currentList), w)
      ensures playingList == RemoveAt(old(playingList), w) && masterList == RemoveAt(old(masterList), w)
      ensures mainTrackIndex == old(mainTrackIndex) && loopLength == old(loopLength)
      ensures playEnabled == old(playEnabled) && prepareEnabled == old(prepareEnabled)
    {
      RemoveEntries(w);
      trackList := RemoveAt(trackList, w);
      trackNumber := trackNumber - 1;
    }

    /** The list entries removeTrack drops along with the track. */
    method RemoveEntries(w: int)
      requires 0 <= w < |patternList| == |patternLabels| == |maxList| == |currentList| == |playingList| == |masterList|
      modifies this`patternList, this`patternLabels, this`maxList, this`currentList, this`playingList, this`masterList
      ensures patternList == RemoveAt(old(patternList), w) && patternLabels == RemoveAt(old(patternLabels), w)
      ensures maxList == RemoveAt(old(maxList), w) && currentList == RemoveAt(old(currentList), w)
      ensures playingList == RemoveAt(old(playingList), w) && masterList == RemoveAt(old(masterList), w)
    {
      patternLabels := RemoveAt(patternLabels, w);
      maxList := RemoveAt(maxList, w);
      currentList := RemoveAt(currentList, w);
      patternList := RemoveAt(patternList, w);
      playingList := RemoveAt(playingList, w);
      masterList := RemoveAt(masterList, w);
    }

    /** The Remove Track handler: remove the track the answer names, if it names one. */
    method RemoveTrackCommand(input: Option<string>) returns (removed: bool)
      requires Valid()
      modifies this
      ensures Valid()
      ensures removed == RemoveIndex(input, old(trackNumber)).Some?
      ensures removed ==> var w := RemoveIndex(input, old(trackNumber)).value;
        trackNumber == old(trackNumber) - 1 && trackList == RemoveAt(old(trackList), w) &&
        patternList == RemoveAt(old(patternList), w) && maxList == RemoveAt(old(maxList), w) &&
        currentList == RemoveAt(old(currentList), w) && mainTrackIndex == old(mainTrackIndex)
      ensures !removed ==> unchanged(this)
    {
      removed := false;
      if input.Some? {
        var v := ParseInt(input.value);
        if v.Some? && 1 <= v.value <= |trackList| {
          removed := true;
          RemoveTrack(v.value - 1);
        }
      }
    }

    /** The text the Set Pattern dialog is pre-filled with: each entry and a space. */
    method PrefillText(k: int) returns (text: string)
      requires Valid() && 0 <= k < trackNumber
      ensures text == PatternText(patternList[k])
    {
      var p := patternList[k];
      text := "";
      var j := 0;
      while j < |p|
        invariant 0 <= j <= |p|
        invariant text == Terminated(StepTexts(p[..j]), ' ')
      {
        assert StepTexts(p[..j + 1])[..j] == StepTexts(p[..j]);
        text := text + StepText(p[j]) + " ";
        j := j + 1;
      }
      assert p[..j] == p;
    }

    /**
     * Set Pattern for track k: an accepted answer replaces the pattern and
     * its label and asks for a new Prepare; a refused one changes nothing.
     * A text with no tokens is refused, as the corrected check ParsePattern does.
     */
    method SetPattern(k: int, input: Option<string>)
      requires Valid() && 0 <= k < trackNumber
      modifies this`patternList, this`patternLabels, this`playEnabled, this`prepareEnabled
      ensures Valid()
      ensures ParsePattern(input).Some? ==>
        patternList == old(patternList)[k := ParsePattern(input).value] &&
        patternLabels == old(patternLabels)[k := PATTERN_PREFIX + Display(" ", PatternTokens(input.value))] &&
        !playEnabled && prepareEnabled
      ensures ParsePattern(input).None? ==>
        patternList == old(patternList) && patternLabels == old(patternLabels) &&
        playEnabled == old(playEnabled) && prepareEnabled == old(prepareEnabled)
    {
      if input.None? {
        return;
      }
      var tokens := Split(input.value, ' ');
      var pass := ValidateTokens(tokens);
      if |tokens| == 0 {
        pass := false;
      }
      if pass {
        var r := ReadSteps(tokens, " ");
        patternList := patternList[k := r.value.0];
        patternLabels := patternLabels[k := PATTERN_PREFIX + Replace(r.value.1, " | ", "|")];
        playEnabled := false;
        prepareEnabled := true;
      }
    }

    /** Set Rate of Occurrence for track k: only an int above zero is taken, and only the rate changes. */
    method SetRate(k: int, input: Option<string>)
      requires Valid() && 0 <= k < trackNumber
      modifies this`maxList
      ensures Valid()
      ensures RateInput(input).Some? ==> maxList == old(maxList)[k := RateInput(input).value]
      ensures RateInput(input).None? ==> maxList == old(maxList)
    {
      var pass := true;
      if input.None? {
        pass := false;
      } else {
        var n := ParseInt(input.value);
        if n.None? || n.value <= 0 {
          pass := false;
        }
      }
      if pass {
        maxList := maxList[k := ParseInt(input.value).value];
      }
    }

    /**
     * Main for track k: track k becomes the main track, the only radio button
     * selected, with rate 1; a track with a file sets the loop length (its
     * length is the parameter) and enables Play unless Prepare is pending.
     */
    method SelectMaster(k: int, fileLength: string)
      requires Valid() && 0 <= k < trackNumber
      modifies this`mainTrackIndex, this`masterList, this`maxList, this`loopLength, this`playEnabled
      ensures Valid()
      ensures mainTrackIndex == k && maxList == old(maxList)[k := 1]
      ensures |masterList| == trackNumber && forall j :: 0 <= j < trackNumber ==> (masterList[j] <==> j == k)
      ensures loopLength == (if trackList[k].track.Some? then fileLength else old(loopLength))
      ensures playEnabled == (old(playEnabled) || (trackList[k].track.Some? && !prepareEnabled))
    {
      var index := 0;
      while index < |masterList|
        invariant 0 <= index <= trackNumber && Valid()
        invariant index > 0 ==> mainTrackIndex == k
        invariant forall j :: 0 <= j < index ==> (masterList[j] <==> j == k)
        invariant forall j :: index <= j < trackNumber ==> masterList[j] == old(masterList)[j]
        invariant maxList == if index > k then old(maxList)[k := 1] else old(maxList)
        invariant loopLength == (if index > 0 && trackList[k].track.Some? then fileLength else old(loopLength))
        invariant playEnabled == (old(playEnabled) || (index > 0 && trackList[k].track.Some? && !prepareEnabled))
      {
        MainStep(index, k, fileLength);
        index := index + 1;
      }
    }

    /** One pass of the Main handler's loop, over the radio button at index. */
    method MainStep(index: int, k: int, fileLength: string)
      requires 0 <= index < |masterList| && 0 <= k < |trackList| && index < |maxList|
      modifies this`mainTrackIndex, this`masterList, this`maxList, this`loopLength, this`playEnabled
      ensures mainTrackIndex == k && masterList == old(masterList)[index := index == k]
      ensures maxList == if index == k then old(maxList)[index := 1] else old(maxList)
      ensures loopLength == (if trackList[k].track.Some? then fileLength else old(loopLength))
      ensures playEnabled == (old(playEnabled) || (trackList[k].track.Some? && !prepareEnabled))
    {
      mainTrackIndex := k;
      if trackList[k].track.Some? {
        if !prepareEnabled {
          playEnabled := true;
        }
        loopLength := fileLength;
      }
      if index != k {
        masterList := masterList[index := false];
      } else {
        masterList := masterList[index := true];
        maxList := maxList[index := 1];
        mainTrackIndex := index;
      }
    }

    /**
     * Set Loop Length with an accepted length: the main track, if any, is
     * deselected and there is no main track any more. A stale main index
     * (after its track was removed) is an IndexOutOfBoundsException: the
     * length is already set and nothing else changes.
     */
    method SetLoopLength(length: string) returns (ok: bool)
      requires Valid()
      modifies this`loopLength, this`masterList, this`mainTrackIndex
      ensures Valid() && loopLength == length
      ensures ok <==> old(mainTrackIndex) == NO_MAIN || 0 <= old(mainTrackIndex) < trackNumber
      ensures ok ==> (mainTrackIndex == NO_MAIN &&
        masterList == (if old(mainTrackIndex) == NO_MAIN then old(masterList) else old(masterList)[old(mainTrackIndex) := false]))
      ensures !ok ==> mainTrackIndex == old(mainTrackIndex) && masterList == old(masterList)
    {
      loopLength := length;
      if mainTrackIndex != NO_MAIN {
        if !(0 <= mainTrackIndex < |masterList|) {
          return false;
        }
        masterList := masterList[mainTrackIndex := false];
      }
      mainTrackIndex := NO_MAIN;
      ok := true;
    }

    /** save's text accumulation: the count, loop length and main index, then five fields per track. */
    method Save() returns (text: string)
      requires Valid()
      ensures text == Encode(Snapshot())
    {
      ghost var s := Snapshot();
      text := IntToString(trackNumber) + "@" + loopLength + "@" + IntToString(mainTrackIndex) + "@";
      SaveHeader(s, text);
      var i := 0;
      while i < trackNumber
        invariant 0 <= i <= trackNumber
        invariant text == Terminated(Header(s) + AllTrackFields(s.tracks[..i]), '@')
      {
        ghost var before := text;
        assert s.tracks[i] == SavedTrack(trackList[i].track, patternList[i], playingList[i], maxList[i], currentList[i]);
        text := text + FileText(trackList[i].track) + "@";
        text := AppendPattern(text, patternList[i]);
        text := text + "@" + BoolText(playingList[i]) + "@";
        text := text + IntToString(maxList[i]) + "@";
        text := text + IntToString(currentList[i]) + "@";
        TrackTextAfter(before, s.tracks[i], text);
        SaveStep(s, i, before, text);
        i := i + 1;
      }
      assert s.tracks[..i] == s.tracks;
    }

    /**
     * load from the saved line: on success the lists hold the decoded tracks,
     * each a new AudioTrack bound to its saved file, the radio button of the
     * track at the main index is selected, and Prepare is needed.
     */
    method Load(text: string) returns (ok: bool)
      requires Valid()
      modifies this
      ensures Valid()
      ensures ok <==> Decode(text).Some?
      ensures ok ==> Snapshot() == Decode(text).value
      ensures ok ==> forall i :: 0 <= i < trackNumber ==> (masterList[i] <==> i == mainTrackIndex)
      ensures ok ==> |Split(text, '@')| >= SAVE_ARRAY_LENGTH + 5 * trackNumber && forall i :: 0 <= i < trackNumber ==>
        patternLabels[i] == LoadedLabel(Split(text, '@')[SAVE_ARRAY_LENGTH + 5 * i + 1])
      ensures ok ==> forall i :: 0 <= i < trackNumber ==> Loaded(trackList[i], trackDirectory)
      ensures ok ==> forall t :: t in trackList ==> fresh(t)
      ensures ok ==> !playEnabled && prepareEnabled
      ensures !ok ==> unchanged(this)
    {
      var saveArray := Split(text, '@');
      if |saveArray| < SAVE_ARRAY_LENGTH {
        return false;
      }
      var length := saveArray[1];
      var main := ParseInt(saveArray[2]);
      if main.None? {
        return false;
      }
      var count := ParseInt(saveArray[0]);
      if count.None? {
        return false;
      }
      var r := ReadTracks(saveArray, count.value, trackDirectory);
      if r.None? {
        return false;
      }
      ReadSoFarFacts(saveArray, trackDirectory, r.value);
      Install(length, main.value, r.value);
      ok := true;
    }

    /**
     * The lists load has filled in once every track is read: one entry per
     * decoded track, the radio button of the main index selected, and
     * Prepare needed before Play.
     */
    method Install(length: string, main: int, loaded: ReadTracksResult)
      requires |loaded.tracks| == |loaded.saved| && |loaded.labels| == |loaded.saved| && |loaded.saved| <= MAX_TRACKS
      requires forall j, m :: 0 <= j < m < |loaded.tracks| ==> loaded.tracks[j] != loaded.tracks[m]
      requires forall j :: 0 <= j < |loaded.saved| ==> loaded.tracks[j].track == loaded.saved[j].file
      modifies this
      ensures Valid() && trackList == loaded.tracks && patternLabels == loaded.labels
      ensures Snapshot() == Session(length, main, loaded.saved)
      ensures forall i :: 0 <= i < trackNumber ==> (masterList[i] <==> i == main)
      ensures !playEnabled && prepareEnabled
    {
      trackList, patternLabels := loaded.tracks, loaded.labels;
      trackNumber, mainTrackIndex, loopLength := |loaded.saved|, main, length;
      playEnabled, prepareEnabled := false, true;
      SetSavedLists(loaded.saved, main);
      assert SavedTracks(Files(), patternList, playingList, maxList, currentList) == loaded.saved;
    }

    /** The per-track lists load fills from the decoded tracks, and the radio buttons. */
    method SetSavedLists(ts: seq<SavedTrack>, main: int)
      modifies this`patternList, this`playingList, this`maxList, this`currentList, this`masterList
      ensures |patternList| == |ts| && |playingList| == |ts| && |maxList| == |ts| && |currentList| == |ts| && |masterList| == |ts|
      ensures forall j :: 0 <= j < |ts| ==>
        patternList[j] == ts[j].pattern && playingList[j] == ts[j].playing && maxList[j] == ts[j].rate && currentList[j] == ts[j].counter
      ensures forall j :: 0 <= j < |ts| ==> (masterList[j] <==> j == main)
    {
      patternList := seq(|ts|, j requires 0 <= j < |ts| => ts[j].pattern);
      playingList := seq(|ts|, j requires 0 <= j < |ts| => ts[j].playing);
      maxList := seq(|ts|, j requires 0 <= j < |ts| => ts[j].rate);
      currentList := seq(|ts|, j requires 0 <= j < |ts| => ts[j].counter);
      masterList := seq(|ts|, j => j == main);
    }

    /**
     * Play: every cursor goes back to the first entry and every counter to 1,
     * then each track fires once, playing or muted as its box says.
     */
    method Play()
      requires Valid()
      requires forall i :: 0 <= i < trackNumber ==> Startable(trackList[i].State())
      modifies this`currentList, trackList
      ensures Valid() && AllRunnable()
      ensures forall i :: 0 <= i < trackNumber ==> currentList[i] == 1
      ensures forall i :: 0 <= i < trackNumber ==>
        trackList[i].State() == Restart(old(trackList[i].State()), playingList[i]) &&
        trackList[i].track == old(trackList[i].track) && trackList[i].Setup() == old(trackList[i].Setup())
    {
      ResetCursors(trackList);
      currentList := seq(|currentList|, _ => 1);
      FireAll(trackList, playingList);
    }
  }

  /** Play's first loop: every track's cursor back to the first entry. */
  method ResetCursors(ts: seq<AudioTrack>)
    requires forall j, m :: 0 <= j < m < |ts| ==> ts[j] != ts[m]
    modifies ts
    ensures forall j :: 0 <= j < |ts| ==>
      ts[j].State() == old(ts[j].State()).(position := 0) &&
      ts[j].track == old(ts[j].track) && ts[j].Setup() == old(ts[j].Setup())
  {
    var i := 0;
    while i < |ts|
      invariant 0 <= i <= |ts|
      invariant forall j :: 0 <= j < |ts| ==> ts[j].track == old(ts[j].track) && ts[j].Setup() == old(ts[j].Setup())
      invariant forall j :: 0 <= j < i ==> ts[j].State() == old(ts[j].State()).(position := 0)
      invariant forall j :: i <= j < |ts| ==> ts[j].State() == old(ts[j].State())
    {
      ts[i].currentTrack := 0;
      i := i + 1;
    }
  }

  /** Play's second loop: each track takes its box's state and fires once. */
  method FireAll(ts: seq<AudioTrack>, playing: seq<bool>)
    requires |playing| == |ts| && forall j, m :: 0 <= j < m < |ts| ==> ts[j] != ts[m]
    requires forall j :: 0 <= j < |ts| ==> Startable(ts[j].State()) && ts[j].currentTrack == 0
    modifies ts
    ensures forall j :: 0 <= j < |ts| ==>
      ts[j].State() == Restart(old(ts[j].State()), playing[j]) &&
      ts[j].track == old(ts[j].track) && ts[j].Setup() == old(ts[j].Setup())
  {
    var i := 0;
    while i < |ts|
      invariant 0 <= i <= |ts|
      invariant forall j :: 0 <= j < |ts| ==> ts[j].track == old(ts[j].track) && ts[j].Setup() == old(ts[j].Setup())
      invariant forall j :: 0 <= j < i ==> ts[j].State() == Restart(old(ts[j].State()), playing[j])
      invariant forall j :: i <= j < |ts| ==> ts[j].State() == old(ts[j].State())
    {
      FireAs(ts[i], playing[i]);
      i := i + 1;
    }
  }

  /** What load's track loop builds: the new tracks, the decoded fields and the pattern labels. */
  datatype ReadTracksResult = ReadTracksResult(tracks: seq<AudioTrack>, saved: seq<SavedTrack>, labels: seq<string>)

  /**
   * load's track loop over the fields after the header: count tracks (none
   * for a negative count), an exception past the tenth, and each track read
   * from the five fields at saveIndex.
   */
  method ReadTracks(a: seq<string>, count: int, directory: string)
    returns (r: Option<ReadTracksResult>)
    requires |a| >= SAVE_ARRAY_LENGTH
    ensures r.None? <==> TrackCount(count) > MAX_TRACKS || DecodeTracks(a[SAVE_ARRAY_LENGTH..], TrackCount(count)).None?
    ensures r.Some? ==> DecodeTracks(a[SAVE_ARRAY_LENGTH..], TrackCount(count)) == Some(r.value.saved)
    ensures r.Some? ==> ReadSoFar(a, directory, r.value) && forall t :: t in r.value.tracks ==> fresh(t)
  {
    ghost var failedAt;
    r, failedAt := ReadLoop(a, count, directory);
    if r.Some? {
      assert DecodedSoFar(a, r.value.saved);
      DecodedAll(a, r.value.saved);
    } else if TrackCount(count) <= MAX_TRACKS {
      DecodeStops(a, SAVE_ARRAY_LENGTH, failedAt, TrackCount(count));
    }
  }

  /** The loop itself: on a failure, the track whose fields did not decode. */
  method ReadLoop(a: seq<string>, count: int, directory: string)
    returns (r: Option<ReadTracksResult>, ghost failedAt: nat)
    requires |a| >= SAVE_ARRAY_LENGTH
    ensures r.Some? ==> TrackCount(count) <= MAX_TRACKS && |r.value.saved| == TrackCount(count)
    ensures r.Some? ==> ReadSoFar(a, directory, r.value) && forall t :: t in r.value.tracks ==> fresh(t)
    ensures r.None? && TrackCount(count) <= MAX_TRACKS ==>
      failedAt < TrackCount(count) && |a| >= SAVE_ARRAY_LENGTH + 5 * failedAt &&
      DecodeTrack(a[SAVE_ARRAY_LENGTH + 5 * failedAt..]).None?
  {
    failedAt := 0;
    var acc := ReadTracksResult([], [], []);
    var saveIndex := SAVE_ARRAY_LENGTH;
    var i := 0;
    while i < count
      invariant 0 <= i <= TrackCount(count) && i <= MAX_TRACKS
      invariant saveIndex == SAVE_ARRAY_LENGTH + 5 * i <= |a| && |acc.saved| == i
      invariant ReadSoFar(a, directory, acc)
      invariant forall t :: t in acc.tracks ==> fresh(t)
    {
      if i == MAX_TRACKS {
        return None, i;
      }
      var next := ReadNext(a, saveIndex, directory, acc);
      if next.None? {
        return None, i;
      }
      acc := next.value;
      saveIndex := saveIndex + 5;
      i := i + 1;
    }
    r := Some(acc);
  }

  /** What load's loop holds after reading the tracks of acc from the fields of a. */
  ghost predicate ReadSoFar(a: seq<string>, directory: string, acc: ReadTracksResult)
    reads acc.tracks
  {
    DecodedSoFar(a, acc.saved) && LabelsSoFar(a, acc.labels) && |acc.labels| == |acc.saved| &&
    BoundSoFar(acc.tracks, acc.saved, directory) && DistinctTracks(acc.tracks)
  }

  /** The fields of the j-th track, five after the header and each other, decode as saved[j]. */
  ghost predicate DecodedSoFar(a: seq<string>, saved: seq<SavedTrack>) {
    TracksDecodeAt(a, SAVE_ARRAY_LENGTH, saved)
  }

  /** Every track read so far decoded: the tracks' fields decode as the list read. */
  lemma DecodedAll(a: seq<string>, saved: seq<SavedTrack>)
    requires DecodedSoFar(a, saved)
    ensures DecodeTracks(a[SAVE_ARRAY_LENGTH..], |saved|) == Some(saved)
  {
    DecodeEach(a, SAVE_ARRAY_LENGTH, saved);
  }

  /** The j-th label is the one load shows for the j-th track's pattern field. */
  ghost predicate LabelsSoFar(a: seq<string>, labels: seq<string>) {
    |a| >= SAVE_ARRAY_LENGTH + 5 * |labels| &&
    forall j :: 0 <= j < |labels| ==> labels[j] == LoadedLabel(a[SAVE_ARRAY_LENGTH + 5 * j + 1])
  }

  /** The j-th track is a new track bound to the j-th saved file. */
  ghost predicate BoundSoFar(tracks: seq<AudioTrack>, saved: seq<SavedTrack>, directory: string)
    reads tracks
    decreases |tracks|
  {
    |tracks| == |saved| &&
    (|tracks| > 0 ==>
      BoundSoFar(tracks[..|tracks| - 1], saved[..|saved| - 1], directory) &&
      BoundTo(tracks[|tracks| - 1], saved[|saved| - 1], directory))
  }

  /** Track j of those read so far is the one bound to saved file j. */
  lemma {:induction false} BoundAt(tracks: seq<AudioTrack>, saved: seq<SavedTrack>, directory: string, j: int)
    requires BoundSoFar(tracks, saved, directory) && 0 <= j < |tracks|
    ensures BoundTo(tracks[j], saved[j], directory)
    decreases |tracks|
  {
    var n := |tracks| - 1;
    if j < n {
      BoundAt(tracks[..n], saved[..n], directory, j);
      assert tracks[..n][j] == tracks[j] && saved[..n][j] == saved[j];
    }
  }

  /** A loaded track bound to the saved track's file. */
  ghost predicate BoundTo(t: AudioTrack, s: SavedTrack, directory: string)
    reads t
  {
    t.track == s.file && Loaded(t, directory)
  }

  ghost predicate DistinctTracks(tracks: seq<AudioTrack>) {
    forall j, m :: 0 <= j < m < |tracks| ==> tracks[j] != tracks[m]
  }

  /** One pass of load's track loop: the track at saveIndex joins those read, or the load fails. */
  method ReadNext(a: seq<string>, saveIndex: int, directory: string, acc: ReadTracksResult)
    returns (r: Option<ReadTracksResult>)
    requires ReadSoFar(a, directory, acc) && saveIndex == SAVE_ARRAY_LENGTH + 5 * |acc.saved|
    ensures r.None? ==> DecodeTrack(a[saveIndex..]).None?
    ensures r.Some? ==> ReadSoFar(a, directory, r.value)
    ensures r.Some? ==> |r.value.saved| == |acc.saved| + 1 && |r.value.tracks| == |acc.tracks| + 1
    ensures r.Some? ==> |a| >= SAVE_ARRAY_LENGTH + 5 * |r.value.saved|
    ensures r.Some? ==> forall t :: t in r.value.tracks ==> t in acc.tracks || fresh(t)
  {
    var rt := ReadTrack(a[saveIndex..], directory);
    if rt.None? {
      return None;
    }
    var (t, saved, shown) := rt.value;
    ReadSoFarSnoc(a, directory, acc, t, saved, shown);
    r := Some(ReadTracksResult(acc.tracks + [t], acc.saved + [saved], acc.labels + [shown]));
  }

  /** What the loop holds, track by track. */
  lemma ReadSoFarFacts(a: seq<string>, directory: string, acc: ReadTracksResult)
    requires ReadSoFar(a, directory, acc)
    ensures |acc.tracks| == |acc.saved| && |acc.labels| == |acc.saved| && |a| >= SAVE_ARRAY_LENGTH + 5 * |acc.saved|
    ensures forall j, m :: 0 <= j < m < |acc.tracks| ==> acc.tracks[j] != acc.tracks[m]
    ensures forall j :: 0 <= j < |acc.saved| ==> acc.tracks[j].track == acc.saved[j].file
    ensures forall j :: 0 <= j < |acc.saved| ==> acc.labels[j] == LoadedLabel(a[SAVE_ARRAY_LENGTH + 5 * j + 1])
    ensures forall j :: 0 <= j < |acc.saved| ==> Loaded(acc.tracks[j], directory)
  {
    forall j | 0 <= j < |acc.saved|
      ensures acc.tracks[j].track == acc.saved[j].file && Loaded(acc.tracks[j], directory)
    {
      BoundAt(acc.tracks, acc.saved, directory, j);
    }
  }

  /** One more track read from the next five fields keeps what the loop holds. */
  lemma ReadSoFarSnoc(a: seq<string>, directory: string, acc: ReadTracksResult, t: AudioTrack, saved: SavedTrack, shown: string)
    requires ReadSoFar(a, directory, acc)
    requires DecodeTrack(a[SAVE_ARRAY_LENGTH + 5 * |acc.saved|..]) == Some(saved)
    requires shown == LoadedLabel(a[SAVE_ARRAY_LENGTH + 5 * |acc.saved|..][1])
    requires Loaded(t, directory) && t.track == saved.file && t !in acc.tracks
    ensures ReadSoFar(a, directory, ReadTracksResult(acc.tracks + [t], acc.saved + [saved], acc.labels + [shown]))
  {
    DecodedSnoc(a, acc.saved, saved);
    LabelsSnoc(a, acc.labels, shown);
    BoundSnoc(acc.tracks, acc.saved, directory, t, saved);
    DistinctSnoc(acc.tracks, t);
  }

  lemma DecodedSnoc(a: seq<string>, saved: seq<SavedTrack>, s: SavedTrack)
    requires DecodedSoFar(a, saved) && DecodeTrack(a[SAVE_ARRAY_LENGTH + 5 * |saved|..]) == Some(s)
    ensures DecodedSoFar(a, saved + [s])
  {
    var ss := saved + [s];
    forall j | 0 <= j < |ss|
      ensures DecodeTrack(a[SAVE_ARRAY_LENGTH + 5 * j..]) == Some(ss[j])
    {
      if j < |saved| {
        assert ss[j] == saved[j];
      }
    }
  }

  lemma LabelsSnoc(a: seq<string>, labels: seq<string>, shown: string)
    requires LabelsSoFar(a, labels) && |a| >= SAVE_ARRAY_LENGTH + 5 * |labels| + 5
    requires shown == LoadedLabel(a[SAVE_ARRAY_LENGTH + 5 * |labels|..][1])
    ensures LabelsSoFar(a, labels + [shown])
  {
    var n := |labels|;
    var ls := labels + [shown];
    assert a[SAVE_ARRAY_LENGTH + 5 * n..][1] == a[SAVE_ARRAY_LENGTH + 5 * n + 1];
    forall j | 0 <= j < |ls|
      ensures ls[j] == LoadedLabel(a[SAVE_ARRAY_LENGTH + 5 * j + 1])
    {
      if j < n {
        assert ls[j] == labels[j];
      }
    }
  }

  lemma BoundSnoc(tracks: seq<AudioTrack>, saved: seq<SavedTrack>, directory: string, t: AudioTrack, s: SavedTrack)
    requires BoundSoFar(tracks, saved, directory) && Loaded(t, directory) && t.track == s.file
    ensures BoundSoFar(tracks + [t], saved + [s], directory)
  {
    var ts, ss := tracks + [t], saved + [s];
    assert ts[..|tracks|] == tracks && ss[..|saved|] == saved;
  }

  lemma DistinctSnoc(tracks: seq<AudioTrack>, t: AudioTrack)
    requires DistinctTracks(tracks) && t !in tracks
    ensures DistinctTracks(tracks + [t])
  {
  }

  /** A track as load leaves it: a new AudioTrack, bound to its file if it has one, not yet prepared. */
  ghost predicate Loaded(t: AudioTrack, directory: string)
    reads t
  {
    t.Valid() && t.trackDirectory == directory && t.play && t.currentTrack == 0 && t.playOrder == [] && t.sounding == [] &&
    (t.track.Some? ==> t.trackName == TrackName(FileName(t.track.value)))
  }

  /** The first fire of a track after Play's reset: from the first entry, playing or muted. */
  function Restart(s: TrackState, playing: bool): (r: TrackState)
    requires Startable(s)
    ensures Runnable(r)
    ensures r.hasTrack == s.hasTrack && r.play == playing && r.order == s.order
  {
    Fired(s.(position := 0), playing)
  }

  /** A fire of a track that takes its box's state first: it never fails, and leaves the track fit to fire again. */
  function Fired(s: TrackState, playing: bool): (r: TrackState)
    requires Runnable(s)
    ensures Runnable(r) && Fire(s.(play := playing)) == Some(r)
    ensures r.hasTrack == s.hasTrack && r.play == playing && r.order == s.order
  {
    FireKeepsRunnable(s.(play := playing));
    Fire(s.(play := playing)).value
  }

  /** A track takes its box's state (play = the box is selected), then fires once. */
  method FireAs(t: AudioTrack, playing: bool)
    requires Runnable(t.State())
    modifies t`play, t`currentTrack, t`sounding
    ensures t.State() == Fired(old(t.State()), playing)
    ensures t.track == old(t.track) && t.Setup() == old(t.Setup())
  {
    t.play := playing;
    FireKeepsRunnable(t.State());
    var fired := t.PlayNext();
  }

  /** save's inner loop: each entry of the pattern and a ',' after it. */
  method AppendPattern(text: string, p: seq<Step>) returns (r: string)
    ensures r == text + PatternField(p)
  {
    r := text;
    var j := 0;
    while j < |p|
      invariant 0 <= j <= |p|
      invariant r == text + Terminated(StepTexts(p[..j]), ',')
    {
      AppendPatternStep(text, p, j, r);
      r := r + StepText(p[j]) + ",";
      j := j + 1;
    }
    assert p[..j] == p;
  }

  /** One pass of save's inner loop keeps the text the entries written so far. */
  lemma AppendPatternStep(text: string, p: seq<Step>, j: int, r: string)
    requires 0 <= j < |p| && r == text + Terminated(StepTexts(p[..j]), ',')
    ensures r + StepText(p[j]) + "," == text + Terminated(StepTexts(p[..j + 1]), ',')
  {
    PatternFieldSnoc(p, j);
    AppendAssoc(text, Terminated(StepTexts(p[..j]), ','), StepText(p[j]), ",");
  }

  /** The header save writes first is the header field list, terminated. */
  lemma SaveHeader(s: Session, text: string)
    requires text == IntToString(|s.tracks|) + "@" + s.loopLength + "@" + IntToString(s.main) + "@"
    ensures text == Terminated(Header(s) + AllTrackFields(s.tracks[..0]), '@')
  {
    assert Header(s) + AllTrackFields(s.tracks[..0]) == Header(s);
    TerminatedThree(IntToString(|s.tracks|), s.loopLength, IntToString(s.main));
  }

  lemma AppendAssoc(a: string, b: string, c: string, d: string)
    ensures a + b + c + d == a + (b + c + d)
  {
  }

  /** The text appended for one track is that track's fields, terminated. */
  lemma TrackTextAfter(before: string, t: SavedTrack, after: string)
    requires after == before + FileText(t.file) + "@" + PatternField(t.pattern) + "@" + BoolText(t.playing) + "@" +
      IntToString(t.rate) + "@" + IntToString(t.counter) + "@"
    ensures after == before + Terminated(TrackFields(t), '@')
  {
    TrackText(t);
    FiveFieldsAssoc(before, FileText(t.file), PatternField(t.pattern), BoolText(t.playing),
      IntToString(t.rate), IntToString(t.counter));
  }

  /** Appending five '@'-terminated fields one by one is appending their text at once. */
  lemma FiveFieldsAssoc(before: string, f0: string, f1: string, f2: string, f3: string, f4: string)
    ensures before + f0 + "@" + f1 + "@" + f2 + "@" + f3 + "@" + f4 + "@" ==
      before + (f0 + "@" + f1 + "@" + f2 + "@" + f3 + "@" + f4 + "@")
  {
  }

  /** The text after one more track of save's loop. */
  lemma SaveStep(s: Session, i: int, before: string, after: string)
    requires 0 <= i < |s.tracks|
    requires before == Terminated(Header(s) + AllTrackFields(s.tracks[..i]), '@')
    requires after == before + Terminated(TrackFields(s.tracks[i]), '@')
    ensures after == Terminated(Header(s) + AllTrackFields(s.tracks[..i + 1]), '@')
  {
    FieldsSnoc(s, i);
    TerminatedAppend(Header(s) + AllTrackFields(s.tracks[..i]), TrackFields(s.tracks[i]), '@');
  }

  /** The fields of one more track follow those before it. */
  lemma FieldsSnoc(s: Session, i: int)
    requires 0 <= i < |s.tracks|
    ensures Header(s) + AllTrackFields(s.tracks[..i + 1]) == (Header(s) + AllTrackFields(s.tracks[..i])) + TrackFields(s.tracks[i])
  {
    assert s.tracks[..i + 1] == s.tracks[..i] + [s.tracks[i]];
    AllTrackFieldsSnoc(s.tracks[..i], s.tracks[i]);
  }

  /**
   * One pass of load's track loop over the fields at the front of rest: a
   * new AudioTrack, bound to the file unless the field is "null", and the
   * decoded fields and pattern label. Any field that does not parse, or a
   * missing field, is an exception (None).
   */
  method ReadTrack(rest: seq<string>, directory: string) returns (r: Option<(AudioTrack, SavedTrack, string)>)
    ensures r.Some? <==> DecodeTrack(rest).Some?
    ensures r.Some? ==> r.value.1 == DecodeTrack(rest).value && r.value.2 == LoadedLabel(rest[1])
    ensures r.Some? ==> fresh(r.value.0) && Loaded(r.value.0, directory) && r.value.0.track == r.value.1.file
  {
    if |rest| < 5 {
      return None;
    }
    var t := new AudioTrack(directory);
    if rest[0] != NULL_TEXT {
      t.SetTrack(rest[0]);
    }
    var fields := ReadFields(rest);
    if fields.None? {
      return None;
    }
    r := Some((t, fields.value.0, fields.value.1));
  }

  /** The fields of one track after its file: the pattern, the box, the rate and the counter, and the label shown. */
  method ReadFields(rest: seq<string>) returns (r: Option<(SavedTrack, string)>)
    requires |rest| >= 5
    ensures r.Some? <==> DecodeTrack(rest).Some?
    ensures r.Some? ==> r.value.0 == DecodeTrack(rest).value && r.value.1 == LoadedLabel(rest[1])
  {
    var file: Option<string> := if rest[0] == NULL_TEXT then None else Some(rest[0]);
    var playing := file.Some?;
    var tokens := Split(rest[1], ',');
    var steps := ReadSteps(tokens, "");
    ParseTokensAll(tokens);
    if steps.None? || |tokens| == 0 {
      return None;
    }
    ParseTokensSteps(tokens);
    if rest[2] == "true" {
      playing := true;
    }
    var rate := ParseInt(rest[3]);
    if rate.None? {
      return None;
    }
    var counter := ParseInt(rest[4]);
    if counter.None? {
      return None;
    }
    var shown := PATTERN_PREFIX + Replace(steps.value.1, " | ", "|");
    r := Some((SavedTrack(file, steps.value.0, playing, rate.value, counter.value), shown));
  }
}
