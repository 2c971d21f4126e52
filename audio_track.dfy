/**
 * AudioTrack: one track of the sequencer. It holds a source file, the play
 * order built from its pattern (rendered file paths and the control tokens
 * "!", ">" and "|"), a cursor into that order, the clips currently sounding,
 * and the cache of files rendered by the external pitch-shifting tool.
 *
 * Playback is abstract: a started clip is its path appended to `sounding`,
 * and stopping clears the list. A run of the external tool is a `Render`
 * record appended to `spawned`.
 */
module Track {
  import opened JavaLang
  import opened Patterns

  const EXTENSION: string := ".wav"

  /** One run of the external tool: read `input`, write `output` shifted by `pitch` semitones. */
  datatype Render = Render(input: string, output: string, pitch: int)

  /** The fields a fire leaves alone: the source binding and the render cache. */
  datatype TrackSetup = TrackSetup(trackDir: string, trackName: string, notDone: bool, createdTracks: seq<string>, spawned: seq<Render>)

  /** The part of a track's state that one fire reads and writes. */
  datatype TrackState = TrackState(
    hasTrack: bool,
    play: bool,
    position: int,
    order: seq<string>,
    sounding: seq<string>)

  // ---------------------------------------------------------------------
  // File names
  // ---------------------------------------------------------------------

  predicate IsSeparator(c: char) {
    c == '/' || c == '\\'
  }

  /** File.getName(): the text after the last name separator. */
  function FileName(path: string): (name: string)
    ensures |name| <= |path|
    ensures forall i :: 0 <= i < |name| ==> !IsSeparator(name[i])
  {
    if path == [] then []
    else if IsSeparator(path[|path| - 1]) then []
    else FileName(path[..|path| - 1]) + [path[|path| - 1]]
  }

  /**
   * FileName is all of the text after the last separator: the name is the
   * whole path, or the character in front of it is a separator.
   */
  lemma {:induction false} FileNameAfterLastSeparator(path: string)
    ensures var name := FileName(path);
      name == path[|path| - |name|..] &&
      (|name| == |path| || IsSeparator(path[|path| - |name| - 1]))
  {
    if path != [] && !IsSeparator(path[|path| - 1]) {
      var front := path[..|path| - 1];
      FileNameAfterLastSeparator(front);
      var name := FileName(front);
      assert path[|path| - (|name| + 1)..] == front[|front| - |name|..] + [path[|path| - 1]];
      if |name| < |front| {
        assert path[|path| - (|name| + 1) - 1] == front[|front| - |name| - 1];
      }
    }
  }

  /** The track name as setTrack computes it: the regular expression ".wav" removed. */
  function TrackNameAsWritten(fileName: string): string {
    ReplaceAllDotWav(fileName)
  }

  /** The track name the model uses: the literal text ".wav" removed. */
  function TrackName(fileName: string): string {
    Replace(fileName, EXTENSION, "")
  }

  /** The file the external tool writes for a transposition of n semitones. */
  function RenderPath(directory: string, name: string, n: int): (path: string)
    ensures |path| >= |EXTENSION| + 1 && !IsControl(path)
  {
    directory + name + IntToString(n) + EXTENSION
  }

  /** The play-order entry for one pattern step. */
  function Entry(directory: string, name: string, x: Step): string {
    if x.Pitch? then RenderPath(directory, name, x.semitones) else StepText(x)
  }

  function OrderFor(directory: string, name: string, pattern: seq<Step>): (order: seq<string>)
    ensures |order| == |pattern|
  {
    seq(|pattern|, i requires 0 <= i < |pattern| => Entry(directory, name, pattern[i]))
  }

  /** The render paths a pattern needs, in pattern order. */
  function RenderedPaths(directory: string, name: string, pattern: seq<Step>): seq<string> {
    if pattern == [] then []
    else
      var last := pattern[|pattern| - 1];
      RenderedPaths(directory, name, pattern[..|pattern| - 1]) +
        (if last.Pitch? then [RenderPath(directory, name, last.semitones)] else [])
  }

  // ---------------------------------------------------------------------
  // The render cache
  // ---------------------------------------------------------------------

  predicate Distinct(s: seq<string>) {
    forall i, j :: 0 <= i < j < |s| ==> s[i] != s[j]
  }

  function Outputs(rs: seq<Render>): (r: seq<string>)
    ensures |r| == |rs| && forall i :: 0 <= i < |rs| ==> r[i] == rs[i].output
  {
    seq(|rs|, i requires 0 <= i < |rs| => rs[i].output)
  }

  /** The cache after asking for one path: unchanged when present, otherwise extended. */
  function Remember(cache: seq<string>, path: string): seq<string> {
    if path in cache then cache else cache + [path]
  }

  function RememberAll(cache: seq<string>, paths: seq<string>): seq<string> {
    if paths == [] then cache else Remember(RememberAll(cache, paths[..|paths| - 1]), paths[|paths| - 1])
  }

  // ---------------------------------------------------------------------
  // The cursor and one fire, as functions of the state
  // ---------------------------------------------------------------------

  /** One step of getValue's loop over an order of length n. */
  function Step1(cur: int, n: int): int {
    if cur < n - 1 then cur + 1 else 0
  }

  /** getValue(distance) from cursor cur over an order of length n. */
  function Advance(cur: int, distance: int, n: int): int
    decreases distance
  {
    if distance <= 0 then cur else Advance(Step1(cur, n), distance - 1, n)
  }

  /** Two steps: where a layering hop moves the cursor. */
  function Step2(cur: int, n: int): int {
    Step1(Step1(cur, n), n)
  }

  /** The clips a list of play-order entries starts: every entry except the control tokens. */
  function Audible(entries: seq<string>): seq<string> {
    if entries == [] then [] else (if IsControl(entries[0]) then [] else [entries[0]]) + Audible(entries[1..])
  }

  /** The cursor after j layering hops from q. */
  function Pos(q: int, j: nat, n: int): (r: int)
    requires 0 <= q < n
    ensures 0 <= r < n
    decreases j
  {
    if j == 0 then q else Pos(Step2(q, n), j - 1, n)
  }

  /**
   * The number of layering hops from position q: while the entry after the
   * cursor is "|", the cursor moves on by two. None when more than `fuel`
   * hops would be needed.
   */
  function HopsWithin(order: seq<string>, q: int, fuel: nat): (r: Option<nat>)
    requires 0 <= q < |order|
    ensures r.Some? ==> r.value <= fuel
    decreases fuel
  {
    var n := |order|;
    if order[Step1(q, n)] != LAYER then Some(0)
    else if fuel == 0 then None
    else match HopsWithin(order, Step2(q, n), fuel - 1)
      case None => None
      case Some(k) => Some(k + 1)
  }

  /** The layering look-ahead from q stops. */
  predicate ChainEnds(order: seq<string>, q: int)
    requires 0 <= q < |order|
  {
    HopsWithin(order, q, |order|).Some?
  }

  function Hops(order: seq<string>, q: int): (k: nat)
    requires 0 <= q < |order| && ChainEnds(order, q)
    ensures k <= |order|
  {
    HopsWithin(order, q, |order|).value
  }

  /** The layering look-ahead stops from every position. */
  predicate WellFormed(order: seq<string>) {
    forall q :: 0 <= q < |order| ==> ChainEnds(order, q)
  }

  /** The entries a fire from q with k hops starts: the entries at Pos(q, 0), ..., Pos(q, k). */
  function Started(order: seq<string>, q: int, k: nat): (r: seq<string>)
    requires 0 <= q < |order|
    ensures |r| == k + 1 && r[0] == order[q]
    decreases k
  {
    [order[q]] + (if k == 0 then [] else Started(order, Step2(q, |order|), k - 1))
  }

  /**
   * The layering loop of playNext as it runs: from cursor q with the clips
   * `snd` sounding, either the final cursor and clips, or None when it has
   * not stopped within `fuel` hops.
   */
  function LayerLoop(order: seq<string>, q: int, play: bool, snd: seq<string>, fuel: nat): Option<(int, seq<string>)>
    requires 0 <= q < |order|
    decreases fuel
  {
    var n := |order|;
    if order[Step1(q, n)] != LAYER then Some((q, snd))
    else if fuel == 0 then None
    else
      var q2 := Step2(q, n);
      LayerLoop(order, q2, play, snd + (if play && !IsControl(order[q2]) then [order[q2]] else []), fuel - 1)
  }

  /** playNext returns, rather than looping forever in the layering look-ahead. */
  predicate Terminates(s: TrackState) {
    s.hasTrack && 0 <= s.position < |s.order| ==> ChainEnds(s.order, s.position)
  }

  /**
   * A track that can be fired again and again: with a source, the cursor is
   * inside the order and the look-ahead stops from every position.
   */
  predicate Runnable(s: TrackState) {
    s.hasTrack ==> 0 <= s.position < |s.order| && WellFormed(s.order)
  }

  /**
   * One call of playNext. Without a track only the cursor moves. With a
   * track, a cursor outside the order is an IndexOutOfBoundsException (None).
   * Otherwise the sounding clips are stopped unless the current entry is ">",
   * the current entry and every entry reached by layering are started when
   * the track plays, and the cursor ends one past the last entry started.
   */
  function Fire(s: TrackState): (r: Option<TrackState>)
    requires Terminates(s)
    ensures r.None? <==> s.hasTrack && !(0 <= s.position < |s.order|)
    ensures r.Some? ==> r.value.hasTrack == s.hasTrack && r.value.play == s.play && r.value.order == s.order
  {
    var n := |s.order|;
    if !s.hasTrack then Some(s.(position := Advance(s.position, 1, n)))
    else if !(0 <= s.position < n) then None
    else
      var k := Hops(s.order, s.position);
      var kept := if s.order[s.position] == HOLD then s.sounding else [];
      var started := if s.play then Audible(Started(s.order, s.position, k)) else [];
      Some(s.(position := Step1(Pos(s.position, k, n), n), sounding := kept + started))
  }

  // ---------------------------------------------------------------------
  // The class
  // ---------------------------------------------------------------------

  class AudioTrack {
    /** The directory rendered files are written to. */
    const trackDirectory: string

    /** The source file's path, when one is set. */
    var track: Option<string>
    /** The source path handed to the tool and the name rendered files start with ("null" before setTrack). */
    var trackDir: string
    var trackName: string
    var notDone: bool
    var play: bool
    var currentTrack: int
    var playOrder: seq<string>
    var createdTracks: seq<string>
    var sounding: seq<string>
    var spawned: seq<Render>
    /** Where the runs since the last setTrack begin in `spawned`. */
    ghost var cacheStart: nat

    /** The cache lists exactly the outputs of the runs since the last setTrack, each once. */
    ghost predicate Valid()
      reads this
    {
      cacheStart <= |spawned| && createdTracks == Outputs(spawned[cacheStart..]) && Distinct(createdTracks)
    }

    function State(): TrackState
      reads this
    {
      TrackState(track.Some?, play, currentTrack, playOrder, sounding)
    }

    function Setup(): TrackSetup
      reads this
    {
      TrackSetup(trackDir, trackName, notDone, createdTracks, spawned)
    }

    constructor(trackDirectory: string)
      ensures Valid() && this.trackDirectory == trackDirectory
      ensures track == None && trackDir == "null" && trackName == "null"
      ensures !notDone && play && currentTrack == 0
      ensures playOrder == [] && createdTracks == [] && sounding == [] && spawned == []
    {
      this.trackDirectory := trackDirectory;
      track, trackDir, trackName := None, "null", "null";
      notDone, play, currentTrack := false, true, 0;
      playOrder, createdTracks, sounding, spawned := [], [], [], [];
      cacheStart := 0;
    }

    /**
     * setTrack: bind a source file; the play order and the render cache start empty.
     * The name is the literal removal of ".wav" (TrackName), not the regular
     * expression the source applies (TrackNameAsWritten).
     */
    method SetTrack(path: string)
      modifies this`track, this`trackDir, this`trackName, this`playOrder, this`createdTracks, this`cacheStart
      ensures Valid()
      ensures track == Some(path) && trackDir == path && trackName == TrackName(FileName(path))
      ensures playOrder == [] && createdTracks == []
    {
      track := Some(path);
      trackDir := path;
      trackName := TrackName(FileName(path));
      playOrder := [];
      createdTracks := [];
      cacheStart := |spawned|;
      assert spawned[cacheStart..] == [];
    }

    /** play(path): a control token starts nothing; anything else starts one clip. */
    method Play(path: string)
      modifies this`sounding
      ensures sounding == old(sounding) + (if IsControl(path) then [] else [path])
    {
      if !(path == REST || path == HOLD || path == LAYER) {
        sounding := sounding + [path];
      }
    }

    /** The iterator loop of playNext that stops and removes every clip. */
    method StopAll()
      modifies this`sounding
      ensures sounding == []
    {
      while |sounding| > 0
        decreases |sounding|
      {
        sounding := sounding[1..];
      }
    }

    /** getValue(distance): the cursor moved on `distance` times, wrapping at the end. */
    method GetValue(distance: int) returns (r: int)
      ensures r == Advance(currentTrack, distance, |playOrder|)
    {
      r := currentTrack;
      var i := distance;
      while i > 0
        invariant Advance(r, i, |playOrder|) == Advance(currentTrack, distance, |playOrder|)
      {
        if r < |playOrder| - 1 {
          r := r + 1;
        } else {
          r := 0;
        }
        i := i - 1;
      }
    }

    /** calculatePlay: move the cursor on by one. */
    method CalculatePlay()
      modifies this`currentTrack
      ensures currentTrack == Advance(old(currentTrack), 1, |playOrder|)
    {
      currentTrack := GetValue(1);
    }

    /** playNext: one fire of the track, as `Fire` describes it. */
    method PlayNext() returns (ok: bool)
      requires Terminates(State())
      modifies this`currentTrack, this`sounding
      ensures ok == Fire(old(State())).Some?
      ensures ok ==> State() == Fire(old(State())).value
      ensures !ok ==> State() == old(State())
    {
      if track.Some? {
        if !(0 <= currentTrack < |playOrder|) {
          return false;
        }
        ghost var s0 := State();
        ghost var order := playOrder;
        ghost var n := |order|;
        if playOrder[currentTrack] != HOLD {
          StopAll();
        }
        if play {
          Play(playOrder[currentTrack]);
        }
        ghost var result := FireViaLayer(s0);
        ghost var x := order[s0.position];
        assert sounding == (if x == HOLD then s0.sounding else []) + (if play && !IsControl(x) then [x] else []);
        ghost var fuel: nat := n;
        AdvanceOneTwo(currentTrack, n);
        var next := GetValue(1);
        while playOrder[next] == LAYER
          invariant playOrder == order && play == s0.play && 0 <= currentTrack < n
          invariant next == Step1(currentTrack, n)
          invariant LayerLoop(order, currentTrack, play, sounding, fuel) == Some(result)
          decreases fuel
        {
          ghost var cur := currentTrack;
          ghost var snd := sounding;
          AdvanceOneTwo(cur, n);
          currentTrack := GetValue(2);
          assert currentTrack == Step2(cur, n);
          if play {
            Play(playOrder[currentTrack]);
          }
          assert sounding == snd + (if play && !IsControl(order[currentTrack]) then [order[currentTrack]] else []);
          assert fuel > 0;
          fuel := fuel - 1;
          AdvanceOneTwo(currentTrack, n);
          next := GetValue(1);
        }
        AdvanceOneTwo(currentTrack, n);
      }
      CalculatePlay();
      ok := true;
    }

    /** createTransposedFile(n): run the tool only for a path not already in the cache. */
    method CreateTransposedFile(n: int)
      requires Valid()
      modifies this`createdTracks, this`spawned
      ensures Valid()
      ensures var path := RenderPath(trackDirectory, trackName, n);
        createdTracks == Remember(old(createdTracks), path) &&
        spawned == old(spawned) + (if path in old(createdTracks) then [] else [Render(trackDir, path, n)])
    {
      var path := trackDirectory + trackName + IntToString(n) + EXTENSION;
      if path !in createdTracks {
        var r := Render(trackDir, path, n);
        assert (spawned + [r])[cacheStart..] == spawned[cacheStart..] + [r];
        spawned := spawned + [r];
        createdTracks := createdTracks + [path];
      }
    }

    /**
     * setPlayOrder(pattern): with a source, the order is rebuilt entry by
     * entry and every transposition is rendered (once); without one the
     * order is left as it is.
     */
    method SetPlayOrder(pattern: seq<Step>)
      requires Valid()
      modifies this`notDone, this`playOrder, this`createdTracks, this`spawned
      ensures Valid() && !notDone
      ensures track.None? ==> playOrder == old(playOrder) && createdTracks == old(createdTracks) && spawned == old(spawned)
      ensures track.Some? ==>
        playOrder == OrderFor(trackDirectory, trackName, pattern) &&
        createdTracks == RememberAll(old(createdTracks), RenderedPaths(trackDirectory, trackName, pattern)) &&
        old(spawned) <= spawned
      ensures track.Some? ==> forall i :: 0 <= i < |playOrder| && !IsControl(playOrder[i]) ==> playOrder[i] in createdTracks
    {
      notDone := true;
      if track.Some? {
        playOrder := [];
        var i := 0;
        while i < |pattern|
          invariant 0 <= i <= |pattern| && Valid()
          invariant playOrder == OrderFor(trackDirectory, trackName, pattern[..i])
          invariant createdTracks == RememberAll(old(createdTracks), RenderedPaths(trackDirectory, trackName, pattern[..i]))
          invariant old(spawned) <= spawned
        {
          var o := pattern[i];
          OrderSnoc(trackDirectory, trackName, pattern, i);
          if o.Pitch? {
            RememberKeeps(createdTracks, RenderPath(trackDirectory, trackName, o.semitones));
            CreateTransposedFile(o.semitones);
            playOrder := playOrder + [trackDirectory + trackName + IntToString(o.semitones) + EXTENSION];
          } else {
            playOrder := playOrder + [StepText(o)];
          }
          i := i + 1;
        }
        assert pattern[..i] == pattern;
        OrderRendered(trackDirectory, trackName, pattern);
        RememberAllContains(old(createdTracks), RenderedPaths(trackDirectory, trackName, pattern));
      }
      notDone := false;
    }
  }

  // ---------------------------------------------------------------------
  // Arithmetic and sequence helpers
  // ---------------------------------------------------------------------

  lemma {:induction false} MulAtLeast(k: int, n: int)
    requires n > 0 && k >= 1
    ensures k * n >= n
    decreases k
  {
    if k > 1 {
      MulAtLeast(k - 1, n);
      assert k * n == (k - 1) * n + n;
    }
  }

  /** Euclidean remainders are unique. */
  lemma ModUnique(x: int, m: int, y: int, n: int)
    requires n > 0 && 0 <= y < n && x == m * n + y
    ensures x % n == y
  {
    var k := x / n - m;
    assert x == (x / n) * n + x % n;
    assert k * n == y - x % n by {
      assert (x / n) * n == m * n + k * n;
    }
    if k >= 1 {
      MulAtLeast(k, n);
    } else if k <= -1 {
      MulAtLeast(-k, n);
    }
  }

  lemma ModShift(a: int, b: int, n: int)
    requires n > 0
    ensures (a % n + b) % n == (a + b) % n
  {
    var r := (a % n + b) % n;
    var q1 := a / n;
    var q2 := (a % n + b) / n;
    assert a == q1 * n + a % n;
    assert a % n + b == q2 * n + r;
    assert a + b == (q1 + q2) * n + r;
    ModUnique(a + b, q1 + q2, r, n);
  }

  lemma {:induction false} AudibleAppend(a: seq<string>, b: seq<string>)
    ensures Audible(a + b) == Audible(a) + Audible(b)
    decreases |a|
  {
    if a == [] {
      assert a + b == b;
    } else {
      assert (a + b)[0] == a[0] && (a + b)[1..] == a[1..] + b;
      AudibleAppend(a[1..], b);
    }
  }

  lemma AudibleSingle(x: string)
    ensures Audible([x]) == if IsControl(x) then [] else [x]
  {
    assert [x][1..] == [];
  }

  /** The clips of a fire split into its first start and the starts that follow. */
  lemma FirstThenRest(kept: seq<string>, x: string, rest: seq<string>, play: bool)
    ensures kept + (if play then Audible([x] + rest) else []) ==
      (kept + (if play && !IsControl(x) then [x] else [])) + (if play then Audible(rest) else [])
  {
    AudibleAppend([x], rest);
    AudibleSingle(x);
  }

  lemma StartedTail(order: seq<string>, q: int, k: nat)
    requires 0 <= q < |order|
    ensures Started(order, q, k) == [order[q]] + Started(order, q, k)[1..]
    ensures k > 0 ==> Started(order, q, k)[1..] == Started(order, Step2(q, |order|), k - 1)
  {
  }

  /** The layering loop ends at the cursor after the hops, having added the entries it reached. */
  lemma {:induction false} LayerResult(order: seq<string>, q: int, play: bool, snd: seq<string>, fuel: nat)
    requires 0 <= q < |order| && HopsWithin(order, q, fuel).Some?
    ensures var h := HopsWithin(order, q, fuel).value;
      LayerLoop(order, q, play, snd, fuel) ==
        Some((Pos(q, h, |order|), snd + (if play then Audible(Started(order, q, h)[1..]) else [])))
    decreases fuel
  {
    var n := |order|;
    if order[Step1(q, n)] == LAYER {
      var q2 := Step2(q, n);
      var x := order[q2];
      var snd' := snd + (if play && !IsControl(x) then [x] else []);
      LayerResult(order, q2, play, snd', fuel - 1);
      var h' := HopsWithin(order, q2, fuel - 1).value;
      var rest := Started(order, q2, h');
      StartedTail(order, q, h' + 1);
      StartedTail(order, q2, h');
      FirstThenRest(snd, x, rest[1..], play);
    } else {
      assert Started(order, q, 0)[1..] == [];
      assert snd + [] == snd;
    }
  }

  /**
   * What PlayNext's loop computes: after the stop rule and the first start,
   * the loop ends at the cursor Fire moves on from, with Fire's clips.
   */
  lemma FireViaLayer(s: TrackState) returns (result: (int, seq<string>))
    requires Terminates(s) && s.hasTrack && 0 <= s.position < |s.order|
    ensures var first := (if s.order[s.position] == HOLD then s.sounding else []) +
        (if s.play && !IsControl(s.order[s.position]) then [s.order[s.position]] else []);
      LayerLoop(s.order, s.position, s.play, first, |s.order|) == Some(result) &&
      Fire(s) == Some(s.(position := Step1(result.0, |s.order|), sounding := result.1))
  {
    var order, q := s.order, s.position;
    var x := order[q];
    var kept := if x == HOLD then s.sounding else [];
    var first := kept + (if s.play && !IsControl(x) then [x] else []);
    var h := Hops(order, q);
    var st := Started(order, q, h);
    LayerResult(order, q, s.play, first, |order|);
    result := LayerLoop(order, q, s.play, first, |order|).value;
    StartedTail(order, q, h);
    FirstThenRest(kept, x, st[1..], s.play);
  }

  lemma RememberKeeps(cache: seq<string>, path: string)
    ensures cache <= Remember(cache, path) && path in Remember(cache, path)
  {
  }

  // ---------------------------------------------------------------------
  // getValue and calculatePlay
  // ---------------------------------------------------------------------

  lemma AdvanceOneTwo(cur: int, n: int)
    ensures Advance(cur, 1, n) == Step1(cur, n) && Advance(cur, 2, n) == Step2(cur, n)
  {
  }

  /** From a cursor inside the order, moving d times is adding d modulo the length. */
  lemma {:induction false} AdvanceInRange(cur: int, d: int, n: int)
    requires 0 <= cur < n && d >= 0
    ensures Advance(cur, d, n) == (cur + d) % n
    decreases d
  {
    if d > 0 {
      var c := Step1(cur, n);
      assert c == (cur + 1) % n;
      AdvanceInRange(c, d - 1, n);
      ModShift(cur + 1, d - 1, n);
    }
  }

  /** On an empty order the cursor always lands on 0. */
  lemma {:induction false} AdvanceEmpty(cur: int, d: int)
    requires cur >= 0 && d >= 1
    ensures Advance(cur, d, 0) == 0
    decreases d
  {
    if d > 1 {
      AdvanceEmpty(Step1(cur, 0), d - 1);
    }
  }

  /** From a cursor past the end of a non-empty order, the first move wraps to 0. */
  lemma AdvanceOutOfRange(cur: int, d: int, n: int)
    requires 0 < n <= cur && d >= 1
    ensures Advance(cur, d, n) == (d - 1) % n
  {
    AdvanceInRange(0, d - 1, n);
  }

  // ---------------------------------------------------------------------
  // playNext
  // ---------------------------------------------------------------------

  /** Without a source nothing is stopped or started, yet the cursor moves on by one. */
  lemma FireWithoutTrack(s: TrackState)
    requires !s.hasTrack
    ensures Fire(s).Some?
    ensures Fire(s).value.sounding == s.sounding && Fire(s).value.order == s.order
    ensures 0 <= s.position < |s.order| ==> Fire(s).value.position == (s.position + 1) % |s.order|
  {
    if 0 <= s.position < |s.order| {
      AdvanceInRange(s.position, 1, |s.order|);
    }
  }

  /**
   * The stop rule: on ">" the clips already sounding keep sounding in front
   * of the new ones; on any other entry every clip sounding afterwards was
   * started by this fire, so it is an entry of the order and not a token.
   */
  lemma FireStopRule(s: TrackState)
    requires Terminates(s) && s.hasTrack && 0 <= s.position < |s.order|
    ensures s.order[s.position] == HOLD ==> s.sounding <= Fire(s).value.sounding
    ensures Fire(s).value.sounding ==
      (if s.order[s.position] == HOLD then s.sounding else []) +
      (if s.play then Audible(Started(s.order, s.position, Hops(s.order, s.position))) else [])
    ensures s.order[s.position] != HOLD ==>
      forall i :: 0 <= i < |Fire(s).value.sounding| ==>
        Fire(s).value.sounding[i] in s.order && !IsControl(Fire(s).value.sounding[i])
  {
    var k := Hops(s.order, s.position);
    StartedInOrder(s.order, s.position, k);
    AudibleEntries(Started(s.order, s.position, k));
  }

  lemma {:induction false} StartedInOrder(order: seq<string>, q: int, k: nat)
    requires 0 <= q < |order|
    ensures forall i :: 0 <= i < |Started(order, q, k)| ==> Started(order, q, k)[i] in order
    decreases k
  {
    if k > 0 {
      StartedInOrder(order, Step2(q, |order|), k - 1);
    }
  }

  lemma {:induction false} AudibleEntries(entries: seq<string>)
    ensures forall i :: 0 <= i < |Audible(entries)| ==> Audible(entries)[i] in entries && !IsControl(Audible(entries)[i])
    decreases |entries|
  {
    if entries != [] {
      AudibleEntries(entries[1..]);
    }
  }

  /** One step inside an order of length n is adding one modulo n. */
  lemma Step1Mod(c: int, n: int)
    requires 0 <= c < n
    ensures Step1(c, n) == (c + 1) % n
  {
    if c < n - 1 {
      ModUnique(c + 1, 0, c + 1, n);
    } else {
      ModUnique(c + 1, 1, 0, n);
    }
  }

  /** After j hops from q the cursor is at q + 2j modulo n. */
  lemma {:induction false} PosClosedForm(q: int, j: nat, n: int)
    requires 0 <= q < n
    ensures Pos(q, j, n) == (q + 2 * j) % n
    decreases j
  {
    if j > 0 {
      var q1 := Step1(q, n);
      Step1Mod(q, n);
      Step1Mod(q1, n);
      ModShift(q + 1, 1, n);
      PosClosedForm(Step2(q, n), j - 1, n);
      ModShift(q + 2, 2 * (j - 1), n);
    }
  }

  /** A fire with k hops from p ends at p + 2k + 1 modulo the length of the order. */
  lemma FireClosedForm(s: TrackState)
    requires Terminates(s) && s.hasTrack && 0 <= s.position < |s.order|
    ensures Fire(s).value.position == (s.position + 2 * Hops(s.order, s.position) + 1) % |s.order|
  {
    var n := |s.order|;
    var k := Hops(s.order, s.position);
    PosClosedForm(s.position, k, n);
    Step1Mod(Pos(s.position, k, n), n);
    ModShift(s.position + 2 * k, 1, n);
  }

  /** A runnable track fires without error and stays runnable. */
  lemma FireKeepsRunnable(s: TrackState)
    requires Runnable(s)
    ensures Terminates(s) && Fire(s).Some? && Runnable(Fire(s).value)
  {
    if s.hasTrack {
      assert ChainEnds(s.order, s.position);
      var n := |s.order|;
      assert 0 <= Step1(Pos(s.position, Hops(s.order, s.position), n), n) < n;
    }
  }

  /** A fire leaves the cursor inside the order, on an entry that is not "|". */
  lemma FireEndsOffLayer(s: TrackState)
    requires Terminates(s) && s.hasTrack && 0 <= s.position < |s.order|
    ensures var r := Fire(s).value; 0 <= r.position < |s.order| && s.order[r.position] != LAYER
  {
    HopsEnd(s.order, s.position, |s.order|);
  }

  lemma {:induction false} HopsEnd(order: seq<string>, q: int, fuel: nat)
    requires 0 <= q < |order| && HopsWithin(order, q, fuel).Some?
    ensures order[Step1(Pos(q, HopsWithin(order, q, fuel).value, |order|), |order|)] != LAYER
    decreases fuel
  {
    var n := |order|;
    if order[Step1(q, n)] == LAYER {
      HopsEnd(order, Step2(q, n), fuel - 1);
    }
  }

  /** A muted track stops and moves exactly as it would when playing, and starts nothing. */
  lemma FireMuted(s: TrackState)
    requires Terminates(s) && s.play
    ensures Terminates(s.(play := false))
    ensures Fire(s.(play := false)).Some? == Fire(s).Some?
    ensures Fire(s).Some? ==> var r := Fire(s).value; var m := Fire(s.(play := false)).value;
      m.position == r.position && m.play == false &&
      (s.hasTrack ==> m.sounding == (if s.order[s.position] == HOLD then s.sounding else []) &&
                      r.sounding == m.sounding + Audible(Started(s.order, s.position, Hops(s.order, s.position))))
      && (!s.hasTrack ==> m.sounding == r.sounding)
  {
  }

  /** Without "|" in the order every fire starts the current entry and moves on by one. */
  lemma FireWithoutLayers(s: TrackState)
    requires s.hasTrack && s.play && 0 <= s.position < |s.order| && LAYER !in s.order
    ensures Terminates(s)
    ensures var r := Fire(s).value;
      r.position == (s.position + 1) % |s.order| &&
      r.sounding == (if s.order[s.position] == HOLD then s.sounding else []) + Audible([s.order[s.position]])
  {
    assert s.order[Step1(s.position, |s.order|)] != LAYER;
    Step1Mod(s.position, |s.order|);
  }

  /** The pattern [5, |, -3] played from the start sounds +5 and -3 together and comes back to 0. */
  lemma FireLayerExample(a: string, b: string)
    requires !IsControl(a) && !IsControl(b)
    ensures var s := TrackState(true, true, 0, [a, LAYER, b], ["old"]);
      Terminates(s) && Fire(s) == Some(s.(position := 0, sounding := [a, b]))
  {
    var order := [a, LAYER, b];
    assert HopsWithin(order, 2, 2) == Some(0);
    assert HopsWithin(order, 0, 3) == Some(1);
    assert Step1(0, 3) == 1 && Step2(0, 3) == 2 && Step1(2, 3) == 0;
    assert Pos(0, 1, 3) == 2;
    assert Started(order, 2, 0) == [b];
    assert Started(order, 0, 1) == [a, b];
    assert [a, b][1..] == [b];
    AudibleSingle(b);
    assert Audible([a, b]) == [a] + Audible([b]);
    var s := TrackState(true, true, 0, order, ["old"]);
    assert Hops(order, 0) == 1;
    assert order[0] != HOLD;
    assert Fire(s).value.position == 0;
    assert Fire(s).value.sounding == [a, b];
  }

  /**
   * The pattern [2, >, 4]: the first fire starts +2, the second leaves it
   * sounding and starts nothing, the third stops it and starts +4.
   */
  lemma FireHoldExample(a: string, b: string)
    requires !IsControl(a) && !IsControl(b)
    ensures var s := TrackState(true, true, 0, [a, HOLD, b], ["old"]);
      Terminates(s) && Fire(s) == Some(s.(position := 1, sounding := [a])) &&
      Terminates(s.(position := 1, sounding := [a])) &&
      Fire(s.(position := 1, sounding := [a])) == Some(s.(position := 2, sounding := [a])) &&
      Terminates(s.(position := 2, sounding := [a])) &&
      Fire(s.(position := 2, sounding := [a])) == Some(s.(position := 0, sounding := [b]))
  {
    var order := [a, HOLD, b];
    assert HopsWithin(order, 0, 3) == Some(0);
    assert HopsWithin(order, 1, 3) == Some(0);
    assert HopsWithin(order, 2, 3) == Some(0);
    assert Started(order, 0, 0) == [a] && Started(order, 1, 0) == [HOLD] && Started(order, 2, 0) == [b];
    AudibleSingle(a);
    AudibleSingle(HOLD);
    AudibleSingle(b);
    assert [a] + [] == [a];
    var s := TrackState(true, true, 0, order, ["old"]);
    assert order[0] != HOLD && order[2] != HOLD;
    assert Step1(0, 3) == 1 && Step1(1, 3) == 2 && Step1(2, 3) == 0;
    assert Fire(s).value.sounding == [a];
    assert Fire(s.(position := 1, sounding := [a])).value.sounding == [a];
    assert Fire(s.(position := 2, sounding := [a])).value.sounding == [b];
  }

  /** When the entry after q is "|" and two steps on lead back to q, the look-ahead never stops. */
  lemma {:induction false} LayerLoopForever(order: seq<string>, q: int, fuel: nat)
    requires 0 <= q < |order| && order[Step1(q, |order|)] == LAYER && Step2(q, |order|) == q
    ensures HopsWithin(order, q, fuel) == None
    decreases fuel
  {
    if fuel > 0 {
      LayerLoopForever(order, q, fuel - 1);
    }
  }

  /** The orders built from the patterns [5, |] and [|] make playNext loop forever. */
  lemma EndlessOrders(a: string)
    ensures !ChainEnds([a, LAYER], 0) && !ChainEnds([LAYER], 0)
    ensures !WellFormed([a, LAYER]) && !WellFormed([LAYER])
  {
    LayerLoopForever([a, LAYER], 0, 2);
    LayerLoopForever([LAYER], 0, 1);
  }

  lemma NoLayersWellFormed(order: seq<string>)
    requires LAYER !in order
    ensures WellFormed(order)
  {
    forall q | 0 <= q < |order| ensures ChainEnds(order, q) {
      assert order[Step1(q, |order|)] != LAYER;
    }
  }

  // ---------------------------------------------------------------------
  // setPlayOrder and the render cache
  // ---------------------------------------------------------------------

  /**
   * The order built from a pattern keeps its length and positions: tokens are
   * copied, transpositions become render paths, so an entry is "|" exactly
   * where the pattern has "|" and is audible exactly where it has a transposition.
   */
  lemma OrderForShape(directory: string, name: string, pattern: seq<Step>)
    ensures var order := OrderFor(directory, name, pattern);
      |order| == |pattern| &&
      forall i :: 0 <= i < |pattern| ==>
        (pattern[i].Pitch? <==> !IsControl(order[i])) &&
        (pattern[i].Pitch? ==> order[i] == directory + name + IntToString(pattern[i].semitones) + EXTENSION) &&
        (!pattern[i].Pitch? ==> order[i] == StepText(pattern[i])) &&
        (order[i] == LAYER <==> pattern[i] == Layer) &&
        (order[i] == HOLD <==> pattern[i] == Hold)
  {
  }

  /** One more pattern step adds its entry to the order and, for a pitch, its path to the renders. */
  lemma OrderSnoc(directory: string, name: string, pattern: seq<Step>, i: int)
    requires 0 <= i < |pattern|
    ensures OrderFor(directory, name, pattern[..i + 1]) ==
      OrderFor(directory, name, pattern[..i]) + [Entry(directory, name, pattern[i])]
    ensures var paths := RenderedPaths(directory, name, pattern[..i]);
      pattern[i].Pitch? ==>
        RenderedPaths(directory, name, pattern[..i + 1]) == paths + [RenderPath(directory, name, pattern[i].semitones)] &&
        (paths + [RenderPath(directory, name, pattern[i].semitones)])[..|paths|] == paths
    ensures !pattern[i].Pitch? ==>
      RenderedPaths(directory, name, pattern[..i + 1]) == RenderedPaths(directory, name, pattern[..i])
  {
    assert pattern[..i + 1][..i] == pattern[..i];
  }

  /** Every entry of a built order that is not a token is one of the pattern's render paths. */
  lemma {:induction false} OrderRendered(directory: string, name: string, pattern: seq<Step>)
    ensures var order := OrderFor(directory, name, pattern);
      forall i :: 0 <= i < |order| && !IsControl(order[i]) ==> order[i] in RenderedPaths(directory, name, pattern)
  {
    if pattern != [] {
      var init := pattern[..|pattern| - 1];
      OrderRendered(directory, name, init);
      var order := OrderFor(directory, name, pattern);
      assert forall i :: 0 <= i < |init| ==> order[i] == OrderFor(directory, name, init)[i];
    }
  }

  /** The cache only grows, and afterwards holds every path asked for. */
  lemma {:induction false} RememberAllContains(cache: seq<string>, paths: seq<string>)
    ensures cache <= RememberAll(cache, paths)
    ensures forall p :: p in paths ==> p in RememberAll(cache, paths)
    ensures forall p :: p in RememberAll(cache, paths) ==> p in cache || p in paths
  {
    if paths != [] {
      var init := paths[..|paths| - 1];
      RememberAllContains(cache, init);
      assert paths == init + [paths[|paths| - 1]];
    }
  }

  /** Asking again for paths the cache holds changes nothing. */
  lemma {:induction false} RememberAllPresent(cache: seq<string>, paths: seq<string>)
    requires forall p :: p in paths ==> p in cache
    ensures RememberAll(cache, paths) == cache
  {
    if paths != [] {
      var init := paths[..|paths| - 1];
      assert forall p :: p in init ==> p in paths;
      RememberAllPresent(cache, init);
    }
  }

  /** Building the same play order twice renders nothing new the second time. */
  lemma RememberAllIdempotent(cache: seq<string>, paths: seq<string>)
    ensures RememberAll(RememberAll(cache, paths), paths) == RememberAll(cache, paths)
  {
    RememberAllContains(cache, paths);
    RememberAllPresent(RememberAll(cache, paths), paths);
  }

  /** The cache never lists a path twice. */
  lemma {:induction false} RememberAllDistinct(cache: seq<string>, paths: seq<string>)
    requires Distinct(cache)
    ensures Distinct(RememberAll(cache, paths))
  {
    if paths != [] {
      RememberAllDistinct(cache, paths[..|paths| - 1]);
    }
  }

  // ---------------------------------------------------------------------
  // Track names
  // ---------------------------------------------------------------------

  /** For a name without '.', the model's track name is the name without its extension. */
  lemma {:induction false} TrackNameStripsExtension(base: string)
    requires '.' !in base
    ensures TrackName(base + EXTENSION) == base
    decreases |base|
  {
    var s := base + EXTENSION;
    if base == [] {
      assert s == EXTENSION;
      assert s[|EXTENSION|..] == [];
    } else {
      assert s[..|EXTENSION|][0] == base[0];
      assert s[1..] == base[1..] + EXTENSION;
      TrackNameStripsExtension(base[1..]);
      assert [base[0]] + base[1..] == base;
    }
  }

  /**
   * setTrack's regular expression also removes "owav" from "lowave.wav",
   * so that file and "le.wav" share the name "le" and the same render paths.
   */
  lemma TrackNameAsWrittenCollides()
    ensures TrackNameAsWritten("lowave.wav") == "le" && TrackNameAsWritten("le.wav") == "le"
  {
    assert "lowave.wav"[1..4][0] != 'w';
    assert "lowave.wav"[1..] == "owave.wav";
    assert "owave.wav"[1..4] == "wav";
    assert "owave.wav"[4..] == "e.wav";
    assert "e.wav"[1..4][0] != 'w';
    assert "e.wav"[1..] == ".wav";
    assert ".wav"[1..4] == "wav";
    assert ".wav"[4..] == [];
    assert "le.wav"[1..4][0] != 'w';
    assert "le.wav"[1..] == "e.wav";
  }

  /** The model's track names for the same two files differ. */
  lemma TrackNameKeepsDistinct()
    ensures TrackName("lowave.wav") == "lowave" && TrackName("le.wav") == "le"
  {
    assert "lowave" + EXTENSION == "lowave.wav" && "le" + EXTENSION == "le.wav";
    TrackNameStripsExtension("lowave");
    TrackNameStripsExtension("le");
  }
}
