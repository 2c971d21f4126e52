// The timer's tick: every track takes its box's state, and a track whose
// counter has reached its rate fires and starts counting again.

module Loop {
  import opened JavaLang
  import opened Track
  import opened Sequencer

  /**
   * A track's counter after one tick. It goes back to 1 on the tick the
   * track fires, when it equals the rate; otherwise it goes up by one in
   * Java's int arithmetic, so past the largest int it wraps to the smallest.
   */
  function CounterStep(rate: int, c: int): (r: int)
    ensures IsInt32(r)
    ensures rate == c ==> r == 1
    ensures rate != c ==> (r - c - 1) % TWO_32 == 0
  {
    if rate == c then 1 else Wrap32(c + 1)
  }

  /** The counter after t ticks from c, with the rate left alone. */
  function CounterAfter(rate: int, c: int, t: nat): int {
    if t == 0 then c else CounterStep(rate, CounterAfter(rate, c, t - 1))
  }

  /** A track fires on a tick exactly when its counter has reached its rate. */
  predicate FiresOn(rate: int, c: int) {
    rate == c
  }

  /** One track on one tick: it takes its box's state, then fires if it is due. */
  function TrackTick(s: TrackState, playing: bool, due: bool): (r: TrackState)
    requires Runnable(s)
    ensures Runnable(r) && r.hasTrack == s.hasTrack && r.play == playing && r.order == s.order
    ensures !due ==> r == s.(play := playing)
    ensures due ==> Some(r) == Fire(s.(play := playing))
  {
    if due then Fired(s, playing) else s.(play := playing)
  }

  /** The body of the tick for one track: copy the box, fire when due. */
  method TickTrack(t: AudioTrack, playing: bool, due: bool)
    requires Runnable(t.State())
    modifies t`play, t`currentTrack, t`sounding
    ensures t.State() == TrackTick(old(t.State()), playing, due)
    ensures t.track == old(t.track) && t.Setup() == old(t.Setup())
  {
    if due {
      FireAs(t, playing);
    } else {
      t.play := playing;
    }
  }

  class PlayManager {
    /** The window whose tracks the timer drives. */
    const easyLoop: EasyLoop

    constructor(easyLoop: EasyLoop)
      ensures this.easyLoop == easyLoop
    {
      this.easyLoop := easyLoop;
    }

    /**
     * One tick of the timer. Every track fires when due as `TrackTick`
     * says and its counter moves as `CounterStep` says; nothing else of the
     * window changes.
     */
    method Tick()
      requires easyLoop.Valid() && easyLoop.AllRunnable()
      modifies easyLoop`currentList, easyLoop.trackList
      ensures easyLoop.Valid() && easyLoop.AllRunnable()
      ensures forall i :: 0 <= i < easyLoop.trackNumber ==>
        easyLoop.currentList[i] == CounterStep(easyLoop.maxList[i], old(easyLoop.currentList[i]))
      ensures forall i :: 0 <= i < easyLoop.trackNumber ==>
        easyLoop.trackList[i].State() ==
          TrackTick(old(easyLoop.trackList[i].State()), easyLoop.playingList[i], FiresOn(easyLoop.maxList[i], old(easyLoop.currentList[i])))
      ensures forall i :: 0 <= i < easyLoop.trackNumber ==>
        easyLoop.trackList[i].track == old(easyLoop.trackList[i].track) &&
        easyLoop.trackList[i].Setup() == old(easyLoop.trackList[i].Setup())
    {
      var e := easyLoop;
      var i := 0;
      while i < e.trackNumber
        invariant 0 <= i <= e.trackNumber && e.Valid()
        invariant e.trackList == old(e.trackList) && |e.currentList| == |old(e.currentList)|
        invariant forall j :: 0 <= j < e.trackNumber ==>
          e.currentList[j] == if j < i then CounterStep(e.maxList[j], old(e.currentList[j])) else old(e.currentList[j])
        invariant forall j :: 0 <= j < e.trackNumber ==>
          e.trackList[j].track == old(e.trackList[j].track) && e.trackList[j].Setup() == old(e.trackList[j].Setup())
        invariant forall j :: 0 <= j < e.trackNumber ==>
          e.trackList[j].State() ==
            if j < i then TrackTick(old(e.trackList[j].State()), e.playingList[j], FiresOn(e.maxList[j], old(e.currentList[j])))
            else old(e.trackList[j].State())
      {
        TickOne(i, e.trackList[i]);
        i := i + 1;
      }
    }

    /** One pass of the tick's loop, for the track at i. */
    method TickOne(i: int, t: AudioTrack)
      requires easyLoop.Valid() && 0 <= i < easyLoop.trackNumber && t == easyLoop.trackList[i] && Runnable(t.State())
      modifies easyLoop`currentList, t`play, t`currentTrack, t`sounding
      ensures easyLoop.currentList == old(easyLoop.currentList)[i := CounterStep(easyLoop.maxList[i], old(easyLoop.currentList[i]))]
      ensures easyLoop.trackList[i].State() ==
        TrackTick(old(easyLoop.trackList[i].State()), easyLoop.playingList[i], FiresOn(easyLoop.maxList[i], old(easyLoop.currentList[i])))
      ensures easyLoop.trackList[i].track == old(easyLoop.trackList[i].track)
      ensures easyLoop.trackList[i].Setup() == old(easyLoop.trackList[i].Setup())
    {
      var e := easyLoop;
      var due := e.maxList[i] == e.currentList[i];
      TickTrack(t, e.playingList[i], due);
      if due {
        e.currentList := e.currentList[i := 1];
      } else {
        e.currentList := e.currentList[i := Wrap32(e.currentList[i] + 1)];
      }
    }
  }

  // ---------------------------------------------------------------------
  // How the counters move
  // ---------------------------------------------------------------------

  /**
   * A track whose counter starts at 1 (as Play leaves it) with rate R
   * counts 1, 2, ..., R and fires on every R-th tick.
   */
  lemma {:induction false} EveryRateTicks(rate: int, t: nat)
    requires 1 <= rate <= MAX_INT
    ensures CounterAfter(rate, 1, t) == t % rate + 1
  {
    if t > 0 {
      EveryRateTicks(rate, t - 1);
      ModNext(t - 1, rate);
      var c := (t - 1) % rate + 1;
      assert CounterAfter(rate, 1, t) == CounterStep(rate, c);
      if c != rate {
        assert IsInt32(c + 1);
      }
    }
  }

  /** After t ticks from the start, the track has fired on exactly the ticks t with t + 1 a multiple of the rate. */
  lemma FiresEveryRate(rate: int, t: nat)
    requires 1 <= rate <= MAX_INT
    ensures FiresOn(rate, CounterAfter(rate, 1, t)) <==> (t + 1) % rate == 0
  {
    EveryRateTicks(rate, t);
    ModNext(t, rate);
  }

  /** A counter between 1 and the rate stays there. */
  lemma {:induction false} CounterStaysInRange(rate: int, c: int, t: nat)
    requires 1 <= c <= rate <= MAX_INT
    ensures 1 <= CounterAfter(rate, c, t) <= rate
  {
    if t > 0 {
      CounterStaysInRange(rate, c, t - 1);
    }
  }

  /**
   * A rate set below the counter (Set Rate does not reset it) is passed
   * by: the counter climbs on without firing until it wraps at the largest int.
   */
  lemma {:induction false} OverRateNeverFires(rate: int, c: int, t: nat)
    requires rate < c && IsInt32(c) && c + t <= MAX_INT
    ensures CounterAfter(rate, c, t) == c + t
    ensures forall u :: 0 <= u <= t ==> !FiresOn(rate, CounterAfter(rate, c, u))
  {
    if t > 0 {
      OverRateNeverFires(rate, c, t - 1);
    }
  }

  /** ... and past the largest int the counter wraps to the smallest. */
  lemma OverRateWraps(rate: int, c: int)
    requires rate < c && IsInt32(c)
    ensures CounterAfter(rate, c, (MAX_INT - c + 1) as nat) == MIN_INT
  {
    OverRateNeverFires(rate, c, (MAX_INT - c) as nat);
  }

  /** (x % n) steps forward by one, or goes back to 0 after n - 1. */
  lemma ModNext(x: nat, n: int)
    requires n >= 1
    ensures (x + 1) % n == if x % n == n - 1 then 0 else x % n + 1
  {
    ModShift(x, 1, n);
    if x % n == n - 1 {
      ModUnique(n, 1, 0, n);
    } else {
      ModUnique(x % n + 1, 0, x % n + 1, n);
    }
  }
}
