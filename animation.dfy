/** The animation-cc plugin: a frame/repetition counter that plays the
    stimulus list a number of times, then holds the last frame or shows an
    end image; the first keyboard response ends the trial. */
module Animation {
  import opened Common

  /** The trial parameters the plugin reads: the number of stimuli, the
      repetition count, whether a `stimulus_end` is given, and the display
      and gap durations of a frame. */
  datatype Settings = Settings(
    count: nat, sequenceReps: int, hasStimulusEnd: bool, frameTime: int, frameIsi: int)

  /** The period of the interval: a frame's display time plus its gap. */
  function IntervalTime(s: Settings): int {
    s.frameTime + s.frameIsi
  }

  /** `animate_frame`, `reps`, `showImageEnd`, and whether the interval is
      still set. */
  datatype Player = Player(frame: int, reps: int, showImageEnd: bool, running: bool)

  /** Before the first tick. */
  const Start := Player(-1, 0, false, true)

  /** What the display holds: nothing yet, a frame of the list, or the end image. */
  datatype Screen = NoImage | Image(index: int) | EndImage

  /** One tick: the frame advances; past the last frame a repetition is
      complete, and the next one starts while fewer than `sequenceReps`
      are complete; otherwise the interval is cleared, holding the last
      frame when there is no end image. */
  function Step(s: Settings, p: Player): Player {
    var frame := p.frame + 1;
    if frame >= s.count then
      var reps := p.reps + 1;
      if reps < s.sequenceReps then Player(0, reps, p.showImageEnd, p.running)
      else if !s.hasStimulusEnd then Player(s.count - 1, reps, p.showImageEnd, false)
      else Player(frame, reps, true, false)
    else
      p.(frame := frame)
  }

  /** What a tick displays. */
  function Displayed(p: Player): Screen {
    if p.showImageEnd then EndImage else Image(p.frame)
  }

  /** The player after k ticks, the interval permitting. */
  function Ticks(s: Settings, k: nat): Player {
    if k == 0 then Start
    else
      var p := Ticks(s, k - 1);
      if p.running then Step(s, p) else p
  }

  /** Where the player can be: inside a pass of the list while the interval
      runs; after the last pass, on the last frame or the end image. */
  predicate Reachable(s: Settings, p: Player) {
    && 0 <= p.reps
    && (p.running ==> -1 <= p.frame < s.count && !p.showImageEnd
                      && (p.reps == 0 || p.reps < s.sequenceReps))
    && (!p.running ==> p.reps == Passes(s.sequenceReps) && p.showImageEnd == s.hasStimulusEnd
                       && p.frame == (if s.hasStimulusEnd then s.count else s.count - 1))
  }

  /** A tick keeps the player reachable, and every frame it displays is an
      index of the list. */
  lemma StepReachable(s: Settings, p: Player)
    requires s.count >= 1 && Reachable(s, p) && p.running
    ensures Reachable(s, Step(s, p))
    ensures Displayed(Step(s, p)).Image? ==> 0 <= Displayed(Step(s, p)).index < s.count
  {
  }

  lemma {:induction false} TicksReachable(s: Settings, k: nat)
    requires s.count >= 1
    ensures Reachable(s, Ticks(s, k))
  {
    if k > 0 {
      TicksReachable(s, k - 1);
      if Ticks(s, k - 1).running {
        StepReachable(s, Ticks(s, k - 1));
      }
    }
  }

  /** Tick q * count + r + 1 shows frame r of pass q, for every pass before
      the last. */
  lemma {:induction false} WithinPass(s: Settings, q: nat, r: nat)
    requires s.count >= 1 && r < s.count && q < Passes(s.sequenceReps)
    ensures Ticks(s, q * s.count + r + 1) == Player(r, q, false, true)
  {
    var n := s.count;
    if r > 0 {
      WithinPass(s, q, r - 1);
    } else if q > 0 {
      WithinPass(s, q - 1, n - 1);
      PassEnd(q, n);
    }
  }

  /** The player stops on the tick after the last frame of pass
      `Passes(sequenceReps)`, so a count of -1 plays the list once; the
      last frame stays, or the end image is shown. */
  lemma StopTick(s: Settings)
    requires s.count >= 1
    ensures var P := Passes(s.sequenceReps);
            Ticks(s, P * s.count + 1)
              == Player(if s.hasStimulusEnd then s.count else s.count - 1, P, s.hasStimulusEnd, false)
  {
    var n, P := s.count, Passes(s.sequenceReps);
    WithinPass(s, P - 1, n - 1);
    PassEnd(P, n);
    assert !(P < s.sequenceReps);
    assert Ticks(s, P * n + 1) == Step(s, Ticks(s, P * n));
  }

  /** Once stopped the player stays where it is. */
  lemma {:induction false} LastTick(s: Settings, d: nat)
    requires s.count >= 1
    ensures var P := Passes(s.sequenceReps);
            Ticks(s, P * s.count + 1 + d)
              == Player(if s.hasStimulusEnd then s.count else s.count - 1, P, s.hasStimulusEnd, false)
  {
    if d == 0 {
      StopTick(s);
    } else {
      var k := Passes(s.sequenceReps) * s.count + 1 + d;
      LastTick(s, d - 1);
      assert Ticks(s, k) == Ticks(s, k - 1);
    }
  }

  /** What the trial hands to the experiment runner. */
  datatype AnimationData = AnimationData(keyPress: string, rt: int)

  /** The end of the response handler. */
  datatype Outcome = Finished(data: AnimationData) | Thrown

  /** The response handler as written: it marks the `#jspsych-animation-image`
      element before ending the trial, and no such element exists before
      the first frame or while the end image is shown, so the lookup throws
      there and the trial does not end. */
  function ResponseAsWritten(screen: Screen, key: string, rt: int): (o: Outcome)
    ensures o.Finished? <==> screen.Image?
  {
    if screen.Image? then Finished(AnimationData(key, rt)) else Thrown
  }

  /** A response at the end image is lost under the handler as written. */
  lemma EndImageResponseLost(key: string, rt: int)
    ensures ResponseAsWritten(EndImage, key, rt) == Thrown
    ensures ResponseAsWritten(NoImage, key, rt) == Thrown
  {
  }

  /** One animation-cc trial. */
  class AnimationTrial {
    const settings: Settings
    const intervalTime: int

    var frame: int
    var reps: int
    var showImageEnd: bool
    /** The interval has not been cleared. */
    var running: bool
    var screen: Screen
    /** The frame gap has blanked the image. */
    var hidden: bool
    /** `endTrial` has run. */
    var finished: bool
    /** What `finishTrial` has been given. */
    var emitted: seq<AnimationData>

    ghost function State(): Player
      reads this`frame, this`reps, this`showImageEnd, this`running
    {
      Player(frame, reps, showImageEnd, running)
    }

    ghost predicate Valid()
      reads this
    {
      && |emitted| == (if finished then 1 else 0)
      && (finished ==> !running)
    }

    constructor(s: Settings)
      ensures Valid() && settings == s && State() == Start
      ensures intervalTime == IntervalTime(s)
      ensures screen == NoImage && !hidden && !finished && emitted == []
    {
      settings := s;
      intervalTime := s.frameTime + s.frameIsi;
      frame, reps, showImageEnd, running := -1, 0, false, true;
      screen, hidden, finished, emitted := NoImage, false, false, [];
    }

    /** One interval tick: the player step, then the frame or end image is
        drawn afresh. */
    method Tick()
      requires Valid() && running
      modifies this`frame, this`reps, this`showImageEnd, this`running, this`screen, this`hidden
      ensures Valid()
      ensures State() == Step(settings, old(State()))
      ensures screen == Displayed(State()) && !hidden
    {
      frame := frame + 1;
      if frame >= settings.count {
        reps := reps + 1;
        if reps < settings.sequenceReps {
          frame := 0;
        } else if !settings.hasStimulusEnd {
          frame := settings.count - 1;
          running := false;
        } else {
          showImageEnd := true;
          running := false;
        }
      }
      if showImageEnd {
        screen := EndImage;
      } else {
        screen := Image(frame);
      }
      hidden := false;
    }

    /** The frame gap, `frame_time` after a frame when `frame_isi` is
        positive: the animation image is hidden. */
    method HideFrame()
      requires settings.frameIsi > 0
      modifies this`hidden
      ensures hidden <==> old(hidden) || screen.Image?
    {
      if screen.Image? {
        hidden := true;
      }
    }

    /** The first response ends the trial with the key and its time: the
        listener, the interval and the timeouts are released. */
    method OnResponse(key: string, rt: int)
      requires Valid() && !finished
      modifies this`running, this`finished, this`emitted
      ensures Valid() && finished && !running
      ensures emitted == [AnimationData(key, rt)]
    {
      running := false;
      finished := true;
      emitted := emitted + [AnimationData(key, rt)];
    }
  }
}
