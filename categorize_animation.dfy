/** The categorize-animation-cc plugin: a frame/repetition counter driven by
    an interval tick, and a keyboard response that may be held back until
    the animation is complete. */
module CategorizeAnimation {
  import opened Common

  /** The trial parameters the plugin reads: the number of stimuli, the
      repetition count (-1: unlimited), the response gate, the answer key,
      whether feedback is shown, and whether a `stimulus_end` is given. */
  datatype Settings = Settings(
    count: nat, sequenceReps: int, allowResponseBeforeComplete: bool,
    keyAnswer: string, feedback: bool, hasStimulusEnd: bool)

  /** `animate_frame`, `reps` and `showAnimation`. */
  datatype Counter = Counter(frame: int, reps: int, showAnimation: bool)

  /** Before the first tick: frame -1, no repetition completed. */
  const Start := Counter(-1, 0, true)

  /** What a tick puts on the screen. */
  datatype Screen = Stimulus(index: int) | EndImage | FeedbackScreen(correct: bool) | Blank

  /** The counter step of one tick: the frame advances; reaching the
      stimulus count completes a repetition, which starts the next one or
      stops the animation. Once stopped the frame keeps counting. */
  function Advance(s: Settings, c: Counter): Counter {
    var frame := c.frame + 1;
    if frame == s.count then
      var reps := c.reps + 1;
      if Continues(s.sequenceReps, reps) then Counter(0, reps, c.showAnimation)
      else Counter(frame, reps, false)
    else
      c.(frame := frame)
  }

  /** The counter after k ticks. */
  function Ticks(s: Settings, k: nat): Counter {
    if k == 0 then Start else Advance(s, Ticks(s, k - 1))
  }

  /** The screen of a tick before any response: the current stimulus while
      the animation plays, then the last stimulus or the end image. */
  function Shown(s: Settings, c: Counter): Screen {
    if c.showAnimation then Stimulus(c.frame)
    else if !s.hasStimulusEnd then Stimulus(s.count - 1)
    else EndImage
  }

  /** Where the counter can be: inside a pass while the animation plays,
      at or past the stimulus count once it has stopped. */
  predicate Reachable(s: Settings, c: Counter) {
    && 0 <= c.reps
    && (c.showAnimation ==> -1 <= c.frame < s.count
                            && (s.sequenceReps == -1 || c.reps < Passes(s.sequenceReps)))
    && (!c.showAnimation ==> c.frame >= s.count && c.reps == Passes(s.sequenceReps)
                             && s.sequenceReps != -1)
  }

  /** A tick keeps the counter reachable, and a tick that leaves the
      animation playing displays an index of the stimulus list. */
  lemma AdvanceReachable(s: Settings, c: Counter)
    requires s.count >= 1 && Reachable(s, c)
    ensures Reachable(s, Advance(s, c))
    ensures Advance(s, c).showAnimation ==> 0 <= Advance(s, c).frame < s.count
    ensures !c.showAnimation ==> Advance(s, c) == c.(frame := c.frame + 1)
  {
  }

  /** Every tick leaves the counter reachable, and every tick before a
      response shows either a stimulus of the list or the end image. */
  lemma {:induction false} TicksReachable(s: Settings, k: nat)
    requires s.count >= 1
    ensures Reachable(s, Ticks(s, k))
    ensures k >= 1 && Shown(s, Ticks(s, k)).Stimulus? ==> 0 <= Shown(s, Ticks(s, k)).index < s.count
  {
    if k > 0 {
      TicksReachable(s, k - 1);
      AdvanceReachable(s, Ticks(s, k - 1));
    }
  }

  /** Tick k of pass q (counting from 0) shows stimulus r, as long as pass
      q is one the repetition count allows. */
  lemma {:induction false} WithinPass(s: Settings, q: nat, r: nat)
    requires s.count >= 1 && r < s.count
    requires s.sequenceReps == -1 || q < Passes(s.sequenceReps)
    ensures Ticks(s, q * s.count + r + 1) == Counter(r, q, true)
  {
    var n := s.count;
    if r > 0 {
      WithinPass(s, q, r - 1);
    } else if q > 0 {
      WithinPass(s, q - 1, n - 1);
      PassEnd(q, n);
    }
  }

  /** With a finite repetition count the animation stops on the tick after
      the last frame of the last pass. */
  lemma StopTick(s: Settings)
    requires s.count >= 1 && s.sequenceReps != -1
    ensures var P := Passes(s.sequenceReps);
            Ticks(s, P * s.count + 1) == Counter(s.count, P, false)
  {
    var n, P := s.count, Passes(s.sequenceReps);
    WithinPass(s, P - 1, n - 1);
    PassEnd(P, n);
    assert !Continues(s.sequenceReps, P);
    assert Ticks(s, P * n + 1) == Advance(s, Ticks(s, P * n));
  }

  /** From the stopping tick on only the frame moves. */
  lemma {:induction false} AfterLastPass(s: Settings, d: nat)
    requires s.count >= 1 && s.sequenceReps != -1
    ensures var P := Passes(s.sequenceReps);
            Ticks(s, P * s.count + 1 + d) == Counter(s.count + d, P, false)
  {
    if d == 0 {
      StopTick(s);
    } else {
      var k := Passes(s.sequenceReps) * s.count + 1 + d;
      AfterLastPass(s, d - 1);
      assert Ticks(s, k) == Advance(s, Ticks(s, k - 1));
    }
  }

  /** The response gate: while the animation plays a response counts only
      when responses before completion are allowed. */
  function Accepts(s: Settings, c: Counter): bool {
    s.allowResponseBeforeComplete || !c.showAnimation
  }

  /** What the trial hands to the experiment runner. */
  datatype ResponseData = ResponseData(rt: int, correct: int, keyPress: string)

  /** One categorize-animation-cc trial. */
  class CategorizeAnimationTrial {
    const settings: Settings

    var frame: int
    var reps: int
    var showAnimation: bool
    var responded: bool
    var timeoutSet: bool
    /** `endTrial` has run: the interval, the listener and the timeouts are gone. */
    var finished: bool
    var correct: Option<int>
    var trialData: Option<ResponseData>
    /** What `finishTrial` has been given. */
    var emitted: seq<ResponseData>

    ghost function State(): Counter
      reads this`frame, this`reps, this`showAnimation
    {
      Counter(frame, reps, showAnimation)
    }

    /** The response fixes the trial data, which is emitted once when the
        trial ends; the timeout is only set after a response with feedback. */
    ghost predicate Valid()
      reads this
    {
      && (trialData.Some? <==> responded)
      && (correct.Some? <==> responded)
      && (responded ==> trialData.value.correct == correct.value)
      && (timeoutSet ==> responded && settings.feedback)
      && (finished ==> responded)
      && emitted == (if finished then [trialData.value] else [])
    }

    constructor(s: Settings)
      ensures Valid() && settings == s && State() == Start
      ensures !responded && !timeoutSet && !finished && emitted == []
    {
      settings := s;
      frame, reps, showAnimation := -1, 0, true;
      responded, timeoutSet, finished := false, false, false;
      correct, trialData, emitted := None, None, [];
    }

    /** One interval tick: the counter step, then the stimulus before a
        response, or the feedback (scheduling its timeout once), or the end
        of the trial when there is no feedback. */
    method Tick() returns (screen: Screen)
      requires Valid() && !finished
      modifies this
      ensures Valid()
      ensures State() == Advance(settings, old(State()))
      ensures !old(responded) ==> screen == Shown(settings, State())
                                  && !responded && !timeoutSet && !finished
      ensures old(responded) && settings.feedback ==>
                screen == FeedbackScreen(correct == Some(1)) && timeoutSet && !finished
      ensures old(responded) && !settings.feedback ==>
                screen == Blank && finished && emitted == [trialData.value]
      ensures responded == old(responded) && trialData == old(trialData) && correct == old(correct)
    {
      frame := frame + 1;
      if frame == settings.count {
        reps := reps + 1;
        if Continues(settings.sequenceReps, reps) {
          frame := 0;
        } else {
          showAnimation := false;
        }
      }
      if !responded {
        if showAnimation {
          screen := Stimulus(frame);
        } else if !settings.hasStimulusEnd {
          screen := Stimulus(settings.count - 1);
        } else {
          screen := EndImage;
        }
      } else if settings.feedback {
        screen := FeedbackScreen(correct == Some(1));
        if !timeoutSet {
          timeoutSet := true;
        }
      } else {
        EndTrial();
        screen := Blank;
      }
    }

    /** The keyboard listener: held back while the animation plays unless
        early responses are allowed; otherwise it records the response and
        is cancelled. */
    method OnResponse(key: string, rt: int) returns (accepted: bool)
      requires Valid() && !responded
      modifies this`responded, this`correct, this`trialData
      ensures Valid()
      ensures accepted == Accepts(settings, State())
      ensures !accepted ==> !responded && trialData == None
      ensures accepted ==> responded
      ensures accepted ==> correct == Some(if key == settings.keyAnswer then 1 else 0)
      ensures accepted ==> trialData == Some(ResponseData(rt, correct.value, key))
    {
      if !settings.allowResponseBeforeComplete && showAnimation {
        return false;
      }
      correct := Some(if settings.keyAnswer == key then 1 else 0);
      responded := true;
      trialData := Some(ResponseData(rt, correct.value, key));
      accepted := true;
    }

    /** `endTrial`: hands the response to the experiment runner. */
    method EndTrial()
      requires Valid() && responded && !finished
      modifies this`finished, this`emitted
      ensures Valid() && finished && emitted == [trialData.value]
    {
      finished := true;
      emitted := emitted + [trialData.value];
    }

    /** The feedback timeout firing. */
    method FeedbackTimeout()
      requires Valid() && timeoutSet && !finished
      modifies this`finished, this`emitted
      ensures Valid() && finished && emitted == [trialData.value]
    {
      EndTrial();
    }
  }
}
