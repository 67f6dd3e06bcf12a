/** The trial object of the multi-view plugins: the variables of the
    plugin closure, updated by the interval tick and the two keyboard
    listeners, proved against the engine functions of TrialEngine. */
module MultiViewTrials {
  import opened Common
  import opened ViewGrid
  import opened MovementInput
  import opened TrajectoryLog
  import opened TrialEngine

  /** The data handed to the experiment runner at the end of the trial:
      the classification, the log (each array is joined with spaces by the
      runner) and the movement count. */
  datatype TrialData = TrialData(
    keyClassification: string, correct: int, rtClassification: int,
    log: Log, nMovements: int)

  /** How a call of `endTrial` ends: the data is handed over, or the call throws. */
  datatype EndOutcome = Finished(data: TrialData) | Thrown

  /** `endTrial` as written: when the trial is drawn on a canvas it removes
      the prompt element, which is only created when a prompt is given, so
      without a prompt the call throws before the listeners are cancelled,
      the interval is cleared and the data is handed over. */
  function EndTrialAsWritten(renderOnCanvas: bool, hasPrompt: bool, data: TrialData): (o: EndOutcome)
    ensures o.Finished? <==> !renderOnCanvas || hasPrompt
    ensures o.Finished? ==> o.data == data
  {
    if renderOnCanvas && !hasPrompt then Thrown else Finished(data)
  }

  /** With the default parameters (drawn on a canvas, no prompt) every call
      of `endTrial` as written throws, so the trial data is never handed over
      and each later tick that calls it throws again. */
  lemma DefaultsNeverFinish(data: TrialData)
    ensures EndTrialAsWritten(true, false, data) == Thrown
    ensures EndTrialAsWritten(true, true, data) == Finished(data)
  {
  }

  /** One trial of a multi-view plugin: the variables its closure updates
      from the interval tick and the two keyboard listeners. */
  class MultiViewTrial {
    const cfg: Config

    /** The animation variables of the closure (view, frame, repetition,
        pending movement, move counters, phase flags and the log), held as
        one record whose fields the methods update one at a time. */
    var eng: Engine

    var responded: bool
    var timeoutSet: bool
    /** `endTrial` has run: the interval, timeouts and listeners are gone. */
    var finished: bool

    var correct: Option<int>
    var trialData: Option<TrialData>
    /** What `finishTrial` has been given. */
    var emitted: seq<TrialData>

    /** A response stops the animation and fixes the trial data; the trial
        data is emitted once, when the trial finishes. */
    ghost predicate LifecycleValid()
      reads this
    {
      && (responded ==> !eng.showAnimation)
      && (trialData.Some? <==> responded)
      && (responded ==> correct.Some? && trialData.value.correct == correct.value
                        && trialData.value.log == eng.log && trialData.value.nMovements == eng.m)
      && (timeoutSet ==> responded && cfg.feedback)
      && (finished ==> responded)
      && |emitted| == (if finished then 1 else 0)
      && (finished ==> emitted[0] == trialData.value)
    }

    /** No response yet: nothing scheduled, nothing emitted. */
    ghost predicate Waiting()
      reads this
    {
      !responded && trialData.None? && !timeoutSet && !finished && emitted == []
    }

    ghost predicate Valid()
      reads this
    {
      eng.Valid(cfg) && LifecycleValid()
    }

    /** Trial set-up: start view, frame 0, the starting phase from the
        budgets, and a log holding the starting view and frame. */
    constructor(c: Config)
      requires c.Valid()
      ensures Valid() && cfg == c && eng == Initial(c) && Waiting()
    {
      cfg := c;
      eng := Initial(c);
      responded, timeoutSet, finished := false, false, false;
      correct, trialData, emitted := None, None, [];
    }

    /** One interval tick at elapsed time `now`. Before a response it runs
        the engine step when the animation is on; after a response it
        schedules the feedback timeout once, or ends the trial at once when
        there is no feedback. */
    method Tick(now: int)
      requires Valid() && !finished
      modifies this
      ensures Valid()
      ensures !old(responded) ==> eng == EngineTick(cfg, old(eng), now) && Waiting()
      ensures old(responded) ==> eng == old(eng) && responded && trialData == old(trialData)
      ensures old(responded) && cfg.feedback ==> timeoutSet && !finished && emitted == []
      ensures old(responded) && !cfg.feedback ==> finished && emitted == [trialData.value]
    {
      if !responded {
        TickKeepsValid(cfg, eng, now);
        if eng.showAnimation {
          Advance(now);
        }
      } else if cfg.feedback {
        if !timeoutSet {
          timeoutSet := true;
        }
      } else {
        EndTrial();
      }
    }

    /** The engine step of one tick: apply the pending movement to the
        view, advance the frame when the phase allows, log the row, spend
        the movement budget, and wrap or end the sequence at frame T. */
    method Advance(now: int)
      requires eng.Valid(cfg) && eng.showAnimation
      modifies this`eng
      ensures eng == EngineTick(cfg, old(eng), now)
    {
      var jOld, iOld, tOld, mOld := eng.j, eng.i, eng.t, eng.m;
      var j, i, moved := Navigate(eng.j.value, eng.i.value, eng.delta, eng.lambda);
      if eng.moveToPlay && !moved {
        return;
      }
      eng := eng.(j := Some(j), i := Some(i));
      if eng.moveToPlay {
        MoveToPlayStep(now);
      } else {
        PlayingStep(now, moved);
      }
      if eng.t.value >= cfg.T {
        if Continues(cfg.sequenceReps, eng.reps.value + 1) {
          WrapSequence();
        } else {
          EndSequence(jOld, iOld, tOld, mOld);
        }
      }
    }

    /** Applies a pending movement to a view: theta wraps around the J
        columns; a phi step past either pole keeps phi and turns theta
        half-way round. */
    method Navigate(j: int, i: int, delta: int, lambda: int) returns (nj: int, ni: int, moved: bool)
      requires cfg.Valid() && InGrid(cfg.J, cfg.I, j, i)
      requires -1 <= delta <= 1 && -1 <= lambda <= 1
      ensures View(nj, ni) == Step(View(j, i), delta, lambda, cfg.J, cfg.I)
      ensures moved == Moved(delta, lambda)
    {
      moved := false;
      nj, ni := j, i;
      if delta != 0 {
        nj := WrapTheta(nj, delta, cfg.J);
        moved := true;
      }
      if lambda != 0 {
        ni := ni + lambda;
        if ni >= cfg.I || ni < 0 {
          ni := ni - lambda;
          nj := HalfTurn(nj, cfg.J);
        }
        moved := true;
      }
    }

    /** A move-to-play tick after a movement: the frame advances, the move
        is counted against M0, and the phase passes to playing once M0 is
        spent. */
    method MoveToPlayStep(now: int)
      requires eng.t.Some? && eng.moveToPlay && Moved(eng.delta, eng.lambda)
      modifies this`eng
      ensures eng == MoveToPlayTick(cfg, old(eng), now)
    {
      eng := eng.(t := Some(eng.t.value + 1));
      eng := eng.(m0 := eng.m0 + 1);
      eng := eng.(m := eng.m + 1);
      eng := eng.(moveToPlay := InMoveToPlay(cfg.M0, eng.m0));
      if !eng.moveToPlay {
        eng := eng.(playing := true);
        eng := eng.(movable := eng.movableInPlaying);
      }
      eng := eng.(log := eng.log.Push(Row(eng.t, eng.reps, eng.j, eng.i, now, Some(eng.delta),
                                          Some(eng.lambda), eng.rtM, Some(1), MoveToPlayCode)));
      eng := eng.(delta := 0, lambda := 0, rtM := None);
    }

    /** A playing tick: the frame advances and is logged; a movement while
        movement is allowed is counted against M1 and consumed. */
    method PlayingStep(now: int, moved: bool)
      requires eng.t.Some? && !eng.moveToPlay && moved == Moved(eng.delta, eng.lambda)
      modifies this`eng
      ensures eng == PlayingTick(cfg, old(eng), now)
    {
      eng := eng.(t := Some(eng.t.value + 1));
      eng := eng.(log := eng.log.Push(Row(eng.t, eng.reps, eng.j, eng.i, now, Some(eng.delta),
                                          Some(eng.lambda), eng.rtM, Some(if moved then 1 else 0),
                                          PlayingCode)));
      if eng.movableInPlaying && moved {
        eng := eng.(m1 := eng.m1 + 1);
        eng := eng.(m := eng.m + 1);
        eng := eng.(movableInPlaying := MovableInPlaying(cfg.M1, eng.m1));
        eng := eng.(delta := 0, lambda := 0, rtM := None);
        eng := eng.(movable := eng.movableInPlaying);
      }
    }

    /** Frame T with repetitions left: frame 0 of the next repetition,
        written over the newest row. */
    method WrapSequence()
      requires eng.reps.Some? && |eng.log.rows| >= 1
      modifies this`eng
      ensures eng == Wrapped(old(eng))
    {
      eng := eng.(reps := Some(eng.reps.value + 1));
      eng := eng.(t := Some(0));
      eng := eng.(log := eng.log.Rewind(eng.t, eng.reps));
    }

    /** Frame T in the last repetition: the end stimulus, or the view and
        frame from before the tick, the log closed and the phases over. */
    method EndSequence(jOld: Option<int>, iOld: Option<int>, tOld: Option<int>, mOld: int)
      requires eng.reps.Some? && |eng.log.rows| >= 1
      modifies this`eng
      ensures eng == Ended(cfg, old(eng), jOld, iOld, tOld, mOld)
    {
      var j, i, t := jOld, iOld, tOld;
      if cfg.hasStimulusEnd {
        j, i, t := None, None, None;
      }
      eng := eng.(j := j, i := i, t := t, reps := None, log := eng.log.Close(t, None, j, i));
      eng := eng.(moveToPlay := false, playing := false, showAnimation := false, m := mOld, movable := false);
    }

    /** A key of the movement listener. */
    method OnMovementKey(key: string, rt: int, drawDelta: int, drawLambda: int)
      requires Valid() && eng.movable && key in EnabledKeys(cfg.movementSlots)
      requires IsDraw(drawDelta, drawLambda)
      modifies this`eng
      ensures Valid()
      ensures var p := KeyPress(cfg, old(eng), key, rt, drawDelta, drawLambda);
              eng == old(eng).(delta := p.delta, lambda := p.lambda, rtM := p.rt)
    {
      var p := eng.Pending();
      if cfg.typeOfMovements == "c" {
        p := PressKey(p, cfg.movementSlots, key, rt);
      } else if cfg.typeOfMovements == "r" {
        if eng.delta == 0 && eng.lambda == 0 {
          p := MovementInput.Pending(drawDelta, drawLambda, Some(rt));
        }
      }
      eng := eng.(delta := p.delta, lambda := p.lambda, rtM := p.rt);
      ghost var q := KeyPress(cfg, old(eng), key, rt, drawDelta, drawLambda);
      assert p == q;
      assert eng.Valid(cfg);
    }

    /** A key of the classification listener, which lives until the first
        accepted response. */
    method OnClassification(key: string, rt: int) returns (accepted: bool)
      requires Valid() && !responded
      modifies this
      ensures Valid()
      ensures accepted == Accepts(cfg, old(eng))
      ensures !accepted ==> unchanged(this)
      ensures accepted ==> eng == Classified(cfg, old(eng))
      ensures accepted ==> responded && !timeoutSet && !finished && emitted == []
      ensures accepted ==> correct == Some(if key == cfg.keyClass then 1 else 0)
      ensures accepted ==> trialData == Some(TrialData(key, correct.value, rt, eng.log, eng.m))
    {
      if (!cfg.allowInMoveToPlay && eng.moveToPlay) || (!cfg.allowInPlaying && eng.playing) {
        return false;
      }
      StopAnimation();
      correct := Some(if cfg.keyClass == key then 1 else 0);
      responded := true;
      trialData := Some(TrialData(key, correct.value, rt, eng.log, eng.m));
      accepted := true;
    }

    /** The part of an accepted response that stops the animation: the
        movement arrays are closed when a phase is interrupted, and the
        movement listener is cancelled. */
    method StopAnimation()
      requires eng.Valid(cfg)
      modifies this`eng
      ensures eng == Classified(cfg, old(eng))
    {
      if eng.moveToPlay || eng.playing {
        eng := eng.(log := eng.log.Interrupt(PhaseCodeOf(eng.moveToPlay)));
      }
      eng := eng.(moveToPlay := false, playing := false);
      eng := eng.(showAnimation := false);
      if eng.movable {
        eng := eng.(movable := false);
      }
    }

    /** `endTrial`: releases the interval, the timeouts and both listeners
        and hands the trial data to the experiment runner. */
    method EndTrial()
      requires Valid() && responded && !finished
      modifies this`finished, this`emitted
      ensures Valid() && finished && emitted == [trialData.value]
    {
      finished := true;
      emitted := emitted + [trialData.value];
    }

    /** The feedback timeout firing. */
    method FeedbackTimeout()
      requires Valid() && timeoutSet && !finished
      modifies this`finished, this`emitted
      ensures Valid() && finished && emitted == [trialData.value]
    {
      EndTrial();
    }
  }
}
