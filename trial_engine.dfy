/** The tick-driven trial engine shared by the move-view, move-view with
    obstacles, select-view and proactive plugins: viewpoint navigation, the
    move-to-play / playing / ended phases with their movement budgets, the
    movement and classification handlers, and the trajectory log. */
module TrialEngine {
  import opened Common
  import opened ViewGrid
  import opened MovementInput
  import opened TrajectoryLog

  /** The trial parameters the engine reads. J, I and T are the grid shape
      (read off the directory array, or given as `n_views` and `T`);
      a budget or `sequenceReps` of -1 means unlimited. */
  datatype Config = Config(
    J: int, I: int, T: int,
    startJ: int, startI: int,
    M0: int, M1: int,
    sequenceReps: int,
    hasStimulusEnd: bool,
    allowInMoveToPlay: bool, allowInPlaying: bool,
    feedback: bool,
    typeOfMovements: string,
    movementSlots: seq<Option<string>>,
    keyClass: string)
  {
    predicate Valid() {
      ValidShape(J, I) && T >= 1 && InGrid(J, I, startJ, startI) && |movementSlots| == 4
    }
  }

  /** Codes written to `phases_times`. */
  const MoveToPlayCode := 0
  const PlayingCode := 1
  const EndedCode := 2

  /** The move-to-play phase lasts while fewer than M0 moves were made
      (m0 counts from -1). */
  function InMoveToPlay(M0: int, m0: int): bool {
    M0 == -1 || m0 < M0 - 1
  }

  /** Movement stays allowed in the playing phase while fewer than M1
      moves were made there (m1 counts from -1). */
  function MovableInPlaying(M1: int, m1: int): bool {
    M1 == -1 || m1 < M1 - 1
  }

  /** A move counted in move-to-play stays within the M0 budget, and the
      phase turns to playing exactly when the budget is spent. */
  lemma CountMoveToPlay(M0: int, m0: int)
    requires InMoveToPlay(M0, m0) && m0 >= -1
    requires M0 != -1 ==> m0 + 1 <= Max(M0, 0)
    ensures M0 != -1 ==> m0 + 2 <= Max(M0, 0)
    ensures !InMoveToPlay(M0, m0 + 1) ==> M0 != -1 && m0 + 2 == Max(M0, 0)
  {
  }

  /** A move counted in the playing phase stays within the M1 budget. */
  lemma CountPlaying(M1: int, m1: int)
    requires MovableInPlaying(M1, m1) && m1 >= -1
    requires M1 != -1 ==> m1 + 1 <= Max(M1, 0)
    ensures M1 != -1 ==> m1 + 2 <= Max(M1, 0)
  {
  }


  /** The variables of the engine: the view, frame and repetition shown,
      the pending movement, the move counters, the phase flags and the
      trajectory log. */
  datatype Engine = Engine(
    j: Option<int>, i: Option<int>, t: Option<int>, reps: Option<int>,
    delta: int, lambda: int, rtM: Option<int>,
    m0: int, m1: int, m: int,
    moveToPlay: bool, playing: bool, movableInPlaying: bool, movable: bool, showAnimation: bool,
    log: Log)
  {
    function Pending(): MovementInput.Pending {
      MovementInput.Pending(delta, lambda, rtM)
    }

    /** The view is on the grid and the frame below T, or all three are
        'None' after the animation ended on the end stimulus. */
    predicate ViewOk(c: Config) {
      && (j.Some? <==> i.Some?) && (j.Some? <==> t.Some?)
      && (j.Some? ==> InGrid(c.J, c.I, j.value, i.value) && 0 <= t.value < c.T)
      && (j.None? ==> c.hasStimulusEnd && !showAnimation)
      && (showAnimation ==> j.Some? && reps.Some? && reps.value >= 0)
    }

    /** The phase flags agree with each other and with the move budgets:
        at most M0 moves in move-to-play, at most M1 in playing. */
    predicate PhaseOk(c: Config) {
      && !(moveToPlay && playing)
      && showAnimation == (moveToPlay || playing)
      && movable == (moveToPlay || (playing && movableInPlaying))
      && movableInPlaying == MovableInPlaying(c.M1, m1)
      && (moveToPlay ==> InMoveToPlay(c.M0, m0))
      && (playing ==> c.M0 != -1 && m0 + 1 == Max(c.M0, 0))
      && m0 >= -1 && m1 >= -1
      && (c.M0 != -1 ==> m0 + 1 <= Max(c.M0, 0))
      && (c.M1 != -1 ==> m1 + 1 <= Max(c.M1, 0))
      && m0 + m1 + 1 <= m <= m0 + m1 + 2
      && (showAnimation ==> m == m0 + m1 + 2)
    }

    /** A pending movement is one step per axis, carries its RT exactly
        when it is a movement, and is zero while movement is not allowed. */
    predicate PendingOk() {
      && -1 <= delta <= 1 && -1 <= lambda <= 1
      && (showAnimation && !movable ==> delta == 0 && lambda == 0)
      && (showAnimation ==> (rtM.Some? <==> Moved(delta, lambda)))
    }

    /** The log is in range, its newest row is the current view, and its
        movement arrays are closed exactly when the animation has stopped. */
    predicate LogOk(c: Config) {
      && log.EndsAt(t, reps, j, i)
      && (log.tail.None? <==> showAnimation)
      && log.Bounded(c.J, c.I, c.T)
    }

    predicate Valid(c: Config) {
      c.Valid() && ViewOk(c) && PhaseOk(c) && PendingOk() && LogOk(c)
    }

    /** The next tick advances the frame: every tick in the playing phase,
        and only ticks with a pending movement in move-to-play. */
    predicate Advances() {
      playing || (moveToPlay && Moved(delta, lambda))
    }

    /** The next tick completes the last repetition. */
    predicate SequenceEnds(c: Config) {
      Advances() && t.Some? && reps.Some?
      && t.value + 1 >= c.T && !Continues(c.sequenceReps, reps.value + 1)
    }

    /** The phase code of the row the next tick logs. */
    function PhaseCode(): int {
      PhaseCodeOf(moveToPlay)
    }

    /** The row the next tick logs, given the view and frame it shows and
        the elapsed time. */
    function NextRow(t': Option<int>, reps': Option<int>, j': Option<int>, i': Option<int>, now: int): Row {
      Row(t', reps', j', i', now, Some(delta), Some(lambda), rtM,
          Some(if Moved(delta, lambda) then 1 else 0), PhaseCode())
    }
  }

  /** The phase code of a row logged in move-to-play or in playing. */
  function PhaseCodeOf(moveToPlay: bool): int {
    if moveToPlay then MoveToPlayCode else PlayingCode
  }

  /** Trial set-up: the start view at frame 0 of repetition 0, the
      starting phase from the budgets (m0 = m1 = -1), nothing pending, and a
      log holding the start view. */
  function Initial(c: Config): (e: Engine)
    requires c.Valid()
    ensures e.Valid(c) && e.log == Start(c.startJ, c.startI) && e.m == 0
    ensures e.moveToPlay <==> c.M0 == -1 || c.M0 > 0
    ensures e.playing <==> !e.moveToPlay
    ensures e.movable <==> e.moveToPlay || c.M1 == -1 || c.M1 > 0
    ensures e.Pending() == NoPending
  {
    var inMoveToPlay := InMoveToPlay(c.M0, -1);
    var inPlaying := MovableInPlaying(c.M1, -1);
    Engine(Some(c.startJ), Some(c.startI), Some(0), Some(0), 0, 0, None, -1, -1, 0,
           inMoveToPlay, !inMoveToPlay, inPlaying, inMoveToPlay || inPlaying, true,
           Start(c.startJ, c.startI))
  }

  /** The pending movement applied to the view. */
  function Navigated(c: Config, e: Engine): Engine
    requires c.Valid() && e.j.Some? && e.i.Some? && InGrid(c.J, c.I, e.j.value, e.i.value)
    requires -1 <= e.delta <= 1 && -1 <= e.lambda <= 1
  {
    var v := Step(View(e.j.value, e.i.value), e.delta, e.lambda, c.J, c.I);
    e.(j := Some(v.j), i := Some(v.i))
  }

  /** A move-to-play tick with a movement: the frame advances, the move is
      counted, the phase turns to playing once M0 moves are made, and the
      movement is consumed. */
  function MoveToPlayTick(c: Config, e: Engine, now: int): Engine
    requires e.t.Some?
  {
    var t' := Some(e.t.value + 1);
    var m0' := e.m0 + 1;
    var stay := InMoveToPlay(c.M0, m0');
    e.(t := t', m0 := m0', m := e.m + 1, moveToPlay := stay,
       playing := if stay then e.playing else true,
       movable := if stay then e.movable else e.movableInPlaying,
       log := e.log.Push(e.NextRow(t', e.reps, e.j, e.i, now)),
       delta := 0, lambda := 0, rtM := None)
  }

  /** A playing tick: the frame advances; a movement while movement is
      allowed is counted against M1 and consumed. */
  function PlayingTick(c: Config, e: Engine, now: int): Engine
    requires e.t.Some?
  {
    var t' := Some(e.t.value + 1);
    var logged := e.(t := t', log := e.log.Push(e.NextRow(t', e.reps, e.j, e.i, now)));
    if e.movableInPlaying && Moved(e.delta, e.lambda) then
      var stay := MovableInPlaying(c.M1, e.m1 + 1);
      logged.(m1 := e.m1 + 1, m := e.m + 1, movableInPlaying := stay,
              delta := 0, lambda := 0, rtM := None, movable := stay)
    else
      logged
  }

  /** Frame T reached with repetitions left: frame 0 of the next repetition,
      written over the newest row. */
  function Wrapped(e: Engine): Engine
    requires e.reps.Some? && |e.log.rows| >= 1
  {
    var reps' := Some(e.reps.value + 1);
    e.(t := Some(0), reps := reps', log := e.log.Rewind(Some(0), reps'))
  }

  /** Frame T reached in the last repetition: the view and frame from
      before the tick (or 'None' for the end stimulus) are written over the
      newest row, the log is closed, the phases end and the tick's move is
      not counted in m. */
  function Ended(c: Config, e: Engine, jOld: Option<int>, iOld: Option<int>, tOld: Option<int>, mOld: int): Engine
    requires |e.log.rows| >= 1
  {
    var j' := if c.hasStimulusEnd then None else jOld;
    var i' := if c.hasStimulusEnd then None else iOld;
    var t' := if c.hasStimulusEnd then None else tOld;
    e.(j := j', i := i', t := t', reps := None, log := e.log.Close(t', None, j', i'),
       moveToPlay := false, playing := false, showAnimation := false, m := mOld, movable := false)
  }

  /** The engine step of one interval tick at elapsed time `now`, while no
      response has come. */
  function EngineTick(c: Config, e: Engine, now: int): (r: Engine)
    requires e.Valid(c)
    ensures !e.Advances() ==> r == e
    ensures e.Advances() ==> |r.log.rows| == |e.log.rows| + 1
    ensures r.movable ==> e.movable
  {
    if !e.Advances() then e
    else
      var n := Navigated(c, e);
      var p := if e.moveToPlay then MoveToPlayTick(c, n, now) else PlayingTick(c, n, now);
      if p.t.value < c.T then p
      else if Continues(c.sequenceReps, p.reps.value + 1) then Wrapped(p)
      else Ended(c, p, e.j, e.i, e.t, e.m)
  }

  /** The state after a phase step has logged its row: valid, except that
      the frame may have reached T. */
  predicate Stepped(c: Config, p: Engine) {
    && c.Valid() && p.PhaseOk(c) && p.PendingOk()
    && p.showAnimation && p.j.Some? && p.i.Some? && p.t.Some? && p.reps.Some? && p.reps.value >= 0
    && InGrid(c.J, c.I, p.j.value, p.i.value) && 1 <= p.t.value <= c.T
    && p.log.EndsAt(p.t, p.reps, p.j, p.i) && p.log.tail.None?
  }

  lemma MoveToPlayTickStepped(c: Config, e: Engine, now: int)
    requires e.Valid(c) && e.moveToPlay && Moved(e.delta, e.lambda)
    ensures Stepped(c, MoveToPlayTick(c, Navigated(c, e), now))
  {
    CountMoveToPlay(c.M0, e.m0);
  }

  lemma PlayingTickStepped(c: Config, e: Engine, now: int)
    requires e.Valid(c) && e.playing
    ensures Stepped(c, PlayingTick(c, Navigated(c, e), now))
  {
    if e.movableInPlaying && Moved(e.delta, e.lambda) {
      CountPlaying(c.M1, e.m1);
    }
  }

  lemma ContinueKeepsValid(c: Config, p: Engine, before: Log, row: Row)
    requires Stepped(c, p) && p.t.value < c.T
    requires before.Bounded(c.J, c.I, c.T) && p.log == before.Push(row) && row.InRange(c.J, c.I, c.T)
    ensures p.Valid(c)
  {
    PushBounded(before, row, c.J, c.I, c.T);
  }

  lemma WrapKeepsValid(c: Config, p: Engine, before: Log, row: Row)
    requires Stepped(c, p) && p.t.value == c.T
    requires before.Bounded(c.J, c.I, c.T) && p.log == before.Push(row)
    requires row.(t := Some(0), reps := Some(p.reps.value + 1)).InRange(c.J, c.I, c.T)
    ensures Wrapped(p).Valid(c)
  {
    RewindPush(before, row, Some(0), Some(p.reps.value + 1));
    PushBounded(before, row.(t := Some(0), reps := Some(p.reps.value + 1)), c.J, c.I, c.T);
  }

  lemma EndKeepsValid(c: Config, p: Engine, before: Log, row: Row,
                      jOld: Option<int>, iOld: Option<int>, tOld: Option<int>, mOld: int)
    requires Stepped(c, p) && p.t.value == c.T
    requires before.Bounded(c.J, c.I, c.T) && before.tail.None? && p.log == before.Push(row)
    requires jOld.Some? && iOld.Some? && tOld.Some?
    requires InGrid(c.J, c.I, jOld.value, iOld.value) && 0 <= tOld.value < c.T
    requires row.(t := tOld, reps := None, j := jOld, i := iOld).InRange(c.J, c.I, c.T)
    requires p.m0 + p.m1 + 1 <= mOld <= p.m
    ensures Ended(c, p, jOld, iOld, tOld, mOld).Valid(c)
  {
    var r := Ended(c, p, jOld, iOld, tOld, mOld);
    ClosePush(before, row, r.t, None, r.j, r.i);
    PushBounded(before, row.(t := r.t, reps := None, j := r.j, i := r.i, delta := None, lambda := None,
                             rt := None, moved := None), c.J, c.I, c.T);
  }

  /** A tick keeps the engine valid: the view stays on the grid, the frame
      below T, the move counts within the budgets, and the log in range
      with its newest row showing the current view. */
  lemma {:induction false} TickKeepsValid(c: Config, e: Engine, now: int)
    requires e.Valid(c)
    ensures EngineTick(c, e, now).Valid(c)
  {
    if e.Advances() {
      var n := Navigated(c, e);
      var p := if e.moveToPlay then MoveToPlayTick(c, n, now) else PlayingTick(c, n, now);
      var row := e.NextRow(p.t, p.reps, p.j, p.i, now);
      assert p.log == e.log.Push(row);
      if e.moveToPlay {
        MoveToPlayTickStepped(c, e, now);
      } else {
        PlayingTickStepped(c, e, now);
      }
      if p.t.value < c.T {
        ContinueKeepsValid(c, p, e.log, row);
      } else if Continues(c.sequenceReps, p.reps.value + 1) {
        WrapKeepsValid(c, p, e.log, row);
      } else {
        EndKeepsValid(c, p, e.log, row, e.j, e.i, e.t, e.m);
      }
    }
  }

  /** A tick that advances and does not end the sequence applies the
      pending movement to the view, moves to the next frame (frame 0 of the
      next repetition after frame T - 1) and logs exactly one row: the new
      view and frame with the movement consumed and the phase code. */
  lemma {:induction false} TickAdvancesView(c: Config, e: Engine, now: int)
    requires e.Valid(c) && e.Advances() && !e.SequenceEnds(c)
    ensures var r := EngineTick(c, e, now);
      && r.j.Some? && r.i.Some? && r.showAnimation
      && View(r.j.value, r.i.value) == Step(View(e.j.value, e.i.value), e.delta, e.lambda, c.J, c.I)
      && r.t == Some(if e.t.value + 1 == c.T then 0 else e.t.value + 1)
      && r.reps == Some(if e.t.value + 1 == c.T then e.reps.value + 1 else e.reps.value)
      && r.log == e.log.Push(e.NextRow(r.t, r.reps, r.j, r.i, now))
  {
    var n := Navigated(c, e);
    var p := if e.moveToPlay then MoveToPlayTick(c, n, now) else PlayingTick(c, n, now);
    var row := e.NextRow(p.t, p.reps, p.j, p.i, now);
    if p.t.value >= c.T {
      RewindPush(e.log, row, Some(0), Some(p.reps.value + 1));
    }
  }

  /** A tick that advances and does not end the sequence counts its move
      in m and in the counter of its phase, consumes the movement, and
      leaves move-to-play exactly when the M0 budget is spent. */
  lemma TickCountsMove(c: Config, e: Engine, now: int)
    requires e.Valid(c) && e.Advances() && !e.SequenceEnds(c)
    ensures var r := EngineTick(c, e, now);
      && r.m == e.m + (if Moved(e.delta, e.lambda) then 1 else 0)
      && (e.moveToPlay ==> r.m0 == e.m0 + 1 && r.moveToPlay == InMoveToPlay(c.M0, r.m0) && r.playing == !r.moveToPlay)
      && (e.playing ==> r.playing && r.m1 == e.m1 + (if Moved(e.delta, e.lambda) then 1 else 0))
      && (Moved(e.delta, e.lambda) ==> r.Pending() == NoPending)
  {
  }

  /** The tick that completes the last repetition stops the animation on
      the view shown before it (or on the end stimulus), drops its own move
      from m, and writes that view with 'None' movement entries and the
      phase code 2 in place of its row. */
  lemma {:induction false} TickEndsSequence(c: Config, e: Engine, now: int)
    requires e.Valid(c) && e.SequenceEnds(c)
    ensures var r := EngineTick(c, e, now);
      && !r.showAnimation && !r.moveToPlay && !r.playing && !r.movable && r.reps.None? && r.m == e.m
      && (if c.hasStimulusEnd then r.j.None? && r.i.None? && r.t.None?
          else r.j == e.j && r.i == e.i && r.t == e.t)
      && r.log.rows == e.log.rows + [Row(r.t, None, r.j, r.i, now, None, None, None, None, e.PhaseCode())]
      && r.log.tail == Some(EndedCode)
  {
    var n := Navigated(c, e);
    var p := if e.moveToPlay then MoveToPlayTick(c, n, now) else PlayingTick(c, n, now);
    var row := e.NextRow(p.t, p.reps, p.j, p.i, now);
    var r := Ended(c, p, e.j, e.i, e.t, e.m);
    assert EngineTick(c, e, now) == r;
    ClosePush(e.log, row, r.t, None, r.j, r.i);
  }

  /** A key of the movement listener. In mode "c" the press sets the
      pending step of the slots bound to the key; in mode "r" a press while
      nothing is pending takes the random draw (a pair of steps in
      {-1, 0, 1}, not both zero). The listener exists only while movement
      is allowed and hears only the enabled keys. */
  function KeyPress(c: Config, e: Engine, key: string, rt: int, drawDelta: int, drawLambda: int): (p: MovementInput.Pending)
    requires e.Valid(c) && e.movable && key in EnabledKeys(c.movementSlots)
    requires IsDraw(drawDelta, drawLambda)
    ensures e.(delta := p.delta, lambda := p.lambda, rtM := p.rt).Valid(c)
    ensures c.typeOfMovements == "r" ==>
      p == if Moved(e.delta, e.lambda) then e.Pending() else MovementInput.Pending(drawDelta, drawLambda, Some(rt))
    ensures c.typeOfMovements != "c" && c.typeOfMovements != "r" ==> p == e.Pending()
  {
    if c.typeOfMovements == "c" then
      ControlledPress(e.Pending(), c.movementSlots, key, rt)
    else if c.typeOfMovements == "r" && e.delta == 0 && e.lambda == 0 then
      MovementInput.Pending(drawDelta, drawLambda, Some(rt))
    else
      e.Pending()
  }

  /** A classification response is ignored in move-to-play unless allowed
      there, and in playing unless allowed there; after the animation has
      stopped it is always accepted. */
  function Accepts(c: Config, e: Engine): bool {
    !(e.moveToPlay && !c.allowInMoveToPlay) && !(e.playing && !c.allowInPlaying)
  }

  /** An accepted response stops the animation and movement; when it
      interrupts a phase, the movement arrays are closed with 'None' and
      the phase code of the interrupted phase is written. */
  function Classified(c: Config, e: Engine): (r: Engine)
    requires e.Valid(c)
    ensures r.Valid(c) && !r.showAnimation && !r.moveToPlay && !r.playing && !r.movable
    ensures r == e.(moveToPlay := false, playing := false, showAnimation := false, movable := false, log := r.log)
    ensures r.log.rows == e.log.rows
    ensures e.showAnimation ==> r.log.tail == Some(e.PhaseCode())
    ensures !e.showAnimation ==> r.log == e.log
  {
    e.(log := if e.moveToPlay || e.playing then e.log.Interrupt(e.PhaseCode()) else e.log,
       moveToPlay := false, playing := false, showAnimation := false, movable := false)
  }

  /** Once the animation has stopped, by its natural end or by a response,
      all ten arrays of the trial data have one entry per logged frame. */
  lemma StoppedLogAligned(c: Config, e: Engine)
    requires e.Valid(c) && !e.showAnimation
    ensures var l := e.log;
      && |l.Frames()| == |l.RepsTimes()| == |l.Times()| == |l.ThetasViews()| == |l.PhisViews()| == |l.rows|
      && |l.PhasesTimes()| == |l.MovementsTimes()| == |l.RtMovements()| == |l.Deltas()| == |l.Lambdas()| == |l.rows|
  {
    ChannelsAligned(e.log);
  }

  /** A 4 x 2 grid of 3 frames, starting in playing (M = [0, -1]), shown
      once, with no end stimulus. */
  const ScenarioConfig := Config(4, 2, 3, 0, 0, 0, -1, 1, false, true, true, false, "c",
                                 [Some("ArrowLeft"), Some("ArrowRight"), Some("ArrowDown"), Some("ArrowUp")], "a")

  /** Three ticks without movement: frames 1 and 2 are shown, and the third
      tick ends the sequence, writing frame 2 again; the phase array reads
      1 1 1 2. A response afterwards is accepted and leaves the log as it is. */
  lemma {:induction false} ThreeTickScenario()
    ensures var c := ScenarioConfig;
      var e0 := Initial(c);
      e0.Valid(c) &&
      var e1 := EngineTick(c, e0, 10);
      e1.Valid(c) &&
      var e2 := EngineTick(c, e1, 20);
      e2.Valid(c) &&
      var e3 := EngineTick(c, e2, 30);
      && e3.log.Frames() == [Some(0), Some(1), Some(2), Some(2)]
      && e3.log.PhasesTimes() == [PlayingCode, PlayingCode, PlayingCode, EndedCode]
      && e3.log.Times() == [0, 10, 20, 30]
      && !e3.showAnimation && e3.m == 0
      && e3.Valid(c) && Accepts(c, e3) && Classified(c, e3).log == e3.log
  {
    var c := ScenarioConfig;
    var e0 := Initial(c);
    TickKeepsValid(c, e0, 10);
    var e1 := EngineTick(c, e0, 10);
    TickKeepsValid(c, e1, 20);
    var e2 := EngineTick(c, e1, 20);
    TickKeepsValid(c, e2, 30);
    var e3 := EngineTick(c, e2, 30);
    TickAdvancesView(c, e0, 10);
    TickAdvancesView(c, e1, 20);
    TickEndsSequence(c, e2, 30);
    assert e3.log.Frames() == [Some(0), Some(1), Some(2), Some(2)];
    assert e3.log.PhasesTimes() == [PlayingCode, PlayingCode, PlayingCode, EndedCode];
    assert e3.log.Times() == [0, 10, 20, 30];
  }

}
