/** The trajectory log of the multi-view plugins. The source keeps ten
    parallel arrays; here the log is the sequence of logged rows, one per
    frame shown, and the ten arrays are projections of it. Row 0 is the
    starting view; every later row also records the movement applied by the
    tick that logged it. The movement and phase arrays therefore run one
    row behind the view arrays until the animation stops (`tail`), when
    they receive one more entry and line up. */
module TrajectoryLog {
  import opened Common

  /** One logged row: the frame, repetition and view shown, the elapsed
      time, the movement consumed (delta, lambda, its RT, and 1/0 for
      "moved"; 'None' where the source writes 'None'), and the phase code. */
  datatype Row = Row(
    t: Option<int>, reps: Option<int>, j: Option<int>, i: Option<int>, now: int,
    delta: Option<int>, lambda: Option<int>, rt: Option<int>, moved: Option<int>, phase: int)
  {
    /** Frames below T, views on the J x I grid, steps in {-1, 0, 1},
        movement flags 0/1 and phase codes 0, 1 or 2. */
    predicate InRange(J: int, I: int, T: int) {
      && (t.Some? ==> 0 <= t.value < T)
      && (j.Some? ==> 0 <= j.value < J)
      && (i.Some? ==> 0 <= i.value < I)
      && (delta.Some? ==> -1 <= delta.value <= 1)
      && (lambda.Some? ==> -1 <= lambda.value <= 1)
      && (moved.Some? ==> 0 <= moved.value <= 1)
      && 0 <= phase <= 2
    }
  }

  /** The rows logged so far and, once the animation has stopped, the phase
      code written last: 2 after the natural end, or the phase the response
      interrupted. */
  datatype Log = Log(rows: seq<Row>, tail: Option<int>)
  {
    predicate Bounded(J: int, I: int, T: int) {
      && (forall k :: 0 <= k < |rows| ==> rows[k].InRange(J, I, T))
      && (tail.Some? ==> 0 <= tail.value <= 2)
    }

    /** The newest row shows (t, reps, j, i). */
    predicate EndsAt(t: Option<int>, reps: Option<int>, j: Option<int>, i: Option<int>) {
      |rows| >= 1 && Last(rows).t == t && Last(rows).reps == reps && Last(rows).j == j && Last(rows).i == i
    }

    /** A tick's row appended. */
    function Push(row: Row): (r: Log)
      ensures r.EndsAt(row.t, row.reps, row.j, row.i) && r.tail == tail
    {
      this.(rows := rows + [row])
    }

    /** The newest row's frame and repetition rewritten (a repetition wrapped). */
    function Rewind(t: Option<int>, reps: Option<int>): (r: Log)
      requires |rows| >= 1
      ensures r.EndsAt(t, reps, Last(rows).j, Last(rows).i) && |r.rows| == |rows| && r.tail == tail
    {
      this.(rows := rows[|rows| - 1 := Last(rows).(t := t, reps := reps)])
    }

    /** The natural end of the animation: the newest row's view rewritten,
        its movement entries set to 'None', and phase 2 written. */
    function Close(t: Option<int>, reps: Option<int>, j: Option<int>, i: Option<int>): (r: Log)
      requires |rows| >= 1
      ensures r.EndsAt(t, reps, j, i) && |r.rows| == |rows| && r.tail == Some(2)
    {
      var row := Last(rows).(t := t, reps := reps, j := j, i := i,
                             delta := None, lambda := None, rt := None, moved := None);
      Log(rows[|rows| - 1 := row], Some(2))
    }

    /** A response during the animation: the phase it interrupted is written. */
    function Interrupt(phase: int): (r: Log)
      ensures r.rows == rows && r.tail == Some(phase)
    {
      this.(tail := Some(phase))
    }

    // The ten arrays of the source, as projections of the rows.

    function Frames(): seq<Option<int>> { seq(|rows|, k requires 0 <= k < |rows| => rows[k].t) }
    function RepsTimes(): seq<Option<int>> { seq(|rows|, k requires 0 <= k < |rows| => rows[k].reps) }
    function ThetasViews(): seq<Option<int>> { seq(|rows|, k requires 0 <= k < |rows| => rows[k].j) }
    function PhisViews(): seq<Option<int>> { seq(|rows|, k requires 0 <= k < |rows| => rows[k].i) }
    function Times(): seq<int> { seq(|rows|, k requires 0 <= k < |rows| => rows[k].now) }

    /** A movement array: one entry per row after the first, plus the
        closing 'None' once the animation has stopped. */
    function Movement(column: Row -> Option<int>): seq<Option<int>>
      requires |rows| >= 1
    {
      seq(|rows| - 1, k requires 0 <= k < |rows| - 1 => column(rows[k + 1]))
      + (if tail.Some? then [None] else [])
    }

    function Deltas(): seq<Option<int>> requires |rows| >= 1 { Movement((r: Row) => r.delta) }
    function Lambdas(): seq<Option<int>> requires |rows| >= 1 { Movement((r: Row) => r.lambda) }
    function RtMovements(): seq<Option<int>> requires |rows| >= 1 { Movement((r: Row) => r.rt) }
    function MovementsTimes(): seq<Option<int>> requires |rows| >= 1 { Movement((r: Row) => r.moved) }

    function PhasesTimes(): seq<int>
      requires |rows| >= 1
    {
      seq(|rows| - 1, k requires 0 <= k < |rows| - 1 => rows[k + 1].phase)
      + (if tail.Some? then [tail.value] else [])
    }
  }

  function Last<T>(s: seq<T>): T
    requires |s| >= 1
  {
    s[|s| - 1]
  }

  /** The log of a trial that has not ticked yet: the starting view at
      frame 0, repetition 0, time 0. */
  function Start(j: int, i: int): (r: Log)
    ensures |r.rows| == 1 && r.tail.None? && r.EndsAt(Some(0), Some(0), Some(j), Some(i))
  {
    Log([Row(Some(0), Some(0), Some(j), Some(i), 0, None, None, None, None, 0)], None)
  }

  /** While the animation runs the movement and phase arrays have one entry
      fewer than the view arrays; once it has stopped all ten have one entry
      per row, so the arrays the runner receives are aligned. */
  lemma ChannelsAligned(l: Log)
    requires |l.rows| >= 1
    ensures |l.Frames()| == |l.RepsTimes()| == |l.ThetasViews()| == |l.PhisViews()| == |l.Times()| == |l.rows|
    ensures |l.Deltas()| == |l.Lambdas()| == |l.RtMovements()| == |l.MovementsTimes()| == |l.PhasesTimes()|
            == |l.rows| - (if l.tail.Some? then 0 else 1)
  {
  }

  /** Pushing, rewinding and closing with in-range values keep every
      logged value in range. */
  lemma PushBounded(l: Log, row: Row, J: int, I: int, T: int)
    requires l.Bounded(J, I, T) && row.InRange(J, I, T)
    ensures l.Push(row).Bounded(J, I, T)
  {
    var r := l.Push(row);
    forall k | 0 <= k < |r.rows|
      ensures r.rows[k].InRange(J, I, T)
    {
      if k < |l.rows| {
        assert r.rows[k] == l.rows[k];
      }
    }
  }

  /** Rewinding a freshly pushed row is pushing the rewound row. */
  lemma RewindPush(l: Log, row: Row, t: Option<int>, reps: Option<int>)
    ensures l.Push(row).Rewind(t, reps) == l.Push(row.(t := t, reps := reps))
  {
    assert l.Push(row).Rewind(t, reps).rows == l.rows + [row.(t := t, reps := reps)];
  }

  /** Closing a freshly pushed row is pushing the closed row and writing
      phase 2. */
  lemma ClosePush(l: Log, row: Row, t: Option<int>, reps: Option<int>, j: Option<int>, i: Option<int>)
    requires l.tail.None?
    ensures l.Push(row).Close(t, reps, j, i)
            == l.Push(row.(t := t, reps := reps, j := j, i := i, delta := None, lambda := None,
                           rt := None, moved := None)).Interrupt(2)
  {
    var closed := row.(t := t, reps := reps, j := j, i := i, delta := None, lambda := None, rt := None, moved := None);
    assert l.Push(row).Close(t, reps, j, i).rows == l.rows + [closed];
  }
}
