/** The `'None'` string that the plugins store in place of a number
    (an ended view, an empty reaction time, a padding row) is an `Option`. */
module Common {

  datatype Option<+T> = None | Some(value: T)

  /** Another repetition follows when repetitions are unlimited or fewer
      than `sequenceReps` have been completed
      (the rule of the multi-view plugins and of categorize-animation-cc). */
  function Continues(sequenceReps: int, reps: int): bool {
    sequenceReps == -1 || reps < sequenceReps
  }

  /** The passes played when the repetition count is not taken as
      unlimited: a count below one still plays the sequence once. */
  function Passes(sequenceReps: int): nat {
    if sequenceReps < 1 then 1 else sequenceReps
  }

  function Max(a: int, b: int): int {
    if a < b then b else a
  }

  /** Euclidean remainder is the unique r in [0, J) with a == q * J + r. */
  lemma ModUnique(a: int, J: int, q: int, r: int)
    requires J > 0 && 0 <= r < J && a == q * J + r
    ensures a % J == r
  {
    var q0, r0 := a / J, a % J;
    assert a == q0 * J + r0;
    var d := q - q0;
    assert d * J == r0 - r by {
      assert q * J - q0 * J == (q - q0) * J;
    }
  }

  /** The tick after the last frame of pass q - 1 is tick q * n + 1. */
  lemma PassEnd(q: int, n: int)
    ensures (q - 1) * n + (n - 1) + 1 == q * n
  {
    assert (q - 1) * n == q * n - n;
  }
}
