/** Movement input: which keys move the view, how a controlled key press
    becomes a pending step, and how a random step is drawn. */
module MovementInput {
  import opened Common

  /** A movement key slot is disabled when it is `null` or one of the
      strings "none", "None" and "NONE". */
  predicate Enabled(slot: Option<string>) {
    slot.Some? && slot.value != "none" && slot.value != "None" && slot.value != "NONE"
  }

  /** The keys the movement listener accepts: the enabled slots, in slot
      order (left, right, down, up). */
  function EnabledKeys(slots: seq<Option<string>>): (keys: seq<string>)
    ensures |keys| <= |slots|
    ensures forall n :: 0 <= n < |slots| && Enabled(slots[n]) ==> slots[n].value in keys
    ensures forall k :: k in keys ==> Some(k) in slots && Enabled(Some(k))
  {
    if slots == [] then []
    else
      var rest := EnabledKeys(slots[1..]);
      assert forall n :: 1 <= n < |slots| ==> slots[n] == slots[1..][n - 1];
      if Enabled(slots[0]) then [slots[0].value] + rest else rest
  }

  /** The key a slot contributes to the listener's list: one entry when
      the slot is enabled, none otherwise. */
  function SlotKey(slot: Option<string>): seq<string> {
    if Enabled(slot) then [slot.value] else []
  }

  /** The list of a concatenation of slots is the concatenation of their
      lists: order and multiplicity are kept. */
  lemma {:induction false} EnabledKeysAppend(a: seq<Option<string>>, b: seq<Option<string>>)
    ensures EnabledKeys(a + b) == EnabledKeys(a) + EnabledKeys(b)
  {
    if a == [] {
      assert a + b == b;
    } else {
      assert (a + b)[0] == a[0];
      assert (a + b)[1..] == a[1..] + b;
      EnabledKeysAppend(a[1..], b);
    }
  }

  /** With the four slots, the list is the left, right, down and up keys
      that are enabled, in this order, one entry per enabled slot (a key
      bound to two slots appears twice). */
  lemma EnabledKeysFour(slots: seq<Option<string>>)
    requires |slots| == 4
    ensures EnabledKeys(slots)
              == SlotKey(slots[0]) + SlotKey(slots[1]) + SlotKey(slots[2]) + SlotKey(slots[3])
  {
    assert slots == [slots[0]] + [slots[1]] + [slots[2]] + [slots[3]];
    EnabledKeysAppend([slots[0]] + [slots[1]] + [slots[2]], [slots[3]]);
    EnabledKeysAppend([slots[0]] + [slots[1]], [slots[2]]);
    EnabledKeysAppend([slots[0]], [slots[1]]);
    assert EnabledKeys([slots[3]]) == SlotKey(slots[3]);
    assert EnabledKeys([slots[2]]) == SlotKey(slots[2]);
    assert EnabledKeys([slots[1]]) == SlotKey(slots[1]);
    assert EnabledKeys([slots[0]]) == SlotKey(slots[0]);
  }

  /** The four slots are the left, right, down and up keys, in this order. */
  const LeftSlot := 0
  const RightSlot := 1
  const DownSlot := 2
  const UpSlot := 3

  /** The movement waiting for the next tick: a theta step `delta`, a phi
      step `lambda` (+1 is down) and the reaction time of the key press
      that last changed them. */
  datatype Pending = Pending(delta: int, lambda: int, rt: Option<int>) {
    predicate InRange() {
      -1 <= delta <= 1 && -1 <= lambda <= 1
    }
  }

  const NoPending := Pending(0, 0, None)

  function SetDelta(p: Pending, d: int, rt: int): Pending {
    if p.delta != d then Pending(d, p.lambda, Some(rt)) else p
  }

  function SetLambda(p: Pending, l: int, rt: int): Pending {
    if p.lambda != l then Pending(p.delta, l, Some(rt)) else p
  }

  /** A controlled key press: the four slot tests run in order, so a later
      slot on the same axis wins, and the reaction time is taken only by an
      assignment that changes the pending value. */
  function ControlledPress(p: Pending, slots: seq<Option<string>>, key: string, rt: int): (r: Pending)
    requires |slots| == 4
    ensures p.InRange() ==> r.InRange()
    ensures r.rt == p.rt || r.rt == Some(rt)
    ensures (r.delta != p.delta || r.lambda != p.lambda) ==> r.rt == Some(rt)
    ensures Some(key) !in slots ==> r == p
  {
    var p1 := if slots[LeftSlot] == Some(key) then SetDelta(p, -1, rt) else p;
    var p2 := if slots[RightSlot] == Some(key) then SetDelta(p1, 1, rt) else p1;
    var p3 := if slots[DownSlot] == Some(key) then SetLambda(p2, 1, rt) else p2;
    if slots[UpSlot] == Some(key) then SetLambda(p3, -1, rt) else p3
  }

  /** The controlled-movement branch of the movement listener, test by
      test: each slot bound to the key sets its axis, taking the reaction
      time only when the value changes. */
  method PressKey(p: Pending, slots: seq<Option<string>>, key: string, rt: int) returns (r: Pending)
    requires |slots| == 4
    ensures r == ControlledPress(p, slots, key, rt)
  {
    var delta, lambda, rtM := p.delta, p.lambda, p.rt;
    if slots[LeftSlot] == Some(key) && delta != -1 {
      rtM, delta := Some(rt), -1;
    }
    if slots[RightSlot] == Some(key) && delta != 1 {
      rtM, delta := Some(rt), 1;
    }
    if slots[DownSlot] == Some(key) && lambda != 1 {
      rtM, lambda := Some(rt), 1;
    }
    if slots[UpSlot] == Some(key) && lambda != -1 {
      rtM, lambda := Some(rt), -1;
    }
    r := Pending(delta, lambda, rtM);
  }

  /** The step each slot stands for. */
  function SlotStep(n: int): (d: (int, int))
    requires 0 <= n < 4
  {
    if n == LeftSlot then (-1, 0)
    else if n == RightSlot then (1, 0)
    else if n == DownSlot then (0, 1)
    else (0, -1)
  }

  /** With a key bound to one slot only, a press sets that slot's axis to
      its step, keeps the other axis, and takes the reaction time exactly
      when the axis changes. */
  lemma ControlledPressOneSlot(p: Pending, slots: seq<Option<string>>, key: string, rt: int, n: int)
    requires |slots| == 4 && 0 <= n < 4 && slots[n] == Some(key)
    requires forall m :: 0 <= m < 4 && m != n ==> slots[m] != Some(key)
    ensures var r := ControlledPress(p, slots, key, rt);
            var (d, l) := SlotStep(n);
            && (d != 0 ==> r.delta == d && r.lambda == p.lambda
                           && r.rt == (if p.delta != d then Some(rt) else p.rt))
            && (l != 0 ==> r.lambda == l && r.delta == p.delta
                           && r.rt == (if p.lambda != l then Some(rt) else p.rt))
  {
  }

  /** A key bound to both the left and the right slot leaves delta at +1:
      the later test wins. */
  lemma ControlledPressLaterSlotWins(p: Pending, slots: seq<Option<string>>, key: string, rt: int)
    requires |slots| == 4 && slots[LeftSlot] == Some(key) && slots[RightSlot] == Some(key)
    requires slots[DownSlot] != Some(key) && slots[UpSlot] != Some(key)
    ensures ControlledPress(p, slots, key, rt).delta == 1
  {
  }

  /** A pending step a random draw may leave: each axis in {-1, 0, 1},
      not both zero. */
  predicate IsDraw(d: int, l: int) {
    -1 <= d <= 1 && -1 <= l <= 1 && (d != 0 || l != 0)
  }

  /** `Math.floor(random * (max - min)) + min` for a sample `r` in [0, 1). */
  function RndInt(min: int, max: int, r: real): (n: int)
    requires min < max && 0.0 <= r < 1.0
    ensures min <= n < max
  {
    var w := (max - min) as real;
    var x := r * w;
    assert 0.0 <= x < w by {
      assert w >= 1.0;
      assert w - x == (1.0 - r) * w;
      assert (1.0 - r) * w > 0.0;
    }
    x.Floor + min
  }

  /** The redraw loop: the first pair of samples whose two draws are not
      both zero gives the pending step. */
  method DrawRandomMovement(samples: seq<(real, real)>) returns (delta: int, lambda: int, used: nat)
    requires forall k :: 0 <= k < |samples| ==> 0.0 <= samples[k].0 < 1.0 && 0.0 <= samples[k].1 < 1.0
    requires exists k :: 0 <= k < |samples| && (RndInt(-1, 1, samples[k].0) != 0 || RndInt(-1, 1, samples[k].1) != 0)
    ensures used < |samples|
    ensures delta == RndInt(-1, 1, samples[used].0) && lambda == RndInt(-1, 1, samples[used].1)
    ensures delta != 0 || lambda != 0
    ensures forall k :: 0 <= k < used ==> RndInt(-1, 1, samples[k].0) == 0 && RndInt(-1, 1, samples[k].1) == 0
    ensures IsDraw(delta, lambda)
  {
    used := 0;
    delta := RndInt(-1, 1, samples[0].0);
    lambda := RndInt(-1, 1, samples[0].1);
    while delta == 0 && lambda == 0
      invariant used < |samples|
      invariant delta == RndInt(-1, 1, samples[used].0) && lambda == RndInt(-1, 1, samples[used].1)
      invariant forall k :: 0 <= k < used ==> RndInt(-1, 1, samples[k].0) == 0 && RndInt(-1, 1, samples[k].1) == 0
      invariant exists k :: used <= k < |samples| && (RndInt(-1, 1, samples[k].0) != 0 || RndInt(-1, 1, samples[k].1) != 0)
      decreases |samples| - used
    {
      used := used + 1;
      delta := RndInt(-1, 1, samples[used].0);
      lambda := RndInt(-1, 1, samples[used].1);
    }
  }

  /** As written, `RndInt(-1, 1)` is `floor(r * 2) - 1`, which is -1 or 0:
      a random step never goes right (delta = +1) or down (lambda = +1). */
  lemma AsWrittenDrawNeverRightOrDown(r: real)
    requires 0.0 <= r < 1.0
    ensures -1 <= RndInt(-1, 1, r) <= 0
  {
  }

  /** The evidently intended draw: an integer in [min, max], both ends included. */
  function RndIntInclusive(min: int, max: int, r: real): (n: int)
    requires min <= max && 0.0 <= r < 1.0
    ensures min <= n <= max
  {
    var w := (max - min + 1) as real;
    ProductBounds(r, w);
    (r * w).Floor + min
  }

  /** A fraction of a positive width lies in [0, width). */
  lemma ProductBounds(r: real, w: real)
    requires 0.0 <= r < 1.0 && w > 0.0
    ensures 0.0 <= r * w < w
  {
    assert w - r * w == (1.0 - r) * w;
    assert (1.0 - r) * w > 0.0;
  }

  /** Every value of [min, max] is drawn by some sample, so the intended
      random step reaches all of {-1, 0, 1} on each axis. */
  lemma RndIntInclusiveCovers(min: int, max: int, n: int)
    requires min <= n <= max
    ensures var r := (n - min) as real / (max - min + 1) as real;
            0.0 <= r < 1.0 && RndIntInclusive(min, max, r) == n
  {
    var w := (max - min + 1) as real;
    var r := (n - min) as real / w;
    assert r * w == (n - min) as real;
    assert (n - min) as real < w;
  }
}
