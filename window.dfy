/** The sliding window of signal-strength samples, as values.

    The buffer holds a fixed number of samples, oldest at index 0 and newest
    at the last index. Each reading rotates the buffer one place toward index 0
    and overwrites the last slot with the reading, clamped from below at -140.
    `Replay` is what the buffer holds after a sequence of readings, computed
    step by step; `Window` is an independent, closed-form description of the
    same thing (the zeros not yet pushed out followed by the clamped readings,
    or the last n clamped readings). `ReplayIsWindow` connects the two.
 */
module SlidingWindow {

  /** Lowest value ever stored for a reading. */
  const Floor: int := -140

  /** A value of the radio's `int8_t` RSSI log variable; the floor lies
      below its range, so the clamp leaves it alone. */
  function IsInt8(x: int): (b: bool)
    ensures b ==> Clamp(x) == x
  {
    -128 <= x < 128
  }

  /** `max(-140, rssi)`: a floor and no ceiling. */
  function Clamp(rssi: int): (r: int)
    ensures r >= Floor
    ensures r == rssi || r == Floor
    ensures r == rssi <==> rssi >= Floor
  {
    if rssi < Floor then Floor else rssi
  }

  /** The buffer before any reading: n zeros. */
  function Initial(n: nat): (r: seq<int>)
    ensures |r| == n
    ensures forall i :: 0 <= i < n ==> r[i] == 0
  {
    seq(n, _ => 0)
  }

  /** Rotation of a sequence by one place toward index 0, as `np.roll(s, -1)`:
      the first element moves to the end (see `RollLeftAt`). */
  function RollLeft(s: seq<int>): (r: seq<int>)
    ensures |r| == |s|
  {
    if s == [] then [] else s[1..] + [s[0]]
  }

  /** `np.roll(s, -1)` by index: element i of the result is element i + 1 of
      `s`, wrapping around to the first element at the end. */
  lemma RollLeftAt(s: seq<int>, i: nat)
    requires i < |s|
    ensures RollLeft(s)[i] == if i + 1 < |s| then s[i + 1] else s[0]
  {
  }

  /** One reading: roll the buffer, then overwrite the last slot with the
      clamped reading. The oldest sample, rolled to the end, is lost. */
  function Step(w: seq<int>, rssi: int): (r: seq<int>)
    requires |w| > 0
    ensures |r| == |w|
    ensures r == w[1..] + [Clamp(rssi)]
  {
    RollLeft(w)[|w| - 1 := Clamp(rssi)]
  }

  /** Every reading of `ps`, clamped. */
  function ClampAll(ps: seq<int>): (r: seq<int>)
    ensures |r| == |ps|
    ensures forall i :: 0 <= i < |ps| ==> r[i] == Clamp(ps[i])
  {
    seq(|ps|, i requires 0 <= i < |ps| => Clamp(ps[i]))
  }

  /** The buffer of capacity n after the readings `pushes`, one step at a time. */
  function Replay(n: nat, pushes: seq<int>): (r: seq<int>)
    requires n > 0
    ensures |r| == n
    decreases |pushes|
  {
    if pushes == [] then Initial(n)
    else Step(Replay(n, pushes[..|pushes| - 1]), pushes[|pushes| - 1])
  }

  /** The expected buffer, oldest first: with fewer readings than the
      capacity, the zeros not yet pushed out followed by every clamped
      reading; otherwise the last n readings, clamped. */
  function Window(n: nat, pushes: seq<int>): (r: seq<int>)
    ensures |r| == n
  {
    if |pushes| < n then Initial(n - |pushes|) + ClampAll(pushes)
    else ClampAll(pushes[|pushes| - n..])
  }

  /** One more reading evicts the oldest value of the expected window and
      appends the clamped reading. */
  lemma WindowAppend(n: nat, ps: seq<int>, x: int)
    requires n > 0
    ensures Window(n, ps + [x]) == Window(n, ps)[1..] + [Clamp(x)]
  {
  }

  /** Replaying the readings one at a time yields the expected window. */
  lemma {:induction false} ReplayIsWindow(n: nat, pushes: seq<int>)
    requires n > 0
    ensures Replay(n, pushes) == Window(n, pushes)
    decreases |pushes|
  {
    if pushes != [] {
      var ps, x := pushes[..|pushes| - 1], pushes[|pushes| - 1];
      assert pushes == ps + [x];
      ReplayIsWindow(n, ps);
      WindowAppend(n, ps, x);
    }
  }

  /** Fewer readings than the capacity: the first n - k slots still hold
      the initial zeros and the last k hold the clamped readings in order. */
  lemma {:induction false} FewPushes(n: nat, pushes: seq<int>)
    requires 0 < n && |pushes| < n
    ensures forall i :: 0 <= i < n - |pushes| ==> Replay(n, pushes)[i] == 0
    ensures Replay(n, pushes)[n - |pushes|..] == ClampAll(pushes)
  {
    ReplayIsWindow(n, pushes);
  }

  /** At least as many readings as the capacity: the buffer is exactly the
      last n readings, clamped, oldest first. */
  lemma {:induction false} ManyPushes(n: nat, pushes: seq<int>)
    requires 0 < n <= |pushes|
    ensures Replay(n, pushes) == ClampAll(pushes[|pushes| - n..])
  {
    ReplayIsWindow(n, pushes);
  }

  /** No slot of the buffer ever holds a value below the floor. */
  lemma {:induction false} ReplayAboveFloor(n: nat, pushes: seq<int>)
    requires n > 0
    ensures forall i :: 0 <= i < n ==> Replay(n, pushes)[i] >= Floor
    decreases |pushes|
  {
    if pushes != [] {
      ReplayAboveFloor(n, pushes[..|pushes| - 1]);
    }
  }

  /** For readings the radio can deliver (`int8_t`), the clamp never fires:
      the buffer holds the raw readings, after any zeros not yet pushed out. */
  lemma {:induction false} RawWhenInt8(n: nat, pushes: seq<int>)
    requires n > 0
    requires forall i :: 0 <= i < |pushes| ==> IsInt8(pushes[i])
    ensures |pushes| < n ==> Replay(n, pushes) == Initial(n - |pushes|) + pushes
    ensures |pushes| >= n ==> Replay(n, pushes) == pushes[|pushes| - n..]
  {
    ReplayIsWindow(n, pushes);
    if |pushes| < n {
      assert ClampAll(pushes) == pushes;
    } else {
      var tail := pushes[|pushes| - n..];
      assert ClampAll(tail) == tail;
    }
  }

  /** Capacity 4, readings 5, -200, 3, 8, -5: the first reading is evicted and
      -200 is stored as the floor. */
  lemma Scenario()
    ensures Replay(4, [5, -200, 3, 8, -5]) == [-140, 3, 8, -5]
  {
    ManyPushes(4, [5, -200, 3, 8, -5]);
    assert [5, -200, 3, 8, -5][1..] == [-200, 3, 8, -5];
  }
}
