/** The shared spectrum buffer of the application: one array of samples that
    the RSSI callback replaces by a rolled copy and then updates in its last
    slot, and that each viewer's stream copies on every tick. The lock around
    both operations is not modelled; each call here is one atomic step. */
module Spectrum {
  import opened SlidingWindow

  /** `np.roll(a, -1)`: a new array holding `a` rotated one place toward index 0. */
  method Roll(a: array<int>) returns (b: array<int>)
    ensures fresh(b)
    ensures b[..] == RollLeft(a[..])
  {
    var n := a.Length;
    b := new int[n];
    var i := 0;
    while i < n
      invariant 0 <= i <= n
      invariant forall j :: 0 <= j < i ==> b[j] == if j + 1 < n then a[j + 1] else a[0]
    {
      b[i] := if i + 1 < n then a[i + 1] else a[0];
      i := i + 1;
    }
    forall j | 0 <= j < n
      ensures b[j] == RollLeft(a[..])[j]
    {
      RollLeftAt(a[..], j);
    }
  }

  class SpectrumBuffer {
    /** The samples, oldest at index 0. */
    var data: array<int>
    /** Every reading pushed so far, oldest first. */
    ghost var pushes: seq<int>

    /** The buffer is non-empty and holds what the readings so far produce. */
    ghost predicate Valid()
      reads this, data
    {
      data.Length > 0 && data[..] == Replay(data.Length, pushes)
    }

    /** A buffer of capacity n filled with zeros. */
    constructor (n: nat)
      requires n > 0
      ensures Valid() && fresh(data)
      ensures data.Length == n && pushes == []
      ensures data[..] == Initial(n)
    {
      data := new int[n](_ => 0);
      pushes := [];
    }

    /** One RSSI reading: the array is replaced by its rolled copy, whose last
        slot then takes the clamped reading. */
    method Push(rssi: int)
      requires Valid()
      modifies this
      ensures Valid() && fresh(data)
      ensures data.Length == old(data.Length)
      ensures pushes == old(pushes) + [rssi]
      ensures data[..] == Step(old(data[..]), rssi)
      ensures data[..] == Window(data.Length, pushes)
    {
      var rolled := Roll(data);
      data := rolled;
      data[data.Length - 1] := Clamp(rssi);
      pushes := pushes + [rssi];
      ReplayIsWindow(data.Length, pushes);
    }

    /** `list(spectrum)`: an element-by-element copy of the buffer, which is
        the window of the readings so far. */
    method Snapshot() returns (s: seq<int>)
      requires Valid()
      ensures s == data[..]
      ensures s == Window(data.Length, pushes)
    {
      s := [];
      var i := 0;
      while i < data.Length
        invariant 0 <= i <= data.Length
        invariant s == data[..i]
      {
        s := s + [data[i]];
        i := i + 1;
      }
      ReplayIsWindow(data.Length, pushes);
    }

    /** One viewer's stream over `ticks` ticks with no reading in between:
        one snapshot per tick, every one of them the current buffer. */
    method Stream(ticks: nat) returns (frames: seq<seq<int>>)
      requires Valid()
      ensures |frames| == ticks
      ensures forall k :: 0 <= k < ticks ==> frames[k] == data[..]
      ensures forall k :: 0 <= k < ticks ==> frames[k] == Window(data.Length, pushes)
    {
      frames := [];
      while |frames| < ticks
        invariant |frames| <= ticks
        invariant forall k :: 0 <= k < |frames| ==> frames[k] == data[..]
      {
        var s := Snapshot();
        frames := frames + [s];
      }
      ReplayIsWindow(data.Length, pushes);
    }
  }
}
