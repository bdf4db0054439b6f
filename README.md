# SignalGuard spectrum buffer

SignalGuard reads the RSSI (received signal strength) of a Crazyflie radio
link and streams it to web viewers. At its centre is one shared buffer,
`spectrum`: a fixed number of samples, oldest at index 0 and newest at the
last index, initially all zeros. Each reading from the radio callback rolls
the buffer one place toward index 0 with `np.roll(spectrum, -1)` and then
writes `max(-140, rssi)` into the last slot. Each viewer's stream copies
the buffer with `list(spectrum)` on every tick.

This project models that buffer in Dafny:

- `window.dfy`, module `SlidingWindow`: the buffer as a value. `Clamp`,
  `RollLeft` (`np.roll(s, -1)`) and `Step` give one update. `Replay` applies the updates of a
  whole sequence of readings to the initial zeros. `Window` is an
  independent closed form: with fewer than n readings, the zeros not yet
  pushed out followed by every clamped reading; otherwise the last n
  readings, clamped. `ReplayIsWindow` proves the two agree for every
  capacity and every sequence of readings. The lemmas derived from it cover
  the two regimes: fewer readings than the capacity, and at least as many.
- `spectrum.dfy`, module `Spectrum`: the buffer as the program keeps it.
  Class `SpectrumBuffer` holds an `array<int>` and a ghost history of
  readings. `Push` replaces the array by a freshly allocated rolled copy
  (`Roll`, as `np.roll` returns a new array) and then assigns its last slot.
  `Snapshot` copies it element by element. `Stream` is one viewer's
  generator over a finite number of ticks.

The capacity is a constructor parameter `n > 0`. The application uses
1024 (app.py:15). Samples are integers. The radio logs RSSI as
`int8_t` (app.py:37), so no fractional values arise although numpy stores
float64. Every `int8_t` value is at least -128, which is above the floor of
-140, so for real readings the clamp never changes a value; `RawWhenInt8`
states this. The model still takes any integer, so the clamp is modelled in
full.

The buffer starts as zeros, as the code does (app.py:15), not at the floor value -140.

## Model

| member | source | states |
|---|---|---|
| SlidingWindow.Clamp | app.py:27 | the stored value is never below -140, is either the reading or -140, and equals the reading exactly when the reading is at least -140 (no ceiling) |
| SlidingWindow.Initial | app.py:15 | the initial buffer has length n and every slot is 0 |
| SlidingWindow.RollLeft | app.py:26 | `np.roll(s, -1)` keeps the length of the sequence |
| SlidingWindow.RollLeftAt | app.py:26 | `np.roll(s, -1)` by index: element i of the result is element i + 1 of the input, and the last element is the old first one |
| SlidingWindow.Step | app.py:26-27 | one update keeps the length and yields the old buffer without its first (oldest) sample followed by the clamped reading, so new[i] == old[i+1] below the last slot and the last slot holds the clamped reading |
| SlidingWindow.ClampAll | app.py:27 | clamping a sequence of readings keeps its length and clamps each reading position by position |
| SlidingWindow.Replay | app.py:15-27 | the buffer after any sequence of readings has exactly the capacity's length |
| SlidingWindow.Window | app.py:15-27 | the closed-form expected buffer has exactly the capacity's length |
| SlidingWindow.WindowAppend | app.py:26-27 | in the expected window, one more reading evicts the oldest value and appends the clamped reading |
| SlidingWindow.ReplayIsWindow | app.py:15-27 | applying the readings one update at a time to the zeros yields the expected window: the zeros not yet pushed out followed by all clamped readings, or the last n clamped readings |
| SlidingWindow.FewPushes | app.py:15-27 | after k < n readings the first n - k slots are still 0 and the last k are the clamped readings in arrival order |
| SlidingWindow.ManyPushes | app.py:26-27 | after k >= n readings the buffer is exactly the last n readings, clamped, oldest first |
| SlidingWindow.ReplayAboveFloor | app.py:15-27 | no slot of the buffer ever holds a value below -140 |
| SlidingWindow.IsInt8 | app.py:37 | a value of the `int8_t` RSSI log variable is never changed by the clamp |
| SlidingWindow.RawWhenInt8 | app.py:27 | when every reading fits `int8_t` (app.py:37) the buffer holds the raw, unclamped readings: after the remaining zeros when fewer than n arrived, else the last n |
| SlidingWindow.Scenario | app.py:26-27 | with capacity 4, readings 5, -200, 3, 8, -5 leave the buffer [-140, 3, 8, -5] |
| Spectrum.Roll | app.py:26 | `np.roll(a, -1)` returns a new array holding `a` rotated one place toward index 0 |
| Spectrum.SpectrumBuffer.constructor | app.py:15 | a new buffer of capacity n holds n zeros, has seen no readings and satisfies the buffer invariant |
| Spectrum.SpectrumBuffer.Push | app.py:20-27 | the buffer is replaced by a fresh array of the same length holding the rolled old contents with the clamped reading last; the history gains the reading; the buffer equals the window of all readings so far |
| Spectrum.SpectrumBuffer.Snapshot | app.py:64-66 | the copy equals the buffer element for element, which is the window of all readings so far, and the buffer is not changed |
| Spectrum.SpectrumBuffer.Stream | app.py:62-67 | with no reading in between, every tick's snapshot equals the current buffer and the window of the readings so far, so all snapshots are equal |

## Left out

- The Crazyflie connection, driver initialisation, `LogConfig` setup and callback registration (app.py:5-8, 16, 30-52): hardware I/O through a foreign library. The reading arrives as the parameter of `Push`.
- The threading lock and the daemon thread (app.py:4, 17, 25, 64, 72): `Push` and `Snapshot` are modelled as atomic sequential steps, so no interleaving is modelled.
- The Flask routes, template rendering and the server-sent-events response (app.py:11, 55-57, 69, 75-76): web framework plumbing.
- Spectrum.SpectrumBuffer.Stream: the generator's endless loop and its 0.1 s sleep (app.py:63-67) are modelled as a finite number of ticks with no reading between them.
- The text of each `data: [...]` message (app.py:66): it depends on numpy's float64 formatting inside `list(...)`.
- The float64 element type of the numpy array: samples are modelled as integers, since every value written is an integer.
- `frequencies` (app.py:14): a floating-point array nothing uses.
