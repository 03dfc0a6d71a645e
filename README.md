# face2bot face control, modelled in Dafny

The face-control service of face2bot drives an animatronic face from a camera.
It reads a snapshot of 478 facial landmarks, measures one quantity per entry of
its servo table, and turns that into a servo angle. It sends a serial command
`"<prefix>:<pin>,<angle>"` only for a pin whose angle changed.

A measured quantity is a distance or an axis-aligned difference between two
landmarks. It is taken after the head roll has been undone by a rotation about
the nose tip, and then divided by the distance between the outer eye corners.
Each entry calibrates it with a roll bias correction, a clamped linear remap
and `Math.round`.

The model is split into these modules:

- `Calibration`: `clamp`, `map`, the bias correction `normDelta - 0.001*roll + 0.102`, and `Math.round` as `floor(x + 0.5)`, all over exact reals.
- `Geometry`: points, `distance2D` and `rotatePoint`.
  - `Math.atan2`, `Math.cos`, `Math.sin` and `Math.hypot` are the fields of a `Numerics` value.
  - They are left uninterpreted, so every proof holds whatever they return.
- `Landmarks`: the frozen `IDX` vocabulary, the readiness test, and the lookup `lm[IDX[name]]`.
- `ServoTable`: the servo entry record and the default table of 19 entries.
- `Commands`: the command text.
  - It comes with a reader, `Parse`, that inverts it.
  - The proof that reading a formatted command returns it shows that the wire format is unambiguous.
- `Resolver`: the per-snapshot frame (roll, reference distance, rotation centre) and the angle of each entry.
- `Scheduler`: the pass over the table as a function, `Dispatch`, and the whole `watchEffect` run as `Cycle`, with the lemmas about them.
- `FaceControl`: the module state as a class `Controller`.
  - Its fields are `servoConfigs`, `lastAngles` and `lastSentTime`, plus a ghost log of the lines sent.
  - `SetConfig` and `GetConfig` swap and read the table.
  - `OnSnapshot` is the handler. Its loop is proved to have exactly `Cycle`'s effect.

The last-angle table is keyed by pin alone, as in the source. The default table
drives pins 2 to 7 both behind prefix `U` and behind prefix `F`. Such entries
share one slot. `RepeatSilentIffConsistent` proves when a second cycle that
yields the same angles sends nothing. It does so exactly when the entries
sharing a pin agree on it. `SharedPinResends` shows the other case: the `U`
and `F` entries on pin 5, at different angles, resend both commands on every
cycle.

Three behaviours of the code are worth stating plainly, since a reader might
expect otherwise:

- The code divides by the eye-corner distance with no guard against zero. Here
  a positive distance is a precondition, asked only of a snapshot that passes
  both gates.
- `setConfig` replaces the table and keeps the per-pin history, and so does
  `SetConfig`.
- A calibration that looks like it should give about 120 gives 121.
  `WorkedExample` proves it: 0.5 + 0.102 = 0.602 remaps to 120.6, which
  `Math.round` takes to 121.

## Model

| member | source | states |
|---|---|---|
| `Calibration.Clamp` | src/service/face-control/index.js:84 | with the default bounds the result lies in [0, 1]; an input in range is returned unchanged; below the range gives the lower bound, above it the upper |
| `Calibration.ClampMonotone` | src/service/face-control/index.js:84 | the default clamp is non-decreasing |
| `Calibration.Remap` | src/service/face-control/index.js:88-91 | for `iMin < iMax` the result always lies between `oMin` and `oMax`, whatever `v` is; it is exactly `oMin` for `v <= iMin` and exactly `oMax` for `v >= iMax` |
| `Calibration.RemapMonotone` | src/service/face-control/index.js:88-91 | `map` is non-decreasing in `v` for an ascending output range and non-increasing for a descending one (inverted actuators) |
| `Calibration.Round` | src/service/face-control/index.js:153 | `Math.round(x)` is an integer `n` with `x - 1/2 < n <= x + 1/2` |
| `Calibration.RoundUnique` | src/service/face-control/index.js:153 | that integer is unique, so ties round toward +infinity |
| `Calibration.RoundWithin` | src/service/face-control/index.js:153 | rounding a value between two integers stays between them |
| `Calibration.RoundMonotone` | src/service/face-control/index.js:153 | rounding is non-decreasing |
| `Calibration.Correct` | src/service/face-control/index.js:146-148 | the bias correction adds 0.102 at zero roll, more for negative roll, less for positive roll |
| `Geometry.Abs` | src/service/face-control/index.js:144 | `Math.abs` is non-negative and equals the input or its negation |
| `Geometry.RotatePoint` | src/service/face-control/index.js:97-107 | rotating about a centre leaves the centre fixed; a rotation with cosine 1 and sine 0 is the identity |
| `Landmarks.Lookup` | src/service/face-control/index.js:135-136 | a found point is the snapshot point at the name's index; on a snapshot of at least 478 points a lookup succeeds exactly for the names of the vocabulary |
| `Landmarks.IdxInRange` | src/service/face-control/index.js:5-36 | every index of the vocabulary is below 478 |
| `ServoTable.DefaultTableSound` | src/service/face-control/index.js:38-69 | every default entry has `dMin < dMax` and names only known landmarks |
| `ServoTable.DefaultTableSharesPin5` | src/service/face-control/index.js:40-64 | the default table drives pin 5 behind prefix `U` and again behind prefix `F` |
| `Commands.IntToString` | src/service/face-control/index.js:155 | the decimal rendering of an integer is non-empty and holds no `,` or `:` |
| `Commands.ParseFormat` | src/service/face-control/index.js:155 | reading `"<prefix>:<pin>,<angle>"` back gives the same prefix, pin and angle, for a prefix without `:` |
| `Commands.FormatInjective` | src/service/face-control/index.js:155 | distinct commands are sent as distinct lines |
| `Resolver.FrameLocal` | src/service/face-control/index.js:121-131 | the frame depends only on the outer eye corners (359, 130) and the nose tip (4): two ready snapshots agreeing there give the same roll, reference distance and centre |
| `Resolver.RawDelta` | src/service/face-control/index.js:144 | an `x` or `y` delta is non-negative |
| `Resolver.Angle` | src/service/face-control/index.js:153 | the rounded remapped angle never leaves `[min(closed, open), max(closed, open)]`, however far the measurement is out of calibration; it is `closed` at or below `dMin` and `open` at or above `dMax` |
| `Resolver.AngleMonotone` | src/service/face-control/index.js:153 | angles follow the measurement upward for `closed <= open` and downward for an inverted entry |
| `Resolver.Resolve` | src/service/face-control/index.js:135-153 | an entry is skipped exactly when its point or its reference lookup misses; otherwise its angle lies in the entry's range |
| `Resolver.ResolveAll` | src/service/face-control/index.js:134-153 | one resolution per entry, in table order; each is skipped exactly when one of its lookups misses, and otherwise lies in its entry's angle range |
| `Resolver.WorkedExample` | src/service/face-control/index.js:144-153 | roll 0, reference distance 1 and raw delta 0.5, with an `x` entry over [0.2, 0.8] onto [0, 180], give angle 121 |
| `Resolver.DefaultTableNeverSkips` | src/service/face-control/index.js:135-139 | on a ready snapshot no default entry is skipped |
| `Scheduler.Visit` | src/service/face-control/index.js:154-157 | a skipped entry changes nothing; otherwise a command with the entry's prefix, pin and angle is sent exactly when the angle differs from the pin's last one, the pin then holds the angle, and all other pins are untouched |
| `Scheduler.Dispatch` | src/service/face-control/index.js:134-158 | a pass sends at most one command per entry |
| `Scheduler.DispatchAnglesAreWrites` | src/service/face-control/index.js:154-156 | suppressing unchanged angles never changes the final table: it equals writing every resolved angle in order |
| `Scheduler.WritesFrame` | src/service/face-control/index.js:156 | no pin loses its recorded angle; pins no resolved entry drives keep their exact state |
| `Scheduler.WritesLastWins` | src/service/face-control/index.js:156 | a pin ends holding the angle of the last resolved entry that drives it |
| `Scheduler.DispatchAppend` | src/service/face-control/index.js:134-158 | commands come out in table order: the pass over `a + b` sends the pass over `a`, then the pass over `b` from the table `a` left |
| `Scheduler.SentFromTable` | src/service/face-control/index.js:155 | every command sent carries the prefix, pin and resolved angle of some entry of the table |
| `Scheduler.SilentIffAgrees` | src/service/face-control/index.js:154-157 | a pass sends nothing exactly when every resolved entry finds its angle already recorded for its pin, and then it changes nothing |
| `Scheduler.DispatchEstablishes` | src/service/face-control/index.js:154-156 | when entries sharing a pin agree, after one pass every resolved entry finds its angle recorded |
| `Scheduler.RepeatSilentIffConsistent` | src/service/face-control/index.js:154-156 | from any starting table, repeating a pass with the same angles sends nothing exactly when entries sharing a pin agree |
| `Scheduler.SharedPinResends` | src/service/face-control/index.js:154-156 | with the `U` and `F` entries on pin 5 at angles 45 and 70, the repeated pass sends both commands again |
| `Scheduler.Cycle` | src/service/face-control/index.js:109-119 | an absent or short snapshot, or one within 15 ms of the last processed one, changes nothing and sends nothing; otherwise `lastSentTime` becomes `now` whatever is then sent |
| `Scheduler.CycleRepeatSilent` | src/service/face-control/index.js:109-160 | two processed cycles on the same snapshot: the second sends nothing exactly when entries sharing a pin agree |
| `Scheduler.CycleAnglesInRange` | src/service/face-control/index.js:134-155 | every command a cycle sends has an angle inside the range of a current table entry with the same pin and prefix |
| `Scheduler.CycleCommandsTablePins` | src/service/face-control/index.js:134-155 | a cycle never commands a pin absent from the current table, so a dropped pin gets no stale commands |
| `FaceControl.Formatted` | src/service/face-control/index.js:155 | one line per command, in order, and each line reads back to its command when the prefix holds no `:`, so the log determines what was commanded |
| `FaceControl.Controller.constructor` | src/service/face-control/index.js:79-82 | the service starts with the default table, no pin sent and time 0 |
| `FaceControl.Controller.SetConfig` | src/service/face-control/index.js:71-73 | replaces the table and keeps the per-pin history and the time |
| `FaceControl.Controller.GetConfig` | src/service/face-control/index.js:75-77 | returns the current table |
| `FaceControl.Controller.Apply` | src/service/face-control/index.js:154-157 | the compare-and-send step of the loop body: the new pin table and the commands sent so far are exactly `Visit`'s, and the log gains exactly the line of a command sent |
| `FaceControl.Controller.OnSnapshot` | src/service/face-control/index.js:109-161 | the handler's new state and sent lines are exactly those of `Cycle` on the old state |

## Left out

- `sendCommand` is serial I/O. The model appends the formatted line to the ghost log instead.
- The `await delay(delayMS.value)` pacing and the `delayMS` setting are left out. So is the fire-and-forget async loop. Each cycle runs to completion, with no overlap between cycles.
- Vue's `watchEffect`/`ref` and the `faceLandmarks` source are framework plumbing. One run of the handler is a call of `OnSnapshot` with the snapshot.
- `Date.now()` is the parameter `now`.
- `Math.atan2`, `Math.cos`, `Math.sin` and `Math.hypot` are uninterpreted fields of `Numerics`.
- Geometry.RotatePoint: does not state that rotation preserves distances. That needs the trigonometric identity, which uninterpreted numerics do not give.
- Floating-point rounding, `NaN` and `Infinity` are left out; the model computes with exact reals. The code divides by the eye-corner distance and by `dMax - dMin` without a guard. The model requires the distance to be positive for a snapshot that passes both gates, and every entry to have `dMin < dMax`, which all default entries do.
- Snapshot entries are always points. A missing eye-corner or nose point would make the source throw; that case is not modelled.
- `closed` and `open` are integers, as in every table entry. `axis` is one of `x`, `y` and `distance`; any other string would make the source compute `NaN`.
- `SetConfig`, `GetConfig`: the source stores the caller's own array and hands out the live one. A caller editing that array or one of its entries in place changes the running table, even in a cycle already under way across `await delay`. The model's table is a value, so such aliasing and in-place edits are not modelled.
