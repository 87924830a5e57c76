# Per-frame steering and actuation logic of a camera-guided car

This project models the decision core of the car controller in
`newcv/src/main.cc`. The controller samples the lane-edge image of each camera
frame on fixed scan rows. It turns the edge columns it finds into steering
servo commands, fuses the left and right commands, holds and clamps the
result, and writes the servo command and a packed motor speed word to the
devices.

Modules, one per component:

- `Steering` (`steering.dfy`) covers `full_map`, `map_servo`,
  `map_servo_fine`, `average_not_zero` and `chose_servo`. Doubles become exact
  `real`s. The C cast `(int) x` becomes `Trunc`, truncation toward zero.
- `EdgeSampler` (`edge_sampler.dfy`) covers `find_avg_point_on_line`. The scan
  is a method with a loop. It is proved against `SampleMean`, which is the mean
  of `EdgeColumns`, or -1 when there are none.
- `LaneEstimator` (`lane.dfy`) covers `servo_comand_line` and the six scan
  configurations. The method is proved equal to `LaneCommand`, the fusion of
  the two near-row contributions.
- `Obstruction` (`obstruction.dfy`) covers the height filter of
  `detect_and_display`. Its input is the classifier's boxes.
- `ControlLoop` (`control.dfy`) covers `main`. It includes argument
  normalisation, the speed and direction words, and the class `Controller`,
  which holds `servo_out`, `old_servo_out`, `speed`, `stop_sign` and
  `old_stop_sign` and the writes made so far. `Drive` runs the whole program
  as a sequence of device writes and returns its outcome: an exit status, or
  a fault when the program reads an argument that is not there.

Behaviour of the code worth knowing, each proved about the model:

- The scan loop `i < line_stop - line_start + 3` reads columns `line_start ..
  line_stop + 2`, two columns past the nominal bound. For an arbitrary edge
  image this lets the right near-row side map to 381, one past `SERVO_RIGHT`
  (`LaneEstimator.OverscanExceedsRight`); only the clamp in the loop keeps
  the actuator in range. Whether the masked Canny image of a real frame can
  hold an edge pixel at that column depends on OpenCV's line rendering,
  which is not part of this model.
- When the two readings disagree and both lie on the same side of the
  centre, `chose_servo` keeps the minimum on the left and the maximum on the
  right, which is the reading *farther* from the centre
  (`Steering.ChoseServoSameSide`).
- The sonar stop override (newcv/src/main.cc:495-501) and the stop-sign brake/resume
  debounce (newcv/src/main.cc:519-532) are commented out. The stop-sign result is
  stored but never changes the motor word (`ControlLoop.StopSignInert`).
- The mid and far rows are sampled and mapped but never used
  (`LaneEstimator.LaneCommandNearRowOnly`).
- The argument check rejects fewer than five `argv` entries, but the
  stop distance `argv[5]` is read unconditionally after the start-up
  writes (newcv/src/main.cc:418). With exactly five entries `argv[5]` is the null
  terminator and `atoi` on it is undefined; `Drive` models this as a fault
  after the start-up writes, with no exit status and no shutdown writes.

## Model

| member | source | states |
|---|---|---|
| `Steering.Trunc` | newcv/src/main.cc:97 | the int cast is truncation toward zero: the result is within one of the argument, below it for non-negative and above it for negative arguments |
| `Steering.Interpolate` | newcv/src/main.cc:95-96 | the double `out_min + slope * (input - in_min)` before the cast, as an exact real; `Steering.FullMap`'s ensures and `Steering.FullMapEnds` / `Steering.FullMapMonotone` carry its properties |
| `Steering.FullMap` | newcv/src/main.cc:93-98 | the result is the exact interpolated point cast to int, so within one of it |
| `Steering.MapServo` | newcv/src/main.cc:100-104 | the result is within one of the interpolation of the input range onto `[220, 380]` |
| `Steering.MapServoFine` | newcv/src/main.cc:106-114 | below `mean` the result is within one of the interpolation of `[in_min, mean]` onto `[220, 300]`, from `mean` on within one of `[mean, in_max]` onto `[300, 380]`; `mean` itself gives 300 |
| `Steering.AverageNotZero` | newcv/src/main.cc:116-127 | two present readings give their mean; otherwise the present one, or -1 when both are 0 |
| `Steering.ChoseServo` | newcv/src/main.cc:129-145 | two present readings fuse to a value between them (the absent cases are `Steering.ChoseServoAbsent`) |
| `Steering.Abs` | newcv/src/main.cc:131 | C `abs`: non-negative, and the argument or its negation |
| `Steering.Min` | newcv/src/main.cc:135 | `std::min`: one of the two arguments and no greater than either |
| `Steering.Max` | newcv/src/main.cc:137 | `std::max`: one of the two arguments and no smaller than either |
| `Steering.FullMapEnds` | newcv/src/main.cc:93-98 | the ends of the input range map exactly onto integral output bounds |
| `Steering.FullMapMonotone` | newcv/src/main.cc:93-98 | for an increasing input range and a non-decreasing output range the map is non-decreasing |
| `Steering.FullMapWithin` | newcv/src/main.cc:93-98 | inputs inside the input range give results inside the output range |
| `Steering.MapServoEnds` | newcv/src/main.cc:100-104 | `map_servo` sends the range ends to SERVO_LEFT and SERVO_RIGHT |
| `Steering.MapServoFineCenter` | newcv/src/main.cc:106-114 | the reference column `mean` maps exactly to SERVO_CENTER (300) |
| `Steering.MapServoFineEnds` | newcv/src/main.cc:106-114 | `in_min` maps to SERVO_LEFT (220) and `in_max` to SERVO_RIGHT (380) |
| `Steering.MapServoFineSide` | newcv/src/main.cc:106-114 | the command is below SERVO_CENTER if and only if the column is below `mean` |
| `Steering.MapServoFineMonotone` | newcv/src/main.cc:106-114 | non-decreasing on each segment and across `mean` |
| `Steering.MapServoFineWithin` | newcv/src/main.cc:106-114 | columns in `[in_min, in_max]` give commands in `[220, 380]` |
| `Steering.AverageNotZeroCases` | newcv/src/main.cc:116-127 | 0 means absent: both present gives their mean (between them), one present gives it, none gives -1; for non-negative inputs -1 means both absent |
| `Steering.ChoseServoAbsent` | newcv/src/main.cc:142-143 | with one side 0 the other is returned unchanged; with both 0 the result is -1 |
| `Steering.ChoseServoAgree` | newcv/src/main.cc:131-132 | present readings closer than 15 give their truncated mean, `(l+r)/2` for a non-negative sum |
| `Steering.ChoseServoSameSide` | newcv/src/main.cc:134-137 | disagreeing readings on one side of `mean` give one of the two, the one farther from `mean` |
| `Steering.ChoseServoStraddle` | newcv/src/main.cc:138-139 | disagreeing readings that straddle or touch `mean` give the truncated mean |
| `Steering.ChoseServoBetween` | newcv/src/main.cc:129-141 | two present readings fuse to a value between them |
| `Steering.ChoseServoSymmetric` | newcv/src/main.cc:129-145 | swapping left and right does not change the result |
| `Steering.ChoseServoNoEstimate` | newcv/src/main.cc:129-145 | for non-negative readings the result is -1 if and only if both are absent |
| `Steering.ChoseServoExamples` | newcv/src/main.cc:129-145 | 200/210 give 205, 100/120 give 100, 350/400 give 400, 0/250 give 250, 0/0 give -1 |
| `EdgeSampler.EdgeColumns` | newcv/src/main.cc:149-161 | the vector `v` of columns pushed by the scan; `EdgeSampler.EdgeColumnsExact`, `EdgeSampler.EdgeColumnsNone` and `EdgeSampler.EdgeColumnsSingle` carry its properties |
| `EdgeSampler.Sum` | newcv/src/main.cc:164 | `std::accumulate` from 0; `EdgeSampler.SumBounds` bounds it by length times the element bounds |
| `EdgeSampler.SampleMean` | newcv/src/main.cc:150-167 | the returned value: -1, or the sum of `EdgeColumns` over its size; `EdgeSampler.SampleMeanAbsent`, `EdgeSampler.SampleMeanWithin` and `EdgeSampler.SampleMeanSingle` carry its properties, and `EdgeSampler.FindAvgPointOnLine` is proved to compute it |
| `EdgeSampler.EdgeColumnsExact` | newcv/src/main.cc:151-161 | the collected columns are exactly the in-range columns whose pixel is 255, strictly increasing |
| `EdgeSampler.EdgeColumnsNone` | newcv/src/main.cc:151-161 | a range without 255 pixels collects nothing |
| `EdgeSampler.EdgeColumnsSingle` | newcv/src/main.cc:151-161 | a range with one 255 pixel collects just that column |
| `EdgeSampler.SampleMeanAbsent` | newcv/src/main.cc:150-167 | the result is -1 if and only if no column of the range holds 255 |
| `EdgeSampler.SampleMeanWithin` | newcv/src/main.cc:163-166 | a found mean lies within the scanned range |
| `EdgeSampler.SampleMeanSingle` | newcv/src/main.cc:163-164 | a single edge pixel gives exactly its column |
| `EdgeSampler.FindAvgPointOnLine` | newcv/src/main.cc:147-168 | the scan of columns `start .. stop+2` returns the mean of the 255 columns, -1 exactly when there is none, and a found mean lies in `[start, stop+2]` |
| `LaneEstimator.SideServo` | newcv/src/main.cc:209-210 | one side's contribution: `map_servo_fine` of the scan's mean when it found an edge, else 0; its properties are in `LaneEstimator.SideServoRange` |
| `LaneEstimator.LaneCommand` | newcv/src/main.cc:233 | the value `servo_comand_line` returns: `chose_servo` of the two near-row contributions around 300; its properties are in `LaneEstimator.LaneCommandRange`, `LaneEstimator.LaneCommandNearRowOnly` and `LaneEstimator.OverscanExceedsRight` |
| `LaneEstimator.SideServoRange` | newcv/src/main.cc:209-227 | a side contributes 0 exactly when its scan finds nothing; otherwise a command from SERVO_LEFT up to the map's value at `stop+2` |
| `LaneEstimator.NearOverscan` | newcv/src/main.cc:40-52 | at column `stop+2` the left near side maps to 380 and the right near side to 381 |
| `LaneEstimator.LaneCommandRange` | newcv/src/main.cc:207-233 | the returned estimate is -1 exactly when neither near-row side has an edge; otherwise it is in `[220, 381]` |
| `LaneEstimator.OverscanExceedsRight` | newcv/src/main.cc:151 | a lone right edge at the last overscanned column gives 381, outside the servo range |
| `LaneEstimator.LaneCommandNearRowOnly` | newcv/src/main.cc:207-233 | images that agree on the near row give the same estimate; the mid and far rows never matter |
| `LaneEstimator.ServoCommandLine` | newcv/src/main.cc:170-234 | samples six rows with the nested near/mid/far ifs and returns `chose_servo` of the near-row left and right contributions |
| `Obstruction.SignInViewAppend` | newcv/src/main.cc:296-310 | one more box adds exactly that box's verdict |
| `Obstruction.SignBandExamples` | newcv/src/main.cc:307-309 | the band `[150, 200]` is closed: 150, 175 and 200 count, 140, 149, 201 and 210 do not |
| `Obstruction.DetectAndDisplay` | newcv/src/main.cc:283-313 | returns `SignVerdict` of the boxes: 1 if and only if some box height is in `[150, 200]`, else 0 |
| `ControlLoop.ToUnsigned16` | newcv/src/main.cc:390 | conversion to `unsigned short` gives the value in `[0, 65536)` congruent to the argument |
| `ControlLoop.ToUnsigned32` | newcv/src/main.cc:394 | conversion to `unsigned int` gives the value in `[0, 2^32)` congruent to the argument |
| `ControlLoop.SpeedWord` | newcv/src/main.cc:390-392 | the packed motor word `(left_speed << 16) + right_speed` with both halves the `unsigned short` speed; its properties are in `ControlLoop.SpeedWordHalves` |
| `ControlLoop.SpeedWordHalves` | newcv/src/main.cc:390-392 | the motor word is a 32-bit value whose high and low halves both equal the truncated speed argument |
| `ControlLoop.DirectionBits` | newcv/src/main.cc:394-404 | the direction word `((left_dir & 1) << 1) + (right_dir & 1)` of the `unsigned int` direction; its properties are in `ControlLoop.DirectionBitsValues` |
| `ControlLoop.DirectionBitsValues` | newcv/src/main.cc:403-404 | the direction word is 3 for an odd argument and 0 for an even one |
| `ControlLoop.DirectionRejected` | newcv/src/main.cc:394-395 | the direction check on the unsigned value never rejects |
| `ControlLoop.IterationCount` | newcv/src/main.cc:383-388 | 42 becomes 10000, debug level -1 forces 1, other counts are kept |
| `ControlLoop.HoldAndClamp` | newcv/src/main.cc:504-511 | the emitted command is always in `[220, 380]`; it is the estimate when that is in range, the nearer limit when it is outside, and the previous command when the estimate is -1 (for an in-range previous command) |
| `ControlLoop.HoldAndClampStable` | newcv/src/main.cc:504-513 | feeding an emitted command back in leaves it unchanged |
| `ControlLoop.Commands` | newcv/src/main.cc:450-492 | one `servo_comand_line` estimate per iteration, in frame order, one per frame; `ControlLoop.StopSignInert` and `ControlLoop.CommandsStep` carry its properties, and the estimates themselves rest on `EdgeSampler.EdgeColumnsExact`, `EdgeSampler.SampleMeanWithin` and `LaneEstimator.SideServoRange` |
| `ControlLoop.ServoAfter` | newcv/src/main.cc:409-513 | `servo_out` after the loop has seen the estimates: 300, then one hold-and-clamp step per estimate; `ControlLoop.HoldAndClamp` keeps it in `[220, 380]` |
| `ControlLoop.LoopWrites` | newcv/src/main.cc:534-535 | the loop's writes, the motor word then the servo command per iteration; `ControlLoop.LoopWritesSafe` and `ControlLoop.LoopWritesInRange` carry its properties |
| `ControlLoop.SignsAfter` | newcv/src/main.cc:420-517 | `(stop_sign, old_stop_sign)` after the loop, shifted once per frame from `(0, 0)`; `ControlLoop.SignsAfterLast` carries its properties |
| `ControlLoop.LoopWritesSafe` | newcv/src/main.cc:504-535 | each iteration writes the unchanged motor word, then a servo command in `[220, 380]` |
| `ControlLoop.LoopWritesInRange` | newcv/src/main.cc:504-535 | no loop write is a servo command outside `[220, 380]` |
| `ControlLoop.StopSignInert` | newcv/src/main.cc:515-535 | frames with the same edge images give the same estimates, so the classifier's boxes never change any servo or motor write |
| `ControlLoop.StartWrites` | newcv/src/main.cc:403-412 | the start-up writes: the direction word, enable 1, servo 300; `ControlLoop.Controller.Start` is proved to make them and `ControlLoop.RunWritesSafe` covers their servo value |
| `ControlLoop.SHUTDOWN_WRITES` | newcv/src/main.cc:590-594 | servo 300, then motor word 0; `ControlLoop.Controller.Shutdown` is proved to make them |
| `ControlLoop.RunWritesSafe` | newcv/src/main.cc:409-594 | every servo write of a run is in `[220, 380]`, including start-up and shutdown |
| `ControlLoop.Controller.Start` | newcv/src/main.cc:390-412 | builds the speed word and writes the direction, the enable and servo 300 |
| `ControlLoop.Controller.Iterate` | newcv/src/main.cc:492-535 | the new `servo_out` is the held and clamped estimate and becomes `old_servo_out`; the stop sign is shifted into `old_stop_sign`; the motor word and the servo command are written |
| `Obstruction.InSignBand` | newcv/src/main.cc:307 | the closed band test `150 <= height <= 200`; `Obstruction.SignBandExamples` pins its ends |
| `Obstruction.SignInView` | newcv/src/main.cc:296-310 | some box passes the band test, the disjunction the loop builds; `Obstruction.SignInViewAppend` gives its step |
| `Obstruction.SignVerdict` | newcv/src/main.cc:283-313 | reference definition of the verdict: 1 exactly when some box is in the band, else 0; `Obstruction.DetectAndDisplay` is proved to return it |
| `ControlLoop.Controller.Run` | newcv/src/main.cc:450-588 | after the loop over the first `iterations` frames, the servo command is the hold-and-clamp fold of their estimates, the writes are one motor/servo pair per frame, and `(stop_sign, old_stop_sign)` is `SignsAfter` of those frames, the verdicts of the last two |
| `ControlLoop.SignsAfterLast` | newcv/src/main.cc:515-517 | after the loop `stop_sign` holds the verdict of the last frame and `old_stop_sign` that of the one before; with fewer frames the start values shift through |
| `ControlLoop.CommandsStep` | newcv/src/main.cc:450-535 | one more frame appends its estimate, one hold-and-clamp step and one motor/servo write pair |
| `ControlLoop.Controller.Step` | newcv/src/main.cc:450-535 | the loop body on frame `n`, stated over the prefix of frames the loop has seen |
| `ControlLoop.Controller.Shutdown` | newcv/src/main.cc:590-594 | writes servo 300, then motor word 0 |
| `ControlLoop.Drive` | newcv/src/main.cc:332-594 | too few arguments or a negative count: exit -1, no writes; exactly five `argv` entries: a fault after the start-up writes, since `argv[5]` is read unchecked; classifier load failure: exit -1 after the start-up writes; otherwise start-up writes, one motor/servo pair per iteration, shutdown writes, exit 0; every servo write is in range |

## Left out

- The OpenCV pipeline: colour conversion, blur, Canny, masking, cropping, resizing and overlays. The edge image is an input of each frame.
- The cascade classifier. The candidate boxes it would produce are an input of each frame.
- Device I/O. Opening, reading and closing the camera, servo, motor and sonar devices is not modelled, and neither are the `camera < 0` style checks on `FILE*` values, which can never fire. Writes are recorded as a trace. Frame acquisition is a sequence of frames supplied to `Drive`.
- The interrupt handler `my_handler` and `sigaction`. These are asynchronous and exist only for concurrency. The handler writes the same values as `Controller.Shutdown`.
- The commented-out sonar distance override and the commented-out stop-sign brake/resume debounce. Neither is live code.
- Diagnostics: `cout` tracing, debug-level markers, `imwrite` with its exception path (exit status 1), and the `test.png` image for debug level -1.
- IEEE-754 rounding and the `clk_to_cm` constant. The arithmetic is exact `real` plus truncation.
- C `int` overflow, and casts of out-of-range doubles to `int`. `(left_speed << 16)` for speeds of 32768 and above is taken as the two's-complement bit pattern.
- FullMap: requires `in_min != in_max`. The source divides by `in_max - in_min` without a check, so with equal bounds the cast of an infinite or NaN double is undefined.
- MapServoFine: requires that the segment used is not empty, for the same reason.
- EdgeSampler.FindAvgPointOnLine: requires every scanned pixel to lie inside the image. `Mat::at` does no bounds check there.
- LaneEstimator.ServoCommandLine: requires the image to hold all six scan ranges, for the same reason.
- Drive: the fault for exactly five `argv` entries is modelled as an end of the run with no further writes; what undefined behaviour might do instead is not modelled. Drive also requires the frame sequence to hold at least as many frames as the iteration count.
- Drive: takes `param`, the iteration count, the speed and the direction as integers, so `atoi` on the `argv` strings is not modelled (non-numeric text giving 0, out-of-range values).
- DirectionRejected: modelled as a function with the proof that it never fires, not as a branch of `Drive`. A branch that can never be taken has no behaviour to model.
