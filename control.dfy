/**
 * The control loop of `main`: argument normalisation, the start-up device
 * writes, one iteration per frame (lane estimate, hold of the last command,
 * clamp, stop-sign bookkeeping, motor and servo writes) and the shutdown
 * writes. The devices are modelled by the sequence of writes they receive.
 */
module ControlLoop {
  import opened Steering
  import opened EdgeSampler
  import opened LaneEstimator
  import opened Obstruction

  /** One write to a device, in program order. */
  datatype Write =
    | SetDirection(bits: int)  // MOTION_IOCTSETDIR on the motor device
    | SetEnable(on: int)       // MOTION_IOCTSETENABLE on the motor device
    | Servo(angle: int)        // a write to the steering servo
    | Motor(word: int)         // a packed {left:16, right:16} speed write

  /** One camera frame after the image pipeline: the lane edge image and the classifier's boxes. */
  datatype Frame = Frame(edges: Image, signs: seq<Rect>)

  /**
   * How the program ends: an exit status, or a fault (undefined behaviour,
   * a crash in practice) with no status and no further writes.
   */
  datatype Outcome = Exit(status: int) | Fault

  /** The literal servo value written at start-up and at shutdown. */
  const SERVO_START: int := 300
  /** The iteration count that stands for a long run. */
  const LONG_RUN_ALIAS: int := 42
  const LONG_RUN: int := 10000
  /** The debug level that forces one iteration. */
  const DEBUG_FULL: int := -1
  /** The smallest argument count the argument check accepts: the program name and four arguments. */
  const MIN_ARGC: int := 5
  /** The index of the stop-distance argument, read unconditionally after the start-up writes. */
  const STOP_DIST_INDEX: int := 5
  const WORD16: int := 0x1_0000
  const WORD32: int := 0x1_0000_0000

  /** Conversion of an int to `unsigned short`: reduction modulo 2^16. */
  function ToUnsigned16(x: int): (r: int)
    ensures 0 <= r < WORD16 && (x - r) % WORD16 == 0
    ensures 0 <= x < WORD16 ==> r == x
  {
    x % WORD16
  }

  /** Conversion of an int to `unsigned int`: reduction modulo 2^32. */
  function ToUnsigned32(x: int): (r: int)
    ensures 0 <= r < WORD32 && (x - r) % WORD32 == 0
    ensures 0 <= x < WORD32 ==> r == x
  {
    x % WORD32
  }

  /** The packed motor word `(left_speed << 16) + right_speed` with both halves the speed argument. */
  function SpeedWord(speedArg: int): int
  {
    var leftSpeed := ToUnsigned16(speedArg);
    ToUnsigned32(leftSpeed * WORD16 + leftSpeed)
  }

  /** Both 16-bit halves of the motor word hold the (truncated) speed argument. */
  lemma SpeedWordHalves(speedArg: int)
    ensures 0 <= SpeedWord(speedArg) < WORD32
    ensures SpeedWord(speedArg) / WORD16 == ToUnsigned16(speedArg)
    ensures SpeedWord(speedArg) % WORD16 == ToUnsigned16(speedArg)
  {
    var s := ToUnsigned16(speedArg);
    assert s * WORD16 + s < WORD32;
  }

  /** The motor direction word `((d & 1) << 1) + (d & 1)` of the unsigned direction argument. */
  function DirectionBits(dirArg: int): int
  {
    var leftDir := ToUnsigned32(dirArg);
    var rightDir := leftDir;
    (leftDir % 2) * 2 + rightDir % 2
  }

  /** Both motors get the same direction: the word is 3 for an odd argument and 0 for an even one. */
  lemma DirectionBitsValues(dirArg: int)
    ensures DirectionBits(dirArg) == (if dirArg % 2 == 1 then 3 else 0)
  {
    var d := ToUnsigned32(dirArg);
    assert (dirArg - d) % WORD32 == 0;
    var k := (dirArg - d) / WORD32;
    assert dirArg == d + 2 * (k * (WORD32 / 2));
  }

  /**
   * The direction check `left_dir < 0 && left_dir > 1` on the unsigned
   * direction value: it can never reject.
   */
  function DirectionRejected(dirArg: int): (rejected: bool)
    ensures !rejected
  {
    var leftDir := ToUnsigned32(dirArg);
    leftDir < 0 && leftDir > 1
  }

  /** The number of loop iterations for a non-negative argument: 42 means 10000, full debug means 1. */
  function IterationCount(iterationsArg: int, param: int): (n: int)
    requires 0 <= iterationsArg
    ensures 0 <= n
    ensures param == DEBUG_FULL ==> n == 1
    ensures param != DEBUG_FULL && iterationsArg == LONG_RUN_ALIAS ==> n == LONG_RUN
    ensures param != DEBUG_FULL && iterationsArg != LONG_RUN_ALIAS ==> n == iterationsArg
  {
    if param == DEBUG_FULL then 1
    else if iterationsArg == LONG_RUN_ALIAS then LONG_RUN
    else iterationsArg
  }

  /**
   * The steering command a loop iteration emits: a missing estimate (-1) is
   * replaced by the previous command, and the result is clamped.
   */
  function HoldAndClamp(cmd: int, previous: int): (r: int)
    ensures SERVO_LEFT <= r <= SERVO_RIGHT
    ensures cmd != -1 && SERVO_LEFT <= cmd <= SERVO_RIGHT ==> r == cmd
    ensures cmd != -1 && cmd < SERVO_LEFT ==> r == SERVO_LEFT
    ensures SERVO_RIGHT < cmd ==> r == SERVO_RIGHT
    ensures cmd == -1 && SERVO_LEFT <= previous <= SERVO_RIGHT ==> r == previous
  {
    var held := if cmd == -1 then previous else cmd;
    if held <= SERVO_LEFT then SERVO_LEFT
    else if held >= SERVO_RIGHT then SERVO_RIGHT
    else held
  }

  /** Emitting a command that was already emitted changes nothing. */
  lemma HoldAndClampStable(cmd: int, previous: int, again: int)
    ensures HoldAndClamp(HoldAndClamp(cmd, previous), again) == HoldAndClamp(cmd, previous)
  {
  }

  predicate AllCover(frames: seq<Frame>)
  {
    forall i :: 0 <= i < |frames| ==> CoversScanRows(frames[i].edges)
  }

  lemma AllCoverPrefix(frames: seq<Frame>, n: int)
    requires AllCover(frames) && 0 <= n <= |frames|
    ensures AllCover(frames[..n])
  {
    forall i | 0 <= i < n ensures CoversScanRows(frames[..n][i].edges) {
      assert frames[..n][i] == frames[i];
    }
  }

  /** The lane estimates of `frames`, one per frame. */
  function Commands(frames: seq<Frame>): (cmds: seq<int>)
    requires AllCover(frames)
    ensures |cmds| == |frames|
  {
    if frames == [] then []
    else
      AllCoverPrefix(frames, |frames| - 1);
      Commands(frames[..|frames| - 1]) + [LaneCommand(frames[|frames| - 1].edges)]
  }

  /** The servo command after the loop has emitted the estimates `cmds`. */
  function ServoAfter(cmds: seq<int>): int
  {
    if cmds == [] then SERVO_START
    else HoldAndClamp(cmds[|cmds| - 1], ServoAfter(cmds[..|cmds| - 1]))
  }

  /** The device writes of the loop: per estimate the motor word, then the emitted servo command. */
  function LoopWrites(word: int, cmds: seq<int>): seq<Write>
  {
    if cmds == [] then []
    else LoopWrites(word, cmds[..|cmds| - 1]) + [Motor(word), Servo(ServoAfter(cmds))]
  }

  /**
   * `(stop_sign, old_stop_sign)` after the loop has seen `frames`, starting
   * from `(sign, oldSign)`.
   */
  function SignsAfter(frames: seq<Frame>, sign: int, oldSign: int): (int, int)
  {
    if frames == [] then (sign, oldSign)
    else (SignVerdict(frames[|frames| - 1].signs), SignsAfter(frames[..|frames| - 1], sign, oldSign).0)
  }

  /**
   * After the loop `stop_sign` holds the verdict of the last frame and
   * `old_stop_sign` that of the one before; with fewer frames the start
   * values shift through.
   */
  lemma SignsAfterLast(frames: seq<Frame>, sign: int, oldSign: int)
    ensures frames == [] ==> SignsAfter(frames, sign, oldSign) == (sign, oldSign)
    ensures |frames| == 1 ==> SignsAfter(frames, sign, oldSign) == (SignVerdict(frames[0].signs), sign)
    ensures |frames| >= 2 ==>
      SignsAfter(frames, sign, oldSign) == (SignVerdict(frames[|frames| - 1].signs), SignVerdict(frames[|frames| - 2].signs))
  {
    if |frames| >= 2 {
      var prefix := frames[..|frames| - 1];
      assert prefix[|prefix| - 1] == frames[|frames| - 2];
    }
  }

  /** The writes before the loop: direction, enable, and the initial servo command. */
  function StartWrites(dirArg: int): seq<Write>
  {
    [SetDirection(DirectionBits(dirArg)), SetEnable(1), Servo(SERVO_START)]
  }

  /** The writes after the loop: centre the servo, then stop the motors. */
  const SHUTDOWN_WRITES: seq<Write> := [Servo(SERVO_START), Motor(0)]

  /** Write k of a loop trace: even positions carry the motor word, odd ones a servo command inside the limits. */
  predicate ShapedAt(w: seq<Write>, k: int, word: int)
    requires 0 <= k < |w|
  {
    if k % 2 == 0 then w[k] == Motor(word)
    else w[k].Servo? && SERVO_LEFT <= w[k].angle <= SERVO_RIGHT
  }

  /** A servo write inside the limits, or a write to another device. */
  predicate ServoInRange(x: Write)
  {
    x.Servo? ==> SERVO_LEFT <= x.angle <= SERVO_RIGHT
  }

  /** Every write is a servo command inside the limits or the given motor word, alternating motor / servo. */
  predicate LoopShaped(w: seq<Write>, word: int)
  {
    |w| % 2 == 0 && forall k :: 0 <= k < |w| ==> ShapedAt(w, k, word)
  }

  /** Every iteration writes the unchanged motor word, then a servo command inside the limits. */
  lemma {:induction false} LoopWritesSafe(word: int, cmds: seq<int>)
    ensures |LoopWrites(word, cmds)| == 2 * |cmds|
    ensures LoopShaped(LoopWrites(word, cmds), word)
  {
    if cmds != [] {
      var prefix := cmds[..|cmds| - 1];
      LoopWritesSafe(word, prefix);
      var p := LoopWrites(word, prefix);
      var w := LoopWrites(word, cmds);
      assert w == p + [Motor(word), Servo(ServoAfter(cmds))];
      forall k | 0 <= k < |w| ensures ShapedAt(w, k, word) {
        if k < |p| {
          assert w[k] == p[k];
          assert ShapedAt(p, k, word);
        }
      }
    }
  }

  /** No write of the loop is a servo command outside the limits. */
  lemma {:induction false} LoopWritesInRange(word: int, cmds: seq<int>)
    ensures forall x :: x in LoopWrites(word, cmds) ==> ServoInRange(x)
  {
    if cmds != [] {
      LoopWritesInRange(word, cmds[..|cmds| - 1]);
    }
  }

  /** The classifier's boxes never influence the estimates, hence never what is written. */
  lemma {:induction false} StopSignInert(frames1: seq<Frame>, frames2: seq<Frame>)
    requires AllCover(frames1) && AllCover(frames2) && |frames1| == |frames2|
    requires forall i :: 0 <= i < |frames1| ==> frames1[i].edges == frames2[i].edges
    ensures Commands(frames1) == Commands(frames2)
  {
    if frames1 != [] {
      var n := |frames1| - 1;
      AllCoverPrefix(frames1, n);
      AllCoverPrefix(frames2, n);
      StopSignInert(frames1[..n], frames2[..n]);
    }
  }

  /** One more frame adds its estimate, one hold-and-clamp step and one motor/servo pair. */
  lemma CommandsStep(frames: seq<Frame>, n: int, word: int)
    requires AllCover(frames) && 0 <= n < |frames|
    ensures AllCover(frames[..n]) && AllCover(frames[..n + 1])
    ensures Commands(frames[..n + 1]) == Commands(frames[..n]) + [LaneCommand(frames[n].edges)]
    ensures ServoAfter(Commands(frames[..n + 1])) ==
      HoldAndClamp(LaneCommand(frames[n].edges), ServoAfter(Commands(frames[..n])))
    ensures LoopWrites(word, Commands(frames[..n + 1])) ==
      LoopWrites(word, Commands(frames[..n])) + [Motor(word), Servo(ServoAfter(Commands(frames[..n + 1])))]
  {
    AllCoverPrefix(frames, n);
    AllCoverPrefix(frames, n + 1);
    var done := Commands(frames[..n]);
    assert frames[..n + 1][..n] == frames[..n];
    assert Commands(frames[..n + 1]) == done + [LaneCommand(frames[n].edges)];
    assert (done + [LaneCommand(frames[n].edges)])[..n] == done;
  }

  /** Every servo command of a complete run, start-up and shutdown included, is inside the limits. */
  lemma RunWritesSafe(dirArg: int, word: int, cmds: seq<int>)
    ensures forall x :: x in StartWrites(dirArg) + LoopWrites(word, cmds) + SHUTDOWN_WRITES ==> ServoInRange(x)
  {
    LoopWritesInRange(word, cmds);
  }

  /** The variables of `main` that carry over from one loop iteration to the next. */
  class Controller {
    /** The packed motor word built from the arguments. */
    const cruise: int
    var servoOut: int
    var oldServoOut: int
    var speed: int
    var stopSign: int
    var oldStopSign: int
    /** Everything written to the devices so far. */
    var writes: seq<Write>

    ghost predicate Valid()
      reads this
    {
      SERVO_LEFT <= servoOut <= SERVO_RIGHT && oldServoOut == servoOut && speed == cruise &&
      (stopSign == 0 || stopSign == 1) && (oldStopSign == 0 || oldStopSign == 1)
    }

    /** Set-up before the loop: speed word, motor direction and enable, first servo write. */
    constructor Start(speedArg: int, dirArg: int)
      ensures Valid()
      ensures cruise == SpeedWord(speedArg) && servoOut == SERVO_START
      ensures stopSign == 0 && oldStopSign == 0
      ensures writes == StartWrites(dirArg)
    {
      // Statement by statement as in `main`; the ensures tie the words
      // built here back to SpeedWord and DirectionBits.
      var leftSpeed := ToUnsigned16(speedArg);
      var rightSpeed := leftSpeed;
      cruise := ToUnsigned32(leftSpeed * WORD16 + rightSpeed);
      speed := cruise;
      var leftDir := ToUnsigned32(dirArg);
      var rightDir := leftDir;
      writes := [SetDirection((leftDir % 2) * 2 + rightDir % 2), SetEnable(1)];
      servoOut := SERVO_START;
      oldServoOut := servoOut;
      writes := writes + [Servo(servoOut)];
      stopSign, oldStopSign := 0, 0;
    }

    /** One pass of the loop body on one frame. */
    method Iterate(frame: Frame)
      requires Valid() && CoversScanRows(frame.edges)
      modifies this
      ensures Valid()
      ensures servoOut == HoldAndClamp(LaneCommand(frame.edges), old(servoOut))
      ensures oldStopSign == old(stopSign)
      ensures stopSign == SignVerdict(frame.signs)
      ensures writes == old(writes) + [Motor(cruise), Servo(servoOut)]
    {
      servoOut := ServoCommandLine(frame.edges);
      if servoOut == -1 {
        servoOut := oldServoOut;
      }
      if servoOut <= SERVO_LEFT {
        servoOut := SERVO_LEFT;
      }
      if servoOut >= SERVO_RIGHT {
        servoOut := SERVO_RIGHT;
      }
      oldServoOut := servoOut;
      oldStopSign := stopSign;
      stopSign := DetectAndDisplay(frame.signs);
      writes := writes + [Motor(speed)];
      writes := writes + [Servo(servoOut)];
    }

    /** The loop of `main` over the first `iterations` frames, from the start-up state. */
    method Run(frames: seq<Frame>, iterations: int)
      requires Valid() && servoOut == SERVO_START
      requires AllCover(frames) && 0 <= iterations <= |frames|
      modifies this
      ensures Valid() && AllCover(frames[..iterations])
      ensures servoOut == ServoAfter(Commands(frames[..iterations]))
      ensures writes == old(writes) + LoopWrites(cruise, Commands(frames[..iterations]))
      ensures (stopSign, oldStopSign) == SignsAfter(frames[..iterations], old(stopSign), old(oldStopSign))
    {
      var loop := 0;
      ghost var sign0, oldSign0 := stopSign, oldStopSign;
      AllCoverPrefix(frames, 0);
      while loop < iterations
        invariant 0 <= loop <= iterations
        invariant Valid()
        invariant AllCover(frames[..loop])
        invariant servoOut == ServoAfter(Commands(frames[..loop]))
        invariant writes == old(writes) + LoopWrites(cruise, Commands(frames[..loop]))
        invariant (stopSign, oldStopSign) == SignsAfter(frames[..loop], sign0, oldSign0)
      {
        Step(frames, loop, sign0, oldSign0);
        loop := loop + 1;
      }
    }

    /** The loop body on frame `n`, stated over the prefixes of `frames` the loop has seen. */
    method Step(frames: seq<Frame>, n: int, ghost sign0: int, ghost oldSign0: int)
      requires Valid() && AllCover(frames) && 0 <= n < |frames| && AllCover(frames[..n])
      requires servoOut == ServoAfter(Commands(frames[..n]))
      requires (stopSign, oldStopSign) == SignsAfter(frames[..n], sign0, oldSign0)
      modifies this
      ensures Valid() && AllCover(frames[..n + 1])
      ensures servoOut == ServoAfter(Commands(frames[..n + 1]))
      ensures writes == old(writes) + [Motor(cruise), Servo(servoOut)]
      ensures LoopWrites(cruise, Commands(frames[..n + 1])) ==
        LoopWrites(cruise, Commands(frames[..n])) + [Motor(cruise), Servo(servoOut)]
      ensures (stopSign, oldStopSign) == SignsAfter(frames[..n + 1], sign0, oldSign0)
    {
      CommandsStep(frames, n, cruise);
      assert frames[..n + 1][..n] == frames[..n];
      Iterate(frames[n]);
    }

    /** After the loop: servo to 300, motors to 0. */
    method Shutdown()
      modifies this
      ensures speed == 0 && servoOut == SERVO_START
      ensures oldServoOut == old(oldServoOut) && stopSign == old(stopSign) && oldStopSign == old(oldStopSign)
      ensures writes == old(writes) + SHUTDOWN_WRITES
    {
      speed := 0;
      servoOut := SERVO_START;
      writes := writes + [Servo(servoOut)];
      writes := writes + [Motor(speed)];
    }
  }

  /**
   * `main` from its arguments to its outcome, with the frames the camera
   * delivers and whether the classifier's data loaded. Too few arguments or
   * a negative iteration count exit before any write. After the start-up
   * writes the stop distance `argv[5]` is read without a check, so with
   * exactly the minimum argument count the program faults there. Otherwise a
   * failed classifier load exits after the start-up writes, and a successful
   * one runs the loop and the shutdown writes.
   */
  method Drive(argc: int, param: int, iterationsArg: int, speedArg: int, dirArg: int, cascadeLoaded: bool, frames: seq<Frame>)
    returns (outcome: Outcome, writes: seq<Write>)
    requires AllCover(frames)
    requires STOP_DIST_INDEX < argc && 0 <= iterationsArg ==> IterationCount(iterationsArg, param) <= |frames|
    ensures outcome == Exit(0) || outcome == Exit(-1) || outcome == Fault
    ensures outcome == Fault <==> MIN_ARGC <= argc <= STOP_DIST_INDEX && 0 <= iterationsArg
    ensures outcome == Exit(-1) <==> argc < MIN_ARGC || iterationsArg < 0 || (STOP_DIST_INDEX < argc && !cascadeLoaded)
    ensures argc < MIN_ARGC || iterationsArg < 0 ==> writes == []
    ensures outcome == Fault ==> writes == StartWrites(dirArg)
    ensures STOP_DIST_INDEX < argc && 0 <= iterationsArg && !cascadeLoaded ==> writes == StartWrites(dirArg)
    ensures STOP_DIST_INDEX < argc && 0 <= iterationsArg && cascadeLoaded ==>
      writes == StartWrites(dirArg)
        + LoopWrites(SpeedWord(speedArg), Commands(frames[..IterationCount(iterationsArg, param)]))
        + SHUTDOWN_WRITES
    ensures forall x :: x in writes ==> ServoInRange(x)
  {
    if argc < MIN_ARGC {
      return Exit(-1), [];
    }
    if iterationsArg < 0 {
      return Exit(-1), [];
    }
    var iterations := iterationsArg;
    if iterations == LONG_RUN_ALIAS {
      iterations := LONG_RUN;
    }
    if param == DEBUG_FULL {
      iterations := 1;
    }

    var c := new Controller.Start(speedArg, dirArg);
    if argc <= STOP_DIST_INDEX {
      return Fault, c.writes;
    }
    if !cascadeLoaded {
      return Exit(-1), c.writes;
    }

    assert iterations == IterationCount(iterationsArg, param);
    AllCoverPrefix(frames, iterations);
    c.Run(frames, iterations);
    RunWritesSafe(dirArg, c.cruise, Commands(frames[..iterations]));
    c.Shutdown();
    outcome, writes := Exit(0), c.writes;
  }
}
