/**
 * The lane estimator `servo_comand_line`: sample three scan rows on both
 * lane boundaries, map each found column onto a servo contribution and fuse
 * the near-row contributions into one steering command.
 */
module LaneEstimator {
  import opened Steering
  import opened EdgeSampler

  /**
   * A scan of one side of one row: the image row, the nominal column bounds
   * (also the input range of the servo map) and the reference column.
   */
  datatype ScanSpec = ScanSpec(y: int, lo: int, hi: int, mean: int)

  const Y_1: int := 560
  const LINE_DISTANCE_1_OUT: int := 100
  const LINE_DISTANCE_1_IN: int := 280
  const LEFT_MEAN_1: int := 172
  const RIGHT_MEAN_1: int := 1100

  const Y_2: int := 440
  const LINE_DISTANCE_2: int := 100
  const LEFT_MEAN_2: int := 304
  const RIGHT_MEAN_2: int := 963

  const Y_3: int := 300
  const LINE_DISTANCE_3: int := 100
  const LEFT_MEAN_3: int := 481
  const RIGHT_MEAN_3: int := 794

  const LEFT_NEAR: ScanSpec :=
    ScanSpec(Y_1, LEFT_MEAN_1 - LINE_DISTANCE_1_OUT, LEFT_MEAN_1 + LINE_DISTANCE_1_IN, LEFT_MEAN_1)
  const RIGHT_NEAR: ScanSpec :=
    ScanSpec(Y_1, RIGHT_MEAN_1 - LINE_DISTANCE_1_IN, RIGHT_MEAN_1 + LINE_DISTANCE_1_OUT, RIGHT_MEAN_1)
  const LEFT_MID: ScanSpec :=
    ScanSpec(Y_2, LEFT_MEAN_2 - LINE_DISTANCE_2, LEFT_MEAN_2 + LINE_DISTANCE_2, LEFT_MEAN_2)
  const RIGHT_MID: ScanSpec :=
    ScanSpec(Y_2, RIGHT_MEAN_2 - LINE_DISTANCE_2, RIGHT_MEAN_2 + LINE_DISTANCE_2, RIGHT_MEAN_2)
  const LEFT_FAR: ScanSpec :=
    ScanSpec(Y_3, LEFT_MEAN_3 - LINE_DISTANCE_3, LEFT_MEAN_3 + LINE_DISTANCE_3, LEFT_MEAN_3)
  const RIGHT_FAR: ScanSpec :=
    ScanSpec(Y_3, RIGHT_MEAN_3 - LINE_DISTANCE_3, RIGHT_MEAN_3 + LINE_DISTANCE_3, RIGHT_MEAN_3)

  /** The image holds every column the scan of `s` reads, and `s` is a proper range around its mean. */
  predicate Covers(img: Image, s: ScanSpec)
  {
    0 <= s.y < |img| && 0 <= s.lo < s.mean < s.hi && s.hi + 2 < |img[s.y]|
  }

  /** The image is large enough for all six scans. */
  predicate CoversScanRows(img: Image)
  {
    Covers(img, LEFT_NEAR) && Covers(img, RIGHT_NEAR) &&
    Covers(img, LEFT_MID) && Covers(img, RIGHT_MID) &&
    Covers(img, LEFT_FAR) && Covers(img, RIGHT_FAR)
  }

  /** The servo contribution of one scan: the mapped mean column, or 0 when nothing was found. */
  function SideServo(img: Image, s: ScanSpec): int
    requires Covers(img, s)
  {
    var avg := SampleMean(img[s.y], s.lo, s.hi + 2);
    if avg == ABSENT then 0 else MapServoFine(avg, s.lo as real, s.hi as real, s.mean as real)
  }

  /**
   * A scan contributes 0 exactly when its columns hold no edge pixel, and
   * otherwise a command between SERVO_LEFT and the map's value at the last
   * column read (stop + 2).
   */
  lemma SideServoRange(img: Image, s: ScanSpec)
    requires Covers(img, s)
    ensures SideServo(img, s) == 0 <==> forall x :: s.lo <= x <= s.hi + 2 ==> img[s.y][x] != EDGE
    ensures SideServo(img, s) != 0 ==>
      SERVO_LEFT <= SideServo(img, s) <= MapServoFine((s.hi + 2) as real, s.lo as real, s.hi as real, s.mean as real)
  {
    var row := img[s.y];
    var avg := SampleMean(row, s.lo, s.hi + 2);
    SampleMeanAbsent(row, s.lo, s.hi + 2);
    if avg != ABSENT {
      SampleMeanWithin(row, s.lo, s.hi + 2);
      MapServoFineEnds(s.lo as real, s.hi as real, s.mean as real);
      MapServoFineMonotone(s.lo as real, avg, s.lo as real, s.hi as real, s.mean as real);
      MapServoFineMonotone(avg, (s.hi + 2) as real, s.lo as real, s.hi as real, s.mean as real);
    }
  }

  /** The map's value at the last column read on each near-row side. */
  lemma NearOverscan()
    ensures MapServoFine((LEFT_NEAR.hi + 2) as real, LEFT_NEAR.lo as real, LEFT_NEAR.hi as real, LEFT_NEAR.mean as real) == SERVO_RIGHT
    ensures MapServoFine((RIGHT_NEAR.hi + 2) as real, RIGHT_NEAR.lo as real, RIGHT_NEAR.hi as real, RIGHT_NEAR.mean as real) == SERVO_RIGHT + 1
  {
    assert Interpolate(454.0, 172.0, 452.0, 300.0, 380.0) == 2664.0 / 7.0;
    assert Interpolate(1202.0, 1100.0, 1200.0, 300.0, 380.0) == 381.6;
  }

  /** The value `servo_comand_line` returns: the fusion of the two near-row contributions. */
  function LaneCommand(img: Image): int
    requires CoversScanRows(img)
  {
    ChoseServo(SideServo(img, LEFT_NEAR), SideServo(img, RIGHT_NEAR), SERVO_CENTER)
  }

  /**
   * The estimate is -1 exactly when neither near-row side holds an edge
   * pixel, and otherwise lies in [SERVO_LEFT, SERVO_RIGHT + 1]: the overscan
   * of two columns lets the right side reach one past SERVO_RIGHT.
   */
  lemma LaneCommandRange(img: Image)
    requires CoversScanRows(img)
    ensures LaneCommand(img) == -1 <==>
      (forall x :: LEFT_NEAR.lo <= x <= LEFT_NEAR.hi + 2 ==> img[Y_1][x] != EDGE) &&
      (forall x :: RIGHT_NEAR.lo <= x <= RIGHT_NEAR.hi + 2 ==> img[Y_1][x] != EDGE)
    ensures LaneCommand(img) != -1 ==> SERVO_LEFT <= LaneCommand(img) <= SERVO_RIGHT + 1
  {
    var l := SideServo(img, LEFT_NEAR);
    var r := SideServo(img, RIGHT_NEAR);
    SideServoRange(img, LEFT_NEAR);
    SideServoRange(img, RIGHT_NEAR);
    NearOverscan();
    ChoseServoNoEstimate(l, r, SERVO_CENTER);
    if l != 0 && r != 0 {
      ChoseServoBetween(l, r, SERVO_CENTER);
    } else {
      ChoseServoAbsent(l, r, SERVO_CENTER);
    }
  }

  /**
   * An image whose near row has no left edge and a single right edge at the
   * last overscanned column yields SERVO_RIGHT + 1, outside the servo range:
   * only the clamp in the control loop keeps the actuator in range.
   */
  lemma OverscanExceedsRight(img: Image)
    requires CoversScanRows(img)
    requires forall x :: LEFT_NEAR.lo <= x <= LEFT_NEAR.hi + 2 ==> img[Y_1][x] != EDGE
    requires forall x :: RIGHT_NEAR.lo <= x <= RIGHT_NEAR.hi + 2 ==>
      (img[Y_1][x] == EDGE <==> x == RIGHT_NEAR.hi + 2)
    ensures LaneCommand(img) == SERVO_RIGHT + 1
  {
    SideServoRange(img, LEFT_NEAR);
    SampleMeanSingle(img[Y_1], RIGHT_NEAR.lo, RIGHT_NEAR.hi + 2, RIGHT_NEAR.hi + 2);
    NearOverscan();
    ChoseServoAbsent(0, SERVO_RIGHT + 1, SERVO_CENTER);
  }

  /** Only the near row matters: the mid and far rows never influence the estimate. */
  lemma LaneCommandNearRowOnly(img1: Image, img2: Image)
    requires CoversScanRows(img1) && CoversScanRows(img2)
    requires img1[Y_1] == img2[Y_1]
    ensures LaneCommand(img1) == LaneCommand(img2)
  {
  }

  /**
   * `servo_comand_line`: all six rows are sampled; a side's mid row is mapped
   * only when its near row was found and its far row only when the mid row
   * was too, but only the near-row values reach the fusion. Tracing output is
   * left out.
   */
  method ServoCommandLine(img: Image) returns (cmd: int)
    requires CoversScanRows(img)
    ensures cmd == LaneCommand(img)
  {
    var leftAvg1 := FindAvgPointOnLine(img, Y_1, LEFT_NEAR.lo, LEFT_NEAR.hi);
    var rightAvg1 := FindAvgPointOnLine(img, Y_1, RIGHT_NEAR.lo, RIGHT_NEAR.hi);
    var leftAvg2 := FindAvgPointOnLine(img, Y_2, LEFT_MID.lo, LEFT_MID.hi);
    var rightAvg2 := FindAvgPointOnLine(img, Y_2, RIGHT_MID.lo, RIGHT_MID.hi);
    var leftAvg3 := FindAvgPointOnLine(img, Y_3, LEFT_FAR.lo, LEFT_FAR.hi);
    var rightAvg3 := FindAvgPointOnLine(img, Y_3, RIGHT_FAR.lo, RIGHT_FAR.hi);

    var servoLeft1, servoRight1, servoLeft2, servoRight2, servoLeft3, servoRight3 := 0, 0, 0, 0, 0, 0;

    if leftAvg1 != ABSENT {
      servoLeft1 := MapServoFine(leftAvg1, LEFT_NEAR.lo as real, LEFT_NEAR.hi as real, LEFT_NEAR.mean as real);
      if leftAvg2 != ABSENT {
        servoLeft2 := MapServoFine(leftAvg2, LEFT_MID.lo as real, LEFT_MID.hi as real, LEFT_MID.mean as real);
        if leftAvg3 != ABSENT {
          servoLeft3 := MapServoFine(leftAvg3, LEFT_FAR.lo as real, LEFT_FAR.hi as real, LEFT_FAR.mean as real);
        }
      }
    }

    if rightAvg1 != ABSENT {
      servoRight1 := MapServoFine(rightAvg1, RIGHT_NEAR.lo as real, RIGHT_NEAR.hi as real, RIGHT_NEAR.mean as real);
      if rightAvg2 != ABSENT {
        servoRight2 := MapServoFine(rightAvg2, RIGHT_MID.lo as real, RIGHT_MID.hi as real, RIGHT_MID.mean as real);
        if rightAvg3 != ABSENT {
          servoRight3 := MapServoFine(rightAvg3, RIGHT_FAR.lo as real, RIGHT_FAR.hi as real, RIGHT_FAR.mean as real);
        }
      }
    }

    cmd := ChoseServo(servoLeft1, servoRight1, SERVO_CENTER);
  }
}
