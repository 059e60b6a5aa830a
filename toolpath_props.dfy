/** What the gradient generator's programs do: where the ramp starts and ends,
    when a mode fails, how much filament each mode pushes in total, and how
    each move's E word relates to the feed line before it. */
module ToolpathProperties {
  import opened Gcode
  import opened Toolpath

  // ---------------------------------------------------------------------------
  // The ramp
  // ---------------------------------------------------------------------------

  lemma QuotientTimes(x: real, d: real)
    requires d != 0.0
    ensures x / d * d == x
  {
  }

  lemma Distribute(x: real, y: real, z: real)
    ensures x * (y + z) == x * y + x * z
  {
  }

  /** With at least two stations, station 0 is the start with the initial value
      and the last station is the end of the line with the final value. */
  lemma RampEndpoints(ramp: Ramp)
    requires ramp.steps >= 2
    ensures ramp.Pos(0) == ramp.origin && ramp.Value(0) == ramp.initVal
    ensures ramp.Pos(ramp.steps - 1) == ramp.origin + ramp.length
    ensures ramp.Value(ramp.steps - 1) == ramp.endVal
  {
    var d := (ramp.steps - 1) as real;
    QuotientTimes(ramp.length, d);
    QuotientTimes(ramp.endVal - ramp.initVal, d);
  }

  /** A rising ramp rises strictly from station to station. */
  lemma RampIncreasing(ramp: Ramp, i: int, j: int)
    requires ramp.steps >= 2 && ramp.initVal < ramp.endVal && i < j
    ensures ramp.Value(i) < ramp.Value(j)
  {
    var dv := ramp.ValueDivision();
    assert dv > 0.0;
    assert ramp.Value(j) - ramp.Value(i) == dv * (j - i) as real;
    assert dv * (j - i) as real > 0.0;
  }

  /** Between two positive end values every station's value is positive. */
  lemma RampPositive(ramp: Ramp, i: int)
    requires ramp.steps >= 2 && ramp.initVal > 0.0 && ramp.endVal > 0.0
    requires 0 <= i < ramp.steps
    ensures ramp.Value(i) > 0.0
  {
    var dv := ramp.ValueDivision();
    var d := (ramp.steps - 1) as real;
    QuotientTimes(ramp.endVal - ramp.initVal, d);
    if dv < 0.0 {
      // value(i) - endVal = dv * (i - (steps - 1)) >= 0
      assert dv * (i as real - d) == dv * i as real - dv * d;
      assert ramp.Value(i) - ramp.endVal == dv * (i as real - d);
      var rest := d - i as real;
      assert rest >= 0.0 && -dv > 0.0;
      assert dv * (i as real - d) == (-dv) * rest;
      assert (-dv) * rest >= 0.0;
    } else {
      assert dv * i as real >= 0.0;
    }
  }

  // ---------------------------------------------------------------------------
  // When a mode fails
  // ---------------------------------------------------------------------------

  /** Constant-flow-rate mode raises exactly when numDivisions is 1 or some
      station's ramped speed is zero. */
  lemma FlowFailsIff(ramp: Ramp, constVal: real, header: seq<Command>, axis: char)
    ensures FlowProgram(ramp, constVal, header, axis) == DivisionByZero <==>
            ramp.steps == 1 ||
            exists i :: 0 <= i < Iterations(ramp.steps) && ramp.Value(i) == 0.0
  {
    if ramp.Divisible() {
      ValuesNonZeroIff(ramp, Iterations(ramp.steps));
    }
  }

  /** Constant-volume mode raises exactly when constant-flow-rate mode does. */
  lemma VolumeFailsIff(ramp: Ramp, constVal: real, header: seq<Command>, axis: char)
    ensures VolumeProgram(ramp, constVal, header, axis) == DivisionByZero <==>
            ramp.steps == 1 ||
            exists i :: 0 <= i < Iterations(ramp.steps) && ramp.Value(i) == 0.0
  {
    if ramp.Divisible() {
      ValuesNonZeroIff(ramp, Iterations(ramp.steps));
    }
  }

  /** With two or more stations and positive initial and final speeds, neither
      speed-ramping mode raises. */
  lemma PositiveSpeedsSucceed(ramp: Ramp, constVal: real, header: seq<Command>, axis: char)
    requires ramp.steps >= 2 && ramp.initVal > 0.0 && ramp.endVal > 0.0
    ensures FlowProgram(ramp, constVal, header, axis).Ok?
    ensures VolumeProgram(ramp, constVal, header, axis).Ok?
  {
    forall i | 0 <= i < Iterations(ramp.steps)
      ensures ramp.Value(i) != 0.0
    {
      RampPositive(ramp, i);
    }
    ValuesNonZeroIff(ramp, Iterations(ramp.steps));
  }

  // ---------------------------------------------------------------------------
  // Where the moves go
  // ---------------------------------------------------------------------------

  /** Constant-speed mode: the first move goes to the start with the initial
      rate, the last to the end of the line with the final rate. */
  lemma SpeedProgramEnds(ramp: Ramp, constVal: real, header: seq<Command>, axis: char)
    requires SpeedProgram(ramp, constVal, header, axis).Ok? && ramp.steps >= 2
    ensures var p := SpeedProgram(ramp, constVal, header, axis).program;
            var time := ramp.length / constVal;
            |p| == |header| + 1 + ramp.steps &&
            p[|header| + 1] == Move(axis, ramp.origin, ramp.initVal * time) &&
            p[|p| - 1] == Move(axis, ramp.origin + ramp.length, ramp.endVal * time)
  {
    SpeedProgramLayout(ramp, constVal, header, axis);
    RampEndpoints(ramp);
    var p := SpeedProgram(ramp, constVal, header, axis).program;
    assert p[|header| + 1 + 0] == Move(axis, ramp.Pos(0), ramp.Value(0) * (ramp.length / constVal));
    var last := ramp.steps - 1;
    assert p[|header| + 1 + last] == Move(axis, ramp.Pos(last), ramp.Value(last) * (ramp.length / constVal));
  }

  /** Constant-flow-rate mode: the first step feeds at the initial speed and
      moves to the start, the last feeds at the final speed and moves to the
      end of the line. */
  lemma FlowProgramEnds(ramp: Ramp, constVal: real, header: seq<Command>, axis: char)
    requires FlowProgram(ramp, constVal, header, axis).Ok? && ramp.steps >= 2
    ensures var p := FlowProgram(ramp, constVal, header, axis).program;
            |p| == |header| + 2 * ramp.steps &&
            p[|header|] == Feed(ramp.initVal * 60.0) &&
            p[|header| + 1].Move? && p[|header| + 1].pos == ramp.origin &&
            p[|p| - 2] == Feed(ramp.endVal * 60.0) &&
            p[|p| - 1].Move? && p[|p| - 1].pos == ramp.origin + ramp.length
  {
    FlowProgramLayout(ramp, constVal, header, axis);
    RampEndpoints(ramp);
    var p := FlowProgram(ramp, constVal, header, axis).program;
    var last := ramp.steps - 1;
    assert ramp.Pos(0) == ramp.origin && ramp.Pos(last) == ramp.origin + ramp.length;
    assert p[|header| + 2 * 0] == Feed(ramp.Value(0) * 60.0);
    assert p[|header| + 2 * last] == Feed(ramp.Value(last) * 60.0);
  }

  /** Constant-volume mode: the first step feeds at the initial speed and moves
      to the start, the last feeds at the final speed and moves to the end of
      the line. */
  lemma VolumeProgramEnds(ramp: Ramp, constVal: real, header: seq<Command>, axis: char)
    requires VolumeProgram(ramp, constVal, header, axis).Ok? && ramp.steps >= 2
    ensures var p := VolumeProgram(ramp, constVal, header, axis).program;
            |p| == |header| + 2 * ramp.steps &&
            p[|header|] == Feed(ramp.initVal * 60.0) &&
            p[|header| + 1].Move? && p[|header| + 1].pos == ramp.origin &&
            p[|p| - 2] == Feed(ramp.endVal * 60.0) &&
            p[|p| - 1].Move? && p[|p| - 1].pos == ramp.origin + ramp.length
  {
    VolumeProgramLayout(ramp, constVal, header, axis);
    RampEndpoints(ramp);
    var p := VolumeProgram(ramp, constVal, header, axis).program;
    var last := ramp.steps - 1;
    assert ramp.Pos(0) == ramp.origin && ramp.Pos(last) == ramp.origin + ramp.length;
    assert p[|header| + 2 * 0] == Feed(ramp.Value(0) * 60.0);
    assert p[|header| + 2 * last] == Feed(ramp.Value(last) * 60.0);
  }

  // ---------------------------------------------------------------------------
  // Each move's E word against the feed it runs at
  // ---------------------------------------------------------------------------

  /** Constant-speed mode: every move carries its ramped rate times the travel
      time of the WHOLE line at the one feed, not of its own segment. */
  lemma SpeedUsesWholeLineTime(ramp: Ramp, constVal: real, header: seq<Command>, axis: char)
    requires SpeedProgram(ramp, constVal, header, axis).Ok?
    ensures var p := SpeedProgram(ramp, constVal, header, axis).program;
            constVal != 0.0 && |p| == |header| + 1 + Iterations(ramp.steps) &&
            p[|header|] == Feed(constVal * 60.0) &&
            forall i :: 0 <= i < Iterations(ramp.steps) ==>
              p[|header| + 1 + i] == Move(axis, ramp.Pos(i), ramp.Value(i) * TravelTime(ramp.length, constVal * 60.0))
  {
    SpeedProgramLayout(ramp, constVal, header, axis);
    TravelTimeAtSpeed(ramp.length, constVal);
  }

  /** Consecutive stations are one spacing apart. */
  lemma StationSpacing(ramp: Ramp, i: int)
    requires ramp.Divisible()
    ensures ramp.Pos(i) - ramp.Pos(i - 1) == ramp.PosDivision()
  {
    Distribute(ramp.PosDivision(), (i - 1) as real, 1.0);
  }

  /** Constant-flow-rate mode: every move carries constVal times the time one
      spacing takes at the feed line just before it. Moves 1 to n-1 each cover
      exactly one spacing from the previous move's target, so along them the
      flow is constVal; move 0 only goes to the start station (see
      FlowFirstMoveInPlace). */
  lemma FlowHoldsRate(ramp: Ramp, constVal: real, header: seq<Command>, axis: char)
    requires FlowProgram(ramp, constVal, header, axis).Ok?
    ensures var p := FlowProgram(ramp, constVal, header, axis).program;
            |p| == |header| + 2 * Iterations(ramp.steps) &&
            forall i :: 0 <= i < Iterations(ramp.steps) ==>
              ramp.Value(i) != 0.0 &&
              p[|header| + 2 * i] == Feed(ramp.Value(i) * 60.0) &&
              p[|header| + 2 * i + 1] == Move(axis, ramp.Pos(i), constVal * TravelTime(ramp.PosDivision(), ramp.Value(i) * 60.0)) &&
              (i >= 1 ==> ramp.Pos(i) - ramp.Pos(i - 1) == ramp.PosDivision())
  {
    FlowProgramLayout(ramp, constVal, header, axis);
    forall i | 0 <= i < Iterations(ramp.steps)
      ensures ramp.Value(i) != 0.0
      ensures TravelTime(ramp.PosDivision(), ramp.Value(i) * 60.0) == ramp.PosDivision() / ramp.Value(i)
      ensures ramp.Pos(i) - ramp.Pos(i - 1) == ramp.PosDivision()
    {
      assert ramp.Value(i) != 0.0;
      TravelTimeAtSpeed(ramp.PosDivision(), ramp.Value(i));
      StationSpacing(ramp, i);
    }
  }

  /** Constant-flow-rate mode: the first move targets the start station itself,
      yet carries constVal times one spacing's time at the initial speed. When
      the tool already stands at the start, that filament is pushed in place. */
  lemma FlowFirstMoveInPlace(ramp: Ramp, constVal: real, header: seq<Command>, axis: char)
    requires FlowProgram(ramp, constVal, header, axis).Ok? && ramp.steps >= 1
    ensures ramp.initVal != 0.0 && ramp.Divisible()
    ensures var p := FlowProgram(ramp, constVal, header, axis).program;
            |p| >= |header| + 2 &&
            p[|header| + 1] == Move(axis, ramp.origin, constVal * (ramp.PosDivision() / ramp.initVal))
  {
    FlowProgramLayout(ramp, constVal, header, axis);
    assert ramp.Value(0) == ramp.initVal && ramp.Pos(0) == ramp.origin;
    var p := FlowProgram(ramp, constVal, header, axis).program;
    assert p[|header| + 2 * 0 + 1] == Move(axis, ramp.Pos(0), constVal * (ramp.PosDivision() / ramp.Value(0)));
  }

  // ---------------------------------------------------------------------------
  // Filament pushed in total
  // ---------------------------------------------------------------------------

  lemma ExtrudedPair(a: Command, b: Command)
    ensures Extruded([a, b]) == ExtrusionOf(a) + ExtrusionOf(b)
  {
    assert [a, b][..1] == [a];
    assert [a][..0] == [];
    assert Extruded([a]) == ExtrusionOf(a);
    assert Extruded([a, b]) == Extruded([a]) + ExtrusionOf(b);
  }

  /** The constant-flow-rate steps push constVal times the summed segment times. */
  lemma {:induction false} FlowStepsExtruded(ramp: Ramp, axis: char, constVal: real, k: nat)
    requires ramp.Divisible() && ramp.ValuesNonZero(k)
    ensures Extruded(FlowSteps(ramp, axis, constVal, k)) == constVal * TotalTime(ramp, k)
  {
    if k > 0 {
      FlowStepsExtruded(ramp, axis, constVal, k - 1);
      var step := FlowStep(ramp, axis, constVal, k - 1);
      ExtrudedAppend(FlowSteps(ramp, axis, constVal, k - 1), step);
      ExtrudedPair(step[0], step[1]);
      assert step == [step[0], step[1]];
      assert constVal * TotalTime(ramp, k)
          == constVal * TotalTime(ramp, k - 1) + constVal * ramp.SegmentTime(k - 1);
    }
  }

  /** The constant-volume steps push k times their one amount. */
  lemma {:induction false} VolumeStepsExtruded(ramp: Ramp, axis: char, extrude: real, k: nat)
    requires ramp.Divisible()
    ensures Extruded(VolumeSteps(ramp, axis, extrude, k)) == k as real * extrude
  {
    if k > 0 {
      VolumeStepsExtruded(ramp, axis, extrude, k - 1);
      var step := VolumeStep(ramp, axis, extrude, k - 1);
      ExtrudedAppend(VolumeSteps(ramp, axis, extrude, k - 1), step);
      ExtrudedPair(step[0], step[1]);
      assert step == [step[0], step[1]];
    }
  }

  /** Sum of the ramped values of the first k stations. */
  function RateSum(ramp: Ramp, k: nat): real
    requires ramp.Divisible()
  {
    if k == 0 then 0.0 else RateSum(ramp, k - 1) + ramp.Value(k - 1)
  }

  /** 0 + 1 + ... + (k - 1). */
  function Triangle(k: nat): nat
  {
    if k == 0 then 0 else Triangle(k - 1) + (k - 1)
  }

  lemma {:induction false} TriangleDouble(k: nat)
    ensures 2 * Triangle(k) == k * (k - 1)
  {
    if k > 0 {
      TriangleDouble(k - 1);
      assert (k - 1) * (k - 2) + 2 * (k - 1) == k * (k - 1);
    }
  }

  /** The algebra of one step of RateSumClosed: adding station j, worth
      a + dv*j, to the closed form s of the first j stations. */
  lemma RateSumStep(s: real, v: real, a: real, dv: real, j: real, t: real, k: real, t': real)
    requires s == j * a + dv * t && v == a + dv * j
    requires k == j + 1.0 && t' == t + j
    ensures s + v == k * a + dv * t'
  {
    Distribute(dv, t, j);
    Distribute(a, j, 1.0);
  }

  /** k stations sum to k initial values plus Triangle(k) increments. */
  lemma {:induction false} RateSumClosed(ramp: Ramp, k: nat)
    requires ramp.Divisible()
    ensures RateSum(ramp, k) == k as real * ramp.initVal + ramp.ValueDivision() * Triangle(k) as real
  {
    if k > 0 {
      RateSumClosed(ramp, k - 1);
      assert Triangle(k) as real == Triangle(k - 1) as real + (k - 1) as real;
      RateSumStep(RateSum(ramp, k - 1), ramp.Value(k - 1), ramp.initVal, ramp.ValueDivision(),
                  (k - 1) as real, Triangle(k - 1) as real, k as real, Triangle(k) as real);
    }
  }

  lemma ExtrudedSingle(c: Command)
    ensures Extruded([c]) == ExtrusionOf(c)
  {
    assert [c][..0] == [];
  }

  /** Filament of the first k constant-speed moves, added up move by move. */
  function SpeedTotal(ramp: Ramp, time: real, k: nat): real
    requires ramp.Divisible()
  {
    if k == 0 then 0.0 else SpeedTotal(ramp, time, k - 1) + ramp.Value(k - 1) * time
  }

  lemma {:induction false} SpeedTotalScaled(ramp: Ramp, time: real, k: nat)
    requires ramp.Divisible()
    ensures SpeedTotal(ramp, time, k) == time * RateSum(ramp, k)
  {
    if k > 0 {
      SpeedTotalScaled(ramp, time, k - 1);
      Distribute(time, RateSum(ramp, k - 1), ramp.Value(k - 1));
    }
  }

  /** The first k constant-speed moves push `time` times the sum of their rates. */
  lemma {:induction false} SpeedMovesExtruded(ramp: Ramp, axis: char, time: real, k: nat)
    requires ramp.Divisible()
    ensures Extruded(SpeedMoves(ramp, axis, time, k)) == SpeedTotal(ramp, time, k)
  {
    if k > 0 {
      var prev := SpeedMoves(ramp, axis, time, k - 1);
      var m := SpeedMove(ramp, axis, time, k - 1);
      ExtrudedAppend(prev, [m]);
      ExtrudedSingle(m);
      SpeedMovesExtruded(ramp, axis, time, k - 1);
    }
  }

  /** Constant-speed mode pushes the mean of the initial and final rates, times
      the number of moves, times the travel time of the whole line. */
  lemma SpeedProgramExtruded(ramp: Ramp, constVal: real, header: seq<Command>, axis: char)
    requires SpeedProgram(ramp, constVal, header, axis).Ok? && ramp.steps >= 2
    ensures var p := SpeedProgram(ramp, constVal, header, axis).program;
            Extruded(p[|header|..])
            == (ramp.length / constVal) * ramp.steps as real * (ramp.initVal + ramp.endVal) / 2.0
  {
    var p := SpeedProgram(ramp, constVal, header, axis).program;
    var n := ramp.steps;
    var time := ramp.length / constVal;
    var moves := SpeedMoves(ramp, axis, time, n);
    assert p[|header|..] == [Feed(constVal * 60.0)] + moves;
    ExtrudedAppend([Feed(constVal * 60.0)], moves);
    assert [Feed(constVal * 60.0)][..0] == [];
    SpeedMovesExtruded(ramp, axis, time, n);
    SpeedTotalScaled(ramp, time, n);
    RateSumClosed(ramp, n);
    TriangleDouble(n);
    var dv := ramp.ValueDivision();
    var d := (n - 1) as real;
    var a := ramp.initVal;
    QuotientTimes(ramp.endVal - a, d);
    assert Triangle(n) as real == n as real * d / 2.0;
    assert dv * (n as real * d / 2.0) == (dv * d) * n as real / 2.0;
    assert n as real * a + (ramp.endVal - a) * n as real / 2.0 == n as real * (a + ramp.endVal) / 2.0;
    assert RateSum(ramp, n) == n as real * (a + ramp.endVal) / 2.0;
  }

  /** Segment times of stations 1 to k-1: the stations reached by a move that
      covers one spacing. */
  function MovingTime(ramp: Ramp, k: nat): real
    requires ramp.Divisible() && ramp.ValuesNonZero(k)
  {
    if k <= 1 then 0.0 else MovingTime(ramp, k - 1) + ramp.SegmentTime(k - 1)
  }

  /** The summed segment times are station 0's time plus the moving time. */
  lemma {:induction false} TotalTimeSplit(ramp: Ramp, k: nat)
    requires ramp.Divisible() && ramp.ValuesNonZero(k) && k >= 1
    ensures ramp.Value(0) != 0.0
    ensures TotalTime(ramp, k) == ramp.SegmentTime(0) + MovingTime(ramp, k)
  {
    ValuesNonZeroIff(ramp, k);
    if k > 1 {
      TotalTimeSplit(ramp, k - 1);
    }
  }

  /** Constant-flow-rate mode pushes constVal times the summed segment times of
      all n stations. That is constVal times the moving time of the n-1
      spacings, the flow the mode promises, plus constVal times station 0's
      segment time, which the first move pushes while going only to the start. */
  lemma FlowProgramExtruded(ramp: Ramp, constVal: real, header: seq<Command>, axis: char)
    requires FlowProgram(ramp, constVal, header, axis).Ok?
    ensures ramp.Divisible() && ramp.ValuesNonZero(Iterations(ramp.steps))
    ensures Extruded(FlowProgram(ramp, constVal, header, axis).program[|header|..])
         == constVal * TotalTime(ramp, Iterations(ramp.steps))
    ensures ramp.steps >= 1 ==>
              ramp.Value(0) != 0.0 &&
              Extruded(FlowProgram(ramp, constVal, header, axis).program[|header|..])
              == constVal * ramp.SegmentTime(0) + constVal * MovingTime(ramp, ramp.steps)
  {
    var p := FlowProgram(ramp, constVal, header, axis).program;
    assert p[|header|..] == FlowSteps(ramp, axis, constVal, Iterations(ramp.steps));
    FlowStepsExtruded(ramp, axis, constVal, Iterations(ramp.steps));
    if ramp.steps >= 1 {
      TotalTimeSplit(ramp, ramp.steps);
      Distribute(constVal, ramp.SegmentTime(0), MovingTime(ramp, ramp.steps));
    }
  }

  /** Constant-volume mode pushes numDivisions times what constant-flow-rate
      mode pushes for the same inputs: its one amount is the flow mode's total,
      and every move repeats it. */
  lemma VolumeIsStepsTimesFlow(ramp: Ramp, constVal: real, header: seq<Command>, axis: char)
    requires VolumeProgram(ramp, constVal, header, axis).Ok?
    ensures FlowProgram(ramp, constVal, header, axis).Ok?
    ensures Extruded(VolumeProgram(ramp, constVal, header, axis).program[|header|..])
         == Iterations(ramp.steps) as real *
            Extruded(FlowProgram(ramp, constVal, header, axis).program[|header|..])
  {
    var n := Iterations(ramp.steps);
    var p := VolumeProgram(ramp, constVal, header, axis).program;
    assert p[|header|..] == VolumeSteps(ramp, axis, VolumeExtrusion(ramp, constVal), n);
    VolumeStepsExtruded(ramp, axis, VolumeExtrusion(ramp, constVal), n);
    FlowProgramExtruded(ramp, constVal, header, axis);
  }
}
