/** The three toolpath generators of the parameterization platform: a straight
    line, a full circle, and a line whose speed or flow is ramped in steps. Each
    copies the caller's header and appends the motion commands of its test. */
module Toolpath {
  import opened Gcode

  /** The float value of math.pi; nothing below depends on more than its sign. */
  const Pi: real := 3.141592653589793

  /** The three values the gradient test's "constant" selector can take. */
  const ConstantSpeed: string := "Constant speed"
  const ConstantFlowRate: string := "Constant flow rate"
  const ConstantVolume: string := "Constant volume"

  /** The coordinate a line starts from: the X fragment when the axis is 'X',
      the Y fragment for every other axis. */
  function StartCoord(axis: char, start: StartPos): real
  {
    if axis == 'X' then start.x else start.y
  }

  /** How many times `for i in range(n)` runs its body. */
  function Iterations(n: int): nat
  {
    if n < 0 then 0 else n
  }

  // ---------------------------------------------------------------------------
  // Line test
  // ---------------------------------------------------------------------------

  /** One feed line, then one move along `axis` from its start coordinate by
      `length` (of either sign), extruding extrudeRate times the move's signed
      travel time at that feed. */
  method GenLine(length: real, extrudeRate: real, moveRate: real, axis: char,
                 header: seq<Command>, start: StartPos) returns (r: Outcome)
    ensures r == DivisionByZero <==> moveRate == 0.0
    ensures r.Ok? ==> |r.program| == |header| + 2 && r.program[..|header|] == header
    ensures r.Ok? ==> r.program[|header|] == Feed(moveRate * 60.0)
    ensures r.Ok? ==>
              r.program[|header| + 1] ==
              Move(axis, StartCoord(axis, start) + length, extrudeRate * (length / moveRate))
    ensures r.Ok? ==> r.program[|header| + 1].pos - StartCoord(axis, start) == length
    ensures r.Ok? ==>
              r.program[|header| + 1].e ==
              extrudeRate * TravelTime(length, r.program[|header|].rate)
    ensures r.Ok? && extrudeRate == 0.0 ==> Extruded(r.program[|header|..]) == 0.0
  {
    var newHeader := header;
    newHeader := newHeader + [Feed(moveRate * 60.0)];
    if moveRate == 0.0 {
      return DivisionByZero;
    }
    var time := length / moveRate;
    var extrudeAmount := extrudeRate * time;
    var origin := StartCoord(axis, start);
    newHeader := newHeader + [Move(axis, origin + length, extrudeAmount)];
    TravelTimeAtSpeed(length, moveRate);
    assert newHeader[|header|..] == [Feed(moveRate * 60.0), Move(axis, origin + length, extrudeAmount)];
    assert [Feed(moveRate * 60.0), Move(axis, origin + length, extrudeAmount)]
        == [Feed(moveRate * 60.0)] + [Move(axis, origin + length, extrudeAmount)];
    ExtrudedAppend([Feed(moveRate * 60.0)], [Move(axis, origin + length, extrudeAmount)]);
    r := Ok(newHeader);
  }

  // ---------------------------------------------------------------------------
  // Circle test
  // ---------------------------------------------------------------------------

  /** One feed line, then one full G2 circle of radius `radius` that leaves
      from and returns to the start X/Y, extruding extrudeRate times the
      circumference's signed travel time at that feed. */
  method GenCircle(radius: real, extrudeRate: real, moveRate: real,
                   header: seq<Command>, start: StartPos) returns (r: Outcome)
    ensures r == DivisionByZero <==> moveRate == 0.0
    ensures r.Ok? ==> |r.program| == |header| + 2 && r.program[..|header|] == header
    ensures r.Ok? ==> r.program[|header|] == Feed(moveRate * 60.0)
    ensures r.Ok? ==>
              r.program[|header| + 1] ==
              Arc(start.x, start.y, extrudeRate * (radius * 2.0 * Pi / moveRate), radius)
    ensures r.Ok? ==>
              r.program[|header| + 1].e ==
              extrudeRate * TravelTime(2.0 * Pi * radius, r.program[|header|].rate)
  {
    var newHeader := header;
    newHeader := newHeader + [Feed(moveRate * 60.0)];
    if moveRate == 0.0 {
      return DivisionByZero;
    }
    var time := radius * 2.0 * Pi / moveRate;
    var extrudeAmount := extrudeRate * time;
    newHeader := newHeader + [Arc(start.x, start.y, extrudeAmount, radius)];
    TravelTimeAtSpeed(2.0 * Pi * radius, moveRate);
    assert radius * 2.0 * Pi == 2.0 * Pi * radius;
    r := Ok(newHeader);
  }

  // ---------------------------------------------------------------------------
  // Gradient test
  // ---------------------------------------------------------------------------

  /** The evenly spaced stations of a gradient test: `steps` stations from
      `origin` to `origin + length`, and a ramped value (a speed or an extrusion
      rate) going from `initVal` to `endVal` over them. */
  datatype Ramp = Ramp(origin: real, length: real, initVal: real, endVal: real, steps: int)
  {
    /** steps - 1 divides both the spacing and the value increment. */
    predicate Divisible()
    {
      steps != 1
    }

    function PosDivision(): real
      requires Divisible()
    {
      length / (steps - 1) as real
    }

    function ValueDivision(): real
      requires Divisible()
    {
      (endVal - initVal) / (steps - 1) as real
    }

    /** Coordinate of station i. */
    function Pos(i: int): real
      requires Divisible()
    {
      origin + PosDivision() * i as real
    }

    /** Ramped value at station i. */
    function Value(i: int): real
      requires Divisible()
    {
      initVal + ValueDivision() * i as real
    }

    /** Station i written with the spacing and the increment named, as the
        generator's loops compute it. */
    lemma StationOf(posDivision: real, valueDivision: real, i: int)
      requires Divisible() && posDivision == PosDivision() && valueDivision == ValueDivision()
      ensures origin + posDivision * i as real == Pos(i)
      ensures initVal + valueDivision * i as real == Value(i)
    {
    }

    /** Seconds to cover one spacing at the ramped speed of station i. */
    function SegmentTime(i: int): real
      requires Divisible() && Value(i) != 0.0
    {
      PosDivision() / Value(i)
    }

    /** SegmentTime written with the spacing and the speed named. */
    lemma SegmentTimeOf(posDivision: real, speed: real, i: int)
      requires Divisible() && posDivision == PosDivision() && speed == Value(i) && speed != 0.0
      ensures posDivision / speed == SegmentTime(i)
    {
    }

    /** No ramped value among the first k stations is zero (each is a divisor). */
    predicate ValuesNonZero(k: int)
      requires Divisible()
    {
      k <= 0 || (ValuesNonZero(k - 1) && Value(k - 1) != 0.0)
    }
  }

  /** ValuesNonZero, read as a statement about every station below k. */
  lemma {:induction false} ValuesNonZeroIff(ramp: Ramp, k: int)
    requires ramp.Divisible()
    ensures ramp.ValuesNonZero(k) <==> forall i :: 0 <= i < k ==> ramp.Value(i) != 0.0
  {
    if k > 0 {
      ValuesNonZeroIff(ramp, k - 1);
    }
  }

  /** Constant-speed mode, move i: to station i, carrying the ramped extrusion
      rate times the travel time `time` of the whole line. */
  function SpeedMove(ramp: Ramp, axis: char, time: real, i: int): Command
    requires ramp.Divisible()
  {
    Move(axis, ramp.Pos(i), ramp.Value(i) * time)
  }

  /** SpeedMove written with the station and the rate named, as the loop computes them. */
  lemma SpeedMoveOf(ramp: Ramp, axis: char, time: real, i: int, endPos: real, rate: real)
    requires ramp.Divisible() && endPos == ramp.Pos(i) && rate == ramp.Value(i)
    ensures SpeedMove(ramp, axis, time, i) == Move(axis, endPos, rate * time)
  {
  }

  /** Constant-speed mode, the first k moves. */
  function SpeedMoves(ramp: Ramp, axis: char, time: real, k: nat): seq<Command>
    requires ramp.Divisible()
  {
    if k == 0 then [] else SpeedMoves(ramp, axis, time, k - 1) + [SpeedMove(ramp, axis, time, k - 1)]
  }

  /** Constant-flow-rate mode, step i: a feed at the ramped speed, then a move to
      station i extruding `constVal` for one spacing's travel time. */
  function FlowStep(ramp: Ramp, axis: char, constVal: real, i: int): seq<Command>
    requires ramp.Divisible() && ramp.Value(i) != 0.0
  {
    [Feed(ramp.Value(i) * 60.0), Move(axis, ramp.Pos(i), constVal * ramp.SegmentTime(i))]
  }

  /** FlowStep written with the station, the speed and the segment time named,
      as the loop computes them. */
  lemma FlowStepOf(ramp: Ramp, axis: char, constVal: real, i: int, endPos: real, speed: real, time: real)
    requires ramp.Divisible() && speed != 0.0
    requires endPos == ramp.Pos(i) && speed == ramp.Value(i) && time == ramp.PosDivision() / speed
    ensures FlowStep(ramp, axis, constVal, i) == [Feed(speed * 60.0), Move(axis, endPos, constVal * time)]
  {
    assert time == ramp.SegmentTime(i);
    assert FlowStep(ramp, axis, constVal, i)[1] == Move(axis, endPos, constVal * time);
  }

  /** Constant-flow-rate mode, the first k steps. */
  function FlowSteps(ramp: Ramp, axis: char, constVal: real, k: nat): seq<Command>
    requires ramp.Divisible() && ramp.ValuesNonZero(k)
  {
    if k == 0 then [] else FlowSteps(ramp, axis, constVal, k - 1) + FlowStep(ramp, axis, constVal, k - 1)
  }

  /** Constant-volume mode, step i: a feed at the ramped speed, then a move to
      station i carrying the one extrusion amount `extrude`. */
  function VolumeStep(ramp: Ramp, axis: char, extrude: real, i: int): seq<Command>
    requires ramp.Divisible()
  {
    [Feed(ramp.Value(i) * 60.0), Move(axis, ramp.Pos(i), extrude)]
  }

  /** Constant-volume mode, the first k steps. */
  function VolumeSteps(ramp: Ramp, axis: char, extrude: real, k: nat): seq<Command>
    requires ramp.Divisible()
  {
    if k == 0 then [] else VolumeSteps(ramp, axis, extrude, k - 1) + VolumeStep(ramp, axis, extrude, k - 1)
  }

  /** Sum of the segment times of the first k stations, accumulated left to right. */
  function TotalTime(ramp: Ramp, k: nat): real
    requires ramp.Divisible() && ramp.ValuesNonZero(k)
  {
    if k == 0 then 0.0 else TotalTime(ramp, k - 1) + ramp.SegmentTime(k - 1)
  }

  /** Constant-volume mode's one extrusion amount: constVal times the summed
      segment times of all stations. */
  function VolumeExtrusion(ramp: Ramp, constVal: real): real
    requires ramp.Divisible() && ramp.ValuesNonZero(Iterations(ramp.steps))
  {
    constVal * TotalTime(ramp, Iterations(ramp.steps))
  }

  /** Constant-speed mode: one feed line at constVal, then a move to every
      station; fails when constVal or numDivisions - 1 is zero. */
  function SpeedProgram(ramp: Ramp, constVal: real, header: seq<Command>, axis: char): Outcome
  {
    if constVal == 0.0 || !ramp.Divisible() then DivisionByZero
    else Ok(header + [Feed(constVal * 60.0)] + SpeedMoves(ramp, axis, ramp.length / constVal, Iterations(ramp.steps)))
  }

  /** Constant-flow-rate mode: a feed line and a move per station; fails when
      numDivisions - 1 or any ramped speed is zero. */
  function FlowProgram(ramp: Ramp, constVal: real, header: seq<Command>, axis: char): Outcome
  {
    if !ramp.Divisible() || !ramp.ValuesNonZero(Iterations(ramp.steps)) then DivisionByZero
    else Ok(header + FlowSteps(ramp, axis, constVal, Iterations(ramp.steps)))
  }

  /** Constant-volume mode: a feed line and a move per station, every move
      carrying constVal times the summed travel time; fails like FlowProgram. */
  function VolumeProgram(ramp: Ramp, constVal: real, header: seq<Command>, axis: char): Outcome
  {
    if !ramp.Divisible() || !ramp.ValuesNonZero(Iterations(ramp.steps)) then DivisionByZero
    else Ok(header + VolumeSteps(ramp, axis, VolumeExtrusion(ramp, constVal), Iterations(ramp.steps)))
  }

  /** What the gradient generator produces, mode by mode; a selector naming none
      of the three modes leaves the header alone. */
  function GradientProgram(numDivisions: int, length: real, initVal: real, endVal: real,
                           constVal: real, header: seq<Command>, axis: char,
                           chosenVar: string, start: StartPos): Outcome
  {
    var ramp := Ramp(StartCoord(axis, start), length, initVal, endVal, numDivisions);
    if chosenVar == ConstantSpeed then SpeedProgram(ramp, constVal, header, axis)
    else if chosenVar == ConstantFlowRate then FlowProgram(ramp, constVal, header, axis)
    else if chosenVar == ConstantVolume then VolumeProgram(ramp, constVal, header, axis)
    else Ok(header)
  }

  /** Move i of the constant-speed moves is SpeedMove(i). */
  lemma {:induction false} SpeedMovesAt(ramp: Ramp, axis: char, time: real, k: nat)
    requires ramp.Divisible()
    ensures |SpeedMoves(ramp, axis, time, k)| == k
    ensures forall i :: 0 <= i < k ==> SpeedMoves(ramp, axis, time, k)[i] == SpeedMove(ramp, axis, time, i)
  {
    if k > 0 {
      SpeedMovesAt(ramp, axis, time, k - 1);
    }
  }

  /** Step i of the constant-flow-rate steps is the feed at speed i followed by
      the move to station i. */
  lemma {:induction false} FlowStepsAt(ramp: Ramp, axis: char, constVal: real, k: nat)
    requires ramp.Divisible() && ramp.ValuesNonZero(k)
    ensures |FlowSteps(ramp, axis, constVal, k)| == 2 * k
    ensures forall i :: 0 <= i < k ==>
              ramp.Value(i) != 0.0 &&
              FlowSteps(ramp, axis, constVal, k)[2 * i] == Feed(ramp.Value(i) * 60.0) &&
              FlowSteps(ramp, axis, constVal, k)[2 * i + 1] == Move(axis, ramp.Pos(i), constVal * ramp.SegmentTime(i))
  {
    if k > 0 {
      FlowStepsAt(ramp, axis, constVal, k - 1);
    }
  }

  /** Step i of the constant-volume steps is the feed at speed i followed by the
      move to station i carrying `extrude`. */
  lemma {:induction false} VolumeStepsAt(ramp: Ramp, axis: char, extrude: real, k: nat)
    requires ramp.Divisible()
    ensures |VolumeSteps(ramp, axis, extrude, k)| == 2 * k
    ensures forall i :: 0 <= i < k ==>
              VolumeSteps(ramp, axis, extrude, k)[2 * i] == Feed(ramp.Value(i) * 60.0) &&
              VolumeSteps(ramp, axis, extrude, k)[2 * i + 1] == Move(axis, ramp.Pos(i), extrude)
  {
    if k > 0 {
      VolumeStepsAt(ramp, axis, extrude, k - 1);
    }
  }

  /** Constant-speed program: the header, one feed at constVal*60, then for each
      station i a move to Pos(i) carrying Value(i) times length/constVal. */
  lemma SpeedProgramLayout(ramp: Ramp, constVal: real, header: seq<Command>, axis: char)
    requires SpeedProgram(ramp, constVal, header, axis).Ok?
    ensures var p := SpeedProgram(ramp, constVal, header, axis).program;
            |p| == |header| + 1 + Iterations(ramp.steps) && p[..|header|] == header &&
            p[|header|] == Feed(constVal * 60.0) &&
            forall i :: 0 <= i < Iterations(ramp.steps) ==>
              p[|header| + 1 + i] == Move(axis, ramp.Pos(i), ramp.Value(i) * (ramp.length / constVal))
  {
    SpeedMovesAt(ramp, axis, ramp.length / constVal, Iterations(ramp.steps));
  }

  /** Constant-flow-rate program: the header, then for each station i a feed at
      Value(i)*60 and a move to Pos(i) carrying constVal times one spacing's time. */
  lemma FlowProgramLayout(ramp: Ramp, constVal: real, header: seq<Command>, axis: char)
    requires FlowProgram(ramp, constVal, header, axis).Ok?
    ensures var p := FlowProgram(ramp, constVal, header, axis).program;
            |p| == |header| + 2 * Iterations(ramp.steps) && p[..|header|] == header &&
            forall i :: 0 <= i < Iterations(ramp.steps) ==>
              ramp.Value(i) != 0.0 &&
              p[|header| + 2 * i] == Feed(ramp.Value(i) * 60.0) &&
              p[|header| + 2 * i + 1] == Move(axis, ramp.Pos(i), constVal * (ramp.PosDivision() / ramp.Value(i)))
  {
    FlowStepsAt(ramp, axis, constVal, Iterations(ramp.steps));
  }

  /** Constant-volume program: the header, then for each station i a feed at
      Value(i)*60 and a move to Pos(i), every move carrying the same amount,
      constVal times the summed segment times. */
  lemma VolumeProgramLayout(ramp: Ramp, constVal: real, header: seq<Command>, axis: char)
    requires VolumeProgram(ramp, constVal, header, axis).Ok?
    ensures var p := VolumeProgram(ramp, constVal, header, axis).program;
            |p| == |header| + 2 * Iterations(ramp.steps) && p[..|header|] == header &&
            forall i :: 0 <= i < Iterations(ramp.steps) ==>
              p[|header| + 2 * i] == Feed(ramp.Value(i) * 60.0) &&
              p[|header| + 2 * i + 1] == Move(axis, ramp.Pos(i), constVal * TotalTime(ramp, Iterations(ramp.steps)))
  {
    VolumeStepsAt(ramp, axis, VolumeExtrusion(ramp, constVal), Iterations(ramp.steps));
  }

  /** The gradient generator: `numDivisions` stations evenly spaced along `axis`
      over `length`, holding constant the quantity `chosenVar` names. */
  method GenGradient(numDivisions: int, length: real, initVal: real, endVal: real,
                     constVal: real, header: seq<Command>, axis: char,
                     chosenVar: string, start: StartPos) returns (r: Outcome)
    ensures r == GradientProgram(numDivisions, length, initVal, endVal, constVal,
                                 header, axis, chosenVar, start)
    ensures r.Ok? ==> |r.program| >= |header| && r.program[..|header|] == header
    ensures r.Ok? ==>
              |r.program| == |header| +
                (if chosenVar == ConstantSpeed then 1 + Iterations(numDivisions)
                 else if chosenVar == ConstantFlowRate || chosenVar == ConstantVolume then 2 * Iterations(numDivisions)
                 else 0)
    ensures numDivisions == 1 &&
            (chosenVar == ConstantSpeed || chosenVar == ConstantFlowRate || chosenVar == ConstantVolume)
            ==> r == DivisionByZero
    ensures chosenVar != ConstantSpeed && chosenVar != ConstantFlowRate && chosenVar != ConstantVolume
            ==> r == Ok(header)
  {
    var origin := StartCoord(axis, start);
    ghost var ramp := Ramp(origin, length, initVal, endVal, numDivisions);
    if chosenVar == ConstantSpeed {
      r := GradientConstantSpeed(numDivisions, length, initVal, endVal, constVal, header, axis, origin);
      if r.Ok? {
        SpeedProgramLayout(ramp, constVal, header, axis);
      }
    } else if chosenVar == ConstantFlowRate {
      r := GradientConstantFlowRate(numDivisions, length, initVal, endVal, constVal, header, axis, origin);
      if r.Ok? {
        FlowProgramLayout(ramp, constVal, header, axis);
      }
    } else if chosenVar == ConstantVolume {
      r := GradientConstantVolume(numDivisions, length, initVal, endVal, constVal, header, axis, origin);
      if r.Ok? {
        VolumeProgramLayout(ramp, constVal, header, axis);
      }
    } else {
      r := Ok(header);
    }
  }

  /** The constant-speed branch of the gradient generator. */
  method GradientConstantSpeed(numDivisions: int, length: real, initVal: real, endVal: real,
                               constVal: real, header: seq<Command>, axis: char, origin: real)
    returns (r: Outcome)
    ensures r == SpeedProgram(Ramp(origin, length, initVal, endVal, numDivisions), constVal, header, axis)
  {
    ghost var ramp := Ramp(origin, length, initVal, endVal, numDivisions);
    var newHeader := header + [Feed(constVal * 60.0)];
    if constVal == 0.0 {
      return DivisionByZero;
    }
    var time := length / constVal;
    if numDivisions == 1 {
      return DivisionByZero;
    }
    var flowDivision := (endVal - initVal) / (numDivisions - 1) as real;
    var posDivision := length / (numDivisions - 1) as real;
    for i := 0 to Iterations(numDivisions)
      invariant newHeader == header + [Feed(constVal * 60.0)] + SpeedMoves(ramp, axis, time, i)
    {
      var endPos := origin + posDivision * i as real;
      var flowRate := initVal + flowDivision * i as real;
      ramp.StationOf(posDivision, flowDivision, i);
      SpeedMoveOf(ramp, axis, time, i, endPos, flowRate);
      newHeader := newHeader + [Move(axis, endPos, flowRate * time)];
    }
    r := Ok(newHeader);
  }

  /** The constant-flow-rate branch of the gradient generator. */
  method GradientConstantFlowRate(numDivisions: int, length: real, initVal: real, endVal: real,
                                  constVal: real, header: seq<Command>, axis: char, origin: real)
    returns (r: Outcome)
    ensures r == FlowProgram(Ramp(origin, length, initVal, endVal, numDivisions), constVal, header, axis)
  {
    ghost var ramp := Ramp(origin, length, initVal, endVal, numDivisions);
    var newHeader := header;
    if numDivisions == 1 {
      return DivisionByZero;
    }
    var speedDivision := (endVal - initVal) / (numDivisions - 1) as real;
    var posDivision := length / (numDivisions - 1) as real;
    for i := 0 to Iterations(numDivisions)
      invariant ramp.ValuesNonZero(i)
      invariant newHeader == header + FlowSteps(ramp, axis, constVal, i)
    {
      var endPos := origin + posDivision * i as real;
      var speed := initVal + speedDivision * i as real;
      ramp.StationOf(posDivision, speedDivision, i);
      if speed == 0.0 {
        ValuesNonZeroIff(ramp, Iterations(numDivisions));
        return DivisionByZero;
      }
      var time := posDivision / speed;
      var extrudeRate := constVal * time;
      FlowStepOf(ramp, axis, constVal, i, endPos, speed, time);
      newHeader := newHeader + [Feed(speed * 60.0)];
      newHeader := newHeader + [Move(axis, endPos, extrudeRate)];
    }
    r := Ok(newHeader);
  }

  /** The constant-volume branch of the gradient generator: a first loop sums
      the segment times, a second emits the steps. */
  method GradientConstantVolume(numDivisions: int, length: real, initVal: real, endVal: real,
                                constVal: real, header: seq<Command>, axis: char, origin: real)
    returns (r: Outcome)
    ensures r == VolumeProgram(Ramp(origin, length, initVal, endVal, numDivisions), constVal, header, axis)
  {
    ghost var ramp := Ramp(origin, length, initVal, endVal, numDivisions);
    var newHeader := header;
    if numDivisions == 1 {
      return DivisionByZero;
    }
    var speedDivision := (endVal - initVal) / (numDivisions - 1) as real;
    var posDivision := length / (numDivisions - 1) as real;
    var totalTime := 0.0;
    for i := 0 to Iterations(numDivisions)
      invariant ramp.ValuesNonZero(i)
      invariant totalTime == TotalTime(ramp, i)
    {
      var speed := initVal + speedDivision * i as real;
      ramp.StationOf(posDivision, speedDivision, i);
      if speed == 0.0 {
        ValuesNonZeroIff(ramp, Iterations(numDivisions));
        return DivisionByZero;
      }
      ramp.SegmentTimeOf(posDivision, speed, i);
      totalTime := totalTime + posDivision / speed;
    }
    var extrudeRate := constVal * totalTime;
    assert extrudeRate == VolumeExtrusion(ramp, constVal);
    for i := 0 to Iterations(numDivisions)
      invariant newHeader == header + VolumeSteps(ramp, axis, extrudeRate, i)
    {
      var endPos := origin + posDivision * i as real;
      var speed := initVal + speedDivision * i as real;
      ramp.StationOf(posDivision, speedDivision, i);
      newHeader := newHeader + [Feed(speed * 60.0)];
      newHeader := newHeader + [Move(axis, endPos, extrudeRate)];
    }
    r := Ok(newHeader);
  }
}
