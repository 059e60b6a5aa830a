# Toolpath generators of the 3D-printer parameterization platform

This project models the three G-code generators in `pp.py`, a small tool that writes
calibration toolpaths for a 3D printer. Each generator copies the caller's header
(setup lines such as `G21`, `G90`, `M83`) and appends motion commands:

- `genLine` appends one feed line and one straight move along X or Y.
- `genCircle` appends one feed line and one full `G2` arc.
- `genGradient` appends `numDivisions` evenly spaced stations along a line. It works
  in one of three modes:
  - "Constant speed": the extrusion rate is ramped and the speed is fixed.
  - "Constant flow rate": the speed is ramped and the filament pushed per second is fixed.
  - "Constant volume": the speed is ramped and every move pushes the same amount.

Modelling choices:

- A G-code line is a `Command` value (`Gcode.Command`) instead of a formatted string:
  - `Raw` is a header line;
  - `Feed(rate)` is `G0 F<rate>`;
  - `Move(axis, pos, e)` is `G1 <axis><pos> E<e>`;
  - `Arc(x, y, e, r)` is `G2 X<x> Y<y> E<e> R<r>`.
- Python floats are `real`.
- The start position is three numbers instead of the text fragments `"X<x> "`, `"Y<y> "`, `"Z<z>"`.
- Every generator is a method that returns an `Outcome`. It is either `Ok(program)`,
  the list the source would save, or `DivisionByZero`, the `ZeroDivisionError` the
  source raises before anything is saved.
- The header is a value sequence, so the caller's list cannot change. Each method still
  copies it into a local `newHeader` and grows it with `+` as the source does with `+=`.
- The gradient loops are `for` loops with invariants. Each loop is proved against a
  specification function:
  - `SpeedProgram`, `FlowProgram` and `VolumeProgram` state what each mode outputs;
  - `TotalTime` states the running time sum of the constant-volume mode.
- Two measures, defined in `Gcode`, express what a program does on the machine:
  - `Extruded` is the filament that the generated `Move` and `Arc` lines push in
    relative-extrusion mode (`M83`); E words inside the opaque header lines are not counted;
  - `TravelTime` is the signed time a move of a given length takes at a feed in mm/min.

The properties are proved about the specification functions in `ToolpathProperties`:

- where the ramp starts and ends;
- when each mode fails;
- how each move's E word relates to the feed it runs at;
- the total filament each mode pushes.

The generators check nothing about their numeric inputs. The only failures are
divisions by zero, and the model makes each of them an error outcome, not a
precondition: `moveRate == 0`, `numDivisions == 1` (the divisor `numDivisions - 1`),
`constVal == 0` in constant-speed mode, and a ramped speed of 0 in the other two modes.
Every other input is accepted and produces output:

- `moveRate < 0` writes a negative feed `moveRate*60`, and E takes the opposite sign
  of `extrudeRate*length`;
- `length <= 0` moves back along the axis or stays at the start;
- `radius <= 0` writes that radius in `R`, and E is `extrudeRate*(radius*2*pi/moveRate)` with
  whatever sign that product has;
- `numDivisions <= 0` makes `range(numDivisions)` empty, so the output is the header
  alone, plus the single feed line in constant-speed mode.

`GenLine`, `GenCircle` and `GenGradient` state their outputs for all of these.

In all three gradient modes the first move goes to station 0, which is the start
position itself. When the header has already placed the tool there, that move pushes
its E in place, and only the `numDivisions - 1` later moves travel one spacing each.
The totals proved below count every move, the first one included.

## Model

| member | source | states |
|---|---|---|
| Toolpath.GenLine | pp.py:8-29 | fails exactly when moveRate is 0; otherwise the output is the header followed by exactly two commands: a feed of moveRate*60, then a move on `axis` to the X start (axis X) or Y start (any other axis) plus length, of either sign, with E = extrudeRate*(length/moveRate); that E is the rate times the move's signed travel time at the feed line; a zero rate pushes no filament |
| Toolpath.GenCircle | pp.py:31-44 | fails exactly when moveRate is 0; otherwise the output is the header, a feed of moveRate*60, then one arc that reuses the start X and Y, has R = radius and E = extrudeRate*(2*pi*radius/moveRate), which is the rate times the circumference's signed travel time at the feed |
| Toolpath.GenGradient | pp.py:46-95 | the output is the gradient program of the chosen mode; the header is a prefix; the length is header+1+numDivisions (constant speed) or header+2*numDivisions (the other two modes); numDivisions == 1 fails in every mode; an unknown mode returns exactly the header |
| Toolpath.GradientConstantSpeed | pp.py:64-71 | the loop builds exactly SpeedProgram: a feed of constVal*60, then a move per station; fails when constVal or numDivisions-1 is 0 |
| Toolpath.GradientConstantFlowRate | pp.py:72-81 | the loop builds exactly FlowProgram: a feed and a move per station; fails when numDivisions-1 or any ramped speed is 0 |
| Toolpath.GradientConstantVolume | pp.py:82-93 | the first loop's totalTime is the sum of posDivision/speed_i over all stations; the second loop builds exactly VolumeProgram; fails when numDivisions-1 or any ramped speed is 0 |
| Toolpath.ValuesNonZeroIff | pp.py:77-78 | the divisor check the loop performs station by station holds exactly when no station below k has speed 0 |
| Toolpath.SpeedMovesAt | pp.py:69-71 | after k iterations the constant-speed loop has appended exactly k moves, move i to station i |
| Toolpath.FlowStepsAt | pp.py:75-81 | after k iterations the constant-flow loop has appended 2k commands, alternating the feed of station i and the move to station i |
| Toolpath.VolumeStepsAt | pp.py:89-93 | after k iterations the constant-volume loop has appended 2k commands, alternating feed and move, every move with the same E |
| Toolpath.SpeedProgramLayout | pp.py:64-71 | constant speed: the header is a prefix, then one feed of constVal*60, then numDivisions moves; move i goes to start + i*length/(n-1) with E = (initVal + i*(endVal-initVal)/(n-1))*(length/constVal) |
| Toolpath.FlowProgramLayout | pp.py:72-81 | constant flow rate: the header is a prefix, then 2*numDivisions commands; feed i is speed_i*60 and move i goes to station i with E = constVal*(posDivision/speed_i); every speed_i is nonzero |
| Toolpath.VolumeProgramLayout | pp.py:85-93 | constant volume: the header is a prefix, then 2*numDivisions commands; feed i is speed_i*60 and every move carries the same E = constVal*totalTime |
| Gcode.TravelTimeAtSpeed | pp.py:17-18 | a feed line written as speed*60 (mm/s to mm/min) covers `distance` in distance/speed seconds, the `time` the generators compute |
| ToolpathProperties.RampEndpoints | pp.py:67-71 | with at least two stations, station 0 is the start with initVal and the last station is start+length with endVal |
| ToolpathProperties.RampIncreasing | pp.py:73-77 | when initVal < endVal the ramped value strictly increases from station to station |
| ToolpathProperties.RampPositive | pp.py:73-78 | between positive initVal and endVal every station's ramped speed is positive, so no division by it fails |
| ToolpathProperties.FlowFailsIff | pp.py:72-81 | constant flow rate raises exactly when numDivisions is 1 or some station's ramped speed is 0 |
| ToolpathProperties.VolumeFailsIff | pp.py:82-88 | constant volume raises exactly when numDivisions is 1 or some station's ramped speed is 0 |
| ToolpathProperties.PositiveSpeedsSucceed | pp.py:72-93 | with at least two stations and positive initial and final speeds, neither speed-ramping mode fails |
| ToolpathProperties.SpeedProgramEnds | pp.py:64-71 | constant speed: the first move goes to the start with initVal*time and the last to start+length with endVal*time |
| ToolpathProperties.FlowProgramEnds | pp.py:72-81 | constant flow rate: the first step feeds at initVal and moves to the start; the last feeds at endVal and moves to start+length |
| ToolpathProperties.VolumeProgramEnds | pp.py:82-93 | constant volume: the first step feeds at initVal and moves to the start; the last feeds at endVal and moves to start+length |
| ToolpathProperties.SpeedUsesWholeLineTime | pp.py:64-71 | constant speed: every move carries its ramped rate times the travel time of the whole line at the one feed, not the time of its own segment |
| ToolpathProperties.StationSpacing | pp.py:74-76 | consecutive stations lie exactly one posDivision apart |
| ToolpathProperties.FlowHoldsRate | pp.py:72-81 | constant flow rate: each move's E is constVal times the time one spacing takes at the feed line just before it; every move after the first starts one spacing before its target, so along moves 1 to n-1 the flow is constVal |
| ToolpathProperties.FlowFirstMoveInPlace | pp.py:74-81 | constant flow rate: the first move targets the start station itself, yet carries constVal*(posDivision/initVal) |
| ToolpathProperties.FlowStepsExtruded | pp.py:75-81 | the first k constant-flow steps push constVal times the summed segment times |
| ToolpathProperties.VolumeStepsExtruded | pp.py:89-93 | the first k constant-volume steps push k times the one E amount |
| ToolpathProperties.RateSumClosed | pp.py:67-71 | the ramped values of the first k stations add up to k*initVal plus k(k-1)/2 increments |
| ToolpathProperties.SpeedMovesExtruded | pp.py:69-71 | the first k constant-speed moves push the sum of their E words, move by move |
| ToolpathProperties.SpeedProgramExtruded | pp.py:64-71 | constant speed pushes time * numDivisions * (initVal+endVal)/2 in total, the mean rate times the number of moves times the whole line's travel time |
| ToolpathProperties.TotalTimeSplit | pp.py:85-88 | the sum of posDivision/speed_i over all stations is station 0's term plus the terms of stations 1 to n-1 |
| ToolpathProperties.FlowProgramExtruded | pp.py:72-81 | constant flow rate pushes constVal times the sum of posDivision/speed_i over all n stations; split, that is constVal times the travel time of the n-1 spacings plus constVal*posDivision/initVal pushed by the first move |
| ToolpathProperties.VolumeIsStepsTimesFlow | pp.py:82-93 | constant volume pushes numDivisions times what constant flow rate pushes for the same inputs, because each of its moves repeats the flow mode's total |
| Gcode.ExtrudedAppend | pp.py:58-93 | the filament of the header followed by the appended commands is the sum of the two parts, so the commands appended after the header push the same filament whatever the header holds |

## Left out

- Writing the program to `Line_Test.gcode`, `Circle_Test.gcode` or `Gradient_Test.gcode` (`saveFile`) and printing "Complete!". These are file and console I/O. Each generator returns its program instead.
- The GUI: window layout, the event loop and the input checks that show error popups (`circleError`, `lineError`, `gradError`). They parse text fields and do not change the toolpaths.
- The callers' glue is not part of this model:
  - building the header and the start-position text;
  - negating the extrusion rate before the generators are called;
  - the gradient handler reading the line tab's axis radio button.
- Parsing the start coordinate from its text fragment (`startPos[index][1:-1]`). The start position is given as numbers, and the Z coordinate is carried but unused, as in the source.
- Float rounding, and the text `str(float)` produces. Numbers are exact `real`s and commands are values, not formatted strings.
- The value of pi. `Toolpath.Pi` is the literal `3.141592653589793`, and no property depends on more than its being a fixed positive number.
- Non-integer `numDivisions`: `range` rejects a float in the source. The model takes an `int`.
