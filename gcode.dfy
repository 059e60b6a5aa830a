/** The G-code lines a toolpath generator emits, and the measures used to say
    what a generated program does on the machine. */
module Gcode {

  /** One line of a generated program. Setup lines of the caller's header pass
      through verbatim as Raw; the generators themselves emit only Feed, Move
      and Arc lines. */
  datatype Command =
    | Raw(text: string)                        // any setup line, e.g. "G21", "M83"
    | Feed(rate: real)                         // "G0 F<rate>", rate in mm/min
    | Move(axis: char, pos: real, e: real)     // "G1 <axis><pos> E<e>"
    | Arc(x: real, y: real, e: real, r: real)  // "G2 X<x> Y<y> E<e> R<r>"

  /** The start position chosen by the caller, one coordinate per axis
      (the source carries it as the text fragments "X<x> ", "Y<y> ", "Z<z>"). */
  datatype StartPos = StartPos(x: real, y: real, z: real)

  /** What a generator call produces: the program, or the ZeroDivisionError
      the source raises when one of its divisors is zero (no file is written then). */
  datatype Outcome = Ok(program: seq<Command>) | DivisionByZero

  /** The E word of a generated Move or Arc line. Feed lines carry none, and a
      header line is opaque text, so both count as 0 here. */
  function ExtrusionOf(c: Command): real
  {
    match c
    case Move(_, _, e) => e
    case Arc(_, _, e, _) => e
    case _ => 0.0
  }

  /** Filament the Move and Arc lines of a program push in relative extrusion
      mode (the M83 of the machine header): the sum of their E words, in
      program order. E words inside Raw header lines are not counted. */
  function Extruded(cmds: seq<Command>): real
  {
    if cmds == [] then 0.0 else Extruded(cmds[..|cmds| - 1]) + ExtrusionOf(cmds[|cmds| - 1])
  }

  /** Running two programs one after the other pushes the sum of what each pushes. */
  lemma {:induction false} ExtrudedAppend(a: seq<Command>, b: seq<Command>)
    ensures Extruded(a + b) == Extruded(a) + Extruded(b)
  {
    if b == [] {
      assert a + b == a;
    } else {
      var b' := b[..|b| - 1];
      assert (a + b)[..|a + b| - 1] == a + b';
      assert (a + b)[|a + b| - 1] == b[|b| - 1];
      ExtrudedAppend(a, b');
    }
  }

  /** The signed time the generators compute for a move of `distance` mm at a
      feed of `feed` mm/min: the seconds the move takes when both are positive,
      negative when their signs differ. */
  function TravelTime(distance: real, feed: real): real
    requires feed != 0.0
  {
    distance / (feed / 60.0)
  }

  /** A feed line written as speed*60 (mm/s to mm/min) moves `distance` in
      distance/speed seconds. */
  lemma TravelTimeAtSpeed(distance: real, speed: real)
    requires speed != 0.0
    ensures TravelTime(distance, speed * 60.0) == distance / speed
  {
    assert speed * 60.0 / 60.0 == speed;
  }
}
