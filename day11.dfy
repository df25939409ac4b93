/** The hull-painting robot: its position on an integer grid, the direction
    it faces, the colours painted so far (keyed by the text "x_y" of a
    position), and the two callbacks it plugs into the engine. The input
    callback reports the colour under the robot; the output callback takes
    a colour to paint and a turn to make, alternately, and after each turn
    the robot moves one cell forward.

    Hull is the robot's variables as one value and HullInput/HullOutput are
    the callbacks on it; the class Robot keeps the same variables as fields
    and its methods are proved to compute those functions. */
module Day11 {
  import opened JsText
  import opened JsArray
  import opened Runtime
  import Intcomp
  import IntcompLaws

  const BLACK := 0
  const WHITE := 1
  const TURN_LEFT := 0
  const TURN_RIGHT := 1
  const UP := "UP"
  const LEFT := "LEFT"
  const DOWN := "DOWN"
  const RIGHT := "RIGHT"
  const CLOCKWISE: seq<string> := [UP, RIGHT, DOWN, LEFT]

  // ---------------------------------------------------------------------
  // XY

  datatype XY = XY(x: int, y: int)

  /** `${x}_${y}`: the key of a position in the grid. */
  function ToString(p: XY): string {
    IntToString(p.x) + "_" + IntToString(p.y)
  }

  /** XY.fromString: split on '_' and parse the first two pieces; None when
      there is no second piece or a piece reads as NaN. */
  function FromString(str: string): (p: Option<XY>)
    ensures p.Some? ==> |Split(str, '_')| >= 2
    ensures p.Some? ==> ParseInt(Split(str, '_')[0]) == Num(p.value.x)
    ensures p.Some? ==> ParseInt(Split(str, '_')[1]) == Num(p.value.y)
  {
    var parts := Split(str, '_');
    if |parts| < 2 then None
    else
      match (ParseInt(parts[0]), ParseInt(parts[1]))
      case (Num(x), Num(y)) => Some(XY(x, y))
      case _ => None
  }

  /** move(direction): one cell left, right, up (y decreases) or down (y
      increases); any other direction throws. */
  function Move(p: XY, direction: string): (r: Reply<XY>)
    ensures r.Ok? <==> direction in CLOCKWISE
    ensures r.Fail? ==> r.reason == "bad direction " + direction
    ensures r.Ok? ==> Distance(p, r.value) == 1
  {
    if direction == LEFT then Ok(XY(p.x - 1, p.y))
    else if direction == RIGHT then Ok(XY(p.x + 1, p.y))
    else if direction == UP then Ok(XY(p.x, p.y - 1))
    else if direction == DOWN then Ok(XY(p.x, p.y + 1))
    else Fail("bad direction " + direction)
  }

  function Abs(n: int): nat {
    if n < 0 then -n else n
  }

  /** The number of single steps between two cells. */
  function Distance(p: XY, q: XY): nat {
    Abs(p.x - q.x) + Abs(p.y - q.y)
  }

  /** The direction half a turn away. */
  function Opposite(direction: string): string
    requires direction in CLOCKWISE
  {
    CLOCKWISE[(IndexOf(CLOCKWISE, direction) + 2) % 4]
  }

  // ---------------------------------------------------------------------
  // Turning

  /** The two while loops that bring an index back into CLOCKWISE. */
  method Normalise(index: int) returns (i: int)
    ensures 0 <= i < |CLOCKWISE|
    ensures i == index % |CLOCKWISE|
  {
    i := index;
    while i < 0
      invariant i % 4 == index % 4
      decreases -i
    {
      i := i + |CLOCKWISE|;
    }
    while i > |CLOCKWISE| - 1
      invariant i >= 0 && i % 4 == index % 4
      decreases i
    {
      i := i - |CLOCKWISE|;
    }
  }

  /** The direction after a turn of 0 (one step back in CLOCKWISE) or 1 (one
      step on), wrapping at either end; any other turn throws. */
  function Turned(facing: string, turn: int): (r: Reply<string>)
    ensures r.Ok? <==> turn == TURN_LEFT || turn == TURN_RIGHT
    ensures r.Ok? ==> r.value in CLOCKWISE
    ensures r.Fail? ==> r.reason == "bad direction"
  {
    var index := IndexOf(CLOCKWISE, facing);
    if turn == TURN_LEFT then Ok(CLOCKWISE[(index - 1) % |CLOCKWISE|])
    else if turn == TURN_RIGHT then Ok(CLOCKWISE[(index + 1) % |CLOCKWISE|])
    else Fail("bad direction")
  }

  // ---------------------------------------------------------------------
  // The robot's variables and its callbacks

  /** currentCoords, grid, facingDirection, outputSwitch and paintCount. */
  datatype Hull = Hull(grid: map<string, int>, coords: XY, facing: string, paintNext: bool, paintCount: int)

  /** getColor: the colour painted at p, BLACK for a cell never painted. */
  function ColorAt(grid: map<string, int>, p: XY): (c: int)
    ensures ToString(p) in grid ==> c == grid[ToString(p)]
    ensures ToString(p) !in grid ==> c == BLACK
  {
    if ToString(p) in grid then grid[ToString(p)] else BLACK
  }

  /** The variables as the module sets them up: at the origin facing UP,
      the origin painted WHITE, the first output a colour, nothing counted. */
  function Start(): (h: Hull)
    ensures ColorAt(h.grid, h.coords) == WHITE && h.facing == UP && h.paintNext && h.paintCount == 0
    ensures Counted(h)
  {
    Hull(map[ToString(XY(0, 0)) := WHITE], XY(0, 0), UP, true, 0)
  }

  /** paintCount counts the cells painted besides the origin, which the
      module paints before the run. */
  ghost predicate Counted(h: Hull) {
    h.paintCount >= 0 && |h.grid| == h.paintCount + 1
  }

  /** The input callback: the colour under the robot. */
  function HullInput(h: Hull): Reply<(int, Hull)> {
    Ok((ColorAt(h.grid, h.coords), h))
  }

  /** The output callback. A colour is painted under the robot, counting the
      cell when it had never been painted; a turn changes the facing and
      moves one cell that way. The switch flips after either; a turn other
      than 0 or 1 throws before anything changes. */
  function HullOutput(h: Hull, v: int): Reply<Hull> {
    if h.paintNext then
      var key := ToString(h.coords);
      var count := if key !in h.grid then h.paintCount + 1 else h.paintCount;
      Ok(h.(grid := h.grid[key := v], paintCount := count, paintNext := false))
    else
      match Turned(h.facing, v)
      case Fail(reason) => Fail(reason)
      case Ok(facing) => Ok(h.(facing := facing, coords := Move(h.coords, facing).value, paintNext := true))
  }

  function RobotPorts(): Ports<Hull> {
    Ports(HullInput, HullOutput)
  }

  // ---------------------------------------------------------------------
  // The robot as a state object

  class Robot {
    var grid: map<string, int>
    var coords: XY
    var facing: string
    var paintNext: bool
    var paintCount: int

    function Image(): Hull
      reads this
    {
      Hull(grid, coords, facing, paintNext, paintCount)
    }

    /** The module's variables, with the origin painted WHITE. */
    constructor ()
      ensures Image() == Start()
    {
      coords := XY(0, 0);
      grid := map[];
      facing := UP;
      paintNext := true;
      paintCount := 0;
      new;
      SetColor(coords, WHITE);
    }

    method GetColor(p: XY) returns (color: int)
      ensures color == ColorAt(grid, p)
    {
      var key := ToString(p);
      if key in grid {
        color := grid[key];
      } else {
        color := BLACK;
      }
    }

    method SetColor(p: XY, color: int)
      modifies this`grid
      ensures grid == old(grid)[ToString(p) := color]
    {
      grid := grid[ToString(p) := color];
    }

    /** The input callback. */
    method Input() returns (color: int)
      ensures HullInput(Image()) == Ok((color, Image()))
    {
      color := GetColor(coords);
    }

    /** The output callback; `failure` is the text it throws. */
    method Output(v: int) returns (failure: Option<string>)
      modifies this
      ensures HullOutput(old(Image()), v).Ok? ==> failure == None && Image() == HullOutput(old(Image()), v).value
      ensures HullOutput(old(Image()), v).Fail? ==>
        failure == Some(HullOutput(old(Image()), v).reason) && Image() == old(Image())
    {
      if paintNext {
        var color := v;
        if ToString(coords) !in grid {
          paintCount := paintCount + 1;
        }
        SetColor(coords, color);
      } else {
        var direction := v;
        var index := IndexOf(CLOCKWISE, facing);
        if direction == TURN_LEFT {
          index := index - 1;
        } else if direction == TURN_RIGHT {
          index := index + 1;
        } else {
          return Some("bad direction");
        }
        index := Normalise(index);
        facing := CLOCKWISE[index];
        var moved := Move(coords, facing);
        coords := moved.value;
      }
      paintNext := !paintNext;
      failure := None;
    }
  }

  // ---------------------------------------------------------------------
  // Laws

  /** Reading back the key of a position gives the position. */
  lemma FromStringOfToString(p: XY)
    ensures FromString(ToString(p)) == Some(p)
  {
    IntTextAvoids(p.x, '_');
    IntTextAvoids(p.y, '_');
    var parts := [IntToString(p.x), IntToString(p.y)];
    assert Join(parts[1..], '_') == IntToString(p.y);
    assert Join(parts, '_') == ToString(p);
    SplitJoin(parts, '_');
    ParseIntOfIntToString(p.x);
    ParseIntOfIntToString(p.y);
  }

  /** Two positions have the same key only when they are the same. */
  lemma ToStringInjective(p: XY, q: XY)
    requires ToString(p) == ToString(q)
    ensures p == q
  {
    FromStringOfToString(p);
    FromStringOfToString(q);
  }

  /** Each direction moves along one axis, as the source lists them. */
  lemma MoveSteps(p: XY)
    ensures Move(p, LEFT) == Ok(XY(p.x - 1, p.y)) && Move(p, RIGHT) == Ok(XY(p.x + 1, p.y))
    ensures Move(p, UP) == Ok(XY(p.x, p.y - 1)) && Move(p, DOWN) == Ok(XY(p.x, p.y + 1))
  {
  }

  /** Moving one way and then the opposite way comes back. */
  lemma MoveOpposite(p: XY, direction: string)
    requires direction in CLOCKWISE
    ensures Move(p, direction).Ok? && Move(Move(p, direction).value, Opposite(direction)) == Ok(p)
  {
    IndexOfFirst(CLOCKWISE, direction);
    var i := IndexOf(CLOCKWISE, direction);
    assert CLOCKWISE[i] == direction;
    assert 0 <= i < 4;
    if i == 0 {
      assert Opposite(direction) == DOWN;
    } else if i == 1 {
      assert Opposite(direction) == LEFT;
    } else if i == 2 {
      assert Opposite(direction) == UP;
    } else {
      assert Opposite(direction) == RIGHT;
    }
  }

  /** Each direction sits at its own index of CLOCKWISE. */
  lemma ClockwiseIndex(i: int)
    requires 0 <= i < |CLOCKWISE|
    ensures IndexOf(CLOCKWISE, CLOCKWISE[i]) == i
  {
    IndexOfFirst(CLOCKWISE, CLOCKWISE[i]);
    assert forall j :: 0 <= j < 4 && j != i ==> CLOCKWISE[j] != CLOCKWISE[i];
  }

  /** A right turn from the i-th direction gives the next one, a left turn
      the previous one, wrapping around. */
  lemma TurnedSteps(i: int)
    requires 0 <= i < |CLOCKWISE|
    ensures Turned(CLOCKWISE[i], TURN_RIGHT) == Ok(CLOCKWISE[(i + 1) % 4])
    ensures Turned(CLOCKWISE[i], TURN_LEFT) == Ok(CLOCKWISE[(i + 3) % 4])
  {
    ClockwiseIndex(i);
  }

  /** A left turn undoes a right turn and the other way round. */
  lemma TurnedBack(facing: string)
    requires facing in CLOCKWISE
    ensures Turned(Turned(facing, TURN_RIGHT).value, TURN_LEFT) == Ok(facing)
    ensures Turned(Turned(facing, TURN_LEFT).value, TURN_RIGHT) == Ok(facing)
  {
    ClockwiseIndex(0);
    ClockwiseIndex(1);
    ClockwiseIndex(2);
    ClockwiseIndex(3);
    if facing == UP {
      assert Turned(UP, TURN_RIGHT) == Ok(RIGHT) && Turned(UP, TURN_LEFT) == Ok(LEFT);
    } else if facing == RIGHT {
      assert Turned(RIGHT, TURN_RIGHT) == Ok(DOWN) && Turned(RIGHT, TURN_LEFT) == Ok(UP);
    } else if facing == DOWN {
      assert Turned(DOWN, TURN_RIGHT) == Ok(LEFT) && Turned(DOWN, TURN_LEFT) == Ok(RIGHT);
    } else {
      assert Turned(LEFT, TURN_RIGHT) == Ok(UP) && Turned(LEFT, TURN_LEFT) == Ok(DOWN);
    }
  }

  /** The input callback reports the colour under the robot (BLACK when it
      was never painted) and changes nothing. */
  lemma InputReadsColor(h: Hull)
    ensures HullInput(h).Ok? && HullInput(h).value == (ColorAt(h.grid, h.coords), h)
    ensures ToString(h.coords) !in h.grid ==> HullInput(h).value.0 == BLACK
  {
  }

  /** An output either throws (a turn other than 0 or 1, with nothing
      changed) or flips the switch, so outputs alternate between colours and
      turns. */
  lemma OutputAlternates(h: Hull, v: int)
    ensures HullOutput(h, v).Fail? <==> !h.paintNext && v != TURN_LEFT && v != TURN_RIGHT
    ensures HullOutput(h, v).Ok? ==> HullOutput(h, v).value.paintNext == !h.paintNext
  {
  }

  /** A colour output paints exactly the cell under the robot, and counts it
      exactly when it had never been painted; nothing else changes. */
  lemma OutputPaints(h: Hull, v: int)
    requires h.paintNext
    ensures var r := HullOutput(h, v);
      && r.Ok?
      && ColorAt(r.value.grid, h.coords) == v
      && (forall p :: p != h.coords ==> ColorAt(r.value.grid, p) == ColorAt(h.grid, p))
      && r.value.paintCount == h.paintCount + (if ToString(h.coords) in h.grid then 0 else 1)
      && r.value.coords == h.coords && r.value.facing == h.facing
  {
    var r := HullOutput(h, v);
    forall p | p != h.coords
      ensures ColorAt(r.value.grid, p) == ColorAt(h.grid, p)
    {
      if ToString(p) == ToString(h.coords) {
        ToStringInjective(p, h.coords);
      }
    }
  }

  /** A turn output turns as Turned says and then moves exactly one cell in
      the new direction; the grid and the count stay. */
  lemma OutputTurns(h: Hull, v: int)
    requires !h.paintNext && (v == TURN_LEFT || v == TURN_RIGHT)
    ensures var r := HullOutput(h, v);
      && r.Ok?
      && r.value.facing == Turned(h.facing, v).value
      && Move(h.coords, r.value.facing) == Ok(r.value.coords)
      && Distance(h.coords, r.value.coords) == 1
      && r.value.grid == h.grid && r.value.paintCount == h.paintCount
  {
  }

  /** Every output keeps paintCount one below the number of painted cells. */
  lemma OutputCounted(h: Hull, v: int)
    requires Counted(h) && HullOutput(h, v).Ok?
    ensures Counted(HullOutput(h, v).value)
  {
    if h.paintNext {
      var key := ToString(h.coords);
      assert h.grid[key := v].Keys == h.grid.Keys + {key};
      if key !in h.grid {
        assert |h.grid.Keys + {key}| == |h.grid.Keys| + 1;
      } else {
        assert h.grid.Keys + {key} == h.grid.Keys;
      }
    }
  }

  /** The count holds after any run of the engine with the robot's
      callbacks plugged in, whatever the program. */
  lemma {:induction false} RunCounted(s: State, h: Hull, fuel: nat)
    requires Counted(h)
    ensures Counted(Intcomp.Evaluate(s, h, RobotPorts(), fuel).env)
    decreases fuel
  {
    if fuel > 0 {
      var first := Intcomp.Step(s, h, RobotPorts());
      Intcomp.EvaluateStep(s, h, RobotPorts(), fuel, first);
      IntcompLaws.StepEnv(s, h, RobotPorts());
      if first.Next? {
        if first.events != [] && first.events[0].Out? {
          OutputCounted(h, first.events[0].v);
        }
        RunCounted(first.state, first.env, fuel - 1);
      }
    }
  }
}
