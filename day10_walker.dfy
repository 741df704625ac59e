/** The walk round the loop of day10/src/main.rs (`Start::adjacencies`,
    `Data::build_path`, `part01`): from the start marker, the first
    neighbour that takes the walk, then piece after piece until the walk
    comes back to the start. The source's `loop` has no bound; the model
    gives it `fuel`, the number of pieces it may add after the first. */
module Day10Walker {

  import opened Parsing
  import opened Day10Elements
  import opened Day10Topology

  /** `Start::adjacencies`, as written: the cells east, west, below and
      above the start, entered moving East, West, North and South. */
  function Adjacencies(s: Position): seq<Connection>
  {
    [Connection(Position(s.x + 1, s.y), East),
     Connection(Position(s.x - 1, s.y), West),
     Connection(Position(s.x, s.y + 1), North),
     Connection(Position(s.x, s.y - 1), South)]
  }

  /** The four neighbours of the start; the east and west ones are entered
      moving away from the start, but the one below (y + 1, which `Step`
      reaches going South) is entered moving North, and the one above is
      entered moving South. */
  lemma AdjacencyLabels(s: Position)
    ensures |Adjacencies(s)| == 4
    ensures forall i :: 0 <= i < 2 ==> Adjacencies(s)[i].position == Step(s, Adjacencies(s)[i].direction)
    ensures forall i :: 2 <= i < 4 ==> Adjacencies(s)[i].position == Step(s, Opposite(Adjacencies(s)[i].direction))
  {
  }

  /** The piece at the connection's cell takes a walk coming in that way
      (the `filter_map` closure of `build_path`). */
  predicate Accepts(m: map<Position, Element>, c: Connection)
  {
    c.position in m && ElementNext(m[c.position], c.direction).Some?
  }

  /** The first of `adjacencies[i..]` that is accepted. */
  function FirstAccepted(m: map<Position, Element>, adjacencies: seq<Connection>, i: nat): (r: Option<nat>)
    requires i <= |adjacencies|
    ensures r.Some? ==> i <= r.value < |adjacencies| && Accepts(m, adjacencies[r.value]) &&
                        forall j :: i <= j < r.value ==> !Accepts(m, adjacencies[j])
    ensures r.None? ==> forall j :: i <= j < |adjacencies| ==> !Accepts(m, adjacencies[j])
    decreases |adjacencies| - i
  {
    if i == |adjacencies| then None
    else if Accepts(m, adjacencies[i]) then Some(i)
    else FirstAccepted(m, adjacencies, i + 1)
  }

  /** How `build_path` ends: with the path round the loop, with a panic
      (no neighbour takes the walk, a piece refuses it, or a cell without a
      piece is entered), or, in the model only, out of fuel. */
  datatype Walk = Closed(parts: seq<Element>) | Panic | OutOfFuel

  /** The `loop` of `build_path`: `element` was entered by `connection`,
      and `parts` is the path so far. */
  function Follow(maze: Maze, element: Element, connection: Connection, fuel: nat, parts: seq<Element>): Walk
    decreases fuel
  {
    var next := ElementNext(element, connection.direction);
    if next.None? then Panic
    else if next.value.position == maze.start then Closed(parts)
    else if next.value.position !in maze.elements then Panic
    else if fuel == 0 then OutOfFuel
    else
      var e := maze.elements[next.value.position];
      Follow(maze, e, next.value, fuel - 1, parts + [e])
  }

  /** `build_path` with the start's neighbours tried in the order of
      `adjacencies`. */
  function PathFrom(maze: Maze, adjacencies: seq<Connection>, fuel: nat): Walk
  {
    var first := FirstAccepted(maze.elements, adjacencies, 0);
    if first.None? then Panic
    else
      var c := adjacencies[first.value];
      var e := maze.elements[c.position];
      Follow(maze, e, c, fuel, [StartElement(maze.start), e])
  }

  lemma FollowStep(maze: Maze, element: Element, connection: Connection, fuel: nat, parts: seq<Element>)
    ensures Follow(maze, element, connection, fuel, parts) ==
      var next := ElementNext(element, connection.direction);
      if next.None? then Panic
      else if next.value.position == maze.start then Closed(parts)
      else if next.value.position !in maze.elements then Panic
      else if fuel == 0 then OutOfFuel
      else Follow(maze, maze.elements[next.value.position], next.value, fuel - 1, parts + [maze.elements[next.value.position]])
  {
  }

  /** `Data::build_path`, trying the neighbours in the order `adjacencies`
      gives them. */
  method Walker(maze: Maze, adjacencies: seq<Connection>, fuel: nat) returns (r: Walk)
    ensures r == PathFrom(maze, adjacencies, fuel)
  {
    var i := 0;
    while i < |adjacencies| && !Accepts(maze.elements, adjacencies[i])
      invariant 0 <= i <= |adjacencies|
      invariant FirstAccepted(maze.elements, adjacencies, 0) == FirstAccepted(maze.elements, adjacencies, i)
    {
      i := i + 1;
    }
    if i == |adjacencies| {
      return Panic;
    }
    var connection := adjacencies[i];
    var element := maze.elements[connection.position];
    var parts := [StartElement(maze.start), element];
    var remaining := fuel;
    ghost var walk := PathFrom(maze, adjacencies, fuel);
    while true
      invariant Follow(maze, element, connection, remaining, parts) == walk
      decreases remaining
    {
      FollowStep(maze, element, connection, remaining, parts);
      var next := ElementNext(element, connection.direction);
      if next.None? {
        return Panic;
      }
      connection := next.value;
      if connection.position == maze.start {
        return Closed(parts);
      }
      if connection.position !in maze.elements {
        return Panic;
      }
      if remaining == 0 {
        return OutOfFuel;
      }
      element := maze.elements[connection.position];
      parts := parts + [element];
      remaining := remaining - 1;
    }
  }

  /** `Data::build_path`, with the start's own neighbour list. */
  method BuildPath(maze: Maze, fuel: nat) returns (r: Walk)
    ensures r == PathFrom(maze, Adjacencies(maze.start), fuel)
  {
    r := Walker(maze, Adjacencies(maze.start), fuel);
  }

  // ---------------------------------------------------------------------
  // The loop `build_path` finds.

  /** `conns[i]` enters the cell of `parts[i + 1]`, which is the piece the
      map holds there, and each piece sends the walk on to the next
      connection; none after the first enters the start. */
  predicate Chained(maze: Maze, parts: seq<Element>, conns: seq<Connection>)
  {
    |parts| == |conns| + 1 &&
    (forall i :: 0 <= i < |conns| ==> conns[i].position in maze.elements && parts[i + 1] == maze.elements[conns[i].position]) &&
    (forall i :: 1 <= i < |conns| ==> conns[i].position != maze.start) &&
    (forall i :: 0 <= i < |conns| - 1 ==> ElementNext(parts[i + 1], conns[i].direction) == Some(conns[i + 1]))
  }

  /** The last piece sends the walk back into the start. */
  predicate Returns(maze: Maze, parts: seq<Element>, conns: seq<Connection>)
    requires |parts| == |conns| + 1
  {
    conns != [] &&
    var n := ElementNext(parts[|conns|], conns[|conns| - 1].direction);
    n.Some? && n.value.position == maze.start
  }

  /** `parts` is a loop from the start through the first neighbour that
      takes the walk, entered by `conns`, back to the start. */
  predicate IsLoop(maze: Maze, adjacencies: seq<Connection>, parts: seq<Element>, conns: seq<Connection>)
  {
    var first := FirstAccepted(maze.elements, adjacencies, 0);
    first.Some? && conns != [] && conns[0] == adjacencies[first.value] &&
    parts != [] && parts[0] == StartElement(maze.start) &&
    Chained(maze, parts, conns) && Returns(maze, parts, conns)
  }

  lemma {:induction false} FollowClosed(maze: Maze, element: Element, connection: Connection, fuel: nat,
                                       parts: seq<Element>, conns: seq<Connection>) returns (cs: seq<Connection>)
    requires Chained(maze, parts, conns) && conns != []
    requires element == parts[|parts| - 1] && connection == conns[|conns| - 1]
    requires Follow(maze, element, connection, fuel, parts).Closed?
    ensures var path := Follow(maze, element, connection, fuel, parts).parts;
            |conns| <= |cs| <= |conns| + fuel && cs[..|conns|] == conns && |parts| <= |path| && path[..|parts|] == parts &&
            Chained(maze, path, cs) && Returns(maze, path, cs)
    decreases fuel
  {
    var next := ElementNext(element, connection.direction);
    if next.value.position == maze.start {
      cs := conns;
    } else {
      var e := maze.elements[next.value.position];
      var parts' := parts + [e];
      var conns' := conns + [next.value];
      assert Chained(maze, parts', conns');
      cs := FollowClosed(maze, e, next.value, fuel - 1, parts', conns');
      var path := Follow(maze, element, connection, fuel, parts).parts;
      assert path[..|parts'|] == parts';
      assert parts'[..|parts|] == parts;
      assert cs[..|conns'|] == conns';
      assert conns'[..|conns|] == conns;
    }
  }

  lemma {:induction false} FollowLoop(maze: Maze, parts: seq<Element>, conns: seq<Connection>, k: nat, fuel: nat)
    requires Chained(maze, parts, conns) && Returns(maze, parts, conns)
    requires 1 <= k <= |conns| && |conns| - k <= fuel
    ensures Follow(maze, parts[k], conns[k - 1], fuel, parts[..k + 1]) == Closed(parts)
    decreases |conns| - k
  {
    if k < |conns| {
      assert ElementNext(parts[k], conns[k - 1].direction) == Some(conns[k]);
      FollowOn(maze, parts[k], conns[k - 1], fuel, parts[..k + 1], conns[k]);
      assert parts[..k + 1] + [parts[k + 1]] == parts[..k + 2];
      FollowLoop(maze, parts, conns, k + 1, fuel - 1);
    } else {
      assert parts[..k + 1] == parts;
    }
  }

  /** One piece further, away from the start and inside the map. */
  lemma FollowOn(maze: Maze, element: Element, connection: Connection, fuel: nat, parts: seq<Element>, next: Connection)
    requires ElementNext(element, connection.direction) == Some(next)
    requires next.position != maze.start && next.position in maze.elements && fuel > 0
    ensures Follow(maze, element, connection, fuel, parts) ==
            Follow(maze, maze.elements[next.position], next, fuel - 1, parts + [maze.elements[next.position]])
  {
  }

  /** `build_path` closes the loop `parts`, within `fuel` further pieces,
      exactly when `parts` is the loop from the start through the first
      neighbour that takes the walk. */
  lemma PathIsLoop(maze: Maze, adjacencies: seq<Connection>, fuel: nat, parts: seq<Element>)
    ensures PathFrom(maze, adjacencies, fuel) == Closed(parts) <==>
            exists conns :: IsLoop(maze, adjacencies, parts, conns) && |conns| <= fuel + 1
  {
    var first := FirstAccepted(maze.elements, adjacencies, 0);
    if PathFrom(maze, adjacencies, fuel) == Closed(parts) {
      var c := adjacencies[first.value];
      var e := maze.elements[c.position];
      assert Chained(maze, [StartElement(maze.start), e], [c]);
      var cs := FollowClosed(maze, e, c, fuel, [StartElement(maze.start), e], [c]);
      assert cs[0] == cs[..1][0];
      assert parts[0] == parts[..2][0];
      assert IsLoop(maze, adjacencies, parts, cs);
    }
    if conns :| IsLoop(maze, adjacencies, parts, conns) && |conns| <= fuel + 1 {
      FollowLoop(maze, parts, conns, 1, fuel);
      assert parts[..2] == [StartElement(maze.start), parts[1]];
    }
  }

  /** Each connection of the loop is one cell away, in its own direction,
      from the cell the previous piece is left from, and the last piece is
      left one cell away from the start. */
  lemma LoopSteps(maze: Maze, adjacencies: seq<Connection>, parts: seq<Element>, conns: seq<Connection>)
    requires IsLoop(maze, adjacencies, parts, conns)
    ensures forall i :: 0 <= i < |conns| - 1 ==>
              conns[i + 1].position == Step(ExitCell(parts[i + 1], conns[i].direction), conns[i + 1].direction)
    ensures var last := ElementNext(parts[|conns|], conns[|conns| - 1].direction).value;
            maze.start == Step(ExitCell(parts[|conns|], conns[|conns| - 1].direction), last.direction)
  {
    forall i | 0 <= i < |conns| - 1
      ensures conns[i + 1].position == Step(ExitCell(parts[i + 1], conns[i].direction), conns[i + 1].direction)
    {
      NextIsOneStep(parts[i + 1], conns[i].direction);
    }
    NextIsOneStep(parts[|conns|], conns[|conns| - 1].direction);
  }

  /** `part01`: half the cells of the loop, rounded down. */
  function Part01(parts: seq<Element>): (r: int)
    ensures parts != [] ==> r >= 0
  {
    SumOfNonNegativeLen(parts);
    SumOf(parts, ElementLen) / 2
  }

  lemma SumOfNonNegativeLen(parts: seq<Element>)
    ensures SumOf(parts, ElementLen) >= 0
  {
    SumOfNonNegative(parts, ElementLen);
  }

  /** A loop holds the start and at least one more piece, so the farthest
      point is at least one step away. */
  lemma LoopFarthest(maze: Maze, adjacencies: seq<Connection>, fuel: nat)
    requires PathFrom(maze, adjacencies, fuel).Closed?
    ensures Part01(PathFrom(maze, adjacencies, fuel).parts) >= 1
  {
    var parts := PathFrom(maze, adjacencies, fuel).parts;
    PathIsLoop(maze, adjacencies, fuel, parts);
    var conns :| IsLoop(maze, adjacencies, parts, conns) && |conns| <= fuel + 1;
    assert parts == [parts[0]] + [parts[1]] + parts[2..];
    SumOfAppend([parts[0]] + [parts[1]], parts[2..], ElementLen);
    SumOfAppend([parts[0]], [parts[1]], ElementLen);
    SumOfNonNegativeLen(parts[2..]);
  }

  // ---------------------------------------------------------------------
  // `part01` counts the single steps round the loop.

  /** Two cells side by side. */
  predicate Neighbouring(a: Position, b: Position)
  {
    Abs(a.x - b.x) + Abs(a.y - b.y) == 1
  }

  lemma StepNeighbouring(p: Position, d: Direction)
    ensures Neighbouring(p, Step(p, d)) && Neighbouring(Step(p, d), p)
  {
  }

  /** Every neighbour `Start::adjacencies` lists is beside the start. */
  lemma AdjacenciesBeside(s: Position)
    ensures forall i :: 0 <= i < |Adjacencies(s)| ==> Neighbouring(s, Adjacencies(s)[i].position)
  {
  }

  /** Every entry is filed under the cell `parser` files it under, none is
      the start marker, and every pipe is well formed. */
  predicate Keyed(m: map<Position, Element>)
  {
    forall p :: p in m ==> KeyOf(m[p]) == p && !m[p].StartElement? && (m[p].PipeElement? ==> WellFormedPipe(m[p].pipe))
  }

  /** The map `parser` builds from a rectangular drawing is keyed so. */
  lemma BuildKeyed(text: string)
    requires Rectangular(Lines(text)) && Build(text).Some?
    ensures Keyed(Build(text).value.elements)
  {
    BuildSound(text);
  }

  /** Every pipe of the loop is entered moving its own way, or is a single
      cell (where the two ways agree). */
  predicate Forward(parts: seq<Element>, conns: seq<Connection>)
    requires |parts| == |conns| + 1
  {
    forall i :: 0 <= i < |conns| && parts[i + 1].PipeElement? ==>
      conns[i].direction == parts[i + 1].pipe.direction || parts[i + 1].pipe.start == parts[i + 1].pipe.end
  }

  /** `k` cells from `p` on, moving in `d`. */
  function Run(p: Position, d: Direction, k: nat): (r: seq<Position>)
    ensures |r| == k && forall i :: 0 <= i < k ==> r[i] == Steps(p, d, i)
  {
    seq(k, i requires 0 <= i < k => Steps(p, d, i))
  }

  /** The cells the walk crosses up to the `k`-th piece after the start:
      the start, then, for each piece, as many cells as `Element::len`
      counts, from the cell it is entered at on in the way it is entered. */
  function Trail(start: Position, parts: seq<Element>, conns: seq<Connection>, k: nat): seq<Position>
    requires |parts| == |conns| + 1 && k <= |conns|
    decreases k
  {
    if k == 0 then [start]
    else Trail(start, parts, conns, k - 1) + Run(conns[k - 1].position, conns[k - 1].direction, ElementLen(parts[k]))
  }

  /** A piece entered by `c`, moving forward if it is a pipe: the last of
      the cells `Element::len` counts is the cell it is left from. */
  lemma RunEnds(m: map<Position, Element>, c: Connection)
    requires Keyed(m) && c.position in m
    requires m[c.position].PipeElement? ==>
               c.direction == m[c.position].pipe.direction || m[c.position].pipe.start == m[c.position].pipe.end
    ensures Steps(c.position, c.direction, ElementLen(m[c.position]) - 1) == ExitCell(m[c.position], c.direction)
  {
    var e := m[c.position];
    if e.PipeElement? {
      PipeLenCountsCells(e.pipe);
    }
  }

  /** One more piece: its cells continue the trail, one step at a time. */
  lemma TrailStep(start: Position, parts: seq<Element>, conns: seq<Connection>, k: nat, from: Position)
    requires |parts| == |conns| + 1 && 0 < k <= |conns|
    requires Neighbouring(from, conns[k - 1].position)
    requires var t := Trail(start, parts, conns, k - 1);
             forall i :: 0 <= i < |t| - 1 ==> Neighbouring(t[i], t[i + 1])
    requires var t := Trail(start, parts, conns, k - 1); t[|t| - 1] == from
    ensures var t := Trail(start, parts, conns, k);
            forall i :: 0 <= i < |t| - 1 ==> Neighbouring(t[i], t[i + 1])
  {
    var front := Trail(start, parts, conns, k - 1);
    var c := conns[k - 1];
    var run := Run(c.position, c.direction, ElementLen(parts[k]));
    var t := front + run;
    forall i | 0 <= i < |t| - 1
      ensures Neighbouring(t[i], t[i + 1])
    {
      if i >= |front| {
        StepNeighbouring(Steps(c.position, c.direction, i - |front|), c.direction);
      }
    }
  }

  /** The trail so far: it starts at the start, moves one cell at a time,
      ends where the last piece is left, and has as many cells as the
      pieces' lengths add up to. */
  lemma {:induction false} TrailWalk(maze: Maze, parts: seq<Element>, conns: seq<Connection>, k: nat)
    requires Chained(maze, parts, conns) && Keyed(maze.elements) && Forward(parts, conns)
    requires parts[0] == StartElement(maze.start) && conns != [] && Neighbouring(maze.start, conns[0].position)
    requires k <= |conns|
    ensures var t := Trail(maze.start, parts, conns, k);
            |t| == SumOf(parts[..k + 1], ElementLen) && t[0] == maze.start &&
            (forall i :: 0 <= i < |t| - 1 ==> Neighbouring(t[i], t[i + 1])) &&
            t[|t| - 1] == if k == 0 then maze.start else ExitCell(parts[k], conns[k - 1].direction)
    decreases k
  {
    if k == 0 {
      assert parts[..1] == [parts[0]];
    } else {
      TrailWalk(maze, parts, conns, k - 1);
      var from := if k == 1 then maze.start else ExitCell(parts[k - 1], conns[k - 2].direction);
      if k > 1 {
        NextIsOneStep(parts[k - 1], conns[k - 2].direction);
        StepNeighbouring(from, conns[k - 1].direction);
      }
      TrailStep(maze.start, parts, conns, k, from);
      TrailGrows(maze, parts, conns, k);
    }
  }

  /** One more piece adds its length and ends where that piece is left. */
  lemma TrailGrows(maze: Maze, parts: seq<Element>, conns: seq<Connection>, k: nat)
    requires Chained(maze, parts, conns) && Keyed(maze.elements) && Forward(parts, conns)
    requires 0 < k <= |conns|
    requires |Trail(maze.start, parts, conns, k - 1)| == SumOf(parts[..k], ElementLen)
    requires Trail(maze.start, parts, conns, k - 1)[0] == maze.start
    ensures var t := Trail(maze.start, parts, conns, k);
            |t| == SumOf(parts[..k + 1], ElementLen) && t[0] == maze.start &&
            t[|t| - 1] == ExitCell(parts[k], conns[k - 1].direction)
  {
    var c := conns[k - 1];
    assert parts[k] == maze.elements[c.position];
    RunEnds(maze.elements, c);
    assert parts[..k + 1] == parts[..k] + [parts[k]];
    SumOfAppend(parts[..k], [parts[k]], ElementLen);
    assert SumOf([parts[k]], ElementLen) == ElementLen(parts[k]);
  }

  /** `part01` is half the length of the loop walked one cell at a time:
      the trail starts at the start, moves to a neighbouring cell at every
      step and ends beside the start, and `part01` is half its number of
      cells, the number of steps to the point farthest along the loop. */
  lemma LoopLength(maze: Maze, adjacencies: seq<Connection>, parts: seq<Element>, conns: seq<Connection>)
    requires IsLoop(maze, adjacencies, parts, conns)
    requires Keyed(maze.elements) && Forward(parts, conns)
    requires forall i :: 0 <= i < |adjacencies| ==> Neighbouring(maze.start, adjacencies[i].position)
    ensures var t := Trail(maze.start, parts, conns, |conns|);
            t[0] == maze.start && Neighbouring(t[|t| - 1], maze.start) &&
            (forall i :: 0 <= i < |t| - 1 ==> Neighbouring(t[i], t[i + 1])) &&
            SumOf(parts, ElementLen) == |t| && Part01(parts) == |t| / 2
  {
    var n := |conns|;
    TrailWalk(maze, parts, conns, n);
    assert parts[..n + 1] == parts;
    NextIsOneStep(parts[n], conns[n - 1].direction);
    StepNeighbouring(ExitCell(parts[n], conns[n - 1].direction), ElementNext(parts[n], conns[n - 1].direction).value.direction);
  }

  // ---------------------------------------------------------------------
  // The smallest loop.

  /** Pieces of one cell each add up to their number. */
  lemma {:induction false} SingleCells(parts: seq<Element>)
    requires forall i :: 0 <= i < |parts| ==> ElementLen(parts[i]) == 1
    ensures SumOf(parts, ElementLen) == |parts|
  {
    if parts != [] {
      SingleCells(parts[1..]);
    }
  }

  /** The map `parser` files for the drawing
      S-7
      |.|
      L-J
      : each single-cell `-` run under its westbound pipe and each `|` under
      its northbound pipe (the later of the two inserted), and the corners. */
  function SmallMaze(): Maze
  {
    Maze(Position(0, 0), map[
      Position(1, 0) := PipeElement(Pipe(Position(1, 0), Position(1, 0), West)),
      Position(2, 0) := CornerElement(SouthWest(Position(2, 0))),
      Position(2, 1) := PipeElement(Pipe(Position(2, 1), Position(2, 1), North)),
      Position(2, 2) := CornerElement(NorthWest(Position(2, 2))),
      Position(1, 2) := PipeElement(Pipe(Position(1, 2), Position(1, 2), West)),
      Position(0, 2) := CornerElement(NorthEast(Position(0, 2))),
      Position(0, 1) := PipeElement(Pipe(Position(0, 1), Position(0, 1), North))])
  }

  /** The eight pieces round the smallest loop, from the start. */
  function SmallParts(): seq<Element>
  {
    [StartElement(Position(0, 0)),
     PipeElement(Pipe(Position(1, 0), Position(1, 0), West)),
     CornerElement(SouthWest(Position(2, 0))),
     PipeElement(Pipe(Position(2, 1), Position(2, 1), North)),
     CornerElement(NorthWest(Position(2, 2))),
     PipeElement(Pipe(Position(1, 2), Position(1, 2), West)),
     CornerElement(NorthEast(Position(0, 2))),
     PipeElement(Pipe(Position(0, 1), Position(0, 1), North))]
  }

  lemma SmallPartsSingle(parts: seq<Element>)
    requires parts == SmallParts()
    ensures |parts| == 8 && forall i :: 0 <= i < |parts| ==> ElementLen(parts[i]) == 1
  {
    forall i | 0 <= i < |parts|
      ensures ElementLen(parts[i]) == 1
    {
      if parts[i].PipeElement? {
        assert parts[i].pipe.start == parts[i].pipe.end;
      }
    }
  }

  /** The pieces of the smallest loop, as `parser` files them. */
  lemma SmallCells(m: Maze, parts: seq<Element>)
    requires m == SmallMaze() && parts == SmallParts()
    ensures m.start == Position(0, 0) && Position(0, 0) !in m.elements
    ensures Position(1, 0) in m.elements && m.elements[Position(1, 0)] == parts[1]
    ensures Position(2, 0) in m.elements && m.elements[Position(2, 0)] == parts[2]
    ensures Position(2, 1) in m.elements && m.elements[Position(2, 1)] == parts[3]
    ensures Position(2, 2) in m.elements && m.elements[Position(2, 2)] == parts[4]
    ensures Position(1, 2) in m.elements && m.elements[Position(1, 2)] == parts[5]
    ensures Position(0, 2) in m.elements && m.elements[Position(0, 2)] == parts[6]
    ensures Position(0, 1) in m.elements && m.elements[Position(0, 1)] == parts[7]
  {
  }

  /** From the start, the walk goes east and round clockwise. */
  lemma SmallPath(m: Maze)
    requires m == SmallMaze()
    ensures PathFrom(m, Adjacencies(m.start), 6) == Closed(SmallParts())
  {
    var parts := SmallParts();
    SmallCells(m, parts);
    var c1 := Connection(Position(1, 0), East);
    var c4 := Connection(Position(2, 2), South);
    assert FirstAccepted(m.elements, Adjacencies(m.start), 0) == Some(0);
    SmallFirstHalf(m, parts, c1, c4);
    SmallSecondHalf(m, parts, c4);
  }

  /** Along the top and down the east side. */
  lemma SmallFirstHalf(m: Maze, parts: seq<Element>, c1: Connection, c4: Connection)
    requires m == SmallMaze() && parts == SmallParts()
    requires c1 == Connection(Position(1, 0), East) && c4 == Connection(Position(2, 2), South)
    ensures Follow(m, parts[1], c1, 6, parts[..2]) == Follow(m, parts[4], c4, 3, parts[..5])
  {
    SmallCells(m, parts);
    var c2 := Connection(Position(2, 0), East);
    var c3 := Connection(Position(2, 1), South);
    FollowOn(m, parts[1], c1, 6, parts[..2], c2);
    assert parts[..2] + [parts[2]] == parts[..3];
    FollowOn(m, parts[2], c2, 5, parts[..3], c3);
    assert parts[..3] + [parts[3]] == parts[..4];
    FollowOn(m, parts[3], c3, 4, parts[..4], c4);
    assert parts[..4] + [parts[4]] == parts[..5];
  }

  /** Along the bottom and up the west side, back into the start. */
  lemma SmallSecondHalf(m: Maze, parts: seq<Element>, c4: Connection)
    requires m == SmallMaze() && parts == SmallParts()
    requires c4 == Connection(Position(2, 2), South)
    ensures Follow(m, parts[4], c4, 3, parts[..5]) == Closed(parts)
  {
    SmallCells(m, parts);
    var c5 := Connection(Position(1, 2), West);
    var c6 := Connection(Position(0, 2), West);
    var c7 := Connection(Position(0, 1), North);
    FollowOn(m, parts[4], c4, 3, parts[..5], c5);
    assert parts[..5] + [parts[5]] == parts[..6];
    FollowOn(m, parts[5], c5, 2, parts[..6], c6);
    assert parts[..6] + [parts[6]] == parts[..7];
    FollowOn(m, parts[6], c6, 1, parts[..7], c7);
    assert parts[..7] + [parts[7]] == parts;
  }

  /** On the smallest loop `build_path` walks round the eight cells and
      `part01` is 4. */
  lemma SmallLoop(m: Maze)
    requires m == SmallMaze()
    ensures PathFrom(m, Adjacencies(m.start), 6).Closed?
    ensures |PathFrom(m, Adjacencies(m.start), 6).parts| == 8
    ensures Part01(PathFrom(m, Adjacencies(m.start), 6).parts) == 4
  {
    SmallPath(m);
    SmallPartsSingle(SmallParts());
    SingleCells(SmallParts());
  }
}
