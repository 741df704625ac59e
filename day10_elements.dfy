/** The pieces of the pipe maze (day10/src/main.rs): grid positions,
    directions, straight pipe runs, the four corner shapes and the start
    marker, with the step each piece takes when the walk enters it. The y
    axis grows downwards: South is +y and North is -y. */
module Day10Elements {

  import opened Parsing

  datatype Position = Position(x: int, y: int)

  datatype Direction = North | South | East | West

  predicate IsHorizontal(d: Direction) { d == East || d == West }

  predicate IsVertical(d: Direction) { d == North || d == South }

  function Opposite(d: Direction): (o: Direction)
    ensures o != d
    ensures IsHorizontal(o) == IsHorizontal(d)
  {
    match d
    case North => South
    case South => North
    case East => West
    case West => East
  }

  /** The neighbouring cell of `p` in direction `d`. */
  function Step(p: Position, d: Direction): (q: Position)
    ensures q != p
  {
    match d
    case North => Position(p.x, p.y - 1)
    case South => Position(p.x, p.y + 1)
    case East => Position(p.x + 1, p.y)
    case West => Position(p.x - 1, p.y)
  }

  /** A step is undone by a step the opposite way. */
  lemma StepBack(p: Position, d: Direction)
    ensures Opposite(Opposite(d)) == d
    ensures Step(Step(p, d), Opposite(d)) == p
  {
  }

  /** `k` steps from `p` in direction `d`. */
  function Steps(p: Position, d: Direction, k: nat): Position
  {
    if k == 0 then p else Step(Steps(p, d, k - 1), d)
  }

  /** Stepping into `position`, moving in `direction`. */
  datatype Connection = Connection(position: Position, direction: Direction)

  /** A straight run of pipe from `start` to `end`, travelled in `direction`. */
  datatype Pipe = Pipe(start: Position, end: Position, direction: Direction)

  /** A corner cell, named after the two sides it opens to. */
  datatype Corner =
    | SouthWest(position: Position)
    | NorthWest(position: Position)
    | NorthEast(position: Position)
    | SouthEast(position: Position)

  datatype Element =
    | PipeElement(pipe: Pipe)
    | CornerElement(corner: Corner)
    | StartElement(position: Position)

  /** A pipe whose end lies on its axis, reached from its start by moving in
      its direction (the shape the tokenizer gives every pipe). */
  predicate WellFormedPipe(p: Pipe)
  {
    match p.direction
    case East => p.start.y == p.end.y && p.start.x <= p.end.x
    case West => p.start.y == p.end.y && p.start.x >= p.end.x
    case South => p.start.x == p.end.x && p.start.y <= p.end.y
    case North => p.start.x == p.end.x && p.start.y >= p.end.y
  }

  /** `Pipe::len`: the span along the pipe's axis, counting both ends. */
  function PipeLen(p: Pipe): (n: int)
    ensures n >= 1
  {
    match p.direction
    case North => Abs(p.start.y - p.end.y) + 1
    case South => Abs(p.start.y - p.end.y) + 1
    case East => Abs(p.start.x - p.end.x) + 1
    case West => Abs(p.start.x - p.end.x) + 1
  }

  /** A well-formed pipe covers exactly `PipeLen` cells: its end is
      `PipeLen - 1` steps from its start in its own direction. */
  lemma PipeLenCountsCells(p: Pipe)
    requires WellFormedPipe(p)
    ensures Steps(p.start, p.direction, PipeLen(p) - 1) == p.end
  {
    StepsAlong(p.start, p.direction, PipeLen(p) - 1);
  }

  lemma {:induction false} StepsAlong(p: Position, d: Direction, k: nat)
    ensures Steps(p, d, k) == match d
      case North => Position(p.x, p.y - k)
      case South => Position(p.x, p.y + k)
      case East => Position(p.x + k, p.y)
      case West => Position(p.x - k, p.y)
  {
    if k > 0 {
      StepsAlong(p, d, k - 1);
    }
  }

  /** The end of the pipe the walk leaves from when it enters moving `d`. */
  function PipeExit(p: Pipe, d: Direction): Position
  {
    if d == p.direction then p.end else p.start
  }

  /** `Pipe::next_connection`: a pipe only takes a walk along its own axis,
      and sends it on, in the same direction, to the cell past the end it
      leaves from. */
  function PipeNext(p: Pipe, d: Direction): (r: Option<Connection>)
    ensures r.Some? <==> IsHorizontal(p.direction) == IsHorizontal(d)
    ensures r.Some? ==> r.value == Connection(Step(PipeExit(p, d), d), d)
  {
    var horizontal := IsHorizontal(p.direction) && IsHorizontal(d);
    var vertical := IsVertical(p.direction) && IsVertical(d);
    if horizontal && !vertical then
      match (p.direction, d)
      case (East, East) => Some(Connection(Position(p.end.x + 1, p.end.y), East))
      case (West, West) => Some(Connection(Position(p.end.x - 1, p.end.y), West))
      case (East, West) => Some(Connection(Position(p.start.x - 1, p.start.y), West))
      case (West, East) => Some(Connection(Position(p.start.x + 1, p.start.y), East))
      case _ => None
    else if !horizontal && vertical then
      match (p.direction, d)
      case (North, North) => Some(Connection(Position(p.end.x, p.end.y - 1), North))
      case (South, South) => Some(Connection(Position(p.end.x, p.end.y + 1), South))
      case (North, South) => Some(Connection(Position(p.start.x, p.start.y + 1), South))
      case (South, North) => Some(Connection(Position(p.start.x, p.start.y - 1), North))
      case _ => None
    else None
  }

  /** The two sides a corner opens to, read off its drawing: `7` opens
      south and west, `J` north and west, `L` north and east, `F` south and
      east. */
  function Openings(c: Corner): (Direction, Direction)
  {
    match c
    case SouthWest(_) => (South, West)
    case NorthWest(_) => (North, West)
    case NorthEast(_) => (North, East)
    case SouthEast(_) => (South, East)
  }

  predicate OpensTo(c: Corner, d: Direction)
  {
    Openings(c).0 == d || Openings(c).1 == d
  }

  /** `Corner::next_connection`: a corner takes a walk that comes in through
      one of its two openings and sends it out through the other, to the
      neighbouring cell on that side. */
  function CornerNext(c: Corner, d: Direction): (r: Option<Connection>)
    ensures r.Some? <==> OpensTo(c, Opposite(d))
    ensures r.Some? ==> OpensTo(c, r.value.direction) && r.value.direction != Opposite(d)
    ensures r.Some? ==> r.value.position == Step(c.position, r.value.direction)
  {
    match c
    case SouthWest(p) =>
      (match d
       case East => Some(Connection(Position(p.x, p.y + 1), South))
       case North => Some(Connection(Position(p.x - 1, p.y), West))
       case _ => None)
    case NorthWest(p) =>
      (match d
       case South => Some(Connection(Position(p.x - 1, p.y), West))
       case East => Some(Connection(Position(p.x, p.y - 1), North))
       case _ => None)
    case NorthEast(p) =>
      (match d
       case West => Some(Connection(Position(p.x, p.y - 1), North))
       case South => Some(Connection(Position(p.x + 1, p.y), East))
       case _ => None)
    case SouthEast(p) =>
      (match d
       case North => Some(Connection(Position(p.x + 1, p.y), East))
       case West => Some(Connection(Position(p.x, p.y + 1), South))
       case _ => None)
  }

  /** Every corner turns the walk through a right angle, takes it from
      exactly two of the four directions, and its two openings are each
      other's exits. */
  lemma CornerTurns(c: Corner)
    ensures Openings(c).0 != Openings(c).1
    ensures IsHorizontal(Openings(c).0) != IsHorizontal(Openings(c).1)
    ensures forall d :: CornerNext(c, d).Some? ==> IsHorizontal(CornerNext(c, d).value.direction) != IsHorizontal(d)
    ensures var (a, b) := Openings(c);
            CornerNext(c, Opposite(a)) == Some(Connection(Step(c.position, b), b)) &&
            CornerNext(c, Opposite(b)) == Some(Connection(Step(c.position, a), a)) &&
            forall d :: d != Opposite(a) && d != Opposite(b) ==> CornerNext(c, d).None?
  {
  }

  /** `Element::next_connection`: the start marker never takes the walk. */
  function ElementNext(e: Element, d: Direction): (r: Option<Connection>)
    ensures e.StartElement? ==> r.None?
  {
    match e
    case PipeElement(p) => PipeNext(p, d)
    case CornerElement(c) => CornerNext(c, d)
    case StartElement(_) => None
  }

  /** The cell a piece is left from when it is entered moving `d`. */
  function ExitCell(e: Element, d: Direction): Position
  {
    match e
    case PipeElement(p) => PipeExit(p, d)
    case CornerElement(c) => c.position
    case StartElement(s) => s
  }

  /** Every connection a piece emits is one cell away, in the connection's
      own direction, from the cell the piece is left from. */
  lemma NextIsOneStep(e: Element, d: Direction)
    requires ElementNext(e, d).Some?
    ensures var c := ElementNext(e, d).value;
            c.position == Step(ExitCell(e, d), c.direction)
  {
  }

  /** `Element::len`: a corner and the start count as one cell. */
  function ElementLen(e: Element): (n: int)
    ensures n >= 1
    ensures !e.PipeElement? ==> n == 1
  {
    match e
    case PipeElement(p) => PipeLen(p)
    case CornerElement(_) => 1
    case StartElement(_) => 1
  }

  /** The `Display` characters of the pieces. */
  function CornerGlyph(c: Corner): char
  {
    match c
    case SouthWest(_) => '7'
    case NorthWest(_) => 'J'
    case NorthEast(_) => 'L'
    case SouthEast(_) => 'F'
  }

  function PipeGlyph(p: Pipe): (g: char)
    ensures g == (if IsVertical(p.direction) then '|' else '-')
  {
    match p.direction
    case North => '|'
    case South => '|'
    case _ => '-'
  }

  function ElementGlyph(e: Element): char
  {
    match e
    case PipeElement(p) => PipeGlyph(p)
    case CornerElement(c) => CornerGlyph(c)
    case StartElement(_) => 'S'
  }
}
