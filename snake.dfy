/** The simulation of snake.py: the snake, the food and the per-tick rules.
    Drawing, input handling and frame timing are not modelled. */
module SnakeGame {
  import opened Structures

  const BOARD_SIZE: int := 40

  const UP: Position := Position(0, -1)
  const DOWN: Position := Position(0, 1)
  const LEFT: Position := Position(-1, 0)
  const RIGHT: Position := Position(1, 0)

  /** The centre cell the snake starts on; the source computes it as the
      float `BOARD_SIZE / 2`, which is exactly 20. */
  const MIDDLE: Position := Position(BOARD_SIZE / 2, BOARD_SIZE / 2)

  predicate IsDirection(d: Position)
  {
    d == UP || d == DOWN || d == LEFT || d == RIGHT
  }

  /** The body a new or reset snake has, tail first. */
  function StartBody(): seq<Position>
  {
    [Add(MIDDLE, Scale(LEFT, 2)), Add(MIDDLE, LEFT), MIDDLE]
  }

  function Head(body: seq<Position>): Position
    requires |body| > 0
  {
    body[|body| - 1]
  }

  /** The way the snake actually travelled last: head minus the segment
      behind it. */
  function Heading(body: seq<Position>): Position
    requires |body| >= 2
  {
    Sub(body[|body| - 1], body[|body| - 2])
  }

  predicate InBoard(p: Position)
  {
    0 <= p.x < BOARD_SIZE && 0 <= p.y < BOARD_SIZE
  }

  /** The cells `random.randrange(1, BOARD_SIZE - 1)` can give, per axis:
      the border rows and columns are never chosen. */
  predicate InFoodRange(p: Position)
  {
    1 <= p.x <= BOARD_SIZE - 2 && 1 <= p.y <= BOARD_SIZE - 2
  }

  /** The start body: three cells in a row ending at the centre, heading
      right, all on the board. */
  lemma StartBodyShape()
    ensures |StartBody()| == 3
    ensures StartBody() == [Position(18, 20), Position(19, 20), Position(20, 20)]
    ensures Head(StartBody()) == MIDDLE && Heading(StartBody()) == RIGHT
    ensures forall i :: 0 <= i < |StartBody()| ==> InBoard(StartBody()[i])
  {
    assert MIDDLE == Position(20, 20);
    assert Scale(LEFT, 2) == Position(-2, 0);
    assert Add(MIDDLE, Position(-2, 0)) == Position(18, 20);
    assert Add(MIDDLE, LEFT) == Position(19, 20);
  }

  /** What `turn(d)` leaves in the stored direction: it is kept exactly when
      the request is its reverse (or the same), and otherwise the request is
      taken. */
  function TurnedDirection(current: Position, d: Position): (r: Position)
    ensures r == current <==> (current == Neg(d) || current == d)
    ensures current != Neg(d) ==> r == d
  {
    if current != Neg(d) then d else current
  }

  /** Between unit directions, a turn yields a unit direction and never the
      reverse of the stored one. */
  lemma TurnNeverReverses(current: Position, d: Position)
    requires IsDirection(current) && IsDirection(d)
    ensures IsDirection(TurnedDirection(current, d))
    ensures TurnedDirection(current, d) != Neg(current)
  {
  }

  /** The guard reads the stored direction, not the heading: two turns
      before a move can reverse a snake heading right (up, then left). */
  lemma TwoTurnsCanReverse(body: seq<Position>)
    requires |body| >= 2 && Heading(body) == RIGHT
    ensures TurnedDirection(TurnedDirection(RIGHT, UP), LEFT) == Neg(Heading(body))
  {
  }

  /** The body after `move`: every segment takes the place of the one ahead
      of it and the head advances one step in direction `d`. */
  function MovedBody(body: seq<Position>, d: Position): (r: seq<Position>)
    requires |body| >= 1
    ensures |r| == |body|
    ensures Head(r) == Add(Head(body), d)
    ensures forall i :: 0 <= i < |body| - 1 ==> r[i] == body[i + 1]
  {
    body[1..] + [Add(Head(body), d)]
  }

  /** The body after `increase_length`: one new cell in front of the old
      tail, continuing the line from the second segment through the tail;
      every old segment, the head included, is kept. */
  function GrownBody(body: seq<Position>): (r: seq<Position>)
    requires |body| >= 2
    ensures |r| == |body| + 1
    ensures r[1..] == body
    ensures Sub(r[0], body[0]) == Sub(body[0], body[1])
  {
    var tail := body[0];
    [Add(tail, Sub(tail, body[1]))] + body
  }

  /** After a move the heading is the direction moved in. */
  lemma MovedHeading(body: seq<Position>, d: Position)
    requires |body| >= 2
    ensures Heading(MovedBody(body, d)) == d
  {
    var r := MovedBody(body, d);
    assert r[|r| - 2] == Head(body);
    AddSubCancel(Head(body), d);
  }

  /** Growing the tail leaves the heading alone. */
  lemma GrownHeading(body: seq<Position>)
    requires |body| >= 2
    ensures Heading(GrownBody(body)) == Heading(body)
  {
    var r := GrownBody(body);
    assert r[|r| - 1] == body[|body| - 1] && r[|r| - 2] == body[|body| - 2];
  }

  function Max(a: int, b: int): int
  {
    if a < b then b else a
  }

  /** The game's state as the tick rules see it. */
  datatype GameState = GameState(
    body: seq<Position>, direction: Position, food: Position, score: int, best: int)

  /** The head ran into its own body: it equals some other segment
      (`head in positions[:-1]`). */
  predicate SelfCollides(body: seq<Position>)
    requires |body| >= 1
  {
    Head(body) in body[..|body| - 1]
  }

  /** The state after `tick` when the food is re-drawn at `redraw` (which
      matters only when food is eaten). The branches are tested in order:
      food on any cell of the moved body, then self-collision, then the head
      off the board. */
  function TickState(s: GameState, redraw: Position): (t: GameState)
    requires |s.body| >= 2
    ensures t.best >= s.best
    ensures t.best == s.best || t.best == t.score
    ensures t.score == s.score + 1 || t.score == s.score || t.score == 0
    ensures t.food != s.food ==> t.score == s.score + 1 && t.food == redraw
    ensures t.body == StartBody() || |t.body| >= |s.body|
  {
    var moved := MovedBody(s.body, s.direction);
    if s.food in moved then
      var score := s.score + 1;
      GameState(GrownBody(moved), s.direction, redraw, score, Max(s.best, score))
    else if SelfCollides(moved) then
      GameState(StartBody(), RIGHT, s.food, 0, s.best)
    else if !InBoard(Head(moved)) then
      GameState(StartBody(), RIGHT, s.food, 0, s.best)
    else
      GameState(moved, s.direction, s.food, s.score, s.best)
  }

  /** Eating: the food lies on some cell of the moved body (not only the
      head). The snake grows by one, the score goes up by one, the best
      score follows it, and the food goes to the re-drawn cell, which may be
      on the snake. */
  lemma TickEats(s: GameState, redraw: Position)
    requires |s.body| >= 2 && s.food in MovedBody(s.body, s.direction)
    ensures var t := TickState(s, redraw);
      && |t.body| == |s.body| + 1
      && t.body[1..] == MovedBody(s.body, s.direction)
      && t.score == s.score + 1
      && t.best == Max(s.best, s.score + 1)
      && t.food == redraw
      && t.direction == s.direction
  {
  }

  /** Dying: no food on the moved body, and the head hit the body or left
      the board. The snake restarts, the score drops to zero, the best score
      and the food stay. */
  lemma TickDies(s: GameState, redraw: Position)
    requires |s.body| >= 2
    requires var moved := MovedBody(s.body, s.direction);
      s.food !in moved && (SelfCollides(moved) || !InBoard(Head(moved)))
    ensures TickState(s, redraw) == GameState(StartBody(), RIGHT, s.food, 0, s.best)
  {
  }

  /** Otherwise the snake just moves: nothing else changes. */
  lemma TickMoves(s: GameState, redraw: Position)
    requires |s.body| >= 2
    requires var moved := MovedBody(s.body, s.direction);
      s.food !in moved && !SelfCollides(moved) && InBoard(Head(moved))
    ensures TickState(s, redraw) == s.(body := MovedBody(s.body, s.direction))
  {
  }

  /** The eat check runs after the move, which has already dropped the old
      tail: the food is eaten exactly when it lies on a cell of the body other
      than the tail, or on the cell the head moves to. */
  lemma EatCondition(s: GameState)
    requires |s.body| >= 1
    ensures s.food in MovedBody(s.body, s.direction)
      <==> s.food in s.body[1..] || s.food == Add(Head(s.body), s.direction)
  {
    assert MovedBody(s.body, s.direction) == s.body[1..] + [Add(Head(s.body), s.direction)];
  }

  /** Food is re-drawn once, with no check against the body, so it may land
      on the snake, here on the new head. It is then eaten again on the next
      tick, so the snake grows and scores again whatever the next re-draw
      is. */
  lemma FoodRedrawMayHitSnake(s: GameState, next: Position)
    requires |s.body| >= 2 && s.food == Add(Head(s.body), s.direction)
    ensures var t := TickState(s, s.food);
      && t.food in t.body
      && t.score == s.score + 1
      && TickState(t, next).score == s.score + 2
      && |TickState(t, next).body| == |s.body| + 2
  {
    var moved := MovedBody(s.body, s.direction);
    assert Head(moved) == s.food;
    TickEats(s, s.food);
    var t := TickState(s, s.food);
    assert t.body[1..][|moved| - 1] == Head(moved);
    assert Head(t.body) == t.food;
    assert MovedBody(t.body, t.direction)[|t.body| - 2] == t.food;
    TickEats(t, next);
  }

  /** What every reachable game keeps: a scored-but-not-beaten score, at
      least three segments and food drawn from the food range. */
  predicate GameInvariant(s: GameState)
  {
    0 <= s.score <= s.best && |s.body| >= 3 && InFoodRange(s.food)
  }

  /** A tick keeps the invariant when the re-draw is in the food range, and
      the best score never goes down. After any tick the stored direction is
      the heading. */
  lemma TickKeepsInvariant(s: GameState, redraw: Position)
    requires GameInvariant(s) && InFoodRange(redraw)
    ensures GameInvariant(TickState(s, redraw))
    ensures TickState(s, redraw).best >= s.best
    ensures Heading(TickState(s, redraw).body) == TickState(s, redraw).direction
  {
    var moved := MovedBody(s.body, s.direction);
    var t := TickState(s, redraw);
    if s.food in moved {
      TickEats(s, redraw);
      assert t.body == GrownBody(moved);
      MovedHeading(s.body, s.direction);
      GrownHeading(moved);
    } else if SelfCollides(moved) || !InBoard(Head(moved)) {
      TickDies(s, redraw);
      StartBodyShape();
    } else {
      TickMoves(s, redraw);
      MovedHeading(s.body, s.direction);
    }
  }

  /** The food of snake.py: one cell, re-drawn at random on demand. */
  class Food {
    var position: Position

    constructor ()
      ensures InFoodRange(position)
    {
      position := Position(1, 1);
      new;
      RandomizePosition();
    }

    /** `randomize_position`: both coordinates drawn from
        `randrange(1, BOARD_SIZE - 1)`; the draw is an arbitrary choice in
        that range. Occupied cells are not excluded. */
    method RandomizePosition()
      modifies this
      ensures InFoodRange(position)
    {
      assert 1 <= 1 < BOARD_SIZE - 1;
      var x :| 1 <= x < BOARD_SIZE - 1;
      var y :| 1 <= y < BOARD_SIZE - 1;
      position := Position(x, y);
    }
  }

  /** The snake of snake.py. `died` and `foundFood` are the flags the
      learning adapter reads and clears; snake.py itself never declares or
      sets them. */
  class Snake {
    var direction: Position
    var positions: Queue<Position>
    var died: bool
    var foundFood: bool

    /** A fresh queue holding the start body. */
    static method StartQueue() returns (q: Queue<Position>)
      ensures fresh(q) && q.items == StartBody()
    {
      q := new Queue<Position>();
      q.Push(Add(MIDDLE, Scale(LEFT, 2)));
      q.Push(Add(MIDDLE, LEFT));
      q.Push(MIDDLE);
    }

    constructor ()
      ensures direction == RIGHT && positions.items == StartBody() && fresh(positions)
      ensures !died && !foundFood
    {
      var q := Snake.StartQueue();
      direction := RIGHT;
      positions := q;
      died, foundFood := false, false;
    }

    /** `reset`: run the initialisation again, with a new queue. The flags
        are left as they were. */
    method Reset()
      modifies this
      ensures direction == RIGHT && positions.items == StartBody() && fresh(positions)
      ensures died == old(died) && foundFood == old(foundFood)
    {
      direction := RIGHT;
      positions := StartQueue();
    }

    /** `get_head_position`: the last element of the queue, the one pushed
        most recently. */
    function HeadPosition(): (r: Position)
      reads this, positions
      requires |positions.items| >= 1
      ensures positions.items == positions.items[..|positions.items| - 1] + [r]
    {
      Head(positions.items)
    }

    /** `turn`: take `d` unless it is the reverse of the stored direction. */
    method Turn(d: Position)
      modifies this`direction
      ensures direction == TurnedDirection(old(direction), d)
    {
      if direction != Neg(d) {
        direction := d;
      }
    }

    /** `move`: push the cell ahead of the head, then pop the tail. */
    method Move()
      requires |positions.items| >= 1
      modifies positions
      ensures positions.items == MovedBody(old(positions.items), direction)
    {
      var next := Add(HeadPosition(), direction);
      positions.Push(next);
      var _ := positions.Pop();
    }

    /** `increase_length`: insert a new tail continuing the line from the
        second segment through the old tail. */
    method IncreaseLength()
      requires |positions.items| >= 2
      modifies positions
      ensures positions.items == GrownBody(old(positions.items))
    {
      var tail := positions.Peek(0);
      var next := positions.Peek(1);
      var dir := Sub(tail, next);
      positions.Insert(0, Add(tail, dir));
    }
  }

  /** The game of snake.py without its screen, clock and font. */
  class Game {
    var snake: Snake
    var food: Food
    var score: int
    var best: int

    ghost predicate Valid()
      reads this, snake, snake.positions, food
    {
      GameInvariant(State())
    }

    ghost function State(): GameState
      reads this, snake, snake.positions, food
    {
      GameState(snake.positions.items, snake.direction, food.position, score, best)
    }

    constructor ()
      ensures Valid() && fresh(snake) && fresh(snake.positions) && fresh(food)
      ensures State() == GameState(StartBody(), RIGHT, food.position, 0, 0)
      ensures !snake.died && !snake.foundFood
    {
      snake := new Snake();
      food := new Food();
      score := 0;
      best := 0;
    }

    /** `tick` without its display update and frame delay. When food is
        eaten it is re-drawn once, so the final `food.position` is the
        re-drawn cell; otherwise it is the old one, which `TickState` then
        keeps. No step counter is kept and the snake's flags are not set. */
    method Tick()
      requires Valid()
      modifies this, snake, snake.positions, food
      ensures Valid()
      ensures snake == old(snake) && food == old(food)
      ensures State() == TickState(old(State()), food.position)
      ensures snake.died == old(snake.died) && snake.foundFood == old(snake.foundFood)
    {
      ghost var s := State();
      snake.Move();
      ghost var moved := snake.positions.items;
      if food.position in snake.positions.items {
        snake.IncreaseLength();
        score := score + 1;
        if score > best {
          best := score;
        }
        food.RandomizePosition();
        assert State() == GameState(GrownBody(moved), s.direction, food.position, s.score + 1, Max(s.best, s.score + 1));
      } else if snake.HeadPosition() in snake.positions.items[..|snake.positions.items| - 1] {
        snake.Reset();
        score := 0;
        assert State() == GameState(StartBody(), RIGHT, s.food, 0, s.best);
      } else if !(0 <= snake.HeadPosition().x < BOARD_SIZE && 0 <= snake.HeadPosition().y < BOARD_SIZE) {
        snake.Reset();
        score := 0;
        assert State() == GameState(StartBody(), RIGHT, s.food, 0, s.best);
      }
    }
  }
}
