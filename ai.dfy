/** The learning-environment adapter of ai.py: actions, the step sequence,
    the reward bookkeeping and the appended observation features. The neural
    network, the training loop and the rendering are not modelled. */
module Ai {
  import opened Structures
  import opened SnakeGame

  datatype Option<T> = None | Some(value: T)

  /** `map_int_to_direction`: the action ids 0 to 3 name UP, DOWN, LEFT and
      RIGHT; any other id falls through every branch and gives no direction. */
  function MapIntToDirection(i: int): (r: Option<Position>)
    ensures r.Some? <==> 0 <= i <= 3
    ensures r.Some? ==> IsDirection(r.value)
  {
    if i == 0 then Some(UP)
    else if i == 1 then Some(DOWN)
    else if i == 2 then Some(LEFT)
    else if i == 3 then Some(RIGHT)
    else None
  }

  lemma MapIntToDirectionTable()
    ensures MapIntToDirection(0) == Some(UP) && MapIntToDirection(1) == Some(DOWN)
    ensures MapIntToDirection(2) == Some(LEFT) && MapIntToDirection(3) == Some(RIGHT)
  {
  }

  /** Distinct actions give distinct directions ... */
  lemma MapIntToDirectionInjective(i: int, j: int)
    requires MapIntToDirection(i).Some? && MapIntToDirection(i) == MapIntToDirection(j)
    ensures i == j
  {
  }

  /** ... and every direction is some action's. */
  lemma ActionFor(d: Position) returns (i: int)
    requires IsDirection(d)
    ensures 0 <= i <= 3 && MapIntToDirection(i) == Some(d)
  {
    i := if d == UP then 0 else if d == DOWN then 1 else if d == LEFT then 2 else 3;
  }

  /** The stalling limit `BOARD_SIZE ** 2`. */
  const STALL_LIMIT: nat := BOARD_SIZE * BOARD_SIZE

  /** What `get_reward` returns and leaves in `last_food_found`. */
  datatype RewardOutcome = RewardOutcome(reward: real, counter: nat)

  /** `get_reward` as a value: -0.5 when the snake died, +1 when it found
      food (which also zeroes the turn counter), and -1 when the counter,
      after that, exceeds the stalling limit (which zeroes it too). */
  function Reward(died: bool, foundFood: bool, counter: nat): (o: RewardOutcome)
    ensures o.counter <= STALL_LIMIT
    ensures o.counter == 0 || o.counter == counter
    ensures o.reward in {-1.5, -1.0, -0.5, 0.0, 0.5, 1.0}
  {
    var c := if foundFood then 0 else counter;
    var stalled := c > STALL_LIMIT;
    RewardOutcome(
      (if died then -0.5 else 0.0) + (if foundFood then 1.0 else 0.0) + (if stalled then -1.0 else 0.0),
      if stalled then 0 else c)
  }

  /** The reward tells which of the three checks fired: finding food resets
      the counter first, so the food bonus and the stalling penalty never
      apply together. */
  lemma RewardDecodes(died: bool, foundFood: bool, counter: nat)
    ensures var o := Reward(died, foundFood, counter);
      && (died <==> o.reward in {-1.5, -0.5, 0.5})
      && (foundFood <==> o.reward in {0.5, 1.0})
      && (!foundFood && counter > STALL_LIMIT <==> o.reward in {-1.5, -1.0})
      && (o.counter == 0 <==> foundFood || counter > STALL_LIMIT || counter == 0)
  {
  }

  /** The four features `next_observation` appends after the board. */
  function Features(head: Position, food: Position): (r: seq<int>)
    ensures |r| == 4
    ensures Position(r[2], r[3]) == head
    ensures Position(r[2] - r[0], r[3] - r[1]) == food
  {
    [head.x - food.x, head.y - food.y, head.x, head.y]
  }

  /** The game part of one `step`: turn to `d`, then tick with `redraw` as
      the food re-draw. */
  function StepState(s: GameState, d: Position, redraw: Position): (t: GameState)
    requires GameInvariant(s) && InFoodRange(redraw)
    ensures GameInvariant(t) && t.best >= s.best
    ensures Heading(t.body) == t.direction
  {
    var turned := s.(direction := TurnedDirection(s.direction, d));
    TickKeepsInvariant(turned, redraw);
    TickState(turned, redraw)
  }

  /** Under the adapter as modelled, where every turn is followed by a tick, the stored
      direction is the heading when a turn is asked for; so the guard on the
      stored direction keeps the snake from reversing into its neck. */
  lemma StepNeverReverses(s: GameState, d: Position)
    requires |s.body| >= 2 && Heading(s.body) == s.direction
    requires IsDirection(s.direction) && IsDirection(d)
    ensures Add(Head(s.body), TurnedDirection(s.direction, d)) != s.body[|s.body| - 2]
  {
  }

  /** The game after a run of steps with the given turns and food re-draws.
      The invariant holds throughout and the best score never decreases. */
  function Run(s: GameState, turns: seq<Position>, redraws: seq<Position>): (t: GameState)
    requires GameInvariant(s) && |turns| == |redraws|
    requires forall i :: 0 <= i < |redraws| ==> InFoodRange(redraws[i])
    ensures GameInvariant(t) && t.best >= s.best
    decreases |turns|
  {
    if turns == [] then s
    else Run(StepState(s, turns[0], redraws[0]), turns[1..], redraws[1..])
  }

  /** Over a run of unit-direction turns the stored direction stays a unit
      direction equal to the heading, so no step of the run reverses. */
  lemma {:induction false} RunKeepsHeading(s: GameState, turns: seq<Position>, redraws: seq<Position>)
    requires GameInvariant(s) && |turns| == |redraws|
    requires forall i :: 0 <= i < |redraws| ==> InFoodRange(redraws[i])
    requires forall i :: 0 <= i < |turns| ==> IsDirection(turns[i])
    requires IsDirection(s.direction) && Heading(s.body) == s.direction
    ensures var t := Run(s, turns, redraws);
      IsDirection(t.direction) && Heading(t.body) == t.direction
    decreases |turns|
  {
    if turns != [] {
      var s' := StepState(s, turns[0], redraws[0]);
      TurnNeverReverses(s.direction, turns[0]);
      assert IsDirection(s'.direction);
      RunKeepsHeading(s', turns[1..], redraws[1..]);
    }
  }

  /** `SnakeEnvironment`. `last_food_found` counts turns since food was last
      found. */
  class SnakeEnvironment {
    var game: Game
    var lastFoodFound: nat

    /** The game's invariant, with the stored direction a unit direction
        equal to the heading, as it is between steps. */
    ghost predicate GameReady()
      reads this, game, game.snake, game.snake.positions, game.food
    {
      && game.Valid()
      && IsDirection(game.snake.direction)
      && Heading(game.snake.positions.items) == game.snake.direction
    }

    ghost predicate Valid()
      reads this, game, game.snake, game.snake.positions, game.food
    {
      GameReady() && lastFoodFound <= STALL_LIMIT
    }

    constructor ()
      ensures Valid() && fresh(game)
      ensures game.State() == GameState(StartBody(), RIGHT, game.food.position, 0, 0)
      ensures lastFoodFound == 0 && !game.snake.died && !game.snake.foundFood
    {
      game := new Game();
      lastFoodFound := 0;
      new;
      StartBodyShape();
      assert game.snake.positions.items == StartBody() && game.snake.direction == RIGHT;
    }

    /** The appended part of `next_observation`: the head, and its offset
        from the food. */
    function NextObservation(): (obs: seq<int>)
      reads this, game, game.snake, game.snake.positions, game.food
      requires |game.snake.positions.items| >= 1
      ensures |obs| == 4
      ensures Position(obs[2], obs[3]) == game.snake.HeadPosition()
      ensures Position(obs[2] - obs[0], obs[3] - obs[1]) == game.food.position
    {
      Features(game.snake.HeadPosition(), game.food.position)
    }

    /** `reset`: zero the turn counter and observe. */
    method Reset() returns (obs: seq<int>)
      requires Valid()
      modifies this`lastFoodFound
      ensures Valid()
      ensures lastFoodFound == 0
      ensures obs == NextObservation()
    {
      lastFoodFound := 0;
      obs := NextObservation();
    }

    /** `take_action` without its input polling: turn, then tick. */
    method TakeAction(action: int)
      requires GameReady() && 0 <= action <= 3
      modifies game, game.snake, game.snake.positions, game.food
      ensures game.snake == old(game.snake) && game.food == old(game.food)
      ensures GameReady()
      ensures game.State() == StepState(old(game.State()), MapIntToDirection(action).value, game.food.position)
      ensures game.snake.died == old(game.snake.died) && game.snake.foundFood == old(game.snake.foundFood)
    {
      var d := MapIntToDirection(action).value;
      TurnNeverReverses(game.snake.direction, d);
      game.snake.Turn(d);
      game.Tick();
      TickKeepsInvariant(old(game.State()).(direction := TurnedDirection(old(game.snake.direction), d)), game.food.position);
    }

    /** `get_reward`: the died, food and stalling checks in order, each
        clearing what it read. */
    method GetReward() returns (reward: real)
      modifies this`lastFoodFound, game.snake`died, game.snake`foundFood
      ensures var o := Reward(old(game.snake.died), old(game.snake.foundFood), old(lastFoodFound));
        reward == o.reward && lastFoodFound == o.counter
      ensures !game.snake.died && !game.snake.foundFood
    {
      reward := 0.0;
      if game.snake.died {
        reward := reward - 0.5;
        game.snake.died := false;
      }
      if game.snake.foundFood {
        lastFoodFound := 0;
        reward := reward + 1.0;
        game.snake.foundFood := false;
      }
      if lastFoodFound > STALL_LIMIT {
        reward := reward - 1.0;
        lastFoodFound := 0;
      }
    }

    /** `step`: count the turn, act, read `died` (which the tick leaves as it
        was), compute the reward (which clears the flags), observe. */
    method Step(action: int) returns (obs: seq<int>, reward: real, done: bool)
      requires Valid() && 0 <= action <= 3
      modifies this, game, game.snake, game.snake.positions, game.food
      ensures Valid() && game == old(game)
      ensures game.snake == old(game.snake) && game.food == old(game.food)
      ensures game.State() == StepState(old(game.State()), MapIntToDirection(action).value, game.food.position)
      ensures done == old(game.snake.died)
      ensures var o := Reward(old(game.snake.died), old(game.snake.foundFood), old(lastFoodFound) + 1);
        reward == o.reward && lastFoodFound == o.counter
      ensures !game.snake.died && !game.snake.foundFood
      ensures obs == Features(Head(game.snake.positions.items), game.food.position)
    {
      lastFoodFound := lastFoodFound + 1;
      TakeAction(action);
      done := game.snake.died;
      reward := GetReward();
      obs := NextObservation();
    }
  }
}
