# Snake game and learning environment, in Dafny

This project models a grid snake game and the adapter that turns it into a
turn-based learning environment. It has three layers, one module per source
file:

- `Structures` (structures.dfy): `Position`, a 2-D integer value with
  component-wise equality, addition, subtraction and scaling. `Queue`, a
  list-backed sequence whose element 0 is the snake's tail and whose last
  element is its head. Its `__len__` is the length `|items|` of the `items`
  field.
- `SnakeGame` (snake.dfy): the direction constants, the `Food`, the `Snake`
  (3-segment start, turn guard, move, grow at the tail) and the `Game` with its
  `score`, `best` and per-tick transition `Tick`. Each mutating method is proved
  against a pure function of the old state: `MovedBody`, `GrownBody`,
  `TurnedDirection` and `TickState`. The lemmas beside these functions state the
  game's rules and its invariant `0 <= score <= best`.
- `Ai` (ai.dfy): action ids to directions, the `last_food_found` stalling
  counter, `get_reward`, the ordering inside `step`, and the four observation
  features appended after the board. `StepState` and `Run` describe one step and
  then a whole run of steps as values. `RunKeepsHeading` proves that between
  steps the stored direction stays equal to the snake's actual heading.

Assumptions where the code cannot run as written:

- `get_head_position` calls `self.positions.len()`, and `Queue` has no such
  method (snake.py:53 against structures.py:41). The model takes the evident
  intent: the head is the last element.
- ai.py reads and clears `snake.died` and `snake.found_food`, but snake.py
  never declares them. The model makes them fields of `Snake`. The constructor
  sets both to false, and nothing in the game ever sets them to true. `Tick`
  leaves them unchanged. `Reset` on the snake keeps their old values, because
  `__init__` does not mention them either.
- ai.py's `reset` calls `self.game.reset()`, which snake.py does not define.
  The model's `SnakeEnvironment.Reset` only zeroes the counter and observes. It
  leaves the game unchanged.

Where the code differs from what a reader might expect, the model follows the code:

- The turn guard compares the request with the stored `direction`, not with the
  heading (head minus neck). `TwoTurnsCanReverse` shows that two turns before
  one move can reverse the snake. `StepNeverReverses` and `RunKeepsHeading` show
  that this cannot happen under the adapter as modelled, which makes exactly
  one turn per tick. The real `take_action` also polls input after the tick
  (ai.py:50), and an arrow key there can call `turn` a second time before the
  next move. That polling is not modelled.
- Food is drawn from `[1, BOARD_SIZE - 2]` on each axis, not `[0, BOARD_SIZE)`.
- Eaten food is re-drawn exactly once, with no rejection loop, so it may land
  on the snake.
- The eat check tests every cell of the moved body, not only the head. The move
  has already dropped the old tail, so food is eaten when it lies under any
  cell but the tail, or on the cell the head moves to (`EatCondition`). Food
  re-drawn onto the new head is therefore eaten again on the next tick
  (`FoodRedrawMayHitSnake`).
- `tick` keeps no step counter and never sets `died` or `found_food`.

Rewards are Dafny `real` values, so -0.5, +1 and -1 are exact. The board is 40
by 40 and the start centre is the integer cell (20, 20). The source computes
the centre as the float `BOARD_SIZE / 2`, which is exactly 20.0.

## Model

| member | source | states |
|---|---|---|
| Structures.Equals | structures.py:12-13 | positions are equal exactly when both x and y agree, which is Dafny's own equality on the datatype |
| Structures.Add | structures.py:15-18 | the sum lies `b` away from `a` and `a` away from `b`, coordinate by coordinate |
| Structures.Scale | structures.py:24-29 | each coordinate is multiplied by `k`, so `k * p` and `p * k` agree; factor 0 gives the origin and factor 1 gives `p` back |
| Structures.Sub | structures.py:20-22 | `a - b`, computed as `a + b * -1`, is the component-wise difference `(a.x - b.x, a.y - b.y)` |
| Structures.AddCommutes | structures.py:15-18 | `a + b` does not depend on operand order |
| Structures.AddSubCancel | structures.py:15-22 | `(a + b) - b == a`, `(a + b) - a == b` and `(a - b) + b == a` |
| Structures.ScaleLaws | structures.py:24-29 | scalings compose by multiplying the factors and distribute over addition |
| Structures.NegInvolutive | structures.py:20-22 | reversing a delta twice gives it back, and reversal is injective |
| Structures.ListIndex | structures.py:53-54 | Python list indexing: a non-negative index is used as is, a negative one counts from the end, and the result is in range |
| Structures.InsertPoint | structures.py:56-57 | where `list.insert` puts the element: the index itself when it is in range, counted from the end when it is negative, clamped to either end otherwise |
| Structures.Queue.constructor | structures.py:35-36 | a new queue is empty |
| Structures.Queue.Push | structures.py:47-48 | appends at the end; length grows by one and earlier elements are kept |
| Structures.Queue.Pop | structures.py:50-51 | on a non-empty queue, returns element 0 and leaves exactly the rest |
| Structures.Queue.Peek | structures.py:53-54 | returns the element at the index as Python reads it, including negative indices; the queue is not changed |
| Structures.Queue.Insert | structures.py:56-57 | the new list is `old[..k] + [o] + old[k..]` at the insert point `k`; length grows by one |
| SnakeGame.StartBodyShape | snake.py:41-47 | the start body has three segments, (18,20), (19,20), (20,20) from tail to head; the head is the centre, the heading is RIGHT and every cell is on the board |
| SnakeGame.TurnedDirection | snake.py:55-57 | a turn leaves the stored direction unchanged exactly when the request is its reverse (or equals it), and otherwise takes the request |
| SnakeGame.TurnNeverReverses | snake.py:55-57 | between unit directions, the result of a turn is a unit direction and never the reverse of the stored direction |
| SnakeGame.TwoTurnsCanReverse | snake.py:55-57 | the guard reads the stored direction, so "up" then "left" reverses a snake heading right |
| SnakeGame.MovedBody | snake.py:59-61 | a move keeps the length; every segment takes the place of the one ahead of it; the new head is the old head plus the direction |
| SnakeGame.GrownBody | snake.py:63-67 | growth adds exactly one segment at index 0 and keeps every old one; the new tail continues the line from the second segment through the old tail |
| SnakeGame.MovedHeading | snake.py:59-61 | after a move, head minus neck is the direction moved in |
| SnakeGame.GrownHeading | snake.py:63-67 | growing at the tail leaves the heading unchanged |
| SnakeGame.TickState | snake.py:109-123 | a tick never lowers best, and best changes only to the new score; the score rises by one, stays, or drops to 0; the food changes only when eaten, and then to the re-drawn cell; the body either restarts or does not shrink |
| SnakeGame.EatCondition | snake.py:110-111 | after the move, food counts as eaten exactly when it lies under a body cell other than the old tail or on the head's new cell |
| SnakeGame.TickEats | snake.py:110-116 | when food lies on the moved body: length grows by one, score grows by one, best becomes max(old best, new score), food goes to the re-drawn cell, direction is kept |
| SnakeGame.TickDies | snake.py:117-123 | when no food was eaten and the head hit the body or left the board: start body, direction RIGHT, score 0, best and food unchanged |
| SnakeGame.TickMoves | snake.py:109-123 | when none of the three checks fires, only the body changes, by one move |
| SnakeGame.FoodRedrawMayHitSnake | snake.py:111-116 | nothing stops the re-drawn food from landing on the snake; food re-drawn onto the new head is eaten on the next tick, and the snake scores and grows again |
| SnakeGame.TickKeepsInvariant | snake.py:109-123 | a tick keeps `0 <= score <= best`, at least three segments and food in range; best never decreases; afterwards the stored direction equals the heading |
| SnakeGame.Food.constructor | snake.py:25-27 | new food is placed in the food range |
| SnakeGame.Food.RandomizePosition | snake.py:29-32 | both food coordinates lie in `[1, BOARD_SIZE - 2]` |
| SnakeGame.Snake.StartQueue | snake.py:44-47 | builds a fresh queue holding the start body in push order |
| SnakeGame.Snake.constructor | snake.py:41-47 | a new snake has the 3-segment start body and direction RIGHT |
| SnakeGame.Snake.Reset | snake.py:49-50 | reset gives a fresh queue with the start body and direction RIGHT; the flags are untouched |
| SnakeGame.Snake.HeadPosition | snake.py:52-53 | the result is the queue's last element: the queue is its earlier elements followed by the result |
| SnakeGame.Snake.Turn | snake.py:55-57 | the stored direction becomes `TurnedDirection(old, d)`; nothing else changes |
| SnakeGame.Snake.Move | snake.py:59-61 | push then pop leave exactly `MovedBody(old body, direction)` |
| SnakeGame.Snake.IncreaseLength | snake.py:63-67 | with at least two segments, the body becomes `GrownBody(old body)` |
| SnakeGame.Game.constructor | snake.py:83-86 | a new game has the start snake, food in range, score 0 and best 0 |
| SnakeGame.Game.Tick | snake.py:109-123 | the new state is `TickState(old state, re-drawn food)`; the invariant is kept; the snake and food objects and the flags are unchanged |
| Ai.MapIntToDirection | ai.py:13-21 | a direction is returned exactly for ids 0 to 3, and it is a unit direction |
| Ai.MapIntToDirectionTable | ai.py:13-21 | 0 maps to UP, 1 to DOWN, 2 to LEFT and 3 to RIGHT |
| Ai.MapIntToDirectionInjective | ai.py:13-21 | distinct valid ids give distinct directions |
| Ai.ActionFor | ai.py:13-21 | every unit direction is the image of some id in 0 to 3 |
| Ai.Reward | ai.py:55-68 | the counter afterwards is at most `BOARD_SIZE ** 2` and is either zero or unchanged; the reward is one of -1.5, -1, -0.5, 0, 0.5, 1 |
| Ai.RewardDecodes | ai.py:55-68 | the reward shows which checks fired: death iff -1.5, -0.5 or 0.5; food iff 0.5 or 1; stalling (no food and counter over the limit) iff -1.5 or -1; so the food bonus and the stalling penalty never both apply |
| Ai.Features | ai.py:41-44 | four features; the last two are the head, and the head minus the first two is the food |
| Ai.StepState | ai.py:47-49 | turn then tick keep the game invariant, never lower best, and leave the stored direction equal to the heading |
| Ai.StepNeverReverses | ai.py:47-49 | when the stored direction is the heading (as between steps of the adapter as modelled, without input polling), the head's next cell is never the old neck |
| Ai.Run | ai.py:70-76 | over any run of steps the game invariant holds and best never decreases |
| Ai.RunKeepsHeading | ai.py:70-76 | over any run of unit-direction turns, the stored direction stays a unit direction equal to the heading |
| Ai.SnakeEnvironment.constructor | ai.py:25-32 | a new environment holds a new game in its start state (start body, direction RIGHT, score 0, best 0, food in range) with both flags false and a zero counter |
| Ai.SnakeEnvironment.NextObservation | ai.py:39-45 | the four appended features: the last two are the head, and the head minus the first two is the food |
| Ai.SnakeEnvironment.Reset | ai.py:34-37 | the counter becomes 0 and the observation is returned |
| Ai.SnakeEnvironment.TakeAction | ai.py:47-49 | the game becomes `StepState(old state, direction of the action, re-drawn food)`; the flags are untouched |
| Ai.SnakeEnvironment.GetReward | ai.py:55-68 | reward and counter are `Reward(old died, old found food, old counter)`; both flags are false afterwards |
| Ai.SnakeEnvironment.Step | ai.py:70-76 | the counter is raised by one before acting; `done` is `died` as read after the tick and before the reward clears it; reward and counter follow `Reward`; flags are cleared; the observation features are taken from the new head and food |

## Left out

- `Ai.StepNeverReverses` and `Ai.RunKeepsHeading` rely on one turn per tick. That holds only because `handle_inputs` (ai.py:50) is not modelled; that call can apply a second turn.
- Drawing, the screen, clock and font (`draw`, `Game.render`, `Game.play` and the display set-up in `Game.__init__`), and the display update and frame delay inside `tick` (snake.py:124-125): these are user-interface and timing I/O.
- `Game.handle_inputs` and its call in `take_action` (ai.py:50), and the environment's `render` (ai.py:52-53): these are event I/O.
- Python's `random`: `RandomizePosition` makes an arbitrary choice within the range. Seeding is not modelled. ai.py's `seed` calls `food.seed`, which snake.py does not define.
- The board part of `next_observation`: `Game.get_board` is not defined in snake.py. Only the four appended features are modelled, so the observation length `BOARD_SIZE ** 2 + 4` is not stated.
- `train` and `main` (ai.py:82-220): the neural network, optimiser, float returns and checkpoint files are foreign calls and floating point. The `gym` action and observation spaces (ai.py:28-29) are left out too.
- `Queue.is_empty` (structures.py:44-45): it reads `self.queue.len`, which does not exist, and nothing calls it. `__iter__`, `as_list`, `as_tuple` and `__str__` are rendering and iteration helpers.
- Action ids outside 0 to 3: for these `map_int_to_direction` returns no direction and `turn` then fails on `-1 * None`. `Step` and `TakeAction` therefore require a valid id.
- Ai.SnakeEnvironment.Reset: does not reset the game, because the `Game.reset` it calls is not defined in snake.py.
