# Ball-and-toys arcade game: a Dafny model of the gameplay state machine

The game is a browser demo built on a 3D rendering library. The player rolls a
ball over a floor and collects ten box-shaped toys before a 60-second clock runs
out. Each handler in `code/src/solution.js` changes module-level state step by
step:

- the per-frame movement handler reads the pressed keys, moves and rolls the
  ball, and rejects any move that would leave the floor;
- the collision pass walks the toys from last to first and removes each toy
  the ball touches. The ball takes that toy's colour, and the game ends when no
  toy is left;
- the once-per-second timer body counts down and ends the game at zero;
- the key handlers record key presses, but only while the game runs. A key
  release is always recorded;
- the game-over routine stops the timer. It shows the banner only once.

The model is one session class, `Session.GameSession`. Its fields are the ball's
position, rotation and colour, the toy list, the seconds left, the
game-ended flag, a flag for the banner, a flag for the still-scheduled
interval, the key map, and the two numbers the on-screen texts show. It has one
method per handler. Each method is proved against pure specification functions
in four small modules:

- `Geometry`: vectors, boxes, box overlap, the floor bounds, and `Commit`, the
  accept-or-reject rule for a move;
- `Controls`: the key map, the six key groups and the move and rotation they
  produce;
- `Toys`: toys, their boxes, and what one collision pass leaves (`Survivors`,
  `ColourAfter`);
- `Countdown`: the clock.

Lemmas about those functions state the game's rules. `GameSession.Valid()` is
the session invariant, and every handler keeps it:

- the ball is on the floor;
- the "Toys Left" number equals the number of toys;
- the banner is shown and the interval stopped exactly when the game has ended;
- the clock stays within 0..60 and is positive while the game runs.

Numbers are Dafny `real`s. The constants 0.5, 0.1 and ±1000 are exact, and
floating-point rounding is not modelled. The rendering library is represented
only by what the handlers use from it:

- box overlap is inclusive, as the library's box test is;
- a toy's box is the 2 × 2 × 2 cube around its position;
- the ball's box is an input: a `Box` given to `CheckCollision`, and a
  function of the ball's position and rotation given to `Frame`.

Random numbers enter as `Spot` values passed to the constructor.

Three facts about the code shape the model:

- The code has no not-started state. The start routine
  (`code/src/solution.js:43-48`) is never called, and the initialisation
  routine starts the clock itself (`code/src/solution.js:218`). So the
  session runs from its constructor.
- Each group's rotation increment is one fifth of its move. So opposite keys
  cancel rotation as well as translation, whatever else is held
  (`Controls.RollFollowsMove`, `Controls.NorthSouthCancel`,
  `Controls.WestEastCancel`).
- The timer text is created after the timer starts, and only the tick writes
  it. It is therefore blank until the first tick (`Readout.Blank`).

## Model

| member | source | states |
|---|---|---|
| Geometry.Commit | code/src/solution.js:117-128 | the committed position is either the whole candidate or the old position, never a clamped mix; it is the candidate whenever the candidate is on the floor, and a ball on the floor stays on the floor |
| Geometry.RejectedMoveKeepsPosition | code/src/solution.js:121-125 | when the candidate leaves the floor on either axis, every coordinate stays exactly where it was |
| Geometry.IntersectsSymmetric | code/src/solution.js:136 | the inclusive box-overlap test does not depend on which box is the ball's |
| Controls.KeyMotion | code/src/solution.js:84-115 | the six `if` blocks, one per key group with `||` between aliases, build exactly the move vector `MoveDelta` and rotation increment `RotationDelta`: the per-axis sum of the held groups' steps |
| Controls.GroupHeldByName | code/src/solution.js:86-110 | a group is active exactly when one of its key names is held |
| Controls.MoveIsLevel | code/src/solution.js:84-115 | the move vector has no vertical component |
| Controls.RollFollowsMove | code/src/solution.js:86-115 | the rotation increment about x is one fifth of the move along z, and about z one fifth of the move along x, for every combination of keys |
| Controls.AliasesDoNotStack | code/src/solution.js:86-101 | pressing the second name of a group that is already held changes neither the move nor the rotation |
| Controls.OppositesCancel | code/src/solution.js:86-101 | opposite cardinal groups held together, without diagonals, give no move and no rotation |
| Controls.NorthSouthCancel | code/src/solution.js:86-93 | with both the north and the south group held, the move and the rotation are exactly those obtained with all four of their names released, whatever other keys are held |
| Controls.WestEastCancel | code/src/solution.js:94-101 | with both the west and the east group held, the move and the rotation are exactly those obtained with all four of their names released, whatever other keys are held |
| Controls.QStacks | code/src/solution.js:104-109 | holding `q` adds −0.5 on x and −0.5 on z, and −0.1 to each rotation, on top of every other key |
| Controls.EStacks | code/src/solution.js:110-115 | holding `e` adds +0.5 on x and −0.5 on z, −0.1 to the x rotation and +0.1 to the z rotation, on top of every other key |
| Controls.NorthOnly | code/src/solution.js:86-128 | with only `ArrowUp`/`w` held, the x rotation drops by exactly 0.1 and the ball moves 0.5 towards −z or not at all |
| Toys.HitWhenCentreInside | code/src/solution.js:53 | a ball box that contains a toy's centre touches that toy's 2 × 2 × 2 box |
| Toys.ReverseWalkStep | code/src/solution.js:134-147 | one step of the reverse walk: removing toy `i` exactly when it is touched, once the toys above `i` are filtered, leaves the toys from `i` on filtered, and the colour is that of the first touched toy from `i` on |
| Toys.SurvivorsAppend | code/src/solution.js:134-147 | the toys kept by a pass over a concatenation are those kept from each part, in order, so the kept toys keep their relative order |
| Toys.SurvivorsMembership | code/src/solution.js:134-147 | a toy remains after a pass exactly when it was there and the ball does not touch it |
| Toys.SurvivorsCount | code/src/solution.js:134-147 | a pass removes exactly one toy per touched toy, so the list never grows |
| Toys.NoHitIff | code/src/solution.js:136 | the hit count is zero exactly when no toy's box intersects the ball's |
| Toys.SurvivorsAllIff | code/src/solution.js:134-147 | a pass leaves the list unchanged exactly when the ball touches no toy |
| Toys.ColourKeptWithoutHit | code/src/solution.js:136-142 | touching no toy leaves the ball's colour unchanged |
| Toys.ColourOfFirstHit | code/src/solution.js:134-142 | after a pass the ball has the colour of the lowest-index toy it touched, the one the reverse walk visits last |
| Toys.PlacedOnFloor | code/src/solution.js:55-62 | toys placed from draws in [−50, 50) stand within the floor bounds |
| Countdown.TicksAfterEnd | code/src/solution.js:185-194 | once the game has ended, any number of timer firings leaves the clock as it is |
| Countdown.TicksWhileRunning | code/src/solution.js:184-194 | a running clock with `s` seconds left shows `s − n` after `n < s` firings and still runs; from `s` firings on it shows 0 and the game has ended |
| Countdown.FullCountdown | code/src/solution.js:184-194 | 60 firings from the start leave 0 seconds and an ended game |
| Countdown.NeverNegative | code/src/solution.js:185-194 | from any reachable clock, the seconds left never go negative, however many times the timer fires |
| Session.GameSession.constructor | code/src/solution.js:204-237 | the session starts with the ball at (0, 3, 0), unrotated and with its asset colours, the ten placed toys on the floor and shown as ten, 60 seconds on a running clock, the timer text blank, no key held, and the game neither ended nor bannered |
| Session.GameSession.AddToys | code/src/solution.js:52-66 | appends the ten placed toys to the list, in draw order |
| Session.GameSession.UpdateBallPosition | code/src/solution.js:83-128 | the position becomes `Commit(old position, MoveDelta(keys))`; the rotation always gains `RotationDelta(keys)`, even when the move is rejected; the invariant is kept |
| Session.GameSession.CheckCollision | code/src/solution.js:132-154 | the reverse walk with in-place removal leaves exactly `Survivors(old toys)`; the colour becomes `ColourAfter(old colour, old toys)`; the game has ended exactly when it had already ended or the list is now empty; the displayed count equals the list length |
| Session.GameSession.ShowGameOver | code/src/solution.js:165-181 | afterwards the game has ended, the banner is shown and the interval is stopped; on a session already in that state the call changes nothing, so the banner is created once |
| Session.GameSession.Tick | code/src/solution.js:183-195 | the clock fields change as `TickClock`: nothing once ended, otherwise one second less, ending at 0 or below; the timer text then shows the new value; nothing at all changes once the game has ended |
| Session.GameSession.KeyDown | code/src/solution.js:265-267 | a press is recorded only while the game runs; once ended the key map is unchanged |
| Session.GameSession.KeyUp | code/src/solution.js:269-271 | a release always clears the key, whether or not the game has ended |
| Session.GameSession.Frame | code/src/solution.js:274-281 | once the game has ended a frame changes nothing; otherwise it moves the ball as `UpdateBallPosition` does, then runs the collision pass with the ball's box at its new pose, and the game is ended exactly when no toy is left |

## Left out

- Rendering, scene management, lights, the textured plane and texture
  loading (`code/src/solution.js:198-203`, `240-256`, `279`): these are calls
  into the rendering library and hold no game logic.
- Asynchronous loading of the ball's model and its error path
  (`code/src/solution.js:30-41`, `204-215`): the model assumes the ball exists.
  The case where loading fails is not modelled. In that case only the frame
  path breaks: the first frame throws when it reads the ball's position, so
  nothing is rendered and no further frame is requested. The timer, the
  game-over routine and the key handlers do not use the ball and keep
  working, so the clock still ends the game after 60 seconds.
- Creating and styling the HUD texts and the banner, and the resize listener
  (`code/src/solution.js:169-179`, `221-235`, `258-262`): only the numbers the
  texts show and a banner flag are kept.
- Camera following (`code/src/solution.js:75-80`, `129`): this is
  floating-point smoothing plus a matrix call into the library.
- `Math.random` in the colour and position draws (`code/src/solution.js:26-28`,
  `56-60`): the draws are constructor inputs, and `SpotInRange` states their range.
  Line 58 is an expression statement with no effect.
- Scheduling by the interval timer and the animation-frame callback, and how
  ticks and frames interleave: `Tick` and `Frame` are separate methods that
  can be called in any order. `clearInterval` is modelled as clearing the
  `timerRunning` flag. Stopping further firings is the scheduler's job and is
  not modelled.
- The start routine and its button (`code/src/solution.js:43-48`): they are never
  used.
- The library's box-of-object computation for the ball mesh: the ball's box
  is an input.
- Floating-point arithmetic: positions and rotations are exact reals, so
  rounding in repeated 0.1 rotation increments is not captured.
- Session.GameSession.UpdateBallPosition: the rotation is not changed inside
  each key block. `Controls.KeyMotion` adds up the key groups' moves and
  rotation increments in local reals, and the handler then adds the total
  rotation to the ball once. No code in between reads the rotation, so the
  final state is the same.
