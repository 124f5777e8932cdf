# Arcade game: player grid movement

A Dafny model of the game logic in `js/app.js` of a small browser arcade game.
The board is a 5 × 6 grid of cells, each 101 px wide and 83 px high. The
player moves one cell per arrow key. A move that would leave the board is
dropped whole. The enemies are only records with default values, and their
`update` is an empty stub.

- `app.dfy`, module `App`: the constants, pixel positions (`Pos`), the bounds
  check `IsInside`, and the key-code lookup `KeyFor` (`allowedKeys[e.keyCode]`,
  with `undefined` as `Key.Undefined`). It also holds the candidate position
  `Target` (the `newPos` of `handleInput`) and the committed move `Move`.
  The entities are classes. `Enemy` and `Player` are built by constructors
  that assign their fields. `Player.HandleInput` is written the way the
  source writes it: copy the position, step the copy, and assign `x` and
  `y` only if the copy is inside. `ComputeStart` builds the start position
  with the source's `+=` steps. `SpawnPlayer` creates the module-level player.
- `reachability.dfy`, module `Reachability`: `Run` applies a sequence of key
  presses. The lemmas cover the bounds and lattice invariants, the exact set
  of reachable positions, the round trips of opposite moves, and the
  no-op keys.

The JavaScript numbers are modelled as `int`, because every constant and step
in the code is an integer. A key is a direction name (`"left"`, `"up"`,
`"right"`, `"down"`) compared by string equality, as the `switch` does, or
`undefined`.

The game's design describes a later version of the program. In that version
the player keeps a grid cell and moves through `moveToGridCell`. Reaching
row 0 resets the player, and enemies move, respawn at random and collide
with the player. The code modelled here has none of that. Positions are
pixel pairs checked by `isInside`, and both `update` methods are empty. The
model follows the code.

## Model

| member | source | states |
|---|---|---|
| `App.IsInside` | js/app.js:91-95 | the inclusive bounds 0..404 and -35..380 are exactly the pixel span of cell columns 0..4 and rows 0..5 |
| `App.KeyFor` | js/app.js:118-125 | codes 37, 38, 39, 40 map one-to-one to left, up, right, down; every other code gives `undefined`, which is not a direction |
| `App.Target` | js/app.js:56-80 | the candidate differs from the position exactly when the key is a direction; then exactly one coordinate moves, x by ±101 (left/right) or y by ±83 (up/down), in the key's direction |
| `App.Move` | js/app.js:82-85 | the move is all-or-nothing (the new position is the old one or the whole candidate); the candidate is taken exactly when it is inside or the key is not a direction; a non-direction key changes nothing; inside and on-lattice positions stay so |
| `App.Enemy.constructor` | js/app.js:8-17 | the fields hold the given start position, speed and sprite |
| `App.Enemy.Update` | js/app.js:21-25 | changes no field |
| `App.Player.constructor` | js/app.js:35-42 | the position is the given start and the sprite the given sprite |
| `App.Player.Update` | js/app.js:44-46 | changes no field |
| `App.Player.HandleInput` | js/app.js:52-89 | the new position is `Move` of the old one; the sprite is untouched; a rejected candidate leaves x and y as they were; being inside and being on the lattice are preserved |
| `App.ComputeStart` | js/app.js:105-111 | the start is cell (2, 5), which is (202, 380), inside the board and on the lattice |
| `App.SpawnPlayer` | js/app.js:106-113 | the module-level player is fresh, at the start cell, with the default sprite, and so satisfies the bounds invariant from construction |
| `Reachability.RunKeepsInvariants` | js/app.js:82-95 | from an inside, on-lattice position every key sequence ends inside and on the lattice |
| `Reachability.NonDirectionsDoNothing` | js/app.js:77-85 | any sequence of keys that are not directions leaves the position unchanged |
| `Reachability.UnmappedCodeIsNoOp` | js/app.js:118-125 | a key code outside 37..40 does not move the player |
| `Reachability.RunAppend` | js/app.js:52-89 | handling two key sequences in turn is handling their concatenation |
| `Reachability.LatticeCell` | js/app.js:91-95 | an inside, on-lattice position is a cell with column 0..4 and row 0..5, so x is in {0, 101, 202, 303, 404} and y in {-35, 48, 131, 214, 297, 380} |
| `Reachability.CellIsInside` | js/app.js:91-95 | every one of the 30 cells is inside and on the lattice |
| `Reachability.StepToNeighbour` | js/app.js:64-85 | one direction key from a cell moves to the neighbouring cell whenever that one is on the board |
| `Reachability.WalkStraight` | js/app.js:64-85 | n presses of one direction walk n cells in a straight line while the walk stays on the board |
| `Reachability.ReachableIsOnBoard` | js/app.js:56-111 | every position reachable from the start is inside and on the lattice |
| `Reachability.OnBoardIsReachable` | js/app.js:56-111 | every inside, on-lattice position is reachable from the start |
| `Reachability.ReachableIffOnBoard` | js/app.js:56-111 | the reachable positions are exactly the 30 cells of the board |
| `Reachability.OppositeCancels` | js/app.js:64-85 | from an inside position, an accepted move followed by the opposite key restores the position (right then left, up then down, and the reverse pairs) |
| `Reachability.RejectedMoveIsNoOp` | js/app.js:82-85 | a key whose candidate is outside the board has no effect on any later sequence of keys |

## Left out

- `Enemy.prototype.render` and `Player.prototype.render`: they only call the external `ctx.drawImage` and `Resources.get`, which are not part of this model.
- The `console.log` tracing in `handleInput`: it produces output and changes no state.
- The `keyup` listener registration (`document.addEventListener`): browser event wiring. Only the key-code lookup it performs is modelled, as `KeyFor`.
- The module-level `allEnemies` array: it is only two `Enemy` objects built with default arguments.
- JavaScript default parameters: the constructors take every argument. The defaults (0, -35, speed 10 and the two sprite paths) are named constants.
- The `dt` argument of `Enemy.update` is modelled as a `real` and ignored, as in the source.
- Non-integer or non-number positions: every value the code produces is an integer, so positions are `int`.
