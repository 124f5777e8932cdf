/** The player's grid movement of the arcade game (js/app.js): the board's
    constants, the bounds check, the key-code lookup, the candidate and the
    committed move, and the two entities, Enemy and Player. */
module App {

  // ---------------------------------------------------------------- constants

  /** Size of one board cell in pixels. */
  const CELL_WIDTH: int := 101
  const CELL_HEIGHT: int := 83

  /** One step of `handleInput`, declared there as its own local constants. */
  const HOR_STEP: int := 101
  const VERT_STEP: int := 83

  /** Pixel position of cell (0, 0): the default start of both entities. */
  const ORIGIN_X: int := 0
  const ORIGIN_Y: int := -35

  /** The player starts in column 2, row 5 (the bottom row). */
  const START_COL: int := 2
  const START_ROW: int := 5

  const ENEMY_SPEED: int := 10
  const ENEMY_SPRITE: string := "images/enemy-bug.png"
  const PLAYER_SPRITE: string := "images/char-boy.png"

  // --------------------------------------------------------------- positions

  /** A pixel position; every constant of the game is an integer. */
  datatype Pos = Pos(x: int, y: int)

  /** Pixel position of the cell in column `col` and row `row`. */
  function CellPos(col: int, row: int): Pos {
    Pos(ORIGIN_X + col * CELL_WIDTH, ORIGIN_Y + row * CELL_HEIGHT)
  }

  /** The position lies on a cell corner of the board's lattice. */
  predicate OnLattice(p: Pos) {
    (p.x - ORIGIN_X) % CELL_WIDTH == 0 && (p.y - ORIGIN_Y) % CELL_HEIGHT == 0
  }

  /** `isInside`: inclusive bounds check on pixel coordinates. The literal
      bounds are those of the cells in columns 0..4 and rows 0..5. */
  function IsInside(p: Pos): (inside: bool)
    ensures inside <==> CellPos(0, 0).x <= p.x <= CellPos(4, 0).x
                        && CellPos(0, 0).y <= p.y <= CellPos(0, 5).y
  {
    p.x >= 0 && p.x <= 404 && p.y >= -35 && p.y <= 380
  }

  // --------------------------------------------------------------------- keys

  /** The argument of `handleInput`: a direction name, or `undefined` when
      the key code is not in the lookup table. */
  datatype Key = Name(name: string) | Undefined

  const LEFT: Key := Name("left")
  const UP: Key := Name("up")
  const RIGHT: Key := Name("right")
  const DOWN: Key := Name("down")

  predicate IsDirection(key: Key) {
    key == LEFT || key == UP || key == RIGHT || key == DOWN
  }

  /** The `allowedKeys` object of the keyup listener. */
  const ALLOWED_KEYS: map<int, string> :=
    map[37 := "left", 38 := "up", 39 := "right", 40 := "down"]

  /** `allowedKeys[e.keyCode]`: an absent code reads as `undefined`. */
  function KeyFor(code: int): (key: Key)
    ensures IsDirection(key) <==> 37 <= code <= 40
    ensures !IsDirection(key) ==> key == Undefined
    ensures code == 37 <==> key == LEFT
    ensures code == 38 <==> key == UP
    ensures code == 39 <==> key == RIGHT
    ensures code == 40 <==> key == DOWN
  {
    if code in ALLOWED_KEYS then Name(ALLOWED_KEYS[code]) else Undefined
  }

  // -------------------------------------------------------------------- moves

  /** The candidate position `newPos` of `handleInput`: one step in the
      named direction, or the position itself for any other key. */
  function Target(p: Pos, key: Key): (q: Pos)
    ensures q != p <==> IsDirection(key)
    ensures q.x == p.x || q.y == p.y
    ensures q.x - p.x in {-HOR_STEP, 0, HOR_STEP}
    ensures q.y - p.y in {-VERT_STEP, 0, VERT_STEP}
    ensures q.x < p.x <==> key == LEFT
    ensures q.x > p.x <==> key == RIGHT
    ensures q.y < p.y <==> key == UP
    ensures q.y > p.y <==> key == DOWN
  {
    if key == LEFT then Pos(p.x - HOR_STEP, p.y)
    else if key == UP then Pos(p.x, p.y - VERT_STEP)
    else if key == RIGHT then Pos(p.x + HOR_STEP, p.y)
    else if key == DOWN then Pos(p.x, p.y + VERT_STEP)
    else p
  }

  /** The position after `handleInput(key)`: the candidate if it is inside
      the board, otherwise the old position. */
  function Move(p: Pos, key: Key): (q: Pos)
    ensures q == p || q == Target(p, key)
    ensures q == Target(p, key) <==> IsInside(Target(p, key)) || !IsDirection(key)
    ensures !IsDirection(key) ==> q == p
    ensures IsInside(p) ==> IsInside(q)
    ensures OnLattice(p) ==> OnLattice(q)
  {
    var candidate := Target(p, key);
    if IsInside(candidate) then candidate else p
  }

  // ----------------------------------------------------------------- entities

  /** Enemies the player must avoid. Nothing moves them yet. */
  class Enemy {
    var x: int
    var y: int
    var speed: int
    var sprite: string

    constructor (startX: int, startY: int, speed: int, sprite: string)
      ensures x == startX && y == startY
      ensures this.speed == speed && this.sprite == sprite
    {
      x := startX;
      y := startY;
      this.speed := speed;
      this.sprite := sprite;
    }

    /** `update(dt)` is an empty stub: no field changes. */
    method Update(dt: real)
      ensures unchanged(this)
    {
    }
  }

  class Player {
    var x: int
    var y: int
    var sprite: string

    function Position(): Pos
      reads this
    {
      Pos(x, y)
    }

    constructor (startX: int, startY: int, sprite: string)
      ensures Position() == Pos(startX, startY) && this.sprite == sprite
    {
      x := startX;
      y := startY;
      this.sprite := sprite;
    }

    /** `update()` is an empty stub: no field changes. */
    method Update()
      ensures unchanged(this)
    {
    }

    /** Copies the position, steps the copy, and commits it only when it is
        inside the board; the sprite is never touched. */
    method HandleInput(key: Key)
      modifies this`x, this`y
      ensures Position() == Move(old(Position()), key)
      ensures sprite == old(sprite)
      ensures old(IsInside(Position())) ==> IsInside(Position())
      ensures old(OnLattice(Position())) ==> OnLattice(Position())
      ensures !IsInside(Target(old(Position()), key)) ==> Position() == old(Position())
    {
      var newX, newY := x, y;
      if key == LEFT {
        newX := newX - HOR_STEP;
      } else if key == UP {
        newY := newY - VERT_STEP;
      } else if key == RIGHT {
        newX := newX + HOR_STEP;
      } else if key == DOWN {
        newY := newY + VERT_STEP;
      }
      if IsInside(Pos(newX, newY)) {
        x := newX;
        y := newY;
      }
    }
  }

  /** The start position, built as the source builds it: cell (0, 0), then
      two columns right and five rows down. */
  method ComputeStart() returns (start: Pos)
    ensures start == CellPos(START_COL, START_ROW) == Pos(202, 380)
    ensures IsInside(start) && OnLattice(start)
  {
    var startX := ORIGIN_X;
    var startY := ORIGIN_Y;
    startX := startX + CELL_WIDTH * START_COL;
    startY := startY + CELL_HEIGHT * START_ROW;
    start := Pos(startX, startY);
  }

  /** The module-level player, created at the start position with the
      default sprite. */
  method SpawnPlayer() returns (player: Player)
    ensures fresh(player)
    ensures player.Position() == CellPos(START_COL, START_ROW)
    ensures player.sprite == PLAYER_SPRITE
    ensures IsInside(player.Position()) && OnLattice(player.Position())
  {
    var start := ComputeStart();
    player := new Player(start.x, start.y, PLAYER_SPRITE);
  }
}
