/** What a sequence of key presses can do to the player: the bounds and
    lattice invariants, the exact set of reachable positions (the 5 x 6 cells
    of the board), and the round trips of opposite moves. */
module Reachability {
  import opened App

  /** The position after `handleInput` has been called with each key in turn. */
  function Run(p: Pos, keys: seq<Key>): Pos
    decreases |keys|
  {
    if keys == [] then p else Run(Move(p, keys[0]), keys[1..])
  }

  /** Some sequence of keys leads the player from the start cell to `p`. */
  ghost predicate Reachable(p: Pos) {
    exists keys :: Run(CellPos(START_COL, START_ROW), keys) == p
  }

  /** `n` presses of the same key. */
  function Repeat(key: Key, n: nat): (keys: seq<Key>)
    ensures |keys| == n
    ensures forall i :: 0 <= i < n ==> keys[i] == key
  {
    if n == 0 then [] else [key] + Repeat(key, n - 1)
  }

  /** Column and row offset of one step in the direction `key`. */
  function ColStep(key: Key): int {
    if key == LEFT then -1 else if key == RIGHT then 1 else 0
  }

  function RowStep(key: Key): int {
    if key == UP then -1 else if key == DOWN then 1 else 0
  }

  function Opposite(key: Key): (back: Key)
    requires IsDirection(key)
    ensures IsDirection(back) && back != key
  {
    if key == LEFT then RIGHT
    else if key == RIGHT then LEFT
    else if key == UP then DOWN
    else UP
  }

  // ------------------------------------------------------------- invariants

  /** Any key sequence keeps an inside, on-lattice position inside and on the
      lattice. */
  lemma {:induction false} RunKeepsInvariants(p: Pos, keys: seq<Key>)
    requires IsInside(p) && OnLattice(p)
    ensures IsInside(Run(p, keys)) && OnLattice(Run(p, keys))
    decreases |keys|
  {
    if keys != [] {
      RunKeepsInvariants(Move(p, keys[0]), keys[1..]);
    }
  }

  /** Keys that are not directions never move the player, however many. */
  lemma {:induction false} NonDirectionsDoNothing(p: Pos, keys: seq<Key>)
    requires forall i :: 0 <= i < |keys| ==> !IsDirection(keys[i])
    ensures Run(p, keys) == p
    decreases |keys|
  {
    if keys != [] {
      NonDirectionsDoNothing(Move(p, keys[0]), keys[1..]);
    }
  }

  /** Key codes outside 37..40 read as `undefined` and move nothing. */
  lemma UnmappedCodeIsNoOp(p: Pos, code: int)
    requires !(37 <= code <= 40)
    ensures Move(p, KeyFor(code)) == p
  {
  }

  /** Running two sequences one after the other is running their
      concatenation. */
  lemma {:induction false} RunAppend(p: Pos, first: seq<Key>, second: seq<Key>)
    ensures Run(p, first + second) == Run(Run(p, first), second)
    decreases |first|
  {
    if first == [] {
      assert first + second == second;
    } else {
      assert (first + second)[0] == first[0];
      assert (first + second)[1..] == first[1..] + second;
      RunAppend(Move(p, first[0]), first[1..], second);
    }
  }

  // --------------------------------------------------------------- lattice

  /** An inside lattice position is one of the 30 cells: column 0..4 and
      row 0..5. */
  lemma LatticeCell(p: Pos) returns (col: int, row: int)
    requires IsInside(p) && OnLattice(p)
    ensures 0 <= col <= 4 && 0 <= row <= 5
    ensures p == CellPos(col, row)
    ensures p.x in {0, 101, 202, 303, 404}
    ensures p.y in {-35, 48, 131, 214, 297, 380}
  {
    col := (p.x - ORIGIN_X) / CELL_WIDTH;
    row := (p.y - ORIGIN_Y) / CELL_HEIGHT;
    assert p.x == ORIGIN_X + col * CELL_WIDTH;
    assert p.y == ORIGIN_Y + row * CELL_HEIGHT;
    assert col in {0, 1, 2, 3, 4};
    assert row in {0, 1, 2, 3, 4, 5};
  }

  /** Every cell of the board is inside and on the lattice. */
  lemma CellIsInside(col: int, row: int)
    requires 0 <= col <= 4 && 0 <= row <= 5
    ensures IsInside(CellPos(col, row)) && OnLattice(CellPos(col, row))
  {
  }

  /** One step from a cell goes to the neighbouring cell when that one is on
      the board. */
  lemma StepToNeighbour(col: int, row: int, key: Key)
    requires IsDirection(key)
    requires 0 <= col + ColStep(key) <= 4 && 0 <= row + RowStep(key) <= 5
    ensures Move(CellPos(col, row), key) == CellPos(col + ColStep(key), row + RowStep(key))
  {
  }

  /** Pressing a direction `n` times walks `n` cells in a straight line,
      provided the walk stays on the board. */
  lemma {:induction false} WalkStraight(col: int, row: int, key: Key, n: nat)
    requires IsDirection(key)
    requires 0 <= col <= 4 && 0 <= row <= 5
    requires 0 <= col + n * ColStep(key) <= 4 && 0 <= row + n * RowStep(key) <= 5
    ensures Run(CellPos(col, row), Repeat(key, n))
            == CellPos(col + n * ColStep(key), row + n * RowStep(key))
    decreases n
  {
    if n > 0 {
      var dc, dr := ColStep(key), RowStep(key);
      assert n * dc == dc + (n - 1) * dc && n * dr == dr + (n - 1) * dr;
      assert dc in {-1, 0, 1} && dr in {-1, 0, 1};
      StepToNeighbour(col, row, key);
      WalkStraight(col + dc, row + dr, key, n - 1);
    }
  }

  /** Every reachable position is inside the board and on its lattice. */
  lemma ReachableIsOnBoard(p: Pos)
    requires Reachable(p)
    ensures IsInside(p) && OnLattice(p)
  {
    var start := CellPos(START_COL, START_ROW);
    CellIsInside(START_COL, START_ROW);
    var keys :| Run(start, keys) == p;
    RunKeepsInvariants(start, keys);
  }

  /** Every cell of the board is reached from the start cell by climbing up
      to its row and then walking left or right to its column. */
  lemma OnBoardIsReachable(p: Pos)
    requires IsInside(p) && OnLattice(p)
    ensures Reachable(p)
  {
    var start := CellPos(START_COL, START_ROW);
    var col, row := LatticeCell(p);
    var climb := Repeat(UP, START_ROW - row);
    WalkStraight(START_COL, START_ROW, UP, START_ROW - row);
    assert Run(start, climb) == CellPos(START_COL, row);
    var across: seq<Key>;
    if col < START_COL {
      across := Repeat(LEFT, START_COL - col);
      WalkStraight(START_COL, row, LEFT, START_COL - col);
    } else {
      across := Repeat(RIGHT, col - START_COL);
      WalkStraight(START_COL, row, RIGHT, col - START_COL);
    }
    assert Run(CellPos(START_COL, row), across) == p;
    RunAppend(start, climb, across);
    assert Run(start, climb + across) == p;
  }

  /** The reachable positions are exactly the inside lattice positions: the
      30 cells of the board. */
  lemma ReachableIffOnBoard(p: Pos)
    ensures Reachable(p) <==> IsInside(p) && OnLattice(p)
  {
    if Reachable(p) {
      ReachableIsOnBoard(p);
    }
    if IsInside(p) && OnLattice(p) {
      OnBoardIsReachable(p);
    }
  }

  // ------------------------------------------------------------ round trips

  /** An accepted move followed by the opposite key returns to where the
      player was. */
  lemma OppositeCancels(p: Pos, key: Key)
    requires IsDirection(key) && IsInside(p)
    requires Move(p, key) != p
    ensures Move(Move(p, key), Opposite(key)) == p
  {
  }

  /** A rejected move changes nothing, whatever key follows it. */
  lemma RejectedMoveIsNoOp(p: Pos, key: Key, keys: seq<Key>)
    requires !IsInside(Target(p, key))
    ensures Run(p, [key] + keys) == Run(p, keys)
  {
  }
}
