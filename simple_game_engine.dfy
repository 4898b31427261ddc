/**
 * The `SimpleGameEngine`: a self-contained grid game on a canvas. It
 * generates a grid of grass, tree and water tiles, checks click targets
 * against it, and starts the player towards a target. Drawing, image
 * loading and the frame-by-frame interpolation of the player are not
 * modelled; the random draws that choose tile types are a parameter.
 */
module SimpleEngine {

  /** A tile's `type`. */
  datatype TileType = Grass | Tree | Water

  /** A grid tile: its coordinates, type and walkability. */
  datatype Tile = Tile(x: int, y: int, kind: TileType, walkable: bool)

  /**
   * The outcome of the two random draws for one tile: whether the first
   * draw fell under 0.1 (a tree) and whether the second fell under 0.05
   * (water).
   */
  datatype Roll = Roll(tree: bool, water: bool)

  /** The player record; `x` and `y` are fractional while moving. */
  datatype PlayerState = PlayerState(x: real, y: real, targetX: int, targetY: int, isMoving: bool, moveSpeed: real)

  /** The player the constructor creates: at (1, 1), not moving, speed 0.1. */
  const InitialPlayer := PlayerState(1.0, 1.0, 1, 1, false, 0.1)

  /** The tile forced at column 1, row 1 so that the player's start is walkable. */
  const StartTile := Tile(1, 1, Grass, true)

  /**
   * The tile a pair of draws produces at (x, y). Water wins over a tree,
   * and exactly the grass tiles are walkable.
   */
  function RolledTile(x: int, y: int, roll: Roll): (t: Tile)
    ensures t.x == x && t.y == y
    ensures t.walkable <==> t.kind == Grass
    ensures t.kind == Water <==> roll.water
    ensures t.kind == Tree <==> roll.tree && !roll.water
  {
    Tile(x, y, if roll.water then Water else if roll.tree then Tree else Grass, !roll.tree && !roll.water)
  }

  /** The length of row y: `cols`, except that forcing tile (1, 1) grows a one-tile row 1 to two tiles. */
  function RowLength(y: int, cols: nat): nat {
    if y == 1 && cols < 2 then 2 else cols
  }

  /**
   * What `generateTiles` leaves behind for `cols` columns and `rows` rows:
   * every tile as its draws made it, except the forced start tile.
   */
  ghost predicate Generated(grid: seq<seq<Tile>>, cols: nat, rows: nat, roll: (nat, nat) -> Roll) {
    && |grid| == rows
    && (forall y :: 0 <= y < rows ==> |grid[y]| == RowLength(y, cols))
    && (forall y, x :: 0 <= y < rows && 0 <= x < |grid[y]| ==>
          grid[y][x] == if x == 1 && y == 1 then StartTile else RolledTile(x, y, roll(x, y)))
  }

  /** A grid `isValidTarget` can read: a first row exists and no row is shorter than it. */
  predicate Readable(grid: seq<seq<Tile>>) {
    |grid| > 0 && forall y :: 0 <= y < |grid| ==> |grid[y]| >= |grid[0]|
  }

  /**
   * `isValidTarget` on a grid: false outside the bounds, measured by the
   * first row's length and the number of rows; otherwise the tile's
   * walkability.
   */
  function ValidTargetIn(grid: seq<seq<Tile>>, x: int, y: int): (valid: bool)
    requires Readable(grid)
    ensures valid ==> 0 <= x < |grid[0]| && 0 <= y < |grid|
    ensures 0 <= x < |grid[0]| && 0 <= y < |grid| ==> valid == grid[y][x].walkable
  {
    if x < 0 || y < 0 || x >= |grid[0]| || y >= |grid| then false else grid[y][x].walkable
  }

  /**
   * On a generated grid every tile sits at its own coordinates and is
   * walkable exactly when it is grass; tile (1, 1) is walkable grass.
   */
  lemma GeneratedTilesConsistent(grid: seq<seq<Tile>>, cols: nat, rows: nat, roll: (nat, nat) -> Roll, x: int, y: int)
    requires rows >= 2 && cols >= 1 && Generated(grid, cols, rows, roll)
    requires 0 <= y < |grid| && 0 <= x < |grid[y]|
    ensures grid[y][x].x == x && grid[y][x].y == y
    ensures grid[y][x].walkable <==> grid[y][x].kind == Grass
    ensures grid[1][1] == StartTile
  {
  }

  /**
   * On a generated grid a click is a valid target exactly when it lies in
   * the `cols` by `rows` rectangle on a grass tile, and the start (1, 1) is
   * valid whenever the grid is at least two columns wide.
   */
  lemma GeneratedTargets(grid: seq<seq<Tile>>, cols: nat, rows: nat, roll: (nat, nat) -> Roll, x: int, y: int)
    requires rows >= 2 && cols >= 1 && Generated(grid, cols, rows, roll)
    ensures Readable(grid)
    ensures ValidTargetIn(grid, x, y) <==> 0 <= x < cols && 0 <= y < rows && grid[y][x].kind == Grass
    ensures cols >= 2 ==> ValidTargetIn(grid, 1, 1)
  {
  }

  class SimpleGameEngine {
    /** The canvas configuration: width and height in pixels, tile size. */
    const width: nat
    const height: nat
    const tileSize: nat
    /** `tiles[y][x]`. */
    var tiles: seq<seq<Tile>>
    var player: PlayerState

    /** `Math.floor(width / tileSize)` and `Math.floor(height / tileSize)`. */
    function Columns(): nat
      requires tileSize > 0
    {
      width / tileSize
    }

    function Rows(): nat
      requires tileSize > 0
    {
      height / tileSize
    }

    ghost predicate Valid()
      reads this
    {
      tileSize > 0 && Readable(tiles)
    }

    /**
     * The constructor: the player starts at (1, 1) and the tiles are
     * generated. The configuration must give at least one column and two
     * rows, since the forced start tile is written into row 1.
     */
    constructor (width: nat, height: nat, tileSize: nat, roll: (nat, nat) -> Roll)
      requires tileSize > 0 && width / tileSize >= 1 && height / tileSize >= 2
      ensures this.width == width && this.height == height && this.tileSize == tileSize
      ensures player == InitialPlayer
      ensures Valid() && Generated(tiles, Columns(), Rows(), roll)
    {
      this.width := width;
      this.height := height;
      this.tileSize := tileSize;
      player := InitialPlayer;
      tiles := [];
      new;
      GenerateTiles(roll);
    }

    /**
     * `generateTiles`: row by row, tile by tile, a grass tile that the first
     * draw may turn into a tree and the second into water; then tile (1, 1)
     * is overwritten with walkable grass.
     */
    method GenerateTiles(roll: (nat, nat) -> Roll)
      requires tileSize > 0 && Columns() >= 1 && Rows() >= 2
      modifies this`tiles
      ensures Valid() && Generated(tiles, Columns(), Rows(), roll)
    {
      var cols := width / tileSize;
      var rows := height / tileSize;
      tiles := [];
      var y := 0;
      while y < rows
        invariant 0 <= y <= rows && |tiles| == y
        invariant forall j :: 0 <= j < y ==> |tiles[j]| == cols
        invariant forall j, i :: 0 <= j < y && 0 <= i < cols ==> tiles[j][i] == RolledTile(i, j, roll(i, j))
      {
        tiles := tiles + [[]];
        var x := 0;
        while x < cols
          invariant 0 <= x <= cols && |tiles| == y + 1 && |tiles[y]| == x
          invariant forall j :: 0 <= j < y ==> |tiles[j]| == cols
          invariant forall j, i :: 0 <= j < y && 0 <= i < cols ==> tiles[j][i] == RolledTile(i, j, roll(i, j))
          invariant forall i :: 0 <= i < x ==> tiles[y][i] == RolledTile(i, y, roll(i, y))
        {
          var kind := Grass;
          var walkable := true;
          if roll(x, y).tree {
            kind := Tree;
            walkable := false;
          }
          if roll(x, y).water {
            kind := Water;
            walkable := false;
          }
          tiles := tiles[y := tiles[y] + [Tile(x, y, kind, walkable)]];
          x := x + 1;
        }
        y := y + 1;
      }
      var row := tiles[1];
      tiles := tiles[1 := if |row| > 1 then row[1 := StartTile] else row + [StartTile]];
    }

    /** `isValidTarget` on the engine's grid. */
    function IsValidTarget(x: int, y: int): (valid: bool)
      reads this
      requires Valid()
      ensures valid <==> 0 <= x < |tiles[0]| && 0 <= y < |tiles| && tiles[y][x].walkable
    {
      ValidTargetIn(tiles, x, y)
    }

    /**
     * `movePlayerTo`: ignored while the player is moving; otherwise the
     * target becomes (x, y) and the player is moving. The position and the
     * speed are not touched.
     */
    method MovePlayerTo(targetX: int, targetY: int)
      modifies this`player
      ensures old(player.isMoving) ==> player == old(player)
      ensures !old(player.isMoving) ==>
        && player.targetX == targetX && player.targetY == targetY && player.isMoving
        && player.x == old(player.x) && player.y == old(player.y) && player.moveSpeed == old(player.moveSpeed)
    {
      if player.isMoving {
        return;
      }
      player := player.(targetX := targetX, targetY := targetY, isMoving := true);
    }

    /**
     * The click listener, given the tile under the pointer: a valid target
     * starts a move there; any other click changes nothing.
     */
    method OnClick(x: int, y: int)
      requires Valid()
      modifies this`player
      ensures !IsValidTarget(x, y) ==> player == old(player)
      ensures IsValidTarget(x, y) && !old(player.isMoving) ==>
        player == old(player).(targetX := x, targetY := y, isMoving := true)
      ensures old(player.isMoving) ==> player == old(player)
    {
      if IsValidTarget(x, y) {
        MovePlayerTo(x, y);
      }
    }
  }
}
