/**
 * The player actor: a FIFO buffer of tile indices to walk and an
 * idle/moving status. Each frame's post-update starts the next move when
 * the player is idle; a move ends with a completion event (the 500 ms
 * timer) that returns the player to idle. The easing animation is not
 * modelled: at completion the player stands on the centre of the tile.
 */
module Players {
  import opened Wrappers

  /** `playerActionStatus`. */
  datatype Status = Idle | Moving

  /** A position in world pixels. */
  datatype Pixel = Pixel(x: int, y: int)

  /** The player's notifications: `onMoveStart` and `onMoveComplete(tileIndex)`. */
  datatype PlayerEvent = MoveStart | MoveComplete(tileIndex: nat)

  const TileSize: int := 16
  const HalfTile: int := 8

  /**
   * `getCurrentTileIndex` at a position: `Math.floor((p - 8) / 16)` on each
   * axis (for a positive divisor Dafny's `/` is the floor), flattened
   * row-major with 10 columns.
   */
  function TileIndexAt(p: Pixel): (index: int)
    ensures 8 <= p.x < 168 && 8 <= p.y < 168 ==> 0 <= index < 100
  {
    (p.x - HalfTile) / TileSize + (p.y - HalfTile) / TileSize * 10
  }

  /**
   * The pixel `moveToTile` eases to: the centre of the tile at column
   * `index % 10`, row `Math.floor(index / 10)`. Reading the tile index back
   * at that pixel gives the index again, for every non-negative index.
   */
  function TileCentre(index: nat): (p: Pixel)
    ensures p.x % TileSize == HalfTile && p.y % TileSize == HalfTile
    ensures TileIndexAt(p) == index
    ensures index < 100 ==> 8 <= p.x < 168 && 8 <= p.y < 168
  {
    assert (index % 10) * TileSize / TileSize == index % 10;
    assert (index / 10) * TileSize / TileSize == index / 10;
    Pixel((index % 10) * TileSize + HalfTile, (index / 10) * TileSize + HalfTile)
  }

  /** A tile centre inside the world reads back as a tile whose centre it is. */
  lemma CentreReadsBack(p: Pixel)
    ensures p.x % TileSize == HalfTile && p.y % TileSize == HalfTile && 8 <= p.x < 168 && 8 <= p.y < 168 ==>
      0 <= TileIndexAt(p) < 100 && TileCentre(TileIndexAt(p)) == p
  {
    if p.x % TileSize == HalfTile && p.y % TileSize == HalfTile && 8 <= p.x < 168 && 8 <= p.y < 168 {
      var column := AxisCell(p.x);
      var row := AxisCell(p.y);
      Digits(column, row);
      assert TileCentre(column + row * 10) == Pixel(column * TileSize + HalfTile, row * TileSize + HalfTile);
    }
  }

  /** One axis: a centre coordinate inside the world is the centre of a cell in [0, 10). */
  lemma AxisCell(v: int) returns (cell: int)
    requires v % TileSize == HalfTile && 8 <= v < 168
    ensures cell == (v - HalfTile) / TileSize && 0 <= cell < 10 && v == cell * TileSize + HalfTile
  {
    cell := (v - HalfTile) / TileSize;
    assert (v - HalfTile) % TileSize == 0;
  }

  /** The column and row of a flattened index come back as its last digit and the rest. */
  lemma Digits(column: int, row: int)
    requires 0 <= column < 10 && 0 <= row
    ensures (column + row * 10) % 10 == column && (column + row * 10) / 10 == row
  {
  }

  /**
   * The player's observable state: the action buffer, the status, the tile
   * of the move in progress (its easing and completion timer), the
   * position, and the notifications sent so far.
   */
  datatype Body = Body(
    buffer: seq<nat>,
    status: Status,
    inFlight: Option<nat>,
    pos: Pixel,
    events: seq<PlayerEvent>)
  {
    /** A move is in flight exactly while the status says moving. */
    predicate Consistent() {
      status.Moving? <==> inFlight.Some?
    }
  }

  /**
   * One `onPostUpdate`: when idle with a non-empty buffer, shift the head
   * off the buffer, become moving, announce the start and start the move to
   * that tile; otherwise nothing happens.
   */
  function PostUpdate(b: Body): (r: Body)
    ensures b.status.Idle? && b.buffer != [] ==>
      && r.inFlight.Some? && b.buffer == [r.inFlight.value] + r.buffer
      && r.status.Moving?
      && r.events == b.events + [MoveStart]
      && r.pos == b.pos
    ensures !(b.status.Idle? && b.buffer != []) ==> r == b
    ensures b.Consistent() ==> r.Consistent()
  {
    if b.buffer != [] && b.status == Idle then
      b.(status := Moving, events := b.events + [MoveStart], buffer := b.buffer[1..], inFlight := Some(b.buffer[0]))
    else
      b
  }

  /**
   * The completion timer of the move in flight: back to idle, standing on
   * the target tile's centre, reporting that tile.
   */
  function Completed(b: Body): (r: Body)
    requires b.inFlight.Some?
    ensures r.status.Idle? && r.inFlight.None? && r.Consistent()
    ensures TileIndexAt(r.pos) == b.inFlight.value
    ensures r.events == b.events + [MoveComplete(b.inFlight.value)]
    ensures r.buffer == b.buffer
  {
    b.(status := Idle, inFlight := None, pos := TileCentre(b.inFlight.value),
       events := b.events + [MoveComplete(b.inFlight.value)])
  }

  /** The notifications a walk along `path` sends: a start and a completion per tile, in order. */
  function WalkEvents(path: seq<nat>): (events: seq<PlayerEvent>)
    ensures |events| == 2 * |path|
  {
    if path == [] then [] else [MoveStart, MoveComplete(path[0])] + WalkEvents(path[1..])
  }

  /** The notifications for tile k of a walk sit at 2k and 2k + 1: a start, then that tile's completion. */
  lemma {:induction false} WalkEventsAt(path: seq<nat>, k: nat)
    requires k < |path|
    ensures WalkEvents(path)[2 * k] == MoveStart
    ensures WalkEvents(path)[2 * k + 1] == MoveComplete(path[k])
    decreases k
  {
    if k > 0 {
      WalkEventsAt(path[1..], k - 1);
      assert path[1..][k - 1] == path[k];
    }
  }

  /**
   * Frames and timers alternating until the buffer is empty: from an idle
   * player, each round is one post-update that starts a move and the
   * completion of that move.
   */
  function Walk(b: Body): (r: Body)
    requires b.status.Idle? && b.inFlight.None?
    decreases |b.buffer|
  {
    if b.buffer == [] then b else Walk(Completed(PostUpdate(b)))
  }

  /**
   * Walking a buffer visits its tiles in order: the buffer ends empty, the
   * player idle on the last tile of the buffer, having reported exactly the
   * buffer's tiles, each preceded by a start.
   */
  lemma {:induction false} WalkFollowsBuffer(b: Body)
    requires b.status.Idle? && b.inFlight.None?
    ensures Walk(b).buffer == [] && Walk(b).status.Idle? && Walk(b).inFlight.None?
    ensures Walk(b).events == b.events + WalkEvents(b.buffer)
    ensures b.buffer != [] ==> TileIndexAt(Walk(b).pos) == b.buffer[|b.buffer| - 1]
    ensures b.buffer == [] ==> Walk(b).pos == b.pos
    decreases |b.buffer|
  {
    if b.buffer != [] {
      var next := Completed(PostUpdate(b));
      assert next.buffer == b.buffer[1..];
      WalkFollowsBuffer(next);
      assert b.buffer == [b.buffer[0]] + b.buffer[1..];
      calc {
        Walk(b).events;
        next.events + WalkEvents(b.buffer[1..]);
        b.events + [MoveStart, MoveComplete(b.buffer[0])] + WalkEvents(b.buffer[1..]);
        b.events + WalkEvents(b.buffer);
      }
    }
  }

  /** The `Player` actor. */
  class Player {
    /** `playerActionBuffer`. */
    var buffer: seq<nat>
    /** `playerActionStatus`. */
    var status: Status
    /** The tile of the move whose completion timer is pending. */
    var inFlight: Option<nat>
    /** `pos`. */
    var pos: Pixel
    /** Notifications sent through `events`, oldest first. */
    var events: seq<PlayerEvent>

    function State(): Body
      reads this
    {
      Body(buffer, status, inFlight, pos, events)
    }

    ghost predicate Valid()
      reads this
    {
      State().Consistent()
    }

    /** A new player stands at (8, 8), the centre of tile 0, idle with an empty buffer. */
    constructor ()
      ensures Valid()
      ensures State() == Body([], Idle, None, Pixel(8, 8), [])
      ensures CurrentTileIndex() == 0
    {
      buffer := [];
      status := Idle;
      inFlight := None;
      pos := Pixel(8, 8);
      events := [];
    }

    /** `onPostUpdate`: dequeue at most one tile, and only when idle. */
    method OnPostUpdate()
      requires Valid()
      modifies this
      ensures Valid()
      ensures State() == PostUpdate(old(State()))
    {
      if |buffer| > 0 && status == Idle {
        status := Moving;
        events := events + [MoveStart];
        var nextTile := buffer[0];
        buffer := buffer[1..];
        MoveToTile(nextTile);
      }
    }

    /** `moveToTile`: start the easing towards the tile's centre and arm the completion timer. */
    method MoveToTile(tileIndex: nat)
      modifies this`inFlight
      ensures inFlight == Some(tileIndex)
      ensures TileIndexAt(TileCentre(tileIndex)) == tileIndex
    {
      inFlight := Some(tileIndex);
    }

    /** The completion timer fires: idle again, on the tile, which is reported. */
    method CompleteMove() returns (reported: nat)
      requires Valid() && inFlight.Some?
      modifies this
      ensures Valid()
      ensures reported == old(inFlight.value)
      ensures State() == Completed(old(State()))
    {
      reported := inFlight.value;
      pos := TileCentre(reported);
      status := Idle;
      inFlight := None;
      events := events + [MoveComplete(reported)];
    }

    /** `getCurrentTileIndex`. */
    function CurrentTileIndex(): (index: int)
      reads this
      ensures pos.x % TileSize == HalfTile && pos.y % TileSize == HalfTile && 8 <= pos.x < 168 && 8 <= pos.y < 168 ==>
        0 <= index < 100 && TileCentre(index) == pos
    {
      CentreReadsBack(pos);
      TileIndexAt(pos)
    }

    /** `isMoving`. */
    function IsMoving(): (moving: bool)
      reads this
      ensures moving <==> status == Moving
      ensures Valid() ==> (moving <==> inFlight.Some?)
    {
      status == Moving
    }

    /** `clearActionBuffer`: the buffer is emptied; nothing else changes. */
    method ClearActionBuffer()
      modifies this`buffer
      ensures buffer == []
    {
      buffer := [];
    }
  }
}
