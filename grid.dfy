/**
 * MapTileGrid: the tiles covering a rectangle, kept as a nested list indexed
 * [x][y], with the accessor that wraps negative indices, the column-major
 * flattening, the four corners, the download of every tile with one retry
 * pass, the corner comparison against another grid and the stitching of
 * the tiles into one raster.
 */
module Grid {
  import opened Wrappers
  import opened Imagery
  import opened Tiles

  /** Column after column, as the comprehension in MapTileGrid.flat. */
  function Concat<T>(cols: seq<seq<T>>): seq<T>
  {
    if cols == [] then [] else Concat(cols[..|cols| - 1]) + cols[|cols| - 1]
  }

  /** `t` is an element of one of the columns. */
  ghost predicate InColumn<T>(cols: seq<seq<T>>, t: T)
  {
    exists i, j :: 0 <= i < |cols| && 0 <= j < |cols[i]| && t == cols[i][j]
  }

  /** Every element of every column is in the flattening, and every element of the flattening comes from a column. */
  lemma {:induction false} ConcatMembers<T>(cols: seq<seq<T>>)
    ensures forall i, j :: 0 <= i < |cols| && 0 <= j < |cols[i]| ==> cols[i][j] in Concat(cols)
    ensures forall k :: 0 <= k < |Concat(cols)| ==> InColumn(cols, Concat(cols)[k])
  {
    if cols != [] {
      var n := |cols| - 1;
      var init := cols[..n];
      ConcatMembers(init);
      var r := Concat(cols);
      assert r == Concat(init) + cols[n];
      forall i, j | 0 <= i < |cols| && 0 <= j < |cols[i]|
        ensures cols[i][j] in r
      {
        if i < n {
          assert init[i] == cols[i];
          assert init[i][j] in Concat(init);
        } else {
          assert r[|Concat(init)| + j] == cols[i][j];
        }
      }
      forall k | 0 <= k < |r|
        ensures InColumn(cols, r[k])
      {
        if k < |Concat(init)| {
          assert InColumn(init, Concat(init)[k]);
          var i, j :| 0 <= i < |init| && 0 <= j < |init[i]| && Concat(init)[k] == init[i][j];
          assert init[i] == cols[i];
          assert r[k] == cols[i][j];
        } else {
          assert r[k] == cols[n][k - |Concat(init)|];
        }
      }
    }
  }

  lemma ConcatAppend<T>(cols: seq<seq<T>>, col: seq<T>)
    ensures Concat(cols + [col]) == Concat(cols) + col
  {
    assert (cols + [col])[..|cols|] == cols;
  }

  lemma {:induction false} ConcatLength<T>(cols: seq<seq<T>>, h: nat)
    requires forall i :: 0 <= i < |cols| ==> |cols[i]| == h
    ensures |Concat(cols)| == |cols| * h
  {
    if cols != [] {
      var n := |cols| - 1;
      ConcatLength(cols[..n], h);
      calc {
        |Concat(cols)|;
        |Concat(cols[..n])| + h;
        n * h + h;
        { assert n * h + h == (n + 1) * h; }
        |cols| * h;
      }
    }
  }

  /** Element (x, y) of a rectangular nested list sits at x * h + y of its flattening. */
  lemma {:induction false} ConcatIndex<T>(cols: seq<seq<T>>, h: nat, x: nat, y: nat)
    requires forall i :: 0 <= i < |cols| ==> |cols[i]| == h
    requires x < |cols| && y < h
    ensures x * h + y < |Concat(cols)| && Concat(cols)[x * h + y] == cols[x][y]
  {
    var n := |cols| - 1;
    var init := cols[..n];
    ConcatLength(init, h);
    if x < n {
      ConcatIndex(init, h, x, y);
    } else {
      assert x * h + y == |Concat(init)| + y;
    }
  }

  /** Python's indexing of a list, which counts a negative index from the end. */
  function PyIndex<T>(s: seq<T>, i: int): (r: T)
    requires -|s| <= i < |s|
    ensures r == s[i % |s|]
  {
    if i < 0 then s[i + |s|] else s[i]
  }

  lemma ModWrap(x: int, w: int)
    requires 0 < w && -2 * w <= x < w
    ensures x % w == if x < -w then x + 2 * w else if x < 0 then x + w else x
  {
    var r := if x < -w then x + 2 * w else if x < 0 then x + w else x;
    var q := if x < -w then -2 else if x < 0 then -1 else 0;
    assert x == q * w + r && 0 <= r < w;
  }

  datatype DownloadOutcome =
    | Complete
    | Incomplete(missing: nat, total: nat)  // the RuntimeError raised when tiles are still missing after the retry
    | BadTileImage                          // an AssertionError from a tile loaded during the retry pass
    | Stalled                               // a tile left DOWNLOADING keeps the progress thread, and so the join, from ending

  datatype CornerError =
    | CornerUnavailable     // a corner still ERROR after its loads
    | BadCornerImage        // an AssertionError while loading a corner

  function CountStatus(s: seq<TileState>, st: Status): (n: nat)
    ensures n <= |s|
    ensures n == |s| <==> forall k :: 0 <= k < |s| ==> s[k].status == st
  {
    if s == [] then 0 else CountStatus(s[..|s| - 1], st) + (if s[|s| - 1].status == st then 1 else 0)
  }

  lemma {:induction false} CountStatusZero(s: seq<TileState>, st: Status)
    ensures CountStatus(s, st) == 0 <==> forall k :: 0 <= k < |s| ==> s[k].status != st
  {
    if s != [] {
      CountStatusZero(s[..|s| - 1], st);
      assert forall k :: 0 <= k < |s| - 1 ==> s[..|s| - 1][k] == s[k];
    }
  }

  /** The pass of the thread pool: every tile loaded once, exceptions inside the pool never surfacing. */
  function PoolPass(states: seq<TileState>, answers: seq<HttpOutcome>): (r: seq<TileState>)
    requires |answers| == |states|
    ensures |r| == |states| && forall k :: 0 <= k < |states| ==> r[k] == Loaded(states[k], answers[k]).state
  {
    seq(|states|, k requires 0 <= k < |states| => Loaded(states[k], answers[k]).state)
  }

  datatype RetryState = RetryState(states: seq<TileState>, raised: bool)

  /**
   * The retry pass over the first i tiles: each tile that was ERROR after the
   * pool pass is loaded once more, in flat order, until a load raises.
   */
  function Retried(s: seq<TileState>, answers: seq<HttpOutcome>, i: nat): (r: RetryState)
    requires |answers| == |s| && i <= |s|
    ensures |r.states| == |s|
    ensures forall k :: i <= k < |s| ==> r.states[k] == s[k]
    decreases i
  {
    if i == 0 then RetryState(s, false)
    else
      var prev := Retried(s, answers, i - 1);
      if prev.raised || s[i - 1].status != Error then prev
      else
        var o := Loaded(prev.states[i - 1], answers[i - 1]);
        RetryState(prev.states[i - 1 := o.state], o.raised)
  }

  /** The tiles after the first i are untouched, each earlier tile is either untouched or retried once. */
  lemma {:induction false} RetriedShape(s: seq<TileState>, answers: seq<HttpOutcome>, i: nat)
    requires |answers| == |s| && i <= |s|
    ensures forall k :: i <= k < |s| ==> Retried(s, answers, i).states[k] == s[k]
    ensures forall k :: 0 <= k < i ==>
              Retried(s, answers, i).states[k] == s[k]
              || (s[k].status == Error && Retried(s, answers, i).states[k] == Loaded(s[k], answers[k]).state)
    ensures !Retried(s, answers, i).raised ==>
              forall k :: 0 <= k < i && s[k].status == Error ==> Retried(s, answers, i).states[k] == Loaded(s[k], answers[k]).state
    ensures Retried(s, answers, i).raised ==> exists k :: 0 <= k < i && Retried(s, answers, i).states[k].status == Downloading
    decreases i
  {
    if i > 0 {
      RetriedShape(s, answers, i - 1);
      var prev := Retried(s, answers, i - 1);
      if prev.raised {
        var k :| 0 <= k < i - 1 && prev.states[k].status == Downloading;
        assert Retried(s, answers, i).states[k].status == Downloading;
      } else if s[i - 1].status == Error {
        assert Retried(s, answers, i).raised ==> Retried(s, answers, i).states[i - 1].status == Downloading;
      }
    }
  }

  /** Once a retried load has raised, the rest of the retry pass does not happen. */
  lemma {:induction false} RetriedStopsAfterRaise(s: seq<TileState>, answers: seq<HttpOutcome>, i: nat, j: nat)
    requires |answers| == |s| && i <= j <= |s|
    requires Retried(s, answers, i).raised
    ensures Retried(s, answers, j) == Retried(s, answers, i)
    decreases j
  {
    if j > i {
      RetriedStopsAfterRaise(s, answers, i, j - 1);
    }
  }

  lemma {:induction false} RetriedKeepsPendingAway(s: seq<TileState>, answers: seq<HttpOutcome>, i: nat)
    requires |answers| == |s| && i <= |s|
    requires forall k :: 0 <= k < |s| ==> s[k].status != Pending
    ensures forall k :: 0 <= k < |s| ==> Retried(s, answers, i).states[k].status != Pending
  {
    RetriedShape(s, answers, i);
  }

  /** The threshold of the retry: 0 < missing < 0.2 * total, which over integers is 5 * missing < total. */
  predicate RetryWanted(missing: nat, total: nat)
    ensures RetryWanted(missing, total) <==> 0 < missing && (missing as real) < 0.2 * (total as real)
  {
    0 < missing && 5 * missing < total
  }

  datatype GridDownloadResult = GridDownloadResult(states: seq<TileState>, retried: bool, outcome: DownloadOutcome)

  /** MapTileGrid.download on the states of the flattened grid. */
  function GridDownload(states: seq<TileState>, pool: seq<HttpOutcome>, retry: seq<HttpOutcome>): (r: GridDownloadResult)
    requires |pool| == |states| && |retry| == |states|
    ensures |r.states| == |states|
    ensures r.retried <==> RetryWanted(CountStatus(PoolPass(states, pool), Error), |states|)
  {
    var afterPool := PoolPass(states, pool);
    var retried := RetryWanted(CountStatus(afterPool, Error), |states|);
    var after := if retried then Retried(afterPool, retry, |afterPool|) else RetryState(afterPool, false);
    var outcome :=
      if after.raised then BadTileImage
      else if CountStatus(after.states, Downloading) > 0 then Stalled
      else if CountStatus(after.states, Error) > 0 then Incomplete(CountStatus(after.states, Error), |states|)
      else Complete;
    GridDownloadResult(after.states, retried, outcome)
  }

  /** A grid download reports success exactly when every tile has been downloaded. */
  lemma GridDownloadCompleteIffAllDownloaded(states: seq<TileState>, pool: seq<HttpOutcome>, retry: seq<HttpOutcome>)
    requires |pool| == |states| && |retry| == |states|
    ensures GridDownload(states, pool, retry).outcome == Complete
            <==> forall k :: 0 <= k < |states| ==> GridDownload(states, pool, retry).states[k].status == Downloaded
  {
    var afterPool := PoolPass(states, pool);
    var r := GridDownload(states, pool, retry);
    RetriedKeepsPendingAway(afterPool, retry, |afterPool|);
    RetriedShape(afterPool, retry, |afterPool|);
    CountStatusZero(r.states, Downloading);
    CountStatusZero(r.states, Error);
    if r.outcome == Complete {
      forall k | 0 <= k < |states|
        ensures r.states[k].status == Downloaded
      {
        assert r.states[k].status != Pending;
      }
    }
  }

  /** A tile that was downloaded before the grid download is left exactly as it was: it is never fetched again. */
  lemma GridDownloadKeepsDownloaded(states: seq<TileState>, pool: seq<HttpOutcome>, retry: seq<HttpOutcome>, k: nat)
    requires |pool| == |states| && |retry| == |states| && k < |states|
    requires states[k].status == Downloaded
    ensures GridDownload(states, pool, retry).states[k] == states[k]
  {
    var afterPool := PoolPass(states, pool);
    RetriedShape(afterPool, retry, |afterPool|);
  }

  /** Every tile keeps holding a tile-sized RGB image once it is downloaded. */
  lemma GridDownloadKeepsTilesOk(states: seq<TileState>, pool: seq<HttpOutcome>, retry: seq<HttpOutcome>)
    requires |pool| == |states| && |retry| == |states|
    requires forall k :: 0 <= k < |states| ==> TileOk(states[k])
    ensures forall k :: 0 <= k < |states| ==> TileOk(GridDownload(states, pool, retry).states[k])
  {
    var afterPool := PoolPass(states, pool);
    RetriedShape(afterPool, retry, |afterPool|);
  }

  /**
   * The retry touches only tiles that were ERROR after the pool pass, each at
   * most once; without a retry the states are those the pool pass left, and
   * a retry that raised nothing has reloaded every such tile.
   */
  lemma GridDownloadRetriesOnlyErrors(states: seq<TileState>, pool: seq<HttpOutcome>, retry: seq<HttpOutcome>, k: nat)
    requires |pool| == |states| && |retry| == |states| && k < |states|
    ensures var afterPool := PoolPass(states, pool);
            var r := GridDownload(states, pool, retry);
            && (r.states[k] == afterPool[k]
                || (r.retried && afterPool[k].status == Error && r.states[k] == Loaded(afterPool[k], retry[k]).state))
            && (!r.retried ==> r.states[k] == afterPool[k])
            && ((r.retried && r.outcome != BadTileImage && afterPool[k].status == Error)
                  ==> r.states[k] == Loaded(afterPool[k], retry[k]).state)
  {
    var afterPool := PoolPass(states, pool);
    RetriedShape(afterPool, retry, |afterPool|);
  }

  /** When the pool pass leaves 20% or more of the tiles missing there is no retry and the download fails. */
  lemma GridDownloadGivesUpOnManyMissing(states: seq<TileState>, pool: seq<HttpOutcome>, retry: seq<HttpOutcome>)
    requires |pool| == |states| && |retry| == |states|
    requires 5 * CountStatus(PoolPass(states, pool), Error) >= |states| > 0
    ensures !GridDownload(states, pool, retry).retried
    ensures GridDownload(states, pool, retry).outcome != Complete
  {
    var afterPool := PoolPass(states, pool);
    CountStatusZero(afterPool, Error);
    GridDownloadCompleteIffAllDownloaded(states, pool, retry);
    var k :| 0 <= k < |afterPool| && afterPool[k].status == Error;
    assert GridDownload(states, pool, retry).states[k].status == Error;
  }

  /** A download keeps every DOWNLOADED tile as it was, and a complete one leaves every tile ready. */
  lemma GridDownloadReady(states: seq<TileState>, pool: seq<HttpOutcome>, retry: seq<HttpOutcome>)
    requires |pool| == |states| && |retry| == |states| && AllOk(states)
    ensures KeepsDownloaded(states, GridDownload(states, pool, retry).states)
    ensures GridDownload(states, pool, retry).outcome == Complete ==> AllReady(GridDownload(states, pool, retry).states)
  {
    forall k | 0 <= k < |states| && states[k].status == Downloaded
      ensures GridDownload(states, pool, retry).states[k] == states[k]
    {
      GridDownloadKeepsDownloaded(states, pool, retry, k);
    }
    GridDownloadKeepsTilesOk(states, pool, retry);
    GridDownloadCompleteIffAllDownloaded(states, pool, retry);
  }

  /** The states of the n tiles of a grid just built: PENDING, without an image. */
  function PendingStates(n: nat): (s: seq<TileState>)
    ensures |s| == n && AllOk(s)
  {
    seq(n, _ => TileState(Pending, None))
  }

  function StatesOf(tiles: seq<MapTile>): (r: seq<TileState>)
    reads tiles
    ensures |r| == |tiles| && forall k :: 0 <= k < |tiles| ==> r[k] == tiles[k].State()
  {
    seq(|tiles|, k reads tiles requires 0 <= k < |tiles| => tiles[k].State())
  }

  lemma TileCoordinates(X: int, x: int)
    requires x * TileSize <= X < x * TileSize + TileSize
    ensures X / TileSize == x && X % TileSize == X - x * TileSize
  {
  }

  class MapTileGrid {
    const maptiles: seq<seq<MapTile>>
    const width: nat
    const height: nat
    /** The tiles column after column, fixed when the grid is built. */
    const flat: seq<MapTile>
    var image: array2?<Rgb>

    /** At least one column, every column as long as the first, and `flat` their concatenation. */
    predicate Rectangular()
    {
      0 < width && width == |maptiles| && 0 < height
      && (forall x :: 0 <= x < width ==> |maptiles[x]| == height)
      && flat == Concat(maptiles)
    }

    /** MapTileGrid.flat: the tiles column after column. */
    function Flat(): (r: seq<MapTile>)
      ensures Rectangular() ==> |r| == width * height && height <= |r|
    {
      if Rectangular() then ConcatLength(maptiles, height); flat else flat
    }

    /** Tile [x][y] sits at x * height + y of the flattened grid. */
    lemma FlatAt(x: nat, y: nat)
      requires Rectangular() && x < width && y < height
      ensures x * height + y < |Flat()| && Flat()[x * height + y] == maptiles[x][y]
    {
      ConcatIndex(maptiles, height, x, y);
    }

    function Tiles(): set<MapTile>
    {
      set t | t in Flat()
    }

    /** No tile object occurs twice in the grid. */
    predicate Distinct()
    {
      DistinctTiles(Flat())
    }

    ghost predicate Valid()
      reads Tiles()
    {
      Rectangular() && Distinct() && AllOk(States())
    }

    function States(): (r: seq<TileState>)
      reads Tiles()
      ensures |r| == |Flat()| && forall k :: 0 <= k < |Flat()| ==> r[k] == Flat()[k].State()
    {
      StatesOf(Flat())
    }

    /**
     * MapTileGrid.from_georect, with the corner tiles' coordinates as inputs:
     * columns x = swX..neX, each holding the tiles y = neY..swY, all PENDING.
     * The Web Mercator y decreases with latitude, so a rectangle with
     * sw.lat <= ne.lat always has neY <= swY.
     */
    constructor FromGeorect(swX: int, swY: int, neX: int, neY: int, zoom: int, version: nat)
      requires swX <= neX && neY <= swY
      ensures Valid() && fresh(Tiles()) && image == null
      ensures width == neX - swX + 1 && height == swY - neY + 1
      ensures forall i, j :: 0 <= i < width && 0 <= j < height ==>
                && maptiles[i][j].x == swX + i && maptiles[i][j].y == neY + j
                && maptiles[i][j].version == version && maptiles[i][j].zoom == zoom
      ensures forall t :: t in Tiles() ==> t.State() == TileState(Pending, None)
      ensures States() == PendingStates(|Flat()|)
    {
      var cols: seq<seq<MapTile>> := [];
      ghost var made: seq<MapTile> := [];
      var x := swX;
      while x <= neX
        invariant swX <= x <= neX + 1 && |cols| == x - swX && made == Concat(cols)
        invariant forall i :: 0 <= i < |cols| ==> |cols[i]| == swY - neY + 1
        invariant forall i, j :: 0 <= i < |cols| && 0 <= j < |cols[i]| ==>
                    && cols[i][j].x == swX + i && cols[i][j].y == neY + j
                    && cols[i][j].version == version && cols[i][j].zoom == zoom
        invariant forall a :: 0 <= a < |made| ==> allocated(made[a]) && fresh(made[a]) && made[a].State() == TileState(Pending, None)
        invariant DistinctTiles(made)
      {
        var col := NewColumn(x, neY, swY, zoom, version);
        ghost var before := made;
        assert forall a, b :: 0 <= a < |before| && 0 <= b < |col| ==> before[a] != col[b];
        made := made + col;
        ConcatAppend(cols, col);
        cols := cols + [col];
        x := x + 1;
      }
      maptiles := cols;
      width := |cols|;
      height := |cols[0]|;
      flat := Concat(cols);
      image := null;
      new;
      assert Flat() == made;
    }

    /** MapTileGrid.at: a negative index counts from the end, so x and y wrap modulo the grid's size. */
    function At(x: int, y: int): (t: MapTile)
      requires Rectangular()
      requires -2 * width <= x < width && -2 * height <= y < height
      ensures t == maptiles[x % width][y % height]
    {
      var x' := if x < 0 then x + width else x;
      var y' := if y < 0 then y + height else y;
      ModWrap(x, width);
      ModWrap(y, height);
      PyIndex(PyIndex(maptiles, x'), y')
    }

    /** MapTileGrid.corners: at(x, y) for x in [0, -1] for y in [0, -1]. */
    function Corners(): (r: seq<MapTile>)
      requires Rectangular()
      ensures r == [maptiles[0][0], maptiles[0][height - 1], maptiles[width - 1][0], maptiles[width - 1][height - 1]]
      ensures width == 1 ==> r[0] == r[2] && r[1] == r[3]
      ensures height == 1 ==> r[0] == r[1] && r[2] == r[3]
    {
      [At(0, 0), At(0, -1), At(-1, 0), At(-1, -1)]
    }

    /** Corner k of the grid is the tile at flat index CornerIndices(|Flat()|, height)[k]. */
    lemma CornerTiles()
      requires Rectangular()
      ensures 0 < height <= |Flat()|
      ensures forall k :: 0 <= k < 4 ==> Corners()[k] == Flat()[CornerIndices(|Flat()|, height)[k]]
    {
      assert (width - 1) * height == width * height - height;
      FlatAt(0, 0);
      FlatAt(0, height - 1);
      FlatAt(width - 1, 0);
      FlatAt(width - 1, height - 1);
    }
    predicate CornersReady()
      requires Rectangular()
      reads Tiles()
    {
      AllReady(CornerStates(States(), height))
    }

    /** The verdict of cornersIdentical on grids whose corners are all ready. */
    predicate CornersAlikeWith(other: MapTileGrid)
      requires Rectangular() && other.Rectangular() && CornersReady() && other.CornersReady()
      reads Tiles(), other.Tiles()
    {
      CornerStatesAlike(CornerStates(States(), height), CornerStates(other.States(), other.height))
    }

    predicate AllDownloaded()
      requires Rectangular()
      reads Tiles()
    {
      AllReady(States())
    }

    /**
     * MapTileGrid.download, with the pool of threads run as one pass over the
     * tiles: `pool[k]` answers the pool's request for flat tile k and
     * `retry[k]` the retry pass's request for it.
     */
    method Download(pool: seq<HttpOutcome>, retry: seq<HttpOutcome>) returns (outcome: DownloadOutcome)
      requires Valid() && |pool| == |Flat()| && |retry| == |Flat()|
      modifies Tiles()
      ensures Valid()
      ensures States() == GridDownload(old(States()), pool, retry).states
      ensures outcome == GridDownload(old(States()), pool, retry).outcome
      ensures outcome == Complete ==> AllDownloaded()
    {
      var tiles := Flat();
      ghost var s0 := States();
      outcome := DownloadTiles(tiles, pool, retry);
      GridDownloadKeepsTilesOk(s0, pool, retry);
      if outcome == Complete {
        GridDownloadCompleteIffAllDownloaded(s0, pool, retry);
      }
    }

    /** Tile [x][y] of a grid whose tiles are all downloaded is ready. */
    lemma ReadyAt(x: nat, y: nat)
      requires Rectangular() && AllDownloaded() && x < width && y < height
      ensures Ready(maptiles[x][y].State())
    {
      FlatAt(x, y);
    }

    /**
     * MapTileGrid.cornersIdentical: corner k of this grid is paired with
     * corner k of `other`; each pair is loaded twice (answers[4k] to
     * answers[4k + 3], in the order of the source's calls), a pair with a
     * tile still in ERROR raises, and otherwise the verdict is whether the
     * summed difference stays below 256^2.  The two grids share no tile.
     */
    method CornersIdentical(other: MapTileGrid, answers: seq<HttpOutcome>) returns (r: Result<bool, CornerError>)
      requires Valid() && other.Valid() && |answers| == 16 && Tiles() !! other.Tiles()
      modifies Tiles(), other.Tiles()
      ensures Valid() && other.Valid()
      ensures var c := CornersCompared(old(States()), old(other.States()),
                                       CornerIndices(|Flat()|, height), CornerIndices(|other.Flat()|, other.height), answers);
              States() == c.mine && other.States() == c.theirs && r == c.verdict
      ensures r.Success? ==> CornersReady() && other.CornersReady() && r.value == CornersAlikeWith(other)
    {
      var mine, theirs := Corners(), other.Corners();
      CornerTiles();
      other.CornerTiles();
      ghost var s0, o0 := States(), other.States();
      assert Apart(Flat(), other.Flat()) by {
        forall a, b | 0 <= a < |Flat()| && 0 <= b < |other.Flat()|
          ensures Flat()[a] != other.Flat()[b]
        {
          assert Flat()[a] in Tiles() && other.Flat()[b] in other.Tiles();
        }
      }
      r := CompareCorners(Flat(), other.Flat(), mine, theirs,
                          CornerIndices(|Flat()|, height), CornerIndices(|other.Flat()|, other.height), answers);
      CornersComparedVerdict(s0, o0, height, other.height, answers);
    }
    /** Pixel (X, Y) of the stitched raster: pixel (X mod 256, Y mod 256) of tile [X div 256][Y div 256]. */
    ghost function Stitched(X: int, Y: int): Rgb
      requires Rectangular() && AllDownloaded()
      requires 0 <= X < width * TileSize && 0 <= Y < height * TileSize
      reads Tiles()
    {
      StitchedPixel(States(), width, height, X, Y)
    }

    /** The inner loop of MapTileGrid.stitch: the tiles of column x pasted into `out`. */
    method PasteColumn(out: array2<Rgb>, x: nat)
      requires Rectangular() && AllDownloaded() && x < width
      requires out.Length0 == width * TileSize && out.Length1 == height * TileSize
      modifies out
      ensures forall X, Y :: 0 <= X < out.Length0 && 0 <= Y < out.Length1 ==>
                out[X, Y] == if x * TileSize <= X < x * TileSize + TileSize then Stitched(X, Y) else old(out[X, Y])
    {
      var y := 0;
      while y < height
        invariant 0 <= y <= height
        invariant forall X, Y :: 0 <= X < out.Length0 && 0 <= Y < out.Length1 ==>
                    out[X, Y] == if x * TileSize <= X < x * TileSize + TileSize && Y < y * TileSize
                                 then Stitched(X, Y) else old(out[X, Y])
      {
        ReadyAt(x, y);
        Paste(out, maptiles[x][y].image.value, x * TileSize, y * TileSize);
        forall X, Y | x * TileSize <= X < x * TileSize + TileSize && y * TileSize <= Y < y * TileSize + TileSize
          ensures Stitched(X, Y) == maptiles[x][y].image.value.rows[Y - y * TileSize][X - x * TileSize]
        {
          TileCoordinates(X, x);
          TileCoordinates(Y, y);
          FlatAt(x, y);
        }
        y := y + 1;
      }
    }

    /**
     * MapTileGrid.stitch: a black RGB raster of (width * 256) x (height * 256)
     * pixels with tile [x][y] pasted at (x * 256, y * 256).
     */
    method Stitch()
      requires Valid() && AllDownloaded()
      modifies this
      ensures image != null && fresh(image)
      ensures image.Length0 == width * TileSize && image.Length1 == height * TileSize
      ensures forall X, Y :: 0 <= X < image.Length0 && 0 <= Y < image.Length1 ==> image[X, Y] == Stitched(X, Y)
    {
      var w, h := width * TileSize, height * TileSize;
      var out := new Rgb[w, h]((_, _) => Black);
      var x := 0;
      while x < width
        invariant 0 <= x <= width && AllDownloaded()
        invariant forall X, Y :: 0 <= X < w && 0 <= Y < h ==>
                    out[X, Y] == if X < x * TileSize then Stitched(X, Y) else Black
      {
        PasteColumn(out, x);
        x := x + 1;
      }
      image := out;
    }
  }

  /**
   * The flat indices of the corners [0][0], [0][-1], [-1][0] and [-1][-1] of
   * a grid of n tiles flattened column by column, each column of `height` tiles.
   */
  function CornerIndices(n: nat, height: nat): (ci: seq<nat>)
    requires 0 < height <= n
    ensures CornerIndexed(ci, n)
  {
    [0, height - 1, n - height, n - 1]
  }

  /** Four indices into a sequence of n elements. */
  predicate CornerIndexed(ci: seq<nat>, n: nat)
  {
    |ci| == 4 && forall k :: 0 <= k < 4 ==> ci[k] < n
  }

  /** The states of the four corners of a grid flattened column by column, each column of `height` tiles. */
  function CornerStates(s: seq<TileState>, height: nat): (c: seq<TileState>)
    requires 0 < height <= |s|
    ensures |c| == 4 && (AllReady(s) ==> AllReady(c))
    ensures height == |s| ==> c[2] == c[0] && c[3] == c[1]
    ensures height == 1 ==> c[1] == c[0] && c[3] == c[2]
  {
    var ci := CornerIndices(|s|, height);
    [s[ci[0]], s[ci[1]], s[ci[2]], s[ci[3]]]
  }


  /** Every DOWNLOADED tile of `s` is unchanged in `s'`. */
  predicate KeepsDownloaded(s: seq<TileState>, s': seq<TileState>)
  {
    |s'| == |s| && forall k :: 0 <= k < |s| && s[k].status == Downloaded ==> s'[k] == s[k]
  }

  /** Corners that were ready survive a pass that keeps DOWNLOADED tiles. */
  lemma CornerStatesKept(s: seq<TileState>, s': seq<TileState>, height: nat)
    requires 0 < height <= |s|
    requires AllReady(CornerStates(s, height)) && KeepsDownloaded(s, s')
    ensures CornerStates(s', height) == CornerStates(s, height)
  {
    var c := CornerStates(s, height);
    assert Ready(c[0]) && Ready(c[1]) && Ready(c[2]) && Ready(c[3]);
  }

  /** The verdict of cornersIdentical on four pairs of ready corner tiles. */
  predicate CornerStatesAlike(a: seq<TileState>, b: seq<TileState>)
    requires |a| == 4 && |b| == 4 && AllReady(a) && AllReady(b)
  {
    var mine, theirs := Images(a), Images(b);
    assert PairwiseComparable(mine, theirs) by {
      forall k | 0 <= k < 4
        ensures mine[k].width == theirs[k].width && mine[k].height == theirs[k].height
      {
        assert IsTileImage(mine[k]) && IsTileImage(theirs[k]);
      }
    }
    CornersAlike(mine, theirs)
  }

  /**
   * Pixel (X, Y) of the raster stitched from the states of a width x height
   * grid: pixel (X mod 256, Y mod 256) of tile [X div 256][Y div 256].
   */
  ghost function StitchedPixel(s: seq<TileState>, width: nat, height: nat, X: int, Y: int): (r: Rgb)
    requires |s| == width * height && AllReady(s)
    requires 0 <= X < width * TileSize && 0 <= Y < height * TileSize
    ensures width == 1 && height == 1 ==> r == s[0].image.value.rows[Y][X]
  {
    TileCoordinates(X, X / TileSize);
    TileCoordinates(Y, Y / TileSize);
    FlatIndex(X / TileSize, Y / TileSize, width, height);
    s[(X / TileSize) * height + Y / TileSize].image.value.rows[Y % TileSize][X % TileSize]
  }

  /** Cell (x, y) of a width x height grid flattened column by column. */
  lemma FlatIndex(x: nat, y: nat, width: nat, height: nat)
    requires x < width && y < height
    ensures x * height + y < width * height
  {
    assert x * height + y < x * height + height == (x + 1) * height <= width * height;
  }

  /** Image.paste of a tile at (ox, oy): the covered pixels are the tile's, every other pixel is kept. */
  method Paste(out: array2<Rgb>, p: Picture, ox: nat, oy: nat)
    requires IsTileImage(p) && ox + TileSize <= out.Length0 && oy + TileSize <= out.Length1
    modifies out
    ensures forall X, Y :: 0 <= X < out.Length0 && 0 <= Y < out.Length1 ==>
              out[X, Y] == if ox <= X < ox + TileSize && oy <= Y < oy + TileSize then p.rows[Y - oy][X - ox]
                           else old(out[X, Y])
  {
    var py := 0;
    while py < TileSize
      invariant 0 <= py <= TileSize
      invariant forall X, Y :: 0 <= X < out.Length0 && 0 <= Y < out.Length1 ==>
                  out[X, Y] == if ox <= X < ox + TileSize && oy <= Y < oy + py then p.rows[Y - oy][X - ox]
                               else old(out[X, Y])
    {
      var px := 0;
      while px < TileSize
        invariant 0 <= px <= TileSize
        invariant forall X, Y :: 0 <= X < out.Length0 && 0 <= Y < out.Length1 ==>
                    out[X, Y] == if ox <= X < ox + TileSize && oy <= Y < oy + py then p.rows[Y - oy][X - ox]
                                 else if ox <= X < ox + px && Y == oy + py then p.rows[Y - oy][X - ox]
                                 else old(out[X, Y])
      {
        out[ox + px, oy + py] := p.rows[py][px];
        px := px + 1;
      }
      py := py + 1;
    }
  }

  predicate DistinctTiles(tiles: seq<MapTile>)
  {
    forall i, j :: 0 <= i < j < |tiles| ==> tiles[i] != tiles[j]
  }

  /** Column x of a new grid: fresh PENDING tiles for y = top..bottom. */
  method NewColumn(x: int, top: int, bottom: int, zoom: int, version: nat) returns (col: seq<MapTile>)
    requires top <= bottom
    ensures |col| == bottom - top + 1 && DistinctTiles(col)
    ensures forall j :: 0 <= j < |col| ==>
              && fresh(col[j]) && col[j].State() == TileState(Pending, None)
              && col[j].x == x && col[j].y == top + j && col[j].version == version && col[j].zoom == zoom
  {
    col := [];
    var y := top;
    while y <= bottom
      invariant top <= y <= bottom + 1 && |col| == y - top && DistinctTiles(col)
      invariant forall j :: 0 <= j < |col| ==>
                  && fresh(col[j]) && col[j].State() == TileState(Pending, None)
                  && col[j].x == x && col[j].y == top + j && col[j].version == version && col[j].zoom == zoom
    {
      var t := new MapTile(version, zoom, x, y);
      col := col + [t];
      y := y + 1;
    }
  }

  /** The pool pass: every tile loaded once; whatever a load raises stays inside its future. */
  method LoadAll(tiles: seq<MapTile>, answers: seq<HttpOutcome>)
    requires DistinctTiles(tiles) && |answers| == |tiles|
    modifies tiles
    ensures StatesOf(tiles) == PoolPass(old(StatesOf(tiles)), answers)
  {
    ghost var s0 := StatesOf(tiles);
    var i := 0;
    while i < |tiles|
      invariant 0 <= i <= |tiles|
      invariant forall k :: 0 <= k < |tiles| ==> tiles[k].State() == (if k < i then Loaded(s0[k], answers[k]).state else s0[k])
    {
      var _ := tiles[i].Load(answers[i]);
      i := i + 1;
    }
  }

  /** MapTileGrid.download on the flattened grid. */
  method DownloadTiles(tiles: seq<MapTile>, pool: seq<HttpOutcome>, retry: seq<HttpOutcome>) returns (outcome: DownloadOutcome)
    requires DistinctTiles(tiles) && |pool| == |tiles| && |retry| == |tiles|
    modifies tiles
    ensures StatesOf(tiles) == GridDownload(old(StatesOf(tiles)), pool, retry).states
    ensures outcome == GridDownload(old(StatesOf(tiles)), pool, retry).outcome
  {
    var raised := LoadAndRetry(tiles, pool, retry);
    // the progress thread is joined here; it ends once no tile is PENDING or DOWNLOADING
    if raised {
      outcome := BadTileImage;
    } else {
      var stuck := Count(tiles, Downloading);
      var failed := Count(tiles, Error);
      if stuck > 0 {
        outcome := Stalled;
      } else if failed > 0 {
        outcome := Incomplete(failed, |tiles|);
      } else {
        outcome := Complete;
      }
    }
  }

  /** The pool pass, then the retry pass when fewer than a fifth of the tiles are missing. */
  method LoadAndRetry(tiles: seq<MapTile>, pool: seq<HttpOutcome>, retry: seq<HttpOutcome>) returns (raised: bool)
    requires DistinctTiles(tiles) && |pool| == |tiles| && |retry| == |tiles|
    modifies tiles
    ensures StatesOf(tiles) == GridDownload(old(StatesOf(tiles)), pool, retry).states
    ensures raised <==> GridDownload(old(StatesOf(tiles)), pool, retry).outcome == BadTileImage
  {
    ghost var s0 := StatesOf(tiles);
    LoadAll(tiles, pool);
    var missing := Count(tiles, Error);
    raised := false;
    if 0 < missing && 5 * missing < |tiles| {
      raised := RetryErrors(tiles, retry);
    }
  }

  /** The number of tiles with status `st`. */
  method Count(tiles: seq<MapTile>, st: Status) returns (n: nat)
    ensures n == CountStatus(StatesOf(tiles), st)
  {
    ghost var s := StatesOf(tiles);
    n := 0;
    var i := 0;
    while i < |tiles|
      invariant 0 <= i <= |tiles| && n == CountStatus(s[..i], st)
    {
      assert s[..i + 1][..i] == s[..i];
      if tiles[i].status == st {
        n := n + 1;
      }
      i := i + 1;
    }
    assert s[..|tiles|] == s;
  }

  /** The retry pass: every tile that is ERROR loaded once more, in order, stopping at the first load that raises. */
  method RetryErrors(tiles: seq<MapTile>, answers: seq<HttpOutcome>) returns (raised: bool)
    requires DistinctTiles(tiles) && |answers| == |tiles|
    modifies tiles
    ensures StatesOf(tiles) == Retried(old(StatesOf(tiles)), answers, |tiles|).states
    ensures raised == Retried(old(StatesOf(tiles)), answers, |tiles|).raised
  {
    ghost var s0 := StatesOf(tiles);
    var i := 0;
    raised := false;
    while i < |tiles| && !raised
      invariant 0 <= i <= |tiles|
      invariant raised == Retried(s0, answers, i).raised
      invariant forall k :: 0 <= k < |tiles| ==> tiles[k].State() == Retried(s0, answers, i).states[k]
    {
      raised := RetryOne(tiles, answers, i, s0);
      i := i + 1;
    }
    if raised {
      RetriedStopsAfterRaise(s0, answers, i, |tiles|);
    }
  }

  /** Step i of the retry pass: tile i is loaded again if it is ERROR. */
  method RetryOne(tiles: seq<MapTile>, answers: seq<HttpOutcome>, i: nat, ghost s0: seq<TileState>) returns (raised: bool)
    requires DistinctTiles(tiles) && |answers| == |tiles| == |s0| && i < |tiles|
    requires !Retried(s0, answers, i).raised
    requires forall k :: 0 <= k < |tiles| ==> tiles[k].State() == Retried(s0, answers, i).states[k]
    modifies tiles[i]
    ensures raised == Retried(s0, answers, i + 1).raised
    ensures forall k :: 0 <= k < |tiles| ==> tiles[k].State() == Retried(s0, answers, i + 1).states[k]
  {
    raised := false;
    if tiles[i].status == Error {
      raised := tiles[i].Load(answers[i]);
    }
  }

  predicate AllOk(s: seq<TileState>)
  {
    forall i :: 0 <= i < |s| ==> TileOk(s[i])
  }

  predicate AllReady(s: seq<TileState>)
  {
    forall j :: 0 <= j < |s| ==> Ready(s[j])
  }

  /** The images of tiles that are all ready. */
  function Images(s: seq<TileState>): (ps: seq<Picture>)
    requires AllReady(s)
    ensures |ps| == |s| && forall j :: 0 <= j < |s| ==> s[j].image == Some(ps[j]) && IsTileImage(ps[j])
  {
    seq(|s|, j requires 0 <= j < |s| && AllReady(s) => s[j].image.value)
  }

  /** Every picture of `ps` is a tile image. */
  predicate TileImages(ps: seq<Picture>)
  {
    forall j :: 0 <= j < |ps| ==> IsTileImage(ps[j])
  }

  /** The states of a pair of corresponding corners after their round, and whether a load raised. */
  datatype PairResult = PairResult(a: TileState, b: TileState, raised: bool)

  /**
   * One round of the loop of cornersIdentical on two distinct tiles: a, b,
   * a and b are loaded with answers[0] to answers[3], in that order, and the
   * first load that raises ends the round.
   */
  function PairLoaded(sa: TileState, sb: TileState, answers: seq<HttpOutcome>): (r: PairResult)
    requires |answers| == 4
    ensures TileOk(sa) && TileOk(sb) ==> TileOk(r.a) && TileOk(r.b)
    ensures sa.status == Downloaded ==> r.a == sa
    ensures sb.status == Downloaded ==> r.b == sb
    ensures r.raised <==> r.a.status == Downloading || r.b.status == Downloading
    ensures !r.raised ==> r.a.status in {Downloaded, Error} && r.b.status in {Downloaded, Error}
  {
    var a1 := Loaded(sa, answers[0]);
    if a1.raised then PairResult(a1.state, sb, true)
    else
      var b1 := Loaded(sb, answers[1]);
      if b1.raised then PairResult(a1.state, b1.state, true)
      else
        var a2 := Loaded(a1.state, answers[2]);
        if a2.raised then PairResult(a2.state, b1.state, true)
        else
          var b2 := Loaded(b1.state, answers[3]);
          PairResult(a2.state, b2.state, b2.raised)
  }

  /**
   * The loop of cornersIdentical after its first k rounds: the states of
   * both flattened grids, the images of the corners compared so far, and
   * the error that ended the loop, if any.
   */
  datatype Rounds = Rounds(mine: seq<TileState>, theirs: seq<TileState>, mp: seq<Picture>, tp: seq<Picture>,
                           error: Option<CornerError>)

  /**
   * The first k rounds of cornersIdentical on the states `s` and `o` of two
   * grids that share no tile, whose corners sit at the flat indices `ci`
   * and `cj`; answers[4j] to answers[4j + 3] answer round j.
   */
  function CornerRounds(s: seq<TileState>, o: seq<TileState>, ci: seq<nat>, cj: seq<nat>,
                        answers: seq<HttpOutcome>, k: nat): (r: Rounds)
    requires CornerIndexed(ci, |s|) && CornerIndexed(cj, |o|) && AllOk(s) && AllOk(o)
    requires |answers| == 16 && k <= 4
    ensures |r.mine| == |s| && |r.theirs| == |o| && AllOk(r.mine) && AllOk(r.theirs)
    ensures r.error.None? ==> |r.mp| == k && |r.tp| == k && TileImages(r.mp) && TileImages(r.tp)
    decreases k
  {
    if k == 0 then Rounds(s, o, [], [], None)
    else
      var r := CornerRounds(s, o, ci, cj, answers, k - 1);
      if r.error.Some? then r
      else
        var i, j := ci[k - 1], cj[k - 1];
        var pair := PairLoaded(r.mine[i], r.theirs[j], answers[4 * (k - 1)..4 * k]);
        var mine, theirs := r.mine[i := pair.a], r.theirs[j := pair.b];
        if pair.raised then Rounds(mine, theirs, r.mp, r.tp, Some(BadCornerImage))
        else if pair.a.status == Error || pair.b.status == Error then Rounds(mine, theirs, r.mp, r.tp, Some(CornerUnavailable))
        else Rounds(mine, theirs, r.mp + [pair.a.image.value], r.tp + [pair.b.image.value], None)
  }

  /** The states cornersIdentical leaves in both grids, and its verdict or the error it raised. */
  datatype Comparison = Comparison(mine: seq<TileState>, theirs: seq<TileState>, verdict: Result<bool, CornerError>)

  /** MapTileGrid.cornersIdentical on the states of two grids: four rounds, then diffs < 256^2. */
  function CornersCompared(s: seq<TileState>, o: seq<TileState>, ci: seq<nat>, cj: seq<nat>,
                           answers: seq<HttpOutcome>): (c: Comparison)
    requires CornerIndexed(ci, |s|) && CornerIndexed(cj, |o|) && AllOk(s) && AllOk(o) && |answers| == 16
    ensures |c.mine| == |s| && |c.theirs| == |o| && AllOk(c.mine) && AllOk(c.theirs)
  {
    var r := CornerRounds(s, o, ci, cj, answers, 4);
    if r.error.Some? then Comparison(r.mine, r.theirs, Failure(r.error.value))
    else
      assert PairwiseComparable(r.mp, r.tp) by {
        forall j | 0 <= j < 4
          ensures r.mp[j].width == r.tp[j].width && r.mp[j].height == r.tp[j].height
        {
          assert IsTileImage(r.mp[j]) && IsTileImage(r.tp[j]);
        }
      }
      Comparison(r.mine, r.theirs, Success(CornersAlike(r.mp, r.tp)))
  }

  /** Once a round has raised, the later rounds do not happen. */
  lemma {:induction false} CornerRoundsStop(s: seq<TileState>, o: seq<TileState>, ci: seq<nat>, cj: seq<nat>,
                                            answers: seq<HttpOutcome>, k: nat, j: nat)
    requires CornerIndexed(ci, |s|) && CornerIndexed(cj, |o|) && AllOk(s) && AllOk(o) && |answers| == 16
    requires k <= j <= 4 && CornerRounds(s, o, ci, cj, answers, k).error.Some?
    ensures CornerRounds(s, o, ci, cj, answers, j) == CornerRounds(s, o, ci, cj, answers, k)
    decreases j
  {
    if j > k {
      CornerRoundsStop(s, o, ci, cj, answers, k, j - 1);
      var r := CornerRounds(s, o, ci, cj, answers, j - 1);
      assert r.error.Some?;
    }
  }

  /**
   * The rounds leave every DOWNLOADED tile as it was and touch no tile
   * that is not one of the corners.
   */
  lemma {:induction false} CornerRoundsKeep(s: seq<TileState>, o: seq<TileState>, ci: seq<nat>, cj: seq<nat>,
                                            answers: seq<HttpOutcome>, k: nat)
    requires CornerIndexed(ci, |s|) && CornerIndexed(cj, |o|) && AllOk(s) && AllOk(o) && |answers| == 16 && k <= 4
    ensures KeepsDownloaded(s, CornerRounds(s, o, ci, cj, answers, k).mine)
    ensures KeepsDownloaded(o, CornerRounds(s, o, ci, cj, answers, k).theirs)
    ensures forall x :: 0 <= x < |s| && x !in ci ==> CornerRounds(s, o, ci, cj, answers, k).mine[x] == s[x]
    ensures forall x :: 0 <= x < |o| && x !in cj ==> CornerRounds(s, o, ci, cj, answers, k).theirs[x] == o[x]
    decreases k
  {
    if k > 0 {
      CornerRoundsKeep(s, o, ci, cj, answers, k - 1);
    }
  }

  /** After k rounds without an error, corner j < k of each grid is DOWNLOADED with the image compared in round j. */
  lemma {:induction false} CornerRoundsImages(s: seq<TileState>, o: seq<TileState>, ci: seq<nat>, cj: seq<nat>,
                                              answers: seq<HttpOutcome>, k: nat)
    requires CornerIndexed(ci, |s|) && CornerIndexed(cj, |o|) && AllOk(s) && AllOk(o) && |answers| == 16 && k <= 4
    ensures var r := CornerRounds(s, o, ci, cj, answers, k);
            r.error.None? ==> forall j :: 0 <= j < k ==>
              r.mine[ci[j]] == TileState(Downloaded, Some(r.mp[j])) && r.theirs[cj[j]] == TileState(Downloaded, Some(r.tp[j]))
    decreases k
  {
    if k > 0 {
      CornerRoundsImages(s, o, ci, cj, answers, k - 1);
      var r0, r := CornerRounds(s, o, ci, cj, answers, k - 1), CornerRounds(s, o, ci, cj, answers, k);
      if r.error.None? {
        var pair := PairLoaded(r0.mine[ci[k - 1]], r0.theirs[cj[k - 1]], answers[4 * (k - 1)..4 * k]);
        assert r.mine == r0.mine[ci[k - 1] := pair.a] && r.theirs == r0.theirs[cj[k - 1] := pair.b];
        assert r.mp == r0.mp + [pair.a.image.value] && r.tp == r0.tp + [pair.b.image.value];
        forall j | 0 <= j < k - 1
          ensures r.mine[ci[j]] == TileState(Downloaded, Some(r.mp[j])) && r.theirs[cj[j]] == TileState(Downloaded, Some(r.tp[j]))
        {
          assert r.mp[j] == r0.mp[j] && r.tp[j] == r0.tp[j];
        }
      }
    }
  }

  /**
   * The errors of cornersIdentical: a load that raised leaves a corner
   * DOWNLOADING, and an unavailable corner is ERROR.
   */
  lemma {:induction false} CornerRoundsErrors(s: seq<TileState>, o: seq<TileState>, ci: seq<nat>, cj: seq<nat>,
                                              answers: seq<HttpOutcome>, k: nat)
    requires CornerIndexed(ci, |s|) && CornerIndexed(cj, |o|) && AllOk(s) && AllOk(o) && |answers| == 16 && k <= 4
    ensures var r := CornerRounds(s, o, ci, cj, answers, k);
            && (r.error == Some(BadCornerImage) ==>
                  exists j :: 0 <= j < k && (r.mine[ci[j]].status == Downloading || r.theirs[cj[j]].status == Downloading))
            && (r.error == Some(CornerUnavailable) ==>
                  exists j :: 0 <= j < k && (r.mine[ci[j]].status == Error || r.theirs[cj[j]].status == Error))
    decreases k
  {
    if k > 0 {
      CornerRoundsErrors(s, o, ci, cj, answers, k - 1);
      var r := CornerRounds(s, o, ci, cj, answers, k - 1);
      if r.error.None? {
        var i, j := ci[k - 1], cj[k - 1];
        var r' := CornerRounds(s, o, ci, cj, answers, k);
        assert r'.mine[i] == PairLoaded(r.mine[i], r.theirs[j], answers[4 * (k - 1)..4 * k]).a;
        assert r'.theirs[j] == PairLoaded(r.mine[i], r.theirs[j], answers[4 * (k - 1)..4 * k]).b;
      }
    }
  }

  /**
   * A verdict of cornersIdentical is about the corners it leaves ready:
   * it is whether their summed difference stays below 256^2.
   */
  lemma CornersComparedVerdict(s: seq<TileState>, o: seq<TileState>, H: nat, H2: nat, answers: seq<HttpOutcome>)
    requires 0 < H <= |s| && 0 < H2 <= |o|
    requires AllOk(s) && AllOk(o) && |answers| == 16
    ensures var c := CornersCompared(s, o, CornerIndices(|s|, H), CornerIndices(|o|, H2), answers);
            c.verdict.Success? ==>
              && AllReady(CornerStates(c.mine, H)) && AllReady(CornerStates(c.theirs, H2))
              && c.verdict.value == CornerStatesAlike(CornerStates(c.mine, H), CornerStates(c.theirs, H2))
  {
    var ci, cj := CornerIndices(|s|, H), CornerIndices(|o|, H2);
    var r := CornerRounds(s, o, ci, cj, answers, 4);
    CornerRoundsImages(s, o, ci, cj, answers, 4);
    if r.error.None? {
      RoundsVerdict(r, H, H2);
    }
  }

  /** Rounds that ended without an error leave every corner ready, with the image that was compared. */
  lemma RoundsVerdict(r: Rounds, H: nat, H2: nat)
    requires 0 < H <= |r.mine| && 0 < H2 <= |r.theirs| && |r.mp| == 4 && |r.tp| == 4
    requires var ci, cj := CornerIndices(|r.mine|, H), CornerIndices(|r.theirs|, H2);
             forall j :: 0 <= j < 4 ==>
               r.mine[ci[j]] == TileState(Downloaded, Some(r.mp[j])) && r.theirs[cj[j]] == TileState(Downloaded, Some(r.tp[j]))
    requires TileImages(r.mp) && TileImages(r.tp)
    ensures AllReady(CornerStates(r.mine, H)) && AllReady(CornerStates(r.theirs, H2))
    ensures PairwiseComparable(r.mp, r.tp)
    ensures CornersAlike(r.mp, r.tp) == CornerStatesAlike(CornerStates(r.mine, H), CornerStates(r.theirs, H2))
  {
    var a, b := CornerStates(r.mine, H), CornerStates(r.theirs, H2);
    assert AllReady(a) && AllReady(b) by {
      forall j | 0 <= j < 4
        ensures Ready(a[j]) && Ready(b[j])
      {
        assert IsTileImage(r.mp[j]) && IsTileImage(r.tp[j]);
      }
    }
    assert Images(a) == r.mp;
    assert Images(b) == r.tp;
  }

  /** Comparing against a grid whose tiles are all ready leaves that grid exactly as it was. */
  lemma CornersComparedKeepsReady(s: seq<TileState>, o: seq<TileState>, ci: seq<nat>, cj: seq<nat>,
                                  answers: seq<HttpOutcome>)
    requires CornerIndexed(ci, |s|) && CornerIndexed(cj, |o|) && AllOk(s) && AllOk(o) && |answers| == 16
    requires AllReady(o)
    ensures CornersCompared(s, o, ci, cj, answers).theirs == o
  {
    CornerRoundsKeep(s, o, ci, cj, answers, 4);
  }

  lemma CornerDifferenceAppend(mp: seq<Picture>, tp: seq<Picture>, p: Picture, q: Picture)
    requires PairwiseComparable(mp, tp) && p.width == q.width && p.height == q.height
    ensures PairwiseComparable(mp + [p], tp + [q])
    ensures CornerDifference(mp + [p], tp + [q]) == CornerDifference(mp, tp) + PictureDifference(p, q)
  {
    assert (mp + [p])[..|mp|] == mp && (tp + [q])[..|tp|] == tp;
  }

  /** No tile of `left` is a tile of `right`. */
  predicate Apart(left: seq<MapTile>, right: seq<MapTile>)
  {
    forall a, b :: 0 <= a < |left| && 0 <= b < |right| ==> left[a] != right[b]
  }

  /** `corners` are the tiles of `tiles` at the flat indices `ci`. */
  predicate CornersOf(corners: seq<MapTile>, tiles: seq<MapTile>, ci: seq<nat>)
  {
    |corners| == 4 && CornerIndexed(ci, |tiles|) && forall k :: 0 <= k < 4 ==> corners[k] == tiles[ci[k]]
  }

  /** The loop of MapTileGrid.cornersIdentical: `mine` and `theirs` are the corners of the grids flattened to `left` and `right`. */
  method CompareCorners(left: seq<MapTile>, right: seq<MapTile>, mine: seq<MapTile>, theirs: seq<MapTile>,
                        ci: seq<nat>, cj: seq<nat>, answers: seq<HttpOutcome>) returns (r: Result<bool, CornerError>)
    requires DistinctTiles(left) && DistinctTiles(right) && Apart(left, right)
    requires CornersOf(mine, left, ci) && CornersOf(theirs, right, cj)
    requires AllOk(StatesOf(left)) && AllOk(StatesOf(right)) && |answers| == 16
    modifies mine, theirs
    ensures StatesOf(left) == CornersCompared(old(StatesOf(left)), old(StatesOf(right)), ci, cj, answers).mine
    ensures StatesOf(right) == CornersCompared(old(StatesOf(left)), old(StatesOf(right)), ci, cj, answers).theirs
    ensures r == CornersCompared(old(StatesOf(left)), old(StatesOf(right)), ci, cj, answers).verdict
  {
    ghost var s0, o0 := StatesOf(left), StatesOf(right);
    var diffs := 0;
    var k := 0;
    while k < 4
      invariant 0 <= k <= 4
      invariant CornerRounds(s0, o0, ci, cj, answers, k).error.None?
      invariant StatesOf(left) == CornerRounds(s0, o0, ci, cj, answers, k).mine
      invariant StatesOf(right) == CornerRounds(s0, o0, ci, cj, answers, k).theirs
      invariant PairwiseComparable(CornerRounds(s0, o0, ci, cj, answers, k).mp, CornerRounds(s0, o0, ci, cj, answers, k).tp)
      invariant diffs == CornerDifference(CornerRounds(s0, o0, ci, cj, answers, k).mp, CornerRounds(s0, o0, ci, cj, answers, k).tp)
    {
      var err, d := CompareRound(left, right, mine, theirs, ci, cj, answers, k, s0, o0);
      if err.Some? {
        CornerRoundsStop(s0, o0, ci, cj, answers, k + 1, 4);
        return Failure(err.value);
      }
      diffs := diffs + d;
      k := k + 1;
    }
    return Success(diffs < CornerThreshold);
  }

  /** Round k of cornersIdentical: both loads of the pair twice over, then the test for a tile in ERROR. */
  method CompareRound(left: seq<MapTile>, right: seq<MapTile>, mine: seq<MapTile>, theirs: seq<MapTile>,
                      ci: seq<nat>, cj: seq<nat>, answers: seq<HttpOutcome>, k: nat,
                      ghost s0: seq<TileState>, ghost o0: seq<TileState>)
    returns (err: Option<CornerError>, d: nat)
    requires DistinctTiles(left) && DistinctTiles(right) && Apart(left, right)
    requires CornersOf(mine, left, ci) && CornersOf(theirs, right, cj)
    requires |s0| == |left| && |o0| == |right| && AllOk(s0) && AllOk(o0) && |answers| == 16 && k < 4
    requires CornerRounds(s0, o0, ci, cj, answers, k).error.None?
    requires StatesOf(left) == CornerRounds(s0, o0, ci, cj, answers, k).mine
    requires StatesOf(right) == CornerRounds(s0, o0, ci, cj, answers, k).theirs
    modifies mine[k], theirs[k]
    ensures StatesOf(left) == CornerRounds(s0, o0, ci, cj, answers, k + 1).mine
    ensures StatesOf(right) == CornerRounds(s0, o0, ci, cj, answers, k + 1).theirs
    ensures err == CornerRounds(s0, o0, ci, cj, answers, k + 1).error
    ensures err.None? ==>
              && PairwiseComparable(CornerRounds(s0, o0, ci, cj, answers, k + 1).mp, CornerRounds(s0, o0, ci, cj, answers, k + 1).tp)
              && CornerDifference(CornerRounds(s0, o0, ci, cj, answers, k + 1).mp, CornerRounds(s0, o0, ci, cj, answers, k + 1).tp)
                 == CornerDifference(CornerRounds(s0, o0, ci, cj, answers, k).mp, CornerRounds(s0, o0, ci, cj, answers, k).tp) + d
  {
    ghost var r := CornerRounds(s0, o0, ci, cj, answers, k);
    ghost var m, t := StatesOf(left), StatesOf(right);
    var round := answers[4 * k..4 * k + 4];
    assert round == answers[4 * (k + 1 - 1)..4 * (k + 1)];
    var raised := LoadCorner(left, right, mine, theirs, ci, cj, round, k);
    ghost var pair := PairLoaded(m[ci[k]], t[cj[k]], round);
    d := 0;
    if raised {
      return Some(BadCornerImage), d;
    }
    if mine[k].status == Error || theirs[k].status == Error {
      return Some(CornerUnavailable), d;
    }
    assert PairwiseComparable(r.mp, r.tp) by {
      forall j | 0 <= j < k
        ensures r.mp[j].width == r.tp[j].width && r.mp[j].height == r.tp[j].height
      {
        assert IsTileImage(r.mp[j]) && IsTileImage(r.tp[j]);
      }
    }
    d := PictureDifference(mine[k].image.value, theirs[k].image.value);
    CornerDifferenceAppend(r.mp, r.tp, mine[k].image.value, theirs[k].image.value);
    err := None;
  }

  /** The loads of round k of cornersIdentical, on corner k of each grid; no other tile changes. */
  method LoadCorner(left: seq<MapTile>, right: seq<MapTile>, mine: seq<MapTile>, theirs: seq<MapTile>,
                    ci: seq<nat>, cj: seq<nat>, round: seq<HttpOutcome>, k: nat) returns (raised: bool)
    requires DistinctTiles(left) && DistinctTiles(right) && Apart(left, right)
    requires CornersOf(mine, left, ci) && CornersOf(theirs, right, cj) && |round| == 4 && k < 4
    modifies mine[k], theirs[k]
    ensures var pair := PairLoaded(old(StatesOf(left))[ci[k]], old(StatesOf(right))[cj[k]], round);
            && StatesOf(left) == old(StatesOf(left))[ci[k] := pair.a]
            && StatesOf(right) == old(StatesOf(right))[cj[k] := pair.b]
            && raised == pair.raised
  {
    ghost var m, t := StatesOf(left), StatesOf(right);
    raised := LoadPair(mine[k], theirs[k], round);
    ghost var pair := PairLoaded(m[ci[k]], t[cj[k]], round);
    assert StatesOf(left) == m[ci[k] := pair.a] by {
      forall x | 0 <= x < |left|
        ensures left[x].State() == m[ci[k] := pair.a][x]
      {
        assert left[x] == mine[k] <==> x == ci[k];
      }
    }
    assert StatesOf(right) == t[cj[k] := pair.b] by {
      forall x | 0 <= x < |right|
        ensures right[x].State() == t[cj[k] := pair.b][x]
      {
        assert right[x] == theirs[k] <==> x == cj[k];
      }
    }
  }

  /**
   * One round of cornersIdentical on two distinct tiles: the loads a, b, a, b
   * in the order the source makes them, answered by answers[0] to answers[3].
   */
  method LoadPair(a: MapTile, b: MapTile, answers: seq<HttpOutcome>) returns (raised: bool)
    requires |answers| == 4 && a != b
    modifies a, b
    ensures a.State() == PairLoaded(old(a.State()), old(b.State()), answers).a
    ensures b.State() == PairLoaded(old(a.State()), old(b.State()), answers).b
    ensures raised == PairLoaded(old(a.State()), old(b.State()), answers).raised
  {
    raised := a.Load(answers[0]);
    if raised { return; }
    raised := b.Load(answers[1]);
    if raised { return; }
    raised := a.Load(answers[2]);
    if raised { return; }
    raised := b.Load(answers[3]);
  }
}
