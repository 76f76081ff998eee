/**
 * The main loop of the program: for every imagery version from the current
 * one down to 0, build the grid of tiles over the rectangle; from the second
 * version on, compare its corners with the grid kept last and skip the
 * version when they look identical; otherwise download every tile, stitch
 * and keep the grid. An exception anywhere ends the run.
 */
module Crawl {
  import opened Wrappers
  import opened Imagery
  import opened Tiles
  import opened Grid

  /**
   * What the tile server answers for one version: the sixteen loads of the
   * corner comparison, then the pool pass and the retry pass of the download.
   */
  datatype VersionAnswers = VersionAnswers(corners: seq<HttpOutcome>, pool: seq<HttpOutcome>, retry: seq<HttpOutcome>)

  predicate Fits(a: VersionAnswers, tiles: nat)
  {
    |a.corners| == 16 && |a.pool| == tiles && |a.retry| == tiles
  }

  /** The exception that ended a run: from cornersIdentical or from download. */
  datatype Failure = CompareFailed(error: CornerError) | DownloadFailed(outcome: DownloadOutcome)

  datatype CrawlOutcome = Finished | Aborted(version: nat, failure: Failure)

  /** The number of columns MapTileGrid.from_georect builds: x runs from swX to neX inclusive. */
  function Columns(swX: int, neX: int): int
  {
    neX - swX + 1
  }

  /** The number of rows MapTileGrid.from_georect builds: y runs from neY to swY inclusive. */
  function Rows(neY: int, swY: int): int
  {
    swY - neY + 1
  }

  /** The grid MapTileGrid.from_georect builds for `version` over tiles swX..swX+W-1 by neY..neY+H-1. */
  predicate Layout(g: MapTileGrid, swX: int, neY: int, W: nat, H: nat, zoom: int, version: nat)
  {
    g.Rectangular() && g.Distinct() && g.width == W && g.height == H
    && forall i, j :: 0 <= i < W && 0 <= j < H ==>
         && g.maptiles[i][j].x == swX + i && g.maptiles[i][j].y == neY + j
         && g.maptiles[i][j].version == version && g.maptiles[i][j].zoom == zoom
  }

  /** The kept grids: built for their versions over one rectangle, sharing no tile. */
  predicate Laid(grids: seq<MapTileGrid>, versions: seq<nat>, swX: int, neY: int, W: nat, H: nat, zoom: int)
  {
    && |grids| == |versions|
    && (forall i :: 0 <= i < |grids| ==> Layout(grids[i], swX, neY, W, H, zoom, versions[i]))
    && (forall i, i' :: 0 <= i < i' < |grids| ==> grids[i].Tiles() !! grids[i'].Tiles())
  }

  /** Keeping one more grid, built for version v and sharing no tile with the grids kept before. */
  lemma LaidAppend(grids: seq<MapTileGrid>, versions: seq<nat>, swX: int, neY: int, W: nat, H: nat, zoom: int,
                   grid: MapTileGrid, v: nat)
    requires Laid(grids, versions, swX, neY, W, H, zoom) && Layout(grid, swX, neY, W, H, zoom, v)
    requires forall i :: 0 <= i < |grids| ==> grids[i].Tiles() !! grid.Tiles()
    ensures Laid(grids + [grid], versions + [v], swX, neY, W, H, zoom)
  {
    var gs, vs := grids + [grid], versions + [v];
    forall i | 0 <= i < |gs|
      ensures Layout(gs[i], swX, neY, W, H, zoom, vs[i])
    {
      if i < |grids| {
        assert gs[i] == grids[i] && vs[i] == versions[i];
      }
    }
  }

  /** The grid's raster is the one stitched from the tile states `s`. */
  ghost predicate Raster(g: MapTileGrid, s: seq<TileState>)
    reads g, g.image
  {
    g.image != null && |s| == g.width * g.height && AllReady(s)
    && g.image.Length0 == g.width * TileSize && g.image.Length1 == g.height * TileSize
    && forall X, Y :: 0 <= X < g.image.Length0 && 0 <= Y < g.image.Length1 ==>
         g.image[X, Y] == StitchedPixel(s, g.width, g.height, X, Y)
  }

  /** A grid the run keeps: every tile downloaded and the raster stitched from them. */
  ghost predicate Kept(g: MapTileGrid)
    reads g, g.Tiles(), g.image
  {
    g.Valid() && g.AllDownloaded() && Raster(g, g.States())
  }

  /** The kept grids' states and rasters are those of the snapshots. */
  ghost predicate Live(grids: seq<MapTileGrid>, ks: seq<seq<TileState>>)
    reads set i, t | 0 <= i < |grids| && t in grids[i].Tiles() :: t
    reads set i | 0 <= i < |grids| :: grids[i]
    reads set i | 0 <= i < |grids| :: grids[i].image
  {
    |grids| == |ks| && forall i :: 0 <= i < |grids| ==> grids[i].States() == ks[i] && Raster(grids[i], ks[i])
  }

  /** The rasters of kept grids are untouched while only tiles are loaded. */
  lemma LiveFramed(grids: seq<MapTileGrid>, ks: seq<seq<TileState>>)
    requires |grids| == |ks|
    requires forall i :: 0 <= i < |grids| ==> grids[i].States() == ks[i] && Raster(grids[i], ks[i])
    ensures Live(grids, ks)
  {
  }

  /** Keeping one more grid, whose states are `s` and whose raster is stitched from them. */
  lemma LiveAppend(grids: seq<MapTileGrid>, ks: seq<seq<TileState>>, grid: MapTileGrid, s: seq<TileState>)
    requires Live(grids, ks) && grid.States() == s && Raster(grid, s)
    ensures Live(grids + [grid], ks + [s])
  {
    var gs, ss := grids + [grid], ks + [s];
    forall i | 0 <= i < |gs|
      ensures gs[i].States() == ss[i] && Raster(gs[i], ss[i])
    {
      if i < |grids| {
        assert gs[i] == grids[i] && ss[i] == ks[i];
      }
    }
  }

  /** versions[k] is the last version above v in the strictly decreasing list `versions`. */
  predicate LatestAbove(versions: seq<nat>, k: nat, v: nat)
  {
    k < |versions| && v < versions[k] && (k + 1 < |versions| ==> versions[k + 1] < v)
  }

  predicate Decreasing(vs: seq<nat>)
  {
    forall i, j :: 0 <= i < j < |vs| ==> vs[j] < vs[i]
  }

  /**
   * The versions seen so far are those above `low` up to `current`, each
   * either kept or skipped; both lists are strictly decreasing and the first
   * version is never skipped.
   */
  ghost predicate Visited(current: nat, low: int, versions: seq<nat>, skipped: seq<nat>)
  {
    && Decreasing(versions) && Decreasing(skipped)
    && (forall u: nat :: low < u <= current <==> u in versions || u in skipped)
    && (forall u: nat :: !(u in versions && u in skipped))
    && current !in skipped
  }

  /** skipped[j] was compared with grid basis[j], the last one kept above it. */
  predicate Based(versions: seq<nat>, skipped: seq<nat>, basis: seq<nat>)
  {
    |basis| == |skipped| && forall j :: 0 <= j < |skipped| ==> LatestAbove(versions, basis[j], skipped[j])
  }

  /** Keeping version v, the next one down. */
  lemma KeepVersion(current: nat, v: nat, versions: seq<nat>, skipped: seq<nat>, basis: seq<nat>)
    requires Visited(current, v, versions, skipped) && Based(versions, skipped, basis) && v <= current
    ensures Visited(current, v - 1, versions + [v], skipped) && Based(versions + [v], skipped, basis)
  {
    var vs := versions + [v];
    forall u: nat
      ensures v - 1 < u <= current <==> u in vs || u in skipped
    {
      assert u in vs <==> u in versions || u == v;
    }
    forall j | 0 <= j < |skipped|
      ensures LatestAbove(vs, basis[j], skipped[j])
    {
      assert skipped[j] in skipped;
    }
    forall i, i' | 0 <= i < i' < |vs|
      ensures vs[i'] < vs[i]
    {
      assert i' < |versions| ==> versions[i'] < versions[i];
      assert versions[i] in versions || i == |versions|;
    }
  }

  /** Skipping version v after comparing it with the grid kept last. */
  lemma SkipVersion(current: nat, v: nat, versions: seq<nat>, skipped: seq<nat>, basis: seq<nat>)
    requires Visited(current, v, versions, skipped) && Based(versions, skipped, basis)
    requires v < current && |versions| > 0
    ensures Visited(current, v - 1, versions, skipped + [v]) && Based(versions, skipped + [v], basis + [|versions| - 1])
  {
    var ss := skipped + [v];
    forall u: nat
      ensures v - 1 < u <= current <==> u in versions || u in ss
    {
      assert u in ss <==> u in skipped || u == v;
    }
    assert versions[|versions| - 1] in versions;
    forall i, i' | 0 <= i < i' < |ss|
      ensures ss[i'] < ss[i]
    {
      assert i' < |skipped| ==> skipped[i'] < skipped[i];
      assert skipped[i] in skipped || i == |skipped|;
    }
  }

  /** Once the first version is visited, it is the first kept one. */
  lemma FirstKept(current: nat, low: int, versions: seq<nat>, skipped: seq<nat>)
    requires Visited(current, low, versions, skipped) && low < current
    ensures |versions| > 0 && versions[0] == current
  {
    assert current in versions && versions[0] in versions;
  }

  /** The corner states of two grids of |a| tiles in columns of H, all ready, whose verdict is "different". */
  predicate StatesDiffer(a: seq<TileState>, b: seq<TileState>, H: nat)
  {
    0 < H <= |a| && |b| == |a|
    && AllReady(CornerStates(a, H)) && AllReady(CornerStates(b, H))
    && !CornerStatesAlike(CornerStates(a, H), CornerStates(b, H))
  }

  /** The corner states of two grids of |a| tiles in columns of H, all ready, whose verdict is "identical". */
  predicate StatesAlike(a: seq<TileState>, b: seq<TileState>, H: nat)
  {
    0 < H <= |a| && |b| == |a|
    && AllReady(CornerStates(a, H)) && AllReady(CornerStates(b, H))
    && CornerStatesAlike(CornerStates(a, H), CornerStates(b, H))
  }

  lemma DiffersAppend(H: nat, ks: seq<seq<TileState>>, s: seq<TileState>)
    requires forall i :: 0 < i < |ks| ==> StatesDiffer(ks[i], ks[i - 1], H)
    requires |ks| > 0 ==> StatesDiffer(s, ks[|ks| - 1], H)
    ensures forall i :: 0 < i < |ks + [s]| ==> StatesDiffer((ks + [s])[i], (ks + [s])[i - 1], H)
  {
    var ss := ks + [s];
    forall i | 0 < i < |ss|
      ensures StatesDiffer(ss[i], ss[i - 1], H)
    {
      if i < |ks| {
        assert ss[i] == ks[i] && ss[i - 1] == ks[i - 1];
      }
    }
  }

  lemma AlikesAppend(H: nat, ks: seq<seq<TileState>>, s: seq<TileState>, ds: seq<seq<TileState>>, basis: seq<nat>)
    requires |basis| == |ds|
    requires forall j :: 0 <= j < |ds| ==> basis[j] < |ks| && StatesAlike(ds[j], ks[basis[j]], H)
    ensures forall j :: 0 <= j < |ds| ==> basis[j] < |ks + [s]| && StatesAlike(ds[j], (ks + [s])[basis[j]], H)
  {
    forall j | 0 <= j < |ds|
      ensures basis[j] < |ks + [s]| && StatesAlike(ds[j], (ks + [s])[basis[j]], H)
    {
      assert (ks + [s])[basis[j]] == ks[basis[j]];
    }
  }

  /** Skipping one more version, whose grid's states s looked identical to those of the grid kept last. */
  lemma SkippedAppend(H: nat, ks: seq<seq<TileState>>, ds: seq<seq<TileState>>, basis: seq<nat>, s: seq<TileState>)
    requires |basis| == |ds| && |ks| > 0
    requires forall j :: 0 <= j < |ds| ==> basis[j] < |ks| && StatesAlike(ds[j], ks[basis[j]], H)
    requires StatesAlike(s, ks[|ks| - 1], H)
    ensures var ds', basis' := ds + [s], basis + [|ks| - 1];
            forall j :: 0 <= j < |ds'| ==> basis'[j] < |ks| && StatesAlike(ds'[j], ks[basis'[j]], H)
  {
    var ds', basis' := ds + [s], basis + [|ks| - 1];
    forall j | 0 <= j < |ds'|
      ensures basis'[j] < |ks| && StatesAlike(ds'[j], ks[basis'[j]], H)
    {
      if j < |ds| {
        assert ds'[j] == ds[j] && basis'[j] == basis[j];
      }
    }
  }

  /** Every version's answers fit a grid of n tiles. */
  predicate AllFit(net: seq<VersionAnswers>, n: nat)
  {
    forall v :: 0 <= v < |net| ==> Fits(net[v], n)
  }

  /**
   * What the loop has produced so far: the kept versions and the states of
   * their grids; the skipped versions, the states their grids had after the
   * comparison and the index of the kept grid each was compared with; and
   * whether an exception has ended the run.
   */
  datatype Progress = Progress(versions: seq<nat>, kept: seq<seq<TileState>>,
                               skipped: seq<nat>, compared: seq<seq<TileState>>, basis: seq<nat>,
                               outcome: CrawlOutcome)

  /** Kept grids of n ready tiles, and a compared grid of n tiles and a kept basis for every skipped version. */
  predicate Sound(p: Progress, n: nat)
  {
    && |p.versions| == |p.kept| && |p.skipped| == |p.compared| == |p.basis|
    && (forall i :: 0 <= i < |p.kept| ==> |p.kept[i]| == n && AllReady(p.kept[i]))
    && (forall j :: 0 <= j < |p.skipped| ==> |p.compared[j]| == n && p.basis[j] < |p.kept|)
  }

  /**
   * The download of version v's grid from the states `s`, then stitch and
   * keep it; a download that does not complete raises and ends the run.
   */
  function KeepStep(v: nat, s: seq<TileState>, a: VersionAnswers, p: Progress): (r: Progress)
    requires Fits(a, |s|) && AllOk(s) && Sound(p, |s|) && p.outcome.Finished?
    ensures Sound(r, |s|)
    ensures var d := GridDownload(s, a.pool, a.retry);
            && (r.outcome.Finished? <==> d.outcome == Complete)
            && (r.outcome.Finished? ==> r.versions == p.versions + [v] && r.kept == p.kept + [d.states])
            && (r.outcome.Aborted? ==> r.outcome == Aborted(v, DownloadFailed(d.outcome)) && r.kept == p.kept)
            && r.skipped == p.skipped && r.compared == p.compared && r.basis == p.basis
  {
    var d := GridDownload(s, a.pool, a.retry);
    GridDownloadReady(s, a.pool, a.retry);
    if d.outcome == Complete then p.(versions := p.versions + [v], kept := p.kept + [d.states])
    else p.(outcome := Aborted(v, DownloadFailed(d.outcome)))
  }

  /**
   * Version v's turn in the loop of main: a new grid of n pending tiles, in
   * columns of H; the current version is downloaded and kept at once, a
   * later one is first compared with the grid kept last, skipped when the
   * corners look identical and downloaded and kept otherwise.
   */
  function VersionStep(current: nat, v: nat, n: nat, H: nat, a: VersionAnswers, p: Progress): (r: Progress)
    requires 0 < H <= n && v <= current && Fits(a, n)
    requires Sound(p, n) && p.outcome.Finished? && (v < current ==> |p.kept| > 0)
    ensures Sound(r, n) && (r.outcome.Finished? ==> |r.kept| > 0)
  {
    if v == current then KeepStep(v, PendingStates(n), a, p)
    else
      var c := TurnComparison(n, H, a, p.kept);
      match c.verdict
      case Failure(e) => p.(outcome := Aborted(v, CompareFailed(e)))
      case Success(same) =>
        if same then p.(skipped := p.skipped + [v], compared := p.compared + [c.mine], basis := p.basis + [|p.kept| - 1])
        else KeepStep(v, c.mine, a, p)
  }

  /**
   * The progress of main once the versions current down to v + 1 have had
   * their turn, or once an exception has ended the run; `net[u]` is what the
   * tile server answers for version u.
   */
  function CrawlUpTo(current: nat, n: nat, H: nat, net: seq<VersionAnswers>, v: int): (p: Progress)
    requires 0 < H <= n && -1 <= v <= current && |net| == current + 1 && AllFit(net, n)
    ensures Sound(p, n) && (v == current ==> |p.kept| == 0) && (p.outcome.Finished? && v < current ==> |p.kept| > 0)
    decreases current - v, 2
  {
    if v == current then Progress([], [], [], [], [], Finished)
    else Turn(current, n, H, net, v + 1)
  }

  /** The progress of main once version u has had its turn, or once an exception has ended the run. */
  function Turn(current: nat, n: nat, H: nat, net: seq<VersionAnswers>, u: nat): (p: Progress)
    requires 0 < H <= n && u <= current && |net| == current + 1 && AllFit(net, n)
    ensures Sound(p, n) && (p.outcome.Finished? ==> |p.kept| > 0)
    decreases current - u + 1, 1
  {
    var p := CrawlUpTo(current, n, H, net, u);
    if p.outcome.Aborted? then p else Advance(current, n, H, net, u)
  }

  /** The turn of version u, on a run that no exception has ended. */
  function Advance(current: nat, n: nat, H: nat, net: seq<VersionAnswers>, u: nat): (p: Progress)
    requires 0 < H <= n && u <= current && |net| == current + 1 && AllFit(net, n)
    requires CrawlUpTo(current, n, H, net, u).outcome.Finished?
    ensures Sound(p, n) && (p.outcome.Finished? ==> |p.kept| > 0)
    decreases current - u + 1, 0
  {
    VersionStep(current, u, n, H, net[u], CrawlUpTo(current, n, H, net, u))
  }

  /** Once an exception has ended the run, the turn of version v + 1 changes nothing. */
  lemma CrawlHalts(current: nat, n: nat, H: nat, net: seq<VersionAnswers>, v: int)
    requires 0 < H <= n && -1 <= v < current && |net| == current + 1 && AllFit(net, n)
    ensures CrawlUpTo(current, n, H, net, v + 1).outcome.Aborted? ==>
              CrawlUpTo(current, n, H, net, v) == CrawlUpTo(current, n, H, net, v + 1)
  {
  }

  /** One step of CrawlUpTo: the turn of version v + 1, unless an exception has ended the run. */
  lemma CrawlUnfolds(current: nat, n: nat, H: nat, net: seq<VersionAnswers>, v: int)
    requires 0 < H <= n && -1 <= v < current && |net| == current + 1 && AllFit(net, n)
    ensures CrawlUpTo(current, n, H, net, v + 1).outcome.Finished? ==>
              CrawlUpTo(current, n, H, net, v) == VersionStep(current, v + 1, n, H, net[v + 1], CrawlUpTo(current, n, H, net, v + 1))
  {
    if CrawlUpTo(current, n, H, net, v + 1).outcome.Finished? {
      assert Advance(current, n, H, net, v + 1) == VersionStep(current, v + 1, n, H, net[v + 1], CrawlUpTo(current, n, H, net, v + 1));
    }
  }

  /** The last of the kept grids has n ready tiles. */
  predicate LastReady(kept: seq<seq<TileState>>, n: nat)
  {
    |kept| > 0 && |kept[|kept| - 1]| == n && AllReady(kept[|kept| - 1])
  }

  /** cornersIdentical of a new grid of n tiles, in columns of H, against the grid kept last. */
  function TurnComparison(n: nat, H: nat, a: VersionAnswers, kept: seq<seq<TileState>>): (c: Comparison)
    requires 0 < H <= n && |a.corners| == 16 && LastReady(kept, n)
    ensures |c.mine| == n && AllOk(c.mine)
  {
    var last := kept[|kept| - 1];
    assert AllOk(last) by {
      forall k | 0 <= k < |last|
        ensures TileOk(last[k])
      {
        assert Ready(last[k]);
      }
    }
    CornersCompared(PendingStates(n), last, CornerIndices(n, H), CornerIndices(n, H), a.corners)
  }

  /**
   * The states the download of version v's grid starts from: those of a
   * new grid for the current version, those the comparison with the grid
   * kept last left for a later one.
   */
  function StartStates(current: nat, v: nat, n: nat, H: nat, a: VersionAnswers, kept: seq<seq<TileState>>): (s: seq<TileState>)
    requires 0 < H <= n && v <= current && |a.corners| == 16 && (v < current ==> LastReady(kept, n))
    ensures |s| == n && AllOk(s)
  {
    if v == current then PendingStates(n) else TurnComparison(n, H, a, kept).mine
  }

  /** The run stays where an exception left it, and otherwise takes the step of version v. */
  predicate Moved(current: nat, v: nat, p: Progress, q: Progress)
  {
    && (p.outcome.Aborted? ==> q == p)
    && (p.outcome.Finished? ==> Stepped(current, v, p, q))
  }

  /**
   * q is p after version v's turn, in one of three ways: an exception ended
   * the run at v, v was skipped after a comparison with the grid kept last,
   * or v was kept.
   */
  predicate Stepped(current: nat, v: nat, p: Progress, q: Progress)
  {
    || (q.outcome.Aborted? && q.outcome.version == v && q.(outcome := Finished) == p)
    || (v < current && |p.kept| > 0 && q.outcome.Finished? && q.versions == p.versions && q.kept == p.kept
        && q.skipped == p.skipped + [v] && |q.compared| == |p.compared| + 1 && q.compared[..|p.compared|] == p.compared
        && q.basis == p.basis + [|p.kept| - 1])
    || (q.outcome.Finished? && q.versions == p.versions + [v] && |q.kept| == |p.kept| + 1 && q.kept[..|p.kept|] == p.kept
        && q.skipped == p.skipped && q.compared == p.compared && q.basis == p.basis)
  }

  /** The turn of version v + 1 keeps the run, skips the version, or ends the run there. */
  lemma CrawlStepped(current: nat, n: nat, H: nat, net: seq<VersionAnswers>, v: int)
    requires 0 < H <= n && -1 <= v < current && |net| == current + 1 && AllFit(net, n)
    ensures Moved(current, v + 1, CrawlUpTo(current, n, H, net, v + 1), CrawlUpTo(current, n, H, net, v))
  {
    CrawlHalts(current, n, H, net, v);
    var p := CrawlUpTo(current, n, H, net, v + 1);
    if p.outcome.Finished? {
      CrawlUnfolds(current, n, H, net, v);
      StepShape(current, v + 1, n, H, net[v + 1], p);
    }
  }

  /** StepJudged for the turn of version v + 1. */
  lemma CrawlJudged(current: nat, n: nat, H: nat, net: seq<VersionAnswers>, v: int)
    requires 0 < H <= n && -1 <= v < current && |net| == current + 1 && AllFit(net, n)
    ensures Weighed(CrawlUpTo(current, n, H, net, v + 1), CrawlUpTo(current, n, H, net, v), H)
  {
    var p := CrawlUpTo(current, n, H, net, v + 1);
    if p.outcome.Finished? {
      CrawlUnfolds(current, n, H, net, v);
      StepJudged(current, v + 1, n, H, net[v + 1], p);
    }
  }

  /** A step from p to q that keeps version v downloaded its grid, from the states the turn left it in. */
  predicate Fetched(current: nat, v: nat, n: nat, H: nat, a: VersionAnswers, p: Progress, q: Progress)
    requires 0 < H <= n && v <= current && Fits(a, n) && Sound(p, n) && (v < current ==> |p.kept| > 0)
  {
    q.outcome.Finished? && q.versions != p.versions ==>
      var d := GridDownload(StartStates(current, v, n, H, a, p.kept), a.pool, a.retry);
      d.outcome == Complete && q.kept == p.kept + [d.states]
  }

  /** The download behind the turn of version v + 1, when it keeps the version. */
  lemma CrawlDownloaded(current: nat, n: nat, H: nat, net: seq<VersionAnswers>, v: int)
    requires 0 < H <= n && -1 <= v < current && |net| == current + 1 && AllFit(net, n)
    ensures CrawlUpTo(current, n, H, net, v + 1).outcome.Finished? ==>
              Fetched(current, v + 1, n, H, net[v + 1], CrawlUpTo(current, n, H, net, v + 1), CrawlUpTo(current, n, H, net, v))
  {
    var p := CrawlUpTo(current, n, H, net, v + 1);
    if p.outcome.Finished? {
      CrawlUnfolds(current, n, H, net, v);
      StepCases(current, v + 1, n, H, net[v + 1], p);
    }
  }

  /** A turn keeps the run, skips the version, or ends the run there. */
  lemma StepShape(current: nat, v: nat, n: nat, H: nat, a: VersionAnswers, p: Progress)
    requires 0 < H <= n && v <= current && Fits(a, n)
    requires Sound(p, n) && p.outcome.Finished? && (v < current ==> |p.kept| > 0)
    ensures Stepped(current, v, p, VersionStep(current, v, n, H, a, p))
  {
    StepCases(current, v, n, H, a, p);
  }

  /**
   * The three ways a version's turn can end: an exception ends the run,
   * the version is skipped with the states the comparison left, or the
   * complete download from StartStates is kept.
   */
  lemma StepCases(current: nat, v: nat, n: nat, H: nat, a: VersionAnswers, p: Progress)
    requires 0 < H <= n && v <= current && Fits(a, n)
    requires Sound(p, n) && p.outcome.Finished? && (v < current ==> |p.kept| > 0)
    ensures var r := VersionStep(current, v, n, H, a, p);
            var s := StartStates(current, v, n, H, a, p.kept);
            var d := GridDownload(s, a.pool, a.retry);
            && Stepped(current, v, p, r)
            && (r.outcome.Finished? && r.versions == p.versions ==>
                  TurnComparison(n, H, a, p.kept).verdict == Success(true) && r.compared == p.compared + [s])
            && (r.outcome.Finished? && r.versions != p.versions ==>
                  && (v < current ==> TurnComparison(n, H, a, p.kept).verdict == Success(false))
                  && d.outcome == Complete && r.kept == p.kept + [d.states])
  {
    var r := VersionStep(current, v, n, H, a, p);
    if r.outcome.Finished? {
      if r.versions == p.versions {
        assert r.compared[..|p.compared|] == p.compared;
      } else {
        assert r.kept[..|p.kept|] == p.kept;
      }
    }
  }

  /** Once an exception has ended the run, the later versions change nothing. */
  lemma {:induction false} CrawlStaysAborted(current: nat, n: nat, H: nat, net: seq<VersionAnswers>, v: int, u: int)
    requires 0 < H <= n && -1 <= u <= v <= current && |net| == current + 1 && AllFit(net, n)
    requires CrawlUpTo(current, n, H, net, v).outcome.Aborted?
    ensures CrawlUpTo(current, n, H, net, u) == CrawlUpTo(current, n, H, net, v)
    decreases v - u
  {
    if u < v {
      CrawlStaysAborted(current, n, H, net, v, u + 1);
      CrawlHalts(current, n, H, net, u);
    }
  }

  /**
   * The versions the run has seen: every version from the current one down
   * to where it stands (or to the version whose exception ended it) is
   * either kept or skipped, never both, each skipped version was compared
   * with the last version kept above it, and the current version is the
   * first one kept.
   */
  lemma {:induction false} CrawlVisits(current: nat, n: nat, H: nat, net: seq<VersionAnswers>, v: int)
    requires 0 < H <= n && -1 <= v <= current && |net| == current + 1 && AllFit(net, n)
    ensures var p := CrawlUpTo(current, n, H, net, v);
            var low := if p.outcome.Finished? then v else p.outcome.version;
            && v <= low <= current
            && Visited(current, low, p.versions, p.skipped) && Based(p.versions, p.skipped, p.basis)
            && (low < current ==> |p.versions| > 0 && p.versions[0] == current)
    decreases current - v
  {
    if v < current {
      CrawlVisits(current, n, H, net, v + 1);
      CrawlStepped(current, n, H, net, v);
      var p := CrawlUpTo(current, n, H, net, v + 1);
      if p.outcome.Finished? {
        StepVisits(current, v + 1, p, CrawlUpTo(current, n, H, net, v));
      }
    }
  }

  /** One turn visits version v: it is kept, skipped, or the run ends there. */
  lemma StepVisits(current: nat, v: nat, p: Progress, q: Progress)
    requires v <= current && p.outcome.Finished? && Stepped(current, v, p, q)
    requires Visited(current, v, p.versions, p.skipped) && Based(p.versions, p.skipped, p.basis)
    requires v < current ==> |p.versions| > 0 && p.versions[0] == current
    requires |p.versions| == |p.kept|
    ensures var low := if q.outcome.Finished? then v - 1 else q.outcome.version;
            && v - 1 <= low <= current
            && Visited(current, low, q.versions, q.skipped) && Based(q.versions, q.skipped, q.basis)
            && (low < current ==> |q.versions| > 0 && q.versions[0] == current)
  {
    if q.outcome.Finished? {
      if q.versions == p.versions + [v] {
        KeepVersion(current, v, p.versions, p.skipped, p.basis);
      } else {
        SkipVersion(current, v, p.versions, p.skipped, p.basis);
      }
      FirstKept(current, v - 1, q.versions, q.skipped);
    }
  }

  /**
   * The verdicts behind the run's choices: every kept grid's corners differ
   * from those of the grid kept before it, and every skipped grid's corners
   * were judged identical to those of the grid it was compared with.
   */
  lemma {:induction false} CrawlVerdicts(current: nat, n: nat, H: nat, net: seq<VersionAnswers>, v: int)
    requires 0 < H <= n && -1 <= v <= current && |net| == current + 1 && AllFit(net, n)
    ensures Judged(CrawlUpTo(current, n, H, net, v), H)
    decreases current - v
  {
    if v < current {
      CrawlVerdicts(current, n, H, net, v + 1);
      CrawlVerdictsStep(current, n, H, net, v);
    }
  }

  /** The turn of version v + 1 keeps the verdicts of CrawlVerdicts. */
  lemma CrawlVerdictsStep(current: nat, n: nat, H: nat, net: seq<VersionAnswers>, v: int)
    requires 0 < H <= n && -1 <= v < current && |net| == current + 1 && AllFit(net, n)
    requires Judged(CrawlUpTo(current, n, H, net, v + 1), H)
    ensures Judged(CrawlUpTo(current, n, H, net, v), H)
  {
    CrawlStepped(current, n, H, net, v);
    CrawlJudged(current, n, H, net, v);
    StepVerdicts(current, v + 1, H, CrawlUpTo(current, n, H, net, v + 1), CrawlUpTo(current, n, H, net, v));
  }

  /**
   * Every kept grid's corners differ from those of the grid kept before it,
   * and every compared grid's corners match those of its basis.
   */
  predicate Verdicts(kept: seq<seq<TileState>>, compared: seq<seq<TileState>>, basis: seq<nat>, H: nat)
  {
    && (forall i :: 0 < i < |kept| ==> StatesDiffer(kept[i], kept[i - 1], H))
    && |basis| == |compared|
    && (forall j :: 0 <= j < |compared| ==> basis[j] < |kept| && StatesAlike(compared[j], kept[basis[j]], H))
  }

  /** The verdicts of progress p. */
  predicate Judged(p: Progress, H: nat)
  {
    Verdicts(p.kept, p.compared, p.basis, H)
  }

  /**
   * The verdict behind the choice that led from p to q: a skipped grid's
   * corners match those of the grid kept last, a kept later grid's corners
   * differ from them.
   */
  predicate Weighed(p: Progress, q: Progress, H: nat)
  {
    && (q.outcome.Finished? && q.versions == p.versions ==>
          |q.compared| == |p.compared| + 1 && |p.kept| > 0
          && StatesAlike(q.compared[|p.compared|], p.kept[|p.kept| - 1], H))
    && (q.outcome.Finished? && q.versions != p.versions && |p.kept| > 0 ==>
          |q.kept| == |p.kept| + 1 && StatesDiffer(q.kept[|p.kept|], p.kept[|p.kept| - 1], H))
  }

  /** One turn keeps the verdicts of CrawlVerdicts, given the verdict behind its choice. */
  lemma StepVerdicts(current: nat, v: nat, H: nat, p: Progress, q: Progress)
    requires Moved(current, v, p, q) && Judged(p, H)
    requires Weighed(p, q, H)
    ensures Judged(q, H)
  {
    if p.outcome.Aborted? {
    } else if q.outcome.Finished? && q.versions == p.versions {
      assert q.compared == p.compared + [q.compared[|p.compared|]];
      SkippedAppend(H, p.kept, p.compared, p.basis, q.compared[|p.compared|]);
    } else if q.outcome.Finished? {
      assert q.kept == p.kept + [q.kept[|p.kept|]];
      DiffersAppend(H, p.kept, q.kept[|p.kept|]);
      AlikesAppend(H, p.kept, q.kept[|p.kept|], p.compared, p.basis);
    }
  }

  /**
   * The verdict behind a turn's choice: a skipped grid's corners match
   * those of the grid kept last, a kept later grid's corners differ from them.
   */
  lemma StepJudged(current: nat, v: nat, n: nat, H: nat, a: VersionAnswers, p: Progress)
    requires 0 < H <= n && v <= current && Fits(a, n)
    requires Sound(p, n) && p.outcome.Finished? && (v < current ==> |p.kept| > 0) && (v == current ==> |p.kept| == 0)
    ensures Weighed(p, VersionStep(current, v, n, H, a, p), H)
  {
    StepSkipJudged(current, v, n, H, a, p);
    StepKeepJudged(current, v, n, H, a, p);
  }

  /** A skipped grid's corners match those of the grid kept last. */
  lemma StepSkipJudged(current: nat, v: nat, n: nat, H: nat, a: VersionAnswers, p: Progress)
    requires 0 < H <= n && v <= current && Fits(a, n)
    requires Sound(p, n) && p.outcome.Finished? && (v < current ==> |p.kept| > 0)
    ensures var r := VersionStep(current, v, n, H, a, p);
            r.outcome.Finished? && r.versions == p.versions ==>
              |r.compared| == |p.compared| + 1 && |p.kept| > 0
              && StatesAlike(r.compared[|p.compared|], p.kept[|p.kept| - 1], H)
  {
    var r := VersionStep(current, v, n, H, a, p);
    if r.outcome.Finished? && r.versions == p.versions {
      assert v < current;
      var c := TurnComparison(n, H, a, p.kept);
      assert c.verdict == Success(true) && r.compared == p.compared + [c.mine];
      SkippedVerdict(n, H, a, p.kept);
    }
  }

  /** A later kept grid's corners differ from those of the grid kept last. */
  lemma StepKeepJudged(current: nat, v: nat, n: nat, H: nat, a: VersionAnswers, p: Progress)
    requires 0 < H <= n && v <= current && Fits(a, n)
    requires Sound(p, n) && p.outcome.Finished? && (v < current ==> |p.kept| > 0) && (v == current ==> |p.kept| == 0)
    ensures var r := VersionStep(current, v, n, H, a, p);
            r.outcome.Finished? && r.versions != p.versions && |p.kept| > 0 ==>
              |r.kept| == |p.kept| + 1 && StatesDiffer(r.kept[|p.kept|], p.kept[|p.kept| - 1], H)
  {
    var r := VersionStep(current, v, n, H, a, p);
    if r.outcome.Finished? && r.versions != p.versions && |p.kept| > 0 {
      StepCases(current, v, n, H, a, p);
      KeptVerdict(current, v, n, H, a, p.kept);
    }
  }

  /** A later version is kept only when its corners differ from those of the grid kept last. */
  lemma KeptVerdict(current: nat, v: nat, n: nat, H: nat, a: VersionAnswers, kept: seq<seq<TileState>>)
    requires 0 < H <= n && v <= current && Fits(a, n) && (v < current ==> LastReady(kept, n))
    requires v < current ==> TurnComparison(n, H, a, kept).verdict == Success(false)
    requires GridDownload(StartStates(current, v, n, H, a, kept), a.pool, a.retry).outcome == Complete
    ensures var d := GridDownload(StartStates(current, v, n, H, a, kept), a.pool, a.retry);
            v < current ==> StatesDiffer(d.states, kept[|kept| - 1], H)
  {
    if v < current {
      var last := kept[|kept| - 1];
      var c := TurnComparison(n, H, a, kept);
      CornersComparedVerdict(PendingStates(n), last, H, H, a.corners);
      CornersComparedKeepsReady(PendingStates(n), last, CornerIndices(n, H), CornerIndices(n, H), a.corners);
      GridDownloadReady(c.mine, a.pool, a.retry);
      CornerStatesKept(c.mine, GridDownload(c.mine, a.pool, a.retry).states, H);
    }
  }

  /** A version is skipped only when its corners match those of the grid kept last. */
  lemma SkippedVerdict(n: nat, H: nat, a: VersionAnswers, kept: seq<seq<TileState>>)
    requires 0 < H <= n && |a.corners| == 16 && LastReady(kept, n)
    requires TurnComparison(n, H, a, kept).verdict == Success(true)
    ensures StatesAlike(TurnComparison(n, H, a, kept).mine, kept[|kept| - 1], H)
  {
    var last := kept[|kept| - 1];
    CornersComparedVerdict(PendingStates(n), last, H, H, a.corners);
    CornersComparedKeepsReady(PendingStates(n), last, CornerIndices(n, H), CornerIndices(n, H), a.corners);
  }

  /**
   * Kept grid i holds the states of a complete download of its version
   * from StartStates: the first, of the current version, from a new grid,
   * each later one from the grid as the comparison with the grid kept
   * before it left it.
   */
  predicate KeptDownload(current: nat, n: nat, H: nat, net: seq<VersionAnswers>,
                         versions: seq<nat>, kept: seq<seq<TileState>>, i: nat)
    requires 0 < H <= n && |net| == current + 1 && AllFit(net, n)
    requires |versions| == |kept| && i < |kept| && forall k :: 0 <= k < |kept| ==> |kept[k]| == n && AllReady(kept[k])
  {
    && versions[i] <= current && (i == 0 <==> versions[i] == current)
    && var a := net[versions[i]];
       var d := GridDownload(StartStates(current, versions[i], n, H, a, kept[..i]), a.pool, a.retry);
       d.outcome == Complete && kept[i] == d.states
  }

  /** Every kept grid holds the states of a complete download of its version. */
  lemma {:induction false} CrawlKeptDownloads(current: nat, n: nat, H: nat, net: seq<VersionAnswers>, v: int, i: nat)
    requires 0 < H <= n && -1 <= v <= current && |net| == current + 1 && AllFit(net, n)
    ensures var p := CrawlUpTo(current, n, H, net, v);
            i < |p.kept| ==> KeptDownload(current, n, H, net, p.versions, p.kept, i)
    decreases current - v
  {
    if v < current {
      CrawlKeptDownloads(current, n, H, net, v + 1, i);
      CrawlStepped(current, n, H, net, v);
      CrawlDownloaded(current, n, H, net, v);
      var p := CrawlUpTo(current, n, H, net, v + 1);
      if p.outcome.Finished? {
        StepKeptDownloads(current, v + 1, n, H, net, p, CrawlUpTo(current, n, H, net, v), i);
      }
    }
  }

  /** One turn keeps KeptDownload for grid i. */
  lemma StepKeptDownloads(current: nat, v: nat, n: nat, H: nat, net: seq<VersionAnswers>, p: Progress, q: Progress, i: nat)
    requires 0 < H <= n && v <= current && |net| == current + 1 && AllFit(net, n)
    requires Sound(p, n) && Sound(q, n) && p.outcome.Finished? && (v == current <==> |p.kept| == 0)
    requires Stepped(current, v, p, q)
    requires Fetched(current, v, n, H, net[v], p, q)
    requires i < |p.kept| ==> KeptDownload(current, n, H, net, p.versions, p.kept, i)
    ensures i < |q.kept| ==> KeptDownload(current, n, H, net, q.versions, q.kept, i)
  {
    if i < |q.kept| && q.outcome.Finished? && q.versions != p.versions {
      if i < |p.kept| {
        assert q.kept[..i] == p.kept[..i] && q.kept[i] == p.kept[i] && q.versions[i] == p.versions[i];
      } else {
        NewKeptDownload(current, v, n, H, net, p, q);
      }
    }
  }

  /** The grid a turn keeps was downloaded as KeptDownload says. */
  lemma NewKeptDownload(current: nat, v: nat, n: nat, H: nat, net: seq<VersionAnswers>, p: Progress, q: Progress)
    requires 0 < H <= n && v <= current && |net| == current + 1 && AllFit(net, n)
    requires Sound(p, n) && Sound(q, n) && (v == current <==> |p.kept| == 0)
    requires q.outcome.Finished? && q.versions == p.versions + [v]
    requires Fetched(current, v, n, H, net[v], p, q)
    ensures KeptDownload(current, n, H, net, q.versions, q.kept, |p.kept|)
  {
    assert q.kept[..|p.kept|] == p.kept;
  }

  /**
   * How the turn of version u ended in `failure`, given the grids kept
   * before it: the download of the current version did not complete, or
   * the comparison of a later one with the grid kept last raised, or it
   * found the corners different and the download did not complete.
   */
  predicate AbortedBy(current: nat, u: nat, n: nat, H: nat, a: VersionAnswers, kept: seq<seq<TileState>>, failure: Failure)
    requires 0 < H <= n && u <= current && Fits(a, n) && (u < current ==> LastReady(kept, n))
  {
    if u == current then
      var o := GridDownload(PendingStates(n), a.pool, a.retry).outcome;
      failure == DownloadFailed(o) && o != Complete
    else
      var c := TurnComparison(n, H, a, kept);
      match failure
      case CompareFailed(e) => c.verdict == Failure(e)
      case DownloadFailed(o) => c.verdict == Success(false) && o == GridDownload(c.mine, a.pool, a.retry).outcome && o != Complete
  }

  /** A turn that raises does so as AbortedBy says. */
  lemma StepAborts(current: nat, v: nat, n: nat, H: nat, a: VersionAnswers, p: Progress)
    requires 0 < H <= n && v <= current && Fits(a, n)
    requires Sound(p, n) && p.outcome.Finished? && (v < current ==> |p.kept| > 0)
    ensures var r := VersionStep(current, v, n, H, a, p);
            r.outcome.Aborted? ==>
              r.outcome.version == v && r.kept == p.kept && AbortedBy(current, v, n, H, a, p.kept, r.outcome.failure)
  {
  }

  /**
   * How an exception ends the run at version u: the comparison with the
   * grid kept last raised, or the download of u's grid, from the states
   * the comparison left, did not complete.
   */
  lemma {:induction false} CrawlAborts(current: nat, n: nat, H: nat, net: seq<VersionAnswers>, v: int)
    requires 0 < H <= n && -1 <= v <= current && |net| == current + 1 && AllFit(net, n)
    ensures var p := CrawlUpTo(current, n, H, net, v);
            p.outcome.Aborted? ==>
              var u := p.outcome.version;
              && u <= current && (u < current ==> LastReady(p.kept, n))
              && AbortedBy(current, u, n, H, net[u], p.kept, p.outcome.failure)
    decreases current - v
  {
    if v < current {
      CrawlAborts(current, n, H, net, v + 1);
      CrawlHalts(current, n, H, net, v);
      var p := CrawlUpTo(current, n, H, net, v + 1);
      if p.outcome.Finished? {
        CrawlUnfolds(current, n, H, net, v);
        StepAborts(current, v + 1, n, H, net[v + 1], p);
      }
    }
  }

  /**
   * A version the run reaches and does not skip, whose download does not
   * complete, ends the run there: no later version has a turn.
   */
  lemma FailedDownloadEnds(current: nat, n: nat, H: nat, net: seq<VersionAnswers>, u: nat)
    requires 0 < H <= n && u <= current && |net| == current + 1 && AllFit(net, n)
    requires Reached(current, n, H, net, u)
    ensures var p := CrawlUpTo(current, n, H, net, u);
            var o := GridDownload(StartStates(current, u, n, H, net[u], p.kept), net[u].pool, net[u].retry).outcome;
            o != Complete && (u < current ==> TurnComparison(n, H, net[u], p.kept).verdict == Success(false)) ==>
              CrawlUpTo(current, n, H, net, -1) == p.(outcome := Aborted(u, DownloadFailed(o)))
  {
    var p := CrawlUpTo(current, n, H, net, u);
    var a := net[u];
    var o := GridDownload(StartStates(current, u, n, H, a, p.kept), a.pool, a.retry).outcome;
    if o != Complete && (u < current ==> TurnComparison(n, H, a, p.kept).verdict == Success(false)) {
      CrawlUnfolds(current, n, H, net, u - 1);
      assert u - 1 + 1 == u;
      assert CrawlUpTo(current, n, H, net, u - 1) == p.(outcome := Aborted(u, DownloadFailed(o)));
      CrawlStaysAborted(current, n, H, net, u - 1, -1);
    }
  }

  /** The run has reached version u: no exception ended it at a version above u. */
  predicate Reached(current: nat, n: nat, H: nat, net: seq<VersionAnswers>, u: nat)
    requires 0 < H <= n && u <= current && |net| == current + 1 && AllFit(net, n)
  {
    CrawlUpTo(current, n, H, net, u).outcome.Finished?
  }

  /**
   * cornersIdentical of a new grid against the grid kept last. The kept
   * grid's tiles are all ready, so it and every other kept grid are left as
   * they were; the new grid's states are those CornersCompared gives.
   */
  method CompareWithLast(grid: MapTileGrid, last: MapTileGrid, answers: seq<HttpOutcome>, n: nat, H: nat,
                         ghost grids: seq<MapTileGrid>, ghost ks: seq<seq<TileState>>) returns (r: Result<bool, CornerError>)
    requires |grids| > 0 && last == grids[|grids| - 1] && Live(grids, ks) && AllReady(ks[|grids| - 1])
    requires |answers| == 16 && grid.Valid() && |grid.Flat()| == n && grid.height == H
    requires last.Rectangular() && last.Distinct() && |last.Flat()| == n && last.height == H
    requires forall i :: 0 <= i < |grids| ==> grids[i].Tiles() !! grid.Tiles()
    requires forall i :: 0 <= i < |grids| - 1 ==> grids[i].Tiles() !! last.Tiles()
    modifies grid.Tiles(), last.Tiles()
    ensures grid.Valid() && Live(grids, ks)
    ensures 0 < H <= n
    ensures var c := CornersCompared(old(grid.States()), ks[|grids| - 1], CornerIndices(n, H), CornerIndices(n, H), answers);
            grid.States() == c.mine && r == c.verdict
  {
    ghost var s0, k := grid.States(), ks[|grids| - 1];
    r := grid.CornersIdentical(last, answers);
    CornersComparedKeepsReady(s0, k, CornerIndices(n, H), CornerIndices(n, H), answers);
    assert forall i :: 0 <= i < |grids| - 1 ==> grids[i].States() == ks[i];
    LiveFramed(grids, ks);
  }

  /** MapTileGrid.download followed by MapTileGrid.stitch on a new grid; no kept grid is touched. */
  method DownloadAndStitch(grid: MapTileGrid, answers: VersionAnswers,
                           ghost grids: seq<MapTileGrid>, ghost ks: seq<seq<TileState>>) returns (d: DownloadOutcome)
    requires Live(grids, ks) && grid.Valid() && Fits(answers, |grid.Flat()|)
    requires forall i :: 0 <= i < |grids| ==> grids[i].Tiles() !! grid.Tiles() && grids[i] != grid
    modifies grid, grid.Tiles()
    ensures Live(grids, ks) && grid.Valid()
    ensures grid.States() == GridDownload(old(grid.States()), answers.pool, answers.retry).states
    ensures d == GridDownload(old(grid.States()), answers.pool, answers.retry).outcome
    ensures d == Complete ==> Raster(grid, grid.States())
  {
    d := grid.Download(answers.pool, answers.retry);
    if d == Complete {
      grid.Stitch();
    }
    LiveFramed(grids, ks);
  }

  /**
   * Download, stitch and keep the grid of version v, whose tiles have the
   * states `s` the turn has left them in: one iteration of the loop from
   * grid.download() on. A download that does not complete raises.
   */
  method Keep(v: nat, n: nat, W: nat, H: nat, swX: int, neY: int, zoom: int,
              grid: MapTileGrid, answers: VersionAnswers,
              grids: seq<MapTileGrid>, versions: seq<nat>, ghost p: Progress)
    returns (grids': seq<MapTileGrid>, versions': seq<nat>, failure: Option<Failure>)
    requires Sound(p, n) && p.outcome.Finished? && versions == p.versions
    requires Live(grids, p.kept) && Laid(grids, versions, swX, neY, W, H, zoom)
    requires Layout(grid, swX, neY, W, H, zoom, v) && grid.Valid() && |grid.Flat()| == n && Fits(answers, n)
    requires forall i :: 0 <= i < |grids| ==> grids[i].Tiles() !! grid.Tiles() && grids[i] != grid
    modifies grid, grid.Tiles()
    ensures var q := KeepStep(v, old(grid.States()), answers, p);
            && versions' == q.versions && Live(grids', q.kept) && Laid(grids', versions', swX, neY, W, H, zoom)
            && (failure.None? <==> q.outcome.Finished?)
            && (failure.Some? ==> q.outcome == Aborted(v, failure.value))
    ensures grids' == grids || grids' == grids + [grid]
  {
    var d := DownloadAndStitch(grid, answers, grids, p.kept);
    if d != Complete {
      return grids, versions, Some(DownloadFailed(d));
    }
    LiveAppend(grids, p.kept, grid, grid.States());
    LaidAppend(grids, versions, swX, neY, W, H, zoom, grid, v);
    grids', versions', failure := grids + [grid], versions + [v], None;
  }

  /**
   * The turn of a later version v: compare the corners of its grid with
   * the grid kept last and skip the version when they look identical;
   * otherwise download, stitch and keep it.
   */
  method Compare(current: nat, v: nat, n: nat, W: nat, H: nat, swX: int, neY: int, zoom: int,
                 grid: MapTileGrid, answers: VersionAnswers,
                 grids: seq<MapTileGrid>, versions: seq<nat>, skipped: seq<nat>, ghost p: Progress)
    returns (grids': seq<MapTileGrid>, versions': seq<nat>, skipped': seq<nat>, failure: Option<Failure>)
    requires 0 < H <= n && v < current && Fits(answers, n)
    requires Sound(p, n) && p.outcome.Finished? && |p.kept| > 0 && versions == p.versions && skipped == p.skipped
    requires Live(grids, p.kept) && Laid(grids, versions, swX, neY, W, H, zoom)
    requires Layout(grid, swX, neY, W, H, zoom, v) && grid.Valid() && |grid.Flat()| == n && grid.States() == PendingStates(n)
    requires forall i :: 0 <= i < |grids| ==> grids[i].Tiles() !! grid.Tiles() && grids[i] != grid
    modifies grid, grid.Tiles(), grids[|grids| - 1].Tiles()
    ensures var q := VersionStep(current, v, n, H, answers, p);
            && versions' == q.versions && skipped' == q.skipped
            && Live(grids', q.kept) && Laid(grids', versions', swX, neY, W, H, zoom)
            && (failure.None? <==> q.outcome.Finished?)
            && (failure.Some? ==> q.outcome == Aborted(v, failure.value))
    ensures grids' == grids || grids' == grids + [grid]
  {
    var last := grids[|grids| - 1];
    ghost var c := TurnComparison(n, H, answers, p.kept);
    var r := CompareWithLast(grid, last, answers.corners, n, H, grids, p.kept);
    assert grid.States() == c.mine && r == c.verdict;
    if r.Failure? {
      return grids, versions, skipped, Some(CompareFailed(r.error));
    }
    if r.value {
      return grids, versions, skipped + [v], None;
    }
    skipped' := skipped;
    grids', versions', failure := Keep(v, n, W, H, swX, neY, zoom, grid, answers, grids, versions, p);
  }

  /**
   * The turn of version v on its new grid: the current version is always
   * downloaded, stitched and kept, a later one is first compared with the
   * grid kept last.
   */
  method TakeTurn(current: nat, v: nat, swX: int, neY: int, n: nat, W: nat, H: nat, zoom: int,
              grid: MapTileGrid, answers: VersionAnswers, grids: seq<MapTileGrid>, versions: seq<nat>, skipped: seq<nat>,
              ghost p: Progress, ghost q: Progress)
    returns (grids': seq<MapTileGrid>, versions': seq<nat>, skipped': seq<nat>, failure: Option<Failure>)
    requires 0 < H <= n && v <= current && Fits(answers, n)
    requires Sound(p, n) && p.outcome.Finished? && (v < current ==> |p.kept| > 0)
    requires q == VersionStep(current, v, n, H, answers, p)
    requires versions == p.versions && skipped == p.skipped
    requires Live(grids, p.kept) && Laid(grids, versions, swX, neY, W, H, zoom)
    requires Layout(grid, swX, neY, W, H, zoom, v) && grid.Valid() && |grid.Flat()| == n && grid.States() == PendingStates(n)
    requires forall i :: 0 <= i < |grids| ==> grids[i].Tiles() !! grid.Tiles() && grids[i] != grid
    modifies grid, grid.Tiles(), if |grids| > 0 then grids[|grids| - 1].Tiles() else {}
    ensures versions' == q.versions && skipped' == q.skipped
    ensures Live(grids', q.kept) && Laid(grids', versions', swX, neY, W, H, zoom)
    ensures failure.None? <==> q.outcome.Finished?
    ensures failure.Some? ==> q.outcome == Aborted(v, failure.value)
    ensures grids' == grids || grids' == grids + [grid]
  {
    if v == current {
      skipped' := skipped;
      grids', versions', failure := Keep(v, n, W, H, swX, neY, zoom, grid, answers, grids, versions, p);
    } else {
      grids', versions', skipped', failure := Compare(current, v, n, W, H, swX, neY, zoom, grid, answers, grids, versions, skipped, p);
    }
  }

  /**
   * One iteration of the loop over versions, for version v: build the grid
   * and take the turn of v; the progress moves from CrawlUpTo at v to
   * CrawlUpTo at v - 1.
   */
  method Visit(current: nat, v: nat, swX: int, swY: int, neX: int, neY: int, n: nat, W: nat, H: nat, zoom: int,
               answers: VersionAnswers, grids: seq<MapTileGrid>, versions: seq<nat>, skipped: seq<nat>,
               ghost net: seq<VersionAnswers>, ghost p: Progress, ghost footprint: set<MapTile>)
    returns (grids': seq<MapTileGrid>, versions': seq<nat>, skipped': seq<nat>, failure: Option<Failure>,
             ghost made: set<MapTile>)
    requires swX <= neX && neY <= swY && v <= current && W == Columns(swX, neX) && H == Rows(neY, swY) && n == W * H
    requires |net| == current + 1 && AllFit(net, n) && answers == net[v]
    requires p == CrawlUpTo(current, n, H, net, v) && p.outcome.Finished?
    requires versions == p.versions && skipped == p.skipped
    requires Live(grids, p.kept) && Laid(grids, versions, swX, neY, W, H, zoom)
    requires forall i :: 0 <= i < |grids| ==> grids[i].Tiles() <= footprint
    modifies if |grids| > 0 then grids[|grids| - 1].Tiles() else {}
    ensures var q := CrawlUpTo(current, n, H, net, v - 1);
            && versions' == q.versions && skipped' == q.skipped
            && Live(grids', q.kept) && Laid(grids', versions', swX, neY, W, H, zoom)
            && (failure.None? <==> q.outcome.Finished?)
            && (failure.Some? ==> q.outcome == Aborted(v, failure.value))
    ensures fresh(made)
    ensures forall i :: 0 <= i < |grids'| ==> grids'[i].Tiles() <= footprint + made
  {
    var grid := NewGrid(swX, swY, neX, neY, n, W, H, zoom, v);
    made := grid.Tiles();
    Apart(grids, grid, footprint);
    CrawlUnfolds(current, n, H, net, v - 1);
    assert v - 1 + 1 == v;
    assert CrawlUpTo(current, n, H, net, v - 1) == VersionStep(current, v, n, H, answers, p);
    grids', versions', skipped', failure :=
      TakeTurn(current, v, swX, neY, n, W, H, zoom, grid, answers, grids, versions, skipped, p, CrawlUpTo(current, n, H, net, v - 1));
    Grown(grids, grids', grid, footprint);
  }

  /** MapTileGrid.from_georect for version v, as one iteration of the loop over versions builds it. */
  method NewGrid(swX: int, swY: int, neX: int, neY: int, n: nat, W: nat, H: nat, zoom: int, v: nat)
    returns (grid: MapTileGrid)
    requires swX <= neX && neY <= swY && W == Columns(swX, neX) && H == Rows(neY, swY) && n == W * H
    ensures fresh(grid) && fresh(grid.Tiles()) && 0 < H <= n
    ensures Layout(grid, swX, neY, W, H, zoom, v) && grid.Valid()
    ensures |grid.Flat()| == n && grid.States() == PendingStates(n)
  {
    grid := new MapTileGrid.FromGeorect(swX, swY, neX, neY, zoom, v);
  }

  /** A new grid shares no tile with the kept grids, whose tiles are older. */
  lemma Apart(grids: seq<MapTileGrid>, grid: MapTileGrid, footprint: set<MapTile>)
    requires forall i :: 0 <= i < |grids| ==> grids[i].Tiles() <= footprint
    requires grid !in grids && footprint !! grid.Tiles()
    ensures forall i :: 0 <= i < |grids| ==> grids[i].Tiles() !! grid.Tiles() && grids[i] != grid
  {
  }

  /** The kept grids' tiles stay within the footprint, grown by the new grid's tiles. */
  lemma Grown(grids: seq<MapTileGrid>, grids': seq<MapTileGrid>, grid: MapTileGrid, footprint: set<MapTile>)
    requires grids' == grids || grids' == grids + [grid]
    requires forall i :: 0 <= i < |grids| ==> grids[i].Tiles() <= footprint
    ensures forall i :: 0 <= i < |grids'| ==> grids'[i].Tiles() <= footprint + grid.Tiles()
  {
    forall i | 0 <= i < |grids'|
      ensures grids'[i].Tiles() <= footprint + grid.Tiles()
    {
      if i < |grids| {
        assert grids'[i] == grids[i];
      }
    }
  }

  /** The kept grids in the heap are those the snapshots describe, all downloaded and stitched. */
  lemma Conclude(grids: seq<MapTileGrid>, ks: seq<seq<TileState>>, versions: seq<nat>,
                 swX: int, neY: int, W: nat, H: nat, zoom: int)
    requires Live(grids, ks) && Laid(grids, versions, swX, neY, W, H, zoom)
    ensures |grids| == |versions|
    ensures forall i :: 0 <= i < |grids| ==>
              && grids[i].States() == ks[i] && Kept(grids[i])
              && Layout(grids[i], swX, neY, W, H, zoom, versions[i])
  {
    forall i | 0 <= i < |grids|
      ensures Kept(grids[i])
    {
      assert AllOk(ks[i]) by {
        forall k | 0 <= k < |ks[i]|
          ensures TileOk(ks[i][k])
        {
          assert Ready(ks[i][k]);
        }
      }
    }
  }

  /**
   * The loop over range(current, -1, -1). `net[v]` is what the tile server
   * answers for version v. `grids` are the kept grids, of versions
   * `versions`; `skipped` are the versions whose corners looked identical
   * to those of the grid kept last. All three, and the way the run ended,
   * are those of CrawlUpTo.
   */
  method Crawl(current: nat, swX: int, swY: int, neX: int, neY: int, zoom: int, net: seq<VersionAnswers>)
    returns (grids: seq<MapTileGrid>, versions: seq<nat>, skipped: seq<nat>, outcome: CrawlOutcome)
    requires swX <= neX && neY <= swY
    requires |net| == current + 1 && AllFit(net, Columns(swX, neX) * Rows(neY, swY))
    ensures var p := CrawlUpTo(current, Columns(swX, neX) * Rows(neY, swY), Rows(neY, swY), net, -1);
            && versions == p.versions && skipped == p.skipped && outcome == p.outcome && |grids| == |versions|
            && forall i :: 0 <= i < |grids| ==>
                 && grids[i].States() == p.kept[i] && Kept(grids[i])
                 && Layout(grids[i], swX, neY, Columns(swX, neX), Rows(neY, swY), zoom, versions[i])
  {
    var W: nat, H: nat := Columns(swX, neX), Rows(neY, swY);
    var n: nat := W * H;
    assert H <= n;
    grids, versions, skipped, outcome := [], [], [], Finished;
    ghost var p := CrawlUpTo(current, n, H, net, current);
    ghost var footprint: set<MapTile> := {};
    var v: int := current;
    while 0 <= v
      invariant -1 <= v <= current && p == CrawlUpTo(current, n, H, net, v) && p.outcome.Finished?
      invariant versions == p.versions && skipped == p.skipped && outcome == Finished
      invariant Live(grids, p.kept) && Laid(grids, versions, swX, neY, W, H, zoom)
      invariant fresh(footprint) && forall i :: 0 <= i < |grids| ==> grids[i].Tiles() <= footprint
      decreases v + 1
    {
      var failure;
      ghost var made;
      grids, versions, skipped, failure, made :=
        Visit(current, v, swX, swY, neX, neY, n, W, H, zoom, net[v], grids, versions, skipped, net, p, footprint);
      footprint := footprint + made;
      p := CrawlUpTo(current, n, H, net, v - 1);
      if failure.Some? {
        outcome := Aborted(v, failure.value);
        CrawlStaysAborted(current, n, H, net, v - 1, -1);
        Conclude(grids, p.kept, versions, swX, neY, W, H, zoom);
        return;
      }
      v := v - 1;
    }
    Conclude(grids, p.kept, versions, swX, neY, W, H, zoom);
  }
}
