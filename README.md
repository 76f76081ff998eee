# Google Maps at 88 mph — a verified model of the tile crawler

The program downloads the satellite imagery of a rectangle around a point for
every imagery version of the tile server. It starts at the current version and
counts down to version 0. For each version it:

- builds the grid of map tiles covering the rectangle at a zoom level chosen
  from a meters-per-pixel constraint;
- from the second version on, compares the four corner tiles with those of the
  grid kept last, and skips the version when they look identical;
- otherwise downloads every tile with a pool of threads and one retry pass,
  and stitches the tiles into one raster.

This project models that core in Dafny and proves properties of it:

- `geodesy.dfy` (module `Geodesy`): the ground resolution per zoom level, the
  zoom level choice as written and as intended, the rectangle around a point,
  and the meters-per-pixel constraint derived from the output size.
- `imagery.dfy` (module `Imagery`): RGB rasters, the channel-summed pixel
  difference, and the corner verdict with its threshold of 256².
- `tiles.dfy` (module `Tiles`): the tile status machine. `MapTile` is a class
  whose `Load` and `Download` methods update its status and image in place.
  They are specified by the pure functions `Fetched` and `Loaded`.
- `grid.dfy` (module `Grid`): the class `MapTileGrid`. It covers construction
  from the corner tile coordinates, the wrapping accessor, the flattening, the
  corners, the download with one retry pass, the corner comparison, and
  stitching into a two-dimensional array. The download is specified by the
  pure function `GridDownload`.
- `crawl.dfy` (module `Crawl`): the loop of `main` over versions, with the
  grids it keeps and the versions it skips.

Inputs and outputs of the outside world become parameters:

- Every HTTP request is answered by an `HttpOutcome`: a connection error, or a
  status code with a decoded picture. The answers are given in the order in
  which the source makes its requests.
- The cosine of the latitude is an input.
- The tile coordinates of the rectangle's corners are inputs. The Web Mercator
  projection is not modelled.
- The current version number is an input.

## Model

| member | source | states |
|---|---|---|
| Geodesy.Resolution | googlemapsat88mph.py:82 | the meters per pixel at a zoom level, times 2^zoom, give back the meters per pixel at zoom 0 |
| Geodesy.ResolutionHalves | googlemapsat88mph.py:82 | each zoom level halves the meters per pixel of the previous one |
| Geodesy.ResolutionMonotone | googlemapsat88mph.py:76-82 | a finer zoom never has a coarser resolution, and resolutions are non-negative |
| Geodesy.ComputeZoomLevel | googlemapsat88mph.py:69-91 | as written: the result is in 1..24, the zoom below it exceeds the limit, every zoom from it to 23 meets it, and it raises exactly when all of 0..23 meet the limit |
| Geodesy.ComputeZoomLevelRaisesIffZoomZeroSuffices | googlemapsat88mph.py:81-91 | the as-written scan raises exactly when zoom 0 already meets the constraint |
| Geodesy.ComputeZoomLevelCounterexamples | googlemapsat88mph.py:81-91 | concrete inputs: a coarse limit that zoom 0 meets is refused; a limit no zoom meets yields zoom 24 |
| Geodesy.CoarsestZoomLevel | googlemapsat88mph.py:69-75 | the intended result: the lowest zoom in 0..23 meeting the constraint (every coarser one fails it), and an error exactly when zoom 23 is too coarse |
| Geodesy.AroundGeoPoint | googlemapsat88mph.py:112-131 | a non-positive size fails; otherwise the rectangle is centred on the point and spans the height in latitude and the width in longitude scaled by cos(lat); it fails exactly when a corner leaves the GeoPoint ranges (line 52) |
| Geodesy.MaxMetersPerPixel | googlemapsat88mph.py:556-568 | no output size needs a given constraint; one output dimension scales the given constraint (or 1) by area/image size; both use the smaller ratio |
| Geodesy.MaxMetersPerPixelIsTighter | googlemapsat88mph.py:564-568 | with both output dimensions, the constraint is one of the per-dimension constraints and no larger than either |
| Imagery.PixelDifference | googlemapsat88mph.py:413-414 | the channel sum of the absolute difference of two pixels is at most 3·255, and 0 exactly when the pixels are equal |
| Imagery.RowDifference | googlemapsat88mph.py:413-414 | the summed difference of two rows of pixels is 0 exactly when the rows are equal |
| Imagery.RowsDifference | googlemapsat88mph.py:413-414 | the summed difference of two equally shaped rasters is 0 exactly when they are equal |
| Imagery.PictureDifference | googlemapsat88mph.py:413-414 | the channel sum of ImageChops.difference of two images of one size is 0 exactly when their pixels are equal |
| Imagery.CornerDifferenceZero | googlemapsat88mph.py:399-414 | the sum `diffs` over the paired corners is 0 exactly when every pair of corners has equal pixels |
| Imagery.IdenticalCornersAlike | googlemapsat88mph.py:424 | corners whose pairs have equal pixels are always judged identical |
| Imagery.CornersAlikeReflexive | googlemapsat88mph.py:395-424 | corners compared with themselves differ by 0 and are judged identical |
| Imagery.CornerDifferenceSymmetric | googlemapsat88mph.py:413-414 | the summed difference does not depend on which grid is the receiver |
| Imagery.OnePixelCornerDifference | googlemapsat88mph.py:413-414 | repainting one pixel of one corner changes the summed difference by exactly that pixel's channel difference |
| Imagery.OnePixelLastCorner | googlemapsat88mph.py:413-414 | the same, when the repainted corner is the last one |
| Imagery.OnePixelChangeKeepsCornersAlike | googlemapsat88mph.py:413-424 | corners differing in a single pixel are still judged identical, because the verdict is a threshold of 256² |
| Tiles.Fetched | googlemapsat88mph.py:170-203 | DOWNLOADED exactly when the answer is a 200 with an RGB 256x256 image; ERROR exactly on a connection error or another status; it raises exactly when it is left DOWNLOADING; a downloaded tile always holds a tile image |
| Tiles.Loaded | googlemapsat88mph.py:160-167 | a DOWNLOADED tile is left as it is; any other tile is downloaded; a downloaded tile still holds an RGB 256x256 image afterwards |
| Tiles.MapTile.constructor | googlemapsat88mph.py:147-155 | a new tile has its coordinates, is PENDING and has no image |
| Tiles.MapTile.Load | googlemapsat88mph.py:160-167 | the new state and the raised flag are those of Loaded on the old state |
| Tiles.MapTile.Download | googlemapsat88mph.py:170-203 | the new state and the raised flag are those of Fetched on the old state |
| Grid.ConcatMembers | googlemapsat88mph.py:343 | every tile of every column is in the flattening, and every element of the flattening is a tile of some column |
| Grid.ConcatLength | googlemapsat88mph.py:340-343 | flattening equal-length columns gives columns × height tiles |
| Grid.ConcatIndex | googlemapsat88mph.py:340-343 | element (x, y) of the nested list sits at x·height + y of the flattening |
| Grid.PyIndex | googlemapsat88mph.py:338 | Python's list index, which counts a negative index from the end, is the element at the index modulo the length |
| Grid.ModWrap | googlemapsat88mph.py:331-338 | one added width (or two) brings an index in range, as Python's negative indexing does |
| Grid.CountStatus | googlemapsat88mph.py:369-380 | the number of tiles with a status is at most the number of tiles, and equal to it exactly when every tile has that status |
| Grid.CountStatusZero | googlemapsat88mph.py:369-382 | no tile counted with a status exactly when no tile has it |
| Grid.PoolPass | googlemapsat88mph.py:358-366 | the pool loads every tile once, each with its own answer |
| Grid.Retried | googlemapsat88mph.py:368-373 | the retry pass over the first i missing tiles keeps the number of tiles and leaves every later tile as it was |
| Grid.RetriedShape | googlemapsat88mph.py:368-373 | the retry pass touches only ERROR tiles, each once; without a raise every one is reloaded; a raise leaves a tile DOWNLOADING |
| Grid.RetriedStopsAfterRaise | googlemapsat88mph.py:372-373 | once a retried load raises, no later tile is loaded |
| Grid.RetryWanted | googlemapsat88mph.py:370 | the integer test 0 < m and 5·m < n is the source's 0 < m < 0.2·n |
| Grid.GridDownload | googlemapsat88mph.py:345-382 | a retry happens exactly when 0 < missing < 20% of the tiles |
| Grid.GridDownloadCompleteIffAllDownloaded | googlemapsat88mph.py:379-382 | the download succeeds exactly when every tile is DOWNLOADED |
| Grid.GridDownloadKeepsDownloaded | googlemapsat88mph.py:160-167 | a tile already DOWNLOADED is never fetched again |
| Grid.GridDownloadKeepsTilesOk | googlemapsat88mph.py:198-203 | every DOWNLOADED tile keeps holding an RGB 256x256 image |
| Grid.GridDownloadRetriesOnlyErrors | googlemapsat88mph.py:368-373 | only tiles in ERROR after the pool are retried; without a retry the pool's states stand |
| Grid.GridDownloadGivesUpOnManyMissing | googlemapsat88mph.py:368-382 | with 20% or more of the tiles missing there is no retry and the download fails |
| Grid.GridDownloadReady | googlemapsat88mph.py:379-382 | a download keeps every DOWNLOADED tile, and a complete one leaves every tile DOWNLOADED with a tile image |
| Grid.MapTileGrid.FromGeorect | googlemapsat88mph.py:310-329 | columns swX..neX with rows neY..swY of fresh PENDING tiles of the version and zoom; the grid is rectangular with distinct tiles |
| Grid.MapTileGrid.Flat | googlemapsat88mph.py:340-343 | the flattening of a rectangular grid has width × height tiles |
| Grid.MapTileGrid.FlatAt | googlemapsat88mph.py:340-343 | tile [x][y] is element x·height + y of the flattening (column-major) |
| Grid.MapTileGrid.At | googlemapsat88mph.py:331-338 | at(x, y) is tile [x mod width][y mod height] for -2·width <= x < width, and likewise for y: one added width, then Python's negative list index |
| Grid.MapTileGrid.Corners | googlemapsat88mph.py:386-392 | the four corners in the order (0,0), (0,-1), (-1,0), (-1,-1); a single column or row repeats tiles |
| Grid.MapTileGrid.CornerTiles | googlemapsat88mph.py:386-392 | corner k of the grid is the tile at flat index CornerIndices[k] of the flattening |
| Grid.MapTileGrid.Download | googlemapsat88mph.py:345-382 | the new tile states and the outcome are those of GridDownload; success means every tile is downloaded |
| Grid.MapTileGrid.CornersIdentical | googlemapsat88mph.py:395-424 | the new states of both grids and the verdict or error are those of CornersCompared on the old states and the sixteen answers; on success every corner is ready and the verdict is the summed difference below 256² |
| Grid.MapTileGrid.PasteColumn | googlemapsat88mph.py:437-438 | pasting column x sets exactly that column's pixels to the stitched raster |
| Grid.MapTileGrid.Stitch | googlemapsat88mph.py:429-439 | a fresh (width·256) × (height·256) raster whose pixel (X, Y) is pixel (X mod 256, Y mod 256) of tile [X div 256][Y div 256] |
| Grid.CornerIndices | googlemapsat88mph.py:392 | four indices, each within the flattened grid |
| Grid.CornerStates | googlemapsat88mph.py:386-392 | four corner states, ready when the grid is; a single column or a single row repeats corners, as the docstring at 388-389 says |
| Grid.CornerStatesKept | googlemapsat88mph.py:160-167 | ready corners survive any pass that keeps DOWNLOADED tiles |
| Grid.StitchedPixel | googlemapsat88mph.py:438 | the raster of a single-tile grid is that tile's image |
| Grid.Paste | googlemapsat88mph.py:438 | the 256x256 block at the offset is the tile's pixels; every other pixel is kept |
| Grid.NewColumn | googlemapsat88mph.py:319-327 | one column of distinct fresh PENDING tiles y = top..bottom |
| Grid.LoadAll | googlemapsat88mph.py:365-366 | the pool pass leaves the states PoolPass describes |
| Grid.LoadAndRetry | googlemapsat88mph.py:365-373 | pool and retry leave GridDownload's states; it raises exactly when the outcome is a bad tile image |
| Grid.DownloadTiles | googlemapsat88mph.py:345-382 | states and outcome are those of GridDownload |
| Grid.Count | googlemapsat88mph.py:369-380 | the number of tiles with a status, equal to CountStatus |
| Grid.RetryErrors | googlemapsat88mph.py:368-373 | the retry pass leaves the states and raise of Retried |
| Grid.RetryOne | googlemapsat88mph.py:372-373 | one retry step advances Retried by one tile |
| Grid.PairLoaded | googlemapsat88mph.py:400-407 | the loads a, b, a, b of one pair, stopping at a raise: DOWNLOADED tiles are kept, tile images are kept, it raises exactly when a tile is left DOWNLOADING, and otherwise both tiles end DOWNLOADED or ERROR |
| Grid.CornerRounds | googlemapsat88mph.py:400-414 | after k rounds the grids keep their sizes and tile images, and without an error k pairs of tile images have been compared |
| Grid.CornersCompared | googlemapsat88mph.py:395-424 | cornersIdentical on tile states: the grids keep their sizes and their tile images |
| Grid.CornerRoundsStop | googlemapsat88mph.py:409-410 | once a round has raised, later rounds change nothing |
| Grid.CornerRoundsKeep | googlemapsat88mph.py:160-167 | the rounds keep every DOWNLOADED tile and touch no tile other than the corners |
| Grid.CornerRoundsImages | googlemapsat88mph.py:400-414 | after k rounds without an error, corner j < k of each grid is DOWNLOADED with the image compared in round j |
| Grid.CornerRoundsErrors | googlemapsat88mph.py:400-410 | a bad corner image leaves a compared corner DOWNLOADING; an unavailable corner is a compared corner left in ERROR |
| Grid.CornersComparedVerdict | googlemapsat88mph.py:409-424 | a comparison that does not raise leaves all corners ready, and its verdict is the corner verdict of the states it leaves |
| Grid.RoundsVerdict | googlemapsat88mph.py:413-424 | the summed difference of the compared images is the one of the ready corner states |
| Grid.CornersComparedKeepsReady | googlemapsat88mph.py:160-167 | comparing against a grid whose tiles are all DOWNLOADED leaves that grid exactly as it was |
| Grid.CornerDifferenceAppend | googlemapsat88mph.py:414 | one more pair of corners adds its difference to `diffs` |
| Grid.CompareCorners | googlemapsat88mph.py:399-424 | the loop over the four pairs leaves the states and verdict of CornersCompared |
| Grid.CompareRound | googlemapsat88mph.py:400-414 | one round advances CornerRounds by one pair, and adds that pair's difference to the sum |
| Grid.LoadCorner | googlemapsat88mph.py:400-407 | the loads of round k change corner k of each grid as PairLoaded says, and no other tile |
| Grid.LoadPair | googlemapsat88mph.py:400-407 | the four loads of a pair leave the states and raise of PairLoaded |
| Crawl.KeepVersion | googlemapsat88mph.py:587-648 | keeping version v extends the decreasing list of kept versions |
| Crawl.SkipVersion | googlemapsat88mph.py:598-605 | skipping v records it as compared with the grid kept last |
| Crawl.FirstKept | googlemapsat88mph.py:587-598 | once the current version is visited, it is the first kept version |
| Crawl.KeepStep | googlemapsat88mph.py:607-648 | a download that completes appends the version and the downloaded states; one that does not ends the run at that version with the download's outcome |
| Crawl.VersionStep | googlemapsat88mph.py:595-648 | one turn of the loop keeps the progress sound, and a run that goes on has kept a grid |
| Crawl.CrawlUpTo | googlemapsat88mph.py:587-648 | the progress after the versions above v: nothing kept before the current version's turn, and a grid kept once a turn has ended without an exception |
| Crawl.Turn | googlemapsat88mph.py:587-648 | the progress after version u's turn is sound |
| Crawl.Advance | googlemapsat88mph.py:595-648 | the turn of version u on a run that is still going is sound |
| Crawl.CrawlHalts | googlemapsat88mph.py:587 | once an exception has ended the run, the next turn changes nothing |
| Crawl.CrawlUnfolds | googlemapsat88mph.py:587-648 | a run still going takes the turn of the next version |
| Crawl.TurnComparison | googlemapsat88mph.py:595-603 | cornersIdentical of a new grid against the grid kept last leaves n states, each with a tile image when DOWNLOADED |
| Crawl.StartStates | googlemapsat88mph.py:595-608 | the states a version's download starts from: n states, each with a tile image when DOWNLOADED |
| Crawl.CrawlStepped | googlemapsat88mph.py:587-648 | the turn of a version keeps the run, skips the version, or ends the run at it |
| Crawl.CrawlJudged | googlemapsat88mph.py:603-605 | the verdict behind a turn's choice: a skipped grid's corners match the grid kept last, a later kept grid's corners differ from them |
| Crawl.CrawlDownloaded | googlemapsat88mph.py:607-648 | a turn that keeps a version appends the states of its complete download |
| Crawl.StepShape | googlemapsat88mph.py:598-648 | one turn keeps the run, skips the version, or ends the run at it |
| Crawl.StepCases | googlemapsat88mph.py:598-648 | a skipped version had a verdict of identical corners; a kept version had different corners (or is the current one) and a complete download whose states were appended |
| Crawl.CrawlStaysAborted | googlemapsat88mph.py:603-608 | once an exception has ended the run, the later versions change nothing |
| Crawl.CrawlVisits | googlemapsat88mph.py:587-648 | every version from the current one down to where the run stands is kept or skipped, never both; each skipped version was compared with the last version kept above it; the current version is the first kept |
| Crawl.StepVisits | googlemapsat88mph.py:587-648 | one turn visits its version: kept, skipped, or the run ends there |
| Crawl.CrawlVerdicts | googlemapsat88mph.py:598-605 | every kept grid's corners differ from those of the grid kept before it, and every skipped grid's corners matched those of the grid it was compared with |
| Crawl.CrawlVerdictsStep | googlemapsat88mph.py:598-605 | one turn keeps the verdicts of CrawlVerdicts |
| Crawl.StepVerdicts | googlemapsat88mph.py:598-605 | a turn whose choice agrees with its verdict keeps the verdicts |
| Crawl.StepJudged | googlemapsat88mph.py:598-605 | the choice of one turn agrees with its corner verdict |
| Crawl.StepSkipJudged | googlemapsat88mph.py:603-605 | a skipped grid's corners match those of the grid kept last |
| Crawl.StepKeepJudged | googlemapsat88mph.py:603-608 | a later kept grid's corners differ from those of the grid kept last |
| Crawl.KeptVerdict | googlemapsat88mph.py:603-608 | a kept later grid's downloaded corners differ from those of the grid kept last |
| Crawl.SkippedVerdict | googlemapsat88mph.py:603-605 | a skipped grid's corners match those of the grid kept last |
| Crawl.CrawlKeptDownloads | googlemapsat88mph.py:595-648 | every kept grid holds the states of a complete download of its version, starting from a new grid for the current version and from the states the comparison left for a later one |
| Crawl.StepKeptDownloads | googlemapsat88mph.py:607-648 | one turn keeps that fact for every kept grid |
| Crawl.NewKeptDownload | googlemapsat88mph.py:607-648 | the grid a turn keeps holds the states of its complete download |
| Crawl.StepAborts | googlemapsat88mph.py:603-608 | a turn that raises does so because the comparison raised or the download did not complete |
| Crawl.CrawlAborts | googlemapsat88mph.py:603-608 | a run ended by an exception ended at a version whose comparison raised or whose download, from the states the comparison left, did not complete |
| Crawl.FailedDownloadEnds | googlemapsat88mph.py:603-608 | a version the run reaches and keeps, whose download does not complete, ends the run there with that outcome, and no later version has a turn |
| Crawl.CompareWithLast | googlemapsat88mph.py:598-605 | the comparison with the grid kept last leaves every kept grid and raster as it was, and the new grid's states and the verdict are those of CornersCompared |
| Crawl.DownloadAndStitch | googlemapsat88mph.py:607-613 | download then stitch: the new states and the outcome are those of GridDownload, and success leaves a raster stitched from ready tiles |
| Crawl.Keep | googlemapsat88mph.py:607-648 | the lists, the kept grids and the failure are those of KeepStep on the grid's states |
| Crawl.Compare | googlemapsat88mph.py:598-648 | the lists, the kept grids and the failure are those of VersionStep for a later version |
| Crawl.TakeTurn | googlemapsat88mph.py:598-648 | the lists, the kept grids and the failure are those of VersionStep |
| Crawl.Visit | googlemapsat88mph.py:587-648 | one iteration moves the lists, the kept grids and the failure from CrawlUpTo at v to CrawlUpTo at v - 1 |
| Crawl.NewGrid | googlemapsat88mph.py:595 | a fresh grid over the rectangle for the version, all of its tiles PENDING |
| Crawl.Conclude | googlemapsat88mph.py:645-648 | every kept grid is fully downloaded, stitched from its states, and laid out for its version |
| Crawl.Crawl | googlemapsat88mph.py:585-659 | the kept versions, the skipped versions and the way the run ended are those of CrawlUpTo over the server's answers; each kept grid holds the states CrawlUpTo kept, is fully downloaded and stitched, and is laid out for its version |

## Left out

- The Web Mercator projection, `to_maptile` and the cosine of the latitude:
  these are floating-point transcendental maths. Tile coordinates and cos(lat)
  are inputs.
- HTTP: requests, URLs and the user agent string. Each request's answer is an
  input. A body that PIL cannot decode is not modelled: every 200 carries a
  decoded picture.
- The discovery of the current version from the Google Maps page
  (lines 537-552): the current version is an input.
- Command-line parsing (lines 498-533), console output, `ProgressIndicator`
  and the debug output and image files written by `cornersIdentical`
  (lines 415-421): these are I/O only.
- The thread pool and `random.shuffle`: the pool pass is modelled as one
  sequential pass in flat order. Each tile has its own answer, so order does
  not matter. An exception raised inside the pool is swallowed by its future.
  The tile is then left DOWNLOADING, the progress thread never ends, and the
  model reports `Stalled` instead of running forever.
- `MapTileImage.crop` returns before doing anything (line 457), so it is not
  modelled. `MapTileImage.scale` (LANCZOS resampling), saving JPEG and GIF
  files, and the file name template are not modelled either.
- Geodesy.ComputeZoomLevel: takes the meters per pixel at zoom 0 as an input
  rather than computing it from the latitude.
- Geodesy.AroundGeoPoint: takes cos(lat) as an input. It returns an error
  instead of raising the `AssertionError` of `GeoPoint`'s constructor.
- Grid.MapTileGrid.FromGeorect: requires swX <= neX and neY <= swY. The
  program's own rectangles always satisfy this, but the source does not check
  it. With swX > neX the source fails at `len(maptiles[0])`; with neY > swY it
  builds columns without tiles.
- Crawl.Crawl: a grid's image is stated as stitched from the tile states. The
  list of saved `MapTileImage`s (`downloadedImages`) is not modelled
  separately.
- When a load in the retry pass raises (`BadTileImage`), the exception leaves
  `download` before `prog_thread.join()` (line 376). The progress thread is not
  a daemon and keeps polling the tile left DOWNLOADING, so the process does not
  exit after the traceback. The model reports the outcome and stops.
- Geodesy.AroundGeoPoint, Geodesy.MaxMetersPerPixel: the range checks and
  ratios are computed over exact reals, not floats; rounding at the
  boundaries is not modelled.
- Grid.RetryWanted: 0.2 is taken as exactly one fifth; the float product
  0.2·n is not modelled.
- Grid.MapTileGrid.CornersIdentical: requires the two grids to share no tile.
  Every grid the program compares is a new one against a kept one, so this
  always holds.

## Behaviour of the code

The model follows the code on three points a reader might expect otherwise:

- `cornersIdentical` judges two sets of corners identical when their summed
  difference is below 256² (line 424), not only when they are equal pixel for
  pixel (`Imagery.OnePixelChangeKeepsCornersAlike`).
- A download that does not complete raises at line 382 whatever the version,
  so a failed download of a later version ends the run just as one of the
  current version does (`Crawl.FailedDownloadEnds`).
- The retry threshold is the fixed 20% of line 370 (`Grid.RetryWanted`).

## Findings

| source | as written | input that shows it | evidently intended | confidence | as-written member | corrected member |
|---|---|---|---|---|---|---|
| googlemapsat88mph.py:81-91 | scans zoom 23 down to 0 and returns one more than the first zoom whose resolution exceeds the limit; raises when none exceeds it | resolution 1 m/px at zoom 0 with a limit of 2 m/px raises, although zoom 0 meets it; a limit of 0 m/px returns zoom 24, which the server does not offer | the lowest zoom in 0..23 that meets the limit, and an error only when zoom 23 is too coarse | not executed | Geodesy.ComputeZoomLevel, Geodesy.ComputeZoomLevelCounterexamples | Geodesy.CoarsestZoomLevel |
