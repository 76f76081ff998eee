/**
 * Map tiles and their download state machine (MapTileStatus, MapTile.load,
 * MapTile.download).  The HTTP request is an input: the server's answer to
 * the one request a download makes.
 */
module Tiles {
  import opened Wrappers
  import opened Imagery

  /** MapTileStatus: PENDING = 1, DOWNLOADING = 2, DOWNLOADED = 3, ERROR = 4. */
  datatype Status = Pending | Downloading | Downloaded | Error

  /** What a request for a tile comes back with: a connection error, or a status code and the decoded body. */
  datatype HttpOutcome = ConnectionError | Response(statusCode: int, body: Picture)

  /** The mutable part of a MapTile. */
  datatype TileState = TileState(status: Status, image: Option<Picture>)

  /** Every downloaded tile holds an RGB image of 256 x 256 pixels. */
  predicate TileOk(s: TileState)
  {
    s.status == Downloaded ==> s.image.Some? && IsTileImage(s.image.value)
  }

  /** The one answer that makes a download succeed. */
  predicate Serves(answer: HttpOutcome)
  {
    answer.Response? && answer.statusCode == 200 && IsTileImage(answer.body)
  }

  /** The state a load leaves and whether it raised (an AssertionError on a malformed image). */
  datatype LoadResult = LoadResult(state: TileState, raised: bool)

  /**
   * MapTile.download: a connection error or a status other than 200 ends in
   * ERROR, keeping the old image; a 200 stores the decoded image and ends in
   * DOWNLOADED when it is RGB 256 x 256, and otherwise raises, leaving the
   * tile DOWNLOADING.
   */
  function Fetched(s: TileState, answer: HttpOutcome): (r: LoadResult)
    ensures r.state.status == Downloaded <==> Serves(answer)
    ensures r.state.status == Error <==> (answer.ConnectionError? || answer.statusCode != 200)
    ensures r.raised <==> r.state.status == Downloading
    ensures r.state.status != Pending
    ensures r.state.image == (if answer.Response? && answer.statusCode == 200 then Some(answer.body) else s.image)
    ensures TileOk(r.state)
  {
    match answer
    case ConnectionError => LoadResult(TileState(Error, s.image), false)
    case Response(code, body) =>
      if code != 200 then LoadResult(TileState(Error, s.image), false)
      else if !IsTileImage(body) then LoadResult(TileState(Downloading, Some(body)), true)
      else LoadResult(TileState(Downloaded, Some(body)), false)
  }

  /** MapTile.load: download unless the tile is already downloaded. */
  function Loaded(s: TileState, answer: HttpOutcome): (r: LoadResult)
    ensures s.status == Downloaded ==> r == LoadResult(s, false)
    ensures s.status != Downloaded ==> r == Fetched(s, answer)
    ensures r.state.status != Pending
    ensures r.raised <==> r.state.status == Downloading
    ensures TileOk(s) ==> TileOk(r.state)
  {
    if s.status != Downloaded then Fetched(s, answer) else LoadResult(s, false)
  }

  /** A tile that has been downloaded and holds a tile-sized RGB image. */
  predicate Ready(s: TileState)
  {
    s.status == Downloaded && s.image.Some? && IsTileImage(s.image.value)
  }

  class MapTile {
    const version: nat
    const zoom: int
    const x: int
    const y: int
    var status: Status
    var image: Option<Picture>

    constructor (version: nat, zoom: int, x: int, y: int)
      ensures this.version == version && this.zoom == zoom && this.x == x && this.y == y
      ensures State() == TileState(Pending, None)
    {
      this.version, this.zoom, this.x, this.y := version, zoom, x, y;
      status, image := Pending, None;
    }

    function State(): TileState
      reads this
    {
      TileState(status, image)
    }

    /** MapTile.load; `raised` reports the AssertionError that download may raise. */
    method Load(answer: HttpOutcome) returns (raised: bool)
      modifies this
      ensures State() == Loaded(old(State()), answer).state
      ensures raised == Loaded(old(State()), answer).raised
    {
      raised := false;
      if status != Downloaded {
        raised := Download(answer);
      }
    }

    /** MapTile.download. */
    method Download(answer: HttpOutcome) returns (raised: bool)
      modifies this
      ensures State() == Fetched(old(State()), answer).state
      ensures raised == Fetched(old(State()), answer).raised
    {
      status := Downloading;
      raised := false;
      match answer {
        case ConnectionError =>
          status := Error;
        case Response(code, body) =>
          if code != 200 {
            status := Error;
            return;
          }
          image := Some(body);
          if !IsTileImage(body) {
            raised := true;
            return;
          }
          status := Downloaded;
      }
    }
  }
}
