/** Project01/HttpServer/HttpServer.cs `HandleRequest`: the thread-pool server. It checks
    the method, `query` and the presence of `type`, then serves albums or tracks from the
    cache or fetches them as a bag of pages; a failed fetch answers 400 and any other
    `type` answers 400 "Invalid type GET parameter". */
module HttpServer01 {
  import opened Results
  import opened Models
  import opened Caches
  import opened Pagination
  import opened Http
  import SpotifyFetcher01

  /** How the checks before the type dispatch end: an early response, or the query and
      the raw `type` value to dispatch on. */
  datatype Decision = Rejected(response: Response) | Accepted(query: string, kind: string)

  /** The checks of `HandleRequest` before it looks at the value of `type`. */
  function Validate(req: Request): (d: Decision)
    ensures req.httpMethod != "GET" ==> d == Rejected(MethodNotAllowed())
    ensures d.Accepted? <==>
      && req.httpMethod == "GET"
      && !IsNullOrEmpty(Get(req, "query"))
      && Get(req, "type").Some?
    ensures d.Accepted? ==> Get(req, "query") == Some(d.query) && Get(req, "type") == Some(d.kind)
    ensures req.httpMethod == "GET" && IsNullOrEmpty(Get(req, "query")) ==>
      d == Rejected(BadRequest("Missing query GET parameter"))
    ensures req.httpMethod == "GET" && !IsNullOrEmpty(Get(req, "query")) && Get(req, "type").None? ==>
      d == Rejected(BadRequest("Missing type GET parameter"))
  {
    var query := Get(req, "query");
    var kind := Get(req, "type");
    if req.httpMethod != "GET" then Rejected(MethodNotAllowed())
    else if IsNullOrEmpty(query) then Rejected(BadRequest("Missing query GET parameter"))
    else if kind.None? then Rejected(BadRequest("Missing type GET parameter"))
    else Accepted(query.value, kind.value)
  }

  /** The server's state: the cache and whether it is listening. The listener and its
      thread are not modelled. */
  class HttpServer {
    const cache: SpotifyCache
    var active: bool

    constructor (cache: SpotifyCache)
      ensures this.cache == cache && !active
    {
      this.cache := cache;
      active := false;
    }

    method Start()
      modifies this
      ensures active
    {
      active := true;
    }

    /** Stopping the server empties both halves of the cache. */
    method Stop()
      modifies this, cache
      ensures !active
      ensures cache.tracks == map[] && cache.albums == map[]
    {
      active := false;
      cache.ClearCachedAlbums();
      cache.ClearCachedTracks();
    }

    /** One request. `trackPages(query)` and `albumPages(query)` are the upstream page
        requests for that query; the pages arrive in whichever order the pool finishes
        them, so a fetched list is stated as a multiset of what the pages hold. */
    method HandleRequest(
      req: Request,
      trackPages: string -> PageSource<Track>, albumPages: string -> PageSource<Album>)
      returns (resp: Response)
      modifies cache
      ensures Validate(req).Rejected? ==>
        resp == Validate(req).response && cache.tracks == old(cache.tracks) && cache.albums == old(cache.albums)
      ensures Validate(req).Accepted? && Validate(req).kind !in {"album", "track"} ==>
        && resp == BadRequest("Invalid type GET parameter")
        && cache.tracks == old(cache.tracks) && cache.albums == old(cache.albums)
      // album requests
      ensures Validate(req).Accepted? && Validate(req).kind == "album" ==>
        var q := Validate(req).query;
        && cache.tracks == old(cache.tracks)
        && (q in old(cache.albums) ==>
              resp == Response(StatusOk, AlbumList(old(cache.albums)[q].items)) && cache.albums == old(cache.albums))
        && (q !in old(cache.albums) && albumPages(q)(0).Err? ==>
              resp == BadRequest(albumPages(q)(0).error) && cache.albums == old(cache.albums))
        && (q !in old(cache.albums) && albumPages(q)(0).Ok? ==>
              && resp.status == StatusOk && resp.body.AlbumList?
              && AsBag(albumPages(q)) == Ok(multiset(resp.body.albums))
              && q in cache.albums && fresh(cache.albums[q]) && cache.albums[q].items == resp.body.albums
              && cache.albums == old(cache.albums)[q := cache.albums[q]])
      // track requests
      ensures Validate(req).Accepted? && Validate(req).kind == "track" ==>
        var q := Validate(req).query;
        && cache.albums == old(cache.albums)
        && (q in old(cache.tracks) ==>
              resp == Response(StatusOk, TrackList(old(cache.tracks)[q].items)) && cache.tracks == old(cache.tracks))
        && (q !in old(cache.tracks) && trackPages(q)(0).Err? ==>
              resp == BadRequest(trackPages(q)(0).error) && cache.tracks == old(cache.tracks))
        && (q !in old(cache.tracks) && trackPages(q)(0).Ok? ==>
              && resp.status == StatusOk && resp.body.TrackList?
              && AsBag(trackPages(q)) == Ok(multiset(resp.body.tracks))
              && q in cache.tracks && fresh(cache.tracks[q]) && cache.tracks[q].items == resp.body.tracks
              && cache.tracks == old(cache.tracks)[q := cache.tracks[q]])
    {
      var decision := Validate(req);
      if decision.Rejected? {
        return decision.response;
      }
      var query := decision.query;
      if decision.kind == "album" {
        var albums := cache.GetAlbums(query);
        if albums == null {
          var fetched := SpotifyFetcher01.FetchAllAlbums(albumPages(query));
          if fetched.Err? {
            return BadRequest(fetched.error);
          }
          albums := new ListRef(fetched.value);
          var _ := cache.AddOrUpdateAlbumsCache(query, albums);
        }
        return Response(StatusOk, AlbumList(albums.items));
      }
      if decision.kind == "track" {
        var tracks := cache.GetTracks(query);
        if tracks == null {
          var fetched := SpotifyFetcher01.FetchAllTracks(trackPages(query));
          if fetched.Err? {
            return BadRequest(fetched.error);
          }
          tracks := new ListRef(fetched.value);
          var _ := cache.AddOrUpdateTracksCache(query, tracks);
        }
        return Response(StatusOk, TrackList(tracks.items));
      }
      resp := BadRequest("Invalid type GET parameter");
    }
  }
}
