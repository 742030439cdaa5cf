/** Project02/HttpServer/HttpServer.cs `HandleRequestAsync`: validate the request, then
    answer from the cache, or fetch every page in order, store the list under the query
    and answer with it. A failed fetch answers 500 and stores nothing. */
module HttpServer02 {
  import opened Results
  import opened Models
  import opened Caches
  import opened Pagination
  import opened Http
  import SpotifyFetcher02

  datatype Kind = Albums | Tracks

  /** How the validation cascade ends: an early response, or the query and kind to serve. */
  datatype Decision = Rejected(response: Response) | Accepted(query: string, kind: Kind)

  /** The checks of `HandleRequestAsync`, in source order: method, `query`, presence of
      `type`, value of `type`. */
  function Validate(req: Request): (d: Decision)
    ensures req.httpMethod != "GET" ==> d == Rejected(MethodNotAllowed())
    ensures d.Accepted? <==>
      && req.httpMethod == "GET"
      && !IsNullOrEmpty(Get(req, "query"))
      && Get(req, "type") in {Some("album"), Some("track")}
    ensures d.Accepted? ==>
      && Get(req, "query") == Some(d.query)
      && (d.kind == Albums <==> Get(req, "type") == Some("album"))
    ensures d.Rejected? && req.httpMethod == "GET" ==> d.response.status == StatusBadRequest
    ensures req.httpMethod == "GET" && IsNullOrEmpty(Get(req, "query")) ==>
      d == Rejected(BadRequest("Missing query GET parameter"))
    ensures req.httpMethod == "GET" && !IsNullOrEmpty(Get(req, "query")) && Get(req, "type").None? ==>
      d == Rejected(BadRequest("Missing type GET parameter"))
  {
    var query := Get(req, "query");
    var kind := Get(req, "type");
    if req.httpMethod != "GET" then Rejected(MethodNotAllowed())
    else if IsNullOrEmpty(query) then Rejected(BadRequest("Missing query GET parameter"))
    else if kind.None? then Rejected(BadRequest("Missing type GET parameter"))
    else if kind.value != "album" && kind.value != "track" then Rejected(BadRequest("Invalid type GET parameter"))
    else Accepted(query.value, if kind.value == "album" then Albums else Tracks)
  }

  /** A repeated `type` parameter reads as its values joined by a comma, so
      `type=album&type=track` is not a valid type. */
  lemma RepeatedTypeIsInvalid(req: Request, j: nat, k: nat)
    requires req.httpMethod == "GET" && !IsNullOrEmpty(Get(req, "query"))
    requires j < k < |req.query| && SameKey(req.query[j].name, "type") && SameKey(req.query[k].name, "type")
    requires forall i :: 0 <= i < |req.query| && i != j && i != k ==> !SameKey(req.query[i].name, "type")
    requires req.query[j].value == "album" && req.query[k].value == "track"
    ensures Validate(req) == Rejected(BadRequest("Invalid type GET parameter"))
  {
    GetRepeated(req, "type", j, k);
    assert |Get(req, "type").value| == |"album,track"|;
  }

  /** The server's state: the cache it shares with the expiry timer and whether it is
      listening. The listener, its task and cancellation token are not modelled. */
  class HttpServer {
    const cache: SpotifyCache
    var active: bool

    constructor (cache: SpotifyCache)
      ensures this.cache == cache && !active
    {
      this.cache := cache;
      active := false;
    }

    method Start()
      modifies this
      ensures active
    {
      active := true;
    }

    /** Stopping the server empties both halves of the cache. */
    method Stop()
      modifies this, cache
      ensures !active
      ensures cache.tracks == map[] && cache.albums == map[]
    {
      active := false;
      cache.ClearCachedAlbums();
      cache.ClearCachedTracks();
    }

    /** One request against `cache`. `trackPages(query)` and `albumPages(query)` are the
        upstream page requests for that query. The final `BadRequest` of the source
        (Project02/HttpServer/HttpServer.cs:165) is unreachable after `Validate`. */
    method HandleRequestAsync(
      req: Request,
      trackPages: string -> PageSource<Track>, albumPages: string -> PageSource<Album>)
      returns (resp: Response)
      modifies cache
      ensures Validate(req).Rejected? ==>
        resp == Validate(req).response && cache.tracks == old(cache.tracks) && cache.albums == old(cache.albums)
      // album requests
      ensures Validate(req).Accepted? && Validate(req).kind == Albums ==>
        var q := Validate(req).query;
        && cache.tracks == old(cache.tracks)
        && (q in old(cache.albums) ==>
              resp == Response(StatusOk, AlbumList(old(cache.albums)[q].items)) && cache.albums == old(cache.albums))
        && (q !in old(cache.albums) && InOrder(albumPages(q)).Err? ==>
              resp == InternalServerError(InOrder(albumPages(q)).error) && cache.albums == old(cache.albums))
        && (q !in old(cache.albums) && InOrder(albumPages(q)).Ok? ==>
              && resp == Response(StatusOk, AlbumList(InOrder(albumPages(q)).value))
              && q in cache.albums && fresh(cache.albums[q]) && cache.albums[q].items == InOrder(albumPages(q)).value
              && cache.albums == old(cache.albums)[q := cache.albums[q]])
      // track requests
      ensures Validate(req).Accepted? && Validate(req).kind == Tracks ==>
        var q := Validate(req).query;
        && cache.albums == old(cache.albums)
        && (q in old(cache.tracks) ==>
              resp == Response(StatusOk, TrackList(old(cache.tracks)[q].items)) && cache.tracks == old(cache.tracks))
        && (q !in old(cache.tracks) && InOrder(trackPages(q)).Err? ==>
              resp == InternalServerError(InOrder(trackPages(q)).error) && cache.tracks == old(cache.tracks))
        && (q !in old(cache.tracks) && InOrder(trackPages(q)).Ok? ==>
              && resp == Response(StatusOk, TrackList(InOrder(trackPages(q)).value))
              && q in cache.tracks && fresh(cache.tracks[q]) && cache.tracks[q].items == InOrder(trackPages(q)).value
              && cache.tracks == old(cache.tracks)[q := cache.tracks[q]])
    {
      var decision := Validate(req);
      if decision.Rejected? {
        return decision.response;
      }
      var query := decision.query;
      if decision.kind == Albums {
        var albums := cache.GetAlbums(query);
        if albums == null {
          var fetched := SpotifyFetcher02.FetchAllAlbums(albumPages(query));
          if fetched.Err? {
            return InternalServerError(fetched.error);
          }
          albums := new ListRef(fetched.value);
          var _ := cache.AddOrUpdateAlbumsCache(query, albums);
        }
        return Response(StatusOk, AlbumList(albums.items));
      } else {
        var tracks := cache.GetTracks(query);
        if tracks == null {
          var fetched := SpotifyFetcher02.FetchAllTracks(trackPages(query));
          if fetched.Err? {
            return InternalServerError(fetched.error);
          }
          tracks := new ListRef(fetched.value);
          var _ := cache.AddOrUpdateTracksCache(query, tracks);
        }
        return Response(StatusOk, TrackList(tracks.items));
      }
    }
  }
}
