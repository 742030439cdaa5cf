/** Project01/SpotifyFetcher/SpotifyFetcher.cs: the older, synchronous Spotify client. It
    answers from the cache when it can; otherwise it issues one search request, parses the
    items of the response and stores them under the query. Token retrieval, URL building
    and the HTTP client are not modelled: the search responses are parameters. */
module LegacySpotifyFetcher {
  import opened Results
  import opened Models
  import opened Json
  import opened Caches

  /** The string-or-null property `name` of `j` holds `v`. */
  predicate TextField(j: Json, name: string, v: NString)
  {
    HasText(j, name) && v == Text(j.fields[name])
  }

  /** The 32-bit number property `name` of `j` holds `v`. */
  predicate Int32Field(j: Json, name: string, v: int)
  {
    j.JObject? && name in j.fields && j.fields[name] == JNumber(v) && Int32Min <= v <= Int32Max
  }

  /** The scalar properties of an album object, copied into `a`. */
  predicate AlbumHeader(a: Album, j: Json)
  {
    && TextField(j, "id", a.id) && TextField(j, "name", a.name)
    && TextField(j, "album_type", a.albumType) && TextField(j, "href", a.href)
    && TextField(j, "release_date", a.releaseDate)
    && TextField(j, "release_date_precision", a.releaseDatePrecision)
    && TextField(j, "type", a.objectType) && TextField(j, "uri", a.uri)
    && Int32Field(j, "total_tracks", a.totalTracks)
  }

  /** The properties both album initializers require: eight strings (or nulls) and a
      32-bit `total_tracks`. */
  predicate AlbumScalarsPresent(j: Json)
  {
    && HasText(j, "id") && HasText(j, "name") && HasText(j, "album_type") && HasText(j, "href")
    && HasText(j, "release_date") && HasText(j, "release_date_precision")
    && HasText(j, "type") && HasText(j, "uri") && HasInt32(j, "total_tracks")
  }

  /** The `new Artist { ... }` of each artist element. */
  function ParseArtist(j: Json): (r: Result<Artist>)
    ensures r.Ok? <==> HasText(j, "id") && HasText(j, "name") && HasText(j, "href") && HasText(j, "type") && HasText(j, "uri")
    ensures r.Ok? ==>
      r.value == Artist(Text(j.fields["href"]), Text(j.fields["id"]), Text(j.fields["name"]),
                        Text(j.fields["type"]), Text(j.fields["uri"]))
  {
    var id :- StringProperty(j, "id");
    var name :- StringProperty(j, "name");
    var href :- StringProperty(j, "href");
    var kind :- StringProperty(j, "type");
    var uri :- StringProperty(j, "uri");
    Ok(Artist(href, id, name, kind, uri))
  }

  /** `GetProperty(name).EnumerateArray().Select(artist => new Artist { ... }).ToArray()`. */
  function ParseArtists(j: Json, name: string): (r: Result<seq<Artist>>)
  {
    var p :- GetProperty(j, name);
    var elems :- EnumerateArray(p);
    MapAll(elems, ParseArtist)
  }

  /** An artist array parses exactly when the property is an array whose every element
      is an object with the five string-or-null properties. */
  lemma ParseArtistsOk(j: Json, name: string)
    ensures ParseArtists(j, name).Ok? <==>
      && j.JObject? && name in j.fields && j.fields[name].JArray?
      && forall a :: a in j.fields[name].elems ==>
           HasText(a, "id") && HasText(a, "name") && HasText(a, "href") && HasText(a, "type") && HasText(a, "uri")
  {
    if j.JObject? && name in j.fields && j.fields[name].JArray? {
      MapAllSpec(j.fields[name].elems, ParseArtist);
    }
  }

  /** `preview_url`: `""` when missing or null, the string otherwise; any other kind fails. */
  function PreviewUrl(item: Json): (r: Result<string>)
    ensures r.Ok? ==> item.JObject?
    ensures item.JObject? && "preview_url" !in item.fields ==> r == Ok("")
    ensures item.JObject? && "preview_url" in item.fields ==>
      match item.fields["preview_url"]
      case JNull => r == Ok("")
      case JString(s) => r == Ok(s)
      case _ => r.Err?
  {
    var p :- TryGetProperty(item, "preview_url");
    if p.None? || p.value.JNull? then Ok("")
    else
      var s :- GetString(p.value);
      Ok(s.value)
  }

  /** `TryGetProperty(name, out p) && p.ValueKind == JsonValueKind.True`, on an element
      already known to be an object. */
  function Flag(item: Json, name: string): (r: bool)
    requires item.JObject?
    ensures r <==> name in item.fields && item.fields[name] == JBool(true)
  {
    var p := TryGetProperty(item, name).value;
    p.Some? && p.value == JBool(true)
  }

  /** The scalar properties both album initializers read first, in their order:
      `id`, `name`, `album_type`, `href`, `release_date`, `release_date_precision`,
      `type`, `uri`, `total_tracks`. The lists are left empty for the caller to fill. */
  function ParseAlbumScalars(j: Json, now: int): (r: Result<Album>)
    ensures r.Ok? <==> AlbumScalarsPresent(j)
    ensures r.Ok? ==> AlbumHeader(r.value, j)
    ensures r.Ok? ==> r.value.availableMarkets == [] && r.value.artists == [] && r.value.createdAt == now
  {
    var id :- StringProperty(j, "id");
    var name :- StringProperty(j, "name");
    var albumType :- StringProperty(j, "album_type");
    var href :- StringProperty(j, "href");
    var releaseDate :- StringProperty(j, "release_date");
    var precision :- StringProperty(j, "release_date_precision");
    var kind :- StringProperty(j, "type");
    var uri :- StringProperty(j, "uri");
    var totalTracks :- Int32Property(j, "total_tracks");
    Ok(Album(albumType, totalTracks, [], href, id, name, releaseDate, precision, kind, uri, [], now))
  }

  /** The `Album` nested in a track item; `AvailableMarkets` keeps its default `[]` and
      `now` is the moment the object is created. */
  function ParseTrackAlbum(item: Json, now: int): (r: Result<Album>)
    ensures r.Ok? <==> item.JObject? && "album" in item.fields && AlbumScalarsPresent(item.fields["album"])
                       && ParseArtists(item.fields["album"], "artists").Ok?
    ensures r.Ok? ==> r.value.availableMarkets == [] && r.value.createdAt == now
    ensures r.Ok? ==> item.JObject? && "album" in item.fields
                      && AlbumHeader(r.value, item.fields["album"])
                      && ParseArtists(item.fields["album"], "artists") == Ok(r.value.artists)
  {
    var album :- GetProperty(item, "album");
    var scalars :- ParseAlbumScalars(album, now);
    var artists :- ParseArtists(album, "artists");
    Ok(scalars.(artists := artists))
  }

  /** The scalar properties of a track item, copied into `t`: `preview_url` is `""` when
      missing or null, and the two flags hold exactly when the property is JSON `true`. */
  predicate TrackHeader(t: Track, item: Json)
  {
    && item.JObject?
    && TextField(item, "id", t.id) && TextField(item, "name", t.name)
    && Int32Field(item, "duration_ms", t.durationMs)
    && "explicit" in item.fields && item.fields["explicit"] == JBool(t.explicit)
    && TextField(item, "href", t.href)
    && Int32Field(item, "popularity", t.popularity)
    && (if "preview_url" !in item.fields || item.fields["preview_url"] == JNull then t.previewUrl == ""
        else item.fields["preview_url"] == JString(t.previewUrl))
    && Int32Field(item, "track_number", t.trackNumber)
    && TextField(item, "type", t.objectType) && TextField(item, "uri", t.uri)
    && (t.isPlayable <==> "is_playable" in item.fields && item.fields["is_playable"] == JBool(true))
    && (t.isLocal <==> "is_local" in item.fields && item.fields["is_local"] == JBool(true))
  }

  /** The properties a track item must carry: `preview_url`, `is_playable` and `is_local`
      may be missing, and `preview_url` may be null. */
  predicate TrackScalarsPresent(item: Json)
  {
    && HasText(item, "id") && HasText(item, "name") && HasInt32(item, "duration_ms")
    && "explicit" in item.fields && item.fields["explicit"].JBool?
    && HasText(item, "href") && HasInt32(item, "popularity")
    && ("preview_url" in item.fields ==> item.fields["preview_url"].JString? || item.fields["preview_url"].JNull?)
    && HasInt32(item, "track_number") && HasText(item, "type") && HasText(item, "uri")
  }

  /** The scalar part of the `new Track { ... }` initializer, in its order, from `id` to
      `is_local`; `DiscNumber` keeps its default 0. The album and the artists are left as
      placeholders for the caller to fill. */
  function ParseTrackScalars(item: Json, now: int): (r: Result<Track>)
    ensures r.Ok? <==> TrackScalarsPresent(item)
    ensures r.Ok? ==> TrackHeader(r.value, item) && r.value.discNumber == 0 && r.value.createdAt == now
  {
    var id :- StringProperty(item, "id");
    var name :- StringProperty(item, "name");
    var durationMs :- Int32Property(item, "duration_ms");
    var explicitProp :- GetProperty(item, "explicit");
    var explicit :- GetBoolean(explicitProp);
    var href :- StringProperty(item, "href");
    var popularity :- Int32Property(item, "popularity");
    var previewUrl :- PreviewUrl(item);
    var trackNumber :- Int32Property(item, "track_number");
    var kind :- StringProperty(item, "type");
    var uri :- StringProperty(item, "uri");
    var isPlayable := Flag(item, "is_playable");
    var isLocal := Flag(item, "is_local");
    var noAlbum := Album(None, 0, [], None, None, None, None, None, None, None, [], now);
    Ok(Track(noAlbum, [], 0, durationMs, explicit, href, id, isPlayable, name, popularity,
             previewUrl, trackNumber, kind, uri, isLocal, now))
  }

  /** The `new Track { ... }` of one item of `tracks.items`; `now` is the moment the object
      is created. */
  function ParseTrack(item: Json, now: int): (r: Result<Track>)
    ensures r.Ok? <==> TrackScalarsPresent(item) && ParseTrackAlbum(item, now).Ok? && ParseArtists(item, "artists").Ok?
    ensures r.Ok? ==> TrackHeader(r.value, item) && r.value.discNumber == 0 && r.value.createdAt == now
    ensures r.Ok? ==> ParseArtists(item, "artists") == Ok(r.value.artists)
                      && ParseTrackAlbum(item, now) == Ok(r.value.album)
  {
    var scalars :- ParseTrackScalars(item, now);
    var album :- ParseTrackAlbum(item, now);
    var artists :- ParseArtists(item, "artists");
    Ok(scalars.(album := album, artists := artists))
  }

  /** One element of `available_markets`: `GetString() ?? ""`. */
  function ParseMarket(j: Json): (r: Result<string>)
    ensures r.Ok? <==> j.JString? || j.JNull?
    ensures j.JString? ==> r == Ok(j.s)
    ensures j.JNull? ==> r == Ok("")
  {
    var s :- GetString(j);
    Ok(if s.Some? then s.value else "")
  }

  /** Every market converts exactly when every element is a string or null. */
  lemma MarketsOk(elems: seq<Json>)
    ensures MapAll(elems, ParseMarket).Ok? <==> forall m :: m in elems ==> m.JString? || m.JNull?
  {
    MapAllSpec(elems, ParseMarket);
  }

  /** The `new Album { ... }` of one item of `albums.items`. */
  function ParseAlbum(item: Json, now: int): (r: Result<Album>)
    ensures r.Ok? <==>
      && AlbumScalarsPresent(item)
      && "available_markets" in item.fields && item.fields["available_markets"].JArray?
      && (forall m :: m in item.fields["available_markets"].elems ==> m.JString? || m.JNull?)
      && ParseArtists(item, "artists").Ok?
    ensures r.Ok? ==> r.value.createdAt == now && AlbumHeader(r.value, item)
    ensures r.Ok? ==> item.JObject? && "available_markets" in item.fields && item.fields["available_markets"].JArray?
    ensures r.Ok? ==> MapAll(item.fields["available_markets"].elems, ParseMarket) == Ok(r.value.availableMarkets)
                      && ParseArtists(item, "artists") == Ok(r.value.artists)
  {
    var scalars :- ParseAlbumScalars(item, now);
    var marketsProp :- GetProperty(item, "available_markets");
    var marketElems :- EnumerateArray(marketsProp);
    MarketsOk(marketElems);
    var markets :- MapAll(marketElems, ParseMarket);
    var artists :- ParseArtists(item, "artists");
    Ok(scalars.(availableMarkets := markets, artists := artists))
  }

  /** The artists parsed from an array property are those of its elements, one per
      element and in the same order. */
  lemma ParseArtistsInOrder(j: Json, name: string)
    requires ParseArtists(j, name).Ok?
    ensures j.JObject? && name in j.fields && j.fields[name].JArray?
    ensures var elems := j.fields[name].elems;
      && |ParseArtists(j, name).value| == |elems|
      && forall i :: 0 <= i < |elems| ==> Ok(ParseArtists(j, name).value[i]) == ParseArtist(elems[i])
  {
    MapAllSpec(j.fields[name].elems, ParseArtist);
  }

  /** The artists of a parsed track, and of its album, are those of the JSON arrays, one
      per element and in the same order. */
  lemma TrackArtistsInOrder(item: Json, now: int)
    requires ParseTrack(item, now).Ok?
    ensures item.fields["artists"].JArray? && item.fields["album"].fields["artists"].JArray?
    ensures var elems := item.fields["artists"].elems;
      && |ParseTrack(item, now).value.artists| == |elems|
      && forall i :: 0 <= i < |elems| ==> Ok(ParseTrack(item, now).value.artists[i]) == ParseArtist(elems[i])
    ensures var elems := item.fields["album"].fields["artists"].elems;
      && |ParseTrack(item, now).value.album.artists| == |elems|
      && forall i :: 0 <= i < |elems| ==> Ok(ParseTrack(item, now).value.album.artists[i]) == ParseArtist(elems[i])
  {
    ParseArtistsInOrder(item, "artists");
    ParseArtistsInOrder(item.fields["album"], "artists");
  }

  /** The markets and artists of a parsed album are those of the JSON arrays, one per
      element and in the same order, a null market becoming `""`. */
  lemma AlbumListsInOrder(item: Json, now: int)
    requires ParseAlbum(item, now).Ok?
    ensures var elems := item.fields["available_markets"].elems;
      && |ParseAlbum(item, now).value.availableMarkets| == |elems|
      && forall i :: 0 <= i < |elems| ==> Ok(ParseAlbum(item, now).value.availableMarkets[i]) == ParseMarket(elems[i])
    ensures item.fields["artists"].JArray?
    ensures var elems := item.fields["artists"].elems;
      && |ParseAlbum(item, now).value.artists| == |elems|
      && forall i :: 0 <= i < |elems| ==> Ok(ParseAlbum(item, now).value.artists[i]) == ParseArtist(elems[i])
  {
    MapAllSpec(item.fields["available_markets"].elems, ParseMarket);
    ParseArtistsInOrder(item, "artists");
  }

  /** `root.GetProperty(outer).GetProperty("items").EnumerateArray()`. */
  function Items(root: Json, outer: string): (r: Result<seq<Json>>)
    ensures r.Ok? <==> root.JObject? && outer in root.fields && root.fields[outer].JObject?
                       && "items" in root.fields[outer].fields && root.fields[outer].fields["items"].JArray?
    ensures r.Ok? ==> r.value == root.fields[outer].fields["items"].elems
  {
    var container :- GetProperty(root, outer);
    var items :- GetProperty(container, "items");
    EnumerateArray(items)
  }

  /** What `ParseTracks` computes from a response document. */
  function ParsedTracks(root: Json, now: int): Result<seq<Track>>
  {
    var items :- Items(root, "tracks");
    MapAll(items, item => ParseTrack(item, now))
  }

  /** What `ParseAlbums` computes from a response document. */
  function ParsedAlbums(root: Json, now: int): Result<seq<Album>>
  {
    var items :- Items(root, "albums");
    MapAll(items, item => ParseAlbum(item, now))
  }

  /** A failure in a prefix is the failure of the whole. */
  lemma {:induction false} MapAllPrefixFails<T>(elems: seq<Json>, f: Json -> Result<T>, n: nat)
    requires n <= |elems| && MapAll(elems[..n], f).Err?
    ensures MapAll(elems, f) == MapAll(elems[..n], f)
    decreases |elems| - n
  {
    if n < |elems| {
      var m := |elems| - 1;
      assert elems[..m][..n] == elems[..n];
      MapAllPrefixFails(elems[..m], f, n);
    } else {
      assert elems[..n] == elems;
    }
  }

  /** The `foreach` shared by `ParseTracks` and `ParseAlbums`: converts the items in
      order and stops at the first one that does not convert, with its error. */
  method ParseEach<T>(items: seq<Json>, parse: Json -> Result<T>) returns (r: Result<seq<T>>)
    ensures r == MapAll(items, parse)
  {
    var result := [];
    var i := 0;
    while i < |items|
      invariant 0 <= i <= |items|
      invariant MapAll(items[..i], parse) == Ok(result)
    {
      assert items[..i + 1][..i] == items[..i];
      var converted := parse(items[i]);
      if converted.Err? {
        MapAllPrefixFails(items, parse, i + 1);
        return Err(converted.error);
      }
      result := result + [converted.value];
      i := i + 1;
    }
    assert items[..i] == items;
    r := Ok(result);
  }

  /** `ParseTracks`: one track per item of `tracks.items`, in order; the first item that
      does not parse ends the loop with its error. */
  method ParseTracks(root: Json, now: int) returns (r: Result<seq<Track>>)
    ensures r == ParsedTracks(root, now)
  {
    var items :- Items(root, "tracks");
    r := ParseEach(items, item => ParseTrack(item, now));
  }

  /** `ParseAlbums`: one album per item of `albums.items`, in order. */
  method ParseAlbums(root: Json, now: int) returns (r: Result<seq<Album>>)
    ensures r == ParsedAlbums(root, now)
  {
    var items :- Items(root, "albums");
    r := ParseEach(items, item => ParseAlbum(item, now));
  }

  /** Parsing succeeds exactly when `tracks.items` is an array whose every item parses, and
      then yields one track per item, in order. */
  lemma ParsedTracksSpec(root: Json, now: int)
    ensures ParsedTracks(root, now).Ok? <==>
      Items(root, "tracks").Ok? && forall i :: 0 <= i < |Items(root, "tracks").value| ==>
        ParseTrack(Items(root, "tracks").value[i], now).Ok?
    ensures ParsedTracks(root, now).Ok? ==>
      var items := Items(root, "tracks").value;
      && |ParsedTracks(root, now).value| == |items|
      && forall i :: 0 <= i < |items| ==> Ok(ParsedTracks(root, now).value[i]) == ParseTrack(items[i], now)
  {
    if Items(root, "tracks").Ok? {
      MapAllSpec(Items(root, "tracks").value, item => ParseTrack(item, now));
    }
  }

  /** Parsing succeeds exactly when `albums.items` is an array whose every item parses, and
      then yields one album per item, in order. */
  lemma ParsedAlbumsSpec(root: Json, now: int)
    ensures ParsedAlbums(root, now).Ok? <==>
      Items(root, "albums").Ok? && forall i :: 0 <= i < |Items(root, "albums").value| ==>
        ParseAlbum(Items(root, "albums").value[i], now).Ok?
    ensures ParsedAlbums(root, now).Ok? ==>
      var items := Items(root, "albums").value;
      && |ParsedAlbums(root, now).value| == |items|
      && forall i :: 0 <= i < |items| ==> Ok(ParsedAlbums(root, now).value[i]) == ParseAlbum(items[i], now)
  {
    if Items(root, "albums").Ok? {
      MapAllSpec(Items(root, "albums").value, item => ParseAlbum(item, now));
    }
  }

  /** A search response: the status code and the body as a JSON document, `None` when the
      body is not valid JSON (`JsonDocument.Parse` throws). */
  datatype SearchResponse = SearchResponse(status: int, body: Option<Json>)

  /** `HttpResponseMessage.IsSuccessStatusCode`. */
  predicate IsSuccessStatusCode(status: int)
  {
    200 <= status <= 299
  }

  /** The fetcher and the cache it consults. */
  class SpotifyFetcher {
    const cache: SpotifyCache

    constructor (cache: SpotifyCache)
      ensures this.cache == cache
    {
      this.cache := cache;
    }

    /** `FetchTracks`. `searchTracks(query)` is the response to the track search for
        `query` (one request, at most 20 items). */
    method FetchTracks(query: string, searchTracks: string -> SearchResponse, now: int)
      returns (r: Result<ListRef<Track>>)
      modifies cache
      ensures cache.albums == old(cache.albums)
      ensures query in old(cache.tracks) ==> r == Ok(old(cache.tracks)[query]) && cache.tracks == old(cache.tracks)
      ensures query !in old(cache.tracks) ==>
        var response := searchTracks(query);
        && (r.Ok? <==> IsSuccessStatusCode(response.status) && response.body.Some?
                       && ParsedTracks(response.body.value, now).Ok?)
        && (r.Err? ==> cache.tracks == old(cache.tracks))
        && (r.Ok? ==> && fresh(r.value)
                      && r.value.items == ParsedTracks(response.body.value, now).value
                      && cache.tracks == old(cache.tracks)[query := r.value])
    {
      var cached := cache.GetTracks(query);
      if cached != null {
        return Ok(cached);
      }
      var response := searchTracks(query);
      if !IsSuccessStatusCode(response.status) {
        return Err("Response status code does not indicate success.");
      }
      if response.body.None? {
        return Err("The response body is not valid JSON.");
      }
      var tracks := ParseTracks(response.body.value, now);
      if tracks.Err? {
        return Err(tracks.error);
      }
      var list := new ListRef(tracks.value);
      var _ := cache.AddOrUpdateTracksCache(query, list);
      r := Ok(list);
    }

    /** `FetchAlbums`, with the same hit, miss and store rules. */
    method FetchAlbums(query: string, searchAlbums: string -> SearchResponse, now: int)
      returns (r: Result<ListRef<Album>>)
      modifies cache
      ensures cache.tracks == old(cache.tracks)
      ensures query in old(cache.albums) ==> r == Ok(old(cache.albums)[query]) && cache.albums == old(cache.albums)
      ensures query !in old(cache.albums) ==>
        var response := searchAlbums(query);
        && (r.Ok? <==> IsSuccessStatusCode(response.status) && response.body.Some?
                       && ParsedAlbums(response.body.value, now).Ok?)
        && (r.Err? ==> cache.albums == old(cache.albums))
        && (r.Ok? ==> && fresh(r.value)
                      && r.value.items == ParsedAlbums(response.body.value, now).value
                      && cache.albums == old(cache.albums)[query := r.value])
    {
      var cached := cache.GetAlbums(query);
      if cached != null {
        return Ok(cached);
      }
      var response := searchAlbums(query);
      if !IsSuccessStatusCode(response.status) {
        return Err("Response status code does not indicate success.");
      }
      if response.body.None? {
        return Err("The response body is not valid JSON.");
      }
      var albums := ParseAlbums(response.body.value, now);
      if albums.Err? {
        return Err(albums.error);
      }
      var list := new ListRef(albums.value);
      var _ := cache.AddOrUpdateAlbumsCache(query, list);
      r := Ok(list);
    }
  }
}
