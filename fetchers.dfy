/** Project02/Spotify/SpotifyFetcher.cs: the asynchronous fetcher. Both `FetchAll*`
    methods keep offset order and fail as a whole when any page fails. The page request
    `FetchTracks(query, offset)` / `FetchAlbums(query, offset)` is the `pages` argument. */
module SpotifyFetcher02 {
  import opened Results
  import opened Models
  import opened Pagination

  method FetchAllTracks(pages: PageSource<Track>) returns (r: Result<seq<Track>>)
    ensures r == InOrder(pages)
  {
    r := FetchAllInOrder(pages);
  }

  method FetchAllAlbums(pages: PageSource<Album>) returns (r: Result<seq<Album>>)
    ensures r == InOrder(pages)
  {
    r := FetchAllInOrder(pages);
  }
}

/** Project01/Spotify/SpotifyFetcher.cs: the thread-pool fetcher. A failure of the first
    page propagates; a failed extra page is logged and contributes nothing. */
module SpotifyFetcher01 {
  import opened Results
  import opened Models
  import opened Pagination

  method FetchAllTracks(pages: PageSource<Track>) returns (r: Result<seq<Track>>)
    ensures r.Ok? <==> pages(0).Ok?
    ensures r.Err? ==> r.error == pages(0).error
    ensures r.Ok? ==> AsBag(pages) == Ok(multiset(r.value))
  {
    r := FetchAllIntoBag(pages);
  }

  method FetchAllAlbums(pages: PageSource<Album>) returns (r: Result<seq<Album>>)
    ensures r.Ok? <==> pages(0).Ok?
    ensures r.Err? ==> r.error == pages(0).error
    ensures r.Ok? ==> AsBag(pages) == Ok(multiset(r.value))
  {
    r := FetchAllIntoBag(pages);
  }
}

/** Project03/Yelp/YelpFetcher.cs: the same bag-and-countdown fetch over a business's
    reviews; `FetchReviews(id, offset)` is the `pages` argument. */
module YelpFetcher {
  import opened Results
  import opened Models
  import opened Pagination

  method FetchAllReviews(pages: PageSource<Review>) returns (r: Result<seq<Review>>)
    ensures r.Ok? <==> pages(0).Ok?
    ensures r.Err? ==> r.error == pages(0).error
    ensures r.Ok? ==> AsBag(pages) == Ok(multiset(r.value))
  {
    r := FetchAllIntoBag(pages);
  }
}
