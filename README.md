# Cache-fronted search proxy: a Dafny model

The repository holds three versions of a small HTTP proxy in C#. Each version answers a
search query, either a Spotify `query` with a `type` of `album` or `track`, or a Yelp
business `id`. It answers from an in-memory cache when it can. Otherwise it fetches every
page of results from the upstream API, stores the list under the query and returns it.
This project models the logic at the centre of that proxy and proves what it does:

- **The keyed list cache.** Project02 `SpotifyCache` (`caches.dfy`) is a class with two
  maps, from a query to a shared list object (`ListRef`). The lists are heap objects
  because the expiry sweep filters them in place, and callers that hold the same list see
  the change. Project01 `GenericCache` (`generic_cache.dfy`) only ever replaces entries.
- **The page plan and the merge** (`pagination.dfy`, `fetchers.dfy`). The first page is
  requested at offset 0. Its `total` decides how many extra pages of 50 follow. The
  Project02 fetcher keeps offset order and fails as a whole (`Task.WhenAll`). The
  Project01 and Project03 fetchers collect pages into a bag. There, a failed extra page
  contributes nothing, and the result is stated as a multiset.
- **The request handlers** (`http.dfy`, `http_server01.dfy`, `http_server02.dfy`). Checks
  run in order: method, then `query`, then `type`. The handler then checks the cache; on
  a miss it fetches, stores and answers. A failed fetch gives 500 in Project02 and 400 in
  Project01.
- **The reactive server of Project03** (`reactive_server.dfy`). It keeps a duplicate-free
  observer list, and a subscription handle removes its observer on the first disposal.
  The server validates the `id`, then broadcasts to the observers in list order. If an
  observer throws, the server answers 500 and sends `OnError` to every observer.
- **The text side of `TopicModeler`** (`topic_modeler.dfy`): `Tokenize` with its
  stopword list, the blank-review filter, and the per-topic top-word selection of
  `GetTopics`. Which topic each review gets from LDA is an input.
- **The older Project01 `SpotifyFetcher`** (`json.dfy`, `legacy_fetcher.dfy`):
  cache-then-fetch with a single search request, and the defaulting rules by which it
  builds tracks and albums from a JSON document.

Time (`DateTime.Now`) is an integer parameter `now`, and `CreatedAt` is an integer
field. Upstream requests are functions from an offset (or a query) to a result that may
fail. All concurrency is run one step after another.

Where the code and its design description differ, the model follows the code:

- The cache's add-or-update compares list references: `AddOrUpdate(...) == values ?
  Inserted : Updated` (Project02/Caches/SpotifyCache.cs:48). A fresh key and a changed
  entry both give `Inserted`. An element-wise equal entry keeps the old list and gives
  `Updated`, unless `values` is the stored list object itself, which gives `Inserted`. `Unchanged` is never returned, although the design describes it as the
  answer for an equal entry.
- The sweep filters each list by the `CreatedAt` of its records. It does not look at an
  insertion time of the entry.
- When the album pass empties an album list, it removes the *track* entry under that key
  (Project02/Caches/SpotifyCache.cs:153). The empty album list stays in the album map.
- The design asks for fail-fast merging, but the Project01 and Project03 fetchers merge
  best-effort: an extra page that fails is logged and dropped. Project01 answers a failed
  fetch with 400, not with a server error.
- Equality of records in `SequenceEqual` is modelled as value equality.

## Model

| member | source | states |
|---|---|---|
| Caches.Unexpired | Project02/Caches/SpotifyCache.cs:117 | `RemoveAll(val => val.CreatedAt < expTime)` as a value: never longer than its input |
| Caches.UnexpiredSound | Project02/Caches/SpotifyCache.cs:117 | every survivor was in the input and has `CreatedAt >= expTime` |
| Caches.UnexpiredIsSubsequence | Project02/Caches/SpotifyCache.cs:117 | the survivors keep their relative order |
| Caches.UnexpiredCounts | Project02/Caches/SpotifyCache.cs:117 | every unexpired record keeps its multiplicity, and every expired one is gone |
| Caches.UnexpiredIdempotent | Project02/Caches/SpotifyCache.cs:117 | filtering twice with the same cutoff changes nothing more |
| Caches.UnexpiredEmptyIff | Project02/Caches/SpotifyCache.cs:117-125 | a list is emptied exactly when every record in it is expired |
| Caches.RemoveAllCreatedBefore | Project02/Caches/SpotifyCache.cs:116-118 | filters the shared list in place, and `removedCount` is the old count minus the new |
| Caches.SpotifyCache.constructor | Project02/Caches/SpotifyCache.cs:21-25 | both maps start empty, and the time to live is stored |
| Caches.SpotifyCache.AddOrUpdateTracksCache | Project02/Caches/SpotifyCache.cs:27-49 | absent key: stores `values` and returns `Inserted`. Element-wise equal entry: keeps the old list and returns `Updated`, unless `values` is that very list, which returns `Inserted`. Different entry: stores `values` and returns `Inserted`. Never `Unchanged`; other keys and the album map are unchanged |
| Caches.SpotifyCache.AddOrUpdateAlbumsCache | Project02/Caches/SpotifyCache.cs:51-73 | the same three cases on the album map; the track map is unchanged |
| Caches.SpotifyCache.ClearCachedTracks | Project02/Caches/SpotifyCache.cs:75-79 | empties the track map and leaves the album map alone |
| Caches.SpotifyCache.ClearCachedAlbums | Project02/Caches/SpotifyCache.cs:81-85 | empties the album map and leaves the track map alone |
| Caches.SpotifyCache.RemoveTrack | Project02/Caches/SpotifyCache.cs:87-95 | returns true exactly when the key was present; afterwards the key is absent and nothing else changed |
| Caches.SpotifyCache.RemoveAlbum | Project02/Caches/SpotifyCache.cs:97-105 | the same on the album map |
| Caches.SpotifyCache.GetTracks | Project02/Caches/SpotifyCache.cs:163-182 | returns the stored list object when the key is present and null otherwise; never fails |
| Caches.SpotifyCache.GetAlbums | Project02/Caches/SpotifyCache.cs:184-203 | the same on the album map |
| Caches.SpotifyCache.RemoveExpired | Project02/Caches/SpotifyCache.cs:107-161 | every cached list, track and album, is filtered in place by `now - timeToLive`. A track key survives exactly when its list is non-empty after filtering and no same-key album list was emptied, and it keeps the same list object; the album map keeps all its keys and list objects |
| Caches.SweepEntries | Project02/Caches/SpotifyCache.cs:110-134 | one `foreach` over a snapshot of the keys: every list of the map ends filtered exactly once, even when two keys share a list object, and the returned keys are exactly those whose filtered list is empty |
| Caches.SweepOne | Project02/Caches/SpotifyCache.cs:114-117 | filtering one shared list leaves every key that holds it with the filtered snapshot |
| GenericCaches.GenericCache.constructor | Project01/Caches/GenericCache.cs:5-9 | the map starts empty, and the time to live is stored |
| GenericCaches.GenericCache.AddToCache | Project01/Caches/GenericCache.cs:11-14 | the key maps to `values` whether it was present or not; no comparison is made, other entries are unchanged and no key is lost |
| GenericCaches.AddToCacheIdempotent | Project01/Caches/GenericCache.cs:13 | adding the same key and list twice gives the same map as adding it once |
| Pagination.RequestCount | Project02/Spotify/SpotifyFetcher.cs:47-48 | 0 extra requests when `total <= 50`; otherwise the least `n` with `n * 50 >= total - 50` (the integer ceiling) |
| Pagination.ExtraOffsets | Project02/Spotify/SpotifyFetcher.cs:51-55 | one offset per extra request, the `i`-th being `(i + 1) * 50` |
| Pagination.PlanCoversTotal | Project02/Spotify/SpotifyFetcher.cs:47-55 | every extra offset lies in `[50, total)`; offsets strictly increase; the last window reaches `total`; every position in `[50, total)` falls in exactly the window `x / 50 - 1` |
| Pagination.FirstErrorAt | Project02/Spotify/SpotifyFetcher.cs:56 | when page `k` is the first to fail, the whole fan-out fails with that page's error |
| Pagination.InOrderReadsOnlyPlan | Project02/Spotify/SpotifyFetcher.cs:39-58 | the ordered result depends only on the page at offset 0 and the planned offsets, so `total <= 50` reads no other page |
| Pagination.AsBagReadsOnlyPlan | Project01/Spotify/SpotifyFetcher.cs:42-76 | the bag result depends only on the page at offset 0 and the planned offsets |
| Pagination.BagAgreesWithInOrder | Project01/Spotify/SpotifyFetcher.cs:41-76 | when every page succeeds, the bag holds exactly the items of the ordered result |
| Pagination.InOrderReassembles | Project02/Spotify/SpotifyFetcher.cs:37-61 | against an upstream that serves 50-wide windows of a list (reporting its length as `total`), the ordered fetch returns exactly that list |
| Pagination.ServedPlanReassembles | Project02/Spotify/SpotifyFetcher.cs:47-58 | the extra pages of such an upstream all succeed and concatenate to the list after its first 50 items |
| Pagination.ConcatOfServedPrefix | Project02/Spotify/SpotifyFetcher.cs:47-58 | the first `j` extra pages of such an upstream succeed and concatenate to the list's items from 50 up to the end of page `j` |
| Pagination.AgreeingSucceed | Project02/Spotify/SpotifyFetcher.cs:51-56 | upstreams that agree on the planned offsets fail alike, with the same first error |
| Pagination.AgreeingItems | Project02/Spotify/SpotifyFetcher.cs:56-58 | upstreams that agree on the planned offsets give the same ordered items and the same bag |
| Pagination.SucceededItemsOfConcat | Project01/Spotify/SpotifyFetcher.cs:57-76 | when no extra page fails, the bag of the extra pages is the multiset of their ordered concatenation |
| Pagination.AsBagReassembles | Project01/Spotify/SpotifyFetcher.cs:39-77 | against such an upstream, the bag fetch returns a permutation of that list |
| Pagination.FetchAllInOrder | Project02/Spotify/SpotifyFetcher.cs:37-61 | the loop that starts one request per extra page, the `WhenAll` wait and the append loop compute the ordered result: first page, then every extra page in offset order, or the first page error |
| Pagination.RequestExtraPages | Project02/Spotify/SpotifyFetcher.cs:51-55 | the `for` loop issues one request per extra page, request `j` at offset `(j + 1) * 50`, in order |
| Pagination.RunBagJobs | Project01/Spotify/SpotifyFetcher.cs:51-74 | after the countdown reaches zero the bag holds what it held before plus the items of every extra page that succeeded; a failed page adds nothing |
| Pagination.ConcatPagesSnoc | Project02/Spotify/SpotifyFetcher.cs:57-58 | appending the next successful page extends the ordered concatenation by exactly its items |
| Pagination.SucceededItemsSnoc | Project01/Spotify/SpotifyFetcher.cs:57-68 | one more job adds its page's items to the bag when the page succeeded and nothing when it failed |
| Pagination.FetchAllIntoBag | Project01/Spotify/SpotifyFetcher.cs:39-77 | the job loop with its countdown succeeds exactly when the first page does, fails with that page's error, and returns a list whose multiset is the first page's items plus those of every extra page that succeeded |
| SpotifyFetcher02.FetchAllTracks | Project02/Spotify/SpotifyFetcher.cs:37-61 | the ordered, all-or-nothing result over the track pages |
| SpotifyFetcher02.FetchAllAlbums | Project02/Spotify/SpotifyFetcher.cs:63-88 | the same plan and merge over the album pages |
| SpotifyFetcher01.FetchAllTracks | Project01/Spotify/SpotifyFetcher.cs:39-77 | the bag result over the track pages; only a first-page failure propagates |
| SpotifyFetcher01.FetchAllAlbums | Project01/Spotify/SpotifyFetcher.cs:79-117 | the same over the album pages |
| YelpFetcher.FetchAllReviews | Project03/Yelp/YelpFetcher.cs:31-70 | the bag result over a business's review pages; only a first-page failure propagates |
| Http.ValuesOf | Project02/HttpServer/HttpServer.cs:106-107 | the values of the pairs whose name matches ignoring ASCII case, in URL order; see `GetPresence`, `ValuesOfSkip` |
| Http.JoinWithCommas | Project02/HttpServer/HttpServer.cs:106-107 | the comma join `NameValueCollection` applies to repeated values; see `GetSingle`, `GetRepeated` |
| Http.Get | Project02/HttpServer/HttpServer.cs:106-107 | `QueryString.Get(name)`: no contract of its own; specified by `GetPresence`, `GetIgnoresCase`, `GetSingle` and `GetRepeated` |
| Http.GetPresence | Project02/HttpServer/HttpServer.cs:106-107 | `QueryString.Get(name)` is null exactly when no query pair carries the name, compared ignoring case |
| Http.GetIgnoresCase | Project02/HttpServer/HttpServer.cs:106-107 | names that differ only in ASCII case read the same parameter |
| Http.GetSingle | Project02/HttpServer/HttpServer.cs:106-107 | a name given once reads its value |
| Http.GetRepeated | Project02/HttpServer/HttpServer.cs:106-107 | a name given twice reads both values in URL order, joined by a comma |
| Http.ValuesOfSkip | Project02/HttpServer/HttpServer.cs:106-107 | pairs before the first one with the name contribute nothing to its value |
| HttpServer02.Validate | Project02/HttpServer/HttpServer.cs:100-123 | non-GET gives 405 whatever the parameters. A request passes exactly when it is a GET with a non-empty `query` and a `type` of `album` or `track`. Otherwise it gets a 400 whose message names the first failed check |
| HttpServer02.RepeatedTypeIsInvalid | Project02/HttpServer/HttpServer.cs:107-123 | `type=album&type=track` reads as `album,track` and is answered 400 "Invalid type GET parameter" |
| HttpServer02.HttpServer.constructor | Project02/HttpServer/HttpServer.cs:22-29 | the server holds the given cache and is not active |
| HttpServer02.HttpServer.Start | Project02/HttpServer/HttpServer.cs:31-38 | the server is active |
| HttpServer02.HttpServer.Stop | Project02/HttpServer/HttpServer.cs:40-48 | the server is inactive and both maps of its cache are empty |
| HttpServer02.HttpServer.HandleRequestAsync | Project02/HttpServer/HttpServer.cs:90-166 | a rejected request gets its rejection and the cache is untouched. A hit answers 200 with the cached list. A miss answers 200 with the ordered fetch result and stores it, as a newly allocated list, under the query alone. A failed fetch answers 500 with its message and stores nothing |
| HttpServer01.Validate | Project01/HttpServer/HttpServer.cs:93-111 | non-GET gives 405; a request passes exactly when it is a GET with a non-empty `query` and any `type`; otherwise 400 naming the first failed check |
| HttpServer01.HttpServer.constructor | Project01/HttpServer/HttpServer.cs:21-29 | the server holds the given cache and is not active |
| HttpServer01.HttpServer.Start | Project01/HttpServer/HttpServer.cs:31-37 | the server is active |
| HttpServer01.HttpServer.Stop | Project01/HttpServer/HttpServer.cs:39-47 | the server is inactive and both maps of its cache are empty |
| HttpServer01.HttpServer.HandleRequest | Project01/HttpServer/HttpServer.cs:83-154 | a rejected request gets its rejection. A `type` other than `album` or `track` gets 400 "Invalid type GET parameter" with the cache untouched. A hit answers 200 with the cached list. A miss answers 200 with a list whose multiset is the bag result, and stores it, as a newly allocated list, under the query. A failed first page answers 400 with its message and stores nothing |
| ReactiveServer.RemoveFirst | Project03/Reactive/HttpServer.cs:119 | `List.Remove`: leaves a list without the element unchanged, otherwise is one shorter with one copy of it fewer |
| ReactiveServer.RemoveFirstSplices | Project03/Reactive/HttpServer.cs:119 | removal cuts out exactly the first occurrence and keeps the rest in order |
| ReactiveServer.RemoveFirstFromDistinct | Project03/Reactive/HttpServer.cs:114-119 | removing from a duplicate-free list keeps it duplicate-free and leaves no copy of the element |
| ReactiveServer.IndexOf | Project03/Reactive/HttpServer.cs:119 | the position `List.Remove` removes: an occurrence with none before it |
| ReactiveServer.SpliceFromDistinct | Project03/Reactive/HttpServer.cs:119 | cutting one position out of a duplicate-free list leaves it duplicate-free and without the element cut |
| ReactiveServer.Validate | Project03/Reactive/HttpServer.cs:86-99 | non-GET gives 405; a request passes exactly when it is a GET with a non-empty `id`; otherwise 400 "Missing id GET parameter" |
| ReactiveServer.FirstFailure | Project03/Reactive/HttpServer.cs:101-111 | the position of the first observer whose `OnNext` throws: every observer before it accepts |
| ReactiveServer.Delivered | Project03/Reactive/HttpServer.cs:101-111 | what one request appends to an observer's inbox. With no failure, exactly one `OnNext` with the id. After a failure, `OnNext` up to and including the failing observer, then `OnError` with its message to all |
| ReactiveServer.NotifyNext | Project03/Utils/ObserverListExtensions.cs:7-11 | each observer, in list order, receives exactly one `OnNext` up to the first that throws; later ones receive nothing, and the thrown message is returned |
| ReactiveServer.NotifyError | Project03/Utils/ObserverListExtensions.cs:19-23 | every observer receives exactly one `OnError` with the message |
| ReactiveServer.HttpServer.constructor | Project03/Reactive/HttpServer.cs:27-33 | the observer list starts empty |
| ReactiveServer.HttpServer.Subscribe | Project03/Reactive/HttpServer.cs:114-120 | appends the observer only when it is not already subscribed, so the list stays duplicate-free, and returns a fresh, undisposed handle for it |
| ReactiveServer.HttpServer.HandleRequest | Project03/Reactive/HttpServer.cs:74-112 | a rejected request gets its 405 or 400 and no observer is notified. A valid one is broadcast to every observer as `Delivered` says. The server answers 500 with the thrown message exactly when an observer threw |
| ReactiveServer.Subscription.Dispose | Project03/Reactive/HttpServer.cs:119 | the first disposal removes the observer from the list, leaving it duplicate-free and without that observer; later disposals change nothing |
| Ascii.Lower | Project03/Reactive/TopicModeler.cs:176 | `ToLowerInvariant` keeps the length and lowercases character by character |
| Ascii.LowerIdempotent | Project03/Reactive/TopicModeler.cs:176 | lowercasing twice changes nothing more |
| Ascii.LowerKeepsLowercase | Project03/Reactive/TopicModeler.cs:176 | a word without capitals is its own lowercase |
| TopicModeler.IsBlank | Project03/Reactive/TopicModeler.cs:172 | `string.IsNullOrWhiteSpace`: every character is white space (the empty string included) |
| TopicModeler.Split | Project03/Reactive/TopicModeler.cs:68 | `Regex.Split(s, @"\W+")`: always at least one piece; fully determined by `SplitOfWord` and `SplitAtSeparator` |
| TopicModeler.SplitPiecesAreWords | Project03/Reactive/TopicModeler.cs:68 | every piece of `Regex.Split(s, @"\W+")` consists of word characters |
| TopicModeler.SplitConcat | Project03/Reactive/TopicModeler.cs:68 | the pieces, glued back together, are exactly the word characters of the input in their original order |
| TopicModeler.SplitShape | Project03/Reactive/TopicModeler.cs:68 | there is one piece more than there are runs of non-word characters, and only the first and last pieces can be empty |
| TopicModeler.SplitKeepsCharacters | Project03/Reactive/TopicModeler.cs:176 | every character of a piece occurs in the input |
| TopicModeler.SplitOfWord | Project03/Reactive/TopicModeler.cs:68 | text without separator characters (including `""`) is a single piece, itself |
| TopicModeler.SplitAfterSeparator | Project03/Reactive/TopicModeler.cs:68 | a separator run at the start yields an empty first piece, then the pieces of what follows |
| TopicModeler.SplitAtSeparator | Project03/Reactive/TopicModeler.cs:68 | splitting at a maximal separator run gives the pieces before it followed by the pieces after it: every piece starts and ends exactly at a run boundary |
| TopicModeler.IsStopword | Project03/Reactive/TopicModeler.cs:48-67 | `Stopwords.Contains(w)` with `OrdinalIgnoreCase`; see `StopwordIgnoresCase` |
| TopicModeler.StopwordIgnoresCase | Project03/Reactive/TopicModeler.cs:48 | the stopword test ignores case, and for a word without capitals it is plain membership in the list |
| TopicModeler.Keep | Project03/Reactive/TopicModeler.cs:177 | the `Where(w => w.Length > 2 && !Stopwords.Contains(w))` filter; specified by `KeepMembers`, `KeepCounts` and `KeepIsSubsequence` |
| TopicModeler.KeepMembers | Project03/Reactive/TopicModeler.cs:177 | a piece is kept exactly when it is longer than two characters and not a stopword |
| TopicModeler.KeepCounts | Project03/Reactive/TopicModeler.cs:177 | a kept piece appears exactly as often as in the input; a dropped one never appears |
| TopicModeler.KeepIsSubsequence | Project03/Reactive/TopicModeler.cs:177 | the kept pieces keep their order |
| TopicModeler.Tokenize | Project03/Reactive/TopicModeler.cs:170-178 | `Tokenize`: no contract of its own; specified by `TokenizeSpec` and `TokenizeCounts` |
| TopicModeler.TokenizeSpec | Project03/Reactive/TopicModeler.cs:170-178 | blank text gives no tokens. Otherwise the tokens are, in order, the pieces of the lowercased text that are longer than two characters and not stopwords. Every token is made of lowercase word characters |
| TopicModeler.TokenizeCounts | Project03/Reactive/TopicModeler.cs:170-178 | each token occurs as often as among the pieces of the lowercased text; blank text, short words and stopwords give no tokens |
| TopicModeler.Distinct | Project03/Reactive/TopicModeler.cs:157 | the `GroupBy` keys: each word once, exactly the words that occur |
| TopicModeler.InsertByCount | Project03/Reactive/TopicModeler.cs:158 | inserting adds exactly that one word |
| TopicModeler.SortByCount | Project03/Reactive/TopicModeler.cs:158 | sorting permutes the keys |
| TopicModeler.InsertKeepsOrder | Project03/Reactive/TopicModeler.cs:158 | inserting into a list sorted by descending count keeps it sorted |
| TopicModeler.SortByCountOrders | Project03/Reactive/TopicModeler.cs:158 | the sorted keys are in non-increasing count order |
| TopicModeler.ConsKeepsOrder | Project03/Reactive/TopicModeler.cs:158 | a word counted at least as often as every word of a sorted list stays sorted at its head |
| TopicModeler.InsertBounded | Project03/Reactive/TopicModeler.cs:158 | a count that bounds a list and the inserted word bounds the list after insertion |
| TopicModeler.PrefixOfSorted | Project03/Reactive/TopicModeler.cs:158-159 | `Take(5)` of the sorted keys stays duplicate-free and sorted, and no word left out outranks a word taken |
| TopicModeler.SortedKeys | Project03/Reactive/TopicModeler.cs:156-158 | the `GroupBy` keys after `OrderByDescending` hold each token exactly once, most frequent first |
| TopicModeler.TopWords | Project03/Reactive/TopicModeler.cs:156-161 | the `GroupBy`/`OrderByDescending`/`Take(5)` chain; specified by `TopWordsSpec` |
| TopicModeler.TopWordsSpec | Project03/Reactive/TopicModeler.cs:156-161 | at most five words, each from the topic's tokens and each once, most frequent first. A word left out occurs no more often than any word kept, and is only left out when five were kept |
| TopicModeler.TrimStart | Project03/Reactive/TopicModeler.cs:111 | never longer than its input; see `TrimStartSpec` |
| TopicModeler.TrimEnd | Project03/Reactive/TopicModeler.cs:111 | never longer than its input; see `TrimEndSpec` |
| TopicModeler.Trim | Project03/Reactive/TopicModeler.cs:111 | `string.Trim()` as `TrimEnd(TrimStart(s))`; specified by `TrimSpec` and `TrimKeepsNonBlank` |
| TopicModeler.TrimStartSpec | Project03/Reactive/TopicModeler.cs:111 | drops exactly the leading white space |
| TopicModeler.TrimEndSpec | Project03/Reactive/TopicModeler.cs:111 | drops exactly the trailing white space |
| TopicModeler.TrimSpec | Project03/Reactive/TopicModeler.cs:111 | the trimmed text is a slice of the original that starts and ends with a non-white-space character |
| TopicModeler.TrimKeepsNonBlank | Project03/Reactive/TopicModeler.cs:111 | trimming empties exactly the blank texts |
| TopicModeler.KeptReviews | Project03/Reactive/TopicModeler.cs:109-112 | the filter never adds reviews |
| TopicModeler.KeptReviewsSingle | Project03/Reactive/TopicModeler.cs:109-112 | one review is kept, as its id and trimmed text, exactly when it is not blank |
| TopicModeler.KeptReviewsConcat | Project03/Reactive/TopicModeler.cs:109-112 | the filter works review by review: two batches keep what each keeps, in order, repeats included |
| TopicModeler.KeptReviewsEmpty | Project03/Reactive/TopicModeler.cs:109-114 | nothing is kept exactly when every review is blank |
| TopicModeler.KeptReviewsSound | Project03/Reactive/TopicModeler.cs:109-112 | every kept entry is a non-blank review's id with its trimmed text, and is itself non-blank |
| TopicModeler.KeptReviewsComplete | Project03/Reactive/TopicModeler.cs:109-112 | every non-blank review is kept |
| TopicModeler.PoolStep | Project03/Reactive/TopicModeler.cs:144 | one more review appends its tokens to its own topic's pool and to no other |
| TopicModeler.EmptyTopicGroups | Project03/Reactive/TopicModeler.cs:133-136 | the dictionary holds exactly the topics `0..4`, each with an empty token list |
| TopicModeler.GroupByTopic | Project03/Reactive/TopicModeler.cs:132-152 | the two loops build one token pool per topic `0..4`, the tokens of its reviews in review order, and one result per review without top words |
| TopicModeler.AssignTopWords | Project03/Reactive/TopicModeler.cs:163-164 | exactly the results of topic `t` get the given top words; the others are unchanged |
| TopicModeler.GetTopics | Project03/Reactive/TopicModeler.cs:107-168 | one result per kept review, in order, with its id and topic and the top words of that topic's pool. Results with the same topic carry the same top words; no kept review gives no results |
| Json.GetProperty | Project01/SpotifyFetcher/SpotifyFetcher.cs:94 | succeeds exactly on an object holding the property, and yields its value |
| Json.TryGetProperty | Project01/SpotifyFetcher/SpotifyFetcher.cs:100 | succeeds exactly on an object; the property is found exactly when present |
| Json.GetString | Project01/SpotifyFetcher/SpotifyFetcher.cs:94 | a string gives its text, null gives null, any other kind fails |
| Json.GetInt32 | Project01/SpotifyFetcher/SpotifyFetcher.cs:96 | succeeds exactly on a number within 32 bits, and yields it |
| Json.GetBoolean | Project01/SpotifyFetcher/SpotifyFetcher.cs:97 | succeeds exactly on `true` or `false` |
| Json.EnumerateArray | Project01/SpotifyFetcher/SpotifyFetcher.cs:121-122 | succeeds exactly on an array, yielding its elements in order |
| Json.StringProperty | Project01/SpotifyFetcher/SpotifyFetcher.cs:94 | succeeds exactly when the property exists and is a string or null, and then returns its text (null for JSON null) |
| Json.Int32Property | Project01/SpotifyFetcher/SpotifyFetcher.cs:96 | succeeds exactly when the property exists and is a 32-bit number, and then returns that number |
| Json.MapAll | Project01/SpotifyFetcher/SpotifyFetcher.cs:121-131 | `Select(f).ToArray()` with the first exception propagating; specified by `MapAllSpec` |
| Json.MapAllSpec | Project01/SpotifyFetcher/SpotifyFetcher.cs:121-131 | `Select(...).ToArray()` succeeds exactly when every element converts, yielding one result per element in order; otherwise it fails with the first element's error |
| LegacySpotifyFetcher.ParseArtist | Project01/SpotifyFetcher/SpotifyFetcher.cs:123-130 | succeeds exactly when the five properties are strings or null, and copies their text (null staying null) |
| LegacySpotifyFetcher.PreviewUrl | Project01/SpotifyFetcher/SpotifyFetcher.cs:100-102 | `""` when `preview_url` is missing or null, its text when a string; any other kind fails |
| LegacySpotifyFetcher.Flag | Project01/SpotifyFetcher/SpotifyFetcher.cs:106-107 | true exactly when the property exists and is JSON `true` |
| LegacySpotifyFetcher.ParseAlbumScalars | Project01/SpotifyFetcher/SpotifyFetcher.cs:166-174 | succeeds exactly when `id`, `name`, `album_type`, `href`, `release_date`, `release_date_precision`, `type` and `uri` are strings or null and `total_tracks` is a 32-bit number, and then copies all nine |
| LegacySpotifyFetcher.ParseTrackAlbum | Project01/SpotifyFetcher/SpotifyFetcher.cs:109-132 | succeeds exactly when `album` is present with those nine properties and a parsable `artists` array. The nested album then copies them, has the artists of `album.artists` and no markets, and is stamped `now` |
| LegacySpotifyFetcher.ParseTrackScalars | Project01/SpotifyFetcher/SpotifyFetcher.cs:94-108 | succeeds exactly when the required properties have their kinds: `id`, `name`, `href`, `type`, `uri` string or null; `duration_ms`, `popularity`, `track_number` 32-bit numbers; `explicit` a boolean; `preview_url` missing, null or a string. `is_playable` and `is_local` are never required. On success the values are copied, `PreviewUrl` is `""` for a missing or null `preview_url`, `IsPlayable` and `IsLocal` hold exactly for JSON `true`, and `DiscNumber` is 0 |
| LegacySpotifyFetcher.ParseTrack | Project01/SpotifyFetcher/SpotifyFetcher.cs:92-145 | succeeds exactly when the scalar properties, the nested album and the `artists` array all parse; then every scalar property as above, plus that album and those artists, stamped `now` |
| LegacySpotifyFetcher.ParseMarket | Project01/SpotifyFetcher/SpotifyFetcher.cs:176 | a market string is kept, null becomes `""`, any other kind fails |
| LegacySpotifyFetcher.MarketsOk | Project01/SpotifyFetcher/SpotifyFetcher.cs:175-177 | the market list converts exactly when every element is a string or null |
| LegacySpotifyFetcher.ParseAlbum | Project01/SpotifyFetcher/SpotifyFetcher.cs:164-190 | succeeds exactly when the nine scalar properties are present, `available_markets` is an array of strings or nulls (possibly empty) and `artists` parses; then the scalars are copied, the markets and artists are those of the arrays, and it is stamped `now` |
| LegacySpotifyFetcher.ParseArtists | Project01/SpotifyFetcher/SpotifyFetcher.cs:121-131 | `GetProperty(name).EnumerateArray().Select(artist => new Artist { ... })`; specified by `ParseArtistsOk` and `ParseArtistsInOrder` |
| LegacySpotifyFetcher.ParseArtistsOk | Project01/SpotifyFetcher/SpotifyFetcher.cs:121-131 | an artist array parses exactly when it is an array of objects whose five properties are strings or null |
| LegacySpotifyFetcher.ParseArtistsInOrder | Project01/SpotifyFetcher/SpotifyFetcher.cs:134-144 | parsed artists are those of the JSON array, one per element, in order |
| LegacySpotifyFetcher.TrackArtistsInOrder | Project01/SpotifyFetcher/SpotifyFetcher.cs:121-144 | a track's artists, and its album's artists, follow their JSON arrays element by element |
| LegacySpotifyFetcher.AlbumListsInOrder | Project01/SpotifyFetcher/SpotifyFetcher.cs:175-189 | an album's markets and artists follow their JSON arrays element by element |
| LegacySpotifyFetcher.Items | Project01/SpotifyFetcher/SpotifyFetcher.cs:88 | succeeds exactly when `root.<outer>.items` is an array, and then yields its elements in order |
| LegacySpotifyFetcher.ParsedTracksSpec | Project01/SpotifyFetcher/SpotifyFetcher.cs:88-150 | parsing succeeds exactly when every item of `tracks.items` parses, and then yields one track per item, in order |
| LegacySpotifyFetcher.ParsedAlbumsSpec | Project01/SpotifyFetcher/SpotifyFetcher.cs:160-195 | the same for `albums.items` |
| LegacySpotifyFetcher.ParseTracks | Project01/SpotifyFetcher/SpotifyFetcher.cs:81-151 | parses `tracks.items` exactly as `ParsedTracks` describes: one track per item, in order, stopping at the first item that fails |
| LegacySpotifyFetcher.ParseAlbums | Project01/SpotifyFetcher/SpotifyFetcher.cs:153-196 | parses `albums.items` exactly as `ParsedAlbums` describes |
| LegacySpotifyFetcher.ParseEach | Project01/SpotifyFetcher/SpotifyFetcher.cs:90-148 | the `foreach` loop (and its twin at lines 162-193): its result is `MapAll` of the items, the first failing item's error otherwise |
| LegacySpotifyFetcher.MapAllPrefixFails | Project01/SpotifyFetcher/SpotifyFetcher.cs:90-148 | an item that fails ends the whole parse with that failure, whatever follows it |
| LegacySpotifyFetcher.SpotifyFetcher.FetchTracks | Project01/SpotifyFetcher/SpotifyFetcher.cs:30-52 | a hit returns the cached list object. A miss succeeds exactly for a 2xx response whose body parses; then it returns a fresh list stored under the query alone. Any failure leaves the cache untouched |
| LegacySpotifyFetcher.SpotifyFetcher.FetchAlbums | Project01/SpotifyFetcher/SpotifyFetcher.cs:56-79 | the same hit, miss and store rules for albums |

## Left out

- Network I/O is not modelled: HTTP clients, token retrieval, URL building and escaping, the listener loops, and writing responses. A response is a status and a body value, and upstream requests are function parameters.
- The Project01 `SpotifyCache` that Project01's server and old fetcher use is not part of this model. The Project02 cache, which has the same operations, stands in for it.
- Concurrency is not modelled: the thread pool, tasks, `CountdownEvent`, `ConcurrentBag`, the per-key atomicity of `ConcurrentDictionary`, the `lock` in the sweep and the 10-minute timer. Jobs run one after another, and the sweep is an explicit call.
- Pagination.FetchAllIntoBag: the bag is filled in plan order, so only the multiset of the result is promised; the order of a real run is not modelled.
- Caches.SpotifyCache.AddOrUpdateTracksCache: `SequenceEqual` on records is value equality here. The record classes compare by reference, so the source finds fewer equal lists than the model does.
- `Math.Ceiling` over `double` is integer ceiling division here. The two agree for these sizes.
- LDA, the topic vectors and their argmax are not modelled: the topic of each kept review is an input below 5. `TopicDistribution` is not carried in the results.
- TopicModeler.GetTopics: the results are values, so the one `TopWords` list object that results of the same topic share is modelled as equal values.
- Character classes are ASCII only: `\W`, `ToLowerInvariant` and white space have no Unicode cases here.
- JSON text parsing is left out, and a body that is not valid JSON is a failure. Numbers are integers, so fractional JSON numbers are not modelled.
- The `CreatedAt` stamp of every parsed record is `now`, on the assumption that the `CacheEntry` base class sets it when the object is constructed. That base class is not part of this model.
- The raw query string is not decoded here: a request carries its already decoded name/value pairs in URL order, so percent-decoding, `+` and parameters without `=` are not modelled. Key comparison ignoring case is ASCII only.
- Exception messages are not the .NET wording except the server's own literals.
- Null strings exist only where `GetString()!` can produce them (the `NString` fields).
- Serilog logging, `Program.cs` start-up, `ResultObserver`, `YelpFetchCall`, the `TopicModeler` observer methods and the older stub in Project03/HttpServer are not modelled.
- ReactiveServer.HttpServer.HandleRequest: only an exception thrown by an observer's `OnNext` is modelled. Failures while writing a response are not.
- TopicModeler.TopWordsSpec: ties between equally frequent words are ordered by first occurrence in the source (a stable sort). The model sorts the same way, but the contract does not state that order.
- `ObserverListExtensions.OnCompleted` is never called by the server and is not modelled. The observers are stand-ins: `OnNext` records the notification and fails with a fixed message or not at all, and `OnError` never fails.
- The reactive server's `Start`/`Stop` and the cache's `Dispose` only manage the listener thread and the timer, so they are not modelled.
