/** The plain data classes of the three projects (Project01/Models, Project03/Models)
    as values, and `ListRef`, the mutable `List<T>` object that the caches share with
    their callers. */
module Models {
  import opened Results

  /** A string property that `JsonElement.GetString()` may leave null. */
  type NString = Option<string>

  datatype Artist = Artist(
    href: NString,
    id: NString,
    name: NString,
    objectType: NString,
    uri: NString)

  /** An album; `createdAt` is the inherited `CacheEntry.CreatedAt`, as an integer clock value. */
  datatype Album = Album(
    albumType: NString,
    totalTracks: int,
    availableMarkets: seq<string>,
    href: NString,
    id: NString,
    name: NString,
    releaseDate: NString,
    releaseDatePrecision: NString,
    objectType: NString,
    uri: NString,
    artists: seq<Artist>,
    createdAt: int)

  /** A track; `createdAt` is the inherited `CacheEntry.CreatedAt`, as an integer clock value. */
  datatype Track = Track(
    album: Album,
    artists: seq<Artist>,
    discNumber: int,
    durationMs: int,
    explicit: bool,
    href: NString,
    id: NString,
    isPlayable: bool,
    name: NString,
    popularity: int,
    previewUrl: string,
    trackNumber: int,
    objectType: NString,
    uri: NString,
    isLocal: bool,
    createdAt: int)

  datatype User = User(id: string, profileUrl: string, imageUrl: NString, name: string)

  datatype Review = Review(
    id: string,
    url: string,
    text: string,
    rating: int,
    timeCreated: string,
    user: User,
    possibleLanguages: seq<string>)

  function TrackCreatedAt(t: Track): int { t.createdAt }

  function AlbumCreatedAt(a: Album): int { a.createdAt }

  /** A `List<T>` object: the caches store the reference they are given and hand the
      same reference back, so a change made through one holder is seen by all. */
  class ListRef<T> {
    var items: seq<T>

    constructor (items: seq<T>)
      ensures this.items == items
    {
      this.items := items;
    }
  }
}
