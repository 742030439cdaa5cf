/** The query-keyed result cache of Project02/Caches/SpotifyCache.cs: two maps from a
    query string to a shared list object, with add-or-update, removal, clearing,
    lookup and an expiry sweep that filters the shared lists in place. */
module Caches {
  import opened Models
  import opened Sequences

  /** The statuses the cache declares; `AddOrUpdate*Cache` never produces `Unchanged`. */
  datatype CacheStatus = Inserted | Updated | Unchanged

  /** The items of `s` that `RemoveAll(val => val.CreatedAt < expTime)` keeps, in order. */
  function Unexpired<T>(s: seq<T>, createdAt: T -> int, expTime: int): (r: seq<T>)
    ensures |r| <= |s|
  {
    if s == [] then []
    else if createdAt(s[0]) < expTime then Unexpired(s[1..], createdAt, expTime)
    else [s[0]] + Unexpired(s[1..], createdAt, expTime)
  }

  /** Every survivor was in the input and is not expired. */
  lemma {:induction false} UnexpiredSound<T>(s: seq<T>, createdAt: T -> int, expTime: int)
    ensures forall x :: x in Unexpired(s, createdAt, expTime) ==> x in s && createdAt(x) >= expTime
  {
    if s != [] {
      UnexpiredSound(s[1..], createdAt, expTime);
    }
  }

  /** The sweep keeps the survivors in their relative order. */
  lemma {:induction false} UnexpiredIsSubsequence<T>(s: seq<T>, createdAt: T -> int, expTime: int)
    ensures IsSubsequence(Unexpired(s, createdAt, expTime), s)
  {
    if s != [] {
      UnexpiredIsSubsequence(s[1..], createdAt, expTime);
      UnexpiredSound(s[1..], createdAt, expTime);
    }
  }

  /** Every unexpired item survives with its multiplicity; every expired one is gone. */
  lemma {:induction false} UnexpiredCounts<T>(s: seq<T>, createdAt: T -> int, expTime: int, x: T)
    ensures multiset(Unexpired(s, createdAt, expTime))[x]
         == if createdAt(x) < expTime then 0 else multiset(s)[x]
  {
    if s != [] {
      UnexpiredCounts(s[1..], createdAt, expTime, x);
      assert s == [s[0]] + s[1..];
    }
  }

  /** Filtering a list that was already filtered with the same cut-off changes nothing. */
  lemma {:induction false} UnexpiredIdempotent<T>(s: seq<T>, createdAt: T -> int, expTime: int)
    ensures Unexpired(Unexpired(s, createdAt, expTime), createdAt, expTime)
         == Unexpired(s, createdAt, expTime)
  {
    if s != [] {
      UnexpiredIdempotent(s[1..], createdAt, expTime);
    }
  }

  /** A list becomes empty exactly when every item in it has expired. */
  lemma {:induction false} UnexpiredEmptyIff<T>(s: seq<T>, createdAt: T -> int, expTime: int)
    ensures Unexpired(s, createdAt, expTime) == [] <==> forall x :: x in s ==> createdAt(x) < expTime
  {
    if s != [] {
      UnexpiredEmptyIff(s[1..], createdAt, expTime);
      assert forall x :: x in s ==> x == s[0] || x in s[1..];
    }
  }

  /** `values.RemoveAll(val => val.CreatedAt < expTime)` on the shared list object. */
  method RemoveAllCreatedBefore<T>(values: ListRef<T>, createdAt: T -> int, expTime: int)
    returns (removedCount: nat)
    modifies values
    ensures values.items == Unexpired(old(values.items), createdAt, expTime)
    ensures removedCount == |old(values.items)| - |values.items|
  {
    var originalCount := |values.items|;
    values.items := Unexpired(values.items, createdAt, expTime);
    removedCount := originalCount - |values.items|;
  }

  class SpotifyCache {
    var tracks: map<string, ListRef<Track>>
    var albums: map<string, ListRef<Album>>
    const timeToLive: int

    /** The 10-minute sweep timer is not modelled: `RemoveExpired` is called explicitly. */
    constructor (ttl: int)
      ensures tracks == map[] && albums == map[] && timeToLive == ttl
    {
      tracks := map[];
      albums := map[];
      timeToLive := ttl;
    }

    method AddOrUpdateTracksCache(key: string, values: ListRef<Track>) returns (status: CacheStatus)
      modifies this
      ensures albums == old(albums)
      ensures key in tracks && tracks == old(tracks)[key := tracks[key]]
      ensures key !in old(tracks) ==> tracks[key] == values
      ensures key in old(tracks) && old(tracks)[key].items == values.items ==> tracks[key] == old(tracks)[key]
      ensures key in old(tracks) && old(tracks)[key].items != values.items ==> tracks[key] == values
      ensures status == (if tracks[key] == values then Inserted else Updated)
      ensures status != Unchanged
    {
      var stored: ListRef<Track>;
      if key !in tracks {
        stored := values;
      } else if tracks[key].items == values.items {
        stored := tracks[key];
      } else {
        stored := values;
      }
      tracks := tracks[key := stored];
      status := if stored == values then Inserted else Updated;
    }

    method AddOrUpdateAlbumsCache(key: string, values: ListRef<Album>) returns (status: CacheStatus)
      modifies this
      ensures tracks == old(tracks)
      ensures key in albums && albums == old(albums)[key := albums[key]]
      ensures key !in old(albums) ==> albums[key] == values
      ensures key in old(albums) && old(albums)[key].items == values.items ==> albums[key] == old(albums)[key]
      ensures key in old(albums) && old(albums)[key].items != values.items ==> albums[key] == values
      ensures status == (if albums[key] == values then Inserted else Updated)
      ensures status != Unchanged
    {
      var stored: ListRef<Album>;
      if key !in albums {
        stored := values;
      } else if albums[key].items == values.items {
        stored := albums[key];
      } else {
        stored := values;
      }
      albums := albums[key := stored];
      status := if stored == values then Inserted else Updated;
    }

    method ClearCachedTracks()
      modifies this
      ensures tracks == map[] && albums == old(albums)
    {
      tracks := map[];
    }

    method ClearCachedAlbums()
      modifies this
      ensures albums == map[] && tracks == old(tracks)
    {
      albums := map[];
    }

    method RemoveTrack(key: string) returns (removed: bool)
      modifies this
      ensures removed == (key in old(tracks))
      ensures tracks == old(tracks) - {key} && albums == old(albums)
    {
      removed := key in tracks;
      if removed {
        tracks := tracks - {key};
      }
    }

    method RemoveAlbum(key: string) returns (removed: bool)
      modifies this
      ensures removed == (key in old(albums))
      ensures albums == old(albums) - {key} && tracks == old(tracks)
    {
      removed := key in albums;
      if removed {
        albums := albums - {key};
      }
    }

    method GetTracks(key: string) returns (values: ListRef?<Track>)
      ensures values != null <==> key in tracks
      ensures values != null ==> values == tracks[key]
    {
      if key in tracks {
        values := tracks[key];
      } else {
        values := null;
      }
    }

    method GetAlbums(key: string) returns (values: ListRef?<Album>)
      ensures values != null <==> key in albums
      ensures values != null ==> values == albums[key]
    {
      if key in albums {
        values := albums[key];
      } else {
        values := null;
      }
    }

    /** One sweep at clock value `now`. Every cached list is filtered in place. A track key
        whose list empties is dropped; an album key whose list empties stays in `albums`
        and drops the same key from `tracks` instead. */
    method RemoveExpired(now: int)
      modifies this, tracks.Values, albums.Values
      ensures albums == old(albums)
      ensures forall k :: k in old(tracks) ==>
        old(tracks)[k].items == Unexpired(old(tracks[k].items), TrackCreatedAt, now - timeToLive)
      ensures forall k :: k in old(albums) ==>
        albums[k].items == Unexpired(old(albums[k].items), AlbumCreatedAt, now - timeToLive)
      ensures forall k :: k in tracks <==>
        && k in old(tracks)
        && Unexpired(old(tracks[k].items), TrackCreatedAt, now - timeToLive) != []
        && !(k in old(albums) && Unexpired(old(albums[k].items), AlbumCreatedAt, now - timeToLive) == [])
      ensures forall k :: k in tracks ==> tracks[k] == old(tracks)[k]
    {
      var expTime := now - timeToLive;
      // The track pass.
      var emptiedTracks := SweepEntries(tracks, TrackCreatedAt, expTime);
      tracks := tracks - emptiedTracks;
      // The album pass: an emptied album list removes the key from `tracks`, not from
      // `albums` (Project02/Caches/SpotifyCache.cs:153).
      var emptiedAlbums := SweepEntries(albums, AlbumCreatedAt, expTime);
      tracks := tracks - emptiedAlbums;
    }
  }

  /** The body shared by both `foreach` loops of `RemoveExpired`: over a snapshot of the
      keys, each list is filtered in place and the keys whose list became empty are
      collected. Two keys may share one list object; filtering it a second time changes
      nothing. */
  method SweepEntries<T>(entries: map<string, ListRef<T>>, createdAt: T -> int, expTime: int)
    returns (emptied: set<string>)
    modifies entries.Values
    ensures forall k :: k in entries ==>
      entries[k].items == Unexpired(old(entries[k].items), createdAt, expTime)
    ensures forall k :: k in emptied <==>
      k in entries && Unexpired(old(entries[k].items), createdAt, expTime) == []
  {
    ghost var before := map k | k in entries :: entries[k].items;
    emptied := {};
    var keys := entries.Keys;
    while keys != {}
      invariant keys <= entries.Keys
      invariant forall k :: k in emptied <==>
        k in entries && k !in keys && Unexpired(before[k], createdAt, expTime) == []
      invariant forall k :: k in entries ==>
        entries[k].items == before[k] || entries[k].items == Unexpired(before[k], createdAt, expTime)
      invariant forall k :: k in entries && k !in keys ==>
        entries[k].items == Unexpired(before[k], createdAt, expTime)
      decreases keys
    {
      var key :| key in keys;
      var values := entries[key];
      SweepOne(values, createdAt, expTime, entries, before);
      assert values.items == Unexpired(before[key], createdAt, expTime);
      if |values.items| == 0 {
        emptied := emptied + {key};
      }
      keys := keys - {key};
    }
  }

  /** Filters one shared list of a cache map. Every key that holds this list, and so saw
      its items as either the snapshot or the filtered snapshot, now sees the filtered
      snapshot; the lists of other keys are untouched. */
  method SweepOne<T>(values: ListRef<T>, createdAt: T -> int, expTime: int,
                     ghost lists: map<string, ListRef<T>>, ghost before: map<string, seq<T>>)
    requires lists.Keys == before.Keys
    requires forall k :: k in lists ==>
      lists[k].items == before[k] || lists[k].items == Unexpired(before[k], createdAt, expTime)
    modifies values
    ensures forall k :: k in lists && lists[k] == values ==>
      values.items == Unexpired(before[k], createdAt, expTime)
  {
    forall k | k in lists {
      UnexpiredIdempotent(before[k], createdAt, expTime);
    }
    var removedCount := RemoveAllCreatedBefore(values, createdAt, expTime);
  }
}
