/**
 * AlbumsService: album CRUD, the like relation, and the cache-aside like count.
 *
 * Every like write deletes the album's cache key; a count read serves the cached value
 * when present and otherwise counts the like rows, caching a positive count. The
 * invariant tying the two is CacheCoherent.
 */
module Albums {
  import opened Relation
  import opened Schema
  import Mapper
  import Songs

  function AlbumIdPrefix(): string { "album-" }
  function LikeIdPrefix(): string { "useralbumlike-" }

  /** The cache key of an album's like count. */
  function LikeKey(albumId: string): string {
    "albumlike:" + albumId
  }

  lemma LikeKeyInjective(a: string, b: string)
    requires LikeKey(a) == LikeKey(b)
    ensures a == b
  {
    assert a == LikeKey(a)[|"albumlike:"|..];
    assert b == LikeKey(b)[|"albumlike:"|..];
  }

  /** Number of like rows of an album (`SELECT user_id FROM user_album_likes WHERE album_id = $1`). */
  function LikeCount(likes: seq<Like>, albumId: string): nat {
    Count(likes, LikeOfAlbum(albumId))
  }

  /** The cached entry of one album, if present, is its current like count and is positive. */
  ghost predicate EntryCoherent(entries: map<string, nat>, likes: seq<Like>, albumId: string) {
    LikeKey(albumId) in entries ==>
      entries[LikeKey(albumId)] == LikeCount(likes, albumId) && entries[LikeKey(albumId)] > 0
  }

  ghost predicate CacheCoherent(entries: map<string, nat>, likes: seq<Like>) {
    forall albumId :: EntryCoherent(entries, likes, albumId)
  }

  function VerifyAlbumExists(albums: seq<Album>, id: string): (r: Outcome)
    ensures r == Pass <==> Any(albums, KeyIs(AlbumId, id))
    ensures r != Pass ==> r == Fail(NotFound)
  {
    if Count(albums, KeyIs(AlbumId, id)) == 0 then Fail(NotFound) else Pass
  }

  /** NotFound for an unknown album before likes are looked at; otherwise the user's like rows for it. */
  function VerifyAlbumLikeExists(albums: seq<Album>, likes: seq<Like>, albumId: string, userId: string)
    : (r: Result<nat>)
    ensures r == Err(NotFound) <==> !Any(albums, KeyIs(AlbumId, albumId))
    ensures r.Err? ==> r.error == NotFound
    ensures r.Ok? ==> r.value == Count(likes, LikeOf(albumId, userId))
    ensures r.Ok? ==> (r.value == 0 <==> !Any(likes, LikeOf(albumId, userId)))
  {
    var albumCheck := VerifyAlbumExists(albums, albumId);
    if albumCheck.Fail? then Err(albumCheck.error) else Ok(Count(likes, LikeOf(albumId, userId)))
  }

  function GetAlbumById(albums: seq<Album>, id: string, server: Mapper.ServerConfig)
    : (r: Result<Mapper.AlbumView>)
    ensures r == Err(NotFound) <==> !Any(albums, KeyIs(AlbumId, id))
    ensures r.Err? ==> r.error == NotFound
    ensures r.Ok? ==> r.value.id == id && exists a :: a in albums && r.value == Mapper.AlbumMapper(a, server)
  {
    match Find(albums, KeyIs(AlbumId, id))
    case None => Err(NotFound)
    case Some(a) => Ok(Mapper.AlbumMapper(a, server))
  }

  /** The songs whose album id is this album, projected to (id, title, performer), in table order. */
  function GetAlbumSongsById(songs: seq<Song>, id: string): (r: seq<Songs.SongSummary>)
    ensures |r| == Count(songs, SongOfAlbum(id))
    ensures forall v :: v in r ==> exists s :: s in songs && s.albumId == Some(id) && v == Songs.Summary(s)
    ensures forall s :: s in songs && s.albumId == Some(id) ==> Songs.Summary(s) in r
  {
    var rows := Filter(songs, SongOfAlbum(id));
    assert forall i :: 0 <= i < |rows| ==> rows[i] in rows;
    forall i | 0 <= i < |rows| ensures rows[i] in songs {
      FilterMembers(songs, SongOfAlbum(id), rows[i]);
    }
    forall s | s in songs && s.albumId == Some(id) ensures Songs.Summary(s) in Songs.Summaries(rows) {
      FilterMembers(songs, SongOfAlbum(id), s);
      var j :| 0 <= j < |rows| && rows[j] == s;
      assert Songs.Summaries(rows)[j] == Songs.Summary(s);
    }
    Songs.Summaries(rows)
  }

  /** The body of a like-count read. */
  datatype LikeCountResult = LikeCountResult(count: nat, isFromCache: bool)

  /**
   * `getUserAlbumLikesCount` as a function of the cache entries and the like rows: the
   * response and the cache entries afterwards. A hit is served from the cache; a miss
   * counts the rows, fails NotFound on zero (an album with no likes looks the same as a
   * missing album) and otherwise caches the count.
   */
  function ReadLikeCount(entries: map<string, nat>, likes: seq<Like>, albumId: string)
    : (out: (Result<LikeCountResult>, map<string, nat>))
    ensures LikeKey(albumId) in entries ==> out == (Ok(LikeCountResult(entries[LikeKey(albumId)], true)), entries)
    ensures out.0 == Err(NotFound) <==> LikeKey(albumId) !in entries && !Any(likes, LikeOfAlbum(albumId))
    ensures out.0.Err? ==> out.0.error == NotFound && out.1 == entries
    ensures LikeKey(albumId) !in entries && out.0.Ok? ==> !out.0.value.isFromCache
    ensures out.0.Ok? && !out.0.value.isFromCache ==>
              out.1 == entries[LikeKey(albumId) := out.0.value.count] && out.0.value.count == LikeCount(likes, albumId)
  {
    var key := LikeKey(albumId);
    if key in entries then (Ok(LikeCountResult(entries[key], true)), entries)
    else
      var rowCount := LikeCount(likes, albumId);
      if rowCount == 0 then (Err(NotFound), entries)
      else (Ok(LikeCountResult(rowCount, false)), entries[key := rowCount])
  }

  /** Under coherence, a count read reports the true like count, from the cache or not. */
  lemma CoherentReadIsAccurate(entries: map<string, nat>, likes: seq<Like>, albumId: string)
    requires CacheCoherent(entries, likes)
    ensures ReadLikeCount(entries, likes, albumId).0.Ok? ==>
              ReadLikeCount(entries, likes, albumId).0.value.count == LikeCount(likes, albumId) > 0
  {
    assert EntryCoherent(entries, likes, albumId);
  }

  lemma ReadKeepsCoherence(entries: map<string, nat>, likes: seq<Like>, albumId: string)
    requires CacheCoherent(entries, likes)
    ensures CacheCoherent(ReadLikeCount(entries, likes, albumId).1, likes)
  {
    var after := ReadLikeCount(entries, likes, albumId).1;
    forall b ensures EntryCoherent(after, likes, b) {
      assert EntryCoherent(entries, likes, b);
      if LikeKey(b) == LikeKey(albumId) {
        LikeKeyInjective(b, albumId);
      }
    }
  }

  /** A successful read leaves the count cached: reading again is a hit with the same count. */
  lemma SecondReadHitsCache(entries: map<string, nat>, likes: seq<Like>, albumId: string)
    requires ReadLikeCount(entries, likes, albumId).0.Ok?
    ensures var (first, after) := ReadLikeCount(entries, likes, albumId);
            ReadLikeCount(after, likes, albumId) == (Ok(LikeCountResult(first.value.count, true)), after)
  {
  }

  lemma AddLikeKeepsCoherence(entries: map<string, nat>, likes: seq<Like>, like: Like)
    requires CacheCoherent(entries, likes)
    ensures CacheCoherent(entries - {LikeKey(like.albumId)}, likes + [like])
  {
    var after := entries - {LikeKey(like.albumId)};
    forall b ensures EntryCoherent(after, likes + [like], b) {
      assert EntryCoherent(entries, likes, b);
      CountAppend(likes, like, LikeOfAlbum(b));
    }
  }

  lemma RemoveLikesKeepsCoherence(entries: map<string, nat>, likes: seq<Like>, albumId: string, userId: string)
    requires CacheCoherent(entries, likes)
    ensures CacheCoherent(entries - {LikeKey(albumId)}, Filter(likes, Not(LikeOf(albumId, userId))))
  {
    var after := entries - {LikeKey(albumId)};
    var kept := Filter(likes, Not(LikeOf(albumId, userId)));
    forall b | LikeKey(b) in after ensures EntryCoherent(after, kept, b) {
      assert EntryCoherent(entries, likes, b);
      assert b != albumId;
      CountFilterKeeping(likes, Not(LikeOf(albumId, userId)), LikeOfAlbum(b));
    }
  }

  /**
   * Deleting an album cascades to its like rows but leaves its cache key: every other
   * album's entry stays coherent, the deleted album's entry does not.
   */
  lemma DeleteAlbumKeepsOtherEntries(entries: map<string, nat>, likes: seq<Like>, albumId: string, other: string)
    requires CacheCoherent(entries, likes) && other != albumId
    ensures EntryCoherent(entries, Filter(likes, Not(LikeOfAlbum(albumId))), other)
  {
    assert EntryCoherent(entries, likes, other);
    CountFilterKeeping(likes, Not(LikeOfAlbum(albumId)), LikeOfAlbum(other));
  }

  lemma DeleteAlbumLeavesStaleEntry(entries: map<string, nat>, likes: seq<Like>, albumId: string)
    requires CacheCoherent(entries, likes) && LikeKey(albumId) in entries
    ensures !EntryCoherent(entries, Filter(likes, Not(LikeOfAlbum(albumId))), albumId)
    ensures ReadLikeCount(entries, Filter(likes, Not(LikeOfAlbum(albumId))), albumId).0
         == Ok(LikeCountResult(entries[LikeKey(albumId)], true))
  {
    var kept := Filter(likes, Not(LikeOfAlbum(albumId)));
    assert EntryCoherent(entries, likes, albumId);
    assert !Any(kept, LikeOfAlbum(albumId));
  }

  /** The like rows after the like handler's toggle for (user, album). */
  function ToggleLikes(likes: seq<Like>, userId: string, albumId: string, newId: string): (r: seq<Like>)
    ensures Any(r, LikeOf(albumId, userId)) <==> !Any(likes, LikeOf(albumId, userId))
  {
    if Count(likes, LikeOf(albumId, userId)) != 0 then Filter(likes, Not(LikeOf(albumId, userId)))
    else
      assert LikeOf(albumId, userId)((likes + [Like(newId, userId, albumId)])[|likes|]);
      likes + [Like(newId, userId, albumId)]
  }

  /** Toggling twice restores whether the user likes the album. */
  lemma ToggleTwiceRestoresLikeState(likes: seq<Like>, userId: string, albumId: string, id1: string, id2: string)
    ensures Any(ToggleLikes(ToggleLikes(likes, userId, albumId, id1), userId, albumId, id2), LikeOf(albumId, userId))
        <==> Any(likes, LikeOf(albumId, userId))
  {
  }

  /** Starting from no like, toggling twice restores the like rows exactly. */
  lemma ToggleTwiceFromUnlikedRestoresRows(likes: seq<Like>, userId: string, albumId: string, id1: string, id2: string)
    requires !Any(likes, LikeOf(albumId, userId))
    ensures ToggleLikes(ToggleLikes(likes, userId, albumId, id1), userId, albumId, id2) == likes
  {
    var pair := LikeOf(albumId, userId);
    var added := Like(id1, userId, albumId);
    assert ToggleLikes(likes, userId, albumId, id1) == likes + [added];
    assert pair(added);
    FilterAppend(likes, added, Not(pair));
    FilterAll(likes, Not(pair));
  }

  /** Toggling only changes the rows of that (user, album) pair. */
  lemma ToggleKeepsOtherLikes(likes: seq<Like>, userId: string, albumId: string, newId: string, l: Like)
    requires !LikeOf(albumId, userId)(l)
    ensures l in ToggleLikes(likes, userId, albumId, newId) <==> l in likes
  {
    FilterMembers(likes, Not(LikeOf(albumId, userId)), l);
  }

  class AlbumsService {
    const pool: Database
    const cacheService: Cache
    const server: Mapper.ServerConfig

    constructor (pool: Database, cacheService: Cache, server: Mapper.ServerConfig)
      ensures this.pool == pool && this.cacheService == cacheService && this.server == server
    {
      this.pool := pool;
      this.cacheService := cacheService;
      this.server := server;
    }

    /** Inserts `album-<suffix>` with no cover and returns its id. */
    method AddAlbum(name: string, year: int, suffix: string) returns (id: string)
      requires pool.Valid()
      requires !Any(pool.albums, KeyIs(AlbumId, AlbumIdPrefix() + suffix))
      modifies pool`albums
      ensures pool.Valid()
      ensures id == AlbumIdPrefix() + suffix
      ensures pool.albums == old(pool.albums) + [Album(id, name, year, None)]
    {
      id := AlbumIdPrefix() + suffix;
      AppendUnique(pool.albums, Album(id, name, year, None), AlbumId);
      pool.albums := pool.albums + [Album(id, name, year, None)];
    }

    /** Sets name and year of the album's row, keeping its cover; an unknown id fails NotFound. */
    method EditAlbumById(id: string, name: string, year: int) returns (r: Outcome)
      requires pool.Valid()
      modifies pool`albums
      ensures pool.Valid()
      ensures r == Fail(NotFound) <==> !old(Any(pool.albums, KeyIs(AlbumId, id)))
      ensures r == Pass || r == Fail(NotFound)
      ensures |pool.albums| == |old(pool.albums)|
      ensures forall i :: 0 <= i < |pool.albums| ==>
                pool.albums[i] == if old(pool.albums[i]).id == id
                                  then old(pool.albums[i]).(name := name, year := year)
                                  else old(pool.albums[i])
    {
      var rename := (a: Album) => a.(name := name, year := year);
      if Count(pool.albums, KeyIs(AlbumId, id)) == 0 {
        return Fail(NotFound);
      }
      UpdateUnique(pool.albums, KeyIs(AlbumId, id), rename, AlbumId);
      pool.albums := Update(pool.albums, KeyIs(AlbumId, id), rename);
      r := Pass;
    }

    /** Stores the cover file name on the album's row; an unknown id fails NotFound. */
    method EditAlbumCoverById(id: string, filename: string) returns (r: Outcome)
      requires pool.Valid()
      modifies pool`albums
      ensures pool.Valid()
      ensures r == Fail(NotFound) <==> !old(Any(pool.albums, KeyIs(AlbumId, id)))
      ensures r == Pass || r == Fail(NotFound)
      ensures |pool.albums| == |old(pool.albums)|
      ensures forall i :: 0 <= i < |pool.albums| ==>
                pool.albums[i] == if old(pool.albums[i]).id == id
                                  then old(pool.albums[i]).(cover := Some(filename))
                                  else old(pool.albums[i])
    {
      var setCover := (a: Album) => a.(cover := Some(filename));
      if Count(pool.albums, KeyIs(AlbumId, id)) == 0 {
        return Fail(NotFound);
      }
      UpdateUnique(pool.albums, KeyIs(AlbumId, id), setCover, AlbumId);
      pool.albums := Update(pool.albums, KeyIs(AlbumId, id), setCover);
      r := Pass;
    }

    /**
     * Removes the album; the schema cascades the delete to the album's songs and like
     * rows. The like-count cache is not touched.
     */
    method DeleteAlbumById(id: string) returns (r: Outcome)
      requires pool.Valid()
      modifies pool`albums, pool`songs, pool`likes
      ensures pool.Valid()
      ensures r == Fail(NotFound) <==> !old(Any(pool.albums, KeyIs(AlbumId, id)))
      ensures r == Pass || r == Fail(NotFound)
      ensures r == Fail(NotFound) ==> pool.albums == old(pool.albums) && pool.songs == old(pool.songs)
                                      && pool.likes == old(pool.likes)
      ensures r == Pass ==>
                && pool.albums == Filter(old(pool.albums), Not(KeyIs(AlbumId, id)))
                && pool.songs == Filter(old(pool.songs), Not(SongOfAlbum(id)))
                && pool.likes == Filter(old(pool.likes), Not(LikeOfAlbum(id)))
    {
      if Count(pool.albums, KeyIs(AlbumId, id)) == 0 {
        return Fail(NotFound);
      }
      var albums := Filter(pool.albums, Not(KeyIs(AlbumId, id)));
      var songs := Filter(pool.songs, Not(SongOfAlbum(id)));
      var likes := Filter(pool.likes, Not(LikeOfAlbum(id)));
      FilterUnique(pool.albums, Not(KeyIs(AlbumId, id)), AlbumId);
      FilterUnique(pool.songs, Not(SongOfAlbum(id)), SongId);
      pool.albums, pool.songs, pool.likes := albums, songs, likes;
      r := Pass;
    }

    /** Inserts one like row, then deletes only the album's count key from the cache. */
    method AddUserAlbumLike(userId: string, albumId: string, suffix: string)
      modifies pool`likes, cacheService
      ensures pool.likes == old(pool.likes) + [Like(LikeIdPrefix() + suffix, userId, albumId)]
      ensures cacheService.entries == old(cacheService.entries) - {LikeKey(albumId)}
      ensures CacheCoherent(old(cacheService.entries), old(pool.likes)) ==>
                CacheCoherent(cacheService.entries, pool.likes)
    {
      var like := Like(LikeIdPrefix() + suffix, userId, albumId);
      if CacheCoherent(cacheService.entries, pool.likes) {
        AddLikeKeepsCoherence(cacheService.entries, pool.likes, like);
      }
      pool.likes := pool.likes + [like];
      cacheService.Delete(LikeKey(albumId));
    }

    /**
     * Deletes every like row of (user, album) and then the album's count key; with no
     * row to delete it fails Invariant and the cache is not touched.
     */
    method DeleteUserAlbumLike(userId: string, albumId: string) returns (r: Outcome)
      modifies pool`likes, cacheService
      ensures r == Fail(Invariant) <==> !old(Any(pool.likes, LikeOf(albumId, userId)))
      ensures r == Pass || r == Fail(Invariant)
      ensures r == Fail(Invariant) ==> pool.likes == old(pool.likes) && cacheService.entries == old(cacheService.entries)
      ensures r == Pass ==>
                && pool.likes == Filter(old(pool.likes), Not(LikeOf(albumId, userId)))
                && cacheService.entries == old(cacheService.entries) - {LikeKey(albumId)}
      ensures CacheCoherent(old(cacheService.entries), old(pool.likes)) ==>
                CacheCoherent(cacheService.entries, pool.likes)
    {
      var pair := LikeOf(albumId, userId);
      if Count(pool.likes, pair) == 0 {
        return Fail(Invariant);
      }
      if CacheCoherent(cacheService.entries, pool.likes) {
        RemoveLikesKeepsCoherence(cacheService.entries, pool.likes, albumId, userId);
      }
      pool.likes := Filter(pool.likes, Not(pair));
      cacheService.Delete(LikeKey(albumId));
      r := Pass;
    }

    /** The cache-aside count read; the like table is consulted only on a miss. */
    method GetUserAlbumLikesCount(albumId: string) returns (r: Result<LikeCountResult>)
      modifies cacheService
      ensures (r, cacheService.entries) == ReadLikeCount(old(cacheService.entries), pool.likes, albumId)
      ensures CacheCoherent(old(cacheService.entries), pool.likes) ==>
                CacheCoherent(cacheService.entries, pool.likes)
    {
      if CacheCoherent(cacheService.entries, pool.likes) {
        ReadKeepsCoherence(cacheService.entries, pool.likes, albumId);
      }
      var cached := cacheService.Get(LikeKey(albumId));
      if cached.Some? {
        return Ok(LikeCountResult(cached.value, true));
      }
      var rowCount := LikeCount(pool.likes, albumId);
      if rowCount == 0 {
        return Err(NotFound);
      }
      cacheService.Set(LikeKey(albumId), rowCount);
      r := Ok(LikeCountResult(rowCount, false));
    }
  }
}
