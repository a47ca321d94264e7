/**
 * AlbumsHandler: the album detail composition, the like toggle and the like-count
 * response with its provenance header.
 */
module AlbumsApi {
  import opened Relation
  import opened Schema
  import Songs
  import Mapper
  import Albums

  /** `{ ...album, songs }`. */
  datatype AlbumDetail = AlbumDetail(album: Mapper.AlbumView, songs: seq<Songs.SongSummary>)

  /** The message of the like route: "Album has been liked" or "Album has been disliked". */
  datatype LikeReply = Liked | Disliked

  /** `{ likes: count }`, with `cacheHeader` standing for `X-Data-Source: cache`. */
  datatype LikesResponse = LikesResponse(likes: nat, cacheHeader: bool)

  class AlbumsHandler {
    const albumsService: Albums.AlbumsService

    constructor (albumsService: Albums.AlbumsService)
      ensures this.albumsService == albumsService
    {
      this.albumsService := albumsService;
    }

    /** The mapped album and its songs; an unknown album fails NotFound before songs are read. */
    method GetAlbumById(id: string) returns (r: Result<AlbumDetail>)
      ensures r == Err(NotFound) <==> !Any(albumsService.pool.albums, KeyIs(AlbumId, id))
      ensures r.Err? ==> r.error == NotFound
      ensures r.Ok? ==>
                && Albums.GetAlbumById(albumsService.pool.albums, id, albumsService.server) == Ok(r.value.album)
                && r.value.album.id == id
                && r.value.songs == Albums.GetAlbumSongsById(albumsService.pool.songs, id)
    {
      var album := Albums.GetAlbumById(albumsService.pool.albums, id, albumsService.server);
      if album.Err? {
        return Err(album.error);
      }
      var songs := Albums.GetAlbumSongsById(albumsService.pool.songs, id);
      r := Ok(AlbumDetail(album.value, songs));
    }

    /**
     * Toggles the requester's like: an existing like row is deleted ("disliked"),
     * otherwise one is added ("liked"). An unknown album fails NotFound before any
     * mutation. Either write invalidates the album's count key.
     */
    method PostAlbumLike(albumId: string, userId: string, suffix: string) returns (r: Result<LikeReply>)
      modifies albumsService.pool`likes, albumsService.cacheService
      ensures !old(Any(albumsService.pool.albums, KeyIs(AlbumId, albumId))) ==>
                && r == Err(NotFound)
                && albumsService.pool.likes == old(albumsService.pool.likes)
                && albumsService.cacheService.entries == old(albumsService.cacheService.entries)
      ensures old(Any(albumsService.pool.albums, KeyIs(AlbumId, albumId))) ==>
                && r == (if old(Any(albumsService.pool.likes, LikeOf(albumId, userId))) then Ok(Disliked) else Ok(Liked))
                && albumsService.pool.likes
                   == Albums.ToggleLikes(old(albumsService.pool.likes), userId, albumId, Albums.LikeIdPrefix() + suffix)
                && albumsService.cacheService.entries == old(albumsService.cacheService.entries) - {Albums.LikeKey(albumId)}
      ensures r == Ok(Liked) ==> Any(albumsService.pool.likes, LikeOf(albumId, userId))
      ensures r == Ok(Disliked) ==> !Any(albumsService.pool.likes, LikeOf(albumId, userId))
      ensures Albums.CacheCoherent(old(albumsService.cacheService.entries), old(albumsService.pool.likes)) ==>
                Albums.CacheCoherent(albumsService.cacheService.entries, albumsService.pool.likes)
    {
      var userAlbumLikes := Albums.VerifyAlbumLikeExists(albumsService.pool.albums, albumsService.pool.likes, albumId, userId);
      if userAlbumLikes.Err? {
        return Err(userAlbumLikes.error);
      }
      if userAlbumLikes.value != 0 {
        var deleted := albumsService.DeleteUserAlbumLike(userId, albumId);
        return Ok(Disliked);
      }
      albumsService.AddUserAlbumLike(userId, albumId, suffix);
      r := Ok(Liked);
    }

    /** `likes` is the service's count, and the cache header is present exactly when it came from the cache. */
    method GetAlbumLikesCount(albumId: string) returns (r: Result<LikesResponse>)
      modifies albumsService.cacheService
      ensures var (read, after) := Albums.ReadLikeCount(old(albumsService.cacheService.entries), albumsService.pool.likes, albumId);
              && albumsService.cacheService.entries == after
              && (read.Err? ==> r == Err(read.error))
              && (read.Ok? ==> r == Ok(LikesResponse(read.value.count, read.value.isFromCache)))
      ensures r.Ok? ==> (r.value.cacheHeader <==> Albums.LikeKey(albumId) in old(albumsService.cacheService.entries))
      ensures Albums.CacheCoherent(old(albumsService.cacheService.entries), albumsService.pool.likes) && r.Ok? ==>
                r.value.likes == Albums.LikeCount(albumsService.pool.likes, albumId) > 0
    {
      if Albums.CacheCoherent(albumsService.cacheService.entries, albumsService.pool.likes) {
        Albums.CoherentReadIsAccurate(albumsService.cacheService.entries, albumsService.pool.likes, albumId);
      }
      var result := albumsService.GetUserAlbumLikesCount(albumId);
      if result.Err? {
        return Err(result.error);
      }
      r := Ok(LikesResponse(result.value.count, result.value.isFromCache));
    }
  }
}
