/**
 * Rows of the catalog's tables, the error kinds the services raise, and the two
 * stateful stores: the relational database (one `Database` object, the pool every
 * service queries) and the key-value cache used for album like counts.
 */
module Schema {
  import opened Relation

  /** The exception classes the services throw. */
  datatype Error = NotFound | Authorization | Invariant | Authentication

  /** Outcome of an operation that returns nothing (`async` function resolving to undefined). */
  datatype Outcome = Pass | Fail(error: Error)

  /** Outcome of an operation that returns a value. */
  datatype Result<+T> = Ok(value: T) | Err(error: Error)

  datatype Album = Album(id: string, name: string, year: int, cover: Option<string>)

  datatype Song = Song(
    id: string,
    albumId: Option<string>,
    title: string,
    year: int,
    genre: string,
    performer: string,
    duration: Option<int>)

  datatype User = User(id: string, username: string, password: string, fullname: string)

  datatype Playlist = Playlist(id: string, name: string, owner: string)

  /** A row of `playlist_songs`. */
  datatype PlaylistSong = PlaylistSong(id: string, playlistId: string, songId: string)

  datatype Action = Add | Delete

  /** A row of `playlist_song_activities` (its timestamp column is left out). */
  datatype Activity = Activity(id: string, playlistId: string, songId: string, userId: string, action: Action)

  datatype Collaboration = Collaboration(id: string, playlistId: string, userId: string)

  /** A row of `user_album_likes`. */
  datatype Like = Like(id: string, userId: string, albumId: string)

  // Key projections, used as first-class functions in WHERE conditions.
  function AlbumId(a: Album): string { a.id }
  function SongId(s: Song): string { s.id }
  function UserId(u: User): string { u.id }
  function Username(u: User): string { u.username }
  function PlaylistId(p: Playlist): string { p.id }

  /** `WHERE album_id = $1` on `songs`. */
  function SongOfAlbum(albumId: string): Song -> bool {
    (s: Song) => s.albumId == Some(albumId)
  }

  /** `WHERE playlist_id = $1 AND song_id = $2` on `playlist_songs`. */
  function MembershipOf(playlistId: string, songId: string): PlaylistSong -> bool {
    (m: PlaylistSong) => m.playlistId == playlistId && m.songId == songId
  }

  /** `WHERE playlist_id = $1 AND user_id = $2` on `collaborations`. */
  function CollaborationOf(playlistId: string, userId: string): Collaboration -> bool {
    (c: Collaboration) => c.playlistId == playlistId && c.userId == userId
  }

  /** `WHERE album_id = $1 AND user_id = $2` on `user_album_likes`. */
  function LikeOf(albumId: string, userId: string): Like -> bool {
    (l: Like) => l.albumId == albumId && l.userId == userId
  }

  /** `WHERE album_id = $1` on `user_album_likes`. */
  function LikeOfAlbum(albumId: string): Like -> bool {
    (l: Like) => l.albumId == albumId
  }

  /** The PostgreSQL database behind every service's pool. */
  class Database {
    var albums: seq<Album>
    var songs: seq<Song>
    var users: seq<User>
    var playlists: seq<Playlist>
    var playlistSongs: seq<PlaylistSong>
    var activities: seq<Activity>
    var collaborations: seq<Collaboration>
    var likes: seq<Like>

    /**
     * Primary keys of the tables the services look rows up by are unique, and so are
     * usernames (kept so by the check in `addUser`).
     */
    ghost predicate Valid()
      reads this
    {
      && UniqueBy(albums, AlbumId)
      && UniqueBy(songs, SongId)
      && UniqueBy(users, UserId)
      && UniqueBy(users, Username)
      && UniqueBy(playlists, PlaylistId)
    }

    constructor ()
      ensures Valid()
      ensures albums == [] && songs == [] && users == [] && playlists == []
      ensures playlistSongs == [] && activities == [] && collaborations == [] && likes == []
    {
      albums, songs, users, playlists := [], [], [], [];
      playlistSongs, activities, collaborations, likes := [], [], [], [];
    }
  }

  /** The Redis cache: string keys to counts (JSON text of a number, read back as that number). */
  class Cache {
    var entries: map<string, nat>

    constructor ()
      ensures entries == map[]
    {
      entries := map[];
    }

    function Get(key: string): (r: Option<nat>)
      reads this
      ensures r.Some? <==> key in entries
      ensures r.Some? ==> r.value == entries[key]
    {
      if key in entries then Some(entries[key]) else None
    }

    method Set(key: string, value: nat)
      modifies this
      ensures entries == old(entries)[key := value]
    {
      entries := entries[key := value];
    }

    method Delete(key: string)
      modifies this
      ensures entries == old(entries) - {key}
    {
      entries := entries - {key};
    }
  }
}
