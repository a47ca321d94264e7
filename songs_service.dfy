/**
 * SongsService: song CRUD and the song list with its title/performer filters.
 */
module Songs {
  import opened Relation
  import opened Schema

  /** The validated request payload: every column of `songs` except the id. */
  datatype SongPayload = SongPayload(
    albumId: Option<string>,
    title: string,
    year: int,
    genre: string,
    performer: string,
    duration: Option<int>)

  /** The row `SELECT id, title, performer FROM songs` yields. */
  datatype SongSummary = SongSummary(id: string, title: string, performer: string)

  function SongIdPrefix(): string { "song-" }

  function SongRow(id: string, p: SongPayload): Song {
    Song(id, p.albumId, p.title, p.year, p.genre, p.performer, p.duration)
  }

  function Summary(s: Song): SongSummary {
    SongSummary(s.id, s.title, s.performer)
  }

  function Summaries(songs: seq<Song>): (r: seq<SongSummary>)
    ensures |r| == |songs| && forall i :: 0 <= i < |songs| ==> r[i] == Summary(songs[i])
  {
    seq(|songs|, i requires 0 <= i < |songs| => Summary(songs[i]))
  }

  /** The `%...%` wrapping `getSongs` applies to each filter before it reaches SQL. */
  function Wildcard(filter: string): string {
    "%" + filter + "%"
  }

  /**
   * `($1 = '' OR title ILIKE $1) AND ($2 = '' OR performer ILIKE $2)` with both
   * parameters already wrapped; `ilike(value, pattern)` is the database's ILIKE.
   */
  function SongMatches(title: string, performer: string, ilike: (string, string) -> bool): Song -> bool {
    (s: Song) =>
      && (Wildcard(title) == "" || ilike(s.title, Wildcard(title)))
      && (Wildcard(performer) == "" || ilike(s.performer, Wildcard(performer)))
  }

  function GetSongs(songs: seq<Song>, title: string, performer: string,
                    ilike: (string, string) -> bool): (r: seq<SongSummary>)
    ensures |r| <= |songs|
    ensures forall v :: v in r ==> exists s :: s in songs && SongMatches(title, performer, ilike)(s) && v == Summary(s)
  {
    var kept := Filter(songs, SongMatches(title, performer, ilike));
    assert forall i :: 0 <= i < |kept| ==> kept[i] in kept;
    forall i | 0 <= i < |kept| ensures kept[i] in songs {
      FilterMembers(songs, SongMatches(title, performer, ilike), kept[i]);
    }
    Summaries(kept)
  }

  /**
   * With both filters empty the `= ''` test never fires (the parameter is `%%`), and
   * `%%` matches every title and performer, so every song is listed, in table order.
   */
  lemma EmptyFiltersListEverySong(songs: seq<Song>, ilike: (string, string) -> bool)
    requires forall v :: ilike(v, "%%")
    ensures Wildcard("") != ""
    ensures GetSongs(songs, "", "", ilike) == Summaries(songs)
  {
    assert Wildcard("") == "%%";
    forall i | 0 <= i < |songs| ensures SongMatches("", "", ilike)(songs[i]) {
      assert ilike(songs[i].title, "%%") && ilike(songs[i].performer, "%%");
    }
    FilterAll(songs, SongMatches("", "", ilike));
  }

  function GetSongById(songs: seq<Song>, id: string): (r: Result<Song>)
    ensures r == Err(NotFound) <==> !Any(songs, KeyIs(SongId, id))
    ensures r.Err? ==> r.error == NotFound
    ensures r.Ok? ==> r.value in songs && r.value.id == id
  {
    match Find(songs, KeyIs(SongId, id))
    case None => Err(NotFound)
    case Some(s) => Ok(s)
  }

  /** Under the primary key, the song found is the one row with that id. */
  lemma GetSongByIdIsTheRow(songs: seq<Song>, i: nat)
    requires UniqueBy(songs, SongId) && i < |songs|
    ensures GetSongById(songs, songs[i].id) == Ok(songs[i])
  {
    FindUnique(songs, SongId, i);
  }

  function Overwrite(id: string, p: SongPayload): Song -> Song {
    _ => SongRow(id, p)
  }

  class SongsService {
    const pool: Database

    constructor (pool: Database)
      ensures this.pool == pool
    {
      this.pool := pool;
    }

    method AddSong(p: SongPayload, suffix: string) returns (id: string)
      requires pool.Valid()
      requires !Any(pool.songs, KeyIs(SongId, SongIdPrefix() + suffix))
      modifies pool`songs
      ensures pool.Valid()
      ensures id == SongIdPrefix() + suffix
      ensures pool.songs == old(pool.songs) + [SongRow(id, p)]
    {
      id := SongIdPrefix() + suffix;
      AppendUnique(pool.songs, SongRow(id, p), SongId);
      pool.songs := pool.songs + [SongRow(id, p)];
    }

    /** Overwrites all six columns (album id included, possibly to null) of the row with that id. */
    method EditSongById(id: string, p: SongPayload) returns (r: Outcome)
      requires pool.Valid()
      modifies pool`songs
      ensures pool.Valid()
      ensures r == Fail(NotFound) <==> !old(Any(pool.songs, KeyIs(SongId, id)))
      ensures r == Fail(NotFound) || r == Pass
      ensures r == Fail(NotFound) ==> pool.songs == old(pool.songs)
      ensures |pool.songs| == |old(pool.songs)|
      ensures forall i :: 0 <= i < |pool.songs| ==>
                pool.songs[i] == if old(pool.songs[i]).id == id then SongRow(id, p) else old(pool.songs[i])
    {
      if Count(pool.songs, KeyIs(SongId, id)) == 0 {
        return Fail(NotFound);
      }
      UpdateUnique(pool.songs, KeyIs(SongId, id), Overwrite(id, p), SongId);
      pool.songs := Update(pool.songs, KeyIs(SongId, id), Overwrite(id, p));
      r := Pass;
    }

    method DeleteSongById(id: string) returns (r: Outcome)
      requires pool.Valid()
      modifies pool`songs
      ensures pool.Valid()
      ensures r == Fail(NotFound) <==> !old(Any(pool.songs, KeyIs(SongId, id)))
      ensures r == Fail(NotFound) || r == Pass
      ensures pool.songs == Filter(old(pool.songs), Not(KeyIs(SongId, id)))
      ensures forall s :: s in pool.songs <==> s in old(pool.songs) && s.id != id
    {
      forall s ensures s in Filter(pool.songs, Not(KeyIs(SongId, id))) <==> s in pool.songs && s.id != id {
        FilterMembers(pool.songs, Not(KeyIs(SongId, id)), s);
      }
      if Count(pool.songs, KeyIs(SongId, id)) == 0 {
        FilterAll(pool.songs, Not(KeyIs(SongId, id)));
        return Fail(NotFound);
      }
      FilterUnique(pool.songs, Not(KeyIs(SongId, id)), SongId);
      pool.songs := Filter(pool.songs, Not(KeyIs(SongId, id)));
      r := Pass;
    }
  }
}
