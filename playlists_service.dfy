/**
 * PlaylistsService: the ownership/access resolver, playlist lookups, and the two
 * membership mutations that write `playlist_songs` and the activity log together.
 */
module Playlists {
  import opened Relation
  import opened Schema
  import Collaborations
  import Songs

  function PlaylistIdPrefix(): string { "playlist-" }
  function PlaylistSongIdPrefix(): string { "playlist-song-" }
  function ActivityIdPrefix(): string { "playlist-activity-" }

  /** The row `SELECT playlists.id, playlists.name, users.username ...` yields. */
  datatype PlaylistView = PlaylistView(id: string, name: string, username: string)

  /** The row of the activities query: who did what with which song. */
  datatype ActivityView = ActivityView(username: string, title: string, action: Action)

  ghost predicate HasPlaylist(playlists: seq<Playlist>, id: string) {
    Any(playlists, KeyIs(PlaylistId, id))
  }

  /** The owner column of the playlist row `SELECT owner FROM playlists WHERE id = $1` returns. */
  function OwnerOf(playlists: seq<Playlist>, id: string): Option<string> {
    match Find(playlists, KeyIs(PlaylistId, id))
    case None => None
    case Some(p) => Some(p.owner)
  }

  ghost predicate IsCollaborator(collaborations: seq<Collaboration>, playlistId: string, userId: string) {
    Any(collaborations, CollaborationOf(playlistId, userId))
  }

  /** Under the primary key, the owner looked up is the owner stored in the playlist's one row. */
  lemma OwnerOfRow(playlists: seq<Playlist>, i: nat)
    requires UniqueBy(playlists, PlaylistId) && i < |playlists|
    ensures OwnerOf(playlists, playlists[i].id) == Some(playlists[i].owner)
  {
    FindUnique(playlists, PlaylistId, i);
  }

  /** NotFound when no playlist has the id, Authorization when its owner differs, success otherwise. */
  function VerifyPlaylistOwner(playlists: seq<Playlist>, id: string, owner: string): (r: Outcome)
    ensures r == Fail(NotFound) <==> !HasPlaylist(playlists, id)
    ensures r == Pass <==> HasPlaylist(playlists, id) && OwnerOf(playlists, id) == Some(owner)
    ensures r == Fail(Authorization) <==> HasPlaylist(playlists, id) && OwnerOf(playlists, id) != Some(owner)
  {
    match Find(playlists, KeyIs(PlaylistId, id))
    case None => Fail(NotFound)
    case Some(p) => if p.owner != owner then Fail(Authorization) else Pass
  }

  /**
   * Owner or collaborator. A missing playlist is NotFound whatever collaboration rows
   * exist; a non-owner falls back to the collaborator check, and if that fails too the
   * owner check's Authorization error is raised, not the collaborator check's Invariant.
   */
  function VerifyPlaylistAccess(playlists: seq<Playlist>, collaborations: seq<Collaboration>,
                                playlistId: string, userId: string): (r: Outcome)
    ensures !HasPlaylist(playlists, playlistId) ==> r == Fail(NotFound)
    ensures HasPlaylist(playlists, playlistId) ==>
              (r == Pass <==> OwnerOf(playlists, playlistId) == Some(userId)
                              || IsCollaborator(collaborations, playlistId, userId))
    ensures HasPlaylist(playlists, playlistId) && r != Pass ==> r == Fail(Authorization)
    ensures r != Fail(Invariant)
  {
    var ownerCheck := VerifyPlaylistOwner(playlists, playlistId, userId);
    if ownerCheck == Pass then Pass
    else if ownerCheck == Fail(NotFound) then ownerCheck
    else if Collaborations.VerifyCollaborator(collaborations, playlistId, userId) == Pass then Pass
    else ownerCheck
  }

  /** Owning a playlist implies access to it; the converse fails for collaborators. */
  lemma OwnerHasAccess(playlists: seq<Playlist>, collaborations: seq<Collaboration>, playlistId: string, userId: string)
    requires VerifyPlaylistOwner(playlists, playlistId, userId) == Pass
    ensures VerifyPlaylistAccess(playlists, collaborations, playlistId, userId) == Pass
  {
  }

  function VerifySongExists(songs: seq<Song>, songId: string): (r: Outcome)
    ensures r == Pass <==> Any(songs, KeyIs(SongId, songId))
    ensures r != Pass ==> r == Fail(NotFound)
  {
    if Count(songs, KeyIs(SongId, songId)) == 0 then Fail(NotFound) else Pass
  }

  /** The username of a playlist's owner (`JOIN users ON users.id = playlists.owner`). */
  function OwnerName(users: seq<User>, ownerId: string): Option<string> {
    match Find(users, KeyIs(UserId, ownerId))
    case None => None
    case Some(u) => Some(u.username)
  }

  /** A playlist's row in the listing; a playlist whose owner has no user row is dropped by the join. */
  function ViewOf(users: seq<User>, p: Playlist): (v: Option<PlaylistView>)
    ensures v.Some? ==> v.value.id == p.id
  {
    match OwnerName(users, p.owner)
    case None => None
    case Some(name) => Some(PlaylistView(p.id, p.name, name))
  }

  /** `WHERE playlists.owner = $1 OR collaborations.user_id = $1` after the left join. */
  function ListedFor(collaborations: seq<Collaboration>, userId: string): Playlist -> bool {
    (p: Playlist) => p.owner == userId || Count(collaborations, CollaborationOf(p.id, userId)) > 0
  }

  function ViewId(v: PlaylistView): string { v.id }

  /**
   * The playlists a user owns or collaborates on. Grouping by playlist id collapses
   * the join's duplicates, so each playlist row contributes at most one row.
   */
  function GetPlaylists(playlists: seq<Playlist>, collaborations: seq<Collaboration>, users: seq<User>,
                        userId: string): (r: seq<PlaylistView>)
    ensures |r| <= |playlists|
    ensures forall v :: v in r <==>
              exists p :: p in playlists && ListedFor(collaborations, userId)(p) && ViewOf(users, p) == Some(v)
  {
    if playlists == [] then []
    else
      var p := playlists[0];
      var rest := GetPlaylists(playlists[1..], collaborations, users, userId);
      assert forall q :: q in playlists <==> q == p || q in playlists[1..];
      if ListedFor(collaborations, userId)(p) && ViewOf(users, p).Some? then [ViewOf(users, p).value] + rest
      else rest
  }

  /** Each listed playlist appears once: the listing inherits the playlists' primary key. */
  lemma {:induction false} GetPlaylistsListsEachOnce(playlists: seq<Playlist>, collaborations: seq<Collaboration>,
                                                     users: seq<User>, userId: string)
    requires UniqueBy(playlists, PlaylistId)
    ensures UniqueBy(GetPlaylists(playlists, collaborations, users, userId), ViewId)
  {
    if playlists != [] {
      var p := playlists[0];
      var tail := playlists[1..];
      TailUnique(playlists, PlaylistId);
      GetPlaylistsListsEachOnce(tail, collaborations, users, userId);
      var rest := GetPlaylists(tail, collaborations, users, userId);
      if ListedFor(collaborations, userId)(p) && ViewOf(users, p).Some? {
        ListedIdsOccurIn(tail, collaborations, users, userId);
        forall k | 0 <= k < |tail| ensures tail[k].id != p.id {
          assert tail[k] == playlists[k + 1];
        }
        ConsUnique(ViewOf(users, p).value, rest, ViewId);
      }
    }
  }

  lemma ListedIdsOccurIn(playlists: seq<Playlist>, collaborations: seq<Collaboration>, users: seq<User>, userId: string)
    ensures forall i :: 0 <= i < |GetPlaylists(playlists, collaborations, users, userId)| ==>
              exists k :: 0 <= k < |playlists| && playlists[k].id == GetPlaylists(playlists, collaborations, users, userId)[i].id
  {
    var r := GetPlaylists(playlists, collaborations, users, userId);
    forall i | 0 <= i < |r| ensures exists k :: 0 <= k < |playlists| && playlists[k].id == r[i].id {
      assert r[i] in r;
      var q :| q in playlists && ListedFor(collaborations, userId)(q) && ViewOf(users, q) == Some(r[i]);
      var k :| 0 <= k < |playlists| && playlists[k] == q;
    }
  }

  /** `getPlaylistById`: the playlist's row joined with its owner's username. */
  function GetPlaylistById(playlists: seq<Playlist>, users: seq<User>, id: string): (r: Result<PlaylistView>)
    ensures !HasPlaylist(playlists, id) ==> r == Err(NotFound)
    ensures r.Err? ==> r.error == NotFound
    ensures r.Ok? ==> r.value.id == id && exists p :: p in playlists && ViewOf(users, p) == Some(r.value)
  {
    match Find(playlists, KeyIs(PlaylistId, id))
    case None => Err(NotFound)
    case Some(p) =>
      match ViewOf(users, p)
      case None => Err(NotFound)
      case Some(v) => Ok(v)
  }

  /** Under the primary key, an existing playlist whose owner has a user row is returned with its view. */
  lemma GetPlaylistByIdIsTheRow(playlists: seq<Playlist>, users: seq<User>, i: nat)
    requires UniqueBy(playlists, PlaylistId) && i < |playlists|
    requires ViewOf(users, playlists[i]).Some?
    ensures GetPlaylistById(playlists, users, playlists[i].id) == Ok(ViewOf(users, playlists[i]).value)
  {
    FindUnique(playlists, PlaylistId, i);
  }

  /** The (id, title, performer) of the song a membership row names, if that song exists (the inner join). */
  function SongSummaryOf(songs: seq<Song>, songId: string): (v: Option<Songs.SongSummary>)
    ensures v.Some? <==> Any(songs, KeyIs(SongId, songId))
    ensures v.Some? ==> exists s :: s in songs && s.id == songId && v.value == Songs.Summary(s)
  {
    match Find(songs, KeyIs(SongId, songId))
    case None => None
    case Some(s) => Some(Songs.Summary(s))
  }

  /** A membership row the songs query joins: of this playlist, naming an existing song. */
  function Joined(songs: seq<Song>, playlistId: string): PlaylistSong -> bool {
    (m: PlaylistSong) => m.playlistId == playlistId && SongSummaryOf(songs, m.songId).Some?
  }

  /** A membership row of this playlist whose joined song row is summarised as `v`. */
  function JoinedAs(songs: seq<Song>, playlistId: string, v: Songs.SongSummary): PlaylistSong -> bool {
    (m: PlaylistSong) => m.playlistId == playlistId && SongSummaryOf(songs, m.songId) == Some(v)
  }

  /**
   * The songs of a playlist (`playlist_songs JOIN songs`): one row per membership row of
   * the playlist whose song exists, in membership order.
   */
  function GetPlaylistSongsById(playlistSongs: seq<PlaylistSong>, songs: seq<Song>, playlistId: string)
    : (r: seq<Songs.SongSummary>)
    ensures |r| == Count(playlistSongs, Joined(songs, playlistId))
    ensures forall v :: v in r <==>
              exists k :: 0 <= k < |playlistSongs| && playlistSongs[k].playlistId == playlistId
                          && SongSummaryOf(songs, playlistSongs[k].songId) == Some(v)
  {
    if playlistSongs == [] then []
    else
      var m := playlistSongs[0];
      var tail := playlistSongs[1..];
      var rest := GetPlaylistSongsById(tail, songs, playlistId);
      assert forall k :: 0 <= k < |tail| ==> tail[k] == playlistSongs[k + 1];
      if m.playlistId == playlistId && SongSummaryOf(songs, m.songId).Some? then
        [SongSummaryOf(songs, m.songId).value] + rest
      else rest
  }

  /** A song is listed as many times as the playlist has membership rows joining to it. */
  lemma {:induction false} PlaylistSongMultiplicity(playlistSongs: seq<PlaylistSong>, songs: seq<Song>,
                                                    playlistId: string, v: Songs.SongSummary)
    ensures multiset(GetPlaylistSongsById(playlistSongs, songs, playlistId))[v]
            == Count(playlistSongs, JoinedAs(songs, playlistId, v))
  {
    if playlistSongs != [] {
      PlaylistSongMultiplicity(playlistSongs[1..], songs, playlistId, v);
    }
  }

  /** The (username, title, action) row the activities query yields for an activity whose song and user exist. */
  function ActivityViewOf(songs: seq<Song>, users: seq<User>, a: Activity): (v: Option<ActivityView>)
    ensures v.Some? <==> Any(songs, KeyIs(SongId, a.songId)) && Any(users, KeyIs(UserId, a.userId))
    ensures v.Some? ==>
              && v.value.action == a.action
              && (exists s :: s in songs && s.id == a.songId && v.value.title == s.title)
              && (exists u :: u in users && u.id == a.userId && v.value.username == u.username)
  {
    match (Find(songs, KeyIs(SongId, a.songId)), Find(users, KeyIs(UserId, a.userId)))
    case (Some(s), Some(u)) => Some(ActivityView(u.username, s.title, a.action))
    case _ => None
  }

  /** An activity that the activities query reports: of this playlist, with its song and user rows present. */
  function Reported(songs: seq<Song>, users: seq<User>, playlistId: string): Activity -> bool {
    (a: Activity) => a.playlistId == playlistId && ActivityViewOf(songs, users, a).Some?
  }

  /** The rows of the activities query: one per reported activity of the playlist, in log order. */
  function ActivityRows(activities: seq<Activity>, songs: seq<Song>, users: seq<User>, playlistId: string)
    : (r: seq<ActivityView>)
    ensures |r| == Count(activities, Reported(songs, users, playlistId))
  {
    if activities == [] then []
    else
      var a := activities[0];
      var rest := ActivityRows(activities[1..], songs, users, playlistId);
      if Reported(songs, users, playlistId)(a) then [ActivityViewOf(songs, users, a).value] + rest
      else rest
  }

  /** A row is listed iff it is the view of a reported activity of the playlist. */
  lemma {:induction false} ActivityRowsAreReported(activities: seq<Activity>, songs: seq<Song>, users: seq<User>,
                                                   playlistId: string)
    ensures forall v :: v in ActivityRows(activities, songs, users, playlistId) <==>
              exists k :: 0 <= k < |activities| && activities[k].playlistId == playlistId
                          && ActivityViewOf(songs, users, activities[k]) == Some(v)
  {
    if activities != [] {
      var a := activities[0];
      var tail := activities[1..];
      ActivityRowsAreReported(tail, songs, users, playlistId);
      var rest := ActivityRows(tail, songs, users, playlistId);
      var r := ActivityRows(activities, songs, users, playlistId);
      forall v ensures v in r <==> exists k :: 0 <= k < |activities| && activities[k].playlistId == playlistId
                                              && ActivityViewOf(songs, users, activities[k]) == Some(v)
      {
        if v in rest {
          var k :| 0 <= k < |tail| && tail[k].playlistId == playlistId && ActivityViewOf(songs, users, tail[k]) == Some(v);
          assert activities[k + 1] == tail[k];
        }
        if exists k :: 0 <= k < |activities| && activities[k].playlistId == playlistId
                       && ActivityViewOf(songs, users, activities[k]) == Some(v) {
          var k :| 0 <= k < |activities| && activities[k].playlistId == playlistId
                   && ActivityViewOf(songs, users, activities[k]) == Some(v);
          if k > 0 {
            assert tail[k - 1] == activities[k];
          }
        }
      }
    }
  }

  /** An activity of this playlist whose joined row is `v`. */
  function ReportedAs(songs: seq<Song>, users: seq<User>, playlistId: string, v: ActivityView): Activity -> bool {
    (a: Activity) => a.playlistId == playlistId && ActivityViewOf(songs, users, a) == Some(v)
  }

  /** A row is listed as many times as the playlist has activities yielding it. */
  lemma {:induction false} ActivityRowMultiplicity(activities: seq<Activity>, songs: seq<Song>, users: seq<User>,
                                                   playlistId: string, v: ActivityView)
    ensures multiset(ActivityRows(activities, songs, users, playlistId))[v]
            == Count(activities, ReportedAs(songs, users, playlistId, v))
  {
    if activities != [] {
      ActivityRowMultiplicity(activities[1..], songs, users, playlistId, v);
    }
  }

  /**
   * The activity log of a playlist, in log order. With no reportable activity the
   * query has no rows and the service raises NotFound, even for an existing playlist.
   */
  function GetPlaylistActivitiesById(activities: seq<Activity>, songs: seq<Song>, users: seq<User>,
                                     playlistId: string): (r: Result<seq<ActivityView>>)
    ensures r == Err(NotFound) <==> !Any(activities, Reported(songs, users, playlistId))
    ensures r.Err? ==> r.error == NotFound
    ensures r.Ok? ==> 0 < |r.value| == Count(activities, Reported(songs, users, playlistId))
    ensures r.Ok? ==> forall v :: v in r.value <==>
              exists k :: 0 <= k < |activities| && activities[k].playlistId == playlistId
                          && ActivityViewOf(songs, users, activities[k]) == Some(v)
  {
    var rows := ActivityRows(activities, songs, users, playlistId);
    ActivityRowsAreReported(activities, songs, users, playlistId);
    if |rows| == 0 then Err(NotFound) else Ok(rows)
  }

  /** The `'add'` activity that accounts for a membership row of (playlist, song). */
  function AddActivityFor(playlistId: string, songId: string): Activity -> bool {
    (a: Activity) => a.playlistId == playlistId && a.songId == songId && a.action == Add
  }

  /**
   * The audit invariant the transactions keep: every membership row has an `'add'`
   * activity for its (playlist, song) pair in the log.
   */
  ghost predicate Audited(playlistSongs: seq<PlaylistSong>, activities: seq<Activity>) {
    forall i :: 0 <= i < |playlistSongs| ==>
      Any(activities, AddActivityFor(playlistSongs[i].playlistId, playlistSongs[i].songId))
  }

  lemma AddMembershipKeepsAudit(playlistSongs: seq<PlaylistSong>, activities: seq<Activity>,
                                m: PlaylistSong, a: Activity)
    requires Audited(playlistSongs, activities)
    requires a == Activity(a.id, m.playlistId, m.songId, a.userId, Add)
    ensures Audited(playlistSongs + [m], activities + [a])
  {
    var acts := activities + [a];
    forall i | 0 <= i < |playlistSongs + [m]|
      ensures Any(acts, AddActivityFor((playlistSongs + [m])[i].playlistId, (playlistSongs + [m])[i].songId))
    {
      if i < |playlistSongs| {
        assert (playlistSongs + [m])[i] == playlistSongs[i];
        assert Any(activities, AddActivityFor(playlistSongs[i].playlistId, playlistSongs[i].songId));
        var k :| 0 <= k < |activities|
          && AddActivityFor(playlistSongs[i].playlistId, playlistSongs[i].songId)(activities[k]);
        assert acts[k] == activities[k];
      } else {
        assert acts[|activities|] == a;
      }
    }
  }

  lemma RemoveMembershipsKeepsAudit(playlistSongs: seq<PlaylistSong>, activities: seq<Activity>,
                                    keep: PlaylistSong -> bool, a: Activity)
    requires Audited(playlistSongs, activities)
    ensures Audited(Filter(playlistSongs, keep), activities + [a])
  {
    var kept := Filter(playlistSongs, keep);
    var acts := activities + [a];
    forall i | 0 <= i < |kept|
      ensures Any(acts, AddActivityFor(kept[i].playlistId, kept[i].songId))
    {
      assert kept[i] in kept;
      FilterMembers(playlistSongs, keep, kept[i]);
      var j :| 0 <= j < |playlistSongs| && playlistSongs[j] == kept[i];
      assert Any(activities, AddActivityFor(playlistSongs[j].playlistId, playlistSongs[j].songId));
      var k :| 0 <= k < |activities|
        && AddActivityFor(playlistSongs[j].playlistId, playlistSongs[j].songId)(activities[k]);
      assert acts[k] == activities[k];
    }
  }

  /**
   * `addPlaylistSong` does not look for an existing membership: two successful adds of
   * one (playlist, song) pair append exactly the rows below, giving the pair two more
   * membership rows and two more `'add'` activities.
   */
  lemma {:induction false} AddingTwiceGivesTwoRows(playlistSongs: seq<PlaylistSong>, activities: seq<Activity>,
                                                   playlistId: string, songId: string, user1: string, user2: string,
                                                   membership1: string, membership2: string,
                                                   activity1: string, activity2: string)
    ensures Count(playlistSongs + [PlaylistSong(PlaylistSongIdPrefix() + membership1, playlistId, songId)]
                                + [PlaylistSong(PlaylistSongIdPrefix() + membership2, playlistId, songId)],
                  MembershipOf(playlistId, songId))
         == Count(playlistSongs, MembershipOf(playlistId, songId)) + 2
    ensures Count(activities + [Activity(ActivityIdPrefix() + activity1, playlistId, songId, user1, Add)]
                             + [Activity(ActivityIdPrefix() + activity2, playlistId, songId, user2, Add)],
                  AddActivityFor(playlistId, songId))
         == Count(activities, AddActivityFor(playlistId, songId)) + 2
  {
    var m1 := PlaylistSong(PlaylistSongIdPrefix() + membership1, playlistId, songId);
    var m2 := PlaylistSong(PlaylistSongIdPrefix() + membership2, playlistId, songId);
    var a1 := Activity(ActivityIdPrefix() + activity1, playlistId, songId, user1, Add);
    var a2 := Activity(ActivityIdPrefix() + activity2, playlistId, songId, user2, Add);
    CountAppend(playlistSongs, m1, MembershipOf(playlistId, songId));
    CountAppend(playlistSongs + [m1], m2, MembershipOf(playlistId, songId));
    CountAppend(activities, a1, AddActivityFor(playlistId, songId));
    CountAppend(activities + [a1], a2, AddActivityFor(playlistId, songId));
  }

  class PlaylistsService {
    const pool: Database

    constructor (pool: Database)
      ensures this.pool == pool
    {
      this.pool := pool;
    }

    /** Inserts `playlist-<suffix>` owned by `owner` and returns its id. */
    method AddPlaylist(name: string, owner: string, suffix: string) returns (id: string)
      requires pool.Valid()
      requires !HasPlaylist(pool.playlists, PlaylistIdPrefix() + suffix)
      modifies pool`playlists
      ensures pool.Valid()
      ensures id == PlaylistIdPrefix() + suffix
      ensures pool.playlists == old(pool.playlists) + [Playlist(id, name, owner)]
      ensures VerifyPlaylistOwner(pool.playlists, id, owner) == Pass
    {
      id := PlaylistIdPrefix() + suffix;
      var row := Playlist(id, name, owner);
      AppendUnique(pool.playlists, row, PlaylistId);
      FindAppend(pool.playlists, row, KeyIs(PlaylistId, id));
      pool.playlists := pool.playlists + [row];
    }

    /**
     * One transaction over `playlist_songs` and `playlist_song_activities`: both rows
     * are committed, or, when either insert yields no id, both are rolled back and the
     * call fails Invariant. No check for an existing membership of the pair is made.
     */
    method AddPlaylistSong(playlistId: string, songId: string, userId: string,
                           membershipSuffix: string, activitySuffix: string,
                           membershipInserted: bool, activityInserted: bool) returns (r: Outcome)
      modifies pool`playlistSongs, pool`activities
      ensures membershipInserted && activityInserted ==>
                && r == Pass
                && pool.playlistSongs == old(pool.playlistSongs)
                     + [PlaylistSong(PlaylistSongIdPrefix() + membershipSuffix, playlistId, songId)]
                && pool.activities == old(pool.activities)
                     + [Activity(ActivityIdPrefix() + activitySuffix, playlistId, songId, userId, Add)]
      ensures !(membershipInserted && activityInserted) ==>
                && r == Fail(Invariant)
                && pool.playlistSongs == old(pool.playlistSongs)
                && pool.activities == old(pool.activities)
      ensures Audited(old(pool.playlistSongs), old(pool.activities)) ==> Audited(pool.playlistSongs, pool.activities)
    {
      // BEGIN
      var membership := PlaylistSong(PlaylistSongIdPrefix() + membershipSuffix, playlistId, songId);
      var activity := Activity(ActivityIdPrefix() + activitySuffix, playlistId, songId, userId, Add);
      if !membershipInserted || !activityInserted {
        // ROLLBACK
        return Fail(Invariant);
      }
      if Audited(pool.playlistSongs, pool.activities) {
        AddMembershipKeepsAudit(pool.playlistSongs, pool.activities, membership, activity);
      }
      // COMMIT
      pool.playlistSongs := pool.playlistSongs + [membership];
      pool.activities := pool.activities + [activity];
      r := Pass;
    }

    /** Removes the playlist row; a missing id fails NotFound. */
    method DeletePlaylistById(id: string) returns (r: Outcome)
      requires pool.Valid()
      modifies pool`playlists
      ensures pool.Valid()
      ensures r == Fail(NotFound) <==> !old(HasPlaylist(pool.playlists, id))
      ensures r == Pass || r == Fail(NotFound)
      ensures pool.playlists == Filter(old(pool.playlists), Not(KeyIs(PlaylistId, id)))
      ensures !HasPlaylist(pool.playlists, id)
    {
      if Count(pool.playlists, KeyIs(PlaylistId, id)) == 0 {
        FilterAll(pool.playlists, Not(KeyIs(PlaylistId, id)));
        return Fail(NotFound);
      }
      FilterUnique(pool.playlists, Not(KeyIs(PlaylistId, id)), PlaylistId);
      pool.playlists := Filter(pool.playlists, Not(KeyIs(PlaylistId, id)));
      r := Pass;
    }

    /**
     * One transaction: delete every membership row of (playlist, song) and log a
     * `'delete'` activity. No row to delete fails NotFound, which takes precedence over
     * a failed activity insert (Invariant); either failure rolls both tables back.
     */
    method DeletePlaylistSong(playlistId: string, songId: string, userId: string,
                              activitySuffix: string, activityInserted: bool) returns (r: Outcome)
      modifies pool`playlistSongs, pool`activities
      ensures !old(Any(pool.playlistSongs, MembershipOf(playlistId, songId))) ==>
                && r == Fail(NotFound)
                && pool.playlistSongs == old(pool.playlistSongs)
                && pool.activities == old(pool.activities)
      ensures old(Any(pool.playlistSongs, MembershipOf(playlistId, songId))) && !activityInserted ==>
                && r == Fail(Invariant)
                && pool.playlistSongs == old(pool.playlistSongs)
                && pool.activities == old(pool.activities)
      ensures old(Any(pool.playlistSongs, MembershipOf(playlistId, songId))) && activityInserted ==>
                && r == Pass
                && pool.playlistSongs == Filter(old(pool.playlistSongs), Not(MembershipOf(playlistId, songId)))
                && !Any(pool.playlistSongs, MembershipOf(playlistId, songId))
                && pool.activities == old(pool.activities)
                     + [Activity(ActivityIdPrefix() + activitySuffix, playlistId, songId, userId, Delete)]
      ensures Audited(old(pool.playlistSongs), old(pool.activities)) ==> Audited(pool.playlistSongs, pool.activities)
    {
      // BEGIN
      var pair := MembershipOf(playlistId, songId);
      var rowCount := Count(pool.playlistSongs, pair);
      var activity := Activity(ActivityIdPrefix() + activitySuffix, playlistId, songId, userId, Delete);
      if rowCount == 0 {
        // ROLLBACK
        return Fail(NotFound);
      }
      if !activityInserted {
        // ROLLBACK
        return Fail(Invariant);
      }
      if Audited(pool.playlistSongs, pool.activities) {
        RemoveMembershipsKeepsAudit(pool.playlistSongs, pool.activities, Not(pair), activity);
      }
      // COMMIT
      pool.playlistSongs := Filter(pool.playlistSongs, Not(pair));
      pool.activities := pool.activities + [activity];
      r := Pass;
    }
  }
}
