/**
 * PlaylistsHandler: each route is a fixed sequence of guards followed by at most one
 * service mutation. Deleting a playlist and reading its activities need ownership;
 * reading a playlist and adding or removing a song need only access (owner or
 * collaborator). The validator's verdict on the payload is an input.
 */
module PlaylistsApi {
  import opened Relation
  import opened Schema
  import Songs
  import Playlists

  /** `{ ...playlist, songs }`: the playlist's view with its songs attached. */
  datatype PlaylistDetail = PlaylistDetail(id: string, name: string, username: string, songs: seq<Songs.SongSummary>)

  /** A collaborator who does not own the playlist passes the access guard but not the owner guard. */
  lemma CollaboratorIsNotOwner(playlists: seq<Playlist>, collaborations: seq<Collaboration>,
                               playlistId: string, userId: string)
    requires Playlists.HasPlaylist(playlists, playlistId)
    requires Playlists.OwnerOf(playlists, playlistId) != Some(userId)
    requires Playlists.IsCollaborator(collaborations, playlistId, userId)
    ensures Playlists.VerifyPlaylistAccess(playlists, collaborations, playlistId, userId) == Pass
    ensures Playlists.VerifyPlaylistOwner(playlists, playlistId, userId) == Fail(Authorization)
  {
  }

  class PlaylistsHandler {
    const service: Playlists.PlaylistsService

    constructor (service: Playlists.PlaylistsService)
      ensures this.service == service
    {
      this.service := service;
    }

    /** Creates a playlist owned by the authenticated user and returns its id. */
    method PostPlaylist(payload: Outcome, name: string, userId: string, suffix: string) returns (r: Result<string>)
      requires service.pool.Valid()
      requires !Playlists.HasPlaylist(service.pool.playlists, Playlists.PlaylistIdPrefix() + suffix)
      modifies service.pool`playlists
      ensures service.pool.Valid()
      ensures payload.Fail? ==> r == Err(payload.error) && service.pool.playlists == old(service.pool.playlists)
      ensures payload == Pass ==>
                && r == Ok(Playlists.PlaylistIdPrefix() + suffix)
                && service.pool.playlists == old(service.pool.playlists) + [Playlist(r.value, name, userId)]
                && Playlists.VerifyPlaylistOwner(service.pool.playlists, r.value, userId) == Pass
    {
      if payload.Fail? {
        return Err(payload.error);
      }
      var playlistId := service.AddPlaylist(name, userId, suffix);
      r := Ok(playlistId);
    }

    /** Owner only: the owner guard's error is returned and nothing is deleted. */
    method DeletePlaylistById(playlistId: string, userId: string) returns (r: Outcome)
      requires service.pool.Valid()
      modifies service.pool`playlists
      ensures service.pool.Valid()
      ensures old(Playlists.VerifyPlaylistOwner(service.pool.playlists, playlistId, userId)) != Pass ==>
                && r == old(Playlists.VerifyPlaylistOwner(service.pool.playlists, playlistId, userId))
                && service.pool.playlists == old(service.pool.playlists)
      ensures old(Playlists.VerifyPlaylistOwner(service.pool.playlists, playlistId, userId)) == Pass ==>
                && r == Pass
                && service.pool.playlists == Filter(old(service.pool.playlists), Not(KeyIs(PlaylistId, playlistId)))
    {
      var ownerCheck := Playlists.VerifyPlaylistOwner(service.pool.playlists, playlistId, userId);
      if ownerCheck.Fail? {
        return ownerCheck;
      }
      r := service.DeletePlaylistById(playlistId);
    }

    /**
     * validate, then access, then song existence, then the insert transaction; a guard
     * that fails returns its own error and leaves both tables unchanged. The activity
     * names the requester.
     */
    method PostSongToPlaylist(payload: Outcome, playlistId: string, songId: string, userId: string,
                              membershipSuffix: string, activitySuffix: string,
                              membershipInserted: bool, activityInserted: bool) returns (r: Outcome)
      modifies service.pool`playlistSongs, service.pool`activities
      ensures payload.Fail? ==> r == payload
      ensures payload == Pass && old(Playlists.VerifyPlaylistAccess(service.pool.playlists, service.pool.collaborations, playlistId, userId)) != Pass ==>
                r == old(Playlists.VerifyPlaylistAccess(service.pool.playlists, service.pool.collaborations, playlistId, userId))
      ensures payload == Pass && old(Playlists.VerifyPlaylistAccess(service.pool.playlists, service.pool.collaborations, playlistId, userId)) == Pass
              && old(Playlists.VerifySongExists(service.pool.songs, songId)) != Pass ==>
                r == Fail(NotFound)
      ensures r == Pass ==>
                && payload == Pass
                && old(Playlists.VerifyPlaylistAccess(service.pool.playlists, service.pool.collaborations, playlistId, userId)) == Pass
                && old(Playlists.VerifySongExists(service.pool.songs, songId)) == Pass
                && service.pool.playlistSongs == old(service.pool.playlistSongs)
                     + [PlaylistSong(Playlists.PlaylistSongIdPrefix() + membershipSuffix, playlistId, songId)]
                && service.pool.activities == old(service.pool.activities)
                     + [Activity(Playlists.ActivityIdPrefix() + activitySuffix, playlistId, songId, userId, Add)]
      ensures r != Pass ==>
                service.pool.playlistSongs == old(service.pool.playlistSongs) && service.pool.activities == old(service.pool.activities)
      ensures r == Pass <==>
                && payload == Pass
                && old(Playlists.VerifyPlaylistAccess(service.pool.playlists, service.pool.collaborations, playlistId, userId)) == Pass
                && old(Playlists.VerifySongExists(service.pool.songs, songId)) == Pass
                && membershipInserted && activityInserted
      ensures payload == Pass && old(Playlists.VerifyPlaylistAccess(service.pool.playlists, service.pool.collaborations, playlistId, userId)) == Pass
              && old(Playlists.VerifySongExists(service.pool.songs, songId)) == Pass
              && !(membershipInserted && activityInserted) ==>
                r == Fail(Invariant)
      ensures Playlists.Audited(old(service.pool.playlistSongs), old(service.pool.activities)) ==>
                Playlists.Audited(service.pool.playlistSongs, service.pool.activities)
    {
      if payload.Fail? {
        return payload;
      }
      var accessCheck := Playlists.VerifyPlaylistAccess(service.pool.playlists, service.pool.collaborations, playlistId, userId);
      if accessCheck.Fail? {
        return accessCheck;
      }
      var songCheck := Playlists.VerifySongExists(service.pool.songs, songId);
      if songCheck.Fail? {
        return songCheck;
      }
      r := service.AddPlaylistSong(playlistId, songId, userId, membershipSuffix, activitySuffix,
                                   membershipInserted, activityInserted);
    }

    /** Access, then the playlist's view, then its songs; nothing changes. */
    method GetPlaylistById(playlistId: string, userId: string) returns (r: Result<PlaylistDetail>)
      ensures var access := Playlists.VerifyPlaylistAccess(service.pool.playlists, service.pool.collaborations, playlistId, userId);
              access.Fail? ==> r == Err(access.error)
      ensures r.Err? ==> r.error == NotFound || r.error == Authorization
      ensures Playlists.VerifyPlaylistAccess(service.pool.playlists, service.pool.collaborations, playlistId, userId) == Pass ==>
                (r.Ok? <==> Playlists.GetPlaylistById(service.pool.playlists, service.pool.users, playlistId).Ok?)
      ensures Playlists.VerifyPlaylistAccess(service.pool.playlists, service.pool.collaborations, playlistId, userId) == Pass
              && Playlists.GetPlaylistById(service.pool.playlists, service.pool.users, playlistId).Err? ==>
                r == Err(NotFound)
      ensures r.Ok? ==>
                && Playlists.VerifyPlaylistAccess(service.pool.playlists, service.pool.collaborations, playlistId, userId) == Pass
                && Playlists.GetPlaylistById(service.pool.playlists, service.pool.users, playlistId)
                   == Ok(Playlists.PlaylistView(r.value.id, r.value.name, r.value.username))
                && r.value.id == playlistId
                && r.value.songs == Playlists.GetPlaylistSongsById(service.pool.playlistSongs, service.pool.songs, playlistId)
    {
      var accessCheck := Playlists.VerifyPlaylistAccess(service.pool.playlists, service.pool.collaborations, playlistId, userId);
      if accessCheck.Fail? {
        return Err(accessCheck.error);
      }
      var playlist := Playlists.GetPlaylistById(service.pool.playlists, service.pool.users, playlistId);
      if playlist.Err? {
        return Err(playlist.error);
      }
      var songs := Playlists.GetPlaylistSongsById(service.pool.playlistSongs, service.pool.songs, playlistId);
      r := Ok(PlaylistDetail(playlist.value.id, playlist.value.name, playlist.value.username, songs));
    }

    /** Owner only: a collaborator is refused with Authorization; nothing changes. */
    method GetPlaylistActivities(playlistId: string, userId: string) returns (r: Result<seq<Playlists.ActivityView>>)
      ensures var owner := Playlists.VerifyPlaylistOwner(service.pool.playlists, playlistId, userId);
              && (owner.Fail? ==> r == Err(owner.error))
              && (owner == Pass ==>
                    r == Playlists.GetPlaylistActivitiesById(service.pool.activities, service.pool.songs, service.pool.users, playlistId))
      ensures r.Ok? ==> Playlists.OwnerOf(service.pool.playlists, playlistId) == Some(userId) && |r.value| > 0
    {
      var ownerCheck := Playlists.VerifyPlaylistOwner(service.pool.playlists, playlistId, userId);
      if ownerCheck.Fail? {
        return Err(ownerCheck.error);
      }
      r := Playlists.GetPlaylistActivitiesById(service.pool.activities, service.pool.songs, service.pool.users, playlistId);
    }

    /** validate, then access, then the delete transaction; the activity names the requester. */
    method DeleteSongFromPlaylist(payload: Outcome, playlistId: string, songId: string, userId: string,
                                  activitySuffix: string, activityInserted: bool) returns (r: Outcome)
      modifies service.pool`playlistSongs, service.pool`activities
      ensures payload.Fail? ==> r == payload
      ensures payload == Pass && old(Playlists.VerifyPlaylistAccess(service.pool.playlists, service.pool.collaborations, playlistId, userId)) != Pass ==>
                r == old(Playlists.VerifyPlaylistAccess(service.pool.playlists, service.pool.collaborations, playlistId, userId))
      ensures r == Pass ==>
                && payload == Pass
                && old(Playlists.VerifyPlaylistAccess(service.pool.playlists, service.pool.collaborations, playlistId, userId)) == Pass
                && service.pool.playlistSongs == Filter(old(service.pool.playlistSongs), Not(MembershipOf(playlistId, songId)))
                && service.pool.activities == old(service.pool.activities)
                     + [Activity(Playlists.ActivityIdPrefix() + activitySuffix, playlistId, songId, userId, Delete)]
      ensures r != Pass ==>
                service.pool.playlistSongs == old(service.pool.playlistSongs) && service.pool.activities == old(service.pool.activities)
      ensures r == Pass <==>
                && payload == Pass
                && old(Playlists.VerifyPlaylistAccess(service.pool.playlists, service.pool.collaborations, playlistId, userId)) == Pass
                && old(Any(service.pool.playlistSongs, MembershipOf(playlistId, songId)))
                && activityInserted
      ensures payload == Pass && old(Playlists.VerifyPlaylistAccess(service.pool.playlists, service.pool.collaborations, playlistId, userId)) == Pass
              && !old(Any(service.pool.playlistSongs, MembershipOf(playlistId, songId))) ==>
                r == Fail(NotFound)
      ensures payload == Pass && old(Playlists.VerifyPlaylistAccess(service.pool.playlists, service.pool.collaborations, playlistId, userId)) == Pass
              && old(Any(service.pool.playlistSongs, MembershipOf(playlistId, songId))) && !activityInserted ==>
                r == Fail(Invariant)
      ensures Playlists.Audited(old(service.pool.playlistSongs), old(service.pool.activities)) ==>
                Playlists.Audited(service.pool.playlistSongs, service.pool.activities)
    {
      if payload.Fail? {
        return payload;
      }
      var accessCheck := Playlists.VerifyPlaylistAccess(service.pool.playlists, service.pool.collaborations, playlistId, userId);
      if accessCheck.Fail? {
        return accessCheck;
      }
      r := service.DeletePlaylistSong(playlistId, songId, userId, activitySuffix, activityInserted);
    }
  }
}
