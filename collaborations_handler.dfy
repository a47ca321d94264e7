/**
 * CollaborationsHandler: adding or removing a collaborator is gated on owning the
 * playlist, so a collaborator cannot manage other collaborators.
 */
module CollaborationsApi {
  import opened Relation
  import opened Schema
  import Users
  import Collaborations
  import Playlists

  class CollaborationsHandler {
    const collaborationsService: Collaborations.CollaborationsService
    const playlistsService: Playlists.PlaylistsService

    constructor (collaborationsService: Collaborations.CollaborationsService,
                 playlistsService: Playlists.PlaylistsService)
      ensures this.collaborationsService == collaborationsService && this.playlistsService == playlistsService
    {
      this.collaborationsService := collaborationsService;
      this.playlistsService := playlistsService;
    }

    /** validate, then the owner guard, then the insert; the returned id is the inserted row's. */
    method PostCollaboration(payload: Outcome, playlistId: string, userId: string, credentialId: string, suffix: string)
      returns (r: Result<string>)
      modifies collaborationsService.pool`collaborations
      ensures payload.Fail? ==> r == Err(payload.error)
      ensures var owner := old(Playlists.VerifyPlaylistOwner(playlistsService.pool.playlists, playlistId, credentialId));
              payload == Pass && owner.Fail? ==> r == Err(owner.error)
      ensures r.Err? ==> collaborationsService.pool.collaborations == old(collaborationsService.pool.collaborations)
      ensures r.Ok? <==>
                && payload == Pass
                && old(Playlists.VerifyPlaylistOwner(playlistsService.pool.playlists, playlistId, credentialId)) == Pass
                && old(Users.VerifyUserExists(collaborationsService.pool.users, userId)) == Pass
      ensures payload == Pass
              && old(Playlists.VerifyPlaylistOwner(playlistsService.pool.playlists, playlistId, credentialId)) == Pass
              && old(Users.VerifyUserExists(collaborationsService.pool.users, userId)) != Pass ==>
                r == Err(NotFound)
      ensures r.Ok? ==>
                && r.value == Collaborations.CollaborationIdPrefix() + suffix
                && collaborationsService.pool.collaborations
                   == old(collaborationsService.pool.collaborations) + [Collaboration(r.value, playlistId, userId)]
    {
      if payload.Fail? {
        return Err(payload.error);
      }
      var ownerCheck := Playlists.VerifyPlaylistOwner(playlistsService.pool.playlists, playlistId, credentialId);
      if ownerCheck.Fail? {
        return Err(ownerCheck.error);
      }
      r := collaborationsService.AddCollaboration(playlistId, userId, suffix);
    }

    /** validate, then the owner guard, then the delete. */
    method DeleteCollaboration(payload: Outcome, playlistId: string, userId: string, credentialId: string)
      returns (r: Outcome)
      modifies collaborationsService.pool`collaborations
      ensures payload.Fail? ==> r == payload
      ensures var owner := old(Playlists.VerifyPlaylistOwner(playlistsService.pool.playlists, playlistId, credentialId));
              payload == Pass && owner.Fail? ==> r == owner
      ensures r != Pass ==> collaborationsService.pool.collaborations == old(collaborationsService.pool.collaborations)
      ensures r == Pass <==>
                && payload == Pass
                && old(Playlists.VerifyPlaylistOwner(playlistsService.pool.playlists, playlistId, credentialId)) == Pass
                && old(Any(collaborationsService.pool.collaborations, CollaborationOf(playlistId, userId)))
      ensures payload == Pass
              && old(Playlists.VerifyPlaylistOwner(playlistsService.pool.playlists, playlistId, credentialId)) == Pass
              && !old(Any(collaborationsService.pool.collaborations, CollaborationOf(playlistId, userId))) ==>
                r == Fail(Invariant)
      ensures r == Pass ==>
                collaborationsService.pool.collaborations
                == Filter(old(collaborationsService.pool.collaborations), Not(CollaborationOf(playlistId, userId)))
    {
      if payload.Fail? {
        return payload;
      }
      var ownerCheck := Playlists.VerifyPlaylistOwner(playlistsService.pool.playlists, playlistId, credentialId);
      if ownerCheck.Fail? {
        return ownerCheck;
      }
      r := collaborationsService.DeleteCollaboration(playlistId, userId);
    }
  }
}
