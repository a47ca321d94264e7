/**
 * CollaborationsService: (playlist, user) rows granting a non-owner access to a playlist.
 * Duplicate rows for one pair are not prevented.
 */
module Collaborations {
  import opened Relation
  import opened Schema
  import Users

  function CollaborationIdPrefix(): string { "collab-" }

  function VerifyCollaborator(collaborations: seq<Collaboration>, playlistId: string, userId: string): (r: Outcome)
    ensures r == Pass <==> Any(collaborations, CollaborationOf(playlistId, userId))
    ensures r != Pass ==> r == Fail(Invariant)
  {
    if Count(collaborations, CollaborationOf(playlistId, userId)) == 0 then Fail(Invariant) else Pass
  }

  /** Inserting a second row for a pair that already has one adds to the pair's row count. */
  lemma {:induction false} DuplicateCollaborationsAccumulate(collaborations: seq<Collaboration>, c: Collaboration)
    ensures Count(collaborations + [c], CollaborationOf(c.playlistId, c.userId))
         == Count(collaborations, CollaborationOf(c.playlistId, c.userId)) + 1
    ensures VerifyCollaborator(collaborations + [c], c.playlistId, c.userId) == Pass
  {
    CountAppend(collaborations, c, CollaborationOf(c.playlistId, c.userId));
  }

  class CollaborationsService {
    const pool: Database

    constructor (pool: Database)
      ensures this.pool == pool
    {
      this.pool := pool;
    }

    /** An unknown user fails NotFound before anything is inserted; otherwise one row is inserted. */
    method AddCollaboration(playlistId: string, userId: string, suffix: string) returns (r: Result<string>)
      modifies pool`collaborations
      ensures old(Users.VerifyUserExists(pool.users, userId)) == Fail(NotFound) ==>
                r == Err(NotFound) && pool.collaborations == old(pool.collaborations)
      ensures old(Users.VerifyUserExists(pool.users, userId)) == Pass ==>
                && r == Ok(CollaborationIdPrefix() + suffix)
                && pool.collaborations == old(pool.collaborations) + [Collaboration(r.value, playlistId, userId)]
                && VerifyCollaborator(pool.collaborations, playlistId, userId) == Pass
    {
      var userCheck := Users.VerifyUserExists(pool.users, userId);
      if userCheck.Fail? {
        return Err(userCheck.error);
      }
      var id := CollaborationIdPrefix() + suffix;
      DuplicateCollaborationsAccumulate(pool.collaborations, Collaboration(id, playlistId, userId));
      pool.collaborations := pool.collaborations + [Collaboration(id, playlistId, userId)];
      r := Ok(id);
    }

    /** Removes every row for the pair; with none to remove it fails Invariant. */
    method DeleteCollaboration(playlistId: string, userId: string) returns (r: Outcome)
      modifies pool`collaborations
      ensures r == Fail(Invariant) <==> old(VerifyCollaborator(pool.collaborations, playlistId, userId)) == Fail(Invariant)
      ensures r == Pass || r == Fail(Invariant)
      ensures r == Fail(Invariant) ==> pool.collaborations == old(pool.collaborations)
      ensures pool.collaborations == Filter(old(pool.collaborations), Not(CollaborationOf(playlistId, userId)))
      ensures |pool.collaborations|
           == |old(pool.collaborations)| - Count(old(pool.collaborations), CollaborationOf(playlistId, userId))
      ensures VerifyCollaborator(pool.collaborations, playlistId, userId) == Fail(Invariant)
    {
      var pair := CollaborationOf(playlistId, userId);
      CountComplement(pool.collaborations, pair);
      if Count(pool.collaborations, pair) == 0 {
        FilterAll(pool.collaborations, Not(pair));
        return Fail(Invariant);
      }
      pool.collaborations := Filter(pool.collaborations, Not(pair));
      r := Pass;
    }
  }
}
