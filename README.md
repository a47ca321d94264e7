# OpenMusic API v3: services, handlers and album mapper in Dafny

This project models the core of OpenMusic API v3, a music catalogue HTTP API. The core has these parts:

- **Services.** The PostgreSQL services for albums, songs, users, playlists and collaborations.
- **Handlers.** The route handlers for playlists, albums and collaborations.
- **Mapper.** The album mapper that turns a stored cover file name into a URL.

The PostgreSQL tables are sequences of row values held in one `Schema.Database` object, which stands for the connection pool. The Redis like-count cache is a `Schema.Cache` object holding a `map<string, nat>`.

Read-only queries are functions over the tables. Each function's contract states:

- when it fails, and with which error (`NotFound`, `Authorization`, `Invariant` or `Authentication`);
- what it returns otherwise. For the song search this is exact only when both filters are empty.

Inserts, updates and deletes are methods on the service classes. Their `modifies` clauses name only the tables they write, so every other table is provably unchanged. Their contracts give the new table contents in terms of the old ones.

The handlers are methods on handler classes that call the services in the source's guard order. The validator's verdict on a request payload is passed in as an input.

The main properties proved:

- **Playlist access.** `NotFound` takes precedence over authorisation. Access is granted iff the user is the owner or a collaborator. A refused non-owner gets the owner check's `Authorization` error, never the collaborator check's `Invariant` error.
- **Atomic playlist membership changes.** A membership row and its activity row are committed together or not at all. A delete with no membership row fails with `NotFound`, ahead of a failed activity insert. The invariant "every membership row has an `add` activity for its pair" is preserved.
- **Like-count cache coherence.** A present cache entry equals the album's like-row count and is positive. Like add, like delete and the count read all keep this. A second read hits the cache. Deleting an album leaves a stale entry.
- **Like toggle.** The like handler flips whether the user likes the album. Toggling twice restores the like state, and restores the rows exactly when starting unliked.
- **Users.** Usernames stay unique. The credential check gives the same error for an unknown user and a wrong password. A freshly registered user can log in with their password.
- **Handler guard order.** Owner-only routes are closed to collaborators. A guard that fails leaves every table unchanged.

## Model

| member | source | states |
|---|---|---|
| Mapper.AlbumMapper | src/utils/mapper.js:3-12 | id, name and year are copied; `coverUrl` is null exactly when the cover is null or empty, and otherwise is `http://host:port/albums/cover/` followed by the cover |
| Mapper.CoverUrlRoundTrip | src/utils/mapper.js:9-11 | the cover file name is recovered from the URL by stripping the server's cover prefix |
| Mapper.CoverUrlInjective | src/utils/mapper.js:9-11 | two albums with covers and the same cover URL have the same cover |
| Users.GetUserById | src/services/postgres/UsersService.js:13-26 | NotFound iff no user has the id, and no other error; otherwise the id, username and fullname of a user with that id |
| Users.GetUserByIdIsTheRow | src/services/postgres/UsersService.js:13-26 | under the primary key, looking up an existing user's id returns exactly that user's id, username and fullname |
| Users.VerifyNewUsername | src/services/postgres/UsersService.js:46-57 | passes iff no user has the username, otherwise fails Invariant |
| Users.VerifyUserExists | src/services/postgres/UsersService.js:59-70 | passes iff a user has the id, otherwise fails NotFound |
| Users.VerifyUserCredential | src/services/postgres/UsersService.js:72-91 | unknown username and wrong password both fail Authentication; success returns the id of a user with that username whose stored hash matches the password |
| Users.CredentialOfUser | src/services/postgres/UsersService.js:78-90 | with unique usernames the result is decided by that user's stored hash alone: their id on a match, Authentication otherwise |
| Users.RegisteredUserCanLogIn | src/services/postgres/UsersService.js:28-44 | after inserting a fresh username with the hash of a password, the credential check with that password returns the new id |
| Users.UsersService.AddUser | src/services/postgres/UsersService.js:28-44 | a taken username fails Invariant and inserts nothing; otherwise exactly one row `user-<suffix>` with the hashed password is appended and its id returned; ids and usernames stay unique |
| Songs.GetSongs | src/services/postgres/SongsService.js:30-37 | every listed row is the (id, title, performer) projection of a song satisfying both wrapped ILIKE filters; no more rows than songs |
| Songs.EmptyFiltersListEverySong | src/services/postgres/SongsService.js:30-37 | with both filters empty the `= ''` branch never fires (the parameter is `%%`), and every song is listed, projected, in table order |
| Songs.GetSongById | src/services/postgres/SongsService.js:39-51 | NotFound iff no song has the id, and no other error; otherwise a song row with that id |
| Songs.GetSongByIdIsTheRow | src/services/postgres/SongsService.js:39-51 | under the primary key, the row returned is the one with that id |
| Songs.SongsService.AddSong | src/services/postgres/SongsService.js:11-28 | appends exactly one row `song-<suffix>` carrying the six given fields and returns its id; ids stay unique |
| Songs.SongsService.EditSongById | src/services/postgres/SongsService.js:53-66 | unknown id fails NotFound and changes nothing; otherwise all six fields of that row, album id included, are overwritten and every other row is unchanged |
| Songs.SongsService.DeleteSongById | src/services/postgres/SongsService.js:68-79 | NotFound iff the id is absent; exactly the rows with that id are removed |
| Collaborations.VerifyCollaborator | src/services/postgres/CollaborationsService.js:43-54 | passes iff a row for (playlist, user) exists, otherwise fails Invariant |
| Collaborations.DuplicateCollaborationsAccumulate | src/services/postgres/CollaborationsService.js:11-28 | a repeated insert for a pair adds one more row for it, and the pair then passes the collaborator check |
| Collaborations.CollaborationsService.AddCollaboration | src/services/postgres/CollaborationsService.js:11-28 | an unknown user fails NotFound with no row inserted; otherwise one row `collab-<suffix>` is appended, its id returned, and the collaborator check passes |
| Collaborations.CollaborationsService.DeleteCollaboration | src/services/postgres/CollaborationsService.js:30-41 | every row for the pair is removed; Invariant iff there was none, with the table unchanged; afterwards the collaborator check fails |
| Playlists.VerifyPlaylistOwner | src/services/postgres/PlaylistsService.js:29-45 | NotFound iff no playlist has the id; passes iff its owner is the user; Authorization iff it exists with another owner |
| Playlists.OwnerOfRow | src/services/postgres/PlaylistsService.js:34-40 | under the primary key the owner compared is that playlist row's owner |
| Playlists.VerifyPlaylistAccess | src/services/postgres/PlaylistsService.js:13-27 | a missing playlist fails NotFound whatever collaborations exist; for an existing one it passes iff the user is the owner or a collaborator, and otherwise fails with the owner check's Authorization, never Invariant |
| Playlists.OwnerHasAccess | src/services/postgres/PlaylistsService.js:13-20 | passing the owner check implies passing the access check |
| Playlists.VerifySongExists | src/services/postgres/PlaylistsService.js:64-74 | passes iff a song has the id, otherwise fails NotFound |
| Playlists.GetPlaylists | src/services/postgres/PlaylistsService.js:101-113 | a row is listed iff it is the view of a playlist owned by the user or having a collaboration row for the user, whose owner has a user row |
| Playlists.GetPlaylistsListsEachOnce | src/services/postgres/PlaylistsService.js:101-113 | grouping by playlist id: each playlist id appears at most once in the listing |
| Playlists.GetPlaylistById | src/services/postgres/PlaylistsService.js:115-129 | a missing playlist fails NotFound; a result has the requested id and is the view of a playlist row |
| Playlists.GetPlaylistByIdIsTheRow | src/services/postgres/PlaylistsService.js:115-129 | under the primary key, an existing playlist whose owner has a user row is returned, as that row joined with the owner's username |
| Playlists.SongSummaryOf | src/services/postgres/PlaylistsService.js:133-135 | the join finds a song iff a song has the id, and then yields that song's (id, title, performer) |
| Playlists.GetPlaylistSongsById | src/services/postgres/PlaylistsService.js:131-142 | a row is listed iff it is the (id, title, performer) of an existing song named by a membership row of this playlist; exactly one row per membership row of the playlist whose song exists |
| Playlists.PlaylistSongMultiplicity | src/services/postgres/PlaylistsService.js:131-142 | each song summary is listed as many times as the playlist has membership rows joining to it, so repeated memberships give repeated rows |
| Playlists.ActivityViewOf | src/services/postgres/PlaylistsService.js:146-149 | an activity yields a row iff its song and user exist, and the row is that user's username, that song's title and the activity's action |
| Playlists.ActivityRows | src/services/postgres/PlaylistsService.js:144-154 | exactly one row per activity of the playlist whose song and user rows exist |
| Playlists.ActivityRowsAreReported | src/services/postgres/PlaylistsService.js:144-154 | a row is listed iff it is the (username, title, action) of an activity of this playlist whose song and user exist |
| Playlists.ActivityRowMultiplicity | src/services/postgres/PlaylistsService.js:144-154 | each (username, title, action) row is listed as many times as the playlist has activities yielding it, so identical activities give identical rows |
| Playlists.GetPlaylistActivitiesById | src/services/postgres/PlaylistsService.js:144-160 | NotFound iff no reportable activity exists, even for an existing playlist; otherwise one row per reportable activity, whose rows are exactly the (username, title, action) of the playlist's reportable activities |
| Playlists.AddMembershipKeepsAudit | src/services/postgres/PlaylistsService.js:82-98 | appending a membership with its `add` activity keeps every membership row accounted for by an `add` activity |
| Playlists.RemoveMembershipsKeepsAudit | src/services/postgres/PlaylistsService.js:180-204 | removing membership rows and appending an activity keeps that audit invariant |
| Playlists.AddingTwiceGivesTwoRows | src/services/postgres/PlaylistsService.js:82-92 | with no duplicate check, the rows two successful adds of one pair append give it two more membership rows and two more `add` activities |
| Playlists.PlaylistsService.AddPlaylist | src/services/postgres/PlaylistsService.js:47-62 | appends one row `playlist-<suffix>` owned by the given owner and returns its id; the owner then passes the owner check |
| Playlists.PlaylistsService.AddPlaylistSong | src/services/postgres/PlaylistsService.js:76-99 | both inserts succeeding commits exactly one membership row and one `add` activity naming the user; otherwise fails Invariant with both tables unchanged; the audit invariant is kept |
| Playlists.PlaylistsService.DeletePlaylistById | src/services/postgres/PlaylistsService.js:162-173 | NotFound iff the id is absent; exactly that playlist row is removed |
| Playlists.PlaylistsService.DeletePlaylistSong | src/services/postgres/PlaylistsService.js:175-205 | no membership row fails NotFound, ahead of an activity failure; a failed activity insert fails Invariant; either failure leaves both tables unchanged; success removes every row of the pair and appends one `delete` activity naming the user |
| Albums.LikeKeyInjective | src/services/postgres/AlbumsService.js:128 | distinct albums have distinct cache keys `albumlike:<id>` |
| Albums.VerifyAlbumExists | src/services/postgres/AlbumsService.js:92-102 | passes iff an album has the id, otherwise fails NotFound |
| Albums.VerifyAlbumLikeExists | src/services/postgres/AlbumsService.js:104-114 | NotFound iff the album is unknown, decided before likes are read; otherwise the number of like rows for (album, user), zero iff there is none |
| Albums.GetAlbumById | src/services/postgres/AlbumsService.js:30-42 | NotFound iff no album has the id; otherwise the mapped view of a row with that id |
| Albums.GetAlbumSongsById | src/services/postgres/AlbumsService.js:44-52 | one row per song of the album: every row is the (id, title, performer) of a song of the album, and every song of the album is listed |
| Albums.ReadLikeCount | src/services/postgres/AlbumsService.js:145-172 | a cached entry is returned as is, marked from cache, with the cache unchanged; on a miss, NotFound iff there are no like rows (cache unchanged), otherwise the row count, marked not from cache and stored under the album's key |
| Albums.CoherentReadIsAccurate | src/services/postgres/AlbumsService.js:145-172 | under coherence every successful read reports the true, positive like count |
| Albums.ReadKeepsCoherence | src/services/postgres/AlbumsService.js:159-165 | the count read keeps the cache coherent |
| Albums.SecondReadHitsCache | src/services/postgres/AlbumsService.js:147-170 | an immediate second read after a successful one returns the same count from the cache |
| Albums.AddLikeKeepsCoherence | src/services/postgres/AlbumsService.js:116-129 | appending a like and deleting its album's key keeps the cache coherent |
| Albums.RemoveLikesKeepsCoherence | src/services/postgres/AlbumsService.js:131-143 | removing a pair's likes and deleting its album's key keeps the cache coherent |
| Albums.DeleteAlbumKeepsOtherEntries | src/services/postgres/AlbumsService.js:79-90 | the cascade removing an album's likes keeps every other album's entry coherent |
| Albums.DeleteAlbumLeavesStaleEntry | src/services/postgres/AlbumsService.js:79-90 | a cached entry of a deleted album is no longer coherent, and the count read still serves it from the cache |
| Albums.ToggleLikes | src/api/albums/handler.js:82-97 | the user likes the album afterwards iff they did not before |
| Albums.ToggleTwiceRestoresLikeState | src/api/albums/handler.js:86-97 | two toggles restore whether the user likes the album |
| Albums.ToggleTwiceFromUnlikedRestoresRows | src/api/albums/handler.js:86-97 | from an unliked state two toggles restore the like rows exactly |
| Albums.ToggleKeepsOtherLikes | src/api/albums/handler.js:86-97 | rows of other (user, album) pairs are untouched by a toggle |
| Albums.AlbumsService.AddAlbum | src/services/postgres/AlbumsService.js:13-28 | appends one row `album-<suffix>` with the name, year and no cover and returns its id; ids stay unique |
| Albums.AlbumsService.EditAlbumById | src/services/postgres/AlbumsService.js:66-77 | unknown id fails NotFound; otherwise only name and year of that row change |
| Albums.AlbumsService.EditAlbumCoverById | src/services/postgres/AlbumsService.js:54-64 | unknown id fails NotFound; otherwise only the cover of that row changes |
| Albums.AlbumsService.DeleteAlbumById | src/services/postgres/AlbumsService.js:79-90 | unknown id fails NotFound with nothing changed; otherwise the album, its songs and its like rows are removed, and the cache is not in the frame |
| Albums.AlbumsService.AddUserAlbumLike | src/services/postgres/AlbumsService.js:116-129 | appends exactly one like row `useralbumlike-<suffix>` and removes only the album's cache key; coherence is kept |
| Albums.AlbumsService.DeleteUserAlbumLike | src/services/postgres/AlbumsService.js:131-143 | no like row fails Invariant with the table and cache unchanged; otherwise every like of the pair is removed and only the album's key is deleted; coherence is kept |
| Albums.AlbumsService.GetUserAlbumLikesCount | src/services/postgres/AlbumsService.js:145-172 | response and new cache are exactly those of the count-read specification; coherence is kept |
| PlaylistsApi.CollaboratorIsNotOwner | src/api/playlists/handler.js:36-41 | a non-owner collaborator passes the access guard but fails the owner guard with Authorization |
| PlaylistsApi.PlaylistsHandler.PostPlaylist | src/api/playlists/handler.js:7-23 | a rejected payload returns its error; otherwise the new playlist is owned by the requester and its id returned |
| PlaylistsApi.PlaylistsHandler.DeletePlaylistById | src/api/playlists/handler.js:36-47 | the owner guard's failure is returned with nothing deleted; an owner deletes exactly that playlist |
| PlaylistsApi.PlaylistsHandler.PostSongToPlaylist | src/api/playlists/handler.js:49-65 | validation, then access, then song existence, each returning its own error with both tables unchanged; a failed insert after the guards gives the service's Invariant; success iff all guards and both inserts pass, appending the membership and an `add` activity naming the requester |
| PlaylistsApi.PlaylistsHandler.GetPlaylistById | src/api/playlists/handler.js:67-84 | the access guard's error is returned; with access, the read succeeds exactly when the service finds the playlist, a failed read is the service's NotFound, and the result is the playlist's view with its songs |
| PlaylistsApi.PlaylistsHandler.GetPlaylistActivities | src/api/playlists/handler.js:86-102 | owner only: the owner guard's error is returned; for the owner, exactly the activities query's outcome |
| PlaylistsApi.PlaylistsHandler.DeleteSongFromPlaylist | src/api/playlists/handler.js:104-117 | validation, then access, then the delete transaction, whose NotFound for a missing membership precedes its Invariant for a failed activity insert; success iff all pass and a membership existed, removing it and appending a `delete` activity naming the requester |
| AlbumsApi.AlbumsHandler.GetAlbumById | src/api/albums/handler.js:40-54 | NotFound iff the album is unknown, before songs are read; otherwise the mapped album with its songs |
| AlbumsApi.AlbumsHandler.PostAlbumLike | src/api/albums/handler.js:78-105 | unknown album fails NotFound before any mutation; otherwise the likes become the toggle of the old likes, the reply is "disliked" iff a like existed, and the album's key is invalidated |
| AlbumsApi.AlbumsHandler.GetAlbumLikesCount | src/api/albums/handler.js:107-120 | `likes` is the service's count and the cache header is set iff the count came from the cache; under coherence the count is the true like count |
| CollaborationsApi.CollaborationsHandler.PostCollaboration | src/api/collaborations/handler.js:11-32 | validation, then the owner guard, each returning its own error with no row inserted; an unknown user after the guards gives the service's NotFound; success iff both pass and the user exists, returning the inserted row's id |
| CollaborationsApi.CollaborationsHandler.DeleteCollaboration | src/api/collaborations/handler.js:34-46 | validation, then the owner guard, before any delete; a missing row after the guards gives the service's Invariant; success iff both pass and a row existed, removing every row of the pair |

## Left out

- Connections and transactions. `BEGIN`, `COMMIT` and `ROLLBACK` are issued through the pool (src/services/postgres/PlaylistsService.js:80, :178), so they may run on different pooled connections. An insert that throws skips the `ROLLBACK`. The model states the intended all-or-nothing scope. Whether each insert succeeds is an explicit input.
- The `!rows[0].id` and `!rowCount` checks after single-row inserts (addAlbum, addSong, addPlaylist, addUser, addCollaboration, addUserAlbumLike) cannot fire once the insert has returned a row, so the model has no failure path for them. Database errors such as foreign-key violations are not modelled.
- Id generation. `nanoid` is replaced by a caller-supplied suffix. Inserts into the tables whose primary key the model tracks (albums, songs, users, playlists) require the resulting id to be unused, which stands in for nanoid's collision resistance. The ids of like, collaboration, membership and activity rows are not checked for uniqueness; no operation looks rows up by those ids.
- Users.UsersService.AddUser: bcrypt is an abstract `PasswordHasher`. The salt, the cost factor and the fact that the plaintext is never stored are not modelled beyond storing `hash(password)`.
- Redis. The cache transport, TTL expiry, the cache service's throw-on-miss and the JSON encoding of the count are not part of this model. The cache is a map with an explicit optional lookup.
- Songs.GetSongs: ILIKE is an abstract matcher. Only the empty-filter case is characterised exactly.
- Row order of unordered SQL results, activity timestamps (the `time` column) and the join's user and song row details beyond their existence.
- Payload validators and their schemas: their verdict is an input.
- Cover upload storage and `postAlbumCoverHandler`'s file handling. The exports handler. Configuration loading: host and port are parameters of the mapper.
- The handlers that only forward to a service: `getPlaylistsHandler` and the album create, update and delete handlers. They are covered by the service members they call.
- Schema cascades other than `songs.album_id` and `user_album_likes.album_id`. The playlists migration is not part of this model, so deleting a playlist removes only its row.
- Concurrency. The check-then-act race in the like toggle and interleaved requests are out of scope. The model is sequential.
