# Music-catalog backend: stores and playlist authorization

A Dafny model of the entity stores and the authorization layer of a music-catalog
backend (albums, songs, playlists, playlist membership and collaborators).

- `common.dfy` (module `Common`): the error kinds `NotFound`, `Authorization` and
  `Invariant`, and `Fault` for an exception that is not a client error; `Outcome` (returns nothing or throws) and `Result` (returns a value
  or throws); `Filter`, `MapSeq` and `FindIndex`, which stand for the array methods
  `filter`, `map` and `findIndex`, with the lemmas the stores need about them.
- `text.dfy` (module `Text`): ASCII `toLowerCase` and `String.prototype.includes`,
  proved equal to a reference definition ("some window of the text equals the
  needle").
- `songs_memory.dfy` (module `InMemorySongs`): the in-memory `SongsService`, a class
  whose `songs` field is the array that `addSong` pushes to, `editSongById`
  overwrites and `deleteSongById` splices. Its queries are functions of that field.
- `albums_memory.dfy` (module `InMemoryAlbums`): the in-memory `AlbumsService`. It
  owns an `albums` field and holds a reference to the song store. `GetAlbumById`
  reads both and changes neither.
- `albums_postgres.dfy` (module `PostgresAlbums`): the relational `AlbumService`.
  The `albums` table is a map. `GetAlbumById` receives the rows of its
  `albums LEFT JOIN songs` query and folds them in a loop, proved against the
  specification `SongsOfRows`.
- `playlists_service.dfy` (module `Playlists`): the relational `PlaylistsService`.
  The authorization chain (`VerifyPlaylistOwner`, `VerifyCollaborator`,
  `VerifyPlaylistAccess`) and the queries are pure functions of the tables. The
  class holds the `playlists` map and the `playlists_songs` membership sequence,
  and its methods insert into and delete from them. The `songs` and `users` tables
  and the collaboration relation are constant fields, because this service only
  reads them.
- `playlists_handler.dfy` (module `PlaylistsApi`): the six playlist request
  handlers, reduced to the order in which they validate, check access, check the
  song and write. Each handler stops at the first failing step.

The access decision has asymmetric error precedence. A missing playlist is a
final `NotFound`. An owner mismatch falls back to the collaborator relation. When
that fallback also fails, the caller sees the owner check's `Authorization`, not
the collaborator check's `NotFound`. `VerifyPlaylistAccess` states all three
outcomes as if-and-only-if conditions on the tables.

The relational `getSongsInPlaylist` reports `NotFound` when the join is empty, so
a playlist with no songs and a missing playlist give the same error; the model
keeps that.

## Model

| member | source | states |
|---|---|---|
| Text.ToLower | src/services/inMemory/SongService.js:40 | lower-casing keeps the length and lower-cases each character in place |
| Text.IncludesIff | src/services/inMemory/SongService.js:38-41 | `includes` holds exactly when some window of the text equals the needle |
| Text.IncludesIgnoreCaseIsCaseBlind | src/services/inMemory/SongService.js:38-48 | the case of the text or of the filter does not change whether a song matches |
| InMemorySongs.SongsService.constructor | src/services/inMemory/SongService.js:6-8 | the store starts empty |
| InMemorySongs.SongsService.AddSong | src/services/inMemory/SongService.js:10-33 | the store grows by exactly the new record at the end, earlier entries are unchanged, the id stays unique, and the presence check never raises InvariantError |
| InMemorySongs.SongsService.GetSongs | src/services/inMemory/SongService.js:35-55 | the title filter followed by the performer filter selects the songs that match both filters, in store order, projected to `{id, title, performer}`; with no filters every song is returned |
| InMemorySongs.GetSongsIsConjunctive | src/services/inMemory/SongService.js:38-48 | the two filters in a row equal the single conjunctive filter, where an empty filter string selects everything |
| InMemorySongs.EmptyFilterKeepsAll | src/services/inMemory/SongService.js:38-48 | a title or performer filter with `""` keeps every song, so skipping the filter on an empty string selects the same songs as applying it |
| InMemorySongs.GetSongsExample | src/services/inMemory/SongService.js:38-41 | filtering on "love" over "Love Story" and "Bad Blood" returns only the first |
| InMemorySongs.SongsService.GetSongsWithAlbumId | src/services/inMemory/SongService.js:57-73 | one `{id, title, performer, albumId}` entry per stored song, position by position |
| InMemorySongs.SongsService.GetSongById | src/services/inMemory/SongService.js:75-81 | NotFound exactly when no song has the id; otherwise the first song with that id |
| InMemorySongs.SongsService.EditSongById | src/services/inMemory/SongService.js:83-106 | NotFound with the store unchanged when the id is absent; otherwise only the first match is replaced, keeping its id, the length and every other entry |
| InMemorySongs.SongsService.DeleteSongById | src/services/inMemory/SongService.js:108-114 | NotFound with the store unchanged when the id is absent; otherwise exactly the first match is spliced out and the id is gone afterwards |
| InMemorySongs.RemoveUniqueId | src/services/inMemory/SongService.js:108-114 | with distinct ids, splicing out the found song leaves the ids distinct and the id absent, so a second delete fails |
| InMemoryAlbums.AlbumsService.constructor | src/services/inMemory/AlbumService.js:6-9 | the album store starts empty and refers to the given song store |
| InMemoryAlbums.AlbumsService.AddAlbum | src/services/inMemory/AlbumService.js:15-31 | the store grows by exactly one album with the given id, name and year; the presence check never raises InvariantError |
| InMemoryAlbums.AlbumsService.GetAlbumById | src/services/inMemory/AlbumService.js:11-13 | NotFound exactly when no album has the id; otherwise the first such album's fields, and the song store's songs whose `albumId` is that id, in song-store order, projected |
| InMemoryAlbums.AlbumSongsExactly | src/services/inMemory/AlbumService.js:41-44 | every listed song references the album, and every stored song that references it is listed |
| InMemoryAlbums.AlbumsService.EditAlbumById | src/services/inMemory/AlbumService.js:47-59 | NotFound with no change when the id is absent; otherwise only name and year of the first match change; the song store is untouched |
| InMemoryAlbums.AlbumsService.DeleteAlbumById | src/services/inMemory/AlbumService.js:61-67 | NotFound with no change when the id is absent; otherwise exactly one album is spliced out; the songs, `albumId` included, are untouched |
| InMemoryAlbums.RemoveUniqueAlbumId | src/services/inMemory/AlbumService.js:61-67 | with distinct ids, the deleted id is absent afterwards and the ids stay distinct |
| PostgresAlbums.AlbumService.constructor | src/services/postgres/AlbumService.js:7-9 | the albums table starts empty |
| PostgresAlbums.AlbumService.AddAlbum | src/services/postgres/AlbumService.js:11-28 | one row with the given name and year is inserted under the id; the id is returned, and a falsy returned id raises InvariantError |
| PostgresAlbums.AlbumService.GetAlbumById | src/services/postgres/AlbumService.js:30-71 | NotFound exactly when the join gives no rows; otherwise id, name and year from the first row, and the songs are the fold's specification of the rows |
| PostgresAlbums.SongsOfRowsSnoc | src/services/postgres/AlbumService.js:60-68 | one more row adds its song exactly when the row has a song id; this is the loop's step |
| PostgresAlbums.SongsOfRowsExactly | src/services/postgres/AlbumService.js:60-68 | the song list is never longer than the rows, every entry has a non-empty id taken from a row, and every row with a song id contributes its song |
| PostgresAlbums.SongsOfNullRow | src/services/postgres/AlbumService.js:60-68 | an album whose single row holds a NULL song has an empty song list |
| PostgresAlbums.AlbumService.EditAlbumById | src/services/postgres/AlbumService.js:73-85 | NotFound with the table unchanged when the id is absent; otherwise only that album's name and year are set |
| PostgresAlbums.AlbumService.DeleteAlbumById | src/services/postgres/AlbumService.js:87-98 | NotFound with the table unchanged when the id is absent; otherwise exactly that album is removed |
| Playlists.VerifyPlaylistOwner | src/services/postgres/PlaylistsService.js:13-30 | NotFound exactly for an unknown playlist, Authorization exactly for a known playlist with another owner, success exactly for the owner |
| Playlists.VerifySongId | src/services/postgres/PlaylistsService.js:32-43 | success exactly when the song exists, NotFound otherwise |
| Playlists.VerifyCollaborator | src/services/postgres/PlaylistsService.js:53-57 | success exactly when the relation holds the (playlist, user) pair; otherwise a NotFound failure |
| Playlists.VerifyPlaylistAccess | src/services/postgres/PlaylistsService.js:45-59 | access is granted exactly when the playlist exists and the user owns it or collaborates on it; NotFound exactly when the playlist is missing; Authorization (never the collaborator check's error) exactly when it exists and the user is neither owner nor collaborator |
| Playlists.MissingPlaylistIgnoresCollaborators | src/services/postgres/PlaylistsService.js:49-51 | for a missing playlist the result is NotFound and does not depend on the collaborator relation |
| Playlists.OwnerIgnoresCollaborators | src/services/postgres/PlaylistsService.js:46-47 | the owner is granted access whatever the collaborator relation holds |
| Playlists.AccessScenario | src/services/postgres/PlaylistsService.js:45-59 | `pl-1` owned by `user-A` with collaborator `user-B`: A and B are granted, C gets Authorization, a missing id gets NotFound |
| Playlists.GetPlaylists | src/services/postgres/PlaylistsService.js:78-87 | only playlists owned by the given user are returned, with the owner's username, and all of them when the owner is a known user |
| Playlists.GetSongsInPlaylist | src/services/postgres/PlaylistsService.js:117-154 | NotFound exactly when the playlist, its owner or its member songs are missing; otherwise id and name of the playlist, the owner's username and one song entry per membership row, in insertion order |
| Playlists.AddedSongIsListed | src/services/postgres/PlaylistsService.js:140-153 | after adding (p, s) for an existing playlist and song, listing p succeeds and its song list is the previous one followed by s |
| Playlists.AddedSongListedOnce | src/services/postgres/PlaylistsService.js:140-153 | a song not yet in the playlist is listed exactly once after it is added |
| Playlists.RemovedExactlyThePair | src/services/postgres/PlaylistsService.js:156-166 | deletion removes every copy of the pair and keeps every copy of every other pair |
| Playlists.PlaylistsService.constructor | src/services/postgres/PlaylistsService.js:8-11 | no playlists and no membership rows; the read-only tables and the collaborator relation are the given ones |
| Playlists.PlaylistsService.AddPlaylist | src/services/postgres/PlaylistsService.js:61-76 | the playlist is inserted under the fresh id with the given name and owner, and the id is returned |
| Playlists.PlaylistsService.DeletePlaylistById | src/services/postgres/PlaylistsService.js:89-100 | InvariantError with no change when the id is absent; otherwise exactly that playlist is removed |
| Playlists.PlaylistsService.AddSongToPlaylist | src/services/postgres/PlaylistsService.js:102-112 | the pair is appended to the membership rows and nothing else changes |
| Playlists.PlaylistsService.DeleteSongFromPlaylist | src/services/postgres/PlaylistsService.js:156-167 | every matching pair is removed and the others kept in order; InvariantError with no change exactly when none existed; afterwards the pair is absent, so a second identical delete fails |
| PlaylistsApi.PlaylistsHandler.constructor | src/api/playlists/handler.js:2-13 | the handler uses the given service |
| PlaylistsApi.PlaylistsHandler.PostPlaylistHandler | src/api/playlists/handler.js:15-33 | an invalid payload fails with InvariantError and changes nothing; otherwise the new playlist's owner is the caller |
| PlaylistsApi.PlaylistsHandler.GetPlaylistByIdHandler | src/api/playlists/handler.js:35-44 | only playlists the caller owns are listed, none that the caller only collaborates on |
| PlaylistsApi.PlaylistsHandler.DeletePlaylistByIdHandler | src/api/playlists/handler.js:46-56 | a failed access check surfaces its error and leaves the table unchanged; with access, an owner or a collaborator, the playlist is removed and the delete cannot fail |
| PlaylistsApi.PlaylistsHandler.PostSongToPlaylistHandler | src/api/playlists/handler.js:58-76 | a missing payload is a server fault before anything else; then validation, then access, then song existence, then insert. An unauthorized caller gets the access error even for a missing song. Membership is unchanged on every failed guard |
| PlaylistsApi.PlaylistsHandler.GetSongsInPlaylistHandler | src/api/playlists/handler.js:78-91 | the listing is produced only after access succeeds; a listed result implies the caller owns or collaborates on the playlist |
| PlaylistsApi.PlaylistsHandler.DeleteSongFromPlaylistHandler | src/api/playlists/handler.js:93-108 | a missing payload is a server fault before anything else; then validation, then song existence, then access, then delete. A missing song gives NotFound even for an unauthorized caller. Membership is unchanged on every failed guard |

## Left out

- I/O and hosting: the Hapi server, CORS, dotenv, the error-to-status hook and the shaping of HTTP responses (`response.code(201)`, status strings). `src/server.js` is not part of this model.
- The `pg` pool and SQL execution. Tables are maps and sequences. Queries are functions of those tables, except the album LEFT JOIN, whose rows are a parameter.
- Database errors such as foreign-key or duplicate-key violations surface as server faults (status 500) and are not modelled.
- Row order of a query without `ORDER BY` is unspecified. `getSongsInPlaylist` is modelled in membership insertion order, and `getPlaylists` returns a set.
- `nanoid` and the `playlist-` id prefix. Fresh ids are parameters, and a `requires` says they are not in use. The in-memory stores keep ids distinct as their `Valid()` invariant, which rests on that freshness.
- `created_at` and `updated_at` timestamps of the albums table.
- The collaboration service, which lies outside the modelled files, is the set of (playlist id, user id) pairs. Its `verifyCollaborator` is assumed to fail with NotFound.
- The Joi payload schemas (`src/validator/playlists/schema` is not part of this model). The three handlers that validate (post playlist, post song, delete song) receive the outcome of `src/validator/playlists/index.js` as `payloadValid`, and a failure raises InvariantError before any service call. The post-song and delete-song handlers read `songId` from the payload before validating it, so they also receive `payloadPresent`: a request without a payload fails with `Fault` (the TypeError that becomes a server fault) before validation.
- async/await and concurrency between requests. Every operation runs to completion alone.
- Unicode case mapping. `toLowerCase` is modelled on ASCII letters only.
- The value returned by `addSongToPlaylist` (`result.rows[0].id`, which is undefined).
- Undefined payload fields in the edit operations. The spread would store `undefined`, but every field is passed as a value here.
- Cascading deletes. `deletePlaylistById` leaves `playlists_songs` as it is, because the table schema and its foreign-key actions are not modelled. The in-memory `deleteAlbumById` keeps the songs, as the code does.
- PostgresAlbums.AlbumService.GetAlbumById: its contract is stated in terms of the rows it is given. It does not say that those rows come from the albums table for the requested id.
