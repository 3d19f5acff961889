/** The request handlers of the playlists API, reduced to the order in which they
    run the payload check, the access check, the song check and the write. Each
    step either passes or ends the request with its error; nothing after a failed
    step runs. The payload check (a Joi schema that is not part of this model) is
    its outcome, `payloadValid`. */
module PlaylistsApi {
  import opened Common
  import opened Playlists

  class PlaylistsHandler {
    const service: PlaylistsService

    constructor (service: PlaylistsService)
      ensures this.service == service
    {
      this.service := service;
    }

    /** `postPlaylistHandler`: validate, then add a playlist owned by the caller. */
    method PostPlaylistHandler(credentialId: UserId, name: string, payloadValid: bool, freshId: PlaylistId)
      returns (r: Result<PlaylistId>)
      requires freshId !in service.playlists
      modifies service
      ensures service.playlistSongs == old(service.playlistSongs)
      ensures !payloadValid ==> r == Err(Invariant) && service.playlists == old(service.playlists)
      ensures payloadValid ==>
        r == Ok(freshId) && service.playlists == old(service.playlists)[freshId := Playlist(name, credentialId)]
      ensures r.Ok? ==> r.value in service.playlists && service.playlists[r.value].owner == credentialId
    {
      if !payloadValid {
        return Err(Invariant);
      }
      r := service.AddPlaylist(freshId, name, credentialId);
    }

    /** `getPlaylistByIdHandler`: the playlists the caller owns (not the ones the
        caller only collaborates on). */
    method GetPlaylistByIdHandler(credentialId: UserId) returns (playlists: set<PlaylistRow>)
      ensures playlists == GetPlaylists(service.playlists, service.users, credentialId)
      ensures forall row :: row in playlists ==>
        row.id in service.playlists && service.playlists[row.id].owner == credentialId
      ensures forall id ::
        (id in service.playlists && service.playlists[id].owner != credentialId &&
         (id, credentialId) in service.collaborations) ==>
        forall row :: row in playlists ==> row.id != id
    {
      playlists := GetPlaylists(service.playlists, service.users, credentialId);
    }

    /** `deletePlaylistByIdHandler`: access check, then delete. Any caller with
        access, owner or collaborator, may delete. */
    method DeletePlaylistByIdHandler(playlistId: PlaylistId, credentialId: UserId) returns (r: Outcome)
      modifies service
      ensures service.playlistSongs == old(service.playlistSongs)
      ensures var access := VerifyPlaylistAccess(old(service.playlists), service.collaborations, playlistId, credentialId);
        (access.Fail? ==> r == access && service.playlists == old(service.playlists)) &&
        (access == Pass ==> r == Pass && service.playlists == old(service.playlists) - {playlistId})
    {
      var access := VerifyPlaylistAccess(service.playlists, service.collaborations, playlistId, credentialId);
      if access.Fail? {
        return access;
      }
      r := service.DeletePlaylistById(playlistId);
    }

    /** `postSongToPlaylistHandler`: read `songId` from the payload, validate, access
        check, song check, insert. The payload is destructured before it is
        validated, so a request without one (`payloadPresent` false) ends in a
        TypeError, a server fault, before the validator runs. */
    method PostSongToPlaylistHandler(playlistId: PlaylistId, songId: SongId, credentialId: UserId,
                                     payloadPresent: bool, payloadValid: bool)
      returns (r: Outcome)
      modifies service
      ensures service.playlists == old(service.playlists)
      ensures var access := VerifyPlaylistAccess(service.playlists, service.collaborations, playlistId, credentialId);
        if !payloadPresent then r == Fail(Fault) && service.playlistSongs == old(service.playlistSongs)
        else if !payloadValid then r == Fail(Invariant) && service.playlistSongs == old(service.playlistSongs)
        else if access.Fail? then r == access && service.playlistSongs == old(service.playlistSongs)
        else if songId !in service.songs then r == Fail(NotFound) && service.playlistSongs == old(service.playlistSongs)
        else r == Pass && service.playlistSongs == old(service.playlistSongs) + [(playlistId, songId)]
    {
      if !payloadPresent {
        return Fail(Fault);
      }
      if !payloadValid {
        return Fail(Invariant);
      }
      var access := VerifyPlaylistAccess(service.playlists, service.collaborations, playlistId, credentialId);
      if access.Fail? {
        return access;
      }
      var song := VerifySongId(service.songs, songId);
      if song.Fail? {
        return song;
      }
      r := service.AddSongToPlaylist(playlistId, songId);
    }

    /** `getSongsInPlaylistHandler`: access check, then the listing. */
    method GetSongsInPlaylistHandler(playlistId: PlaylistId, credentialId: UserId) returns (r: Result<PlaylistWithSongs>)
      ensures var access := VerifyPlaylistAccess(service.playlists, service.collaborations, playlistId, credentialId);
        if access.Fail? then r == Err(access.error)
        else r == GetSongsInPlaylist(service.playlists, service.playlistSongs, service.songs, service.users, playlistId)
      ensures r.Ok? ==>
        playlistId in service.playlists &&
        (service.playlists[playlistId].owner == credentialId || (playlistId, credentialId) in service.collaborations)
    {
      var access := VerifyPlaylistAccess(service.playlists, service.collaborations, playlistId, credentialId);
      if access.Fail? {
        return Err(access.error);
      }
      r := GetSongsInPlaylist(service.playlists, service.playlistSongs, service.songs, service.users, playlistId);
    }

    /** `deleteSongFromPlaylistHandler`: read `songId` from the payload, validate,
        song check, access check, delete. The song check comes first here, unlike
        in the insert. As in the insert, a missing payload is a server fault
        before validation. */
    method DeleteSongFromPlaylistHandler(playlistId: PlaylistId, songId: SongId, credentialId: UserId,
                                         payloadPresent: bool, payloadValid: bool)
      returns (r: Outcome)
      modifies service
      ensures service.playlists == old(service.playlists)
      ensures var access := VerifyPlaylistAccess(service.playlists, service.collaborations, playlistId, credentialId);
        if !payloadPresent then r == Fail(Fault) && service.playlistSongs == old(service.playlistSongs)
        else if !payloadValid then r == Fail(Invariant) && service.playlistSongs == old(service.playlistSongs)
        else if songId !in service.songs then r == Fail(NotFound) && service.playlistSongs == old(service.playlistSongs)
        else if access.Fail? then r == access && service.playlistSongs == old(service.playlistSongs)
        else if (playlistId, songId) !in old(service.playlistSongs) then
          r == Fail(Invariant) && service.playlistSongs == old(service.playlistSongs)
        else r == Pass && service.playlistSongs == Filter(NotPair(playlistId, songId), old(service.playlistSongs))
    {
      if !payloadPresent {
        return Fail(Fault);
      }
      if !payloadValid {
        return Fail(Invariant);
      }
      var song := VerifySongId(service.songs, songId);
      if song.Fail? {
        return song;
      }
      var access := VerifyPlaylistAccess(service.playlists, service.collaborations, playlistId, credentialId);
      if access.Fail? {
        return access;
      }
      r := service.DeleteSongFromPlaylist(playlistId, songId);
    }
  }
}
