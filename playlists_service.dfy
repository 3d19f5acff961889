/** The relational playlists service. The tables are values: `playlists` maps a
    playlist id to its name and owner, `playlists_songs` is the sequence of
    (playlist id, song id) membership rows in insertion order, and the `songs` and
    `users` tables and the collaboration service's relation are read, never
    written. The authorization decisions are pure functions of these tables. */
module Playlists {
  import opened Common

  type PlaylistId = string
  type UserId = string
  type SongId = string

  datatype Playlist = Playlist(name: string, owner: UserId)

  /** The columns of a `songs` row that the playlist queries read. */
  datatype SongRecord = SongRecord(title: string, performer: string)

  /** A row of `getPlaylists`: `playlists.id, playlists.name, users.username`. */
  datatype PlaylistRow = PlaylistRow(id: PlaylistId, name: string, username: string)

  /** A row of the four-way join in `getSongsInPlaylist`. */
  datatype PlaylistSongRow = PlaylistSongRow(
    playlistId: PlaylistId,
    playlistName: string,
    username: string,
    songId: SongId,
    songTitle: string,
    songPerformer: string)

  datatype PlaylistSong = PlaylistSong(id: SongId, title: string, performer: string)

  datatype PlaylistWithSongs = PlaylistWithSongs(id: PlaylistId, name: string, username: string, songs: seq<PlaylistSong>)

  type Membership = (PlaylistId, SongId)

  // ---------------------------------------------------------------------------
  // Authorization

  /** `verifyPlaylistOwner`: NotFound for an unknown playlist, Authorization for a
      known playlist with another owner. */
  function VerifyPlaylistOwner(playlists: map<PlaylistId, Playlist>, id: PlaylistId, owner: UserId): (r: Outcome)
    ensures r == Fail(NotFound) <==> id !in playlists
    ensures r == Fail(Authorization) <==> id in playlists && playlists[id].owner != owner
    ensures r == Pass <==> id in playlists && playlists[id].owner == owner
  {
    if id !in playlists then Fail(NotFound)
    else if playlists[id].owner != owner then Fail(Authorization)
    else Pass
  }

  /** `verifyCollaborator` of the collaboration service: a missing row is a failure. */
  function VerifyCollaborator(collaborations: set<(PlaylistId, UserId)>, playlistId: PlaylistId, userId: UserId): (r: Outcome)
    ensures r == Pass <==> (playlistId, userId) in collaborations
    ensures r.Fail? ==> r.error == NotFound
  {
    if (playlistId, userId) in collaborations then Pass else Fail(NotFound)
  }

  /** `verifyPlaylistAccess`: the owner check; a NotFound is rethrown at once; any
      other failure falls back to the collaborator check, and when that fails too
      the owner check's error is rethrown instead of the collaborator check's. */
  function VerifyPlaylistAccess(playlists: map<PlaylistId, Playlist>, collaborations: set<(PlaylistId, UserId)>,
                                playlistId: PlaylistId, userId: UserId): (r: Outcome)
    ensures r == Pass <==>
      playlistId in playlists && (playlists[playlistId].owner == userId || (playlistId, userId) in collaborations)
    ensures r == Fail(NotFound) <==> playlistId !in playlists
    ensures r == Fail(Authorization) <==>
      playlistId in playlists && playlists[playlistId].owner != userId && (playlistId, userId) !in collaborations
    ensures r != Fail(Invariant)
  {
    match VerifyPlaylistOwner(playlists, playlistId, userId)
    case Pass => Pass
    case Fail(ownerError) =>
      if ownerError == NotFound then Fail(ownerError)
      else
        match VerifyCollaborator(collaborations, playlistId, userId)
        case Pass => Pass
        case Fail(_) => Fail(ownerError)
  }

  /** A missing playlist is NotFound whatever the collaborator relation holds: the
      relation is not consulted. */
  lemma MissingPlaylistIgnoresCollaborators(playlists: map<PlaylistId, Playlist>,
                                            c1: set<(PlaylistId, UserId)>, c2: set<(PlaylistId, UserId)>,
                                            playlistId: PlaylistId, userId: UserId)
    requires playlistId !in playlists
    ensures VerifyPlaylistAccess(playlists, c1, playlistId, userId) == Fail(NotFound)
    ensures VerifyPlaylistAccess(playlists, c1, playlistId, userId) == VerifyPlaylistAccess(playlists, c2, playlistId, userId)
  {
  }

  /** The owner is granted access whatever the collaborator relation holds. */
  lemma OwnerIgnoresCollaborators(playlists: map<PlaylistId, Playlist>,
                                  c1: set<(PlaylistId, UserId)>, c2: set<(PlaylistId, UserId)>,
                                  playlistId: PlaylistId)
    requires playlistId in playlists
    ensures VerifyPlaylistAccess(playlists, c1, playlistId, playlists[playlistId].owner) == Pass
    ensures VerifyPlaylistAccess(playlists, c2, playlistId, playlists[playlistId].owner) == Pass
  {
  }

  /** The worked scenario: `pl-1` owned by `user-A` with collaborator `user-B`. */
  lemma AccessScenario()
    ensures var playlists := map["pl-1" := Playlist("mix", "user-A")];
            var collaborations := {("pl-1", "user-B")};
            VerifyPlaylistAccess(playlists, collaborations, "pl-1", "user-A") == Pass &&
            VerifyPlaylistAccess(playlists, collaborations, "pl-1", "user-B") == Pass &&
            VerifyPlaylistAccess(playlists, collaborations, "pl-1", "user-C") == Fail(Authorization) &&
            VerifyPlaylistAccess(playlists, collaborations, "missing-id", "user-A") == Fail(NotFound)
  {
  }

  /** `verifySongId`: NotFound unless the song is in the `songs` table. */
  function VerifySongId(songs: map<SongId, SongRecord>, songId: SongId): (r: Outcome)
    ensures r == Pass <==> songId in songs
    ensures r.Fail? ==> r.error == NotFound
  {
    if songId in songs then Pass else Fail(NotFound)
  }

  // ---------------------------------------------------------------------------
  // Queries

  /** `getPlaylists`: the caller's own playlists, joined with the owner's username. */
  function GetPlaylists(playlists: map<PlaylistId, Playlist>, users: map<UserId, string>, owner: UserId): (r: set<PlaylistRow>)
    ensures forall row :: row in r ==>
      row.id in playlists && playlists[row.id].owner == owner && row.name == playlists[row.id].name &&
      owner in users && row.username == users[owner]
    ensures owner in users ==>
      forall id :: id in playlists && playlists[id].owner == owner ==> PlaylistRow(id, playlists[id].name, users[owner]) in r
  {
    set id | id in playlists && playlists[id].owner == owner && owner in users :: PlaylistRow(id, playlists[id].name, users[owner])
  }

  /** A membership row of the playlist whose song exists (the inner joins). */
  function MemberOf(playlistId: PlaylistId, songs: map<SongId, SongRecord>): Membership -> bool
  {
    (m: Membership) => m.0 == playlistId && m.1 in songs
  }

  /** The playlist's song entry for a membership row. It is applied only to rows
      that pass `MemberOf`, so the `else` branch is never taken. */
  function EntryOf(songs: map<SongId, SongRecord>): Membership -> PlaylistSong
  {
    (m: Membership) => if m.1 in songs then PlaylistSong(m.1, songs[m.1].title, songs[m.1].performer)
                       else PlaylistSong(m.1, "", "")
  }

  /** The rows of `playlists JOIN playlists_songs JOIN songs JOIN users WHERE p.id = $1`,
      in membership order. */
  function PlaylistSongRows(playlists: map<PlaylistId, Playlist>, memberships: seq<Membership>,
                            songs: map<SongId, SongRecord>, users: map<UserId, string>,
                            playlistId: PlaylistId): seq<PlaylistSongRow>
  {
    if playlistId in playlists && playlists[playlistId].owner in users then
      var p := playlists[playlistId];
      MapSeq((m: Membership) =>
               var e := EntryOf(songs)(m);
               PlaylistSongRow(playlistId, p.name, users[p.owner], e.id, e.title, e.performer),
             Filter(MemberOf(playlistId, songs), memberships))
    else []
  }

  function SongOfRow(row: PlaylistSongRow): PlaylistSong
  {
    PlaylistSong(row.songId, row.songTitle, row.songPerformer)
  }

  /** `getSongsInPlaylist`: NotFound when the join is empty; otherwise the playlist
      fields of the first row and one song per row. */
  function GetSongsInPlaylist(playlists: map<PlaylistId, Playlist>, memberships: seq<Membership>,
                              songs: map<SongId, SongRecord>, users: map<UserId, string>,
                              playlistId: PlaylistId): (r: Result<PlaylistWithSongs>)
    ensures r.Err? <==>
      playlistId !in playlists || playlists[playlistId].owner !in users ||
      forall i :: 0 <= i < |memberships| ==> !(memberships[i].0 == playlistId && memberships[i].1 in songs)
    ensures r.Err? ==> r.error == NotFound
    ensures r.Ok? ==>
      playlistId in playlists && playlists[playlistId].owner in users &&
      r.value.id == playlistId && r.value.name == playlists[playlistId].name &&
      r.value.username == users[playlists[playlistId].owner] &&
      r.value.songs == MapSeq(EntryOf(songs), Filter(MemberOf(playlistId, songs), memberships))
  {
    var rows := PlaylistSongRows(playlists, memberships, songs, users, playlistId);
    if |rows| == 0 then
      assert forall i :: 0 <= i < |memberships| ==> memberships[i] in memberships;
      Err(NotFound)
    else
      var kept := Filter(MemberOf(playlistId, songs), memberships);
      assert kept[0] in memberships;
      assert exists i :: 0 <= i < |memberships| && memberships[i] == kept[0];
      Ok(PlaylistWithSongs(rows[0].playlistId, rows[0].playlistName, rows[0].username, MapSeq(SongOfRow, rows)))
  }

  /** Round trip: once (p, s) is added for an existing playlist and song, listing p
      succeeds, ends with s, and lists s exactly once more than before. */
  lemma {:induction false} AddedSongIsListed(playlists: map<PlaylistId, Playlist>, memberships: seq<Membership>,
                                             songs: map<SongId, SongRecord>, users: map<UserId, string>,
                                             p: PlaylistId, s: SongId)
    requires p in playlists && playlists[p].owner in users && s in songs
    ensures var before := MapSeq(EntryOf(songs), Filter(MemberOf(p, songs), memberships));
            var r := GetSongsInPlaylist(playlists, memberships + [(p, s)], songs, users, p);
            var e := PlaylistSong(s, songs[s].title, songs[s].performer);
            r.Ok? && r.value.songs == before + [e] &&
            multiset(r.value.songs)[e] == multiset(before)[e] + 1
  {
    var q := MemberOf(p, songs);
    var m: Membership := (p, s);
    FilterAppend(q, memberships, [m]);
    assert [m][1..] == [];
    assert Filter(q, [m]) == [m];
    MapSeqAppend(EntryOf(songs), Filter(q, memberships), [m]);
    assert (memberships + [m])[|memberships|] == m;
  }

  /** A song never added to the playlist is listed exactly once after it is added. */
  lemma AddedSongListedOnce(playlists: map<PlaylistId, Playlist>, memberships: seq<Membership>,
                            songs: map<SongId, SongRecord>, users: map<UserId, string>,
                            p: PlaylistId, s: SongId)
    requires p in playlists && playlists[p].owner in users && s in songs
    requires (p, s) !in memberships
    ensures var r := GetSongsInPlaylist(playlists, memberships + [(p, s)], songs, users, p);
            r.Ok? && multiset(r.value.songs)[PlaylistSong(s, songs[s].title, songs[s].performer)] == 1
  {
    AddedSongIsListed(playlists, memberships, songs, users, p, s);
    var kept := Filter(MemberOf(p, songs), memberships);
    var before := MapSeq(EntryOf(songs), kept);
    var e := PlaylistSong(s, songs[s].title, songs[s].performer);
    forall j | 0 <= j < |before|
      ensures before[j] != e
    {
      assert kept[j] in kept;
    }
  }

  /** `e => !(e.playlist_id === p && e.song_id === s)`: the rows a DELETE keeps. */
  function NotPair(playlistId: PlaylistId, songId: SongId): Membership -> bool
  {
    (m: Membership) => m != (playlistId, songId)
  }

  /** `e => e.playlist_id === p && e.song_id === s`: the rows a DELETE removes. */
  function IsPair(playlistId: PlaylistId, songId: SongId): Membership -> bool
  {
    (m: Membership) => m == (playlistId, songId)
  }

  /** Removing a pair removes every copy of it and keeps every copy of every other pair. */
  lemma RemovedExactlyThePair(memberships: seq<Membership>, playlistId: PlaylistId, songId: SongId, m: Membership)
    ensures multiset(Filter(NotPair(playlistId, songId), memberships))[m] ==
            if m == (playlistId, songId) then 0 else multiset(memberships)[m]
  {
    FilterMultiplicity(NotPair(playlistId, songId), memberships, m);
  }

  // ---------------------------------------------------------------------------
  // The service object and its writes

  class PlaylistsService {
    var playlists: map<PlaylistId, Playlist>
    var playlistSongs: seq<Membership>
    const songs: map<SongId, SongRecord>
    const users: map<UserId, string>
    const collaborations: set<(PlaylistId, UserId)>

    constructor (songs: map<SongId, SongRecord>, users: map<UserId, string>, collaborations: set<(PlaylistId, UserId)>)
      ensures playlists == map[] && playlistSongs == []
      ensures this.songs == songs && this.users == users && this.collaborations == collaborations
    {
      playlists := map[];
      playlistSongs := [];
      this.songs := songs;
      this.users := users;
      this.collaborations := collaborations;
    }

    /** `addPlaylist`: INSERT with the generated id and return it. */
    method AddPlaylist(id: PlaylistId, name: string, owner: UserId) returns (r: Result<PlaylistId>)
      requires id !in playlists
      modifies this
      ensures playlists == old(playlists)[id := Playlist(name, owner)]
      ensures playlistSongs == old(playlistSongs)
      ensures r == Ok(id)
    {
      playlists := playlists[id := Playlist(name, owner)];
      // The `RETURNING id` row of an insert that succeeds is always present.
      var returned := [id];
      if |returned| == 0 {
        return Err(Invariant);
      }
      return Ok(returned[0]);
    }

    /** `deletePlaylistById`: DELETE by id; InvariantError when no row was deleted. */
    method DeletePlaylistById(playlistId: PlaylistId) returns (r: Outcome)
      modifies this
      ensures playlistId !in old(playlists) ==> r == Fail(Invariant) && playlists == old(playlists)
      ensures playlistId in old(playlists) ==> r == Pass && playlists == old(playlists) - {playlistId}
      ensures playlistSongs == old(playlistSongs)
    {
      var returned := if playlistId in playlists then [playlistId] else [];
      playlists := playlists - {playlistId};
      if |returned| == 0 {
        return Fail(Invariant);
      }
      return Pass;
    }

    /** `addSongToPlaylist`: INSERT one membership row (the value it returns is not modelled). */
    method AddSongToPlaylist(playlistId: PlaylistId, songId: SongId) returns (r: Outcome)
      modifies this
      ensures playlistSongs == old(playlistSongs) + [(playlistId, songId)]
      ensures playlists == old(playlists)
      ensures r == Pass
    {
      playlistSongs := playlistSongs + [(playlistId, songId)];
      // As in `AddPlaylist`, the returned row of a successful insert is always present.
      var returned := [(playlistId, songId)];
      if |returned| == 0 {
        return Fail(Invariant);
      }
      return Pass;
    }

    /** `deleteSongFromPlaylist`: DELETE every matching membership row;
        InvariantError when there was none. */
    method DeleteSongFromPlaylist(playlistId: PlaylistId, songId: SongId) returns (r: Outcome)
      modifies this
      ensures playlistSongs == Filter(NotPair(playlistId, songId), old(playlistSongs))
      ensures r == Fail(Invariant) <==> (playlistId, songId) !in old(playlistSongs)
      ensures r.Fail? ==> r.error == Invariant && playlistSongs == old(playlistSongs)
      ensures (playlistId, songId) !in playlistSongs
      ensures playlists == old(playlists)
    {
      var deleted := Filter(IsPair(playlistId, songId), playlistSongs);
      if |deleted| == 0 {
        assert forall i :: 0 <= i < |playlistSongs| ==> playlistSongs[i] in playlistSongs;
        FilterAllPass(NotPair(playlistId, songId), playlistSongs);
      }
      playlistSongs := Filter(NotPair(playlistId, songId), playlistSongs);
      if |deleted| == 0 {
        return Fail(Invariant);
      }
      assert deleted[0] in deleted;
      return Pass;
    }
  }
}
