/** The relational album service. The `albums` table is a map from id to its
    columns; `getAlbumById` receives the rows of its LEFT JOIN of albums with songs
    and folds them into one album record. */
module PostgresAlbums {
  import opened Common

  /** The columns of an `albums` row other than its id (timestamps are left out). */
  datatype AlbumRecord = AlbumRecord(name: string, year: int)

  /** One row of `albums LEFT JOIN songs ON albums.id = songs.album_id`; an album
      without songs yields one row whose `songId` is NULL. */
  datatype JoinRow = JoinRow(
    id: string,
    name: string,
    year: int,
    songId: Option<string>,
    songTitle: string,
    songPerformer: string)

  datatype AlbumSong = AlbumSong(id: string, title: string, performer: string)

  datatype AlbumWithSongs = AlbumWithSongs(id: string, name: string, year: int, songs: seq<AlbumSong>)

  /** `if (row.song_id)`: NULL and the empty string are both falsy. */
  predicate HasSongId(row: JoinRow)
  {
    row.songId.Some? && row.songId.value != ""
  }

  function SongOfRow(row: JoinRow): AlbumSong
  {
    AlbumSong(if row.songId.Some? then row.songId.value else "", row.songTitle, row.songPerformer)
  }

  /** Specification of the fold: the song of every row that has a song id, in row order. */
  function SongsOfRows(rows: seq<JoinRow>): seq<AlbumSong>
  {
    MapSeq(SongOfRow, Filter(HasSongId, rows))
  }

  /** The song list is never longer than the rows, every entry carries a non-empty
      id taken from a row, and every row with a song id contributes its song. */
  lemma SongsOfRowsExactly(rows: seq<JoinRow>)
    ensures |SongsOfRows(rows)| <= |rows|
    ensures forall s :: s in SongsOfRows(rows) ==> s.id != "" && exists row :: row in rows && HasSongId(row) && s == SongOfRow(row)
    ensures forall i :: 0 <= i < |rows| && HasSongId(rows[i]) ==> SongOfRow(rows[i]) in SongsOfRows(rows)
  {
    var kept := Filter(HasSongId, rows);
    forall s | s in SongsOfRows(rows)
      ensures s.id != "" && exists row :: row in rows && HasSongId(row) && s == SongOfRow(row)
    {
      var j :| 0 <= j < |kept| && SongsOfRows(rows)[j] == s;
      assert kept[j] in kept;
    }
    forall i | 0 <= i < |rows| && HasSongId(rows[i])
      ensures SongOfRow(rows[i]) in SongsOfRows(rows)
    {
      assert rows[i] in kept;
      var j :| 0 <= j < |kept| && kept[j] == rows[i];
      assert SongsOfRows(rows)[j] == SongOfRow(rows[i]);
    }
  }

  /** An album without songs: its single LEFT JOIN row holds a NULL song. */
  lemma SongsOfNullRow(row: JoinRow)
    requires row.songId == None
    ensures SongsOfRows([row]) == []
  {
    assert [row][1..] == [];
  }

  /** Extending the rows by one extends the fold by at most that row's song. */
  lemma {:induction false} SongsOfRowsSnoc(rows: seq<JoinRow>, row: JoinRow)
    ensures SongsOfRows(rows + [row]) == SongsOfRows(rows) + (if HasSongId(row) then [SongOfRow(row)] else [])
  {
    FilterAppend(HasSongId, rows, [row]);
    assert [row][1..] == [];
    MapSeqAppend(SongOfRow, Filter(HasSongId, rows), Filter(HasSongId, [row]));
  }

  class AlbumService {
    var albums: map<string, AlbumRecord>

    constructor ()
      ensures albums == map[]
    {
      albums := map[];
    }

    /** `addAlbum`: insert the row and return the id from `RETURNING id`; a falsy
        returned id raises InvariantError after the insert. */
    method AddAlbum(id: string, name: string, year: int) returns (r: Result<string>)
      requires id !in albums
      modifies this
      ensures albums == old(albums)[id := AlbumRecord(name, year)]
      ensures r == if id != "" then Ok(id) else Err(Invariant)
    {
      albums := albums[id := AlbumRecord(name, year)];
      var returnedId := id;
      if returnedId == "" {
        return Err(Invariant);
      }
      return Ok(returnedId);
    }

    /** `getAlbumById`: NotFound on no rows; otherwise id, name and year from the
        first row and the songs of the rows that carry a song id. */
    method GetAlbumById(rows: seq<JoinRow>) returns (r: Result<AlbumWithSongs>)
      ensures r.Err? <==> rows == []
      ensures r.Err? ==> r.error == NotFound
      ensures r.Ok? ==> r.value.id == rows[0].id && r.value.name == rows[0].name && r.value.year == rows[0].year
      ensures r.Ok? ==> r.value.songs == SongsOfRows(rows)
    {
      if |rows| == 0 {
        return Err(NotFound);
      }
      var songs: seq<AlbumSong> := [];
      var i := 0;
      while i < |rows|
        invariant 0 <= i <= |rows|
        invariant songs == SongsOfRows(rows[..i])
      {
        SongsOfRowsSnoc(rows[..i], rows[i]);
        assert rows[..i + 1] == rows[..i] + [rows[i]];
        if rows[i].songId.Some? && rows[i].songId.value != "" {
          songs := songs + [AlbumSong(rows[i].songId.value, rows[i].songTitle, rows[i].songPerformer)];
        }
        i := i + 1;
      }
      assert rows[..i] == rows;
      return Ok(AlbumWithSongs(rows[0].id, rows[0].name, rows[0].year, songs));
    }

    /** `editAlbumById`: UPDATE by id; NotFound when no row was updated. */
    method EditAlbumById(id: string, name: string, year: int) returns (r: Outcome)
      modifies this
      ensures id !in old(albums) ==> r == Fail(NotFound) && albums == old(albums)
      ensures id in old(albums) ==> r == Pass && albums == old(albums)[id := AlbumRecord(name, year)]
    {
      if id !in albums {
        return Fail(NotFound);
      }
      albums := albums[id := AlbumRecord(name, year)];
      return Pass;
    }

    /** `deleteAlbumById`: DELETE by id; NotFound when no row was deleted. */
    method DeleteAlbumById(id: string) returns (r: Outcome)
      modifies this
      ensures id !in old(albums) ==> r == Fail(NotFound) && albums == old(albums)
      ensures id in old(albums) ==> r == Pass && albums == old(albums) - {id}
    {
      if id !in albums {
        return Fail(NotFound);
      }
      albums := albums - {id};
      return Pass;
    }
  }
}
