/** The in-memory album store. Albums live in their own array; `getAlbumById` joins
    an album with the songs that the song store lists under its id. */
module InMemoryAlbums {
  import opened Common
  import opened InMemorySongs

  datatype Album = Album(id: string, name: string, year: int)

  /** An album spread together with its `songs` listing. */
  datatype AlbumDetail = AlbumDetail(id: string, name: string, year: int, songs: seq<SongListing>)

  /** `album => album.id === id` */
  function AlbumIdIs(id: string): Album -> bool
  {
    (a: Album) => a.id == id
  }

  /** `song => song.albumId === id`, on the song store's listing. */
  function ListedUnder(id: string): SongListing -> bool
  {
    (l: SongListing) => l.albumId == Some(id)
  }

  /** The same test on a stored song. */
  function SongInAlbum(id: string): Song -> bool
  {
    (s: Song) => s.albumId == Some(id)
  }

  ghost predicate UniqueAlbumIds(albums: seq<Album>)
  {
    forall i, j :: 0 <= i < j < |albums| ==> albums[i].id != albums[j].id
  }

  /** With distinct ids, removing the album found by id removes that id altogether. */
  lemma RemoveUniqueAlbumId(albums: seq<Album>, k: nat)
    requires UniqueAlbumIds(albums)
    requires k < |albums|
    ensures UniqueAlbumIds(albums[..k] + albums[k + 1..])
    ensures FindIndex(AlbumIdIs(albums[k].id), albums[..k] + albums[k + 1..]) == -1
  {
    var rest := albums[..k] + albums[k + 1..];
    forall i | 0 <= i < |rest|
      ensures rest[i] == albums[if i < k then i else i + 1]
    {
    }
  }

  class AlbumsService {
    var albums: seq<Album>
    const songsService: SongsService

    ghost predicate Valid()
      reads this
    {
      UniqueAlbumIds(albums)
    }

    constructor (songsService: SongsService)
      ensures Valid() && albums == [] && this.songsService == songsService
    {
      albums := [];
      this.songsService := songsService;
    }

    /** `addAlbum`: push a record with the generated id, then confirm it is present. */
    method AddAlbum(id: string, name: string, year: int) returns (r: Result<string>)
      requires Valid()
      requires FindIndex(AlbumIdIs(id), albums) == -1
      modifies this
      ensures Valid()
      ensures albums == old(albums) + [Album(id, name, year)]
      ensures r == Ok(id)
    {
      albums := albums + [Album(id, name, year)];
      assert albums[|albums| - 1] in albums;
      var isSuccess := |Filter(AlbumIdIs(id), albums)| > 0;
      if !isSuccess {
        return Err(Invariant);
      }
      return Ok(id);
    }

    /** `getAlbumById`: the first album with that id, spread with the song store's
        listings whose album reference is that id; NotFound when there is none. */
    function GetAlbumById(id: string): (r: Result<AlbumDetail>)
      reads this, songsService
      ensures r.Err? <==> forall i :: 0 <= i < |albums| ==> albums[i].id != id
      ensures r.Err? ==> r.error == NotFound
      ensures r.Ok? ==>
        var a := albums[FindIndex(AlbumIdIs(id), albums)];
        r.value.id == id && r.value.name == a.name && r.value.year == a.year &&
        r.value.songs == MapSeq(Listing, Filter(SongInAlbum(id), songsService.songs))
    {
      var listings := songsService.GetSongsWithAlbumId();
      var matches := Filter(AlbumIdIs(id), albums);
      if |matches| == 0 then
        assert forall i :: 0 <= i < |albums| ==> albums[i] in albums;
        Err(NotFound)
      else
        assert matches[0] in albums;
        FilterHeadIsFirst(AlbumIdIs(id), albums);
        var album := matches[0];
        FilterMapSeq(SongInAlbum(id), Listing, ListedUnder(id), songsService.songs);
        assert listings == MapSeq(Listing, songsService.songs);
        Ok(AlbumDetail(album.id, album.name, album.year, Filter(ListedUnder(album.id), listings)))
    }

    /** `editAlbumById`: replace name and year of the first album with that id. */
    method EditAlbumById(id: string, name: string, year: int) returns (r: Outcome)
      requires Valid()
      modifies this
      ensures Valid()
      ensures songsService.songs == old(songsService.songs)
      ensures var k := FindIndex(AlbumIdIs(id), old(albums));
        if k == -1 then r == Fail(NotFound) && albums == old(albums)
        else r == Pass && albums == old(albums)[k := Album(id, name, year)]
    {
      var index := FindIndex(AlbumIdIs(id), albums);
      if index == -1 {
        return Fail(NotFound);
      }
      albums := albums[index := albums[index].(name := name, year := year)];
      return Pass;
    }

    /** `deleteAlbumById`: splice out the first album with that id; songs that
        reference it keep their `albumId` (there is no cascade). */
    method DeleteAlbumById(id: string) returns (r: Outcome)
      requires Valid()
      modifies this
      ensures Valid()
      ensures songsService.songs == old(songsService.songs)
      ensures var k := FindIndex(AlbumIdIs(id), old(albums));
        if k == -1 then r == Fail(NotFound) && albums == old(albums)
        else r == Pass && albums == old(albums)[..k] + old(albums)[k + 1..]
      ensures FindIndex(AlbumIdIs(id), albums) == -1
    {
      var index := FindIndex(AlbumIdIs(id), albums);
      if index == -1 {
        return Fail(NotFound);
      }
      RemoveUniqueAlbumId(albums, index);
      albums := albums[..index] + albums[index + 1..];
      return Pass;
    }
  }

  /** The join lists exactly the album's songs: each listed song references the
      album and comes from the store, and each stored song that references the
      album is listed. */
  lemma AlbumSongsExactly(store: AlbumsService, id: string)
    requires store.GetAlbumById(id).Ok?
    ensures var listed := store.GetAlbumById(id).value.songs;
      (forall l :: l in listed ==> l.albumId == Some(id)) &&
      (forall i :: 0 <= i < |store.songsService.songs| && store.songsService.songs[i].albumId == Some(id) ==>
         Listing(store.songsService.songs[i]) in listed)
  {
    var songs := store.songsService.songs;
    var kept := Filter(SongInAlbum(id), songs);
    var listed := store.GetAlbumById(id).value.songs;
    assert listed == MapSeq(Listing, kept);
    forall l | l in listed
      ensures l.albumId == Some(id)
    {
      var j :| 0 <= j < |kept| && listed[j] == l;
      assert kept[j] in kept;
    }
    forall i | 0 <= i < |songs| && songs[i].albumId == Some(id)
      ensures Listing(songs[i]) in listed
    {
      assert songs[i] in kept;
      var j :| 0 <= j < |kept| && kept[j] == songs[i];
      assert listed[j] == Listing(songs[i]);
    }
  }
}
