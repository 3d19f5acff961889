/** The in-memory song store: an array of song records that `addSong` pushes to,
    `editSongById` overwrites in place and `deleteSongById` splices. */
module InMemorySongs {
  import opened Common
  import opened Text

  /** A stored song; `albumId` is a weak, possibly undefined, album reference. */
  datatype Song = Song(
    id: string,
    title: string,
    year: int,
    genre: string,
    performer: string,
    duration: int,
    albumId: Option<string>)

  /** The `{id, title, performer}` projection that `getSongs` returns. */
  datatype SongSummary = SongSummary(id: string, title: string, performer: string)

  /** The `{id, title, performer, albumId}` projection of `getSongsWithAlbumId`. */
  datatype SongListing = SongListing(id: string, title: string, performer: string, albumId: Option<string>)

  function Summary(s: Song): SongSummary
  {
    SongSummary(s.id, s.title, s.performer)
  }

  function Listing(s: Song): SongListing
  {
    SongListing(s.id, s.title, s.performer, s.albumId)
  }

  /** `song => song.id === id` */
  function SongIdIs(id: string): Song -> bool
  {
    (s: Song) => s.id == id
  }

  /** The title filter of `getSongs`. */
  function TitleIncludes(title: string): Song -> bool
  {
    (s: Song) => IncludesIgnoreCase(s.title, title)
  }

  /** The performer filter of `getSongs`. */
  function PerformerIncludes(performer: string): Song -> bool
  {
    (s: Song) => IncludesIgnoreCase(s.performer, performer)
  }

  /** Reference definition of the query: both filters at once, an empty filter
      string standing for an absent one. */
  function MatchesQuery(title: string, performer: string): Song -> bool
  {
    (s: Song) => (title == "" || IncludesIgnoreCase(s.title, title))
                 && (performer == "" || IncludesIgnoreCase(s.performer, performer))
  }

  /** No two stored songs share an id (ids come from a collision-free generator). */
  ghost predicate UniqueIds(songs: seq<Song>)
  {
    forall i, j :: 0 <= i < j < |songs| ==> songs[i].id != songs[j].id
  }

  /** With distinct ids, the only song with the deleted id is the one removed. */
  lemma RemoveUniqueId(songs: seq<Song>, k: nat)
    requires UniqueIds(songs)
    requires k < |songs|
    ensures UniqueIds(songs[..k] + songs[k + 1..])
    ensures FindIndex(SongIdIs(songs[k].id), songs[..k] + songs[k + 1..]) == -1
  {
    var rest := songs[..k] + songs[k + 1..];
    forall i | 0 <= i < |rest|
      ensures rest[i] == songs[if i < k then i else i + 1]
    {
    }
  }

  class SongsService {
    var songs: seq<Song>

    ghost predicate Valid()
      reads this
    {
      UniqueIds(songs)
    }

    constructor ()
      ensures Valid() && songs == []
    {
      songs := [];
    }

    /** `addSong`: push a record with the generated id, then confirm it is present. */
    method AddSong(id: string, title: string, year: int, genre: string, performer: string,
                   duration: int, albumId: Option<string>) returns (r: Result<string>)
      requires Valid()
      requires FindIndex(SongIdIs(id), songs) == -1
      modifies this
      ensures Valid()
      ensures songs == old(songs) + [Song(id, title, year, genre, performer, duration, albumId)]
      ensures r == Ok(id)
    {
      songs := songs + [Song(id, title, year, genre, performer, duration, albumId)];
      assert songs[|songs| - 1] in songs;
      var isSuccess := |Filter(SongIdIs(id), songs)| > 0;
      if !isSuccess {
        return Err(Invariant);
      }
      return Ok(id);
    }

    /** `getSongs`: the title filter, then the performer filter, then the projection. */
    function GetSongs(title: string, performer: string): (r: seq<SongSummary>)
      reads this
      ensures r == MapSeq(Summary, Filter(MatchesQuery(title, performer), songs))
      ensures title == "" && performer == "" ==> r == MapSeq(Summary, songs)
      ensures |r| <= |songs|
    {
      var byTitle := if title != "" then Filter(TitleIncludes(title), songs) else songs;
      var byPerformer := if performer != "" then Filter(PerformerIncludes(performer), byTitle) else byTitle;
      GetSongsIsConjunctive(songs, title, performer);
      MapSeq(Summary, byPerformer)
    }

    /** `getSongsWithAlbumId`: one listing per stored song, in store order. */
    function GetSongsWithAlbumId(): (r: seq<SongListing>)
      reads this
      ensures |r| == |songs|
      ensures forall i :: 0 <= i < |songs| ==> r[i] == SongListing(songs[i].id, songs[i].title, songs[i].performer, songs[i].albumId)
    {
      MapSeq(Listing, songs)
    }

    /** `getSongById`: the first element of the id filter, or NotFound. */
    function GetSongById(id: string): (r: Result<Song>)
      reads this
      ensures r.Err? <==> forall i :: 0 <= i < |songs| ==> songs[i].id != id
      ensures r.Err? ==> r.error == NotFound
      ensures r.Ok? ==> r.value.id == id && r.value == songs[FindIndex(SongIdIs(id), songs)]
    {
      var matches := Filter(SongIdIs(id), songs);
      if |matches| == 0 then
        assert forall i :: 0 <= i < |songs| ==> songs[i] in songs;
        Err(NotFound)
      else
        assert matches[0] in songs;
        FilterHeadIsFirst(SongIdIs(id), songs);
        Ok(matches[0])
    }

    /** `editSongById`: replace the mutable fields of the first song with that id. */
    method EditSongById(id: string, title: string, year: int, genre: string, performer: string,
                        duration: int, albumId: Option<string>) returns (r: Outcome)
      requires Valid()
      modifies this
      ensures Valid()
      ensures var k := FindIndex(SongIdIs(id), old(songs));
        if k == -1 then r == Fail(NotFound) && songs == old(songs)
        else r == Pass && songs == old(songs)[k := Song(id, title, year, genre, performer, duration, albumId)]
    {
      var index := FindIndex(SongIdIs(id), songs);
      if index == -1 {
        return Fail(NotFound);
      }
      songs := songs[index := songs[index].(title := title, year := year, genre := genre,
                                            performer := performer, duration := duration, albumId := albumId)];
      return Pass;
    }

    /** `deleteSongById`: splice out the first song with that id. */
    method DeleteSongById(id: string) returns (r: Outcome)
      requires Valid()
      modifies this
      ensures Valid()
      ensures var k := FindIndex(SongIdIs(id), old(songs));
        if k == -1 then r == Fail(NotFound) && songs == old(songs)
        else r == Pass && songs == old(songs)[..k] + old(songs)[k + 1..]
      ensures FindIndex(SongIdIs(id), songs) == -1
    {
      var index := FindIndex(SongIdIs(id), songs);
      if index == -1 {
        return Fail(NotFound);
      }
      RemoveUniqueId(songs, index);
      songs := songs[..index] + songs[index + 1..];
      return Pass;
    }
  }

  /** The two single-field filters in a row select what the conjunctive query selects. */
  lemma GetSongsIsConjunctive(songs: seq<Song>, title: string, performer: string)
    ensures var byTitle := if title != "" then Filter(TitleIncludes(title), songs) else songs;
            var byPerformer := if performer != "" then Filter(PerformerIncludes(performer), byTitle) else byTitle;
            byPerformer == Filter(MatchesQuery(title, performer), songs)
  {
    var q := MatchesQuery(title, performer);
    if title != "" && performer != "" {
      FilterConjunction(TitleIncludes(title), PerformerIncludes(performer), q, songs);
    } else if title != "" {
      FilterConjunction(TitleIncludes(title), (s: Song) => true, q, songs);
      FilterAllPass((s: Song) => true, Filter(TitleIncludes(title), songs));
    } else if performer != "" {
      FilterConjunction((s: Song) => true, PerformerIncludes(performer), q, songs);
      FilterAllPass((s: Song) => true, songs);
    } else {
      FilterAllPass(q, songs);
    }
  }

  /** Applying a filter with the empty string keeps every song, since every string
      includes `""`; skipping the filter on a falsy `""`, as `getSongs` does, gives
      the same songs. */
  lemma EmptyFilterKeepsAll(songs: seq<Song>)
    ensures Filter(TitleIncludes(""), songs) == songs
    ensures Filter(PerformerIncludes(""), songs) == songs
  {
    assert ToLower("") == "";
    forall x | x in songs
      ensures TitleIncludes("")(x) && PerformerIncludes("")(x)
    {
      IncludesEmpty(ToLower(x.title));
      IncludesEmpty(ToLower(x.performer));
    }
    FilterAllPass(TitleIncludes(""), songs);
    FilterAllPass(PerformerIncludes(""), songs);
  }

  /** "Love Story" contains "love" when case is ignored. */
  lemma LoveStoryMatches()
    ensures IncludesIgnoreCase("Love Story", "love")
  {
    assert ToLower("Love Story") == "love story";
    assert ToLower("love") == "love";
    assert "love" <= "love story";
  }

  /** A string shorter than the needle does not contain it. */
  lemma {:induction false} ShorterExcluded(h: string, n: string)
    requires |h| < |n|
    ensures !Includes(h, n)
  {
    if h != [] {
      ShorterExcluded(h[1..], n);
    }
  }

  /** No window of "bad blood" spells "love". */
  lemma NoLoveInBadBlood()
    ensures !Includes("bad blood", "love")
  {
    ShorterExcluded("ood", "love");
    assert "lood"[1..] == "ood";
    assert "lood"[2] != "love"[2];
    assert "blood"[1..] == "lood";
    assert " blood"[1..] == "blood";
    assert "d blood"[1..] == " blood";
    assert "ad blood"[1..] == "d blood";
    assert "bad blood"[1..] == "ad blood";
  }

  lemma LowerBadBlood()
    ensures ToLower("Bad Blood") == "bad blood"
  {
  }

  /** "Bad Blood" does not contain "love", whatever the case. */
  lemma BadBloodDoesNotMatch()
    ensures !IncludesIgnoreCase("Bad Blood", "love")
  {
    LowerBadBlood();
    NoLoveInBadBlood();
    assert ToLower("love") == "love";
  }

  /** The worked example: "love" selects "Love Story" and not "Bad Blood". */
  lemma GetSongsExample(store: SongsService, a: Song, b: Song)
    requires a.title == "Love Story" && b.title == "Bad Blood"
    requires store.songs == [a, b]
    ensures store.GetSongs("love", "") == [Summary(a)]
  {
    LoveStoryMatches();
    BadBloodDoesNotMatch();
    var q := MatchesQuery("love", "");
    assert q(a) && !q(b);
    assert [a, b][1..] == [b];
    assert Filter(q, [b]) == [];
    assert Filter(q, [a, b]) == [a];
  }
}
