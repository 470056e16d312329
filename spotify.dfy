/**
 * The music side (getSpotifyRecommendations, main.py:200-238): the seed is sent to the
 * recommendations endpoint and each returned track that carries an album becomes an item.
 */
module Spotify {
  import opened Wrappers
  import opened Records
  import opened Seeds

  /** The query parameters of main.py:217-223, with the defaults of main.py:200. */
  datatype Query = Query(limit: int, market: string, seed: Seed)

  const DefaultLimit := 10
  const DefaultMarket := "JP"

  /** The album image main.py:236 reads: the second entry of the list. */
  const ImageIndex := 1

  /** The item main.py:233-236 builds from a track with an album of at least two images. */
  function TrackItem(t: Track): Item
    requires t.album.Some? && |t.album.value.images| > ImageIndex
  {
    Item(t.name, t.album.value.spotifyUrl, t.album.value.images[ImageIndex].url)
  }

  /**
   * The loop of main.py:231-237: tracks without an album are skipped, the others become
   * items in response order, and the first kept track whose album has fewer than two
   * images raises an IndexError.
   */
  function SpotifyItems(tracks: seq<Track>): Result<seq<Item>, Failure>
    decreases |tracks|
  {
    if tracks == [] then Success([])
    else
      var t := tracks[0];
      if t.album.None? then SpotifyItems(tracks[1..])
      else if |t.album.value.images| <= ImageIndex then Failure(AlbumImageMissing)
      else match SpotifyItems(tracks[1..])
        case Success(rest) => Success([TrackItem(t)] + rest)
        case Failure(e) => Failure(e)
  }

  /** The number of tracks that carry an album. */
  function AlbumCount(tracks: seq<Track>): (n: nat)
    ensures n <= |tracks|
    decreases |tracks|
  {
    if tracks == [] then 0
    else (if tracks[0].album.Some? then 1 else 0) + AlbumCount(tracks[1..])
  }

  /** Running the loop over a then over b: the first failure wins, otherwise the items follow each other. */
  function Then(x: Result<seq<Item>, Failure>, y: Result<seq<Item>, Failure>): Result<seq<Item>, Failure> {
    if x.Failure? then x else if y.Failure? then y else Success(x.value + y.value)
  }

  /** The mapping fails exactly when some track with an album has fewer than two images. */
  lemma {:induction false} SpotifyItemsSucceeds(tracks: seq<Track>)
    ensures SpotifyItems(tracks).Success?
        <==> forall i :: 0 <= i < |tracks| && tracks[i].album.Some? ==> |tracks[i].album.value.images| > ImageIndex
    decreases |tracks|
  {
    if tracks != [] {
      SpotifyItemsSucceeds(tracks[1..]);
      assert forall i :: 1 <= i < |tracks| ==> tracks[i] == tracks[1..][i - 1];
    }
  }

  /** The mapping runs over a response piece by piece, in order. */
  lemma {:induction false} SpotifyItemsConcat(a: seq<Track>, b: seq<Track>)
    ensures SpotifyItems(a + b) == Then(SpotifyItems(a), SpotifyItems(b))
    decreases |a|
  {
    if a == [] {
      assert a + b == b;
      assert SpotifyItems(b).Success? ==> [] + SpotifyItems(b).value == SpotifyItems(b).value;
    } else {
      SpotifyItemsConcat(a[1..], b);
      assert (a + b)[0] == a[0];
      assert (a + b)[1..] == a[1..] + b;
      var t := a[0];
      var x, y := SpotifyItems(a[1..]), SpotifyItems(b);
      if t.album.Some? && |t.album.value.images| > ImageIndex && x.Success? && y.Success? {
        assert [TrackItem(t)] + (x.value + y.value) == ([TrackItem(t)] + x.value) + y.value;
      }
    }
  }

  /** On success there is one item per track with an album, so never more items than tracks. */
  lemma {:induction false} SpotifyItemsCount(tracks: seq<Track>)
    ensures SpotifyItems(tracks).Success? ==> |SpotifyItems(tracks).value| == AlbumCount(tracks) <= |tracks|
    decreases |tracks|
  {
    if tracks != [] {
      SpotifyItemsCount(tracks[1..]);
    }
  }

  /**
   * On success the track at position i, if it has an album, becomes the item at the
   * position given by the number of album tracks before it: the kept tracks appear in
   * response order, each as title = name, url = album page, imageURL = images[1].
   */
  lemma SpotifyItemsPosition(tracks: seq<Track>, i: nat)
    requires i < |tracks| && tracks[i].album.Some?
    requires SpotifyItems(tracks).Success?
    ensures |tracks[i].album.value.images| > ImageIndex
    ensures AlbumCount(tracks[..i]) < |SpotifyItems(tracks).value|
    ensures SpotifyItems(tracks).value[AlbumCount(tracks[..i])] == TrackItem(tracks[i])
  {
    var before, after := tracks[..i], tracks[i + 1..];
    assert tracks == before + ([tracks[i]] + after);
    SpotifyItemsConcat(before, [tracks[i]] + after);
    SpotifyItemsConcat([tracks[i]], after);
    assert ([tracks[i]] + after)[1..] == after;
    SpotifyItemsCount(before);
    assert [tracks[i]][1..] == [];
  }

  /** Threads a prefix of items already built in front of the rest of the mapping. */
  function Prepend(items: seq<Item>, rest: Result<seq<Item>, Failure>): Result<seq<Item>, Failure> {
    if rest.Success? then Success(items + rest.value) else rest
  }

  /** The `result["items"]` append loop of main.py:230-238. */
  method MapTracks(tracks: seq<Track>) returns (r: Result<seq<Item>, Failure>)
    ensures r == SpotifyItems(tracks)
    ensures r.Success? ==> |r.value| <= |tracks|
  {
    var items: seq<Item> := [];
    var i := 0;
    assert tracks[0..] == tracks;
    assert Prepend([], SpotifyItems(tracks)) == SpotifyItems(tracks) by {
      if SpotifyItems(tracks).Success? { assert [] + SpotifyItems(tracks).value == SpotifyItems(tracks).value; }
    }
    while i < |tracks|
      invariant 0 <= i <= |tracks|
      invariant Prepend(items, SpotifyItems(tracks[i..])) == SpotifyItems(tracks)
    {
      var track := tracks[i];
      assert tracks[i..][1..] == tracks[i + 1..];
      if track.album.Some? {
        if |track.album.value.images| <= ImageIndex {
          return Failure(AlbumImageMissing);
        }
        ghost var rest := SpotifyItems(tracks[i + 1..]);
        assert rest.Success? ==> items + ([TrackItem(track)] + rest.value) == (items + [TrackItem(track)]) + rest.value;
        items := items + [TrackItem(track)];
      }
      i := i + 1;
    }
    assert tracks[i..] == [];
    assert items + [] == items;
    r := Success(items);
    SpotifyItemsCount(tracks);
  }

  /** The whole music side as a value: the seed, then the mapping of the recommended tracks. */
  function SpotifyRecommendations(artists: seq<Artist>, topTracks: seq<Track>, recommend: Query -> seq<Track>)
    : Result<seq<Item>, Failure>
  {
    match SeedOf(artists, topTracks)
    case Failure(e) => Failure(e)
    case Success(seed) => SpotifyItems(recommend(Query(DefaultLimit, DefaultMarket, seed)))
  }

  /**
   * getSpotifyRecommendations (main.py:200-238): the recommendations endpoint is the
   * parameter recommend, queried once with the derived seed.
   */
  method GetSpotifyRecommendations(artists: seq<Artist>, topTracks: seq<Track>, recommend: Query -> seq<Track>)
    returns (r: Result<seq<Item>, Failure>)
    ensures r == SpotifyRecommendations(artists, topTracks, recommend)
    ensures r.Success? ==> artists != [] && topTracks != []
  {
    var seed := GetTopItems(artists, topTracks);
    if seed.Failure? {
      return Failure(seed.error);
    }
    var tracks := recommend(Query(DefaultLimit, DefaultMarket, seed.value));
    r := MapTracks(tracks);
  }

  /** One artist with genres pop and rock and one top track give the seed (A1, "pop rock", T1). */
  lemma SeedExample()
    ensures SeedOf([Artist("A1", ["pop", "rock"])], [Track("T1", "top", None)]) == Success(Seed("A1", "pop rock", "T1"))
  {
    var artists := [Artist("A1", ["pop", "rock"])];
    assert ScanGenres([], ["pop", "rock"]) == ScanGenres(["pop"], ["rock"]);
    assert ScanGenres(["pop"], ["rock"]) == ScanGenres(["pop", "rock"], []);
    assert Genres(artists) == ["pop", "rock"] by {
      assert artists[1..] == [];
    }
    var j := JoinSpaces(["pop", "rock"]);
    assert j == "pop rock";
    assert !IsSpace(j[0]);
  }

  /** Two recommended tracks with albums give two items, in response order. */
  lemma EndToEndExample(recommend: Query -> seq<Track>)
    requires var album := Album("album-url", [Image("large"), Image("medium")]);
      recommend(Query(DefaultLimit, DefaultMarket, Seed("A1", "pop rock", "T1")))
        == [Track("R1", "first", Some(album)), Track("R2", "second", Some(album))]
    ensures SpotifyRecommendations([Artist("A1", ["pop", "rock"])], [Track("T1", "top", None)], recommend)
         == Success([Item("first", "album-url", "medium"), Item("second", "album-url", "medium")])
  {
    SeedExample();
    var tracks := recommend(Query(DefaultLimit, DefaultMarket, Seed("A1", "pop rock", "T1")));
    assert tracks[1..][1..] == [];
    assert SpotifyItems(tracks[1..][1..]) == Success([]);
    var first, second := Item("first", "album-url", "medium"), Item("second", "album-url", "medium");
    assert tracks[1..][0] == tracks[1] && TrackItem(tracks[1]) == second;
    assert TrackItem(tracks[0]) == first;
    assert [second] + [] == [second];
    assert [first] + [second] == [first, second];
    assert SpotifyItems(tracks[1..]) == Success([Item("second", "album-url", "medium")]);
    assert SpotifyItems(tracks) == Success([Item("first", "album-url", "medium"), Item("second", "album-url", "medium")]);
  }
}
