/**
 * Seed derivation (getTopItems, main.py:148-198): the first artist id, the first track id
 * and up to three genres collected from the top artists, joined with spaces.
 */
module Seeds {
  import opened Wrappers
  import opened Records

  /** The genre list never grows past this many entries (main.py:188). */
  const MaxGenres := 3

  /** The three seeds sent to the recommendations endpoint (main.py:193-197). */
  datatype Seed = Seed(artists: string, genres: string, tracks: string)

  predicate Distinct(s: seq<string>) {
    forall i, j :: 0 <= i < j < |s| ==> s[i] != s[j]
  }

  /**
   * The inner loop of main.py:187-189 over one artist's genres, starting from the genres
   * collected so far: a genre is appended while the list has room and the genre is new;
   * the first genre that is a duplicate, or meets a full list, ends this artist's scan.
   */
  function ScanGenres(acc: seq<string>, gs: seq<string>): (r: seq<string>)
    ensures |acc| <= |r| <= |acc| + |gs|
    ensures r[..|acc|] == acc
    ensures r[|acc|..] == gs[..|r| - |acc|]
    ensures |acc| <= MaxGenres ==> |r| <= MaxGenres
    ensures Distinct(acc) ==> Distinct(r)
    decreases |gs|
  {
    if gs == [] then acc
    else if |acc| < MaxGenres && gs[0] !in acc then ScanGenres(acc + [gs[0]], gs[1..])
    else acc
  }

  /** The outer loop of main.py:186: every artist is scanned in order, whatever the previous one did. */
  function ScanArtists(acc: seq<string>, artists: seq<Artist>): (r: seq<string>)
    ensures |acc| <= |r| && r[..|acc|] == acc
    ensures |acc| <= MaxGenres ==> |r| <= MaxGenres
    ensures Distinct(acc) ==> Distinct(r)
    decreases |artists|
  {
    if artists == [] then acc
    else ScanArtists(ScanGenres(acc, artists[0].genres), artists[1..])
  }

  /** The genre list main.py:183-189 builds from the top artists. */
  function Genres(artists: seq<Artist>): (r: seq<string>)
    ensures |r| <= MaxGenres && Distinct(r)
  {
    ScanArtists([], artists)
  }

  /**
   * One artist's scan takes the longest run of its genres that are new and fit: when it
   * stops before the end of the list, the genre it stopped at is already collected or the
   * list is full.
   */
  lemma {:induction false} ScanGenresStopsAtFirstRejected(acc: seq<string>, gs: seq<string>)
    ensures var r := ScanGenres(acc, gs);
      |r| - |acc| < |gs| ==> |r| >= MaxGenres || gs[|r| - |acc|] in r
    decreases |gs|
  {
    if gs != [] && |acc| < MaxGenres && gs[0] !in acc {
      ScanGenresStopsAtFirstRejected(acc + [gs[0]], gs[1..]);
      var r := ScanGenres(acc, gs);
      var n := |r| - |acc|;
      if n < |gs| {
        assert n >= 1;
        assert gs[n] == gs[1..][n - 1];
      }
    }
  }

  /**
   * The `break` at main.py:189 leaves only artist k's list: the genres collected over all
   * artists are those of scanning artists before k, then artist k's own scan, then the
   * scan of the artists after k resuming from there.
   */
  lemma {:induction false} ScanResumesAfterArtist(acc: seq<string>, artists: seq<Artist>, k: nat)
    requires k < |artists|
    ensures ScanArtists(acc, artists)
         == ScanArtists(ScanGenres(ScanArtists(acc, artists[..k]), artists[k].genres), artists[k + 1..])
    decreases k
  {
    if k == 0 {
      assert artists[..0] == [];
    } else {
      var acc' := ScanGenres(acc, artists[0].genres);
      ScanResumesAfterArtist(acc', artists[1..], k - 1);
      assert artists[..k][0] == artists[0];
      assert artists[..k][1..] == artists[1..][..k - 1];
      assert artists[1..][k - 1] == artists[k];
      assert artists[1..][k..] == artists[k + 1..];
    }
  }

  /**
   * A duplicate in the first artist's list skips that artist's remaining genres ("jazz")
   * but the second artist is still scanned ("rock").
   */
  lemma BreakSkipsOnlyTheCurrentArtist()
    ensures Genres([Artist("a1", ["pop", "pop", "jazz"]), Artist("a2", ["rock"])]) == ["pop", "rock"]
  {
  }

  /** The genre loop of main.py:183-189, with its inner `break`. */
  method CollectGenres(artists: seq<Artist>) returns (genres: seq<string>)
    ensures genres == Genres(artists)
    ensures |genres| <= MaxGenres && Distinct(genres)
  {
    genres := [];
    var i := 0;
    while i < |artists|
      invariant 0 <= i <= |artists|
      invariant ScanArtists(genres, artists[i..]) == Genres(artists)
    {
      var gs := artists[i].genres;
      ghost var start := genres;
      var j := 0;
      while j < |gs|
        invariant 0 <= j <= |gs|
        invariant ScanGenres(genres, gs[j..]) == ScanGenres(start, gs)
      {
        if |genres| < MaxGenres && gs[j] !in genres {
          genres := genres + [gs[j]];
        } else {
          assert genres == ScanGenres(start, gs);
          break;
        }
        j := j + 1;
      }
      assert genres == ScanGenres(start, gs);
      assert artists[i..][1..] == artists[i + 1..];
      i := i + 1;
    }
  }

  /** Python's `str.isspace()`: the characters `str.lstrip()` removes. */
  predicate IsSpace(c: char) {
    ('\t' <= c <= '\r') || ('\U{1C}' <= c <= ' ') || c == '\U{85}' || c == '\U{A0}'
    || c == '\U{1680}' || ('\U{2000}' <= c <= '\U{200A}') || c == '\U{2028}' || c == '\U{2029}'
    || c == '\U{202F}' || c == '\U{205F}' || c == '\U{3000}'
  }

  /** `" ".join(gs)` (main.py:195). */
  function JoinSpaces(gs: seq<string>): string {
    if gs == [] then ""
    else if |gs| == 1 then gs[0]
    else gs[0] + " " + JoinSpaces(gs[1..])
  }

  /** `s.lstrip()` (main.py:195): the suffix of s that starts at its first non-space character. */
  function LStrip(s: string): (r: string)
    ensures |r| <= |s| && r == s[|s| - |r|..]
    ensures forall i :: 0 <= i < |s| - |r| ==> IsSpace(s[i])
    ensures r != [] ==> !IsSpace(r[0])
  {
    if s != [] && IsSpace(s[0]) then LStrip(s[1..]) else s
  }

  /** `s.split(" ")`: the pieces of s between single spaces; always at least one piece. */
  function SplitSpaces(s: string): (r: seq<string>)
    ensures |r| >= 1
  {
    if s == [] then [""]
    else
      var rest := SplitSpaces(s[1..]);
      if s[0] == ' ' then [""] + rest else [[s[0]] + rest[0]] + rest[1..]
  }

  lemma {:induction false} SplitWithoutSpace(a: string)
    requires ' ' !in a
    ensures SplitSpaces(a) == [a]
  {
    if a != [] {
      SplitWithoutSpace(a[1..]);
      assert [a[0]] + a[1..] == a;
    }
  }

  lemma {:induction false} SplitAfterWord(a: string, b: string)
    requires ' ' !in a
    ensures SplitSpaces(a + " " + b) == [a] + SplitSpaces(b)
  {
    if a == [] {
      assert a + " " + b == [' '] + b;
      assert (a + " " + b)[1..] == b;
    } else {
      SplitAfterWord(a[1..], b);
      assert (a + " " + b)[1..] == a[1..] + " " + b;
      assert [a[0]] + a[1..] == a;
    }
  }

  /** Splitting the joined genres on spaces gives them back when no genre holds a space. */
  lemma {:induction false} JoinSplitRoundTrip(gs: seq<string>)
    requires gs != []
    requires forall g :: g in gs ==> ' ' !in g
    ensures SplitSpaces(JoinSpaces(gs)) == gs
  {
    if |gs| == 1 {
      SplitWithoutSpace(gs[0]);
    } else {
      JoinSplitRoundTrip(gs[1..]);
      SplitAfterWord(gs[0], JoinSpaces(gs[1..]));
    }
  }

  /** A genre that contains a space cannot be told apart from two genres once joined. */
  lemma JoinSpacesIsAmbiguous()
    ensures JoinSpaces(["hip hop"]) == JoinSpaces(["hip", "hop"])
  {
  }

  /** The seed of main.py:184-197, or the IndexError an empty history raises. */
  function SeedOf(artists: seq<Artist>, tracks: seq<Track>): Result<Seed, Failure> {
    if artists == [] then Failure(EmptyTopArtists)
    else if tracks == [] then Failure(EmptyTopTracks)
    else Success(Seed(artists[0].id, LStrip(JoinSpaces(Genres(artists))), tracks[0].id))
  }

  /**
   * The seed_genres string carries the collected genres: splitting it on spaces gives them
   * back, provided no genre contains a space and the first genre starts with a non-space.
   */
  lemma {:induction false} SeedGenresRecoverable(artists: seq<Artist>, tracks: seq<Track>)
    requires artists != [] && tracks != []
    requires forall k, g :: 0 <= k < |artists| && g in artists[k].genres ==> g != [] && ' ' !in g && !IsSpace(g[0])
    ensures var gs := Genres(artists);
      && SeedOf(artists, tracks).Success?
      && (gs == [] ==> SeedOf(artists, tracks).value.genres == "")
      && (gs != [] ==> SplitSpaces(SeedOf(artists, tracks).value.genres) == gs)
  {
    var gs := Genres(artists);
    GenresComeFromArtists([], artists);
    forall g | g in gs ensures ' ' !in g {
      var k :| 0 <= k < |artists| && g in artists[k].genres;
    }
    if gs != [] {
      assert gs[0] in gs;
      var k :| 0 <= k < |artists| && gs[0] in artists[k].genres;
      assert gs[0] != [] && !IsSpace(gs[0][0]);
      var j := JoinSpaces(gs);
      assert j[0] == gs[0][0] by {
        if |gs| > 1 { assert j == gs[0] + " " + JoinSpaces(gs[1..]); }
      }
      assert LStrip(j) == j;
      JoinSplitRoundTrip(gs);
    }
  }

  /** Every collected genre is a genre of some top artist. */
  lemma {:induction false} GenresComeFromArtists(acc: seq<string>, artists: seq<Artist>)
    ensures forall g :: g in ScanArtists(acc, artists) ==>
      g in acc || exists k :: 0 <= k < |artists| && g in artists[k].genres
    decreases |artists|
  {
    if artists != [] {
      var acc' := ScanGenres(acc, artists[0].genres);
      GenresComeFromArtists(acc', artists[1..]);
      forall g | g in ScanArtists(acc, artists)
        ensures g in acc || exists k :: 0 <= k < |artists| && g in artists[k].genres
      {
        if g in acc' && g !in acc {
          var r := acc';
          var i :| 0 <= i < |r| && r[i] == g;
          assert i >= |acc|;
          assert r[|acc|..][i - |acc|] == g;
          assert g in artists[0].genres;
        } else if g !in acc' {
          var k :| 0 <= k < |artists[1..]| && g in artists[1..][k].genres;
          assert g in artists[k + 1].genres;
        }
      }
    }
  }

  /** getTopItems (main.py:183-197) on the decoded top-artists and top-tracks responses. */
  method GetTopItems(artists: seq<Artist>, tracks: seq<Track>) returns (r: Result<Seed, Failure>)
    ensures r == SeedOf(artists, tracks)
    ensures r.Success? <==> artists != [] && tracks != []
    ensures r.Success? ==> r.value.artists == artists[0].id && r.value.tracks == tracks[0].id
  {
    if artists == [] {
      return Failure(EmptyTopArtists);
    }
    var seedArtist := artists[0].id;
    var genres := CollectGenres(artists);
    if tracks == [] {
      return Failure(EmptyTopTracks);
    }
    var seedTrack := tracks[0].id;
    r := Success(Seed(seedArtist, LStrip(JoinSpaces(genres)), seedTrack));
  }
}
