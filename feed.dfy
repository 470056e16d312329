/**
 * The page handler `index` (main.py:113-121): the music items are rendered, then the
 * video items, inside one div.
 */
module Feed {
  import opened Wrappers
  import opened Records
  import opened Spotify
  import opened YouTube

  /** One item's link card (main.py:44-57), without the template's style attribute and layout whitespace. */
  function Card(item: Item): string {
    "<a href='" + item.url + "'><img src=" + item.imageURL + "><span>" + item.title + "</span></a>"
  }

  /** getHTMLResponse (main.py:41-58): the cards of the items in order. */
  function Render(items: seq<Item>): string
    decreases |items|
  {
    if items == [] then "" else Card(items[0]) + Render(items[1..])
  }

  /** The card loop of getHTMLResponse (main.py:41-58): each item's card is appended in order. */
  method GetHTMLResponse(items: seq<Item>) returns (html: string)
    ensures html == Render(items)
  {
    html := "";
    var i := 0;
    while i < |items|
      invariant 0 <= i <= |items|
      invariant html == Render(items[..i])
    {
      RenderConcat(items[..i], [items[i]]);
      assert items[..i] + [items[i]] == items[..i + 1];
      assert Render([items[i]]) == Card(items[i]);
      html := html + Card(items[i]);
      i := i + 1;
    }
    assert items[..i] == items;
  }

  /** The combined feed: the music items followed by the video items, unchanged. */
  function CombinedFeed(music: seq<Item>, video: seq<Item>): (feed: seq<Item>)
    ensures |feed| == |music| + |video|
    ensures feed[..|music|] == music && feed[|music|..] == video
  {
    music + video
  }

  /** The page main.py:118-121 assembles from the two separately rendered lists. */
  function Page(music: seq<Item>, video: seq<Item>): string {
    "<div>" + Render(music) + Render(video) + "</div>"
  }

  lemma {:induction false} RenderConcat(a: seq<Item>, b: seq<Item>)
    ensures Render(a + b) == Render(a) + Render(b)
    decreases |a|
  {
    if a == [] {
      assert a + b == b;
    } else {
      RenderConcat(a[1..], b);
      assert (a + b)[0] == a[0];
      assert (a + b)[1..] == a[1..] + b;
    }
  }

  /**
   * Rendering the two lists one after the other is rendering the combined feed: the page
   * shows every music item, then every video item, with no deduplication or reordering.
   */
  lemma PageShowsCombinedFeed(music: seq<Item>, video: seq<Item>)
    ensures Page(music, video) == "<div>" + Render(CombinedFeed(music, video)) + "</div>"
  {
    RenderConcat(music, video);
  }

  lemma FeedOrderExample(m1: Item, m2: Item, v1: Item, v2: Item, v3: Item)
    ensures CombinedFeed([m1, m2], [v1, v2, v3]) == [m1, m2, v1, v2, v3]
  {
  }

  /**
   * index (main.py:113-121) on successful provider responses: the music side runs first and
   * an exception there aborts the request before any video call; otherwise the page shows
   * the music items followed by the video items. searched is the sequence of channels the
   * video side searched. The video side is the corrected searchRelatedVideo; as written, any
   * expanded non-empty batch raises KeyError (see SearchRelatedVideoAsWritten).
   */
  method Index(artists: seq<Artist>, topTracks: seq<Track>, recommend: Query -> seq<Track>,
      subs: seq<Subscription>, search: string -> seq<SearchHit>, categoryOk: string -> bool,
      related: string -> seq<SearchHit>)
    returns (page: Result<string, Failure>, searched: seq<string>)
    ensures SpotifyRecommendations(artists, topTracks, recommend).Failure? ==>
      page == Failure(SpotifyRecommendations(artists, topTracks, recommend).error) && searched == []
    ensures SpotifyRecommendations(artists, topTracks, recommend).Success? ==>
      var music := SpotifyRecommendations(artists, topTracks, recommend).value;
      var w := Traverse(ChannelIdsOf(subs), search, categoryOk, related, []);
      && page == Success("<div>" + Render(CombinedFeed(music, w.items)) + "</div>")
      && |w.items| <= MaxYouTubeItems
      && searched == ChannelIdsOf(subs)[..w.searched]
  {
    var spotifyRecommends := GetSpotifyRecommendations(artists, topTracks, recommend);
    if spotifyRecommends.Failure? {
      return Failure(spotifyRecommends.error), [];
    }
    var youtubeRecommends;
    youtubeRecommends, searched := GetYoutubeRecommends(subs, search, categoryOk, related);
    var html := "<div>";
    var musicCards := GetHTMLResponse(spotifyRecommends.value);
    html := html + musicCards;
    var videoCards := GetHTMLResponse(youtubeRecommends);
    html := html + videoCards;
    page := Success(html + "</div>");
    PageShowsCombinedFeed(spotifyRecommends.value, youtubeRecommends);
  }
}
