/**
 * The video side (main.py:288-408): subscriptions give channel ids; each channel's search
 * hits give up to three candidate videos that must all pass the category check; each
 * candidate gives up to two related videos, which become items.
 *
 * The three provider calls are parameters: search (the channel search response, per
 * channel id), categoryOk (the outcome of the category check, per video id) and related
 * (the related-video search response, per video id).
 */
module YouTube {
  import opened Wrappers
  import opened Records

  /** Search hits examined per channel (main.py:335). */
  const MaxCandidates := 3
  /** Related hits kept per candidate (main.py:384). */
  const MaxRelated := 2
  /** A channel is expanded only while fewer items than this have been collected (main.py:402). */
  const FeedCap := 5
  /** The most items the traversal can collect: four before the last expansion, then three candidates of two items. */
  const MaxYouTubeItems := FeedCap - 1 + MaxCandidates * MaxRelated
  /** The watch-page prefix of main.py:383. */
  const WatchPrefix := "https://www.youtube.com/watch?v="

  // ---------------------------------------------------------------- channel ids

  /** The channel ids of the subscriptions, in subscription order. */
  function ChannelIdsOf(subs: seq<Subscription>): seq<string> {
    seq(|subs|, i requires 0 <= i < |subs| => subs[i].channelId)
  }

  /** The `CHANNEL_ID_LIST` append loop of main.py:302-310. */
  method ChannelIdList(subs: seq<Subscription>) returns (ids: seq<string>)
    ensures |ids| == |subs|
    ensures forall i :: 0 <= i < |subs| ==> ids[i] == subs[i].channelId
    ensures ids == ChannelIdsOf(subs)
  {
    ids := [];
    var i := 0;
    while i < |subs|
      invariant 0 <= i <= |subs|
      invariant |ids| == i
      invariant forall k :: 0 <= k < i ==> ids[k] == subs[k].channelId
    {
      ids := ids + [subs[i].channelId];
      i := i + 1;
    }
  }

  // ---------------------------------------------------------------- channel candidates

  /** The video ids of the first min(3, n) search hits, the ones main.py:335-336 examines. */
  function Examined(hits: seq<SearchHit>): (ids: seq<string>)
    ensures |ids| == Min(MaxCandidates, |hits|)
    ensures forall i :: 0 <= i < |ids| ==> ids[i] == hits[i].videoId
  {
    var n := Min(MaxCandidates, |hits|);
    seq(n, i requires 0 <= i < n => hits[i].videoId)
  }

  /** The position of the first video that fails the category check, or |ids| when all pass. */
  function FirstRejected(ids: seq<string>, categoryOk: string -> bool): (k: nat)
    ensures k <= |ids|
    ensures forall i :: 0 <= i < k ==> categoryOk(ids[i])
    ensures k < |ids| ==> !categoryOk(ids[k])
    decreases |ids|
  {
    if ids == [] || !categoryOk(ids[0]) then 0
    else 1 + FirstRejected(ids[1..], categoryOk)
  }

  /**
   * What searchChannel returns (main.py:333-340): the examined ids in order when every one
   * passes the category check, and None as soon as one fails. All or nothing: no subset of
   * a batch is ever returned.
   */
  function Candidates(hits: seq<SearchHit>, categoryOk: string -> bool): (r: Option<seq<string>>)
    ensures r.Some? <==> forall i :: 0 <= i < Min(MaxCandidates, |hits|) ==> categoryOk(hits[i].videoId)
    ensures r.Some? ==> r.value == Examined(hits) && |r.value| <= MaxCandidates
  {
    var ids := Examined(hits);
    if FirstRejected(ids, categoryOk) == |ids| then Some(ids) else None
  }

  /**
   * The category checks searchChannel performs, in order: the examined ids up to and
   * including the first one that fails; no later hit is checked.
   */
  function CategoryLookups(hits: seq<SearchHit>, categoryOk: string -> bool): (r: seq<string>)
    ensures |r| <= |Examined(hits)| <= MaxCandidates && r == Examined(hits)[..|r|]
    ensures forall i :: 0 <= i < |r| - 1 ==> categoryOk(r[i])
    ensures Candidates(hits, categoryOk).Some? <==> r == Examined(hits) && forall i :: 0 <= i < |r| ==> categoryOk(r[i])
    ensures Candidates(hits, categoryOk).None? ==> r != [] && !categoryOk(r[|r| - 1])
  {
    var ids := Examined(hits);
    var k := FirstRejected(ids, categoryOk);
    if k < |ids| then ids[..k + 1] else ids
  }

  /**
   * searchChannel (main.py:314-342) on a successful search response: lookups is the
   * sequence of category checks (main.py:344-361) it issues.
   */
  method SearchChannel(hits: seq<SearchHit>, categoryOk: string -> bool)
    returns (videoIds: Option<seq<string>>, lookups: seq<string>)
    ensures videoIds == Candidates(hits, categoryOk)
    ensures lookups == CategoryLookups(hits, categoryOk)
  {
    var ids: seq<string> := [];
    lookups := [];
    var n := Min(MaxCandidates, |hits|);
    var i := 0;
    while i < n
      invariant 0 <= i <= n
      invariant ids == lookups == Examined(hits)[..i]
      invariant forall k :: 0 <= k < i ==> categoryOk(ids[k])
    {
      var videoId := hits[i].videoId;
      lookups := lookups + [videoId];
      if categoryOk(videoId) {
        ids := ids + [videoId];
      } else {
        assert FirstRejected(Examined(hits), categoryOk) == i;
        return None, lookups;
      }
      i := i + 1;
    }
    assert ids == Examined(hits);
    return Some(ids), lookups;
  }

  // ---------------------------------------------------------------- related videos

  /** The watch-page url of a video (main.py:389). */
  function WatchUrl(videoId: string): string {
    WatchPrefix + videoId
  }

  /** The video id a watch-page url names, if it is one. */
  function VideoIdOfWatchUrl(url: string): Option<string> {
    if |WatchPrefix| <= |url| && url[..|WatchPrefix|] == WatchPrefix then Some(url[|WatchPrefix|..]) else None
  }

  /** Every watch url names exactly the video it was built from, and only watch urls name a video. */
  lemma WatchUrlRoundTrip(videoId: string, url: string)
    ensures VideoIdOfWatchUrl(WatchUrl(videoId)) == Some(videoId)
    ensures VideoIdOfWatchUrl(url) == Some(videoId) <==> url == WatchUrl(videoId)
  {
  }

  /** The item main.py:385-390 builds from a related hit. */
  function HitItem(hit: SearchHit): Item {
    Item(hit.title, WatchUrl(hit.videoId), hit.mediumThumbnailUrl)
  }

  /** The items of the first min(2, n) related hits, in hit order. */
  function RelatedItems(hits: seq<SearchHit>): (items: seq<Item>)
    ensures |items| == Min(MaxRelated, |hits|) <= MaxRelated
    ensures forall i :: 0 <= i < |items| ==> VideoIdOfWatchUrl(items[i].url) == Some(hits[i].videoId)
  {
    var n := Min(MaxRelated, |hits|);
    var items := seq(n, i requires 0 <= i < n => HitItem(hits[i]));
    assert forall i :: 0 <= i < n ==> VideoIdOfWatchUrl(items[i].url) == Some(hits[i].videoId) by {
      forall i | 0 <= i < n ensures VideoIdOfWatchUrl(items[i].url) == Some(hits[i].videoId) {
        WatchUrlRoundTrip(hits[i].videoId, items[i].url);
      }
    }
    items
  }

  /**
   * searchRelatedVideo (main.py:363-395) on a successful search response, as evidently
   * intended: the items are collected in one list. The code itself initialises the key
   * "videos" and appends under "items"; SearchRelatedVideoAsWritten models that.
   */
  method SearchRelatedVideo(hits: seq<SearchHit>) returns (items: seq<Item>)
    ensures items == RelatedItems(hits)
  {
    items := [];
    var n := Min(MaxRelated, |hits|);
    for i := 0 to n
      invariant items == RelatedItems(hits)[..i]
    {
      var info := hits[i];
      items := items + [Item(info.title, WatchPrefix + info.videoId, info.mediumThumbnailUrl)];
    }
  }

  /** A dictionary with a single key, enough for `recommends` at main.py:382. */
  datatype Recommends = Recommends(key: string, items: seq<Item>)

  /** `d[key].append(x)`: a KeyError unless key is the dictionary's key. */
  function AppendUnder(d: Recommends, key: string, x: Item): (r: Result<Recommends, Failure>)
    ensures r.Success? <==> key == d.key
    ensures r.Success? ==> r.value.key == d.key && r.value.items == d.items + [x]
    ensures r.Failure? ==> r.error == KeyError(key)
  {
    if key == d.key then Success(Recommends(key, d.items + [x])) else Failure(KeyError(key))
  }

  /** `d[key]`: a KeyError unless key is the dictionary's key. */
  function Lookup(d: Recommends, key: string): (r: Result<seq<Item>, Failure>)
    ensures r.Success? <==> key == d.key
  {
    if key == d.key then Success(d.items) else Failure(KeyError(key))
  }

  /**
   * searchRelatedVideo exactly as main.py:381-393 writes it: the first append raises
   * KeyError('items'), and with no hits the caller's read of "items" (main.py:405) raises
   * it instead, so every call ends in a KeyError.
   */
  method SearchRelatedVideoAsWritten(hits: seq<SearchHit>) returns (r: Result<Recommends, Failure>)
    ensures hits != [] ==> r == Failure(KeyError("items"))
    ensures hits == [] ==> r == Success(Recommends("videos", []))
    ensures r.Success? ==> Lookup(r.value, "items") == Failure(KeyError("items"))
  {
    var recommends := Recommends("videos", []);
    var n := Min(MaxRelated, |hits|);
    for i := 0 to n
      invariant i == 0 && recommends == Recommends("videos", [])
    {
      var info := hits[i];
      var recommend := Item(info.title, WatchPrefix + info.videoId, info.mediumThumbnailUrl);
      match AppendUnder(recommends, "items", recommend)
      case Failure(e) => return Failure(e);
      case Success(d) => recommends := d;
    }
    r := Success(recommends);
  }

  // ---------------------------------------------------------------- traversal

  /** The related items of a batch of candidates, candidate after candidate (main.py:403-406). */
  function Expand(videoIds: seq<string>, related: string -> seq<SearchHit>): (items: seq<Item>)
    ensures |items| <= MaxRelated * |videoIds|
    decreases |videoIds|
  {
    if videoIds == [] then []
    else
      var last := |videoIds| - 1;
      Expand(videoIds[..last], related) + RelatedItems(related(videoIds[last]))
  }

  /**
   * The state a traversal ends in: the collected items, how many channels were searched
   * (a prefix of the channel list) and whether it left the loop by `break`.
   */
  datatype Walk = Walk(items: seq<Item>, searched: nat, stopped: bool)

  /**
   * The loop of main.py:400-407 from collected items acc: each channel is searched first;
   * it is expanded when fewer than five items are collected and its candidates are not
   * None, and otherwise the loop breaks.
   */
  function Traverse(channels: seq<string>, search: string -> seq<SearchHit>, categoryOk: string -> bool,
                    related: string -> seq<SearchHit>, acc: seq<Item>): (w: Walk)
    ensures |acc| <= |w.items| && w.items[..|acc|] == acc
    ensures |acc| <= MaxYouTubeItems ==> |w.items| <= MaxYouTubeItems
    ensures w.searched <= |channels|
    ensures w.stopped ==> 1 <= w.searched
    ensures !w.stopped ==> w.searched == |channels|
    decreases |channels|
  {
    if channels == [] then Walk(acc, 0, false)
    else
      var candidates := Candidates(search(channels[0]), categoryOk);
      if |acc| < FeedCap && candidates.Some? then
        var w := Traverse(channels[1..], search, categoryOk, related, acc + Expand(candidates.value, related));
        Walk(w.items, w.searched + 1, w.stopped)
      else Walk(acc, 1, true)
  }

  /**
   * No channel after the one the traversal stopped at is searched: any channel list that
   * agrees with this one on the searched channels, whatever follows them, gives the same
   * traversal.
   */
  lemma {:induction false} TraverseIgnoresLaterChannels(channels: seq<string>, channels': seq<string>,
      search: string -> seq<SearchHit>, categoryOk: string -> bool, related: string -> seq<SearchHit>, acc: seq<Item>)
    requires var w := Traverse(channels, search, categoryOk, related, acc);
      && w.stopped && w.searched <= |channels'|
      && forall j :: 0 <= j < w.searched ==> channels'[j] == channels[j]
    ensures Traverse(channels', search, categoryOk, related, acc) == Traverse(channels, search, categoryOk, related, acc)
    decreases |channels|
  {
    var w := Traverse(channels, search, categoryOk, related, acc);
    assert channels'[0] == channels[0];
    var candidates := Candidates(search(channels[0]), categoryOk);
    if |acc| < FeedCap && candidates.Some? {
      var acc' := acc + Expand(candidates.value, related);
      forall j | 0 <= j < w.searched - 1
        ensures channels'[1..][j] == channels[1..][j]
      {
        assert channels'[j + 1] == channels[j + 1];
      }
      TraverseIgnoresLaterChannels(channels[1..], channels'[1..], search, categoryOk, related, acc');
    }
  }

  /**
   * The responses for channels the traversal does not search cannot change it: two search
   * responses that agree on the searched channels give the same traversal.
   */
  lemma {:induction false} TraverseIgnoresUnsearchedResponses(channels: seq<string>,
      search: string -> seq<SearchHit>, search': string -> seq<SearchHit>, categoryOk: string -> bool,
      related: string -> seq<SearchHit>, acc: seq<Item>)
    requires var w := Traverse(channels, search, categoryOk, related, acc);
      forall j :: 0 <= j < w.searched ==> search(channels[j]) == search'(channels[j])
    ensures Traverse(channels, search', categoryOk, related, acc) == Traverse(channels, search, categoryOk, related, acc)
    decreases |channels|
  {
    if channels != [] {
      var w := Traverse(channels, search, categoryOk, related, acc);
      assert search(channels[0]) == search'(channels[0]);
      var candidates := Candidates(search(channels[0]), categoryOk);
      if |acc| < FeedCap && candidates.Some? {
        var acc' := acc + Expand(candidates.value, related);
        forall j | 0 <= j < w.searched - 1
          ensures search(channels[1..][j]) == search'(channels[1..][j])
        {
          assert channels[1..][j] == channels[j + 1];
        }
        TraverseIgnoresUnsearchedResponses(channels[1..], search, search', categoryOk, related, acc');
      }
    }
  }

  /**
   * When the first channel alone yields five or more items, the second channel is still
   * searched (its search precedes the count test at main.py:401-402) but not expanded, and
   * no further channel is searched.
   */
  lemma TraverseStopsOnceCapReached(channels: seq<string>, search: string -> seq<SearchHit>,
      categoryOk: string -> bool, related: string -> seq<SearchHit>)
    requires 2 <= |channels|
    requires Candidates(search(channels[0]), categoryOk).Some?
    requires FeedCap <= |Expand(Candidates(search(channels[0]), categoryOk).value, related)|
    ensures var w := Traverse(channels, search, categoryOk, related, []);
      && w.items == Expand(Candidates(search(channels[0]), categoryOk).value, related)
      && w.searched == 2 && w.stopped
  {
  }

  /**
   * A channel whose candidate batch is rejected ends the traversal: the walk keeps the items
   * of the channels before it and searches nothing after it.
   */
  lemma TraverseStopsAtRejectedChannel(channels: seq<string>, search: string -> seq<SearchHit>,
      categoryOk: string -> bool, related: string -> seq<SearchHit>, acc: seq<Item>)
    requires channels != [] && Candidates(search(channels[0]), categoryOk).None?
    ensures Traverse(channels, search, categoryOk, related, acc) == Walk(acc, 1, true)
  {
  }

  /** The nested loops of main.py:403-406: the related items of each candidate appended in order. */
  method AppendRelated(items: seq<Item>, videoIds: seq<string>, related: string -> seq<SearchHit>)
    returns (result: seq<Item>)
    ensures result == items + Expand(videoIds, related)
  {
    result := items;
    var k := 0;
    while k < |videoIds|
      invariant 0 <= k <= |videoIds|
      invariant result == items + Expand(videoIds[..k], related)
    {
      var recommendVideos := SearchRelatedVideo(related(videoIds[k]));
      var m := 0;
      while m < |recommendVideos|
        invariant 0 <= m <= |recommendVideos|
        invariant result == items + Expand(videoIds[..k], related) + recommendVideos[..m]
      {
        result := result + [recommendVideos[m]];
        m := m + 1;
      }
      assert videoIds[..k + 1][..k] == videoIds[..k];
      k := k + 1;
    }
    assert videoIds[..k] == videoIds;
  }

  /** The traversal of all channels ends as the traversal resumed at channel i from items. */
  ghost predicate ResumesAt(channels: seq<string>, i: nat, search: string -> seq<SearchHit>, categoryOk: string -> bool,
      related: string -> seq<SearchHit>, items: seq<Item>, w: Walk)
    requires i <= |channels|
  {
    var t := Traverse(channels[i..], search, categoryOk, related, items);
    t.items == w.items && i + t.searched == w.searched && t.stopped == w.stopped
  }

  /** One iteration of the traversal loop, at channel i: it expands the channel or ends the walk. */
  lemma ResumeStep(channels: seq<string>, i: nat, search: string -> seq<SearchHit>, categoryOk: string -> bool,
      related: string -> seq<SearchHit>, items: seq<Item>, w: Walk)
    requires i < |channels| && ResumesAt(channels, i, search, categoryOk, related, items, w)
    ensures var candidates := Candidates(search(channels[i]), categoryOk);
      if |items| < FeedCap && candidates.Some? then
        ResumesAt(channels, i + 1, search, categoryOk, related, items + Expand(candidates.value, related), w)
      else w.items == items && w.searched == i + 1 && w.stopped
  {
  }

  /**
   * getYoutubeRecommends (main.py:397-408) on successful responses: searched is the
   * sequence of channels searchChannel was called for.
   */
  method GetYoutubeRecommends(subs: seq<Subscription>, search: string -> seq<SearchHit>,
      categoryOk: string -> bool, related: string -> seq<SearchHit>)
    returns (items: seq<Item>, searched: seq<string>)
    ensures var w := Traverse(ChannelIdsOf(subs), search, categoryOk, related, []);
      items == w.items && searched == ChannelIdsOf(subs)[..w.searched]
    ensures |items| <= MaxYouTubeItems
  {
    var channels := ChannelIdList(subs);
    ghost var w := Traverse(channels, search, categoryOk, related, []);
    items, searched := [], [];
    var i := 0;
    assert channels[0..] == channels;
    while i < |channels|
      invariant 0 <= i <= |channels|
      invariant searched == channels[..i]
      invariant ResumesAt(channels, i, search, categoryOk, related, items, w)
    {
      var videoIds, lookups := SearchChannel(search(channels[i]), categoryOk);
      assert channels[..i + 1] == channels[..i] + [channels[i]];
      searched := searched + [channels[i]];
      ResumeStep(channels, i, search, categoryOk, related, items, w);
      if |items| < FeedCap && videoIds.Some? {
        items := AppendRelated(items, videoIds.value, related);
        i := i + 1;
      } else {
        i := i + 1;
        break;
      }
    }
    assert w.items == items && w.searched == i;
  }
}
