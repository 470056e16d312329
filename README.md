# Music and video recommendation pipeline — Dafny model

This project models the recommendation-derivation logic of a small web service (`main.py`). The service:

1. reads a listener's top artists and top tracks from a music-streaming API;
2. derives a seed from them (first artist, first track, and up to three genres);
3. turns the tracks that the recommendations endpoint returns for that seed into link items;
4. walks the viewer's video subscriptions channel by channel, as a bounded traversal, and collects related-video items;
5. renders the music items followed by the video items as one page.

Every provider response is an input value here: records with ids, names, genre lists, albums and image lists. A response that depends on an earlier result is a function parameter:

- `recommend`: the tracks returned for a query;
- `search`: the search hits of a channel;
- `categoryOk`: the outcome of the category check for a video;
- `related`: the related-video hits of a video.

The model is built from these modules:

- `Seeds` (`seeds.dfy`): the genre scan, with its inner `break`, as a specification function and as the loop `CollectGenres`; the space join and `lstrip`; the seed.
- `Spotify` (`spotify.dfy`): the track→item mapping as a specification function and as the loop `MapTracks`; the music side as a whole.
- `YouTube` (`youtube.dfy`):
  - channel-id extraction;
  - the all-or-nothing candidate batch of a channel, together with the category checks it issues;
  - the related-video items;
  - the traversal with its running count and `break`, as the function `Traverse` and as the loop method `GetYoutubeRecommends`.
- `Feed` (`feed.dfy`): rendering, the combined feed, and the page handler `Index`.
- `Records`, `Wrappers`: the shared records, the failure kinds, and `Option`/`Result`.

Each loop of main.py:43-57, 186-189, 231-237, 307-309, 335-339, 384-392 and 400-407 is a method whose `ensures` ties it to a specification function. Lemmas state what the source promises about the functions `Genres`, `SpotifyItems`, `Traverse` and `Render`. For `ChannelIdList` and `SearchRelatedVideo` the promise is stated in the `ensures` of the method or of `RelatedItems` itself.

## Behaviour as coded

Four behaviours of the code are easy to misread; the model follows the code in each:

- **Genre scan.** The `break` at main.py:189 leaves only the current artist's genre list, and scanning resumes with the next artist. It does not stop the whole scan. See `Seeds.ScanResumesAfterArtist` and `Seeds.BreakSkipsOnlyTheCurrentArtist`.
- **Rejected channel.** A channel whose candidate batch is rejected (`None`) ends the whole traversal through the `break` at main.py:407. The traversal does not skip that channel and move on. See `YouTube.TraverseStopsAtRejectedChannel`.
- **Stopping channel is still searched.** `searchChannel` runs for a channel before the count test (main.py:401-402). So when the cap is reached, one more channel is still searched, and its category checks are still issued, before the loop breaks. See `YouTube.TraverseStopsOnceCapReached`.
- **Failures abort the whole request.** An empty top-artists list, an empty top-tracks list, or an album with fewer than two images raises an IndexError. That aborts the whole page request: the video side never runs, so no channel is searched. It is not limited to the music side. See `Feed.Index`.

## Model

| member | source | states |
|---|---|---|
| `Seeds.ScanGenres` | main.py:187-189 | One artist's scan only appends. The collected list stays a prefix of the result. The appended genres are a prefix of the artist's list. The result keeps at most 3 entries and keeps them distinct. |
| `Seeds.ScanArtists` | main.py:186-189 | Scanning the artists in order only appends to the list. The result keeps the 3-entry bound and keeps the entries distinct. |
| `Seeds.Genres` | main.py:183-189 | The derived genre list has at most 3 entries, all distinct. |
| `Seeds.ScanGenresStopsAtFirstRejected` | main.py:187-189 | One artist's scan stops before the end of its list only at a genre that is already collected, or when the list is full. So it takes the longest run of new genres that fit. |
| `Seeds.ScanResumesAfterArtist` | main.py:186-189 | For every k, the full scan equals: scan the artists before k, then artist k's own scan (which may break), then resume with artist k+1. |
| `Seeds.BreakSkipsOnlyTheCurrentArtist` | main.py:186-189 | With artists [pop, pop, jazz] and [rock], the genres are [pop, rock]. The duplicate skips "jazz", but the second artist is still scanned. |
| `Seeds.GenresComeFromArtists` | main.py:186-188 | Every collected genre is a genre of one of the top artists. |
| `Seeds.CollectGenres` | main.py:183-189 | The nested loop with its inner `break` computes `Genres`: at most 3 distinct entries. |
| `Seeds.LStrip` | main.py:195 | `lstrip` returns the suffix of the string that begins at its first character that Python's `str.isspace` does not treat as whitespace. Everything removed is whitespace. |
| `Seeds.SplitSpaces` | main.py:195 | Splitting on single spaces always yields at least one piece. This is the inverse used for the join. |
| `Seeds.JoinSplitRoundTrip` | main.py:195 | Joining a non-empty genre list with single spaces and then splitting on spaces gives the list back, when no genre contains a space. |
| `Seeds.JoinSpacesIsAmbiguous` | main.py:195 | A genre that contains a space ("hip hop") joins to the same string as two genres ("hip", "hop"). |
| `Seeds.SeedGenresRecoverable` | main.py:193-197 | `seed_genres` carries exactly the collected genres: the string is empty when there are none, and otherwise splits back to them. This assumes genres are non-empty, contain no spaces, and do not start with whitespace. |
| `Seeds.GetTopItems` | main.py:183-197 | The seed is derived iff both lists are non-empty. An empty artist list fails first, then an empty track list. On success: seed_artists is the id of artist 0, seed_tracks is the id of track 0, and seed_genres is the stripped space join of `Genres`. |
| `Spotify.AlbumCount` | main.py:232 | The number of tracks that have an album is at most the number of tracks. |
| `Spotify.SpotifyItemsSucceeds` | main.py:231-237 | The mapping fails exactly when some track that has an album has fewer than 2 album images. |
| `Spotify.SpotifyItemsConcat` | main.py:231-237 | The mapping distributes over concatenating responses. The first failure wins; otherwise the items follow in response order. |
| `Spotify.SpotifyItemsCount` | main.py:230-237 | On success there is one item per track that has an album. So there are never more items than tracks. |
| `Spotify.SpotifyItemsPosition` | main.py:232-237 | On success, track i (if it has an album) becomes the item at position "number of album tracks before i". Its title is the track name, its url is the album's Spotify url, and its imageURL is `images[1].url`. |
| `Spotify.MapTracks` | main.py:230-238 | The append loop computes `SpotifyItems`: tracks without an album are skipped; a kept track with fewer than 2 images raises IndexError. Its length is at most the input length. |
| `Spotify.GetSpotifyRecommendations` | main.py:214-238 | The result is the mapping of the tracks the recommendations endpoint returns for the query with limit 10, market JP and the derived seed. Success implies both history lists were non-empty. |
| `Spotify.SeedExample` | main.py:183-197 | Artist A1 with genres [pop, rock] and top track T1 give the seed (A1, "pop rock", T1). |
| `Spotify.EndToEndExample` | main.py:214-238 | That seed, with two recommended tracks that have albums, yields exactly two items in response order, each using the album's second image. |
| `YouTube.ChannelIdList` | main.py:302-310 | The channel ids are extracted one per subscription, in subscription order. |
| `YouTube.Examined` | main.py:335-336 | The examined ids are the video ids of the first min(3, n) search hits, in order. |
| `YouTube.FirstRejected` | main.py:335-339 | Returns the first position whose video fails the category check: every earlier video passes, and the one at that position fails. |
| `YouTube.Candidates` | main.py:333-340 | All or nothing. The result is `Some` iff every one of the first min(3, n) hits passes the category check, and then it holds exactly those ids in order (at most 3). Otherwise it is `None`. |
| `YouTube.CategoryLookups` | main.py:335-339 | The category checks issued are a prefix of the examined ids, at most 3 of them. Every check before the last one passed. If the batch is rejected, the last check is the one that failed, and no later hit is checked. |
| `YouTube.SearchChannel` | main.py:330-340 | The loop returns the candidate batch (`Candidates`) and issues exactly the category checks in `CategoryLookups`. |
| `YouTube.WatchUrlRoundTrip` | main.py:383-389 | The watch url built from a video id names exactly that video, and a url names a video only if it is that video's watch url. |
| `YouTube.RelatedItems` | main.py:384-390 | There are exactly min(2, n) related items, at most 2, in hit order. Each item's url is the watch url of the hit's video id. |
| `YouTube.SearchRelatedVideo` | main.py:381-393 | The loop returns `RelatedItems`. This is the corrected form, which collects the items in one list. |
| `YouTube.AppendUnder` | main.py:392 | Appending under a key succeeds iff the key is the dictionary's key, and then adds exactly the item at the end. Otherwise it fails with KeyError for that key. |
| `YouTube.Lookup` | main.py:405 | Reading a key succeeds iff it is the dictionary's key. |
| `YouTube.SearchRelatedVideoAsWritten` | main.py:381-393 | As written, any hit makes the first append raise KeyError('items'). With no hits, the `{"videos": []}` dictionary comes back, and the caller's read of "items" raises the same KeyError. |
| `YouTube.Expand` | main.py:403-406 | The items that expanding a batch of candidates adds number at most 2 per candidate. |
| `YouTube.AppendRelated` | main.py:403-406 | The nested append loops add the related items of each candidate, candidate after candidate, in order. |
| `YouTube.Traverse` | main.py:398-407 | The traversal only appends to the collected items. The searched channels form a prefix of the channel list, and the walk stops only by `break` or at the end of the list. Starting from at most 10 items, it ends with at most 4 + 3·2 = 10. |
| `YouTube.TraverseIgnoresLaterChannels` | main.py:400-407 | Once the traversal breaks, the channels after the stopping one cannot change it: they are never searched. |
| `YouTube.TraverseIgnoresUnsearchedResponses` | main.py:400-402 | Search responses for channels that are not searched do not affect the traversal. |
| `YouTube.TraverseStopsOnceCapReached` | main.py:400-402 | When the first channel alone yields 5 or more items, the second channel is searched but not expanded, and nothing after it is searched. |
| `YouTube.TraverseStopsAtRejectedChannel` | main.py:401-407 | A rejected candidate batch ends the traversal with the items collected so far. |
| `YouTube.ResumeStep` | main.py:400-407 | Loop helper for `GetYoutubeRecommends`, not a property of its own: one iteration either expands the current channel and resumes with the next one, or ends the walk at this channel. |
| `YouTube.GetYoutubeRecommends` | main.py:397-408 | The loop's items are the items `Traverse` collects over the subscriptions' channel ids, at most 10 of them. The channels it searches are exactly the searched prefix. This uses the corrected `searchRelatedVideo`; see Findings. |
| `Feed.GetHTMLResponse` | main.py:41-58 | The card loop appends one card per item, in item order. Its result is `Render(items)`, which `RenderConcat` shows distributes over concatenation. |
| `Feed.CombinedFeed` | main.py:118-121 | The feed is the music items followed by the video items, each list unchanged. |
| `Feed.RenderConcat` | main.py:41-58 | Rendering a concatenation renders the two lists one after the other. |
| `Feed.PageShowsCombinedFeed` | main.py:118-121 | The page built from the two separately rendered lists is the rendering of the combined feed. There is no deduplication and no reordering. |
| `Feed.FeedOrderExample` | main.py:118-121 | Music items [m1, m2] and video items [v1, v2, v3] give exactly [m1, m2, v1, v2, v3]. |
| `Feed.Index` | main.py:113-121 | The music side runs first. If it fails, the request fails with that error and no channel is searched (the returned search trace is empty). Otherwise the page shows the music items followed by the traversal's video items (at most 10), and the channels searched are exactly the traversal's searched prefix of the subscriptions' channel ids. The video side uses the corrected `searchRelatedVideo`; see Findings. As written, any expanded non-empty batch raises KeyError. |

The rows above reduce to these reference definitions, which carry no contract of their own:

- `Seeds.SeedOf` (main.py:184-197): the seed, or the failure for an empty list.
- `Seeds.JoinSpaces` (main.py:195): `" ".join`.
- `Seeds.IsSpace` (main.py:195): the whitespace set of Python's `str.isspace`, which `lstrip` removes.
- `Spotify.SpotifyItems` (main.py:231-237): the track→item mapping.
- `Spotify.TrackItem` (main.py:233-236): the item of one track, using the album's `images[1]`.
- `Spotify.SpotifyRecommendations` (main.py:200-238): the whole music side.
- `YouTube.ChannelIdsOf` (main.py:307-309): one channel id per subscription.
- `YouTube.WatchUrl` and `YouTube.HitItem` (main.py:385-390): the watch url and the item built from a hit.
- `Feed.Render` (main.py:41-58): the cards of the items, in order.
- `Feed.Card` (main.py:43-57): one item's link card, with the url, the image and the title in the template's order.
- `Feed.Page` (main.py:118-121): the two separately rendered lists inside one div.

The remaining definitions are proof vocabulary and model no source code. They are `Seeds.Distinct`, `Records.Min`, `Spotify.Then`, `Spotify.Prepend`, `YouTube.VideoIdOfWatchUrl` (the inverse of `WatchUrl`) and `YouTube.ResumesAt`.

## Left out

- OAuth flows and token exchange (main.py:61-111, 124-145, 240-286) are left out: they are network I/O and redirects.
- `.env` persistence (`set_key`, `os.getenv`) and the request headers built from it are left out: ambient process state.
- HTTP requests and JSON decoding are left out. Provider responses are inputs that are already decoded and successful.
- Non-success statuses are out of scope, because the code mishandles them:
  - "Fail To Get Spotify Top Info." is truthy at main.py:215, and the code then indexes into it.
  - "Error at get subscriptions" is iterated at main.py:400.
  - "Error at search channel" is not `None` at main.py:402.
  - "Error at search related videos" is a string, so `recommendVideos["items"]` at main.py:405 raises TypeError.
- The recommendations response is used without any status check (main.py:227-229), so the model takes it as successful.
- The `None`-argument guards at main.py:315, 345 and 364 are left out, because the pipeline never passes `None` there.
- The body of `checkVideoCategory` (main.py:344-361) is replaced by the given per-video boolean `categoryOk`. As written, the body indexes the `items` list as a dictionary, and it compares the string `categoryId` with the integer 10.
- `urlParamCombiner` (main.py:36-39) and the query parameters of the abstracted calls (top-items `time_range`/`limit`/`offset`, subscriptions `maxResults` 20, search `videoCategoryId` 10, related `maxResults` 10) are left out. They belong to the provider calls, which are parameters here. The recommendations query keeps its limit 10 and market "JP".
- The HTML template's style attribute and layout whitespace (main.py:44-54) are left out. `Card` keeps the url, the image and the title, in the template's order.
- async/await is left out: the calls are sequential, and the model runs them in order.
- `YouTube.GetYoutubeRecommends` does not record the related-video searches it issues. Only the channel searches are recorded, and per channel, `YouTube.SearchChannel` records the category checks.

## Findings

| source | as written | input that shows it | evidently intended | confidence | as-written member | corrected member |
|---|---|---|---|---|---|---|
| main.py:382-392 | `recommends` starts as `{"videos": []}`, but each item is appended to `recommends["items"]`, and the caller reads `recommendVideos["items"]` at main.py:405 | any related-video response with at least one hit (KeyError at main.py:392); an empty response (KeyError at main.py:405) | return the at most two items in one list under "items" | high (not executed) | `YouTube.SearchRelatedVideoAsWritten` | `YouTube.SearchRelatedVideo` |
