/**
 * The records the recommendation pipeline of main.py reads from provider responses and
 * the uniform item it produces. Each provider response is an input value of these types;
 * the JSON paths the source follows are named in the comments.
 */
module Records {
  import opened Wrappers

  /** An entry of the top-artists response: `items[k].id` and `items[k].genres`. */
  datatype Artist = Artist(id: string, genres: seq<string>)

  /** An entry of an album's `images` list: its `url`. */
  datatype Image = Image(url: string)

  /** A track's `album`: `external_urls.spotify` and `images`. */
  datatype Album = Album(spotifyUrl: string, images: seq<Image>)

  /**
   * An entry of the top-tracks or recommendations response: `id`, `name`, and `album`,
   * which is None when the key is absent from the track.
   */
  datatype Track = Track(id: string, name: string, album: Option<Album>)

  /**
   * An entry of a video search response: `id.videoId`, `snippet.title` and
   * `snippet.thumbnails.medium.url`.
   */
  datatype SearchHit = SearchHit(videoId: string, title: string, mediumThumbnailUrl: string)

  /** An entry of the subscriptions response: `snippet.resourceId.channelId`. */
  datatype Subscription = Subscription(channelId: string)

  /** The uniform recommendation record `{title, url, imageURL}` both providers produce. */
  datatype Item = Item(title: string, url: string, imageURL: string)

  /**
   * The exceptions the pipeline can raise on successful provider responses; each one
   * aborts the whole page request.
   */
  datatype Failure =
    | EmptyTopArtists     // IndexError at main.py:184
    | EmptyTopTracks      // IndexError at main.py:192
    | AlbumImageMissing   // IndexError at main.py:236: the album has fewer than two images
    | KeyError(key: string)

  function Min(a: int, b: int): int {
    if a < b then a else b
  }
}
