/** The embed URL the player screen loads: the video id is the part of the
    video's link after its last `/`, placed between the player base URL and
    the byline query. */
module Player {
  import opened Results
  import opened Videos

  const BaseUrl := "https://player.vimeo.com/video/"
  const EmbedQuery := "?byline=false"

  /** The index of the last occurrence of `c` in `s`. */
  function LastIndexOf(s: string, c: char): (r: Option<nat>)
    ensures r.Some? ==> r.value < |s| && s[r.value] == c
    ensures r.Some? ==> forall j :: r.value < j < |s| ==> s[j] != c
    ensures r.None? <==> c !in s
    decreases |s|
  {
    if |s| == 0 then None
    else if s[|s| - 1] == c then Some(|s| - 1)
    else LastIndexOf(s[..|s| - 1], c)
  }

  /** The id cut from a non-empty link, taken as a sequence of code points:
      the suffix after its last `/`, or, when it has none, the link without
      its first character. */
  function VideoId(link: string): (id: string)
    requires |link| > 0
    ensures '/' !in id
    ensures '/' in link ==> |id| < |link| && link[|link| - |id| - 1] == '/' && link[|link| - |id|..] == id
    ensures '/' !in link ==> id == link[1..]
  {
    var start := match LastIndexOf(link, '/') case Some(i) => i case None => 0;
    link[start + 1..]
  }

  /** A link made of any prefix, a `/` and a slash-free id yields that id. */
  lemma VideoIdOfPath(prefix: string, id: string)
    requires '/' !in id
    ensures VideoId(prefix + "/" + id) == id
  {
    var link := prefix + "/" + id;
    assert link[|prefix|] == '/';
    assert link[|link| - |id|..] == id;
  }

  /** The player page of the video with id `id`. */
  function EmbedUrl(id: string): string {
    BaseUrl + id + EmbedQuery
  }

  /** The page the player screen loads for its video. The screen traps when
      the video or its link is absent or the link is empty, so those are
      required; the link is taken as a sequence of code points. */
  function PlayerUrl(video: Option<Video>): (url: string)
    requires video.Some? && video.value.link.Some? && |video.value.link.value| > 0
    ensures |url| == |BaseUrl| + |VideoId(video.value.link.value)| + |EmbedQuery|
    ensures url[..|BaseUrl|] == BaseUrl
    ensures url[|url| - |EmbedQuery|..] == EmbedQuery
    ensures url[|BaseUrl|..|url| - |EmbedQuery|] == VideoId(video.value.link.value)
    ensures '/' !in url[|BaseUrl|..|url| - |EmbedQuery|]
  {
    EmbedUrl(VideoId(video.value.link.value))
  }

  /** The page for a video whose link ends in a slash-free id embeds exactly that id. */
  lemma PlayerUrlOfPath(prefix: string, id: string, upload: Option<UploadInfo>)
    requires '/' !in id
    ensures PlayerUrl(Some(Video(Some(prefix + "/" + id), upload))) == BaseUrl + id + EmbedQuery
  {
    VideoIdOfPath(prefix, id);
  }

  /** A link ending in `/` gives an empty id. */
  lemma TrailingSlashGivesEmptyId(link: string)
    requires |link| > 0 && link[|link| - 1] == '/'
    ensures VideoId(link) == ""
  {
  }
}
