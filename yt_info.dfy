/**
 * The records yt-dlp hands back, as far as the helpers read them. A Python dict key
 * that is absent and one whose value is None both read as None through `dict.get`.
 */
module YtInfo {
  import opened Wrappers

  /** HTTP headers, a Python `Dict[str, str]`. */
  type Headers = map<string, string>

  /** One entry of `info["formats"]`. */
  datatype Format = Format(
    url: Option<string>,
    vcodec: Option<string>,
    acodec: Option<string>,
    ext: Option<string>,
    httpHeaders: Option<Headers>)

  /**
   * The info dict of one video. `otherKeys` records whether the dict holds keys
   * besides the four read here, which decides whether the dict is empty (falsy).
   */
  datatype Info = Info(
    url: Option<string>,
    formats: Option<seq<Format>>,
    httpHeaders: Option<Headers>,
    thumbnail: Option<string>,
    otherKeys: bool)

  /** What one call of `YoutubeDL.extract_info` does: returns a dict, returns something else, or raises. */
  datatype Attempt = GotDict(info: Info) | GotOther | Raised(message: string)

  /** The dict `extract_audio_info` returns. */
  datatype AudioInfo = AudioInfo(audioUrl: string, thumb: string, expireTs: Option<int>, httpHeaders: Headers)

  /** The dict `extract_video_info` returns; `videoUrl` None is Python's None. */
  datatype VideoInfo = VideoInfo(videoUrl: Option<string>, httpHeaders: Headers, thumb: string)

  /** Python truthiness of an optional string: present and non-empty. */
  predicate Truthy(s: Option<string>) {
    s.Some? && s.value != ""
  }

  /** `s or ""`. */
  function OrEmpty(s: Option<string>): (r: string)
    ensures r != "" <==> Truthy(s)
  {
    if Truthy(s) then s.value else ""
  }

  /** Python truthiness of an optional dict of headers. */
  predicate TruthyHeaders(h: Option<Headers>) {
    h.Some? && |h.value| > 0
  }

  /** `not info` for an info dict. */
  predicate IsEmptyDict(info: Info) {
    info.url.None? && info.formats.None? && info.httpHeaders.None? && info.thumbnail.None? && !info.otherKeys
  }

  /** `info.get("formats") or []`. */
  function FormatsOf(info: Info): seq<Format> {
    info.formats.GetOr([])
  }

  /**
   * The early-return `for f in formats: if p(f): return f` loop: the index of the first
   * entry satisfying `p`, or |fs| when there is none.
   */
  function FirstWhere(fs: seq<Format>, p: Format -> bool): (i: nat)
    ensures i <= |fs|
    ensures i < |fs| ==> p(fs[i])
    ensures forall j :: 0 <= j < i ==> !p(fs[j])
    decreases |fs|
  {
    if |fs| == 0 then 0 else if p(fs[0]) then 0 else 1 + FirstWhere(fs[1..], p)
  }

  /** The entry `FirstWhere` finds, as the Python loop returns it (None when absent). */
  function Find(fs: seq<Format>, p: Format -> bool): (r: Option<Format>)
    ensures r.Some? <==> exists j :: 0 <= j < |fs| && p(fs[j])
    ensures r.Some? ==> p(r.value) && r.value == fs[FirstWhere(fs, p)]
  {
    var i := FirstWhere(fs, p);
    if i < |fs| then Some(fs[i]) else None
  }
}
