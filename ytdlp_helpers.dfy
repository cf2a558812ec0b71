/**
 * ytdlp_helpers.py: reading the expiry out of a stream URL, defaulting request headers,
 * choosing an audio or video format from yt-dlp's list, trying player clients in order,
 * and assembling the audio/video info dicts. yt-dlp itself is the oracle `extract`,
 * which says for each player client what one `extract_info` call does.
 */
module YtdlpHelpers {
  import opened Wrappers
  import opened Text
  import opened UrlQuery
  import opened YtInfo
  import JavaHeaders

  const AndroidYtUa := "com.google.android.youtube/19.20.0 (Linux; U; Android 12) gzip"
  const AndroidWebUa := "Mozilla/5.0 (Linux; Android 12; Mobile) AppleWebKit/537.36 (KHTML, like Gecko) Chrome Mobile Safari/537.36"
  const AcceptLanguage := "en-US,en;q=0.9"
  const YoutubeReferer := "https://www.youtube.com"
  const KeepAlive := "keep-alive"

  /** `BASE_OPTS["http_headers"]` of both extract functions. */
  const BaseHeaders: Headers := map[
    "User-Agent" := AndroidYtUa,
    "Accept-Language" := AcceptLanguage,
    "Referer" := YoutubeReferer,
    "Connection" := KeepAlive]

  /** The player clients both extract functions try, in order. */
  const Clients: seq<string> := ["android", "web"]

  /** The defaults `py_headers_to_javamap` puts when missing, in its order. */
  const JavaMapDefaults: seq<(string, string)> := [
    ("User-Agent", AndroidWebUa),
    ("Referer", YoutubeReferer),
    ("Connection", KeepAlive),
    ("Accept-Language", AcceptLanguage)]

  // ------------------------------------------------------------ _parse_expire_ts

  /**
   * `_parse_expire_ts`: the integer value of the first `expire` query parameter, or None
   * when it is missing or `int()` would raise.
   */
  function ParseExpireTs(url: string): Option<int> {
    var params := ParseQs(Query(url));
    if "expire" in params && |params["expire"]| > 0 then ParseInt(params["expire"][0]) else None
  }

  /**
   * The result is decided by the first query pair named `expire`: None when there is no
   * such pair, otherwise `int()` of its value.
   */
  lemma ExpireIsFirstParameter(url: string)
    ensures var pairs := ParseQsl(Query(url));
      ((forall i :: 0 <= i < |pairs| ==> pairs[i].0 != "expire") ==> ParseExpireTs(url) == None)
      && (forall i :: 0 <= i < |pairs| && pairs[i].0 == "expire" && (forall j :: 0 <= j < i ==> pairs[j].0 != "expire") ==>
            ParseExpireTs(url) == ParseInt(pairs[i].1))
      && (ParseExpireTs(url).Some? ==>
        exists i :: 0 <= i < |pairs| && pairs[i].0 == "expire" && ParseInt(pairs[i].1) == ParseExpireTs(url) &&
          forall j :: 0 <= j < i ==> pairs[j].0 != "expire")
  {
    var pairs := ParseQsl(Query(url));
    GroupFirst(pairs, "expire");
    forall i | 0 <= i < |pairs| && pairs[i].0 == "expire" && (forall j :: 0 <= j < i ==> pairs[j].0 != "expire")
      ensures ParseExpireTs(url) == ParseInt(pairs[i].1)
    {
      var g := Group(pairs);
      var i0 :| 0 <= i0 < |pairs| && pairs[i0].0 == "expire" && g["expire"][0] == pairs[i0].1 &&
        forall j :: 0 <= j < i0 ==> pairs[j].0 != "expire";
      assert i0 == i;
    }
  }

  /** A field `expire=<digits>` parses to the pair ("expire", digits). */
  lemma ExpireFieldParses(digits: string)
    requires |digits| > 0
    requires forall k :: 0 <= k < |digits| ==> IsDigit(digits[k]) || digits[k] == '-'
    ensures ParseField("expire=" + digits) == Some(("expire", digits))
  {
    var field := "expire=" + digits;
    assert field[6] == '=';
    assert IndexOf(field, '=') == 6;
    assert field[..6] == "expire";
    assert field[7..] == digits;
    assert PlusToSpace("expire") == "expire";
    assert PlusToSpace(digits) == digits;
  }

  /** The first '&'-field of `field + rest` is `field` when `rest` is empty or starts a new field. */
  lemma FirstFieldOf(field: string, rest: string)
    requires forall k :: 0 <= k < |field| ==> field[k] != '&'
    requires rest == "" || rest[0] == '&'
    ensures SplitOn(field + rest, '&')[0] == field
  {
    if rest == "" {
      assert field + rest == field;
      SplitOnFree(field, '&');
    } else {
      assert field + rest == field + ['&'] + rest[1..];
      SplitOnCons(field, '&', rest[1..]);
    }
  }

  /**
   * The stream URLs YouTube hands out: `base?expire=<n>` possibly followed by further
   * `&`-parameters. The expiry read back is exactly `n`.
   */
  lemma ExpireOfBuiltUrl(base: string, n: int, rest: string)
    requires forall k :: 0 <= k < |base| ==> base[k] != '?' && base[k] != '#' && !IsUnsafe(base[k])
    requires forall k :: 0 <= k < |rest| ==> rest[k] != '#' && !IsUnsafe(rest[k])
    requires rest == "" || rest[0] == '&'
    ensures ParseExpireTs(base + "?expire=" + IntToString(n) + rest) == Some(n)
  {
    var digits := IntToString(n);
    var q := "expire=" + digits + rest;
    assert base + "?expire=" + digits + rest == base + "?" + q;
    ExpireQueryClean(digits, rest);
    QueryOfBuiltUrl(base, q);
    ExpireFirstPair(digits, rest);
    ParseIntOfIntToString(n);
  }

  /** An `expire=<digits>` query, followed by clean parameters, holds no '#' and nothing unsafe. */
  lemma ExpireQueryClean(digits: string, rest: string)
    requires forall k :: 0 <= k < |digits| ==> IsDigit(digits[k]) || digits[k] == '-'
    requires forall k :: 0 <= k < |rest| ==> rest[k] != '#' && !IsUnsafe(rest[k])
    ensures var q := "expire=" + digits + rest;
      forall k :: 0 <= k < |q| ==> q[k] != '#' && !IsUnsafe(q[k])
  {
    var field := "expire=" + digits;
    var q := field + rest;
    forall k | 0 <= k < |q| ensures q[k] != '#' && !IsUnsafe(q[k]) {
      if k < |field| {
        if k >= 7 { assert q[k] == digits[k - 7]; }
      } else {
        assert q[k] == rest[k - |field|];
      }
    }
  }

  /** In `expire=<digits>` followed by `&`-parameters, the first `expire` value is `digits`. */
  lemma ExpireFirstPair(digits: string, rest: string)
    requires |digits| > 0
    requires forall k :: 0 <= k < |digits| ==> IsDigit(digits[k]) || digits[k] == '-'
    requires rest == "" || rest[0] == '&'
    ensures var params := ParseQs("expire=" + digits + rest);
      "expire" in params && |params["expire"]| > 0 && params["expire"][0] == digits
  {
    var field := "expire=" + digits;
    forall k | 0 <= k < |field| ensures field[k] != '&' {
      if k >= 7 { assert field[k] == digits[k - 7]; }
    }
    FirstFieldOf(field, rest);
    ExpireFieldParses(digits);
    var pairs := ParseQsl(field + rest);
    assert pairs[0] == ("expire", digits);
    GroupFirst(pairs, "expire");
  }

  // -------------------------------------------------------- _best_effort_headers

  function SetDefault(h: Headers, k: string, v: string): Headers {
    if k in h then h else h[k := v]
  }

  /** The value `_best_effort_headers` computes; `src` None reads as `{}`. */
  function BestEffort(src: Option<Headers>, defaults: Headers): Headers {
    var ua := if "User-Agent" in defaults then defaults["User-Agent"] else AndroidWebUa;
    SetDefault(SetDefault(SetDefault(SetDefault(src.GetOr(map[]),
      "User-Agent", ua), "Accept-Language", AcceptLanguage), "Referer", YoutubeReferer), "Connection", KeepAlive)
  }

  /**
   * Every source entry is kept with its value; exactly the four standard headers are
   * added, each only when missing (User-Agent from `defaults`, else the web UA).
   */
  lemma BestEffortSpec(src: Option<Headers>, defaults: Headers)
    ensures var h := BestEffort(src, defaults);
      var s := src.GetOr(map[]);
      && h.Keys == s.Keys + {"User-Agent", "Accept-Language", "Referer", "Connection"}
      && (forall k :: k in s ==> h[k] == s[k])
      && ("User-Agent" !in s ==> h["User-Agent"] == (if "User-Agent" in defaults then defaults["User-Agent"] else AndroidWebUa))
      && ("Accept-Language" !in s ==> h["Accept-Language"] == AcceptLanguage)
      && ("Referer" !in s ==> h["Referer"] == YoutubeReferer)
      && ("Connection" !in s ==> h["Connection"] == KeepAlive)
  {
  }

  /** `_best_effort_headers`: `setdefault` on a copy; the caller's dict is a value and stays as it was. */
  method BestEffortHeaders(src: Option<Headers>, defaults: Headers) returns (headers: Headers)
    ensures headers == BestEffort(src, defaults)
  {
    headers := if src.Some? then src.value else map[];
    var ua := if "User-Agent" in defaults then defaults["User-Agent"] else AndroidWebUa;
    if "User-Agent" !in headers { headers := headers["User-Agent" := ua]; }
    if "Accept-Language" !in headers { headers := headers["Accept-Language" := AcceptLanguage]; }
    if "Referer" !in headers { headers := headers["Referer" := YoutubeReferer]; }
    if "Connection" !in headers { headers := headers["Connection" := KeepAlive]; }
  }

  // ---------------------------------------------------------- _pick_best_audio

  /** `x in (None, "none")`. */
  predicate NoneOrNoneString(x: Option<string>) {
    x.None? || x == Some("none")
  }

  /** `is_audio`: no video codec, some audio codec, and a url. */
  predicate IsAudio(f: Format) {
    NoneOrNoneString(f.vcodec) && !NoneOrNoneString(f.acodec) && Truthy(f.url)
  }

  /** First pass: an opus codec (any case) or a webm container. */
  predicate IsOpusOrWebmAudio(f: Format) {
    IsAudio(f) && (StartsWith(Lower(f.acodec.value), "opus") || f.ext == Some("webm"))
  }

  /** Second pass: a webm container. */
  predicate IsWebmAudio(f: Format) {
    IsAudio(f) && f.ext == Some("webm")
  }

  /** Third pass: an m4a container. */
  predicate IsM4aAudio(f: Format) {
    IsAudio(f) && f.ext == Some("m4a")
  }

  /** `_pick_best_audio`: four early-return passes over `formats`. */
  function PickBestAudio(formats: seq<Format>): (r: Option<Format>)
    ensures r.None? <==> forall j :: 0 <= j < |formats| ==> !IsAudio(formats[j])
    ensures r.Some? ==> IsAudio(r.value) && r.value in formats
    ensures (exists j :: 0 <= j < |formats| && IsOpusOrWebmAudio(formats[j])) ==>
      r == Some(formats[FirstWhere(formats, IsOpusOrWebmAudio)])
    ensures ((forall j :: 0 <= j < |formats| ==> !IsOpusOrWebmAudio(formats[j])) &&
             (exists j :: 0 <= j < |formats| && IsM4aAudio(formats[j]))) ==>
      r == Some(formats[FirstWhere(formats, IsM4aAudio)])
    ensures ((forall j :: 0 <= j < |formats| ==> !IsOpusOrWebmAudio(formats[j]) && !IsM4aAudio(formats[j])) &&
             (exists j :: 0 <= j < |formats| && IsAudio(formats[j]))) ==>
      r == Some(formats[FirstWhere(formats, IsAudio)])
  {
    if |formats| == 0 then None
    else
      var opus := Find(formats, IsOpusOrWebmAudio);
      if opus.Some? then opus
      else
        var webm := Find(formats, IsWebmAudio);
        if webm.Some? then webm
        else
          var m4a := Find(formats, IsM4aAudio);
          if m4a.Some? then m4a
          else Find(formats, IsAudio)
  }

  /** The dedicated webm pass never finds anything: every entry it accepts, the first pass accepted already. */
  lemma WebmPassIsSubsumed(formats: seq<Format>)
    ensures Find(formats, IsWebmAudio).Some? ==> Find(formats, IsOpusOrWebmAudio).Some?
  {
    if Find(formats, IsWebmAudio).Some? {
      var j := FirstWhere(formats, IsWebmAudio);
      assert IsOpusOrWebmAudio(formats[j]);
    }
  }

  // ---------------------------------------------------------- _pick_best_video

  /** First pass: a muxed mp4 with both codecs and a url. */
  predicate IsMuxedMp4(f: Format) {
    Truthy(f.url) && !NoneOrNoneString(f.vcodec) && !NoneOrNoneString(f.acodec) && f.ext == Some("mp4")
  }

  /** Second pass: an HLS playlist, `"m3u8" in (f.get("url") or "")`. */
  predicate IsHls(f: Format) {
    Contains(OrEmpty(f.url), "m3u8")
  }

  /** Third pass: any url with a video codec. */
  predicate HasVideo(f: Format) {
    Truthy(f.url) && !NoneOrNoneString(f.vcodec)
  }

  /** `_pick_best_video`: three early-return passes over `formats`. */
  function PickBestVideo(formats: seq<Format>): (r: Option<Format>)
    ensures (exists j :: 0 <= j < |formats| && IsMuxedMp4(formats[j])) ==>
      r == Some(formats[FirstWhere(formats, IsMuxedMp4)])
    ensures ((forall j :: 0 <= j < |formats| ==> !IsMuxedMp4(formats[j])) &&
             (exists j :: 0 <= j < |formats| && IsHls(formats[j]))) ==>
      r == Some(formats[FirstWhere(formats, IsHls)])
    ensures (forall j :: 0 <= j < |formats| ==> !IsMuxedMp4(formats[j]) && !IsHls(formats[j])) ==>
      r == Find(formats, HasVideo)
    ensures r.Some? ==> Truthy(r.value.url) && r.value in formats
  {
    if |formats| == 0 then None
    else
      var muxed := Find(formats, IsMuxedMp4);
      if muxed.Some? then muxed
      else
        var hls := Find(formats, IsHls);
        if hls.Some? then (assert OrEmpty(hls.value.url) != ""; hls)
        else Find(formats, HasVideo)
  }

  // ------------------------------------------------- _extract_info_with_clients

  /** The info dict of the first client whose call returns a dict. */
  function FirstDict(clients: seq<string>, extract: string -> Attempt): (r: Option<Info>)
    ensures r.Some? <==> exists i :: 0 <= i < |clients| && extract(clients[i]).GotDict?
    ensures r.Some? ==>
      exists i :: 0 <= i < |clients| && extract(clients[i]) == GotDict(r.value) &&
                  (forall j :: 0 <= j < i ==> !extract(clients[j]).GotDict?)
    decreases |clients|
  {
    if |clients| == 0 then None
    else if extract(clients[0]).GotDict? then Some(extract(clients[0]).info)
    else
      var r := FirstDict(clients[1..], extract);
      assert forall i :: 0 < i < |clients| ==> clients[i] == clients[1..][i - 1];
      r
  }

  /** The message of the last client whose call raised. */
  function LastRaised(clients: seq<string>, extract: string -> Attempt): Option<string>
    decreases |clients|
  {
    if |clients| == 0 then None
    else
      var last := extract(clients[|clients| - 1]);
      if last.Raised? then Some(last.message) else LastRaised(clients[..|clients| - 1], extract)
  }

  /** `LastRaised` is set exactly when some call raised. */
  lemma {:induction false} LastRaisedWhenSomeRaised(clients: seq<string>, extract: string -> Attempt)
    ensures LastRaised(clients, extract).Some? <==> exists i :: 0 <= i < |clients| && extract(clients[i]).Raised?
    decreases |clients|
  {
    if |clients| == 0 || extract(clients[|clients| - 1]).Raised? {
      return;
    }
    var n := |clients| - 1;
    var init := clients[..n];
    LastRaisedWhenSomeRaised(init, extract);
    assert forall i :: 0 <= i < n ==> init[i] == clients[i];
    if LastRaised(init, extract).None? {
      forall i | 0 <= i < |clients| ensures !extract(clients[i]).Raised? {
        if i < n {
          assert init[i] == clients[i];
        }
      }
    }
  }

  /** A message `LastRaised` returns is that of a call that raised with no later call raising. */
  lemma {:induction false} LastRaisedIsLast(clients: seq<string>, extract: string -> Attempt)
    ensures var r := LastRaised(clients, extract);
      r.Some? ==>
        exists i :: 0 <= i < |clients| && extract(clients[i]) == Raised(r.value) &&
                    (forall j :: i < j < |clients| ==> !extract(clients[j]).Raised?)
    decreases |clients|
  {
    if |clients| == 0 {
      return;
    }
    var n := |clients| - 1;
    if extract(clients[n]).Raised? {
      assert extract(clients[n]) == Raised(LastRaised(clients, extract).value);
      return;
    }
    var init := clients[..n];
    LastRaisedIsLast(init, extract);
    var r := LastRaised(init, extract);
    if r.Some? {
      var i :| 0 <= i < n && extract(init[i]) == Raised(r.value) &&
               (forall j :: i < j < n ==> !extract(init[j]).Raised?);
      assert forall j :: i < j < n ==> init[j] == clients[j];
      assert init[i] == clients[i];
    }
  }

  /**
   * `_extract_info_with_clients`: try the clients in order; the first dict wins and
   * comes back with no error; if none returns a dict, the result is None together with
   * the last exception raised (None when no call raised).
   */
  method ExtractInfoWithClients(clients: seq<string>, extract: string -> Attempt)
    returns (info: Option<Info>, lastErr: Option<string>)
    ensures info == FirstDict(clients, extract)
    ensures info.Some? ==> lastErr.None?
    ensures info.None? ==> lastErr == LastRaised(clients, extract)
  {
    lastErr := None;
    for i := 0 to |clients|
      invariant forall j :: 0 <= j < i ==> !extract(clients[j]).GotDict?
      invariant lastErr == LastRaised(clients[..i], extract)
    {
      assert clients[..i + 1][..i] == clients[..i];
      var attempt := extract(clients[i]);
      if attempt.GotDict? {
        info, lastErr := Some(attempt.info), None;
        ghost var found := FirstDict(clients, extract);
        ghost var k :| 0 <= k < |clients| && extract(clients[k]) == GotDict(found.value) &&
          forall j :: 0 <= j < k ==> !extract(clients[j]).GotDict?;
        assert k == i;
        return;
      }
      if attempt.Raised? {
        lastErr := Some(attempt.message);
      }
    }
    assert clients[..|clients|] == clients;
    info := None;
  }

  // ------------------------------------------------------- extract_audio_info

  datatype ExtractError =
    | NoMetadata     // "YouTube returned no metadata"
    | NoAudioFormat  // "no audio format found (only images)"

  /**
   * `extract_audio_info`: the top-level url when non-empty, otherwise the chosen audio
   * format's url and headers; an error when no client returned a non-empty dict or no
   * url was found; `expire_ts` is read from the final url.
   */
  method ExtractAudioInfo(extract: string -> Attempt) returns (r: Result<AudioInfo, ExtractError>)
    ensures var found := FirstDict(Clients, extract);
      (found.None? || IsEmptyDict(found.value)) ==> r == Failure(NoMetadata)
    ensures var found := FirstDict(Clients, extract);
      found.Some? && !IsEmptyDict(found.value) && Truthy(found.value.url) ==>
        r == Success(AudioInfo(found.value.url.value, OrEmpty(found.value.thumbnail),
          ParseExpireTs(found.value.url.value), BestEffort(found.value.httpHeaders, BaseHeaders)))
    ensures var found := FirstDict(Clients, extract);
      found.Some? && !IsEmptyDict(found.value) && !Truthy(found.value.url) ==>
        match PickBestAudio(FormatsOf(found.value))
        case None => r == Failure(NoAudioFormat)
        case Some(f) => r == Success(AudioInfo(f.url.value, OrEmpty(found.value.thumbnail),
          ParseExpireTs(f.url.value), BestEffort(f.httpHeaders, BaseHeaders)))
    ensures r.Success? ==> r.value.audioUrl != "" && r.value.expireTs == ParseExpireTs(r.value.audioUrl)
  {
    var found, err := ExtractInfoWithClients(Clients, extract);
    if found.None? || IsEmptyDict(found.value) {
      return Failure(NoMetadata);
    }
    var info := found.value;
    var url := OrEmpty(info.url);
    var fmts := FormatsOf(info);
    var headers := BestEffortHeaders(info.httpHeaders, BaseHeaders);
    if url == "" {
      var chosen := PickBestAudio(fmts);
      if chosen.Some? && Truthy(chosen.value.url) {
        url := chosen.value.url.value;
        headers := BestEffortHeaders(chosen.value.httpHeaders, BaseHeaders);
      }
    }
    if url == "" {
      return Failure(NoAudioFormat);
    }
    r := Success(AudioInfo(url, OrEmpty(info.thumbnail), ParseExpireTs(url), headers));
  }

  // ------------------------------------------------------- extract_video_info

  /** `_looks_playable`. */
  predicate LooksPlayable(u: string) {
    Contains(u, "googlevideo.com") || Contains(u, "m3u8") || EndsWith(u, ".mp4")
  }

  /**
   * `extract_video_info`: never raises. No dict gives `video_url` None with no headers and
   * no thumbnail. A top-level url that is empty or does not look playable is replaced by
   * the chosen video format's url and headers when there is one (and otherwise kept).
   * An empty url at the end gives `video_url` None with no headers.
   */
  method ExtractVideoInfo(extract: string -> Attempt) returns (v: VideoInfo)
    ensures var found := FirstDict(Clients, extract);
      (found.None? || IsEmptyDict(found.value)) ==> v == VideoInfo(None, map[], "")
    ensures var found := FirstDict(Clients, extract);
      found.Some? && !IsEmptyDict(found.value) ==>
        var info := found.value;
        var top := OrEmpty(info.url);
        var chosen := PickBestVideo(FormatsOf(info));
        v.thumb == OrEmpty(info.thumbnail) &&
        if top != "" && LooksPlayable(top) then
          v == VideoInfo(Some(top), BestEffort(info.httpHeaders, BaseHeaders), v.thumb)
        else if chosen.Some? then
          v == VideoInfo(Some(chosen.value.url.value), BestEffort(chosen.value.httpHeaders, BaseHeaders), v.thumb)
        else if top != "" then
          v == VideoInfo(Some(top), BestEffort(info.httpHeaders, BaseHeaders), v.thumb)
        else
          v == VideoInfo(None, map[], v.thumb)
    ensures v.videoUrl.Some? ==> v.videoUrl.value != ""
  {
    var found, err := ExtractInfoWithClients(Clients, extract);
    if found.None? || IsEmptyDict(found.value) {
      return VideoInfo(None, map[], "");
    }
    var info := found.value;
    var url := OrEmpty(info.url);
    var headers := BestEffortHeaders(info.httpHeaders, BaseHeaders);
    var fmts := FormatsOf(info);
    if url == "" || !LooksPlayable(url) {
      var chosen := PickBestVideo(fmts);
      if chosen.Some? && Truthy(chosen.value.url) {
        url := chosen.value.url.value;
        headers := BestEffortHeaders(chosen.value.httpHeaders, BaseHeaders);
      }
    }
    if url == "" {
      return VideoInfo(None, map[], OrEmpty(info.thumbnail));
    }
    v := VideoInfo(Some(url), headers, OrEmpty(info.thumbnail));
  }

  // ------------------------------------------------------ py_headers_to_javamap

  /**
   * `py_headers_to_javamap`: the non-empty entries of `headers`, then User-Agent (web UA),
   * Referer, Connection and Accept-Language where still missing.
   */
  method PyHeadersToJavaMap(headers: Option<Headers>) returns (m: Headers)
    ensures m == JavaHeaders.JavaMap(headers, JavaMapDefaults)
    ensures forall k :: k in m <==>
      (headers.Some? && k in headers.value && k != "" && headers.value[k] != "") ||
      k in {"User-Agent", "Referer", "Connection", "Accept-Language"}
    ensures forall k :: headers.Some? && k in headers.value && k != "" && headers.value[k] != "" ==>
      m[k] == headers.value[k]
  {
    m := JavaHeaders.ToJavaMap(headers, JavaMapDefaults);
    forall k ensures (k in m <==>
      (headers.Some? && k in headers.value && k != "" && headers.value[k] != "") ||
      k in {"User-Agent", "Referer", "Connection", "Accept-Language"})
      && (headers.Some? && k in headers.value && k != "" && headers.value[k] != "" ==> m[k] == headers.value[k])
    {
      JavaHeaders.JavaMapSpec(headers, JavaMapDefaults, k);
      if k in {"User-Agent", "Referer", "Connection", "Accept-Language"} {
        assert exists j :: 0 <= j < |JavaMapDefaults| && JavaMapDefaults[j].0 == k by {
          if k == "User-Agent" { assert JavaMapDefaults[0].0 == k; }
          else if k == "Referer" { assert JavaMapDefaults[1].0 == k; }
          else if k == "Connection" { assert JavaMapDefaults[2].0 == k; }
          else { assert JavaMapDefaults[3].0 == k; }
        }
      }
    }
  }
}
