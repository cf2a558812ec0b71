/**
 * The decision rules of audio_screen.py that the AudioPlayerScreen methods apply, as
 * functions over values: the debounce window, playlist index stepping, ref
 * normalisation, the expiry-refresh delay, the screen's own stall watchdog, the
 * audio-focus reaction, `_fmt_ms`, and the module helpers `_parse_expire_ts`,
 * `_py_headers_to_javamap` and `_extract_audio_info`. Times are integers: milliseconds
 * for the debounce and the watchdog, seconds for the expiry.
 */
module ScreenRules {
  import opened Wrappers
  import opened Text
  import opened UrlQuery
  import opened YtInfo
  import JavaHeaders
  import YtdlpHelpers
  import opened StreamRecovery

  // ---------------------------------------------------------------- _debounce

  /** `_debounce`'s default `min_dt` of 0.30 s. */
  const DebounceMs := 300

  predicate DebounceAccepts(lastActionTs: int, now: int) {
    now - lastActionTs >= DebounceMs
  }

  /** Which of the presses at `nows` a run of `_debounce` calls accepts, from last-accepted time `last`. */
  function DebounceRun(last: int, nows: seq<int>): (accepted: seq<bool>)
    ensures |accepted| == |nows|
    decreases |nows|
  {
    if |nows| == 0 then []
    else
      var ok := DebounceAccepts(last, nows[0]);
      [ok] + DebounceRun(if ok then nows[0] else last, nows[1..])
  }

  /** No press is accepted sooner than 300 ms after the last accepted time. */
  lemma {:induction false} DebounceAcceptedAfterWindow(last: int, nows: seq<int>, j: nat)
    requires j < |nows| && DebounceRun(last, nows)[j]
    ensures nows[j] >= last + DebounceMs
    decreases j
  {
    var ok := DebounceAccepts(last, nows[0]);
    if j > 0 {
      assert DebounceRun(last, nows)[j] == DebounceRun(if ok then nows[0] else last, nows[1..])[j - 1];
      DebounceAcceptedAfterWindow(if ok then nows[0] else last, nows[1..], j - 1);
    }
  }

  /** Two accepted presses are at least 300 ms apart, whatever the order of the clock readings. */
  lemma {:induction false} DebounceAcceptedApart(last: int, nows: seq<int>, i: nat, j: nat)
    requires i < j < |nows|
    requires DebounceRun(last, nows)[i] && DebounceRun(last, nows)[j]
    ensures nows[j] - nows[i] >= DebounceMs
    decreases i
  {
    var ok := DebounceAccepts(last, nows[0]);
    var next := if ok then nows[0] else last;
    assert DebounceRun(last, nows)[j] == DebounceRun(next, nows[1..])[j - 1];
    if i > 0 {
      assert DebounceRun(last, nows)[i] == DebounceRun(next, nows[1..])[i - 1];
      DebounceAcceptedApart(next, nows[1..], i - 1, j - 1);
    } else {
      DebounceAcceptedAfterWindow(next, nows[1..], j - 1);
    }
  }

  // ------------------------------------------------------ playlist navigation

  /** `_play_next_in_playlist`'s index step; an empty playlist keeps the index. */
  function NextIndex(i: int, n: nat): (r: int)
    ensures n > 0 && 0 <= i < n ==> 0 <= r < n && r == (i + 1) % n
    ensures n > 0 && i == n - 1 ==> r == 0
  {
    if n == 0 then i else if i + 1 >= n then 0 else i + 1
  }

  /** `_play_prev_in_playlist`'s index step; an empty playlist keeps the index. */
  function PrevIndex(i: int, n: nat): (r: int)
    ensures n > 0 && 0 <= i < n ==> 0 <= r < n && r == (i - 1) % n
    ensures n > 0 && i == 0 ==> r == n - 1
  {
    if n == 0 then i else if i - 1 < 0 then n - 1 else i - 1
  }

  /** The index `_play_current_index` reads: `max(0, min(i, n - 1))`. */
  function ClampIndex(i: int, n: nat): (r: nat)
    requires n > 0
    ensures r < n
    ensures 0 <= i < n ==> r == i
    ensures i < 0 ==> r == 0
    ensures i >= n ==> r == n - 1
  {
    if i < 0 then 0 else if i > n - 1 then n - 1 else i
  }

  /** Stepping back undoes stepping forward, and the other way round. */
  lemma PrevUndoesNext(i: int, n: nat)
    requires 0 <= i < n
    ensures PrevIndex(NextIndex(i, n), n) == i
    ensures NextIndex(PrevIndex(i, n), n) == i
  {
  }

  function NextTimes(i: int, n: nat, k: nat): int
    decreases k
  {
    if k == 0 then i else NextIndex(NextTimes(i, n, k - 1), n)
  }

  /** `k` presses of next from index `i` land on `(i + k) mod n`: the playlist is a ring. */
  lemma {:induction false} NextTimesWraps(i: int, n: nat, k: nat)
    requires 0 <= i < n
    ensures NextTimes(i, n, k) == (i + k) % n
    decreases k
  {
    if k > 0 {
      var a: nat := i + k - 1;
      NextTimesWraps(i, n, k - 1);
      var j := NextTimes(i, n, k - 1);
      assert j == a % n;
      assert 0 <= j < n;
      assert NextTimes(i, n, k) == (j + 1) % n;
      ModSucc(a, n);
    }
  }

  /** `a % n` is the `r` of any `a == q * n + r` with `0 <= r < n`. */
  lemma ModUnique(a: int, n: int, q: int, r: int)
    requires n > 0 && 0 <= r < n && a == q * n + r
    ensures a % n == r
  {
    var q0, r0 := a / n, a % n;
    assert a == q0 * n + r0;
    var d := q - q0;
    assert d * n == q * n - q0 * n;
    assert d * n == r0 - r;
  }

  lemma ModSucc(a: nat, n: nat)
    requires n > 0
    ensures (a % n + 1) % n == (a + 1) % n
  {
    var q := a / n;
    assert a == q * n + a % n;
    if a % n + 1 == n {
      assert a + 1 == (q + 1) * n + 0;
      ModUnique(a + 1, n, q + 1, 0);
      ModUnique(a % n + 1, n, 1, 0);
    } else {
      ModUnique(a + 1, n, q, a % n + 1);
      ModUnique(a % n + 1, n, 0, a % n + 1);
    }
  }

  // ------------------------------------------------------------ play_playlist

  const WatchPrefix := "https://www.youtube.com/watch?v="

  /** One `play_playlist` ref: None or "" reads as "", and a ref not starting with "http" gets the watch prefix. */
  function Normalize(u: Option<string>): (r: string)
    ensures StartsWith(r, "http")
    ensures u.Some? && StartsWith(u.value, "http") ==> r == u.value
    ensures !(u.Some? && StartsWith(u.value, "http")) ==> r == WatchPrefix + u.GetOr("")
  {
    var s := u.GetOr("");
    if StartsWith(s, "http") then s else WatchPrefix + s
  }

  /** Normalising twice changes nothing more. */
  lemma NormalizeIdempotent(u: Option<string>)
    ensures Normalize(Some(Normalize(u))) == Normalize(u)
  {
  }

  /** A playlist entry as handed in: `(url, title, channel)`. */
  datatype RawTrack = RawTrack(url: Option<string>, title: Option<string>, channel: Option<string>)

  /** A stored playlist entry with its normalised url. */
  datatype Track = Track(url: string, title: Option<string>, channel: Option<string>)

  /** The loop of `play_playlist`: same count and order, each url normalised, titles untouched. */
  method NormalizeTracks(tracks: seq<RawTrack>) returns (norm: seq<Track>)
    ensures |norm| == |tracks|
    ensures forall i :: 0 <= i < |tracks| ==>
      norm[i] == Track(Normalize(tracks[i].url), tracks[i].title, tracks[i].channel)
  {
    norm := [];
    for i := 0 to |tracks|
      invariant |norm| == i
      invariant forall k :: 0 <= k < i ==>
        norm[k] == Track(Normalize(tracks[k].url), tracks[k].title, tracks[k].channel)
    {
      var u := tracks[i].url.GetOr("");
      if !StartsWith(u, "http") {
        u := WatchPrefix + u;
      }
      norm := norm + [Track(u, tracks[i].title, tracks[i].channel)];
    }
  }

  // ---------------------------------------------------------------- on_error

  /** `on_error` restarts while the incremented count is at most 3. */
  const MaxRetries := 3

  /** How many of `k` consecutive `on_error` calls restart, from count `cnt`. */
  function Restarts(cnt: nat, k: nat): nat
    decreases k
  {
    if k == 0 then 0 else (if cnt + 1 <= MaxRetries then 1 else 0) + Restarts(cnt + 1, k - 1)
  }

  /** From the count `play_audio` resets to, `k` errors restart `min(k, 3)` times: never more than 3. */
  lemma {:induction false} RestartsBounded(cnt: nat, k: nat)
    requires cnt <= MaxRetries
    ensures Restarts(cnt, k) == (if cnt + k <= MaxRetries then k else MaxRetries - cnt)
    decreases k
  {
    if k > 0 {
      if cnt + 1 <= MaxRetries {
        RestartsBounded(cnt + 1, k - 1);
      } else {
        RestartsNone(cnt + 1, k - 1);
      }
    }
  }

  lemma {:induction false} RestartsNone(cnt: nat, k: nat)
    requires cnt >= MaxRetries
    ensures Restarts(cnt, k) == 0
    decreases k
  {
    if k > 0 {
      RestartsNone(cnt + 1, k - 1);
    }
  }

  // ------------------------------------------------ _schedule_expire_refresh

  /** Seconds before expiry the refresh aims for, and the shortest delay. */
  const RefreshLeadSec := 60
  const MinRefreshDelaySec := 5

  /**
   * `_schedule_expire_refresh`: no refresh without an expiry (None or 0); otherwise a
   * delay of `max(5, expire - now - 60)` seconds.
   */
  function ExpireRefreshDelay(expireTs: Option<int>, nowSec: int): (delay: Option<int>)
    ensures delay.None? <==> expireTs.None? || expireTs.value == 0
    ensures delay.Some? ==> delay.value >= MinRefreshDelaySec
    ensures delay.Some? ==> nowSec + delay.value >= expireTs.value - RefreshLeadSec
    ensures delay.Some? && expireTs.value - nowSec - RefreshLeadSec > MinRefreshDelaySec ==>
      nowSec + delay.value == expireTs.value - RefreshLeadSec
  {
    if expireTs.None? || expireTs.value == 0 then None
    else
      var d := expireTs.value - nowSec - RefreshLeadSec;
      Some(if d > MinRefreshDelaySec then d else MinRefreshDelaySec)
  }

  // ------------------------------------------------------- _watchdog_tick

  /**
   * `_watchdog_tick`, over the same state and outcome as the recovery loop: `st` None
   * is "no player"; `pos` is already `getCurrentPosition() or 0` and `dur`
   * `getDuration() or 1`. A pass issues no callback, a stream refresh, or a restart of
   * the paused player (`Resume`).
   */
  function WatchdogStep(w: Watch, userPaused: bool, st: Option<PlayerState>, netOk: bool, now: int)
    : (o: Outcome)
    ensures st.None? ==> o == Outcome(w, NoCallback)
    ensures st.Some? && !netOk ==>
      o == Outcome(
        Watch(w.lastPos, if w.stallTs.None? then Some(now) else w.stallTs), NoCallback)
    ensures st.Some? && netOk ==> o.watch.lastPos == st.value.pos
    ensures o.callback == Refresh <==>
      st.Some? && netOk && st.value.playing && st.value.pos == w.lastPos && !userPaused &&
      w.stallTs.Some? && now - w.stallTs.value >= StallMs
    ensures o.callback == Resume <==>
      st.Some? && netOk && !st.value.playing && !userPaused && 0 < st.value.pos < st.value.dur - EndMarginMs
    ensures o.callback == Refresh ==> o.watch.stallTs.None?
    ensures st.Some? && netOk && st.value.playing && st.value.pos != w.lastPos ==> o.watch.stallTs.None?
    ensures st.Some? && netOk && !st.value.playing ==> o.watch.stallTs == w.stallTs
    // the first stuck pass records when the stall started, whatever the user pause
    ensures st.Some? && netOk && st.value.playing && st.value.pos == w.lastPos && w.stallTs.None? ==>
      o.watch.stallTs == Some(now)
    // the stall start is never moved: it is kept, cleared or set to now
    ensures o.watch.stallTs == w.stallTs || o.watch.stallTs.None? || o.watch.stallTs == Some(now)
  {
    match st
    case None => Outcome(w, NoCallback)
    case Some(PlayerState(pos, dur, playing)) =>
      if !netOk then
        Outcome(
          Watch(w.lastPos, if w.stallTs.None? then Some(now) else w.stallTs), NoCallback)
      else if playing then
        if w.lastPos == pos then
          if w.stallTs.None? then Outcome(Watch(pos, Some(now)), NoCallback)
          else if now - w.stallTs.value >= StallMs && !userPaused then
            Outcome(Watch(pos, None), Refresh)
          else Outcome(Watch(pos, w.stallTs), NoCallback)
        else Outcome(Watch(pos, None), NoCallback)
      else
        Outcome(Watch(pos, w.stallTs),
          if !userPaused && 0 < pos < dur - EndMarginMs then Resume
          else NoCallback)
  }

  /** On integers the screen's `0 < pos < dur - 1500` and the loop's `max(1, dur - 1500)` bound agree. */
  lemma ResumeBoundsAgree(pos: int, dur: int)
    ensures (0 < pos < dur - EndMarginMs) <==> ShouldResume(pos, dur)
  {
  }

  /**
   * Without a user pause the screen's watchdog and StreamRecovery's loop make the same
   * decision and keep the same state, pass for pass.
   */
  lemma WatchdogMatchesRecovery(w: Watch, st: Option<PlayerState>, netOk: bool, now: int)
    ensures WatchdogStep(w, false, st, netOk, now) == Step(w, false, st, netOk, now)
  {
    if st.Some? {
      ResumeBoundsAgree(st.value.pos, st.value.dur);
    }
  }

  /**
   * Under a user pause they differ: the screen neither refreshes a stuck stream nor
   * forgets a stall while stopped, and the loop does both.
   */
  lemma WatchdogUnderUserPause(w: Watch, st: PlayerState, now: int)
    requires w.stallTs.Some?
    ensures st.playing && st.pos == w.lastPos && now - w.stallTs.value >= StallMs ==>
      WatchdogStep(w, true, Some(st), true, now).callback == NoCallback &&
      Step(w, true, Some(st), true, now).callback == Refresh
    ensures !st.playing ==>
      WatchdogStep(w, true, Some(st), true, now).watch.stallTs == w.stallTs &&
      Step(w, true, Some(st), true, now).watch.stallTs.None?
  {
  }

  // ------------------------------------------------- onAudioFocusChange

  // android.media.AudioManager constants
  const AudioFocusGain := 1
  const AudioFocusLoss := -1
  const AudioFocusLossTransient := -2

  /** What a focus change does to the player. */
  datatype FocusEffect = StartPlayer | PausePlayer | NoEffect

  /** The fields a focus change may touch and what it asks of the player. */
  datatype FocusOutcome = FocusOutcome(effect: FocusEffect, userPaused: bool, hasAf: bool)

  /**
   * `AFChangeListener.onAudioFocusChange`: a gain restarts a stopped player unless the
   * user paused; a loss or transient loss pauses a playing player and marks it user
   * paused; only a permanent loss drops `_has_af`.
   */
  function FocusStep(change: int, hasPlayer: bool, enginePlaying: bool, userPaused: bool, hasAf: bool): (o: FocusOutcome)
    ensures o.effect == StartPlayer <==> change == AudioFocusGain && hasPlayer && !enginePlaying && !userPaused
    ensures o.effect == PausePlayer <==>
      (change == AudioFocusLoss || change == AudioFocusLossTransient) && hasPlayer && enginePlaying
    ensures o.userPaused == (userPaused || o.effect == PausePlayer)
    ensures o.hasAf == (hasAf && change != AudioFocusLoss)
  {
    if change == AudioFocusGain then
      FocusOutcome(if hasPlayer && !enginePlaying && !userPaused then StartPlayer else NoEffect, userPaused, hasAf)
    else if change == AudioFocusLoss || change == AudioFocusLossTransient then
      var pause := hasPlayer && enginePlaying;
      FocusOutcome(if pause then PausePlayer else NoEffect, userPaused || pause,
        if change == AudioFocusLoss then false else hasAf)
    else FocusOutcome(NoEffect, userPaused, hasAf)
  }

  /**
   * A transient loss while playing pauses and marks the pause as the user's, so the
   * gain that ends the transient loss does not restart playback.
   */
  lemma TransientLossNotResumedOnGain(hasAf: bool, userPaused: bool)
    ensures var lost := FocusStep(AudioFocusLossTransient, true, true, userPaused, hasAf);
      lost.effect == PausePlayer && lost.hasAf == hasAf &&
      FocusStep(AudioFocusGain, true, false, lost.userPaused, lost.hasAf).effect == NoEffect
  {
  }

  // -------------------------------------------------------------- _fmt_ms

  /** Python's `int(a / b)` for a positive divisor: the quotient rounded toward zero. */
  function TruncDiv(a: int, b: int): (q: int)
    requires b > 0
    ensures 0 <= a ==> 0 <= a - q * b < b
    ensures a < 0 ==> -b < a - q * b <= 0
  {
    if a >= 0 then a / b else -((-a) / b)
  }

  /**
   * `_fmt_ms`: whole seconds (`int(ms/1000)`) split with `divmod` (which floors, as
   * Dafny's `/` and `%` do for a positive divisor) into hours, minutes and seconds;
   * "h:mm:ss" when the hours are non-zero, "m:ss" otherwise.
   */
  function FmtMs(ms: int): string {
    var total := TruncDiv(ms, 1000);
    var minutes := total / 60;
    var s := total % 60;
    var h := minutes / 60;
    var m := minutes % 60;
    if h != 0 then IntToString(h) + ":" + Pad2(m) + ":" + Pad2(s) else NatToString(m) + ":" + Pad2(s)
  }

  /** Reads a clock "m:ss" or "h:mm:ss" back into seconds. */
  function ParseClock(text: string): Option<nat> {
    var parts := SplitOn(text, ':');
    if |parts| == 2 then
      match (DigitsValue(parts[0]), DigitsValue(parts[1]))
      case (Some(m), Some(s)) => Some(m * 60 + s)
      case _ => None
    else if |parts| == 3 then
      match (DigitsValue(parts[0]), DigitsValue(parts[1]), DigitsValue(parts[2]))
      case (Some(h), Some(m), Some(s)) => Some(h * 3600 + m * 60 + s)
      case _ => None
    else None
  }

  /** The pieces of "a:b" when neither piece holds ':'. */
  lemma SplitClock2(a: string, b: string)
    requires forall k :: 0 <= k < |a| ==> IsDigit(a[k])
    requires forall k :: 0 <= k < |b| ==> IsDigit(b[k])
    ensures SplitOn(a + ":" + b, ':') == [a, b]
  {
    assert forall k :: 0 <= k < |a| ==> a[k] != ':';
    assert forall k :: 0 <= k < |b| ==> b[k] != ':';
    assert a + ":" + b == a + [':'] + b;
    SplitOnCons(a, ':', b);
    SplitOnFree(b, ':');
  }

  /** The pieces of "a:b:c" when no piece holds ':'. */
  lemma SplitClock3(a: string, b: string, c: string)
    requires forall k :: 0 <= k < |a| ==> IsDigit(a[k])
    requires forall k :: 0 <= k < |b| ==> IsDigit(b[k])
    requires forall k :: 0 <= k < |c| ==> IsDigit(c[k])
    ensures SplitOn(a + ":" + b + ":" + c, ':') == [a, b, c]
  {
    assert forall k :: 0 <= k < |a| ==> a[k] != ':';
    SplitClock2(b, c);
    assert a + ":" + b + ":" + c == a + [':'] + (b + ":" + c);
    SplitOnCons(a, ':', b + ":" + c);
  }

  /** The `divmod` split of a whole number of seconds recombines, and has hours exactly from 3600 s up. */
  lemma ClockParts(total: nat)
    ensures total == (total / 60 / 60) * 3600 + (total / 60 % 60) * 60 + total % 60
    ensures total / 60 / 60 != 0 <==> total >= 3600
  {
    var minutes := total / 60;
    assert total == minutes * 60 + total % 60;
    assert minutes == (minutes / 60) * 60 + minutes % 60;
  }

  /** The clock of a position from one hour up: "h:mm:ss". */
  lemma FmtMsHours(ms: int)
    requires ms / 1000 >= 3600
    ensures var total := ms / 1000;
      SplitOn(FmtMs(ms), ':') == [NatToString(total / 60 / 60), Pad2(total / 60 % 60), Pad2(total % 60)]
  {
    var total := ms / 1000;
    ClockParts(total);
    var h := total / 60 / 60;
    assert IntToString(h) == NatToString(h);
    SplitClock3(NatToString(h), Pad2(total / 60 % 60), Pad2(total % 60));
  }

  /** The clock of a non-negative position below one hour: "m:ss". */
  lemma FmtMsMinutes(ms: int)
    requires 0 <= ms && ms / 1000 < 3600
    ensures var total := ms / 1000;
      SplitOn(FmtMs(ms), ':') == [NatToString(total / 60 % 60), Pad2(total % 60)]
  {
    var total := ms / 1000;
    ClockParts(total);
    SplitClock2(NatToString(total / 60 % 60), Pad2(total % 60));
  }

  /**
   * For a non-negative position, the clock has two ':'-separated fields below one hour
   * and three from one hour up, the minute and second fields of "h:mm:ss" and the
   * seconds of "m:ss" are two digits, and the fields recombine to `ms div 1000`.
   */
  lemma {:induction false} FmtMsRoundTrip(ms: int)
    requires ms >= 0
    ensures var parts := SplitOn(FmtMs(ms), ':');
      && (|parts| == 2 <==> ms / 1000 < 3600)
      && (|parts| == 3 <==> ms / 1000 >= 3600)
      && |parts[|parts| - 1]| == 2
      && (|parts| == 3 ==> |parts[1]| == 2)
    ensures ParseClock(FmtMs(ms)) == Some(ms / 1000)
  {
    var total := ms / 1000;
    ClockParts(total);
    var s := total % 60;
    var m := total / 60 % 60;
    var h := total / 60 / 60;
    DigitsOfPad2(s);
    DigitsOfPad2(m);
    Pad2Length(s);
    Pad2Length(m);
    if total >= 3600 {
      FmtMsHours(ms);
      DigitsOfNatToString(h);
    } else {
      FmtMsMinutes(ms);
      DigitsOfNatToString(m);
    }
  }

  // ------------------------------------------------------ _parse_expire_ts

  /** The screen's `_parse_expire_ts`: `int(params['expire'][0])` whenever the key is present. */
  function ScreenParseExpireTs(url: string): Option<int> {
    var params := ParseQs(Query(url));
    if "expire" in params then
      if |params["expire"]| > 0 then ParseInt(params["expire"][0]) else None  // IndexError is caught
    else None
  }

  /** `parse_qs` never stores an empty list, so the two `_parse_expire_ts` agree on every url. */
  lemma ScreenParseExpireTsAgrees(url: string)
    ensures ScreenParseExpireTs(url) == YtdlpHelpers.ParseExpireTs(url)
  {
    GroupFirst(ParseQsl(Query(url)), "expire");
  }

  // -------------------------------------------------- _py_headers_to_javamap

  const ScreenUa := "Mozilla/5.0 (Linux; Android 12) AppleWebKit/537.36 (KHTML, like Gecko) Chrome Mobile Safari/537.36"

  /** The two defaults the screen's copy puts when missing: User-Agent, then Referer. */
  const ScreenJavaMapDefaults: seq<(string, string)> := [("User-Agent", ScreenUa), ("Referer", "https://www.youtube.com")]

  /**
   * The screen's `_py_headers_to_javamap`: the non-empty entries of `headers`, then a
   * User-Agent and a Referer where missing; no other header is added.
   */
  method ScreenHeadersToJavaMap(headers: Option<Headers>) returns (m: Headers)
    ensures m == JavaHeaders.JavaMap(headers, ScreenJavaMapDefaults)
    ensures forall k :: k in m <==>
      (headers.Some? && k in headers.value && k != "" && headers.value[k] != "") || k == "User-Agent" || k == "Referer"
    ensures forall k :: headers.Some? && k in headers.value && k != "" && headers.value[k] != "" ==>
      m[k] == headers.value[k]
  {
    m := JavaHeaders.ToJavaMap(headers, ScreenJavaMapDefaults);
    forall k ensures (k in m <==>
      (headers.Some? && k in headers.value && k != "" && headers.value[k] != "") || k == "User-Agent" || k == "Referer")
      && (headers.Some? && k in headers.value && k != "" && headers.value[k] != "" ==> m[k] == headers.value[k])
    {
      JavaHeaders.JavaMapSpec(headers, ScreenJavaMapDefaults, k);
      if k == "User-Agent" { assert ScreenJavaMapDefaults[0].0 == k; }
      if k == "Referer" { assert ScreenJavaMapDefaults[1].0 == k; }
    }
  }

  // --------------------------------------------------- _extract_audio_info

  datatype ScreenExtractError =
    | ExtractRaised(message: string)  // both extract_info calls raised
    | NotADict                        // extract_info returned something without `.get`
    | NoAudioUrl                      // "No audio format URL resolved"

  /** The fallback scan's test: `vcodec == 'none'`, `acodec != 'none'`, a url. */
  predicate IsScreenAudio(f: Format) {
    f.vcodec == Some("none") && f.acodec != Some("none") && Truthy(f.url)
  }

  /** The audio url the screen resolves: the top-level url, else the first format passing the fallback scan. */
  function ScreenAudioUrl(info: Info): (u: Option<string>)
    ensures u.None? <==> !Truthy(info.url) && forall j :: 0 <= j < |info.formats.GetOr([])| ==> !IsScreenAudio(info.formats.GetOr([])[j])
    ensures Truthy(info.url) ==> u == info.url
    ensures u.Some? ==> u.value != ""
  {
    if Truthy(info.url) then info.url
    else
      var fmts := info.formats.GetOr([]);
      var i := FirstWhere(fmts, IsScreenAudio);
      if i < |fmts| then fmts[i].url else None
  }

  /** The header fallback: the headers of the first format with url `url` and non-empty headers, else `{}`. */
  function HeadersFor(fmts: seq<Format>, url: string): (h: Headers)
    ensures (forall j :: 0 <= j < |fmts| ==> !(fmts[j].url == Some(url) && TruthyHeaders(fmts[j].httpHeaders))) ==> h == map[]
    ensures (exists j :: 0 <= j < |fmts| && fmts[j].url == Some(url) && TruthyHeaders(fmts[j].httpHeaders)) ==>
      exists j :: 0 <= j < |fmts| && fmts[j].url == Some(url) && TruthyHeaders(fmts[j].httpHeaders) &&
                  h == fmts[j].httpHeaders.value &&
                  (forall i :: 0 <= i < j ==> !(fmts[i].url == Some(url) && TruthyHeaders(fmts[i].httpHeaders)))
    decreases |fmts|
  {
    if |fmts| == 0 then map[]
    else if fmts[0].url == Some(url) && TruthyHeaders(fmts[0].httpHeaders) then fmts[0].httpHeaders.value
    else
      var h := HeadersFor(fmts[1..], url);
      assert forall j :: 1 <= j < |fmts| ==> fmts[j] == fmts[1..][j - 1];
      h
  }

  /**
   * The screen's `_extract_audio_info`: the android client's answer, or the fallback
   * format's when that raised (the fallback's own exception propagates); an error when
   * no audio url resolves; the top-level headers, else the header fallback; the expiry
   * read from the resolved url.
   */
  method ScreenExtractAudioInfo(primary: Attempt, fallback: Attempt) returns (r: Result<AudioInfo, ScreenExtractError>)
    ensures var got := if primary.Raised? then fallback else primary;
      && (got.Raised? ==> r == Failure(ExtractRaised(got.message)))
      && (got.GotOther? ==> r == Failure(NotADict))
      && (got.GotDict? && ScreenAudioUrl(got.info).None? ==> r == Failure(NoAudioUrl))
      && (got.GotDict? && ScreenAudioUrl(got.info).Some? ==>
        var info := got.info;
        var url := ScreenAudioUrl(info).value;
        r == Success(AudioInfo(url, info.thumbnail.GetOr(""), ScreenParseExpireTs(url),
          if TruthyHeaders(info.httpHeaders) then info.httpHeaders.value else HeadersFor(info.formats.GetOr([]), url))))
  {
    var got := if primary.Raised? then fallback else primary;
    if got.Raised? {
      return Failure(ExtractRaised(got.message));
    }
    if got.GotOther? {
      return Failure(NotADict);
    }
    var info := got.info;
    var fmts := info.formats.GetOr([]);
    var audioUrl := OrEmpty(info.url);
    if audioUrl == "" {
      audioUrl := ScanAudioFormats(fmts);
    }
    if audioUrl == "" {
      return Failure(NoAudioUrl);
    }
    assert ScreenAudioUrl(info) == Some(audioUrl);
    var headers: Headers := if TruthyHeaders(info.httpHeaders) then info.httpHeaders.value else map[];
    if !TruthyHeaders(info.httpHeaders) {
      headers := ScanHeaders(fmts, audioUrl);
    }
    r := Success(AudioInfo(audioUrl, info.thumbnail.GetOr(""), ScreenParseExpireTs(audioUrl), headers));
  }

  /** The fallback loop over the formats: the url of the first one passing `IsScreenAudio`, else "". */
  method ScanAudioFormats(fmts: seq<Format>) returns (u: string)
    ensures var i := FirstWhere(fmts, IsScreenAudio);
      u == if i < |fmts| then fmts[i].url.value else ""
    ensures u == "" <==> forall j :: 0 <= j < |fmts| ==> !IsScreenAudio(fmts[j])
  {
    var i := 0;
    while i < |fmts|
      invariant 0 <= i <= |fmts|
      invariant forall j :: 0 <= j < i ==> !IsScreenAudio(fmts[j])
    {
      if IsScreenAudio(fmts[i]) {
        FirstWhereIs(fmts, IsScreenAudio, i);
        return fmts[i].url.value;
      }
      i := i + 1;
    }
    u := "";
  }

  /** The header fallback loop: the headers of the first format with url `url` and non-empty headers. */
  method ScanHeaders(fmts: seq<Format>, url: string) returns (h: Headers)
    ensures h == HeadersFor(fmts, url)
  {
    var i := 0;
    while i < |fmts|
      invariant 0 <= i <= |fmts|
      invariant HeadersFor(fmts, url) == HeadersFor(fmts[i..], url)
    {
      if fmts[i].url == Some(url) && TruthyHeaders(fmts[i].httpHeaders) {
        return fmts[i].httpHeaders.value;
      }
      assert fmts[i..][1..] == fmts[i + 1..];
      i := i + 1;
    }
    h := map[];
  }

  /** The index of an entry that satisfies `p` after none before it did is `FirstWhere`. */
  lemma FirstWhereIs(fs: seq<Format>, p: Format -> bool, i: nat)
    requires i < |fs| && p(fs[i])
    requires forall j :: 0 <= j < i ==> !p(fs[j])
    ensures FirstWhere(fs, p) == i
  {
  }
}
