# pymusic playback core in Dafny

pymusic is an Android music player written in Python (Kivy and pyjnius). It streams
YouTube audio through yt-dlp into an Android `MediaPlayer`. This project models the
sequential decision logic under its Android glue:

- **The playback controller of `AudioPlayerScreen`** (audio_screen.py). This is a class
  over the screen's fields. It covers:
  - the debounce of control presses;
  - the playlist (normalisation, next/previous with wrap-around, clamped reads);
  - `play_audio`, `stop_audio` and the start of a stream;
  - the error retry counter and the completion rule (repeat, else next, else stop);
  - the foreground and headless restart and next variants;
  - the expiry refresh and the stall watchdog;
  - the audio-focus flag `_has_af`, the user-pause flag, and the focus-change listener;
  - the media-session handlers `_ms_toggle`, `_ms_next` and `_ms_prev`.

  The decision rules the methods apply are functions in `ScreenRules`. So are the
  module helpers `_fmt_ms`, `_parse_expire_ts`, `_py_headers_to_javamap` and
  `_extract_audio_info`.
- **`StreamRecovery`** (stream_recovery.py). One pass of its watchdog loop is a pure
  `Step`. The class keeps the loop's fields, and `Tick` runs one pass. Lemmas cover whole
  runs: a user pause is never resumed, refreshes are at least 10 s apart, and stuck
  playback is refreshed.
- **The yt-dlp helpers** (ytdlp_helpers.py). These are:
  - expiry parsing from the stream URL, over a model of `urlparse(...).query` and `parse_qs`;
  - header defaulting;
  - the tiered audio and video format choice;
  - the ordered player-client fallback;
  - the assembly of the audio and video info;
  - the conversion of headers to a Java map.
- **The player globals and routers** (media_android.py). These are:
  - the `android_player` / `_mp_prepared` / `is_playing` flags and the wrappers that gate on them;
  - the notification-action router;
  - the action count of the media notification;
  - the MediaSession playback state.
- **The headset key router** (headset_listener.py): key-code dispatch and the idempotent
  `_bound` toggle.

Android, yt-dlp, the network probe, the clock and `_is_foreground()` are never called.
Their answers are inputs:
- the engine's `isPlaying()` and position readings;
- the focus request's reply;
- what each `extract_info` call did (`Attempt`);
- integer timestamps;
- booleans for the network and the foreground.

Commands a method issues to the player are returned as values. Timestamps are integers:
milliseconds for the debounce (0.30 s = 300 ms) and the watchdogs (10 s = 10000 ms), and
whole seconds for the expiry refresh, as `int(time.time())` gives them.

`AudioPlayerScreen` methods name the fields they may change, using field-granular
`modifies` clauses; of the recovery object they may change only its user-pause flag. Their
`ensures` state every new value in terms of the `ScreenRules` functions.
`Valid()` keeps two invariants:
- the recovery object's user-pause flag mirrors the screen's;
- the playlist index is in range for a non-empty playlist, and 0 for an empty one.

Some behaviour of the code is modelled as written, though a reader might expect otherwise:
- The debounce window is the code's default of 0.30 s.
- A focus loss, transient or not, marks the pause as the user's. So the gain that ends a
  transient loss never restarts playback (`ScreenRules.TransientLossNotResumedOnGain`).
- `_ms_toggle` starts the player whether or not focus was granted.
- The screen uses its own `_mp_start` and `_mp_seek_to` (audio_screen.py:356-383). These
  gate only on the player existing, not on `_mp_prepared`.
- Only the player that `_start_stream_from_video_url` creates has the retrying `on_error`.
  Every restarted player gets a no-op error listener. So `on_error` restarts at most once
  per stream start, and the count of 3 (`ScreenRules.RestartsBounded`) binds only if that
  listener fires again. `AudioPlayerScreen.OnError` proves that a restart leaves
  `retryingPlayer` false.
- StreamRecovery's stall refresh does not consult `_user_paused`. The screen's own
  watchdog does (`ScreenRules.WatchdogUnderUserPause`).
- There is no generation token and no stream cache. The yt-dlp cache is switched off at
  audio_screen.py:21-23 and ytdlp_helpers.py:13-15.

## Model

| member | source | states |
|---|---|---|
| AudioScreen.AudioPlayerScreen.constructor | audio_screen.py:478-539 | initial state: repeat off, no url, stream or expiry, empty headers and playlist, index 0, counters 0, not paused, no focus, no player, no pending refresh or watchdog; a fresh recovery object with no thread, not stopped, last position -1 and no stall; `Valid()` holds |
| AudioScreen.AudioPlayerScreen.SetUserPaused | audio_screen.py:999-1000 | `_user_paused` and the recovery loop's flag both take the value; the loop's thread, stop flag and stall memory stay as they were |
| AudioScreen.AudioPlayerScreen.Debounce | audio_screen.py:553-558 | accepts iff at least 300 ms passed since the last accepted press; records `now` only when it accepts |
| AudioScreen.AudioPlayerScreen.CancelEvents | audio_screen.py:1056-1067 | no refresh pending and no watchdog armed afterwards |
| AudioScreen.AudioPlayerScreen.MpResetRelease | audio_screen.py:374-383 | no player afterwards |
| AudioScreen.AudioPlayerScreen.MpCreate | audio_screen.py:337-353 | a player exists, with the given kind of error listener |
| AudioScreen.AudioPlayerScreen.RequestAudioFocus | audio_screen.py:826-851 | held focus is kept; otherwise `_has_af` becomes "reply granted", and a raising request leaves it false; the result equals the new flag |
| AudioScreen.AudioPlayerScreen.AbandonAudioFocus | audio_screen.py:853-864 | the flag ends false unless the abandon call raises while focus is held |
| AudioScreen.AudioPlayerScreen.StopAudio | audio_screen.py:1042-1050 | events cancelled, player released, focus abandoned |
| AudioScreen.AudioPlayerScreen.PlayAudio | audio_screen.py:992-1020 | the url is recorded, the retry count reset to 0, playback halted, the user pause cleared, title and channel stored as `x or ""` |
| AudioScreen.AudioPlayerScreen.PlayCurrentIndex | audio_screen.py:958-973 | empty playlist: nothing changes; otherwise the entry at the clamped index is handed to `play_audio` and the pause is cleared |
| AudioScreen.AudioPlayerScreen.PlayPlaylist | audio_screen.py:942-956 | the playlist becomes the normalised entries, with the same count and order; the index is 0; the first entry plays, or nothing else changes for an empty list |
| AudioScreen.AudioPlayerScreen.PlayNextInPlaylist | audio_screen.py:975-981 | the index becomes `NextIndex` of the old one and that entry plays; no-op on an empty playlist |
| AudioScreen.AudioPlayerScreen.PlayPrevInPlaylist | audio_screen.py:983-989 | the index becomes `PrevIndex` of the old one and that entry plays; no-op on an empty playlist |
| AudioScreen.AudioPlayerScreen.PlayNextInPlaylistHeadless | audio_screen.py:1161-1200 | the index advances with wrap; a resolved next entry becomes the current url, stream, title and channel on a new non-retrying player; after a failed extraction only the index moved |
| AudioScreen.AudioPlayerScreen.TakeTrack | audio_screen.py:1170-1178 | the headless switch stores the track's url, title and channel and the resolved stream |
| AudioScreen.AudioPlayerScreen.PlayNextInPlaylistAdaptive | audio_screen.py:1136-1140 | the foreground next (stream untouched) or the headless next (count, focus, events and pause untouched), chosen by `_is_foreground()` |
| AudioScreen.AudioPlayerScreen.RestartSameUrlAdaptive | audio_screen.py:1130-1225 | a new non-retrying player; the foreground variant also cancels the events and forgets the stall, the headless one keeps both |
| AudioScreen.AudioPlayerScreen.StartStreamFromVideoUrl | audio_screen.py:1070-1115 | a failed extraction changes nothing; otherwise the stream fields hold the result and a retrying player exists |
| AudioScreen.AudioPlayerScreen.OnPreparedForeground | audio_screen.py:1082-1094 | focus requested, start issued when a player exists, expiry refresh scheduled, watchdog re-armed from -1 / no stall |
| AudioScreen.AudioPlayerScreen.OnPreparedBackground | audio_screen.py:1185-1191 | focus requested, start issued when a player exists, the pause cleared only after a headless playlist step |
| AudioScreen.AudioPlayerScreen.OnError | audio_screen.py:1096-1102 | a no-op listener changes nothing; the retrying one increments the count and restarts iff the new count is at most 3; a restart leaves a non-retrying player |
| AudioScreen.AudioPlayerScreen.OnCompletion | audio_screen.py:1118-1128 | the pause is cleared; repeat restarts the same url; else a non-empty playlist advances; else nothing else changes |
| AudioScreen.AudioPlayerScreen.RefreshStreamAndResume | audio_screen.py:1265-1273 | a failed extraction changes nothing; otherwise the new stream is stored and the player restarted |
| AudioScreen.AudioPlayerScreen.ScheduleExpireRefresh | audio_screen.py:1259-1263 | the pending refresh becomes `ExpireRefreshDelay` when there is an expiry, else stays as it was |
| AudioScreen.AudioPlayerScreen.StartWatchdog | audio_screen.py:1276-1282 | last position -1, no stall, watchdog armed |
| AudioScreen.AudioPlayerScreen.WatchdogTick | audio_screen.py:1284-1314 | no player: nothing changes; otherwise position and stall move as `WatchdogStep` says on the readings `getCurrentPosition() or 0` and `getDuration() or 1`; a refresh restarts on the re-resolved stream; a resume requests focus; nothing else changes |
| AudioScreen.AudioPlayerScreen.MsToggle | audio_screen.py:791-806 | a debounced press does nothing; a playing player is paused as the user's pause; otherwise the pause is cleared, focus requested and start issued whatever the focus reply |
| AudioScreen.AudioPlayerScreen.MsNext | audio_screen.py:808-811 | nothing without a playlist; otherwise the adaptive next |
| AudioScreen.AudioPlayerScreen.MsPrev | audio_screen.py:813-823 | seek to 0 iff there is a playlist and a player more than 5000 ms in; otherwise the previous entry plays; nothing without a playlist |
| AudioScreen.AudioPlayerScreen.OnAudioFocusChange | audio_screen.py:247-264 | the effect and the new pause and focus flags are those of `FocusStep` |
| ScreenRules.DebounceAcceptedAfterWindow | audio_screen.py:553-558 | in any run of presses, none is accepted sooner than 300 ms after the last accepted time |
| ScreenRules.DebounceAcceptedApart | audio_screen.py:553-558 | any two accepted presses of a run are at least 300 ms apart |
| ScreenRules.NextIndex | audio_screen.py:975-980 | for an index in range: the next index modulo the length, in range, last wraps to 0 |
| ScreenRules.PrevIndex | audio_screen.py:983-988 | for an index in range: the previous index modulo the length, in range, 0 wraps to the last |
| ScreenRules.ClampIndex | audio_screen.py:970 | `max(0, min(i, n-1))`: in range, the identity on an index in range |
| ScreenRules.PrevUndoesNext | audio_screen.py:975-988 | previous after next, and next after previous, return to the same index |
| ScreenRules.NextTimesWraps | audio_screen.py:975-980 | `k` nexts from `i` land on `(i + k) mod n` |
| ScreenRules.Normalize | audio_screen.py:946-948 | the result starts with "http"; an http ref is kept, anything else (None read as "") gets the watch prefix |
| ScreenRules.NormalizeIdempotent | audio_screen.py:946-948 | normalising a normalised ref changes nothing |
| ScreenRules.NormalizeTracks | audio_screen.py:944-949 | the loop keeps count and order, normalises each url and keeps titles and channels |
| ScreenRules.RestartsBounded | audio_screen.py:1096-1102 | from any count `c` up to 3, `k` consecutive errors restart `min(k, 3 - c)` times, so never more than 3 after the reset |
| ScreenRules.ExpireRefreshDelay | audio_screen.py:1259-1262 | no refresh without an expiry (None or 0); else a delay of at least 5 s that reaches 60 s before expiry, exactly when that is over 5 s away |
| ScreenRules.WatchdogStep | audio_screen.py:1284-1312 | no state: nothing; offline: only a missing stall start is recorded; online: the position is remembered, refresh iff stuck at least 10 s and not user-paused, resume iff stopped inside `(0, dur - 1500)` and not user-paused; the first stuck pass records `now` as the stall start, which is otherwise only kept or cleared |
| ScreenRules.ResumeBoundsAgree | audio_screen.py:1308 | on integers, `0 < pos < dur - 1500` and the loop's `0 < pos < max(1, dur - 1500)` agree |
| ScreenRules.WatchdogMatchesRecovery | audio_screen.py:1284-1312 | without a user pause the screen watchdog and StreamRecovery's pass make the same decision and state |
| ScreenRules.WatchdogUnderUserPause | audio_screen.py:1296-1311 | under a user pause the screen does not refresh a stuck stream and keeps a stall while stopped; the loop refreshes and forgets it |
| ScreenRules.FocusStep | audio_screen.py:247-262 | gain starts a stopped player unless user-paused; a loss pauses a playing player and marks the user pause; only a permanent loss drops focus |
| ScreenRules.TransientLossNotResumedOnGain | audio_screen.py:249-258 | a transient loss while playing pauses, and the following gain does not restart playback |
| ScreenRules.TruncDiv | audio_screen.py:1319 | Python's `int(a / b)` rounds toward zero: the remainder `a - q*b` lies in `[0, b)` for `a >= 0` and in `(-b, 0]` for `a < 0` |
| ScreenRules.FmtMsHours | audio_screen.py:1318-1320 | from one hour up, the clock splits into hours, two-digit minutes and two-digit seconds |
| ScreenRules.FmtMsMinutes | audio_screen.py:1318-1320 | below one hour, the clock splits into minutes and two-digit seconds |
| ScreenRules.FmtMsRoundTrip | audio_screen.py:1318-1320 | "m:ss" below one hour and "h:mm:ss" from one hour up, with two-digit fields; reading the clock back gives `ms div 1000` |
| ScreenRules.ScreenParseExpireTsAgrees | audio_screen.py:391-399 | the screen's `_parse_expire_ts` equals the helpers' version on every url |
| ScreenRules.ScreenHeadersToJavaMap | audio_screen.py:324-333 | exactly the non-empty entries plus User-Agent and Referer; a source entry wins over a default |
| ScreenRules.ScreenAudioUrl | audio_screen.py:422-428 | the top-level url when truthy, else the first format with vcodec "none", acodec not "none" and a url; None iff neither exists |
| ScreenRules.HeadersFor | audio_screen.py:430-434 | the headers of the first format with that url and non-empty headers, else `{}` |
| ScreenRules.ScreenExtractAudioInfo | audio_screen.py:401-438 | fallback attempt only when the first raised; errors for raise, non-dict and no url; otherwise the resolved url, thumbnail, expiry from that url, and headers from the info or the matching format |
| ScreenRules.ScanAudioFormats | audio_screen.py:423-426 | the fallback loop returns the url of the first passing format, "" iff none passes |
| ScreenRules.ScanHeaders | audio_screen.py:431-434 | the header loop returns `HeadersFor` |
| StreamRecovery.Step | stream_recovery.py:56-93 | no state: nothing; offline: only a missing stall start; online playing: stall recorded on first stuck pass, refresh iff stuck 10 s (user pause ignored), cleared on movement; stopped: user pause clears the stall, else resume iff `0 < pos < max(1, dur - 1500)`; position remembered online |
| StreamRecovery.UserPauseNeverResumed | stream_recovery.py:84-91 | no pass of any run under a user pause calls `on_resume` |
| StreamRecovery.RefreshNotBefore | stream_recovery.py:74-81 | a refresh comes at least 10 s after any time no stall and no pass precedes |
| StreamRecovery.RefreshesTenSecondsApart | stream_recovery.py:74-81 | two refreshes of a run on a monotone clock are at least 10 s apart |
| StreamRecovery.StuckPlaybackRefreshed | stream_recovery.py:74-81 | playback stuck at one position with the network up is refreshed by the time 10 s have passed since the stall began |
| StreamRecovery.Recovery.constructor | stream_recovery.py:15-25 | no thread, not stopped, last position -1, no stall, not paused |
| StreamRecovery.Recovery.Start | stream_recovery.py:28-34 | `_stop` cleared; spawns iff no live loop is held; other fields kept |
| StreamRecovery.Recovery.Stop | stream_recovery.py:36-39 | `_stop` set and the handle dropped; other fields kept |
| StreamRecovery.Recovery.SetUserPaused | stream_recovery.py:41-44 | stores the value; nothing else changes |
| StreamRecovery.Recovery.Tick | stream_recovery.py:57-93 | after `stop` nothing happens; otherwise the fields and callback are those of `Step` |
| YtdlpHelpers.ExpireIsFirstParameter | ytdlp_helpers.py:43-51 | None when no query pair is named `expire`; otherwise the result is exactly `int()` of the first such pair's value (None when that raises) |
| YtdlpHelpers.ExpireOfBuiltUrl | ytdlp_helpers.py:43-51 | a url `base?expire=<n>` followed by further `&` parameters yields exactly `n` (base without `?`, `#` or stripped control characters) |
| YtdlpHelpers.BestEffortSpec | ytdlp_helpers.py:54-60 | every source entry kept; exactly the four standard headers added, each only when missing, User-Agent from the defaults else the web UA |
| YtdlpHelpers.BestEffortHeaders | ytdlp_helpers.py:54-60 | the `setdefault` sequence on a copy computes `BestEffort` |
| YtdlpHelpers.PickBestAudio | ytdlp_helpers.py:63-90 | None iff no audio entry; else the first opus-or-webm audio, else the first m4a, else the first audio entry |
| YtdlpHelpers.WebmPassIsSubsumed | ytdlp_helpers.py:71-79 | the dedicated webm pass never finds anything the first pass missed |
| YtdlpHelpers.PickBestVideo | ytdlp_helpers.py:93-113 | the first muxed mp4, else the first m3u8 url, else the first entry with a url and a video codec; a result has a url |
| YtdlpHelpers.FirstDict | ytdlp_helpers.py:116-133 | the first client's dict, None iff no client returned one |
| YtdlpHelpers.LastRaisedWhenSomeRaised | ytdlp_helpers.py:122-133 | an error is reported iff some client raised |
| YtdlpHelpers.LastRaisedIsLast | ytdlp_helpers.py:122-133 | the reported error is that of the last client that raised |
| YtdlpHelpers.ExtractInfoWithClients | ytdlp_helpers.py:116-133 | the loop returns the first dict with no error, else None with the last raised error |
| YtdlpHelpers.ExtractAudioInfo | ytdlp_helpers.py:158-211 | error without a non-empty dict; the top-level url with the info's headers, else the best audio format's url and headers, else an error; expiry parsed from the final url |
| YtdlpHelpers.ExtractVideoInfo | ytdlp_helpers.py:215-269 | never fails; a playable top-level url is kept, else the best video format's url, else the top-level url; with neither, `video_url` is None with no headers; headers are the best-effort ones of the source chosen |
| YtdlpHelpers.PyHeadersToJavaMap | ytdlp_helpers.py:137-154 | exactly the non-empty entries plus the four defaults where missing; a source entry wins over a default |
| JavaHeaders.PutAbsentSpec | ytdlp_helpers.py:145-152 | present keys keep their values; a missing key gets the first default naming it; nothing else is added |
| JavaHeaders.JavaMapSpec | ytdlp_helpers.py:139-154 | a key is in the map iff a non-empty source entry or a default names it; the source value wins |
| JavaHeaders.ToJavaMap | ytdlp_helpers.py:139-154 | the `put` loops compute `JavaMap` |
| UrlQuery.GroupFirst | ytdlp_helpers.py:46-48 | `parse_qs` has a name iff some pair carries it; its list is non-empty and starts with the first such value |
| UrlQuery.QueryOfBuiltUrl | ytdlp_helpers.py:45 | the query of `base?q` is `q` |
| Text.ParseIntOfIntToString | ytdlp_helpers.py:48 | `int(str(i)) == i` for every integer |
| Text.Pad2Length | audio_screen.py:1320 | `f"{n:02d}"` below 100 has two characters |
| YtInfo.OrEmpty | ytdlp_helpers.py:188 | `s or ""` is non-empty iff `s` is truthy |
| YtInfo.FirstWhere | ytdlp_helpers.py:72-74 | the early-return loop finds the first entry satisfying the test, or none |
| YtInfo.Find | ytdlp_helpers.py:72-74 | found iff some entry satisfies the test, and then it is the first one |
| MediaAndroid.PlayerGlobals.constructor | media_android.py:102-104 | no player, not playing, not prepared |
| MediaAndroid.PlayerGlobals.CreateSetSourceAndPrepareAsync | media_android.py:237-278 | `_mp_prepared` is cleared first; a new idle player at position 0 replaces the handle unless the constructor raises; `is_playing` untouched |
| MediaAndroid.PlayerGlobals.OnPreparedWrapper | media_android.py:249-252 | sets `_mp_prepared`, nothing else |
| MediaAndroid.PlayerGlobals.MpStart | media_android.py:291-301 | starts and sets `is_playing` only on a prepared player whose `start()` does not raise; otherwise nothing changes |
| MediaAndroid.PlayerGlobals.MpPause | media_android.py:282-287 | acts only when the engine plays, then clears `is_playing` |
| MediaAndroid.PlayerGlobals.MpSeekTo | media_android.py:305-314 | moves the position only on a prepared player |
| MediaAndroid.PlayerGlobals.MpResetRelease | media_android.py:318-329 | always ends with no player, not playing, not prepared |
| MediaAndroid.CreatedPlayerIgnoresStart | media_android.py:291-301 | a start right after creation, before the prepared callback, does not start the engine |
| MediaAndroid.OnNewIntent | media_android.py:679-696 | a handler is called iff there is an owner and an intent whose action names a handler the owner defines, and then it is that handler |
| MediaAndroid.RoutesEachAction | media_android.py:685-694 | each of the five actions reaches its own handler |
| MediaAndroid.NotificationActions | media_android.py:444-473 | the buttons added before the first failing `addAction` (3 without failure); compact indices `range(min(3, added))` when styled |
| MediaAndroid.UpdateMediaSessionState | media_android.py:617-637 | none without a session; the five transport actions, SEEK_TO iff `can_seek`; state PLAYING and speed non-zero iff `is_playing`; the position clamped to at least 0, None read as 0 |
| HeadsetListener.OnKey | headset_listener.py:13-26 | consumed iff a key-down of one of the six media keys, and then exactly the router method for that key is called |
| HeadsetListener.HeadsetRouter.constructor | headset_listener.py:29-32 | no callbacks, unbound |
| HeadsetListener.HeadsetRouter.SetCallbacks | headset_listener.py:34-36 | the whole table is replaced by the five callbacks |
| HeadsetListener.HeadsetRouter.HandleKey | headset_listener.py:13-42 | consumed as `OnKey` says; a callback that runs is the registered one for the key; with all five registered, a consumed key always runs one; an ignored key runs none |
| HeadsetListener.HeadsetRouter.SetActive | headset_listener.py:45-56 | binds only from unbound to active, unbinds only from bound to inactive; afterwards `_bound == active` |

## Left out

- Threads, `@run_on_ui_thread`, `Clock.schedule_*` and the daemon loop are not modelled.
  Each callback (prepared, completion, error, watchdog tick, refresh, focus change) is a
  separate method call. Their interleaving is the caller's choice.
- The UI is not modelled: `_ui_set_playing`, `_maybe_sync_ui`, `_update_progress`,
  `_schedule_progress_updates`, the thumbnail and `_need_ui_sync`.
- These Android calls are left out: MediaSession pushes (`_push_ms_state`,
  `_set_ms_active`), notifications, wake locks, the native video view and
  `_fetch_and_play_video`.
- These screen methods are not part of this model: the screen's `_on_new_intent`,
  `_ms_play`, `_ms_pause`, `_resume_from_recovery`, `_pause_from_recovery`,
  `toggle_repeat`, `seek`, `go_back`, `play_video` and the lifecycle hooks. The screen's
  `_on_new_intent` debounces before calling `_ms_toggle`, which debounces again. This
  double call is not modelled.
- yt-dlp's `extract_info` is an oracle: an `Attempt` per client, and for the screen a
  primary and a fallback attempt. The screen's `_extract_audio_info` reads an absent key
  and a key holding None the same way.
- `_is_network_available`, `_net_ok` and `_is_foreground()` are boolean inputs.
- The AudioManager's reply is an input. The two SDK branches of the focus request have
  the same effect. `_af_request` is not kept.
- AudioScreen.AudioPlayerScreen.StopAudio: models the abandon call as succeeding.
- AudioScreen.AudioPlayerScreen.MpCreate: assumes the screen's player creation succeeds.
  audio_screen.py:352-353 logs a failure and may leave a player without a source.
- AudioScreen.AudioPlayerScreen.PlayAudio: covers only the state up to the start of the
  extraction thread. The thread's work is `StartStreamFromVideoUrl`, a separate call.
- The screen's `hasPlayer` is its own view of `android_player`. Its player wrappers do
  not track `_mp_prepared`, so that flag is modelled only in `MediaAndroid`.
- `int()` is modelled only for ASCII whitespace (tab to CR, `\x1c`-`\x1f`, space), an
  optional sign, and digits with single underscores. Unicode whitespace and digits are not
  modelled. `parse_qs` turns `+` into a space but does no percent-decoding.
- `Query` does not model `urlparse` raising `ValueError` on an unbalanced `[` or `]` in the
  network location, where `_parse_expire_ts` returns None; the model parses the query anyway.
- Raising engine calls are not modelled. `_watchdog_tick` catches everything
  (audio_screen.py:1286-1314), so a raising reading ends the tick before it changes any
  field. `_mp_pause` has no `try` (media_android.py:281-286), so a raising `pause()`
  propagates with `is_playing` unchanged. The model's readings and `pause()` never raise.
- Floating point is not modelled. `time.time()` becomes an integer, and the session's
  playback speed becomes a playing/halted flag. `_fmt_ms` truncates `ms/1000` exactly,
  as `int()` does for values a float represents exactly.
- The notification's content, icons, channel and PendingIntent flags are left out. So
  are `duration_ms` and the builder's exceptions in `update_media_session_state`.
