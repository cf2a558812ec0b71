/**
 * `AudioPlayerScreen` of audio_screen.py as a class over the fields its playback
 * controller reads and writes. The Android MediaPlayer, the AudioManager, yt-dlp, the
 * clock, the network probe and `_is_foreground()` are not called: what they answer is
 * passed in (the engine's `isPlaying()` and positions, the focus request's reply, the
 * outcome of `_extract_audio_info`, integer timestamps, booleans), and the player
 * commands a method issues are returned.
 *
 * Each method names the fields it may change and states all of their new values, in
 * terms of the decision rules of ScreenRules; every other field keeps its value.
 */
module AudioScreen {
  import opened Wrappers
  import opened YtInfo
  import opened StreamRecovery
  import opened ScreenRules

  /** What `requestAudioFocus` answers, or that the request raised. */
  datatype FocusReply = Granted | Denied | RequestRaised

  /** A command issued to the screen's player wrappers (`_mp_start`, `_mp_pause`, `_mp_seek_to`). */
  datatype PlayerCommand = NoCommand | StartCmd | PauseCmd | SeekToStart

  /** What `_extract_audio_info` produced: the audio info, or why it raised. */
  type Resolved = Result<AudioInfo, ScreenExtractError>

  /** Python's `x or d` on an optional integer reading. */
  function OrDefault(x: Option<int>, d: int): int {
    if x.None? || x.value == 0 then d else x.value
  }

  /**
   * The screen. `refreshDelay` is the delay of the pending `_refresh_ev` (None when
   * nothing is scheduled), `watchdogArmed` is `_watchdog_ev is not None`, `hasPlayer`
   * is the module global `android_player is not None`, and `retryingPlayer` says that
   * the current player's error listener is `on_error` rather than a no-op.
   */
  class AudioPlayerScreen {
    var repeat: bool
    var lastVideoUrl: Option<string>
    var currentStreamUrl: Option<string>
    var currentExpireTs: Option<int>
    var currentHeaders: Headers
    var retryCnt: nat
    var lastPosMs: int
    var stallStartedTs: Option<int>
    var playlistTracks: seq<Track>
    var playlistIndex: int
    var userPaused: bool
    var currentTitle: string
    var currentChannel: string
    var hasAf: bool
    var lastActionTs: int
    var refreshDelay: Option<int>
    var watchdogArmed: bool
    var hasPlayer: bool
    var retryingPlayer: bool
    const recovery: Recovery

    /** The recovery loop sees the screen's user-pause flag, and the playlist index is in range. */
    predicate Valid()
      reads this, recovery
    {
      && recovery.userPaused == userPaused
      && (if playlistTracks == [] then playlistIndex == 0 else 0 <= playlistIndex < |playlistTracks|)
    }

    /** What `stop_audio` leaves: no pending refresh or watchdog, no player, no focus. */
    predicate Halted()
      reads this
    {
      refreshDelay == None && !watchdogArmed && !hasPlayer && !retryingPlayer && !hasAf
    }

    /** The state `play_audio(url, title, channel)` leaves before its extraction thread runs. */
    predicate AfterPlayAudio(url: string, title: Option<string>, channel: Option<string>)
      reads this
    {
      && lastVideoUrl == Some(url) && retryCnt == 0 && Halted() && !userPaused
      && currentTitle == OrEmpty(title) && currentChannel == OrEmpty(channel)
    }

    /** The fields `play_audio` writes all keep their values. */
    twostate predicate KeptPlayback()
      reads this
    {
      && lastVideoUrl == old(lastVideoUrl) && retryCnt == old(retryCnt)
      && refreshDelay == old(refreshDelay) && watchdogArmed == old(watchdogArmed)
      && hasPlayer == old(hasPlayer) && retryingPlayer == old(retryingPlayer)
      && hasAf == old(hasAf) && userPaused == old(userPaused)
      && currentTitle == old(currentTitle) && currentChannel == old(currentChannel)
    }

    twostate predicate KeptStream()
      reads this
    {
      currentStreamUrl == old(currentStreamUrl) && currentExpireTs == old(currentExpireTs) &&
      currentHeaders == old(currentHeaders)
    }

    /** The stream fields hold what an extraction resolved. */
    predicate HoldsStream(info: AudioInfo)
      reads this
    {
      currentStreamUrl == Some(info.audioUrl) && currentExpireTs == info.expireTs && currentHeaders == info.httpHeaders
    }

    /**
     * `_restart_same_url_adaptive` on the player and the events: a new player whose
     * error listener is a no-op; in the foreground the refresh and watchdog are
     * cancelled, headless they are left as they were.
     */
    twostate predicate RestartedPlayer(foreground: bool)
      reads this
    {
      && hasPlayer && !retryingPlayer
      && (foreground ==> refreshDelay == None && !watchdogArmed)
      && (!foreground ==> refreshDelay == old(refreshDelay) && watchdogArmed == old(watchdogArmed))
    }

    /**
     * A foreground step of the playlist to index `i`: nothing changes for an empty
     * playlist; otherwise the index is `i` and entry `i` was handed to `play_audio`.
     */
    twostate predicate SteppedTo(i: int)
      reads this
    {
      if old(playlistTracks) == [] then playlistIndex == old(playlistIndex) && KeptPlayback()
      else
        && playlistIndex == i && 0 <= i < |playlistTracks|
        && AfterPlayAudio(playlistTracks[i].url, playlistTracks[i].title, playlistTracks[i].channel)
    }

    /**
     * `_play_next_in_playlist_headless`: the index advances; a resolved next entry
     * becomes the current track on a new player with a no-op error listener; after a
     * failed extraction only the index moved.
     */
    twostate predicate SteppedHeadless(next: Resolved)
      reads this
    {
      if old(playlistTracks) == [] then
        && playlistIndex == old(playlistIndex) && lastVideoUrl == old(lastVideoUrl) && KeptStream()
        && currentTitle == old(currentTitle) && currentChannel == old(currentChannel)
        && hasPlayer == old(hasPlayer) && retryingPlayer == old(retryingPlayer)
      else
        && playlistIndex == NextIndex(old(playlistIndex), |playlistTracks|)
        && 0 <= playlistIndex < |playlistTracks|
        && var t := playlistTracks[playlistIndex];
        if next.Failure? then
          && lastVideoUrl == old(lastVideoUrl) && KeptStream()
          && currentTitle == old(currentTitle) && currentChannel == old(currentChannel)
          && hasPlayer == old(hasPlayer) && retryingPlayer == old(retryingPlayer)
        else
          && lastVideoUrl == Some(t.url) && HoldsStream(next.value)
          && currentTitle == OrEmpty(t.title) && currentChannel == OrEmpty(t.channel)
          && hasPlayer && !retryingPlayer
    }

    /** `_play_next_in_playlist_adaptive`, apart from `_user_paused`. */
    twostate predicate SteppedAdaptive(foreground: bool, next: Resolved)
      reads this
    {
      && (foreground ==> SteppedTo(NextIndex(old(playlistIndex), |old(playlistTracks)|)) && KeptStream())
      && (!foreground ==>
            && SteppedHeadless(next) && retryCnt == old(retryCnt) && hasAf == old(hasAf)
            && refreshDelay == old(refreshDelay) && watchdogArmed == old(watchdogArmed))
    }

    /** `__init__`, with no player yet. */
    constructor ()
      ensures Valid() && fresh(recovery)
      ensures !repeat && lastVideoUrl == None && currentStreamUrl == None && currentExpireTs == None
      ensures currentHeaders == map[] && retryCnt == 0 && lastPosMs == 0 && stallStartedTs == None
      ensures playlistTracks == [] && playlistIndex == 0 && !userPaused && currentTitle == "" && currentChannel == ""
      ensures lastActionTs == 0 && Halted()
      ensures !recovery.hasThread && !recovery.stop && recovery.Memory() == Watch(-1, None)
    {
      repeat := false;
      lastVideoUrl, currentStreamUrl, currentExpireTs, currentHeaders := None, None, None, map[];
      retryCnt, lastPosMs, stallStartedTs := 0, 0, None;
      playlistTracks, playlistIndex := [], 0;
      userPaused := false;
      currentTitle, currentChannel := "", "";
      hasAf := false;
      lastActionTs := 0;
      refreshDelay, watchdogArmed := None, false;
      hasPlayer, retryingPlayer := false, false;
      recovery := new Recovery();
    }

    /** Sets `_user_paused` and mirrors it into the recovery loop. */
    method SetUserPaused(value: bool)
      modifies this`userPaused, recovery`userPaused
      ensures userPaused == value && recovery.userPaused == value
      ensures recovery.hasThread == old(recovery.hasThread) && recovery.stop == old(recovery.stop)
      ensures recovery.Memory() == old(recovery.Memory())
    {
      userPaused := value;
      recovery.SetUserPaused(value);
    }

    /** `_debounce` with the clock reading `now` (ms). */
    method Debounce(now: int) returns (ok: bool)
      modifies this`lastActionTs
      ensures ok == DebounceAccepts(old(lastActionTs), now)
      ensures lastActionTs == if ok then now else old(lastActionTs)
    {
      if now - lastActionTs < DebounceMs {
        return false;
      }
      lastActionTs := now;
      ok := true;
    }

    /** `_cancel_events`. */
    method CancelEvents()
      modifies this`refreshDelay, this`watchdogArmed
      ensures refreshDelay == None && !watchdogArmed
    {
      refreshDelay := None;
      watchdogArmed := false;
    }

    /** The screen's `_mp_reset_release`. */
    method MpResetRelease()
      modifies this`hasPlayer, this`retryingPlayer
      ensures !hasPlayer && !retryingPlayer
    {
      hasPlayer := false;
      retryingPlayer := false;
    }

    /** The screen's `_mp_create_set_source_and_prepare_async`, with the given kind of error listener. */
    method MpCreate(retrying: bool)
      modifies this`hasPlayer, this`retryingPlayer
      ensures hasPlayer && retryingPlayer == retrying
    {
      hasPlayer := true;
      retryingPlayer := retrying;
    }

    /** `_request_audio_focus`: held focus is kept; otherwise `_has_af` follows the reply, and a raise leaves it unset. */
    method RequestAudioFocus(reply: FocusReply) returns (granted: bool)
      modifies this`hasAf
      ensures hasAf == (old(hasAf) || reply == Granted)
      ensures granted == hasAf
    {
      if hasAf {
        return true;
      }
      if reply.RequestRaised? {
        return false;
      }
      hasAf := reply.Granted?;
      granted := hasAf;
    }

    /** `_abandon_audio_focus`; `raises` is the system call raising, which leaves the flag set. */
    method AbandonAudioFocus(raises: bool)
      modifies this`hasAf
      ensures hasAf == (old(hasAf) && raises)
    {
      if !hasAf {
        return;
      }
      if raises {
        return;
      }
      hasAf := false;
    }

    /** `stop_audio`, with the abandon call succeeding. */
    method StopAudio()
      modifies this`refreshDelay, this`watchdogArmed, this`hasPlayer, this`retryingPlayer, this`hasAf
      ensures Halted()
    {
      CancelEvents();
      MpResetRelease();
      AbandonAudioFocus(false);
    }

    /** `play_audio` up to the point where it starts the extraction thread. */
    method PlayAudio(url: string, title: Option<string>, channel: Option<string>)
      requires Valid()
      modifies this`lastVideoUrl, this`retryCnt, this`refreshDelay, this`watchdogArmed, this`hasPlayer,
        this`retryingPlayer, this`hasAf, this`userPaused, this`currentTitle, this`currentChannel, recovery`userPaused
      ensures Valid()
      ensures AfterPlayAudio(url, title, channel)
    {
      lastVideoUrl := Some(url);
      retryCnt := 0;
      StopAudio();
      SetUserPaused(false);
      currentTitle := OrEmpty(title);
      currentChannel := OrEmpty(channel);
    }

    /** `_play_current_index`: the entry at the clamped index goes to `play_audio`, then `_after_track_switch`. */
    method PlayCurrentIndex()
      requires Valid()
      modifies this`lastVideoUrl, this`retryCnt, this`refreshDelay, this`watchdogArmed, this`hasPlayer,
        this`retryingPlayer, this`hasAf, this`userPaused, this`currentTitle, this`currentChannel, recovery`userPaused
      ensures Valid()
      ensures old(playlistTracks) == [] ==> KeptPlayback()
      ensures old(playlistTracks) != [] ==>
        var t := playlistTracks[ClampIndex(playlistIndex, |playlistTracks|)];
        AfterPlayAudio(t.url, t.title, t.channel)
    {
      if playlistTracks == [] {
        return;
      }
      var i := ClampIndex(playlistIndex, |playlistTracks|);
      var t := playlistTracks[i];
      PlayAudio(t.url, t.title, t.channel);
      SetUserPaused(false);
    }

    /** `play_playlist`: the normalised entries replace the playlist, and the first one plays. */
    method PlayPlaylist(tracks: seq<RawTrack>)
      requires Valid()
      modifies this`playlistTracks, this`playlistIndex, this`lastVideoUrl, this`retryCnt, this`refreshDelay,
        this`watchdogArmed, this`hasPlayer, this`retryingPlayer, this`hasAf, this`userPaused,
        this`currentTitle, this`currentChannel, recovery`userPaused
      ensures Valid()
      ensures |playlistTracks| == |tracks| && playlistIndex == 0
      ensures forall i :: 0 <= i < |tracks| ==>
        playlistTracks[i] == Track(Normalize(tracks[i].url), tracks[i].title, tracks[i].channel)
      ensures tracks == [] ==> KeptPlayback()
      ensures tracks != [] ==>
        AfterPlayAudio(playlistTracks[0].url, playlistTracks[0].title, playlistTracks[0].channel)
    {
      var norm := NormalizeTracks(tracks);
      playlistTracks := norm;
      playlistIndex := 0;
      if playlistTracks == [] {
        return;
      }
      PlayCurrentIndex();
    }

    /** `_play_next_in_playlist`. */
    method PlayNextInPlaylist()
      requires Valid()
      modifies this`playlistIndex, this`lastVideoUrl, this`retryCnt, this`refreshDelay, this`watchdogArmed,
        this`hasPlayer, this`retryingPlayer, this`hasAf, this`userPaused, this`currentTitle,
        this`currentChannel, recovery`userPaused
      ensures Valid()
      ensures SteppedTo(NextIndex(old(playlistIndex), |playlistTracks|))
    {
      if playlistTracks == [] {
        return;
      }
      playlistIndex := playlistIndex + 1;
      if playlistIndex >= |playlistTracks| {
        playlistIndex := 0;
      }
      PlayCurrentIndex();
    }

    /** `_play_prev_in_playlist`. */
    method PlayPrevInPlaylist()
      requires Valid()
      modifies this`playlistIndex, this`lastVideoUrl, this`retryCnt, this`refreshDelay, this`watchdogArmed,
        this`hasPlayer, this`retryingPlayer, this`hasAf, this`userPaused, this`currentTitle,
        this`currentChannel, recovery`userPaused
      ensures Valid()
      ensures SteppedTo(PrevIndex(old(playlistIndex), |playlistTracks|))
    {
      if playlistTracks == [] {
        return;
      }
      playlistIndex := playlistIndex - 1;
      if playlistIndex < 0 {
        playlistIndex := |playlistTracks| - 1;
      }
      PlayCurrentIndex();
    }

    /** `_play_next_in_playlist_headless`; `next` is the extraction of the next entry's url. */
    method PlayNextInPlaylistHeadless(next: Resolved)
      requires Valid()
      modifies this`playlistIndex, this`lastVideoUrl, this`currentStreamUrl, this`currentExpireTs,
        this`currentHeaders, this`currentTitle, this`currentChannel, this`hasPlayer, this`retryingPlayer
      ensures Valid()
      ensures SteppedHeadless(next)
    {
      if playlistTracks == [] {
        return;
      }
      playlistIndex := playlistIndex + 1;
      if playlistIndex >= |playlistTracks| {
        playlistIndex := 0;
      }
      var t := playlistTracks[playlistIndex];
      if next.Failure? {
        return;
      }
      TakeTrack(t, next.value);
      MpResetRelease();
      MpCreate(false);
    }

    /** The headless switch to track `t`, whose extraction resolved `info`. */
    method TakeTrack(t: Track, info: AudioInfo)
      modifies this`lastVideoUrl, this`currentStreamUrl, this`currentExpireTs, this`currentHeaders,
        this`currentTitle, this`currentChannel
      ensures lastVideoUrl == Some(t.url) && HoldsStream(info)
      ensures currentTitle == OrEmpty(t.title) && currentChannel == OrEmpty(t.channel)
    {
      lastVideoUrl := Some(t.url);
      currentStreamUrl := Some(info.audioUrl);
      currentExpireTs := info.expireTs;
      currentHeaders := info.httpHeaders;
      currentTitle := OrEmpty(t.title);
      currentChannel := OrEmpty(t.channel);
    }

    /** `_play_next_in_playlist_adaptive`, with `_is_foreground()` as `foreground`. */
    method PlayNextInPlaylistAdaptive(foreground: bool, next: Resolved)
      requires Valid()
      modifies this`playlistIndex, this`lastVideoUrl, this`retryCnt, this`refreshDelay, this`watchdogArmed,
        this`hasPlayer, this`retryingPlayer, this`hasAf, this`userPaused, this`currentTitle,
        this`currentChannel, this`currentStreamUrl, this`currentExpireTs, this`currentHeaders, recovery`userPaused
      ensures Valid()
      ensures SteppedAdaptive(foreground, next)
      ensures !foreground ==> userPaused == old(userPaused)
    {
      if foreground {
        PlayNextInPlaylist();
      } else {
        PlayNextInPlaylistHeadless(next);
      }
    }

    /** `_restart_same_url_adaptive`: `_restart_same_url` in the foreground (which also forgets the stall), `_restart_same_url_headless` otherwise. */
    method RestartSameUrlAdaptive(foreground: bool)
      modifies this`hasPlayer, this`retryingPlayer, this`refreshDelay, this`watchdogArmed, this`stallStartedTs
      ensures RestartedPlayer(foreground)
      ensures stallStartedTs == if foreground then None else old(stallStartedTs)
    {
      MpResetRelease();
      if foreground {
        CancelEvents();
        stallStartedTs := None;
      }
      MpCreate(false);
    }

    /** `_start_stream_from_video_url`, given what `_extract_audio_info` produced: only this player retries on error. */
    method StartStreamFromVideoUrl(r: Resolved)
      modifies this`currentStreamUrl, this`currentExpireTs, this`currentHeaders, this`hasPlayer, this`retryingPlayer
      ensures r.Failure? ==> unchanged(this)
      ensures r.Success? ==> HoldsStream(r.value) && hasPlayer && retryingPlayer
    {
      if r.Failure? {
        return;
      }
      currentStreamUrl := Some(r.value.audioUrl);
      currentExpireTs := r.value.expireTs;
      currentHeaders := r.value.httpHeaders;
      MpCreate(true);
    }

    /** `_schedule_expire_refresh` at `nowSec`: a new refresh only when there is an expiry. */
    method ScheduleExpireRefresh(nowSec: int)
      modifies this`refreshDelay
      ensures var d := ExpireRefreshDelay(currentExpireTs, nowSec);
        refreshDelay == if d.Some? then d else old(refreshDelay)
    {
      if currentExpireTs.None? || currentExpireTs.value == 0 {
        return;
      }
      var d := currentExpireTs.value - nowSec - RefreshLeadSec;
      refreshDelay := Some(if d > MinRefreshDelaySec then d else MinRefreshDelaySec);
    }

    /** `_start_watchdog`. */
    method StartWatchdog()
      modifies this`lastPosMs, this`stallStartedTs, this`watchdogArmed
      ensures lastPosMs == -1 && stallStartedTs == None && watchdogArmed
    {
      lastPosMs := -1;
      stallStartedTs := None;
      watchdogArmed := true;
    }

    /** The prepared callback of a foreground start: focus, `_mp_start`, the expiry refresh and the watchdog. */
    method OnPreparedForeground(reply: FocusReply, nowSec: int) returns (cmd: PlayerCommand)
      modifies this`hasAf, this`refreshDelay, this`lastPosMs, this`stallStartedTs, this`watchdogArmed
      ensures hasAf == (old(hasAf) || reply == Granted)
      ensures var d := ExpireRefreshDelay(currentExpireTs, nowSec);
        refreshDelay == if d.Some? then d else old(refreshDelay)
      ensures lastPosMs == -1 && stallStartedTs == None && watchdogArmed
      ensures cmd == if hasPlayer then StartCmd else NoCommand
    {
      var _ := RequestAudioFocus(reply);
      cmd := if hasPlayer then StartCmd else NoCommand;
      ScheduleExpireRefresh(nowSec);
      StartWatchdog();
    }

    /**
     * The prepared callback of a headless start: focus and `_mp_start`; after a headless
     * playlist step (`clearsPause`) the user pause is cleared as well.
     */
    method OnPreparedBackground(reply: FocusReply, clearsPause: bool) returns (cmd: PlayerCommand)
      requires Valid()
      modifies this`hasAf, this`userPaused, recovery`userPaused
      ensures Valid()
      ensures hasAf == (old(hasAf) || reply == Granted)
      ensures userPaused == (old(userPaused) && !clearsPause)
      ensures cmd == if hasPlayer then StartCmd else NoCommand
    {
      var _ := RequestAudioFocus(reply);
      cmd := if hasPlayer then StartCmd else NoCommand;
      if clearsPause {
        SetUserPaused(false);
      }
    }

    /**
     * `on_error`, fired by the current player's error listener. Only the player that
     * `_start_stream_from_video_url` made counts and restarts (while the count is at most
     * 3); the restarted player's listener is a no-op, so a further error changes nothing.
     */
    method OnError(foreground: bool) returns (restarted: bool)
      modifies this`retryCnt, this`hasPlayer, this`retryingPlayer, this`refreshDelay, this`watchdogArmed,
        this`stallStartedTs
      ensures !old(retryingPlayer) ==> unchanged(this) && !restarted
      ensures old(retryingPlayer) ==> retryCnt == old(retryCnt) + 1
      ensures restarted <==> old(retryingPlayer) && old(retryCnt) + 1 <= MaxRetries
      ensures restarted ==>
        RestartedPlayer(foreground) && stallStartedTs == (if foreground then None else old(stallStartedTs))
      ensures !restarted ==>
        && hasPlayer == old(hasPlayer) && retryingPlayer == old(retryingPlayer)
        && refreshDelay == old(refreshDelay) && watchdogArmed == old(watchdogArmed)
        && stallStartedTs == old(stallStartedTs)
    {
      if !retryingPlayer {
        return false;
      }
      retryCnt := retryCnt + 1;
      if retryCnt <= MaxRetries {
        RestartSameUrlAdaptive(foreground);
        return true;
      }
      restarted := false;
    }

    /** `_on_completion`: clear the user pause, then repeat, else advance the playlist, else stop. */
    method OnCompletion(foreground: bool, next: Resolved)
      requires Valid()
      modifies this`playlistIndex, this`lastVideoUrl, this`retryCnt, this`refreshDelay, this`watchdogArmed,
        this`hasPlayer, this`retryingPlayer, this`hasAf, this`userPaused, this`currentTitle,
        this`currentChannel, this`currentStreamUrl, this`currentExpireTs, this`currentHeaders,
        this`stallStartedTs, recovery`userPaused
      ensures Valid() && !userPaused
      ensures old(repeat) ==>
        && RestartedPlayer(foreground)
        && stallStartedTs == (if foreground then None else old(stallStartedTs))
        && playlistIndex == old(playlistIndex) && lastVideoUrl == old(lastVideoUrl) && retryCnt == old(retryCnt)
        && hasAf == old(hasAf) && currentTitle == old(currentTitle) && currentChannel == old(currentChannel)
        && KeptStream()
      ensures !old(repeat) && old(playlistTracks) != [] ==>
        SteppedAdaptive(foreground, next) && stallStartedTs == old(stallStartedTs)
      ensures !old(repeat) && old(playlistTracks) == [] ==>
        && playlistIndex == old(playlistIndex) && lastVideoUrl == old(lastVideoUrl) && retryCnt == old(retryCnt)
        && refreshDelay == old(refreshDelay) && watchdogArmed == old(watchdogArmed)
        && hasPlayer == old(hasPlayer) && retryingPlayer == old(retryingPlayer) && hasAf == old(hasAf)
        && currentTitle == old(currentTitle) && currentChannel == old(currentChannel)
        && KeptStream() && stallStartedTs == old(stallStartedTs)
    {
      SetUserPaused(false);
      if repeat {
        RestartSameUrlAdaptive(foreground);
      } else if playlistTracks != [] {
        PlayNextInPlaylistAdaptive(foreground, next);
      }
    }

    /** `_refresh_stream_and_resume`, given the extraction of `_last_video_url`; a failed one changes nothing. */
    method RefreshStreamAndResume(foreground: bool, r: Resolved)
      modifies this`currentStreamUrl, this`currentExpireTs, this`currentHeaders,
        this`hasPlayer, this`retryingPlayer, this`refreshDelay, this`watchdogArmed, this`stallStartedTs
      ensures r.Failure? ==> unchanged(this)
      ensures r.Success? ==>
        && HoldsStream(r.value) && RestartedPlayer(foreground)
        && stallStartedTs == (if foreground then None else old(stallStartedTs))
    {
      if r.Failure? {
        return;
      }
      currentStreamUrl := Some(r.value.audioUrl);
      currentExpireTs := r.value.expireTs;
      currentHeaders := r.value.httpHeaders;
      RestartSameUrlAdaptive(foreground);
    }

    /**
     * `_ms_toggle` at `now` (ms), with the engine's `isPlaying()` and the focus reply:
     * inside the debounce window nothing happens; a playing player is paused as the
     * user's pause; otherwise the pause is cleared, focus requested and the player
     * started whatever the focus reply was.
     */
    method MsToggle(now: int, enginePlaying: bool, reply: FocusReply) returns (cmd: PlayerCommand)
      requires Valid()
      modifies this`lastActionTs, this`userPaused, this`hasAf, recovery`userPaused
      ensures Valid()
      ensures !DebounceAccepts(old(lastActionTs), now) ==>
        cmd == NoCommand && lastActionTs == old(lastActionTs) && userPaused == old(userPaused) && hasAf == old(hasAf)
      ensures DebounceAccepts(old(lastActionTs), now) ==> lastActionTs == now
      ensures DebounceAccepts(old(lastActionTs), now) && hasPlayer && enginePlaying ==>
        cmd == PauseCmd && userPaused && hasAf == old(hasAf)
      ensures DebounceAccepts(old(lastActionTs), now) && !(hasPlayer && enginePlaying) ==>
        && cmd == (if hasPlayer then StartCmd else NoCommand)
        && !userPaused && hasAf == (old(hasAf) || reply == Granted)
    {
      var ok := Debounce(now);
      if !ok {
        return NoCommand;
      }
      if hasPlayer && enginePlaying {
        SetUserPaused(true);
        cmd := PauseCmd;
      } else {
        SetUserPaused(false);
        var _ := RequestAudioFocus(reply);
        cmd := if hasPlayer then StartCmd else NoCommand;
      }
    }

    /**
     * `_ms_prev`, with the engine's current position: more than 5000 ms into a track
     * seeks to its start, otherwise the previous entry plays; nothing without a playlist.
     */
    method MsPrev(positionMs: int) returns (cmd: PlayerCommand)
      requires Valid()
      modifies this`playlistIndex, this`lastVideoUrl, this`retryCnt, this`refreshDelay, this`watchdogArmed,
        this`hasPlayer, this`retryingPlayer, this`hasAf, this`userPaused, this`currentTitle,
        this`currentChannel, recovery`userPaused
      ensures Valid()
      ensures cmd == SeekToStart <==> old(playlistTracks) != [] && old(hasPlayer) && positionMs > 5000
      ensures cmd != SeekToStart ==> cmd == NoCommand
      ensures cmd == SeekToStart || old(playlistTracks) == [] ==> unchanged(this)
      ensures cmd == NoCommand ==> SteppedTo(PrevIndex(old(playlistIndex), |playlistTracks|))
    {
      if playlistTracks == [] {
        return NoCommand;
      }
      var pos := if hasPlayer then positionMs else 0;
      if pos > 5000 {
        return SeekToStart;
      }
      PlayPrevInPlaylist();
      cmd := NoCommand;
    }

    /** `_ms_next`. */
    method MsNext(foreground: bool, next: Resolved)
      requires Valid()
      modifies this`playlistIndex, this`lastVideoUrl, this`retryCnt, this`refreshDelay, this`watchdogArmed,
        this`hasPlayer, this`retryingPlayer, this`hasAf, this`userPaused, this`currentTitle,
        this`currentChannel, this`currentStreamUrl, this`currentExpireTs, this`currentHeaders, recovery`userPaused
      ensures Valid()
      ensures old(playlistTracks) == [] ==> unchanged(this)
      ensures SteppedAdaptive(foreground, next)
      ensures !foreground ==> userPaused == old(userPaused)
    {
      if playlistTracks != [] {
        PlayNextInPlaylistAdaptive(foreground, next);
      }
    }

    /**
     * `_watchdog_tick` at `now` (ms): `posReading`/`durReading` are the engine's
     * `getCurrentPosition()`/`getDuration()`, `refreshed` the extraction a refresh would
     * use. Without a player nothing happens; otherwise the stall memory moves as
     * `WatchdogStep` says, a `Refresh` runs `_refresh_stream_and_resume` and a `Resume`
     * requests focus and starts the player.
     */
    method WatchdogTick(netOk: bool, posReading: Option<int>, durReading: Option<int>, playing: bool,
                        now: int, reply: FocusReply, foreground: bool, refreshed: Resolved)
      returns (cb: Callback)
      modifies this`lastPosMs, this`stallStartedTs, this`hasAf, this`currentStreamUrl, this`currentExpireTs,
        this`currentHeaders, this`hasPlayer, this`retryingPlayer, this`refreshDelay, this`watchdogArmed
      ensures !old(hasPlayer) ==> unchanged(this) && cb == NoCallback
      ensures old(hasPlayer) ==>
        var o := WatchdogStep(Watch(old(lastPosMs), old(stallStartedTs)), userPaused,
          Some(PlayerState(OrDefault(posReading, 0), OrDefault(durReading, 1), playing)), netOk, now);
        Watch(lastPosMs, stallStartedTs) == o.watch && cb == o.callback
      ensures hasAf == (if cb == Resume then old(hasAf) || reply == Granted else old(hasAf))
      ensures cb == Refresh && refreshed.Success? ==> HoldsStream(refreshed.value) && RestartedPlayer(foreground)
      ensures !(cb == Refresh && refreshed.Success?) ==>
        && KeptStream() && hasPlayer == old(hasPlayer) && retryingPlayer == old(retryingPlayer)
        && refreshDelay == old(refreshDelay) && watchdogArmed == old(watchdogArmed)
    {
      cb := NoCallback;
      if !hasPlayer {
        return;
      }
      var pos := OrDefault(posReading, 0);
      if !netOk {
        if stallStartedTs.None? {
          stallStartedTs := Some(now);
        }
        return;
      }
      if playing {
        if lastPosMs == pos {
          if stallStartedTs.None? {
            stallStartedTs := Some(now);
          } else if now - stallStartedTs.value >= StallMs && !userPaused {
            stallStartedTs := None;
            RefreshStreamAndResume(foreground, refreshed);
            cb := Refresh;
          }
        } else {
          stallStartedTs := None;
        }
      } else if !userPaused {
        var dur := OrDefault(durReading, 1);
        if 0 < pos < dur - EndMarginMs {
          var _ := RequestAudioFocus(reply);
          cb := Resume;
        }
      }
      lastPosMs := pos;
    }

    /** `AFChangeListener.onAudioFocusChange`, with the engine's `isPlaying()`. */
    method OnAudioFocusChange(change: int, enginePlaying: bool) returns (effect: FocusEffect)
      requires Valid()
      modifies this`userPaused, this`hasAf, recovery`userPaused
      ensures Valid()
      ensures FocusOutcome(effect, userPaused, hasAf) == FocusStep(change, hasPlayer, enginePlaying, old(userPaused), old(hasAf))
    {
      effect := NoEffect;
      if change == AudioFocusGain {
        if hasPlayer && !enginePlaying && !userPaused {
          effect := StartPlayer;
        }
      } else if change == AudioFocusLoss || change == AudioFocusLossTransient {
        if hasPlayer && enginePlaying {
          effect := PausePlayer;
          SetUserPaused(true);
        }
        if change == AudioFocusLoss {
          hasAf := false;
        }
      }
    }
  }
}
