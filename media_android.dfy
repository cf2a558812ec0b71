/**
 * media_android.py: the module globals `android_player`, `is_playing` and `_mp_prepared`
 * and the wrappers that gate start, pause and seek on them; the notification-action
 * router; the action list of the media notification; and the playback state reported
 * to the MediaSession. Calls into Android that may raise are boolean inputs.
 */
module MediaAndroid {
  import opened Wrappers

  /**
   * The player globals. `enginePlaying` is what the MediaPlayer's own `isPlaying()`
   * reports, `isPlaying` is the module flag of the same name, `positionMs` the engine's
   * position after the last seek.
   */
  class PlayerGlobals {
    var hasPlayer: bool
    var enginePlaying: bool
    var positionMs: int
    var isPlaying: bool
    var prepared: bool

    /** The module is imported with no player, not playing and not prepared. */
    constructor ()
      ensures !hasPlayer && !enginePlaying && !isPlaying && !prepared
    {
      hasPlayer, enginePlaying, positionMs, isPlaying, prepared := false, false, 0, false, false;
    }

    /** The engine can only be playing while a player exists. */
    predicate Valid()
      reads this
    {
      enginePlaying ==> hasPlayer
    }

    /** `_is_prepared`: a player exists and its prepared callback has run. */
    predicate IsPrepared()
      reads this
    {
      hasPlayer && prepared
    }

    /**
     * The flag effects of `_mp_create_set_source_and_prepare_async`: `_mp_prepared` is
     * cleared first, then a fresh idle player replaces the old handle (unless the
     * constructor raises, which keeps the old one); `is_playing` is not touched.
     */
    method CreateSetSourceAndPrepareAsync(constructorRaises: bool)
      requires Valid()
      modifies this
      ensures Valid()
      ensures !prepared && !IsPrepared()
      ensures isPlaying == old(isPlaying)
      ensures constructorRaises ==> hasPlayer == old(hasPlayer) && enginePlaying == old(enginePlaying) && positionMs == old(positionMs)
      ensures !constructorRaises ==> hasPlayer && !enginePlaying && positionMs == 0
    {
      prepared := false;
      if constructorRaises {
        return;
      }
      hasPlayer, enginePlaying, positionMs := true, false, 0;
    }

    /** `_wrap_on_prepared`: the only place that sets `_mp_prepared`. */
    method OnPreparedWrapper()
      requires Valid()
      modifies this
      ensures Valid()
      ensures prepared
      ensures hasPlayer == old(hasPlayer) && enginePlaying == old(enginePlaying)
      ensures positionMs == old(positionMs) && isPlaying == old(isPlaying)
      ensures hasPlayer ==> IsPrepared()
    {
      prepared := true;
    }

    /** `_mp_start`: starts and sets `is_playing` only on a prepared player; a raising `start()` changes nothing. */
    method MpStart(startRaises: bool)
      requires Valid()
      modifies this
      ensures Valid()
      ensures old(IsPrepared()) && !startRaises ==> enginePlaying && isPlaying
      ensures !(old(IsPrepared()) && !startRaises) ==> enginePlaying == old(enginePlaying) && isPlaying == old(isPlaying)
      ensures hasPlayer == old(hasPlayer) && prepared == old(prepared) && positionMs == old(positionMs)
    {
      if hasPlayer && prepared {
        if !startRaises {
          enginePlaying := true;
          isPlaying := true;
        }
      }
    }

    /** `_mp_pause`: acts only when the engine reports playing, and then clears `is_playing`. */
    method MpPause()
      requires Valid()
      modifies this
      ensures Valid()
      ensures old(enginePlaying) ==> !enginePlaying && !isPlaying
      ensures !old(enginePlaying) ==> isPlaying == old(isPlaying) && !enginePlaying
      ensures hasPlayer == old(hasPlayer) && prepared == old(prepared) && positionMs == old(positionMs)
    {
      if hasPlayer && enginePlaying {
        enginePlaying := false;
        isPlaying := false;
      }
    }

    /** `_mp_seek_to`: ignored unless a prepared player exists; a raising `seekTo` changes nothing. */
    method MpSeekTo(ms: int, seekRaises: bool)
      requires Valid()
      modifies this
      ensures Valid()
      ensures old(IsPrepared()) && !seekRaises ==> positionMs == ms
      ensures !(old(IsPrepared()) && !seekRaises) ==> positionMs == old(positionMs)
      ensures hasPlayer == old(hasPlayer) && prepared == old(prepared)
      ensures enginePlaying == old(enginePlaying) && isPlaying == old(isPlaying)
    {
      if hasPlayer && prepared && !seekRaises {
        positionMs := ms;
      }
    }

    /** `_mp_reset_release`: whatever `reset()`/`release()` do, everything ends cleared. */
    method MpResetRelease(releaseRaises: bool)
      modifies this
      ensures Valid()
      ensures !hasPlayer && !enginePlaying && !isPlaying && !prepared && !IsPrepared()
    {
      // a raising reset() or release() is caught and logged; the globals are cleared regardless
      hasPlayer := false;
      enginePlaying := false;
      isPlaying := false;
      prepared := false;
    }
  }

  /** Starting needs preparation: a newly created player cannot be started before its prepared callback. */
  method CreatedPlayerIgnoresStart(g: PlayerGlobals)
    requires g.Valid()
    modifies g
    ensures !g.enginePlaying && g.hasPlayer && g.isPlaying == old(g.isPlaying)
  {
    g.CreateSetSourceAndPrepareAsync(false);
    g.MpStart(false);
  }

  // ------------------------------------------------------ notification router

  const ActionPrev := "org.koteuka404.pymusic.PREV"
  const ActionPlay := "org.koteuka404.pymusic.PLAY"
  const ActionPause := "org.koteuka404.pymusic.PAUSE"
  const ActionToggle := "org.koteuka404.pymusic.TOGGLE"
  const ActionNext := "org.koteuka404.pymusic.NEXT"

  /** The `_ms_*` handlers a router owner may define. */
  datatype Handler = MsNext | MsPrev | MsToggle | MsPlay | MsPause

  function ActionOf(h: Handler): string {
    match h
    case MsNext => ActionNext
    case MsPrev => ActionPrev
    case MsToggle => ActionToggle
    case MsPlay => ActionPlay
    case MsPause => ActionPause
  }

  /** An incoming intent; `action` None is what `getAction()` returns for an action-less intent. */
  datatype Intent = Intent(action: Option<string>)

  /**
   * `_on_new_intent`: the handler called for `intent`, given the set of handlers the
   * bound owner defines (None: no owner bound).
   */
  function OnNewIntent(owner: Option<set<Handler>>, intent: Option<Intent>): (called: Option<Handler>)
    ensures called.Some? <==>
      owner.Some? && intent.Some? &&
      exists h :: h in owner.value && ActionOf(h) == intent.value.action.GetOr("")
    ensures called.Some? ==> called.value in owner.value && ActionOf(called.value) == intent.value.action.GetOr("")
  {
    if owner.None? || intent.None? then None
    else
      var act := intent.value.action.GetOr("");
      var has := owner.value;
      if act == ActionNext && MsNext in has then Some(MsNext)
      else if act == ActionPrev && MsPrev in has then Some(MsPrev)
      else if act == ActionToggle && MsToggle in has then Some(MsToggle)
      else if act == ActionPlay && MsPlay in has then Some(MsPlay)
      else if act == ActionPause && MsPause in has then Some(MsPause)
      else None
  }

  /** Each of the five actions reaches its own handler, whenever the owner defines it. */
  lemma RoutesEachAction(has: set<Handler>, h: Handler)
    requires h in has
    ensures OnNewIntent(Some(has), Some(Intent(Some(ActionOf(h))))) == Some(h)
  {
  }

  // ------------------------------------------------------ notification actions

  datatype NotifAction = NotifAction(title: string, action: string, requestCode: int)

  const PrevButton := NotifAction("Prev", ActionPrev, 203)
  const PauseButton := NotifAction("Pause", ActionPause, 201)
  const PlayButton := NotifAction("Play", ActionPlay, 202)
  const NextButton := NotifAction("Next", ActionNext, 204)

  /** The three buttons in order: prev, pause while playing or play otherwise, next. */
  function Buttons(isPlaying: bool): seq<NotifAction> {
    [PrevButton, if isPlaying then PauseButton else PlayButton, NextButton]
  }

  /** What the builder ends with: the actions added, whether a MediaStyle was set, and its compact indices. */
  datatype NotifLayout = NotifLayout(actions: seq<NotifAction>, styled: bool, compact: seq<nat>)

  function Min(a: int, b: int): int {
    if a <= b then a else b
  }

  /**
   * The action part of `create_or_update_media_notification`: `failAt` is the index of
   * the `addAction` call that raises (later ones are skipped), `hasMediaStyle` whether the
   * platform class loaded. The compact view shows `range(min(3, actions_added))`.
   */
  method NotificationActions(isPlaying: bool, failAt: Option<nat>, hasMediaStyle: bool) returns (layout: NotifLayout)
    ensures var n := if failAt.Some? then Min(failAt.value, 3) else 3;
      layout.actions == Buttons(isPlaying)[..n]
    ensures layout.styled == hasMediaStyle
    ensures layout.styled && |layout.actions| > 0 ==>
      |layout.compact| == Min(3, |layout.actions|) && forall k :: 0 <= k < |layout.compact| ==> layout.compact[k] == k
    ensures !(layout.styled && |layout.actions| > 0) ==> layout.compact == []
    ensures forall k :: 0 <= k < |layout.compact| ==> layout.compact[k] < |layout.actions|
    ensures failAt.None? ==> |layout.actions| == 3
  {
    var buttons := Buttons(isPlaying);
    var added: seq<NotifAction> := [];
    var actionsAdded := 0;
    while actionsAdded < 3 && failAt != Some(actionsAdded)
      invariant 0 <= actionsAdded <= 3
      invariant failAt.Some? ==> actionsAdded <= failAt.value
      invariant added == buttons[..actionsAdded]
    {
      added := added + [buttons[actionsAdded]];
      actionsAdded := actionsAdded + 1;
    }
    var compact: seq<nat> := [];
    if hasMediaStyle && actionsAdded > 0 {
      compact := seq(Min(3, actionsAdded), k requires 0 <= k => k);
    }
    layout := NotifLayout(added, hasMediaStyle, compact);
  }

  // ------------------------------------------------------ media session state

  datatype SessionAction = Play | Pause | PlayPause | SkipToNext | SkipToPrevious | SeekTo

  datatype StateCode = StatePlaying | StatePaused

  /** The PlaybackState built: its actions, state code, position and speed (playing or halted). */
  datatype PlaybackReport = PlaybackReport(actions: set<SessionAction>, state: StateCode, positionMs: int, moving: bool)

  /**
   * `update_media_session_state`: None when no session is registered; otherwise the five
   * transport actions, SEEK_TO exactly when seeking is allowed, and the position with a
   * missing or negative value reported as 0.
   */
  function UpdateMediaSessionState(hasSession: bool, isPlaying: bool, positionMs: Option<int>, canSeek: bool): (r: Option<PlaybackReport>)
    ensures r.Some? <==> hasSession
    ensures r.Some? ==> (SeekTo in r.value.actions <==> canSeek)
    ensures r.Some? ==> {Play, Pause, PlayPause, SkipToNext, SkipToPrevious} <= r.value.actions
    ensures r.Some? ==> r.value.positionMs >= 0
    ensures r.Some? && positionMs.Some? && positionMs.value >= 0 ==> r.value.positionMs == positionMs.value
    ensures r.Some? && (positionMs.None? || positionMs.value < 0) ==> r.value.positionMs == 0
    ensures r.Some? ==> (r.value.state == StatePlaying <==> isPlaying) && r.value.moving == isPlaying
  {
    if !hasSession then None
    else
      var base := {Play, Pause, PlayPause, SkipToNext, SkipToPrevious};
      var actions := if canSeek then base + {SeekTo} else base;
      var pos := positionMs.GetOr(0);
      Some(PlaybackReport(actions, if isPlaying then StatePlaying else StatePaused, if pos > 0 then pos else 0, isPlaying))
  }
}
