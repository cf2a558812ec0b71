/**
 * stream_recovery.py: the StreamRecovery watchdog. One pass of its loop reads the
 * player state, and the caller supplies what the network probe answered and the clock
 * (in milliseconds). A pass either calls no callback, calls `on_refresh` (playback stuck
 * for 10 s) or calls `on_resume` (stopped mid-track without a user pause).
 */
module StreamRecovery {
  import opened Wrappers

  /** What `get_player_state()` returns: `(pos_ms, dur_ms, playing)`. */
  datatype PlayerState = PlayerState(pos: int, dur: int, playing: bool)

  datatype Callback = NoCallback | Refresh | Resume

  /** The loop's memory: `_last_pos` and `_stall_ts`. */
  datatype Watch = Watch(lastPos: int, stallTs: Option<int>)

  datatype Outcome = Outcome(watch: Watch, callback: Callback)

  /** A stall this long (10 s) triggers a refresh. */
  const StallMs := 10000

  /** Playback stopped this close (1.5 s) to the end is left alone. */
  const EndMarginMs := 1500

  function Max(a: int, b: int): int {
    if a >= b then a else b
  }

  /** `0 < pos < max(1, dur - 1500)`: stopped inside the track, not at its end. */
  predicate ShouldResume(pos: int, dur: int) {
    0 < pos < Max(1, dur - EndMarginMs)
  }

  /** One pass of `_loop` from the state `w`, with the network and the clock as inputs. */
  function Step(w: Watch, userPaused: bool, st: Option<PlayerState>, netOk: bool, now: int): (o: Outcome)
    // no player state: nothing changes and nothing is called
    ensures st.None? ==> o == Outcome(w, NoCallback)
    // offline: only a missing stall start is recorded
    ensures st.Some? && !netOk ==>
      o == Outcome(Watch(w.lastPos, if w.stallTs.None? then Some(now) else w.stallTs), NoCallback)
    // every online pass remembers the position it saw
    ensures st.Some? && netOk ==> o.watch.lastPos == st.value.pos
    ensures o.callback == Refresh <==>
      st.Some? && netOk && st.value.playing && st.value.pos == w.lastPos &&
      w.stallTs.Some? && now - w.stallTs.value >= StallMs
    ensures o.callback == Resume <==>
      st.Some? && netOk && !st.value.playing && !userPaused && ShouldResume(st.value.pos, st.value.dur)
    // a refresh, moving playback or a user pause clear the stall
    ensures o.callback == Refresh ==> o.watch.stallTs.None?
    ensures st.Some? && netOk && st.value.playing && st.value.pos != w.lastPos ==> o.watch.stallTs.None?
    ensures st.Some? && netOk && !st.value.playing && userPaused ==> o.watch.stallTs.None?
    // the first stuck pass records when the stall started
    ensures st.Some? && netOk && st.value.playing && st.value.pos == w.lastPos && w.stallTs.None? ==>
      o.watch.stallTs == Some(now)
    // the stall start is never moved: it is kept, cleared or set to now
    ensures o.watch.stallTs == w.stallTs || o.watch.stallTs.None? || o.watch.stallTs == Some(now)
  {
    match st
    case None => Outcome(w, NoCallback)
    case Some(PlayerState(pos, dur, playing)) =>
      if !netOk then
        Outcome(Watch(w.lastPos, if w.stallTs.None? then Some(now) else w.stallTs), NoCallback)
      else if playing then
        if pos == w.lastPos then
          if w.stallTs.None? then Outcome(Watch(pos, Some(now)), NoCallback)
          else if now - w.stallTs.value >= StallMs then Outcome(Watch(pos, None), Refresh)
          else Outcome(Watch(pos, w.stallTs), NoCallback)
        else Outcome(Watch(pos, None), NoCallback)
      else if userPaused then Outcome(Watch(pos, None), NoCallback)
      else Outcome(Watch(pos, w.stallTs), if ShouldResume(pos, dur) then Resume else NoCallback)
  }

  /** One observation fed to a pass of the loop. */
  datatype Obs = Obs(state: Option<PlayerState>, netOk: bool, now: int)

  /** The callbacks a sequence of passes makes, with `_user_paused` fixed throughout. */
  function Callbacks(w: Watch, userPaused: bool, obs: seq<Obs>): (cbs: seq<Callback>)
    ensures |cbs| == |obs|
    decreases |obs|
  {
    if |obs| == 0 then []
    else
      var o := Step(w, userPaused, obs[0].state, obs[0].netOk, obs[0].now);
      [o.callback] + Callbacks(o.watch, userPaused, obs[1..])
  }

  predicate NonDecreasing(obs: seq<Obs>) {
    forall i, j :: 0 <= i < j < |obs| ==> obs[i].now <= obs[j].now
  }

  /** While the user has paused, no number of passes ever resumes playback. */
  lemma {:induction false} UserPauseNeverResumed(w: Watch, obs: seq<Obs>)
    ensures forall i :: 0 <= i < |obs| ==> Callbacks(w, true, obs)[i] != Resume
    decreases |obs|
  {
    if |obs| > 0 {
      var o := Step(w, true, obs[0].state, obs[0].netOk, obs[0].now);
      UserPauseNeverResumed(o.watch, obs[1..]);
      assert forall i :: 1 <= i < |obs| ==> Callbacks(w, true, obs)[i] == Callbacks(o.watch, true, obs[1..])[i - 1];
    }
  }

  /**
   * When no stall is older than `t` and no pass is earlier than `t`, a refresh cannot
   * come before `t + 10 s`.
   */
  lemma {:induction false} RefreshNotBefore(w: Watch, userPaused: bool, obs: seq<Obs>, t: int, j: nat)
    requires w.stallTs.None? || w.stallTs.value >= t
    requires forall k :: 0 <= k < |obs| ==> obs[k].now >= t
    requires j < |obs| && Callbacks(w, userPaused, obs)[j] == Refresh
    ensures obs[j].now >= t + StallMs
    decreases j
  {
    var o := Step(w, userPaused, obs[0].state, obs[0].netOk, obs[0].now);
    if j > 0 {
      assert Callbacks(w, userPaused, obs)[j] == Callbacks(o.watch, userPaused, obs[1..])[j - 1];
      RefreshNotBefore(o.watch, userPaused, obs[1..], t, j - 1);
    }
  }

  /** Two refreshes of one run are at least 10 s apart on a clock that does not go back. */
  lemma {:induction false} RefreshesTenSecondsApart(w: Watch, userPaused: bool, obs: seq<Obs>, i: nat, j: nat)
    requires NonDecreasing(obs)
    requires i < j < |obs|
    requires Callbacks(w, userPaused, obs)[i] == Refresh && Callbacks(w, userPaused, obs)[j] == Refresh
    ensures obs[j].now - obs[i].now >= StallMs
    decreases i
  {
    var o := Step(w, userPaused, obs[0].state, obs[0].netOk, obs[0].now);
    var rest := obs[1..];
    assert Callbacks(w, userPaused, obs)[j] == Callbacks(o.watch, userPaused, rest)[j - 1];
    if i > 0 {
      assert Callbacks(w, userPaused, obs)[i] == Callbacks(o.watch, userPaused, rest)[i - 1];
      RefreshesTenSecondsApart(o.watch, userPaused, rest, i - 1, j - 1);
    } else {
      RefreshNotBefore(o.watch, userPaused, rest, obs[0].now, j - 1);
    }
  }

  /** Every pass sees the player playing, stuck at `pos`, with the network up. */
  predicate StuckAt(obs: seq<Obs>, pos: int) {
    forall k :: 0 <= k < |obs| ==>
      obs[k].netOk && obs[k].state.Some? && obs[k].state.value.playing && obs[k].state.value.pos == pos
  }

  /** A stall that started at `s` is refreshed by the first stuck pass 10 s after `s`. */
  lemma {:induction false} StuckPlaybackRefreshed(w: Watch, userPaused: bool, obs: seq<Obs>)
    requires w.stallTs.Some? && StuckAt(obs, w.lastPos)
    requires |obs| > 0 && obs[|obs| - 1].now - w.stallTs.value >= StallMs
    ensures exists k :: 0 <= k < |obs| && Callbacks(w, userPaused, obs)[k] == Refresh
    decreases |obs|
  {
    var o := Step(w, userPaused, obs[0].state, obs[0].netOk, obs[0].now);
    if o.callback == Refresh {
      assert Callbacks(w, userPaused, obs)[0] == Refresh;
    } else {
      assert o.watch == w;
      assert |obs| > 1;
      StuckPlaybackRefreshed(w, userPaused, obs[1..]);
      var k :| 0 <= k < |obs| - 1 && Callbacks(w, userPaused, obs[1..])[k] == Refresh;
      assert Callbacks(w, userPaused, obs)[k + 1] == Refresh;
    }
  }

  /**
   * `StreamRecovery`: `_th` is reduced to whether a handle is held (whether that thread
   * is alive is an input of `start`); the callbacks are the values a pass returns.
   */
  class Recovery {
    var hasThread: bool
    var stop: bool
    var lastPos: int
    var stallTs: Option<int>
    var userPaused: bool

    constructor ()
      ensures !hasThread && !stop && lastPos == -1 && stallTs == None && !userPaused
    {
      hasThread, stop, lastPos, stallTs, userPaused := false, false, -1, None, false;
    }

    function Memory(): Watch
      reads this
    {
      Watch(lastPos, stallTs)
    }

    /** `start`: always clears `_stop`; spawns a loop unless the held one is still alive. */
    method Start(threadAlive: bool) returns (spawned: bool)
      modifies this
      ensures !stop && hasThread
      ensures spawned <==> !(old(hasThread) && threadAlive)
      ensures lastPos == old(lastPos) && stallTs == old(stallTs) && userPaused == old(userPaused)
    {
      stop := false;
      if hasThread && threadAlive {
        return false;
      }
      hasThread := true;
      spawned := true;
    }

    /** `stop`: sets `_stop` and drops the handle. */
    method Stop()
      modifies this
      ensures stop && !hasThread
      ensures lastPos == old(lastPos) && stallTs == old(stallTs) && userPaused == old(userPaused)
    {
      stop := true;
      hasThread := false;
    }

    method SetUserPaused(value: bool)
      modifies this`userPaused
      ensures userPaused == value
      ensures hasThread == old(hasThread) && stop == old(stop) && Memory() == old(Memory())
    {
      userPaused := value;
    }

    /** One pass of `_loop`; once `_stop` is set the loop has ended and nothing happens. */
    method Tick(st: Option<PlayerState>, netOk: bool, now: int) returns (cb: Callback)
      modifies this
      ensures old(stop) ==> cb == NoCallback && Memory() == old(Memory())
      ensures !old(stop) ==> Outcome(Memory(), cb) == Step(old(Memory()), userPaused, st, netOk, now)
      ensures hasThread == old(hasThread) && stop == old(stop) && userPaused == old(userPaused)
    {
      cb := NoCallback;
      if stop || st.None? {
        return;
      }
      var PlayerState(pos, dur, playing) := st.value;
      if !netOk {
        if stallTs.None? {
          stallTs := Some(now);
        }
        return;
      }
      if playing {
        if pos == lastPos {
          if stallTs.None? {
            stallTs := Some(now);
          } else if now - stallTs.value >= StallMs {
            stallTs := None;
            cb := Refresh;
          }
        } else {
          stallTs := None;
        }
      } else {
        if userPaused {
          stallTs := None;
        } else if 0 < pos < Max(1, dur - EndMarginMs) {
          cb := Resume;
        }
      }
      lastPos := pos;
    }
  }
}
