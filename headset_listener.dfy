/**
 * headset_listener.py: the key listener that turns media-button key events into router
 * calls, and the router that forwards them to the registered callbacks and binds or
 * unbinds the listener on the window's decor view.
 */
module HeadsetListener {
  import opened Wrappers

  // android.view.KeyEvent constants
  const ActionDown := 0
  const KeycodeHeadsetHook := 79
  const KeycodeMediaPlayPause := 85
  const KeycodeMediaNext := 87
  const KeycodeMediaPrevious := 88
  const KeycodeMediaPlay := 126
  const KeycodeMediaPause := 127

  /** The router methods `onKey` can call. */
  datatype RouterCall = OnPlay | OnPause | OnToggle | OnNext | OnPrev

  /** The key codes that reach each router method. */
  function KeysOf(c: RouterCall): set<int> {
    match c
    case OnToggle => {KeycodeMediaPlayPause, KeycodeHeadsetHook}
    case OnPlay => {KeycodeMediaPlay}
    case OnPause => {KeycodeMediaPause}
    case OnNext => {KeycodeMediaNext}
    case OnPrev => {KeycodeMediaPrevious}
  }

  /** What `onKey` returns and which router method it called, if any. */
  datatype KeyResult = KeyResult(handled: bool, call: Option<RouterCall>)

  /**
   * `_HeadsetKeyListener.onKey`: only a key-down event of one of the six media keys is
   * consumed, and then it calls the one router method that key belongs to.
   */
  function OnKey(action: int, keyCode: int): (r: KeyResult)
    ensures r.handled <==> action == ActionDown && exists c :: keyCode in KeysOf(c)
    ensures r.call.Some? <==> r.handled
    ensures r.call.Some? ==> keyCode in KeysOf(r.call.value)
  {
    if action != ActionDown then KeyResult(false, None)
    else if keyCode == KeycodeMediaPlayPause || keyCode == KeycodeHeadsetHook then (assert keyCode in KeysOf(OnToggle); KeyResult(true, Some(OnToggle)))
    else if keyCode == KeycodeMediaPlay then (assert keyCode in KeysOf(OnPlay); KeyResult(true, Some(OnPlay)))
    else if keyCode == KeycodeMediaPause then (assert keyCode in KeysOf(OnPause); KeyResult(true, Some(OnPause)))
    else if keyCode == KeycodeMediaNext then (assert keyCode in KeysOf(OnNext); KeyResult(true, Some(OnNext)))
    else if keyCode == KeycodeMediaPrevious then (assert keyCode in KeysOf(OnPrev); KeyResult(true, Some(OnPrev)))
    else
      assert forall c :: keyCode !in KeysOf(c);
      KeyResult(false, None)
  }

  /** No key code belongs to two router methods, so a key-down event has at most one target. */
  lemma KeySetsDisjoint(c: RouterCall, d: RouterCall, keyCode: int)
    requires keyCode in KeysOf(c) && keyCode in KeysOf(d)
    ensures c == d
  {
  }

  /** What `set_active` does to the decor view. */
  datatype BindOp = Bind | Unbind | Unchanged

  /** `HeadsetRouter`; a callback is known by an identifier. */
  class HeadsetRouter {
    var callbacks: map<RouterCall, nat>
    var bound: bool

    constructor ()
      ensures callbacks == map[] && !bound
    {
      callbacks := map[];
      bound := false;
    }

    /** `set_callbacks`: the whole table is replaced by the five given callbacks. */
    method SetCallbacks(onPlay: nat, onPause: nat, onToggle: nat, onNext: nat, onPrev: nat)
      modifies this
      ensures callbacks == map[OnPlay := onPlay, OnPause := onPause, OnToggle := onToggle, OnNext := onNext, OnPrev := onPrev]
      ensures bound == old(bound)
    {
      callbacks := map[OnPlay := onPlay, OnPause := onPause, OnToggle := onToggle, OnNext := onNext, OnPrev := onPrev];
    }

    /** `on_play` … `on_prev`: the registered callback, or nothing when none is registered. */
    function Invoke(c: RouterCall): Option<nat>
      reads this
    {
      if c in callbacks then Some(callbacks[c]) else None
    }

    /** A key event delivered to the bound listener: whether it is consumed and which callback runs. */
    method HandleKey(action: int, keyCode: int) returns (handled: bool, fired: Option<nat>)
      ensures handled <==> action == ActionDown && exists c :: keyCode in KeysOf(c)
      ensures fired.Some? ==> exists c :: c in callbacks && keyCode in KeysOf(c) && fired.value == callbacks[c]
      ensures handled && (forall c :: c in callbacks) ==> fired.Some?
      ensures !handled ==> fired.None?
    {
      var r := OnKey(action, keyCode);
      handled := r.handled;
      fired := if r.call.Some? then Invoke(r.call.value) else None;
    }

    /**
     * `set_active`: binds only going from unbound to active and unbinds only going from
     * bound to inactive; afterwards `_bound` equals `active`.
     */
    method SetActive(active: bool) returns (op: BindOp)
      modifies this
      ensures bound == active
      ensures op == Bind <==> active && !old(bound)
      ensures op == Unbind <==> !active && old(bound)
      ensures callbacks == old(callbacks)
    {
      op := Unchanged;
      if active && !bound {
        op := Bind;
        bound := true;
      } else if !active && bound {
        op := Unbind;
        bound := false;
      }
    }
  }
}
