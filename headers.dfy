/**
 * Turning a Python dict of headers into the Java HashMap MediaPlayer takes: copy the
 * entries whose key and value are both non-empty, then `put` each default header whose
 * key is still missing. Both `py_headers_to_javamap` and `_py_headers_to_javamap` do this,
 * each with its own list of defaults.
 */
module JavaHeaders {
  import opened Wrappers
  import opened YtInfo

  /** The entries the copy loop keeps: `if k and v: m.put(k, v)`. */
  function NonEmptyEntries(h: Headers): (m: Headers)
    ensures forall k :: k in m <==> k in h && k != "" && h[k] != ""
    ensures forall k :: k in m ==> m[k] == h[k]
  {
    map k | k in h && k != "" && h[k] != "" :: h[k]
  }

  /** `if not m.containsKey(k): m.put(k, v)` for each default in order. */
  function PutAbsent(m: Headers, defaults: seq<(string, string)>): Headers
    decreases |defaults|
  {
    if |defaults| == 0 then m
    else
      var before := PutAbsent(m, defaults[..|defaults| - 1]);
      var (k, v) := defaults[|defaults| - 1];
      if k in before then before else before[k := v]
  }

  /** The map the conversion produces from `headers` (None reads as an empty dict). */
  function JavaMap(headers: Option<Headers>, defaults: seq<(string, string)>): Headers {
    PutAbsent(NonEmptyEntries(headers.GetOr(map[])), defaults)
  }

  /**
   * Every key already present keeps its value; a missing key gets the value of the
   * FIRST default that names it; nothing else is added.
   */
  lemma {:induction false} PutAbsentSpec(m: Headers, defaults: seq<(string, string)>, k: string)
    ensures k in PutAbsent(m, defaults) <==> k in m || exists j :: 0 <= j < |defaults| && defaults[j].0 == k
    ensures k in m ==> PutAbsent(m, defaults)[k] == m[k]
    ensures k !in m && k in PutAbsent(m, defaults) ==>
      exists j :: 0 <= j < |defaults| && defaults[j].0 == k && PutAbsent(m, defaults)[k] == defaults[j].1 &&
        forall i :: 0 <= i < j ==> defaults[i].0 != k
    decreases |defaults|
  {
    if |defaults| > 0 {
      var init := defaults[..|defaults| - 1];
      PutAbsentSpec(m, init, k);
      assert forall i :: 0 <= i < |init| ==> init[i] == defaults[i];
      var before := PutAbsent(m, init);
      if k !in m && k in before {
        var j :| 0 <= j < |init| && init[j].0 == k && before[k] == init[j].1 &&
          forall i :: 0 <= i < j ==> init[i].0 != k;
        assert defaults[j].0 == k && PutAbsent(m, defaults)[k] == defaults[j].1;
      }
    }
  }

  /**
   * The conversion as a whole: a key ends up in the map iff it is a non-empty key with a
   * non-empty value in `headers` or it names a default; such a source entry wins over
   * every default, and a default only fills in a key the source did not supply.
   */
  lemma JavaMapSpec(headers: Option<Headers>, defaults: seq<(string, string)>, k: string)
    ensures var src := headers.GetOr(map[]);
      (k in JavaMap(headers, defaults) <==>
        (k in src && k != "" && src[k] != "") || exists j :: 0 <= j < |defaults| && defaults[j].0 == k)
      && (k in src && k != "" && src[k] != "" ==> JavaMap(headers, defaults)[k] == src[k])
  {
    PutAbsentSpec(NonEmptyEntries(headers.GetOr(map[])), defaults, k);
  }

  /** The conversion as the source writes it: a `put` loop over the dict, then the defaults. */
  method ToJavaMap(headers: Option<Headers>, defaults: seq<(string, string)>) returns (m: Headers)
    ensures m == JavaMap(headers, defaults)
  {
    m := map[];
    if headers.Some? && |headers.value| > 0 {
      var h := headers.value;
      var rest := h.Keys;
      while rest != {}
        invariant rest <= h.Keys
        invariant m == map k | k in h && k !in rest && k != "" && h[k] != "" :: h[k]
        decreases rest
      {
        var k :| k in rest;
        if k != "" && h[k] != "" {
          m := m[k := h[k]];
        }
        rest := rest - {k};
      }
      assert m == NonEmptyEntries(h);
    } else {
      assert NonEmptyEntries(headers.GetOr(map[])) == map[];
    }
    ghost var copied := m;
    for j := 0 to |defaults|
      invariant m == PutAbsent(copied, defaults[..j])
    {
      assert defaults[..j + 1][..j] == defaults[..j];
      var (k, v) := defaults[j];
      if k !in m {
        m := m[k := v];
      }
    }
    assert defaults[..|defaults|] == defaults;
  }
}
