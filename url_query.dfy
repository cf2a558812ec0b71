/**
 * The part of Python's `urllib.parse` that `_parse_expire_ts` relies on:
 * `urlparse(url).query` and `parse_qs(query)` with their default arguments
 * (blank values dropped, '&' as the only separator).
 */
module UrlQuery {
  import opened Wrappers
  import opened Text

  /** Characters `urlsplit` deletes from anywhere in the URL before splitting it. */
  predicate IsUnsafe(c: char) {
    c == '\t' || c == '\r' || c == '\n'
  }

  function RemoveUnsafe(s: string): (r: string)
    ensures forall k :: 0 <= k < |r| ==> !IsUnsafe(r[k])
    decreases |s|
  {
    if |s| == 0 then "" else (if IsUnsafe(s[0]) then "" else [s[0]]) + RemoveUnsafe(s[1..])
  }

  /**
   * `urlparse(url).query`: the text after the first '?' of the part before the first '#'
   * ("" when there is no '?'). The scheme and network location can contain neither.
   */
  function Query(url: string): (q: string)
    ensures forall k :: 0 <= k < |q| ==> q[k] != '#' && !IsUnsafe(q[k])
  {
    var u := RemoveUnsafe(url);
    var beforeFragment := u[..IndexOf(u, '#')];
    var i := IndexOf(beforeFragment, '?');
    if i == |beforeFragment| then "" else beforeFragment[i + 1..]
  }

  /** `parse_qs` turns '+' into a space in names and values. */
  function PlusToSpace(s: string): (r: string)
    ensures |r| == |s|
  {
    seq(|s|, i requires 0 <= i < |s| => if s[i] == '+' then ' ' else s[i])
  }

  /**
   * One '&'-separated field: split at the first '='. A field without '=' or with an
   * empty value is dropped, as `parse_qsl` does when `keep_blank_values` is false.
   */
  function ParseField(field: string): Option<(string, string)> {
    var e := IndexOf(field, '=');
    if e == |field| || e + 1 == |field| then None
    else Some((PlusToSpace(field[..e]), PlusToSpace(field[e + 1..])))
  }

  function ParseFields(fields: seq<string>): seq<(string, string)>
    decreases |fields|
  {
    if |fields| == 0 then []
    else
      match ParseField(fields[0])
      case None => ParseFields(fields[1..])
      case Some(p) => [p] + ParseFields(fields[1..])
  }

  /** `parse_qsl(query)`: the name/value pairs in order. */
  function ParseQsl(query: string): seq<(string, string)> {
    ParseFields(SplitOn(query, '&'))
  }

  /** `parse_qs`: each name maps to the list of its values, in order of appearance. */
  function Group(pairs: seq<(string, string)>): map<string, seq<string>>
    decreases |pairs|
  {
    if |pairs| == 0 then map[]
    else
      var m := Group(pairs[..|pairs| - 1]);
      var (k, v) := pairs[|pairs| - 1];
      if k in m then m[k := m[k] + [v]] else m[k := [v]]
  }

  function ParseQs(query: string): map<string, seq<string>> {
    Group(ParseQsl(query))
  }

  /**
   * A name is a key of the grouped map exactly when some pair carries it; its list is
   * never empty and starts with the value of the FIRST pair that carries it.
   */
  lemma {:induction false} GroupFirst(pairs: seq<(string, string)>, name: string)
    ensures name in Group(pairs) <==> exists i :: 0 <= i < |pairs| && pairs[i].0 == name
    ensures name in Group(pairs) ==>
      |Group(pairs)[name]| > 0 &&
      exists i :: 0 <= i < |pairs| && pairs[i].0 == name && Group(pairs)[name][0] == pairs[i].1 &&
        forall j :: 0 <= j < i ==> pairs[j].0 != name
    decreases |pairs|
  {
    if |pairs| > 0 {
      var init := pairs[..|pairs| - 1];
      GroupFirst(init, name);
      assert forall i :: 0 <= i < |init| ==> init[i] == pairs[i];
      var m := Group(init);
      if name in m {
        var i :| 0 <= i < |init| && init[i].0 == name && m[name][0] == init[i].1 &&
          forall j :: 0 <= j < i ==> init[j].0 != name;
        assert pairs[i].0 == name && Group(pairs)[name][0] == pairs[i].1;
      } else if pairs[|pairs| - 1].0 == name {
        assert Group(pairs)[name] == [pairs[|pairs| - 1].1];
      }
    }
  }

  lemma {:induction false} RemoveUnsafeNoop(s: string)
    requires forall k :: 0 <= k < |s| ==> !IsUnsafe(s[k])
    ensures RemoveUnsafe(s) == s
    decreases |s|
  {
    if |s| > 0 {
      RemoveUnsafeNoop(s[1..]);
      assert s == [s[0]] + s[1..];
    }
  }

  /** The query of `base + "?" + q` is `q` when `base` holds no '?' and nothing holds '#'. */
  lemma QueryOfBuiltUrl(base: string, q: string)
    requires forall k :: 0 <= k < |base| ==> base[k] != '?' && base[k] != '#' && !IsUnsafe(base[k])
    requires forall k :: 0 <= k < |q| ==> q[k] != '#' && !IsUnsafe(q[k])
    ensures Query(base + "?" + q) == q
  {
    var url := base + "?" + q;
    assert forall k :: 0 <= k < |url| ==> url[k] != '#' && !IsUnsafe(url[k]) by {
      forall k | 0 <= k < |url| ensures url[k] != '#' && !IsUnsafe(url[k]) {
        if k < |base| { assert url[k] == base[k]; }
        else if k > |base| { assert url[k] == q[k - |base| - 1]; }
      }
    }
    RemoveUnsafeNoop(url);
    assert IndexOf(url, '#') == |url|;
    assert url[..|url|] == url;
    assert url[|base|] == '?';
    assert forall k :: 0 <= k < |base| ==> url[k] == base[k];
    assert IndexOf(url, '?') == |base|;
    assert url[|base| + 1..] == q;
  }
}
