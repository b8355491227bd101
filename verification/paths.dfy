/** URL paths built from a fixed prefix, a caller-supplied id and a fixed
    suffix, as the endpoint template strings do, together with the reverse
    operation that recovers the id from such a path. */
module Paths {
  import opened JsValues

  predicate StartsWith(s: string, prefix: string) {
    |prefix| <= |s| && s[..|prefix|] == prefix
  }

  predicate EndsWith(s: string, suffix: string) {
    |suffix| <= |s| && s[|s| - |suffix|..] == suffix
  }

  /** No `/` occurs in the id, so it stays one path segment. */
  predicate SlashFree(id: string) {
    forall i :: 0 <= i < |id| ==> id[i] != '/'
  }

  /** The template string `${prefix}${id}${suffix}`. */
  function Join(prefix: string, id: string, suffix: string): (p: string)
    ensures StartsWith(p, prefix) && EndsWith(p, suffix)
    ensures |p| == |prefix| + |id| + |suffix|
    ensures p[|prefix|..|prefix| + |id|] == id
  {
    prefix + id + suffix
  }

  /** The id between `prefix` and `suffix` in `path`, when `path` has that shape. */
  function Strip(prefix: string, suffix: string, path: string): (r: Option<string>)
    ensures r.Some? <==> |prefix| + |suffix| <= |path| && StartsWith(path, prefix) && EndsWith(path, suffix)
    ensures r.Some? ==> Join(prefix, r.value, suffix) == path
  {
    if |prefix| + |suffix| <= |path| && path[..|prefix|] == prefix && path[|path| - |suffix|..] == suffix
    then
      var id := path[|prefix|..|path| - |suffix|];
      assert path == path[..|prefix|] + id + path[|path| - |suffix|..];
      Some(id)
    else None
  }

  /** Stripping the prefix and suffix off a joined path gives back the id. */
  lemma StripJoin(prefix: string, id: string, suffix: string)
    ensures Strip(prefix, suffix, Join(prefix, id, suffix)) == Some(id)
  {
  }

  /** For a fixed prefix and id, different suffixes give different paths. */
  lemma JoinSuffixInjective(prefix: string, id: string, s1: string, s2: string)
    requires Join(prefix, id, s1) == Join(prefix, id, s2)
    ensures s1 == s2
  {
    var p := Join(prefix, id, s1);
    var n := |prefix| + |id|;
    assert s1 == p[n..];
    assert s2 == Join(prefix, id, s2)[n..];
  }

  /** With slash-free ids, two joined paths whose suffixes are each empty or
      begin with `/` are equal only when the ids and the suffixes agree. */
  lemma JoinSegmentsInjective(prefix: string, a: string, s1: string, b: string, s2: string)
    requires SlashFree(a) && SlashFree(b)
    requires s1 == "" || s1[0] == '/'
    requires s2 == "" || s2[0] == '/'
    requires Join(prefix, a, s1) == Join(prefix, b, s2)
    ensures a == b && s1 == s2
  {
    var p := Join(prefix, a, s1);
    if |a| < |b| {
      ShorterIdBreaks(prefix, a, s1, b, s2);
    } else if |b| < |a| {
      ShorterIdBreaks(prefix, b, s2, a, s1);
    } else {
      assert a == p[|prefix|..|prefix| + |a|];
      assert b == Join(prefix, b, s2)[|prefix|..|prefix| + |b|];
      JoinSuffixInjective(prefix, a, s1, s2);
    }
  }

  /** A shorter slash-free id cannot produce the same path as a longer one:
      where the shorter id ends, one path has `/` or ends and the other has an id character. */
  lemma ShorterIdBreaks(prefix: string, a: string, s1: string, b: string, s2: string)
    requires SlashFree(b)
    requires s1 == "" || s1[0] == '/'
    requires |a| < |b|
    ensures Join(prefix, a, s1) != Join(prefix, b, s2)
  {
    var p := Join(prefix, a, s1);
    var q := Join(prefix, b, s2);
    var n := |prefix| + |a|;
    assert q[n] == b[|a|];
    if |p| == |q| {
      assert s1 != "";
      assert p[n] == s1[0];
    }
  }
}
