/** Small helpers shared by the rest of the model. */
module Common {

  /** A value that may be absent (a missing property, a failed lookup). */
  datatype Option<+T> = None | Some(value: T)

  /** `s.startsWith(p)` for strings. */
  predicate StartsWith(s: string, p: string)
  {
    |p| <= |s| && s[..|p|] == p
  }

  /** The part of `s` after the prefix `p`, when `s` starts with `p`. */
  function StripPrefix(s: string, p: string): (r: Option<string>)
    ensures r.Some? <==> StartsWith(s, p)
    ensures r.Some? ==> s == p + r.value
  {
    if StartsWith(s, p) then Some(s[|p|..]) else None
  }

  lemma StripPrefixOfConcat(p: string, x: string)
    ensures StripPrefix(p + x, p) == Some(x)
  {
  }
}
