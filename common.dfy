/** Small value types and string helpers shared by the site's components. */
module Common {

  /** A value that may be absent, such as a route parameter React Router did not bind. */
  datatype Option<+T> = None | Some(value: T)

  /** `s` begins with `prefix`. */
  predicate StartsWith(s: string, prefix: string)
  {
    |prefix| <= |s| && s[..|prefix|] == prefix
  }

  /** `s` ends with `suffix`. */
  predicate EndsWith(s: string, suffix: string)
  {
    |suffix| <= |s| && s[|s| - |suffix|..] == suffix
  }

  /** `sub` occurs in `s` starting at index `i`. */
  predicate OccursAt(s: string, sub: string, i: nat)
  {
    i + |sub| <= |s| && s[i..i + |sub|] == sub
  }

  /** JavaScript's `s.includes(sub)`: `sub` occurs somewhere in `s`. */
  predicate Contains(s: string, sub: string)
  {
    exists i: nat | i <= |s| :: OccursAt(s, sub, i)
  }

  /** A string shorter than `sub` cannot contain it. */
  lemma ShorterDoesNotContain(s: string, sub: string)
    requires |s| < |sub|
    ensures !Contains(s, sub)
  {
  }

  /** `sub` placed after any prefix is contained in the result. */
  lemma ContainsAfterPrefix(prefix: string, sub: string, rest: string)
    ensures Contains(prefix + sub + rest, sub)
  {
    var s := prefix + sub + rest;
    assert s[|prefix|..|prefix| + |sub|] == sub;
    assert OccursAt(s, sub, |prefix|);
  }

  /** A path with the Lunts section after a prefix starts with that prefix and passes the Lunts test. */
  lemma LuntsPathUnder(prefix: string, rest: string)
    ensures StartsWith(prefix + LuntsSection + rest, prefix) && IsLuntsPage(prefix + LuntsSection + rest)
  {
    ContainsAfterPrefix(prefix, LuntsSection, rest);
    assert (prefix + LuntsSection + rest)[..|prefix|] == prefix;
  }

  /**
   * The text a template literal `${lang}` produces for a route parameter:
   * the parameter itself, or "undefined" when React Router bound nothing.
   */
  function Interpolate(lang: Option<string>): (text: string)
    ensures lang.Some? ==> text == lang.value
    ensures lang.None? ==> text == "undefined"
  {
    match lang
    case Some(l) => l
    case None => "undefined"
  }

  /** The path fragment that marks the pages of the Lunts product. */
  const LuntsSection: string := "/products/lunts"

  /**
   * `location.pathname.includes('/products/lunts')`: the page belongs to the
   * Lunts brand. A path shorter than the section never does; one with the
   * section right after a two-letter language always does.
   */
  predicate IsLuntsPage(pathname: string): (lunts: bool)
    ensures |pathname| < |LuntsSection| ==> !lunts
    ensures |pathname| >= 3 && StartsWith(pathname[3..], LuntsSection) ==> lunts
  {
    var lunts := Contains(pathname, LuntsSection);
    if |pathname| < |LuntsSection| then
      ShorterDoesNotContain(pathname, LuntsSection);
      lunts
    else if |pathname| >= 3 && StartsWith(pathname[3..], LuntsSection) then
      assert pathname == pathname[..3] + LuntsSection + pathname[3 + |LuntsSection|..];
      ContainsAfterPrefix(pathname[..3], LuntsSection, pathname[3 + |LuntsSection|..]);
      lunts
    else
      lunts
  }
}
