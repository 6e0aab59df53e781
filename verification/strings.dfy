/** The two JavaScript string operations the handler uses on the
    `Authorization` header: `startsWith` and `replace` with a string pattern. */
module Strings {
  import opened Json

  /** `s.startsWith(p)`: exact, case-sensitive prefix test. */
  predicate StartsWith(s: string, p: string) {
    |p| <= |s| && s[..|p|] == p
  }

  /** `p` occurs in `s` starting at index `i`. */
  predicate OccursAt(s: string, p: string, i: int) {
    0 <= i && i + |p| <= |s| && s[i..i + |p|] == p
  }

  /** The first index at or after `from` where `p` occurs in `s`
      (`s.indexOf(p, from)`, with `None` for -1). */
  function IndexOfFrom(s: string, p: string, from: nat): (r: Option<nat>)
    ensures r.Some? ==> from <= r.value && OccursAt(s, p, r.value)
    ensures r.Some? ==> forall j :: from <= j < r.value ==> !OccursAt(s, p, j)
    ensures r.None? ==> forall j :: from <= j ==> !OccursAt(s, p, j)
    decreases |s| - from
  {
    if from + |p| > |s| then None
    else if s[from..from + |p|] == p then Some(from)
    else IndexOfFrom(s, p, from + 1)
  }

  /** `s.replace(p, '')`: a string pattern replaces only its first
      occurrence, and a string with no occurrence comes back unchanged. */
  function RemoveFirst(s: string, p: string): (r: string)
    ensures (forall i :: !OccursAt(s, p, i)) ==> r == s
    ensures forall i ::
      OccursAt(s, p, i) && (forall j :: 0 <= j < i ==> !OccursAt(s, p, j)) ==>
        r == s[..i] + s[i + |p|..]
  {
    match IndexOfFrom(s, p, 0)
    case None => s
    case Some(i) => s[..i] + s[i + |p|..]
  }

  /** Once `s` starts with `p`, removing the first occurrence of `p` drops
      exactly the prefix: the result is what follows it. */
  lemma {:induction false} RemoveFirstOfPrefix(s: string, p: string)
    requires StartsWith(s, p)
    ensures RemoveFirst(s, p) == s[|p|..]
    ensures p + RemoveFirst(s, p) == s
  {
    assert OccursAt(s, p, 0);
    assert s[..0] + s[|p|..] == s[|p|..];
    assert s[..|p|] + s[|p|..] == s;
  }
}
