/** The few JavaScript string operations the client relies on:
    `String.prototype.indexOf`, `includes` and `replace` with a string pattern
    (which replaces the FIRST occurrence only). */
module Text {
  import opened Wrappers

  /** `pat` occurs in `s` starting at index `i`. */
  predicate OccursAt(s: string, pat: string, i: nat) {
    i + |pat| <= |s| && s[i..i + |pat|] == pat
  }

  /** The first index at or after `k` where `pat` occurs in `s`. */
  function IndexFrom(s: string, pat: string, k: nat): (r: Option<nat>)
    ensures r.Some? ==> k <= r.value && OccursAt(s, pat, r.value)
    ensures r.Some? ==> forall j: nat :: k <= j < r.value ==> !OccursAt(s, pat, j)
    ensures r.None? ==> forall j: nat :: k <= j ==> !OccursAt(s, pat, j)
    decreases |s| - k
  {
    if k + |pat| > |s| then None
    else if OccursAt(s, pat, k) then Some(k)
    else IndexFrom(s, pat, k + 1)
  }

  /** `s.indexOf(pat)`, with `None` for -1. */
  function IndexOf(s: string, pat: string): (r: Option<nat>)
    ensures r.Some? ==> OccursAt(s, pat, r.value)
    ensures r.Some? ==> forall j: nat :: j < r.value ==> !OccursAt(s, pat, j)
    ensures r.None? ==> forall j: nat :: !OccursAt(s, pat, j)
  {
    IndexFrom(s, pat, 0)
  }

  /** `s.includes(sub)`. */
  predicate Includes(s: string, sub: string) {
    IndexOf(s, sub).Some?
  }

  /** `s.replace(pat, rep)` for a string `pat`: only the first occurrence is replaced. */
  function ReplaceFirst(s: string, pat: string, rep: string): (r: string)
    ensures !Includes(s, pat) ==> r == s
    ensures Includes(s, pat) ==>
      exists i: nat :: OccursAt(s, pat, i) && (forall j: nat :: j < i ==> !OccursAt(s, pat, j)) &&
                  r == s[..i] + rep + s[i + |pat|..]
  {
    match IndexOf(s, pat)
    case None => s
    case Some(i) => s[..i] + rep + s[i + |pat|..]
  }
}
