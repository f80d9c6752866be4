/** `String.prototype.replace` with a string pattern and an empty
    replacement: only the first occurrence of the pattern is removed, and a
    string without an occurrence is returned as it is. */
module Strings {
  import opened JsValues

  /** `p` occurs in `s` starting at index `i`. */
  predicate OccursAt(s: string, p: string, i: int) {
    0 <= i && i + |p| <= |s| && s[i..i + |p|] == p
  }

  /** The first index at or after `from` where `p` occurs in `s`, or `None`
      when there is none. */
  function IndexOfFrom(s: string, p: string, from: nat): (r: Option<nat>)
    decreases |s| - from
    ensures r.Some? ==> from <= r.value && OccursAt(s, p, r.value)
    ensures r.Some? ==> forall j :: from <= j < r.value ==> !OccursAt(s, p, j)
    ensures r.None? ==> forall j :: from <= j ==> !OccursAt(s, p, j)
  {
    if from + |p| > |s| then None
    else if s[from..from + |p|] == p then Some(from)
    else IndexOfFrom(s, p, from + 1)
  }

  /** `s.indexOf(p)`, with `None` for JavaScript's -1. */
  function IndexOf(s: string, p: string): (r: Option<nat>)
    ensures r.Some? ==> OccursAt(s, p, r.value)
    ensures r.Some? ==> forall j :: 0 <= j < r.value ==> !OccursAt(s, p, j)
    ensures r.None? ==> forall j :: !OccursAt(s, p, j)
  {
    IndexOfFrom(s, p, 0)
  }

  /** `s.replace(p, '')`. */
  function ReplaceFirst(s: string, p: string): (r: string)
    ensures IndexOf(s, p).None? ==> r == s
    ensures IndexOf(s, p).Some? ==> |r| == |s| - |p|
  {
    match IndexOf(s, p)
    case None => s
    case Some(i) => s[..i] + s[i + |p|..]
  }

  /** Without an occurrence of the pattern the string is left as it is. */
  lemma ReplaceFirstNoMatch(s: string, p: string)
    requires forall j :: !OccursAt(s, p, j)
    ensures ReplaceFirst(s, p) == s
  {
  }

  /** When the first occurrence of the pattern starts at `i`, exactly that
      occurrence is cut out: what precedes it and what follows it are kept. */
  lemma ReplaceFirstCutsFirst(s: string, p: string, i: nat)
    requires OccursAt(s, p, i)
    requires forall j :: 0 <= j < i ==> !OccursAt(s, p, j)
    ensures |ReplaceFirst(s, p)| == |s| - |p|
    ensures ReplaceFirst(s, p) == s[..i] + s[i + |p|..]
  {
  }

  /** A pattern at the very start of the string is stripped from the front. */
  lemma ReplaceFirstStripsPrefix(p: string, rest: string)
    ensures ReplaceFirst(p + rest, p) == rest
  {
  }

  /** Round trip: putting the pattern back where the first occurrence was
      restores the original string. */
  lemma ReplaceFirstRestores(s: string, p: string)
    requires IndexOf(s, p).Some?
    ensures var i := IndexOf(s, p).value;
      i <= |ReplaceFirst(s, p)| && ReplaceFirst(s, p)[..i] + p + ReplaceFirst(s, p)[i..] == s
  {
  }
}
