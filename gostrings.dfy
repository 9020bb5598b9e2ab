/** The three functions of Go's `strings` package that the query task
    uses: `Index`, `Contains` and `Replace` with a count of one. */
module GoStrings {
  import opened Wrappers

  /** `sub` occurs in `s` starting at position `i`. */
  predicate OccursAt(s: string, sub: string, i: nat) {
    i + |sub| <= |s| && s[i..i + |sub|] == sub
  }

  /** `i` is the first position at which `sub` occurs in `s`. */
  predicate FirstAt(s: string, sub: string, i: nat) {
    OccursAt(s, sub, i) && forall j :: 0 <= j < i ==> !OccursAt(s, sub, j)
  }

  /** The first occurrence of `sub` in `s` at or after position `from`. */
  function IndexFrom(s: string, sub: string, from: nat): (r: Option<nat>)
    ensures r.Some? ==> from <= r.value && OccursAt(s, sub, r.value)
    ensures r.Some? ==> forall j :: from <= j < r.value ==> !OccursAt(s, sub, j)
    ensures r.None? ==> forall j :: from <= j ==> !OccursAt(s, sub, j)
    decreases |s| + 1 - from
  {
    if from + |sub| > |s| then None
    else if s[from..from + |sub|] == sub then Some(from)
    else IndexFrom(s, sub, from + 1)
  }

  /** `strings.Index`: the character position of the first occurrence of
      `sub` in `s` (Go counts bytes), and `None` where Go returns -1. */
  function Index(s: string, sub: string): (r: Option<nat>)
    ensures r.Some? ==> FirstAt(s, sub, r.value)
    ensures r.None? <==> forall j :: 0 <= j ==> !OccursAt(s, sub, j)
  {
    IndexFrom(s, sub, 0)
  }

  /** `strings.Contains`. */
  function Contains(s: string, sub: string): (r: bool)
    ensures r <==> exists j :: 0 <= j && OccursAt(s, sub, j)
  {
    Index(s, sub).Some?
  }

  /** `strings.Replace(s, pat, repl, 1)`: the first occurrence of `pat`, if
      any, is replaced by `repl`; everything else is kept. */
  function ReplaceFirst(s: string, pat: string, repl: string): (r: string)
    ensures (forall j :: 0 <= j ==> !OccursAt(s, pat, j)) ==> r == s
    ensures forall i: nat :: FirstAt(s, pat, i) ==> r == s[..i] + repl + s[i + |pat|..]
  {
    match Index(s, pat)
    case None => s
    case Some(i) =>
      FirstAtUnique(s, pat, i);
      s[..i] + repl + s[i + |pat|..]
  }

  /** There is only one first occurrence. */
  lemma FirstAtUnique(s: string, sub: string, i: nat)
    requires FirstAt(s, sub, i)
    ensures forall k: nat :: FirstAt(s, sub, k) ==> k == i
  {
  }

  /** No occurrence of `pat` can start inside a prefix `p` that does not
      contain the first character of `pat`; so `ReplaceFirst` of
      `p + pat + rest` replaces exactly the `pat` after `p`. */
  lemma ReplaceAfterPrefix(p: string, pat: string, repl: string, rest: string)
    requires pat != [] && pat[0] !in p
    ensures ReplaceFirst(p + pat + rest, pat, repl) == p + repl + rest
  {
    var s := p + pat + rest;
    assert OccursAt(s, pat, |p|) by { assert s[|p|..|p| + |pat|] == pat; }
    assert forall j :: 0 <= j < |p| ==> !OccursAt(s, pat, j);
    assert FirstAt(s, pat, |p|);
    assert s[..|p|] == p;
    assert s[|p| + |pat|..] == rest;
  }
}
