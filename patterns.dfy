/**
 * The little regular-expression machinery the query analyser needs, as
 * scanners: maximal character runs, literals at a position, `re.search`
 * (the leftmost position where a pattern matches) and `re.findall` (the
 * non-overlapping matches from left to right, resuming after each match).
 * A pattern is a function from a text and a start position to the match
 * found there, if any.
 */
module Patterns {
  import opened Wrappers

  /** A match: the captured group and the position just after the whole match. */
  datatype Found = Found(group: string, end: nat)

  type Pattern = (string, nat) -> Option<Found>

  /** The length of the longest run of characters satisfying `p` from position `i`. */
  function Run(s: string, i: nat, p: char -> bool): (n: nat)
    requires i <= |s|
    ensures i + n <= |s|
    ensures forall j :: i <= j < i + n ==> p(s[j])
    ensures i + n < |s| ==> !p(s[i + n])
    decreases |s| - i
  {
    if i < |s| && p(s[i]) then 1 + Run(s, i + 1, p) else 0
  }

  /** The literal `lit` occurs at position `i` of `s`. */
  predicate At(s: string, i: nat, lit: string)
  {
    i + |lit| <= |s| && s[i..i + |lit|] == lit
  }

  /** `re.search`: the leftmost position from `p` on where `m` matches. */
  function SearchFrom(s: string, p: nat, m: Pattern): (r: Option<nat>)
    requires p <= |s|
    ensures r.Some? ==> p <= r.value <= |s| && m(s, r.value).Some?
    decreases |s| - p
  {
    if m(s, p).Some? then Some(p)
    else if p == |s| then None
    else SearchFrom(s, p + 1, m)
  }

  /** The position `SearchFrom` reports is the leftmost match; without one, no position matches. */
  lemma {:induction false} SearchFromLeftmost(s: string, p: nat, m: Pattern)
    requires p <= |s|
    ensures SearchFrom(s, p, m).Some? ==> forall q :: p <= q < SearchFrom(s, p, m).value ==> m(s, q).None?
    ensures SearchFrom(s, p, m).None? ==> forall q :: p <= q <= |s| ==> m(s, q).None?
    decreases |s| - p
  {
    if m(s, p).None? && p < |s| {
      SearchFromLeftmost(s, p + 1, m);
    }
  }

  /** The match `re.search` reports, with the position where it starts. */
  function Search(s: string, m: Pattern): Option<(nat, Found)>
  {
    match SearchFrom(s, 0, m)
    case None => None
    case Some(p) => Some((p, m(s, p).value))
  }

  /** Every match of `m` ends after its start and inside the text. */
  ghost predicate Advances(m: Pattern)
  {
    forall s: string, p: nat :: m(s, p).Some? ==> p < m(s, p).value.end <= |s|
  }

  /** `re.findall` from position `p`: each match's group, scanning on after its end. */
  function FindAll(s: string, p: nat, m: Pattern): seq<string>
    requires Advances(m)
    requires p <= |s|
    decreases |s| - p
  {
    if p == |s| then []
    else
      match m(s, p)
      case Some(f) => [f.group] + FindAll(s, f.end, m)
      case None => FindAll(s, p + 1, m)
  }

  /** Every group `FindAll` reports is the group of a match at some position. */
  lemma {:induction false} FindAllGroups(s: string, p: nat, m: Pattern)
    requires Advances(m)
    requires p <= |s|
    ensures forall g :: g in FindAll(s, p, m) ==>
              exists q :: p <= q < |s| && m(s, q).Some? && m(s, q).value.group == g
    decreases |s| - p
  {
    if p < |s| {
      match m(s, p)
      case Some(f) =>
        FindAllGroups(s, f.end, m);
      case None =>
        FindAllGroups(s, p + 1, m);
    }
  }
}
