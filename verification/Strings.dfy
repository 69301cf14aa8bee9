/** Searching in strings. */
module Strings {
  import opened Common

  predicate OccursAt(u: string, part: string, k: nat) {
    k + |part| <= |u| && u[k..k + |part|] == part
  }

  lemma Fits(u: string, part: string, k: nat)
    requires OccursAt(u, part, k)
    ensures k + |part| <= |u|
  {
  }

  /** The first occurrence of `part` in `u` at or after `from`. */
  function Find(u: string, part: string, from: nat): (r: Option<nat>)
    requires from <= |u|
    ensures r.Some? ==> from <= r.value && OccursAt(u, part, r.value)
                        && forall k :: from <= k < r.value ==> !OccursAt(u, part, k)
    ensures r.None? ==> forall k :: from <= k <= |u| ==> !OccursAt(u, part, k)
    decreases |u| - from
  {
    if OccursAt(u, part, from) then Some(from)
    else if from == |u| then None
    else Find(u, part, from + 1)
  }

  /** An occurrence before which there is none is the one `Find` reports. */
  lemma FindsFirst(u: string, part: string, from: nat, k: nat)
    requires from <= k <= |u| && OccursAt(u, part, k) && forall j :: from <= j < k ==> !OccursAt(u, part, j)
    ensures Find(u, part, from) == Some(k)
  {
  }

  lemma FindsNone(u: string, part: string, from: nat)
    requires from <= |u| && forall j :: from <= j <= |u| ==> !OccursAt(u, part, j)
    ensures Find(u, part, from).None?
  {
  }

  lemma OccursChar(s: string, c: char, j: nat)
    ensures OccursAt(s, [c], j) <==> j < |s| && s[j] == c
  {
    if j < |s| {
      assert s[j..j + 1] == [s[j]];
      assert [s[j]][0] == s[j] && [c][0] == c;
    }
  }

  lemma FindChar(s: string, c: char, k: nat)
    requires k < |s| && s[k] == c && forall i :: 0 <= i < k ==> s[i] != c
    ensures Find(s, [c], 0) == Some(k)
  {
    hide OccursAt;
    forall j | 0 <= j <= k ensures OccursAt(s, [c], j) <==> j == k { OccursChar(s, c, j); }
    FindsFirst(s, [c], 0, k);
  }

  lemma FindNoChar(s: string, c: char)
    requires forall i :: 0 <= i < |s| ==> s[i] != c
    ensures Find(s, [c], 0).None?
  {
    hide OccursAt;
    forall j | 0 <= j <= |s| ensures !OccursAt(s, [c], j) { OccursChar(s, c, j); }
    FindsNone(s, [c], 0);
  }

  /** The other way: what `Find` says about a single character. */
  lemma FoundChar(s: string, c: char)
    ensures var r := Find(s, [c], 0);
            && (r.Some? ==> r.value < |s| && s[r.value] == c && forall i :: 0 <= i < r.value ==> s[i] != c)
            && (r.None? ==> forall i :: 0 <= i < |s| ==> s[i] != c)
  {
    hide OccursAt, Find;
    forall j | 0 <= j <= |s| ensures OccursAt(s, [c], j) <==> j < |s| && s[j] == c { OccursChar(s, c, j); }
    var r := Find(s, [c], 0);
    if r.Some? { Fits(s, [c], r.value); }
  }
}
