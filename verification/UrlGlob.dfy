/** Matching user-script patterns against URLs: a greedy left-to-right search over the parts between stars. */
module UrlGlob {
  import opened Common
  import opened Strings

  const STAR: char := '*'

  /** The meaning of a glob: a star stands for any string, everything else for itself. */
  ghost predicate Glob(p: string, u: string)
    decreases |p|
  {
    if p == "" then u == ""
    else if p[0] == STAR then exists k :: 0 <= k <= |u| && Glob(p[1..], u[k..])
    else u != "" && u[0] == p[0] && Glob(p[1..], u[1..])
  }

  function Split(p: string): (parts: seq<string>)
    ensures parts != []
    ensures forall i :: 0 <= i < |parts| ==> STAR !in parts[i]
    ensures |parts| > 1 <==> STAR in p
  {
    if p == "" then [""]
    else
      var rest := Split(p[1..]);
      if p[0] == STAR then [""] + rest else [[p[0]] + rest[0]] + rest[1..]
  }

  function Join(parts: seq<string>): string {
    if parts == [] then "" else if |parts| == 1 then parts[0] else parts[0] + [STAR] + Join(parts[1..])
  }

  lemma {:induction false} SplitJoin(p: string)
    ensures Join(Split(p)) == p
    decreases |p|
  {
    if p != "" {
      SplitJoin(p[1..]);
      var rest := Split(p[1..]);
      if p[0] == STAR {
        assert ([""] + rest)[1..] == rest;
      } else if |rest| > 1 {
        var parts := [[p[0]] + rest[0]] + rest[1..];
        assert parts[1..] == rest[1..];
        assert parts[0] + [STAR] + Join(parts[1..]) == [p[0]] + (rest[0] + [STAR] + Join(rest[1..]));
      }
    }
  }

  /** The search: each part at its first occurrence, the last part at the very end. */
  function Greedy(parts: seq<string>, u: string): bool {
    if parts == [] then true
    else if parts[0] == "" then Greedy(parts[1..], u)
    else if |parts| == 1 then |parts[0]| <= |u| && u[|u| - |parts[0]|..] == parts[0]
    else match Find(u, parts[0], 0)
      case None => false
      case Some(off) => Greedy(parts[1..], u[off + |parts[0]|..])
  }

  method UrlMatches(pattern: string, url: string) returns (matches: bool)
    ensures STAR in pattern ==> (matches <==> Glob([STAR] + pattern, url))
    ensures STAR !in pattern ==> (matches <==> Glob([STAR] + pattern + [STAR], url))
  {
    hide Glob, Split, Join;
    if pattern == [STAR] {
      StarMatchesAll([STAR], url);
      return true;
    }
    if STAR !in pattern {
      ContainsIsGlob(pattern, url);
      var found := Find(url, pattern, 0);
      return found.Some?;
    }
    var parts := Split(pattern);
    GreedyIsGlob(parts, url);
    SplitJoin(pattern);
    matches := Search(parts, url);
  }

  method Search(parts: seq<string>, url: string) returns (matches: bool)
    ensures matches <==> Greedy(parts, url)
  {
    hide OccursAt;
    var idx, i := 0, 0;
    while i < |parts|
      invariant 0 <= i <= |parts| && 0 <= idx <= |url|
      invariant Greedy(parts[i..], url[idx..]) == Greedy(parts, url)
    {
      var part, rest := parts[i], url[idx..];
      assert parts[i..][1..] == parts[i + 1..] && parts[i..][0] == part;
      if part != "" {
        if i == |parts| - 1 {
          var end := |url| - |part|;
          assert end >= idx ==> rest[|rest| - |part|..] == url[end..];
          return end >= idx && url[end..] == part;
        }
        var off := Find(rest, part, 0);
        if off.None? { return false; }
        Fits(rest, part, off.value);
        assert rest[off.value + |part|..] == url[idx + off.value + |part|..];
        idx := idx + off.value + |part|;
      }
      i := i + 1;
    }
    matches := true;
  }

  // ---- the search finds a match whenever there is one ---------------------------------------

  lemma StarMatchesAll(tail: string, u: string)
    requires tail == [STAR]
    ensures Glob([STAR] + tail, u) && Glob([STAR], u)
  {
    var p := [STAR] + tail;
    assert p[1..] == [STAR] && [STAR][1..] == "";
    assert Glob("", u[|u|..]);
    assert u[0..] == u;
    assert Glob([STAR], u[0..]);
  }

  /** A literal in front of a glob is matched by itself. */
  lemma {:induction false} GlobLiteral(lit: string, q: string, u: string)
    requires STAR !in lit
    ensures Glob(lit + q, u) <==> |lit| <= |u| && u[..|lit|] == lit && Glob(q, u[|lit|..])
    decreases |lit|
  {
    if lit == "" {
      assert lit + q == q && u[0..] == u;
    } else {
      assert (lit + q)[1..] == lit[1..] + q && (lit + q)[0] == lit[0];
      if u != "" {
        GlobLiteral(lit[1..], q, u[1..]);
        if |lit| <= |u| {
          assert u[1..][|lit| - 1..] == u[|lit|..];
          assert u[..|lit|] == [u[0]] + u[1..][..|lit| - 1];
          assert lit == [lit[0]] + lit[1..];
        }
      }
    }
  }

  /** The same, at a position inside the text. */
  lemma GlobAt(lit: string, q: string, u: string, k: nat)
    requires STAR !in lit && k <= |u|
    ensures Glob(lit + q, u[k..]) <==> OccursAt(u, lit, k) && Glob(q, u[k + |lit|..])
  {
    hide Glob;
    GlobLiteral(lit, q, u[k..]);
    if k + |lit| <= |u| {
      assert u[k..][..|lit|] == u[k..k + |lit|];
      assert u[k..][|lit|..] == u[k + |lit|..];
    }
  }

  /** A glob that starts with a star matches more when its text grows to the left. */
  lemma StarAbsorbs(q: string, u: string, k: nat)
    requires k <= |u| && Glob([STAR] + q, u[k..])
    ensures Glob([STAR] + q, u)
  {
    assert ([STAR] + q)[1..] == q;
    var j :| 0 <= j <= |u[k..]| && Glob(q, u[k..][j..]);
    assert u[k..][j..] == u[k + j..];
  }

  lemma StarUnfold(q: string, u: string)
    ensures Glob([STAR] + q, u) <==> exists k :: 0 <= k <= |u| && Glob(q, u[k..])
  {
    assert ([STAR] + q)[1..] == q;
  }

  lemma StarStar(q: string, u: string)
    ensures Glob([STAR] + ([STAR] + q), u) <==> Glob([STAR] + q, u)
  {
    StarUnfold([STAR] + q, u);
    if Glob([STAR] + ([STAR] + q), u) {
      var k :| 0 <= k <= |u| && Glob([STAR] + q, u[k..]);
      StarAbsorbs(q, u, k);
    }
    if Glob([STAR] + q, u) {
      assert u[0..] == u;
    }
  }

  lemma GlobExact(part: string, v: string)
    requires STAR !in part
    ensures Glob(part, v) <==> v == part
  {
    assert part + "" == part;
    GlobLiteral(part, "", v);
    if |part| <= |v| && v[..|part|] == part && v[|part|..] == "" { assert v == v[..|part|] + v[|part|..]; }
  }

  lemma LastPart(part: string, u: string)
    requires STAR !in part
    ensures Glob([STAR] + part, u) <==> |part| <= |u| && u[|u| - |part|..] == part
  {
    hide Glob;
    StarUnfold(part, u);
    forall k | 0 <= k <= |u| ensures Glob(part, u[k..]) <==> u[k..] == part { GlobExact(part, u[k..]); }
    if |part| <= |u| && u[|u| - |part|..] == part { assert Glob(part, u[|u| - |part|..]); }
  }

  /** The greedy search agrees with the glob that may start anywhere. */
  lemma {:induction false} GreedyIsGlob(parts: seq<string>, u: string)
    requires parts != [] && forall i :: 0 <= i < |parts| ==> STAR !in parts[i]
    ensures Greedy(parts, u) <==> Glob([STAR] + Join(parts), u)
    decreases |parts|
  {
    var part := parts[0];
    if |parts| == 1 {
      LastPart(part, u);
      if part == "" { assert Greedy(parts[1..], u); assert u[|u|..] == ""; }
    } else {
      var q := Join(parts[1..]);
      assert Join(parts) == part + ([STAR] + q);
      if part == "" {
        GreedyIsGlob(parts[1..], u);
        StarStar(q, u);
        assert part + ([STAR] + q) == [STAR] + q;
      } else {
        FirstPart(parts, u);
      }
    }
  }

  lemma FirstPart(parts: seq<string>, u: string)
    requires |parts| > 1 && parts[0] != "" && forall i :: 0 <= i < |parts| ==> STAR !in parts[i]
    ensures Greedy(parts, u) <==> Glob([STAR] + (parts[0] + ([STAR] + Join(parts[1..]))), u)
    decreases |parts|, 0
  {
    hide Glob, OccursAt;
    var part, q := parts[0], Join(parts[1..]);
    var p := part + ([STAR] + q);
    StarUnfold(p, u);
    if Glob([STAR] + p, u) {
      var k :| 0 <= k <= |u| && Glob(p, u[k..]);
      GlobAt(part, [STAR] + q, u, k);
      Fits(u, part, k);
      var off := Find(u, part, 0).value;
      Fits(u, part, off);
      var rest := u[off + |part|..];
      assert u[k + |part|..] == rest[k - off..];
      StarAbsorbs(q, rest, k - off);
      GreedyIsGlob(parts[1..], rest);
    }
    if Greedy(parts, u) {
      var off := Find(u, part, 0).value;
      Fits(u, part, off);
      GreedyIsGlob(parts[1..], u[off + |part|..]);
      GlobAt(part, [STAR] + q, u, off);
    }
  }

  /** A pattern without a star matches exactly the URLs that contain it. */
  lemma ContainsIsGlob(p: string, u: string)
    requires STAR !in p
    ensures Find(u, p, 0).Some? <==> Glob([STAR] + p + [STAR], u)
  {
    hide Glob, OccursAt;
    var q := p + [STAR];
    assert [STAR] + p + [STAR] == [STAR] + q;
    StarUnfold(q, u);
    if Glob([STAR] + q, u) {
      var k :| 0 <= k <= |u| && Glob(q, u[k..]);
      GlobAt(p, [STAR], u, k);
    }
    if Find(u, p, 0).Some? {
      var k := Find(u, p, 0).value;
      Fits(u, p, k);
      GlobAt(p, [STAR], u, k);
      StarMatchesAll([STAR], u[k + |p|..]);
    }
  }

  // ---- the start of a pattern is not anchored -----------------------------------------------

  function Literal(p: string): string {
    if p == "" then "" else (if p[0] == STAR then "" else [p[0]]) + Literal(p[1..])
  }

  /** Every glob matches its own literal characters. */
  lemma {:induction false} LiteralMatches(p: string)
    ensures Glob(p, Literal(p))
    decreases |p|
  {
    if p != "" {
      LiteralMatches(p[1..]);
      if p[0] == STAR {
        assert Literal(p)[0..] == Literal(p[1..]);
      } else {
        assert Literal(p)[1..] == Literal(p[1..]);
      }
    }
  }

  /** The documentation has patterns match from the start of the URL. For a pattern with a star the
      code does that, on every URL, if and only if the pattern itself begins with a star. */
  lemma AnchoredIff(p: string)
    requires STAR in p
    ensures (forall u :: Glob([STAR] + p, u) <==> Glob(p, u)) <==> p[0] == STAR
  {
    if p[0] == STAR {
      assert p == [STAR] + p[1..];
      forall u ensures Glob([STAR] + p, u) <==> Glob(p, u) { StarStar(p[1..], u); }
    } else {
      var other := if p[0] == 'a' then 'b' else 'a';
      var u := [other] + Literal(p);
      LiteralMatches(p);
      StarUnfold(p, u);
      assert u[1..] == Literal(p);
      assert Glob([STAR] + p, u) && !Glob(p, u);
    }
  }

  /** The documented example: a pattern meant for one site's pages also matches elsewhere. */
  lemma UnanchoredExample()
    ensures var p, u := "https://a/*", "x?https://a/"; Glob([STAR] + p, u) && !Glob(p, u)
  {
    hide Glob;
    var p, u := "https://a/*", "x?https://a/";
    var lit := "https://a/";
    assert p == lit + [STAR];
    StarUnfold(p, u);
    assert OccursAt(u, lit, 2);
    GlobAt(lit, [STAR], u, 2);
    StarMatchesAll([STAR], u[2 + |lit|..]);
    GlobLiteral(lit, [STAR], u);
    assert u[..|lit|][0] != lit[0];
  }
}
