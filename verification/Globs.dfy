/** The glob algebra of the AWS approval rules: do two globs overlap, and does one cover
    the other?  Both questions are answered by syntactic recursion over the two patterns;
    here they are proved against what the patterns match. */
module Globs {

  /** Fnmatch-style matching, the meaning of a bracket-free glob: `*` is any string, `?` any
      one character, everything else itself. */
  predicate Matches(p: string, s: string)
    decreases |p| + |s|
  {
    if p == [] then s == []
    else if p[0] == '*' then Matches(p[1..], s) || (s != [] && Matches(p, s[1..]))
    else s != [] && (p[0] == '?' || p[0] == s[0]) && Matches(p[1..], s[1..])
  }

  /** A pattern with a bracket, whose character class the algebra does not interpret. */
  predicate Opaque(p: string) {
    '[' in p || ']' in p
  }

  predicate AllStars(p: string) {
    forall i | 0 <= i < |p| :: p[i] == '*'
  }

  /** `go` of glob_overlaps on the two suffixes still to be compared. */
  predicate OverlapsFrom(p: string, q: string)
    decreases |p| + |q|
  {
    if p == [] then AllStars(q)
    else if q == [] then AllStars(p)
    else if p[0] == '*' then OverlapsFrom(p[1..], q) || OverlapsFrom(p, q[1..])
    else if q[0] == '*' then OverlapsFrom(p, q[1..]) || OverlapsFrom(p[1..], q)
    else (p[0] == q[0] || p[0] == '?' || q[0] == '?') && OverlapsFrom(p[1..], q[1..])
  }

  /** The overlap test.  A bracket on either side counts as an overlap. */
  predicate GlobOverlaps(p: string, q: string) {
    Opaque(p) || Opaque(q) || OverlapsFrom(p, q)
  }

  /** `go` of glob_covers on the two suffixes still to be compared. */
  predicate CoversFrom(rule: string, req: string)
    decreases |rule| + |req|
  {
    if rule == [] then req == []
    else if rule[0] == '*' then CoversFrom(rule[1..], req) || (req != [] && CoversFrom(rule, req[1..]))
    else if req == [] then false
    else if rule[0] == '?' then req[0] != '*' && CoversFrom(rule[1..], req[1..])
    else rule[0] == req[0] && CoversFrom(rule[1..], req[1..])
  }

  /** The cover test.  A bracket on either side counts as no cover. */
  predicate GlobCovers(rule: string, req: string) {
    !Opaque(rule) && !Opaque(req) && CoversFrom(rule, req)
  }

  /** Some string matches both globs. */
  ghost predicate ShareAString(p: string, q: string) {
    exists s :: Matches(p, s) && Matches(q, s)
  }

  /** Every string `inner` matches, `outer` matches. */
  ghost predicate Includes(outer: string, inner: string) {
    forall s | Matches(inner, s) :: Matches(outer, s)
  }

  // ----- matching ------------------------------------------------------------

  /** What `Matches` means for a concatenation: the string splits.  With the one-character
      cases this pins matching down without mentioning its recursion. */
  lemma {:induction false} MatchesConcat(p: string, q: string, s: string)
    ensures Matches(p + q, s) <==> exists k :: 0 <= k <= |s| && Matches(p, s[..k]) && Matches(q, s[k..])
  {
    if Matches(p + q, s) {
      var k := SplitPoint(p, q, s);
    }
    if k :| 0 <= k <= |s| && Matches(p, s[..k]) && Matches(q, s[k..]) {
      JoinMatches(p, q, s[..k], s[k..]);
      assert s[..k] + s[k..] == s;
    }
  }

  lemma {:induction false} JoinMatches(p: string, q: string, s: string, t: string)
    requires Matches(p, s) && Matches(q, t)
    ensures Matches(p + q, s + t)
    decreases |p| + |s|
  {
    if p == [] {
      assert p + q == q && s + t == t;
    } else {
      assert (p + q)[1..] == p[1..] + q;
      if p[0] == '*' {
        if Matches(p[1..], s) {
          JoinMatches(p[1..], q, s, t);
        } else {
          assert (s + t)[1..] == s[1..] + t;
          JoinMatches(p, q, s[1..], t);
        }
      } else {
        assert (s + t)[1..] == s[1..] + t;
        JoinMatches(p[1..], q, s[1..], t);
      }
    }
  }

  lemma {:induction false} SplitPoint(p: string, q: string, s: string) returns (k: nat)
    requires Matches(p + q, s)
    ensures k <= |s| && Matches(p, s[..k]) && Matches(q, s[k..])
    decreases |p| + |s|
  {
    if p == [] {
      assert p + q == q && s[0..] == s;
      k := 0;
    } else {
      assert (p + q)[1..] == p[1..] + q;
      if p[0] == '*' && Matches(p[1..] + q, s) {
        k := SplitPoint(p[1..], q, s);
      } else {
        var k' := SplitPoint(if p[0] == '*' then p else p[1..], q, s[1..]);
        k := k' + 1;
        assert s[..k][1..] == s[1..][..k'] && s[k..] == s[1..][k'..];
      }
    }
  }

  /** Every glob matches something: drop the stars, put a letter for each `?`. */
  function Sample(p: string): string {
    if p == [] then [] else
      if p[0] == '*' then Sample(p[1..])
      else [if p[0] == '?' then 'a' else p[0]] + Sample(p[1..])
  }

  lemma {:induction false} SampleMatches(p: string)
    ensures Matches(p, Sample(p))
  {
    if p != [] {
      SampleMatches(p[1..]);
      if p[0] != '*' {
        assert Sample(p)[1..] == Sample(p[1..]);
      }
    }
  }

  // ----- overlap -------------------------------------------------------------

  lemma {:induction false} StarsMatchEmpty(p: string)
    ensures Matches(p, []) <==> AllStars(p)
  {
    if p != [] {
      StarsMatchEmpty(p[1..]);
      assert AllStars(p) <==> p[0] == '*' && AllStars(p[1..]) by {
        assert forall i | 1 <= i < |p| :: p[i] == p[1..][i - 1];
        assert forall i | 0 <= i < |p| - 1 :: p[1..][i] == p[i + 1];
      }
    }
  }

  /** A string both globs match, built along the recursion that answered "overlap". */
  lemma {:induction false} OverlapWitness(p: string, q: string) returns (s: string)
    requires OverlapsFrom(p, q)
    ensures Matches(p, s) && Matches(q, s)
    decreases |p| + |q|
  {
    if p == [] || q == [] {
      s := [];
      StarsMatchEmpty(p);
      StarsMatchEmpty(q);
    } else if p[0] == '*' {
      if OverlapsFrom(p[1..], q) {
        s := OverlapWitness(p[1..], q);
      } else {
        s := AbsorbWitness(p, q);
      }
    } else if q[0] == '*' {
      if OverlapsFrom(p, q[1..]) {
        s := OverlapWitness(p, q[1..]);
      } else {
        var t := OverlapWitness(p[1..], q);
        s := [if p[0] == '?' then 'a' else p[0]] + t;
        assert s[1..] == t;
      }
    } else {
      var t := OverlapWitness(p[1..], q[1..]);
      s := [if p[0] != '?' then p[0] else if q[0] != '?' then q[0] else 'a'] + t;
      assert s[1..] == t;
    }
  }

  /** The leading star of `p` absorbs what `q` starts with. */
  lemma {:induction false} AbsorbWitness(p: string, q: string) returns (s: string)
    requires p != [] && p[0] == '*' && q != [] && OverlapsFrom(p, q[1..])
    ensures Matches(p, s) && Matches(q, s)
    decreases |p| + |q|, 0
  {
    var t := OverlapWitness(p, q[1..]);
    if q[0] == '*' {
      s := t;
    } else {
      s := [if q[0] == '?' then 'a' else q[0]] + t;
      assert s[1..] == t;
    }
  }

  lemma {:induction false} CommonStringOverlaps(p: string, q: string, s: string)
    requires Matches(p, s) && Matches(q, s)
    ensures OverlapsFrom(p, q)
    decreases |p| + |q| + |s|
  {
    if p == [] || q == [] {
      StarsMatchEmpty(p);
      StarsMatchEmpty(q);
    } else if p[0] == '*' && Matches(p[1..], s) {
      CommonStringOverlaps(p[1..], q, s);
    } else if q[0] == '*' && Matches(q[1..], s) {
      CommonStringOverlaps(p, q[1..], s);
    } else if p[0] == '*' && q[0] == '*' {
      CommonStringOverlaps(p, q, s[1..]);
    } else if p[0] == '*' {
      CommonStringOverlaps(p, q[1..], s[1..]);
    } else if q[0] == '*' {
      CommonStringOverlaps(p[1..], q, s[1..]);
    } else {
      CommonStringOverlaps(p[1..], q[1..], s[1..]);
    }
  }

  /** glob_overlaps is exact on bracket-free globs, and with a bracket in either never says no. */
  lemma OverlapsExact(p: string, q: string)
    ensures '[' !in p + q && ']' !in p + q ==> (GlobOverlaps(p, q) <==> ShareAString(p, q))
    ensures '[' in p + q || ']' in p + q ==> GlobOverlaps(p, q) && !GlobCovers(p, q)
  {
    if OverlapsFrom(p, q) {
      var s := OverlapWitness(p, q);
      assert Matches(p, s) && Matches(q, s);
    } else {
      forall s | Matches(p, s) && Matches(q, s) ensures false {
        CommonStringOverlaps(p, q, s);
      }
    }
  }

  // ----- cover ---------------------------------------------------------------

  lemma {:induction false} CoversFromSound(rule: string, req: string, s: string)
    requires CoversFrom(rule, req) && Matches(req, s)
    ensures Matches(rule, s)
    decreases |rule| + |req| + |s|
  {
    if rule == [] {
    } else if rule[0] == '*' {
      if CoversFrom(rule[1..], req) {
        CoversFromSound(rule[1..], req, s);
      } else if req[0] == '*' && Matches(req[1..], s) {
        CoversFromSound(rule, req[1..], s);
      } else if req[0] == '*' {
        CoversFromSound(rule, req, s[1..]);
      } else {
        CoversFromSound(rule, req[1..], s[1..]);
      }
    } else {
      CoversFromSound(rule[1..], req[1..], s[1..]);
    }
  }

  /** Sound: a covering rule matches whatever the covered request matches. */
  lemma CoversSound(rule: string, req: string)
    requires GlobCovers(rule, req)
    ensures Includes(rule, req)
  {
    forall s | Matches(req, s) ensures Matches(rule, s) {
      CoversFromSound(rule, req, s);
    }
  }

  lemma {:induction false} CoversFromReflexive(p: string)
    ensures CoversFrom(p, p)
  {
    if p != [] {
      CoversFromReflexive(p[1..]);
      if p[0] == '*' {
        assert CoversFrom(p, p[1..]);
      }
    }
  }

  lemma {:induction false} CoversFromTransitive(a: string, b: string, c: string)
    requires CoversFrom(a, b) && CoversFrom(b, c)
    ensures CoversFrom(a, c)
    decreases |a| + |b| + |c|
  {
    if a == [] {
    } else if a[0] == '*' {
      if CoversFrom(a[1..], b) {
        CoversFromTransitive(a[1..], b, c);
      } else if b[0] == '*' && CoversFrom(b[1..], c) {
        CoversFromTransitive(a, b[1..], c);
      } else if b[0] == '*' {
        CoversFromTransitive(a, b, c[1..]);
      } else {
        CoversFromTransitive(a, b[1..], c[1..]);
      }
    } else {
      CoversFromTransitive(a[1..], b[1..], c[1..]);
    }
  }

  /** Covering is a preorder on bracket-free globs. */
  lemma CoversPreorder(a: string, b: string, c: string)
    ensures !Opaque(a) ==> GlobCovers(a, a)
    ensures GlobCovers(a, b) && GlobCovers(b, c) ==> GlobCovers(a, c)
  {
    CoversFromReflexive(a);
    if GlobCovers(a, b) && GlobCovers(b, c) {
      CoversFromTransitive(a, b, c);
    }
  }

  /** A cover is an overlap: the request's own sample is matched by both. */
  lemma CoversImpliesOverlaps(rule: string, req: string)
    requires GlobCovers(rule, req)
    ensures GlobOverlaps(rule, req)
  {
    SampleMatches(req);
    CoversFromSound(rule, req, Sample(req));
    CommonStringOverlaps(rule, req, Sample(req));
  }

  lemma {:induction false} CoversFromIsMatching(rule: string, s: string)
    requires '*' !in s
    ensures CoversFrom(rule, s) <==> Matches(rule, s)
    decreases |rule| + |s|
  {
    if rule != [] {
      if s != [] {
        CoversFromIsMatching(rule[1..], s[1..]);
      }
      if rule[0] == '*' {
        CoversFromIsMatching(rule[1..], s);
        if s != [] {
          CoversFromIsMatching(rule, s[1..]);
        }
      }
    }
  }

  /** On a request without wildcards, covering is ordinary matching. */
  lemma CoversIsMatching(rule: string, s: string)
    requires !Opaque(rule) && !Opaque(s) && '*' !in s
    ensures GlobCovers(rule, s) <==> Matches(rule, s)
  {
    CoversFromIsMatching(rule, s);
  }

  // ----- how complete the cover test is --------------------------------------

  /** The request with `z` for each wildcard: the hardest string for the rule to match. */
  function Fill(req: string, z: char): string {
    if req == [] then [] else
      [if req[0] == '*' || req[0] == '?' then z else req[0]] + Fill(req[1..], z)
  }

  lemma {:induction false} FillMatches(req: string, z: char)
    ensures Matches(req, Fill(req, z))
  {
    if req != [] {
      FillMatches(req[1..], z);
      assert Fill(req, z)[1..] == Fill(req[1..], z);
      if req[0] == '*' {
        assert Matches(req, Fill(req[1..], z));
      }
    }
  }

  lemma {:induction false} MatchingFillCovers(rule: string, req: string, z: char)
    requires z !in rule && ('?' !in rule || '*' !in req)
    requires Matches(rule, Fill(req, z))
    ensures CoversFrom(rule, req)
    decreases |rule| + |req|
  {
    if rule != [] {
      if req != [] {
        assert Fill(req, z)[1..] == Fill(req[1..], z);
      }
      if rule[0] == '*' {
        if Matches(rule[1..], Fill(req, z)) {
          MatchingFillCovers(rule[1..], req, z);
        } else {
          MatchingFillCovers(rule, req[1..], z);
        }
      } else {
        assert rule[0] in rule;
        MatchingFillCovers(rule[1..], req[1..], z);
      }
    }
  }

  /** Matching in which `?` refuses one character, `w`, that `*` still accepts. */
  predicate MatchesBut(p: string, s: string, w: char)
    decreases |p| + |s|
  {
    if p == [] then s == []
    else if p[0] == '*' then MatchesBut(p[1..], s, w) || (s != [] && MatchesBut(p, s[1..], w))
    else s != [] && (if p[0] == '?' then s[0] != w else p[0] == s[0]) && MatchesBut(p[1..], s[1..], w)
  }

  ghost predicate IncludesBut(outer: string, inner: string, w: char) {
    forall s | MatchesBut(inner, s, w) :: MatchesBut(outer, s, w)
  }

  lemma {:induction false} CoversFromSoundBut(rule: string, req: string, s: string, w: char)
    requires w !in req && CoversFrom(rule, req) && MatchesBut(req, s, w)
    ensures MatchesBut(rule, s, w)
    decreases |rule| + |req| + |s|
  {
    if rule == [] {
    } else if rule[0] == '*' {
      if CoversFrom(rule[1..], req) {
        CoversFromSoundBut(rule[1..], req, s, w);
      } else if req[0] == '*' && MatchesBut(req[1..], s, w) {
        CoversFromSoundBut(rule, req[1..], s, w);
      } else if req[0] == '*' {
        CoversFromSoundBut(rule, req, s[1..], w);
      } else {
        CoversFromSoundBut(rule, req[1..], s[1..], w);
      }
    } else {
      assert req[0] in req;
      CoversFromSoundBut(rule[1..], req[1..], s[1..], w);
    }
  }

  /** The request with `z` for each `?` and `w` for each `*`. */
  function FillBut(req: string, z: char, w: char): string {
    if req == [] then [] else
      [if req[0] == '*' then w else if req[0] == '?' then z else req[0]] + FillBut(req[1..], z, w)
  }

  lemma {:induction false} FillButMatches(req: string, z: char, w: char)
    requires z != w
    ensures MatchesBut(req, FillBut(req, z, w), w)
  {
    if req != [] {
      FillButMatches(req[1..], z, w);
      assert FillBut(req, z, w)[1..] == FillBut(req[1..], z, w);
      if req[0] == '*' {
        assert MatchesBut(req, FillBut(req[1..], z, w), w);
      }
    }
  }

  lemma {:induction false} MatchingFillButCovers(rule: string, req: string, z: char, w: char)
    requires z !in rule && w !in rule && MatchesBut(rule, FillBut(req, z, w), w)
    ensures CoversFrom(rule, req)
    decreases |rule| + |req|
  {
    if rule != [] {
      if req != [] {
        assert FillBut(req, z, w)[1..] == FillBut(req[1..], z, w);
      }
      if rule[0] == '*' {
        if MatchesBut(rule[1..], FillBut(req, z, w), w) {
          MatchingFillButCovers(rule[1..], req, z, w);
        } else {
          MatchingFillButCovers(rule, req[1..], z, w);
        }
      } else {
        assert rule[0] in rule;
        MatchingFillButCovers(rule[1..], req[1..], z, w);
      }
    }
  }

  /** What the cover test decides, on every bracket-free pair: inclusion, for the reading in which
      `?` refuses a character that `*` accepts, whichever unmentioned characters are taken. */
  lemma CoversDecides(rule: string, req: string, z: char, w: char)
    requires !Opaque(rule) && !Opaque(req) && z !in rule && w !in rule && w !in req && z != w
    ensures GlobCovers(rule, req) <==> IncludesBut(rule, req, w)
  {
    if GlobCovers(rule, req) {
      forall s | MatchesBut(req, s, w) ensures MatchesBut(rule, s, w) {
        CoversFromSoundBut(rule, req, s, w);
      }
    } else {
      FillButMatches(req, z, w);
      if MatchesBut(rule, FillBut(req, z, w), w) { MatchingFillButCovers(rule, req, z, w); }
    }
  }

  /** Complete, hence exact, as soon as the rule has no `?` or the request no `*`, given one
      character the rule does not mention. */
  lemma CoversExact(rule: string, req: string, z: char)
    requires !Opaque(rule) && !Opaque(req) && z !in rule
    requires '?' !in rule || '*' !in req
    ensures GlobCovers(rule, req) <==> Includes(rule, req)
  {
    if GlobCovers(rule, req) {
      CoversSound(rule, req);
    } else if Matches(rule, Fill(req, z)) {
      MatchingFillCovers(rule, req, z);
    } else {
      FillMatches(req, z);
    }
  }

  /** Outside that condition completeness can fail: `?*` and `*?` match the same strings, and
      glob_covers refuses the pair. */
  lemma CoversIncomplete()
    ensures !GlobCovers("?*", "*?")
    ensures Includes("?*", "*?") && Includes("*?", "?*")
  {
    assert !CoversFrom("?*", "*?");
    forall s: string ensures Matches("*?", s) <==> Matches("?*", s) {
      AnythingLongEnough(s);
    }
  }

  lemma {:induction false} AnythingLongEnough(s: string)
    ensures Matches("*", s)
    ensures Matches("*?", s) <==> s != []
    ensures Matches("?*", s) <==> s != []
  {
    assert "*?"[1..] == "?" && "?*"[1..] == "*" && "*"[1..] == "" && "?"[1..] == "";
    if s != [] {
      AnythingLongEnough(s[1..]);
      if s[1..] == [] {
        assert Matches("?", s);
      }
    }
  }

  // ----- any reading of brackets ---------------------------------------------

  /** A glob semantics that agrees with `Matches` wherever there are no brackets; what it makes
      of a character class is left open. */
  ghost predicate ReadsGlobs(m: (string, string) -> bool) {
    forall p, s | !Opaque(p) :: m(p, s) == Matches(p, s)
  }

  /** A "no overlap" answer is right whatever brackets mean. */
  lemma DisjointForAnyReading(m: (string, string) -> bool, p: string, q: string, s: string)
    requires ReadsGlobs(m) && m(p, s) && m(q, s)
    ensures GlobOverlaps(p, q)
  {
    if !Opaque(p) && !Opaque(q) {
      CommonStringOverlaps(p, q, s);
    }
  }

  /** A "covers" answer is right whatever brackets mean. */
  lemma CoversForAnyReading(m: (string, string) -> bool, rule: string, req: string, s: string)
    requires ReadsGlobs(m) && GlobCovers(rule, req) && m(req, s)
    ensures m(rule, s)
  {
    CoversFromSound(rule, req, s);
  }
}
