/** What patterns, parts and rules mean for one API call, said without the machinery that decides it: a
    pattern is cut piece by piece against the text, letters count whatever their case. */
module Concrete {
  import opened Wrappers
  import opened Globs
  import opened Rules

  /** Equal, or the same letter of the alphabet in its two cases, 32 places apart. */
  predicate SameLetter(a: char, b: char) {
    || a == b
    || ('A' <= a <= 'Z' && b as int == a as int + 32)
    || ('A' <= b <= 'Z' && a as int == b as int + 32)
  }

  /** The piece of text one pattern character stands for. */
  predicate Fits(c: char, piece: string, anyCase: bool) {
    c == '*' || (|piece| == 1 && (c == '?' || c == piece[0] || (anyCase && SameLetter(c, piece[0]))))
  }

  function Join(pieces: seq<string>): string {
    if pieces == [] then "" else pieces[0] + Join(pieces[1..])
  }

  /** The text falls into one piece per pattern character, each fitting its own. */
  ghost predicate CutsInto(p: string, s: string, pieces: seq<string>, anyCase: bool) {
    |pieces| == |p| && Join(pieces) == s && forall i | 0 <= i < |p| :: Fits(p[i], pieces[i], anyCase)
  }

  ghost predicate Stands(p: string, s: string, anyCase: bool) {
    exists pieces :: CutsInto(p, s, pieces, anyCase)
  }

  // ----- matching is standing ------------------------------------------------

  /** One more pattern character in front, with its piece. */
  lemma CutsMore(p: string, s: string, piece: string, rest: seq<string>, anyCase: bool)
    requires p != [] && |piece| <= |s| && s[..|piece|] == piece && Fits(p[0], piece, anyCase)
    requires CutsInto(p[1..], s[|piece|..], rest, anyCase)
    ensures CutsInto(p, s, [piece] + rest, anyCase)
  {
    var pieces := [piece] + rest;
    assert pieces[1..] == rest && s == s[..|piece|] + s[|piece|..];
    forall i | 0 <= i < |p| ensures Fits(p[i], pieces[i], anyCase) {
      assert i > 0 ==> p[i] == p[1..][i - 1] && pieces[i] == rest[i - 1];
    }
  }

  lemma {:induction false} MatchesCuts(p: string, s: string) returns (pieces: seq<string>)
    requires Matches(p, s)
    ensures CutsInto(p, s, pieces, false)
    decreases |p| + |s|
  {
    if p == [] {
      pieces := [];
    } else if p[0] == '*' && Matches(p[1..], s) {
      var rest := MatchesCuts(p[1..], s);
      assert s[0..] == s && s[..0] == "";
      CutsMore(p, s, "", rest, false);
      pieces := [""] + rest;
    } else if p[0] == '*' {
      var rest := MatchesCuts(p, s[1..]);
      pieces := StarGrows(p, s, rest);
    } else {
      var rest := MatchesCuts(p[1..], s[1..]);
      assert s[..1] == [s[0]];
      CutsMore(p, s, [s[0]], rest, false);
      pieces := [[s[0]]] + rest;
    }
  }

  /** A star's piece takes one character more. */
  lemma StarGrows(p: string, s: string, rest: seq<string>) returns (pieces: seq<string>)
    requires p != [] && p[0] == '*' && s != [] && CutsInto(p, s[1..], rest, false)
    ensures CutsInto(p, s, pieces, false)
  {
    var piece := [s[0]] + rest[0];
    assert s[1..] == rest[0] + Join(rest[1..]);
    assert s == piece + Join(rest[1..]);
    assert s[..|piece|] == piece && s[|piece|..] == Join(rest[1..]);
    CutsMore(p, s, piece, rest[1..], false);
    pieces := [piece] + rest[1..];
  }

  lemma {:induction false} CutsMatch(p: string, s: string, pieces: seq<string>)
    requires CutsInto(p, s, pieces, false)
    ensures Matches(p, s)
    decreases |p|
  {
    if p != [] {
      CutsMatch(p[1..], Join(pieces[1..]), pieces[1..]);
      if p[0] == '*' {
        StarTakes(p, pieces[0], Join(pieces[1..]));
      } else {
        assert s[1..] == Join(pieces[1..]);
      }
    }
  }

  lemma {:induction false} StarTakes(p: string, head: string, tail: string)
    requires p != [] && p[0] == '*' && Matches(p[1..], tail)
    ensures Matches(p, head + tail)
    decreases |head|
  {
    if head == [] {
      assert head + tail == tail;
    } else {
      var s := head + tail;
      assert s[1..] == head[1..] + tail;
      StarTakes(p, head[1..], tail);
      StarMore(p, s);
    }
  }

  lemma StarMore(p: string, s: string)
    requires p != [] && p[0] == '*' && s != [] && Matches(p, s[1..])
    ensures Matches(p, s)
  {}

  /** Matching is cutting the text into fitting pieces. */
  lemma MatchesIsStanding(p: string, s: string)
    ensures Matches(p, s) <==> Stands(p, s, false)
  {
    if Matches(p, s) {
      var pieces := MatchesCuts(p, s);
    }
    if Stands(p, s, false) {
      var pieces :| CutsInto(p, s, pieces, false);
      CutsMatch(p, s, pieces);
    }
  }

  // ----- case ----------------------------------------------------------------

  lemma LetterFolds(a: char, b: char)
    ensures LowerChar(a) == LowerChar(b) <==> SameLetter(a, b)
  {}

  lemma LowerJoins(a: string, b: string)
    ensures Lower(a + b) == Lower(a) + Lower(b)
  {}

  lemma FitsFolded(c: char, piece: string)
    ensures Fits(c, piece, true) <==> Fits(LowerChar(c), Lower(piece), false)
  {
    if |piece| == 1 { LetterFolds(c, piece[0]); }
  }

  lemma {:induction false} CutsFold(p: string, s: string, pieces: seq<string>) returns (folded: seq<string>)
    requires CutsInto(p, s, pieces, true)
    ensures CutsInto(Lower(p), Lower(s), folded, false)
    decreases |p|
  {
    if p == [] {
      folded := [];
    } else {
      var rest := CutsFold(p[1..], Join(pieces[1..]), pieces[1..]);
      folded := [Lower(pieces[0])] + rest;
      FitsFolded(p[0], pieces[0]);
      LowerJoins(pieces[0], Join(pieces[1..]));
      assert folded[1..] == rest && Lower(p)[1..] == Lower(p[1..]);
      forall i | 0 <= i < |p| ensures Fits(Lower(p)[i], folded[i], false) {
        assert i > 0 ==> Lower(p)[i] == Lower(p[1..])[i - 1] && folded[i] == rest[i - 1];
      }
    }
  }

  lemma {:induction false} CutsUnfold(p: string, s: string, folded: seq<string>) returns (pieces: seq<string>)
    requires CutsInto(Lower(p), Lower(s), folded, false)
    ensures CutsInto(p, s, pieces, true)
    decreases |p|
  {
    if p == [] {
      pieces := [];
      assert Lower(s) == "";
    } else {
      var k := |folded[0]|;
      var head, tail := s[..k], s[k..];
      assert s == head + tail;
      LowerJoins(head, tail);
      assert Lower(s)[..k] == folded[0] == Lower(head) && Lower(s)[k..] == Join(folded[1..]) == Lower(tail);
      assert Lower(p)[1..] == Lower(p[1..]);
      forall i | 0 <= i < |p| - 1 ensures Fits(Lower(p[1..])[i], folded[1..][i], false) {
        assert Lower(p[1..])[i] == Lower(p)[i + 1];
      }
      var rest := CutsUnfold(p[1..], tail, folded[1..]);
      pieces := [head] + rest;
      FitsFolded(p[0], head);
      assert pieces[1..] == rest && Lower(p)[0] == LowerChar(p[0]);
    }
  }

  /** Lowering both sides is reading letters in any case. */
  lemma LoweringIsAnyCase(p: string, s: string)
    ensures Matches(Lower(p), Lower(s)) <==> Stands(p, s, true)
  {
    MatchesIsStanding(Lower(p), Lower(s));
    if Stands(Lower(p), Lower(s), false) {
      var folded :| CutsInto(Lower(p), Lower(s), folded, false);
      var pieces := CutsUnfold(p, s, folded);
    }
    if Stands(p, s, true) {
      var pieces :| CutsInto(p, s, pieces, true);
      var folded := CutsFold(p, s, pieces);
    }
  }

  // ----- one call ------------------------------------------------------------

  /** One call on one resource, in whatever case it is written. */
  datatype Call = Call(service: string, verb: string, resource: string)

  /** Service and verb are there, and hold no colon. */
  predicate Proper(call: Call) {
    call.service != "" && call.verb != "" && ':' !in call.service && ':' !in call.verb
  }

  /** An action pattern speaks of calls only if it has a colon or is nothing but stars, and then it is read
      against the call's whole name. */
  ghost predicate ActionReaches(pattern: string, call: Call) {
    && (':' in pattern || forall c | c in pattern :: c == '*')
    && Stands(pattern, call.service + ":" + call.verb, true)
  }

  ghost predicate PartReaches(part: Part, call: Call) {
    part.arn == "" && ActionReaches(part.action, call) && Stands(part.resource, call.resource, true)
  }

  ghost predicate RuleReaches(rule: Rule, call: Call) {
    && (exists i | 0 <= i < |rule.actions| :: ActionReaches(rule.actions[i], call))
    && (exists i | 0 <= i < |rule.resources| :: Stands(rule.resources[i], call.resource, true))
  }

  /** The call's name as the rules fold it. */
  function NameOf(call: Call): Name {
    Name(Lower(call.service), Lower(call.verb), Lower(call.resource))
  }

  lemma {:induction false} StarsMatchAll(p: string, s: string)
    requires AllStars(p) && p != []
    ensures Matches(p, s)
    decreases |s|
  {
    if s == [] {
      StarsMatchEmpty(p);
    } else {
      StarsMatchAll(p, s[1..]);
    }
  }

  lemma LowerKeepsMarks(p: string)
    ensures ':' in Lower(p) <==> ':' in p
    ensures AllStars(Lower(p)) <==> forall c | c in p :: c == '*'
  {
    forall i | 0 <= i < |p| ensures (Lower(p)[i] == ':' <==> p[i] == ':') && (Lower(p)[i] == '*' <==> p[i] == '*') {
      assert Lower(p)[i] in Lower(p) && p[i] in p;
    }
    if ':' in p {
      var i :| 0 <= i < |p| && p[i] == ':';
      assert Lower(p)[i] in Lower(p);
    }
    if ':' in Lower(p) {
      var i :| 0 <= i < |p| && Lower(p)[i] == ':';
      assert p[i] in p;
    }
    if forall c | c in p :: c == '*' {
      forall i | 0 <= i < |p| ensures Lower(p)[i] == '*' { assert p[i] in p; }
    }
    if AllStars(Lower(p)) {
      forall c | c in p ensures c == '*' {
        var i :| 0 <= i < |p| && p[i] == c;
        assert Lower(p)[i] == '*';
      }
    }
  }

  lemma LowerNeverEmpties(p: string)
    ensures Lower(p) == "" <==> p == ""
    ensures |Lower(p)| == |p|
  {}

  lemma NoColonLowered(s: string)
    requires ':' !in s
    ensures ':' !in Lower(s)
  {
    LowerKeepsMarks(s);
  }

  /** The split of an action pattern into service and verb decides exactly what the pattern reaches. */
  lemma ActionReachesExactly(pattern: string, call: Call)
    requires Proper(call)
    ensures ActionReaches(pattern, call) <==> ActionMatches(Matches, pattern, NameOf(call))
  {
    var a, service, verb := Lower(pattern), Lower(call.service), Lower(call.verb);
    var name := call.service + ":" + call.verb;
    LowerKeepsMarks(pattern);
    NoColonLowered(call.service);
    NoColonLowered(call.verb);
    LoweringIsAnyCase(pattern, name);
    assert Lower(name) == service + ":" + verb;
    if ':' in pattern {
      ComponentMatchingIsWholeMatching(a, service, verb);
    } else if AllStars(a) {
      if pattern == "" {
        assert !Matches("", service);
      } else {
        StarsMatchAll(a, service);
        StarsMatchAll("*", verb);
        StarsMatchAll(a, service + ":" + verb);
      }
    } else {
      assert !Matches("", verb);
    }
  }

  lemma ResourceReachesExactly(glob: string, resource: string)
    ensures Stands(glob, resource, true) <==> Matches(Lower(glob), Lower(resource))
  {
    LoweringIsAnyCase(glob, resource);
  }

  lemma PartReachesExactly(part: Part, call: Call)
    requires Proper(call)
    ensures PartReaches(part, call) <==> PartMatches(Matches, part, NameOf(call))
  {
    ActionReachesExactly(part.action, call);
    ResourceReachesExactly(part.resource, call.resource);
  }

  lemma RuleReachesExactly(rule: Rule, call: Call)
    requires Proper(call)
    ensures RuleReaches(rule, call) <==> RuleMatches(Matches, rule, NameOf(call))
  {
    forall i | 0 <= i < |rule.actions|
      ensures ActionReaches(rule.actions[i], call) <==> ActionMatches(Matches, rule.actions[i], NameOf(call))
    {
      ActionReachesExactly(rule.actions[i], call);
    }
    forall i | 0 <= i < |rule.resources|
      ensures Stands(rule.resources[i], call.resource, true) <==>
        Matches(Lower(rule.resources[i]), Lower(call.resource))
    {
      ResourceReachesExactly(rule.resources[i], call.resource);
    }
  }

  // ----- the decisions, for calls --------------------------------------------

  /** A request no deny rule blocks reaches no call that a deny rule reaches. */
  lemma NoDeniedCallIsReached(rules: seq<Rule>, parts: seq<Part>, rule: Rule, part: Part, call: Call)
    requires DenialsOf(rules, parts) == [] && part in parts && rule in rules && rule.effect == Deny && Proper(call)
    requires PartReaches(part, call)
    ensures !RuleReaches(rule, call)
  {
    PartReachesExactly(part, call);
    RuleReachesExactly(rule, call);
    DenyIsAirtight(Matches, rules, parts, rule, part, NameOf(call));
  }

  /** A covering rule reaches every call the part reaches. */
  lemma CoveringRuleReachesAll(rule: Rule, part: Part, call: Call)
    requires Covers(rule, part) && PartReaches(part, call) && Proper(call)
    ensures RuleReaches(rule, call)
  {
    PartReachesExactly(part, call);
    RuleReachesExactly(rule, call);
    CoverMatchesAll(Matches, rule, part, NameOf(call));
  }

  /** A containing rule reaches every call the inner rule reaches. */
  lemma ContainingRuleReachesAll(outer: Rule, inner: Rule, call: Call)
    requires WellFormed(inner) && ContainsRule(outer, inner) && RuleReaches(inner, call) && Proper(call)
    ensures RuleReaches(outer, call)
  {
    RuleReachesExactly(inner, call);
    RuleReachesExactly(outer, call);
    ContainmentMatchesAll(Matches, outer, inner, NameOf(call));
  }

  /** Any rule that reaches a call the part reaches overlaps it. */
  lemma ReachingRuleOverlaps(rule: Rule, part: Part, call: Call)
    requires PartReaches(part, call) && RuleReaches(rule, call) && Proper(call)
    ensures Overlaps(rule, part)
  {
    PartReachesExactly(part, call);
    RuleReachesExactly(rule, call);
    SharedNameOverlaps(Matches, rule, part, NameOf(call));
  }

  /** A managed policy is denied exactly if some deny rule's pattern stands for its name, case and all. */
  lemma ManagedPolicyDenied(rules: seq<Rule>, arn: string)
    requires arn != ""
    ensures DenialsOf(rules, [Part("", "", arn)]) == [] <==>
      forall r, i | r in rules && r.effect == Deny && 0 <= i < |r.arns| :: !Stands(r.arns[i], arn, false)
  {
    var part := Part("", "", arn);
    NoDenials(rules, [part]);
    forall r | r in rules
      ensures Denies(r, part) <==> r.effect == Deny && exists i | 0 <= i < |r.arns| :: Stands(r.arns[i], arn, false)
    {
      forall i | 0 <= i < |r.arns| ensures Stands(r.arns[i], arn, false) <==> Matches(r.arns[i], arn) {
        MatchesIsStanding(r.arns[i], arn);
      }
    }
    assert part in [part];
  }

  // ----- what covers and contains at least -----------------------------------

  /** A bracket-free rule that lists the part's own action and resource, in any case, covers it. */
  lemma ListingRuleCovers(rule: Rule, part: Part, i: nat, j: nat)
    requires part.arn == "" && BracketFree(rule, part) && i < |rule.actions| && j < |rule.resources|
    requires Lower(rule.actions[i]) == Lower(part.action) && Lower(rule.resources[j]) == Lower(part.resource)
    ensures Covers(rule, part)
  {
    var g, r := SplitAction(part.action), Lower(part.resource);
    CoversPreorder(g.service, g.service, g.service);
    CoversPreorder(g.verb, g.verb, g.verb);
    CoversPreorder(r, r, r);
    assert ActionCovers(rule.actions[i], part.action);
  }

  lemma {:induction false} StarCoversAll(req: string)
    requires !Opaque(req)
    ensures GlobCovers("*", req)
    decreases |req|
  {
    assert "*"[1..] == "";
    if req != [] {
      assert forall c | c in req[1..] :: c in req;
      StarCoversAll(req[1..]);
    }
  }

  /** A rule for every action on every resource covers every bracket-free part. */
  lemma EverythingCovers(rule: Rule, part: Part, i: nat, j: nat)
    requires part.arn == "" && BracketFree(rule, part) && i < |rule.actions| && j < |rule.resources|
    requires rule.actions[i] == "*" && rule.resources[j] == "*"
    ensures Covers(rule, part)
  {
    assert Lower("*") == "*" && SplitAction("*") == ActionGlob("*", "*");
    StarCoversAll(SplitAction(part.action).service);
    StarCoversAll(SplitAction(part.action).verb);
    StarCoversAll(Lower(part.resource));
    assert ActionCovers(rule.actions[i], part.action);
  }

  /** A managed policy is covered exactly by the rules with a pattern that stands for its name. */
  lemma ManagedPolicyCovered(rule: Rule, part: Part)
    requires part.arn != ""
    ensures Covers(rule, part) <==> exists i | 0 <= i < |rule.arns| :: Stands(rule.arns[i], part.arn, false)
    ensures Overlaps(rule, part) <==> Covers(rule, part)
  {
    forall i | 0 <= i < |rule.arns| ensures Stands(rule.arns[i], part.arn, false) <==> Matches(rule.arns[i], part.arn) {
      MatchesIsStanding(rule.arns[i], part.arn);
    }
  }

  /** A rule whose patterns include all of another's, bracket-free, contains it. */
  lemma LargerRuleContains(outer: Rule, inner: Rule)
    requires forall a | a in inner.actions ::
      a in outer.actions && !Opaque(SplitAction(a).service) && !Opaque(SplitAction(a).verb)
    requires forall r | r in inner.resources :: r in outer.resources && !Opaque(Lower(r))
    requires forall p | p in inner.arns :: p in outer.arns && !Opaque(p)
    ensures ContainsRule(outer, inner)
  {
    forall i | 0 <= i < |inner.actions| ensures AnyActionCover(outer.actions, inner.actions[i]) {
      var a := inner.actions[i];
      var g := SplitAction(a);
      CoversPreorder(g.service, g.service, g.service);
      CoversPreorder(g.verb, g.verb, g.verb);
      assert a in inner.actions;
      var o :| 0 <= o < |outer.actions| && outer.actions[o] == a;
      assert ActionCovers(outer.actions[o], a);
    }
    forall i | 0 <= i < |inner.resources| ensures AnyCover(outer.resources, inner.resources[i]) {
      var r := inner.resources[i];
      CoversPreorder(Lower(r), Lower(r), Lower(r));
      assert r in inner.resources;
      var o :| 0 <= o < |outer.resources| && outer.resources[o] == r;
    }
    forall i | 0 <= i < |inner.arns| ensures AnyArnCover(outer.arns, inner.arns[i]) {
      var p := inner.arns[i];
      CoversPreorder(p, p, p);
      assert p in inner.arns;
      var o :| 0 <= o < |outer.arns| && outer.arns[o] == p;
      assert GlobCovers(outer.arns[o], inner.arns[i]);
    }
  }
}
