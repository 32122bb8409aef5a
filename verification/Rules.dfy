/** The approval rules of an AWS account: an ordered list that denies a request, grants it, or
    names the approvals it needs.  Matching is proved against concrete (service, verb, resource)
    names, and the obligations against what those approvals stand for. */
module Rules {
  import opened Wrappers
  import opened Globs

  datatype Effect = Allow | Require | RequireAlways | Deny

  datatype Rule = Rule(
    name: string,
    effect: Effect,
    actions: seq<string>,
    resources: seq<string>,
    arns: seq<string>,
    approvers: Option<seq<string>>)

  /** A piece of a request that the rules judge by itself: an action on a resource, or a managed policy. */
  datatype Part = Part(action: string, resource: string, arn: string)

  /** An approval still to be given, by someone allowed on at least one of `objects`. */
  datatype Obligation = Obligation(id: nat, rules: seq<string>, objects: set<string>, parts: seq<string>)

  const ACCOUNT_DEFAULT := "account default"

  function Label(part: Part): string {
    if part.arn != "" then part.arn else part.action + " on " + part.resource
  }

  // ----- parsing the registry ------------------------------------------------

  datatype RawRule = RawRule(
    anchor: bool,
    name: string,
    effect: string,
    actions: seq<string>,
    resources: seq<string>,
    arns: seq<string>,
    approvers: Option<seq<string>>)

  datatype Parsed = Parsed(rules: seq<Rule>) | Malformed(name: string)

  function EffectOf(effect: string): Option<Effect> {
    if effect == "allow" then Some(Allow)
    else if effect == "require" then Some(Require)
    else if effect == "require_always" then Some(RequireAlways)
    else if effect == "deny" then Some(Deny)
    else None
  }

  /** A rule speaks about actions or about managed policies, never both. */
  predicate WellFormed(rule: Rule) {
    && (rule.actions != []) != (rule.arns != [])
    && rule.resources != []
  }

  function NonAnchors(raw: seq<RawRule>): seq<RawRule> {
    if raw == [] then []
    else NonAnchors(raw[..|raw| - 1]) + if raw[|raw| - 1].anchor then [] else [raw[|raw| - 1]]
  }

  predicate Parses(r: RawRule) {
    EffectOf(r.effect).Some? && (r.actions != []) != (r.arns != [])
  }

  function ShownName(r: RawRule): string {
    if r.name == "" then "?" else r.name
  }

  /** The rule at `i` does not parse, and every rule before it does or is an anchor. */
  predicate FirstMalformed(raw: seq<RawRule>, i: nat)
    requires i < |raw|
  {
    !raw[i].anchor && !Parses(raw[i]) && forall j | 0 <= j < i :: raw[j].anchor || Parses(raw[j])
  }

  /** What a raw rule becomes: no name reads `?`, no resources means every resource. */
  predicate ParsedAs(r: RawRule, rule: Rule) {
    && Some(rule.effect) == EffectOf(r.effect)
    && rule.name == ShownName(r)
    && rule.resources == (if r.resources == [] then ["*"] else r.resources)
    && rule.actions == r.actions && rule.arns == r.arns && rule.approvers == r.approvers
  }

  /** The registry's rules minus anchors, in order and well formed; malformed if any is. */
  method ParseRules(raw: seq<RawRule>) returns (out: Parsed)
    ensures out.Parsed? <==> forall r | r in NonAnchors(raw) :: Parses(r)
    ensures out.Parsed? ==> forall r | r in out.rules :: WellFormed(r)
    ensures out.Parsed? ==> |out.rules| == |NonAnchors(raw)|
    ensures out.Parsed? ==> forall i | 0 <= i < |out.rules| :: ParsedAs(NonAnchors(raw)[i], out.rules[i])
    ensures out.Malformed? ==> exists i | 0 <= i < |raw| :: FirstMalformed(raw, i) && out.name == ShownName(raw[i])
  {
    var rules: seq<Rule> := [];
    for i := 0 to |raw|
      invariant forall r | r in rules :: WellFormed(r)
      invariant forall r | r in NonAnchors(raw[..i]) :: Parses(r)
      invariant |rules| == |NonAnchors(raw[..i])|
      invariant forall j | 0 <= j < |rules| :: ParsedAs(NonAnchors(raw[..i])[j], rules[j])
      invariant forall j | 0 <= j < i :: raw[j].anchor || Parses(raw[j])
    {
      var r := raw[i];
      NonAnchorsNext(raw, i);
      if !r.anchor {
        var rule := ParseOne(r);
        if rule.None? {
          NonAnchorListed(raw, i);
          assert FirstMalformed(raw, i);
          return Malformed(ShownName(r));
        }
        rules := rules + [rule.value];
      }
    }
    assert raw[..|raw|] == raw;
    return Parsed(rules);
  }

  method ParseOne(r: RawRule) returns (rule: Option<Rule>)
    ensures rule.Some? <==> Parses(r)
    ensures rule.Some? ==> ParsedAs(r, rule.value) && WellFormed(rule.value)
  {
    var effect := EffectOf(r.effect);
    if effect.None? || (r.actions != []) == (r.arns != []) { return None; }
    var resources := if r.resources == [] then ["*"] else r.resources;
    rule := Some(Rule(ShownName(r), effect.value, r.actions, resources, r.arns, r.approvers));
  }

  lemma NonAnchorsNext(raw: seq<RawRule>, i: nat)
    requires i < |raw|
    ensures NonAnchors(raw[..i + 1]) ==
      if raw[i].anchor then NonAnchors(raw[..i]) else NonAnchors(raw[..i]) + [raw[i]]
  {
    assert raw[..i + 1][..i] == raw[..i];
  }

  lemma {:induction false} NonAnchorListed(raw: seq<RawRule>, i: nat)
    requires i < |raw| && !raw[i].anchor
    ensures raw[i] in NonAnchors(raw)
  {
    if i < |raw| - 1 {
      NonAnchorListed(raw[..|raw| - 1], i);
    }
  }

  // ----- actions -------------------------------------------------------------

  function LowerChar(c: char): char {
    if 'A' <= c <= 'Z' then c + ('a' - 'A') else c
  }

  function Lower(s: string): string {
    seq(|s|, i requires 0 <= i < |s| => LowerChar(s[i]))
  }

  datatype ActionGlob = ActionGlob(service: string, verb: string)

  /** The text before and after the first colon of `a`, which has one. */
  function SplitAtColon(a: string): ActionGlob
    requires ':' in a
  {
    if a[0] == ':' then ActionGlob("", a[1..])
    else var rest := SplitAtColon(a[1..]); rest.(service := [a[0]] + rest.service)
  }

  function SplitAction(action: string): ActionGlob {
    var a := Lower(action);
    if ':' in a then SplitAtColon(a)
    else if AllStars(a) then ActionGlob(a, "*")
    else ActionGlob(a, "")
  }

  predicate ActionOverlaps(rule: string, req: string) {
    var r, q := SplitAction(rule), SplitAction(req);
    GlobOverlaps(r.service, q.service) && GlobOverlaps(r.verb, q.verb)
  }

  predicate ActionCovers(rule: string, req: string) {
    var r, q := SplitAction(rule), SplitAction(req);
    GlobCovers(r.service, q.service) && GlobCovers(r.verb, q.verb)
  }

  lemma {:induction false} SplitAtColonSplits(a: string)
    requires ':' in a
    ensures var g := SplitAtColon(a); a == g.service + ":" + g.verb && ':' !in g.service
  {
    if a[0] != ':' {
      SplitAtColonSplits(a[1..]);
    }
  }

  /** Component matching is whole-string matching: for a pattern with a colon and a name with
      exactly one, no `*` or `?` can swallow the colon. */
  lemma ComponentMatchingIsWholeMatching(pattern: string, service: string, verb: string)
    requires ':' in pattern && ':' !in service && ':' !in verb
    ensures var g := SplitAtColon(pattern);
      Matches(pattern, service + ":" + verb) <==> Matches(g.service, service) && Matches(g.verb, verb)
  {
    var g := SplitAtColon(pattern);
    SplitAtColonSplits(pattern);
    if Matches(pattern, service + ":" + verb) {
      ColonSplitsMatch(g.service, g.verb, service, verb);
    }
    if Matches(g.service, service) && Matches(g.verb, verb) {
      ColonJoinsMatch(g.service, g.verb, service, verb);
    }
  }

  lemma ColonSplitsMatch(p: string, q: string, service: string, verb: string)
    requires ':' !in service && ':' !in verb && Matches(p + ":" + q, service + ":" + verb)
    ensures Matches(p, service) && Matches(q, verb)
  {
    var name, tail := service + ":" + verb, ":" + q;
    assert p + ":" + q == p + tail && tail[1..] == q;
    var k := SplitPoint(p, tail, name);
    assert name[k..][0] == ':';
    assert k == |service|;
    assert name[..k] == service && name[k..][1..] == verb;
  }

  lemma ColonJoinsMatch(p: string, q: string, service: string, verb: string)
    requires Matches(p, service) && Matches(q, verb)
    ensures Matches(p + ":" + q, service + ":" + verb)
  {
    assert (":" + q)[1..] == q && (":" + verb)[1..] == verb;
    JoinMatches(p, ":" + q, service, ":" + verb);
    assert p + ":" + q == p + (":" + q) && service + ":" + verb == service + (":" + verb);
  }

  /** With a second colon in the name the two differ: `*` may swallow one of them. */
  lemma ExtraColonBreaksComponents()
    ensures var g := SplitAtColon("*:c");
      Matches("*:c", "a" + ":" + "b:c") && !(Matches(g.service, "a") && Matches(g.verb, "b:c"))
  {
    assert SplitAtColon("*:c") == ActionGlob("*", "c") by {
      assert "*:c"[1..] == ":c" && ":c"[1..] == "c";
    }
    var n := "a" + ":" + "b:c";
    assert n[1..] == ":b:c" && n[1..][1..] == "b:c" && n[1..][1..][1..] == ":c";
    assert "*:c"[1..] == ":c" && ":c"[1..] == "c";
    assert Matches("c", "c");
    assert Matches(":c", ":c");
    assert Matches("*:c", ":c");
    assert Matches("*:c", "b:c");
    assert Matches("*:c", ":b:c");
  }

  // ----- rules on parts ------------------------------------------------------

  predicate AnyOverlap(globs: seq<string>, req: string) {
    exists i | 0 <= i < |globs| :: GlobOverlaps(Lower(globs[i]), Lower(req))
  }

  predicate AnyCover(globs: seq<string>, req: string) {
    exists i | 0 <= i < |globs| :: GlobCovers(Lower(globs[i]), Lower(req))
  }

  predicate AnyActionOverlap(actions: seq<string>, req: string) {
    exists i | 0 <= i < |actions| :: ActionOverlaps(actions[i], req)
  }

  predicate AnyActionCover(actions: seq<string>, req: string) {
    exists i | 0 <= i < |actions| :: ActionCovers(actions[i], req)
  }

  predicate Overlaps(rule: Rule, part: Part) {
    if part.arn != "" then exists i | 0 <= i < |rule.arns| :: Matches(rule.arns[i], part.arn)
    else AnyActionOverlap(rule.actions, part.action) && AnyOverlap(rule.resources, part.resource)
  }

  predicate Covers(rule: Rule, part: Part) {
    if part.arn != "" then Overlaps(rule, part)
    else AnyActionCover(rule.actions, part.action) && AnyCover(rule.resources, part.resource)
  }

  predicate AnyArnCover(arns: seq<string>, arn: string) {
    exists i | 0 <= i < |arns| :: GlobCovers(arns[i], arn)
  }

  /** The containment test between rules: each pattern of `inner` is covered by some pattern of `outer`. */
  predicate ContainsRule(outer: Rule, inner: Rule) {
    if inner.arns != [] then
      forall i | 0 <= i < |inner.arns| :: AnyArnCover(outer.arns, inner.arns[i])
    else
      && (forall i | 0 <= i < |inner.actions| :: AnyActionCover(outer.actions, inner.actions[i]))
      && (forall i | 0 <= i < |inner.resources| :: AnyCover(outer.resources, inner.resources[i]))
  }

  // ----- what parts and rules match ------------------------------------------

  /** A concrete name, case folded: one API call on one resource. */
  datatype Name = Name(service: string, verb: string, resource: string)

  type Reading = (string, string) -> bool

  ghost predicate ActionMatches(m: Reading, action: string, n: Name) {
    var g := SplitAction(action);
    m(g.service, n.service) && m(g.verb, n.verb)
  }

  ghost predicate PartMatches(m: Reading, part: Part, n: Name) {
    part.arn == "" && ActionMatches(m, part.action, n) && m(Lower(part.resource), n.resource)
  }

  ghost predicate RuleMatches(m: Reading, rule: Rule, n: Name) {
    && (exists i | 0 <= i < |rule.actions| :: ActionMatches(m, rule.actions[i], n))
    && (exists i | 0 <= i < |rule.resources| :: m(Lower(rule.resources[i]), n.resource))
  }

  /** A rule and a part that share a name overlap. */
  lemma SharedNameOverlaps(m: Reading, rule: Rule, part: Part, n: Name)
    requires ReadsGlobs(m) && PartMatches(m, part, n) && RuleMatches(m, rule, n)
    ensures Overlaps(rule, part)
  {
    var i :| 0 <= i < |rule.actions| && ActionMatches(m, rule.actions[i], n);
    var r, q := SplitAction(rule.actions[i]), SplitAction(part.action);
    DisjointForAnyReading(m, r.service, q.service, n.service);
    DisjointForAnyReading(m, r.verb, q.verb, n.verb);
    assert ActionOverlaps(rule.actions[i], part.action);
    var j :| 0 <= j < |rule.resources| && m(Lower(rule.resources[j]), n.resource);
    DisjointForAnyReading(m, Lower(rule.resources[j]), Lower(part.resource), n.resource);
  }

  ghost predicate BracketFree(rule: Rule, part: Part) {
    && (forall i | 0 <= i < |rule.actions| ::
      !Opaque(SplitAction(rule.actions[i]).service) && !Opaque(SplitAction(rule.actions[i]).verb))
    && (forall i | 0 <= i < |rule.resources| :: !Opaque(Lower(rule.resources[i])))
    && !Opaque(SplitAction(part.action).service) && !Opaque(SplitAction(part.action).verb) &&
      !Opaque(Lower(part.resource))
  }

  /** Without brackets an overlap always has a shared name: deny and require never fire idly. */
  lemma OverlapSharesName(rule: Rule, part: Part) returns (n: Name)
    requires part.arn == "" && BracketFree(rule, part) && Overlaps(rule, part)
    ensures PartMatches(Matches, part, n) && RuleMatches(Matches, rule, n)
  {
    var i :| 0 <= i < |rule.actions| && ActionOverlaps(rule.actions[i], part.action);
    var r, q := SplitAction(rule.actions[i]), SplitAction(part.action);
    var service := OverlapWitness(r.service, q.service);
    var verb := OverlapWitness(r.verb, q.verb);
    var j :| 0 <= j < |rule.resources| && GlobOverlaps(Lower(rule.resources[j]), Lower(part.resource));
    var resource := OverlapWitness(Lower(rule.resources[j]), Lower(part.resource));
    n := Name(service, verb, resource);
    assert ActionMatches(Matches, rule.actions[i], n);
  }

  lemma ActionCoverMatches(m: Reading, rule: string, req: string, n: Name)
    requires ReadsGlobs(m) && ActionCovers(rule, req) && ActionMatches(m, req, n)
    ensures ActionMatches(m, rule, n)
  {
    var r, q := SplitAction(rule), SplitAction(req);
    CoversForAnyReading(m, r.service, q.service, n.service);
    CoversForAnyReading(m, r.verb, q.verb, n.verb);
  }

  /** A covering rule matches every name of the part. */
  lemma CoverMatchesAll(m: Reading, rule: Rule, part: Part, n: Name)
    requires ReadsGlobs(m) && Covers(rule, part) && PartMatches(m, part, n)
    ensures RuleMatches(m, rule, n)
  {
    var i :| 0 <= i < |rule.actions| && ActionCovers(rule.actions[i], part.action);
    ActionCoverMatches(m, rule.actions[i], part.action, n);
    var j :| 0 <= j < |rule.resources| && GlobCovers(Lower(rule.resources[j]), Lower(part.resource));
    CoversForAnyReading(m, Lower(rule.resources[j]), Lower(part.resource), n.resource);
  }

  /** A containing rule matches every name the inner rule matches. */
  lemma ContainmentMatchesAll(m: Reading, outer: Rule, inner: Rule, n: Name)
    requires ReadsGlobs(m) && WellFormed(inner) && ContainsRule(outer, inner) && RuleMatches(m, inner, n)
    ensures RuleMatches(m, outer, n)
  {
    var i :| 0 <= i < |inner.actions| && ActionMatches(m, inner.actions[i], n);
    var o :| 0 <= o < |outer.actions| && ActionCovers(outer.actions[o], inner.actions[i]);
    ActionCoverMatches(m, outer.actions[o], inner.actions[i], n);
    var j :| 0 <= j < |inner.resources| && m(Lower(inner.resources[j]), n.resource);
    assert AnyCover(outer.resources, inner.resources[j]);
    var k :| 0 <= k < |outer.resources| && GlobCovers(Lower(outer.resources[k]), Lower(inner.resources[j]));
    CoversForAnyReading(m, Lower(outer.resources[k]), Lower(inner.resources[j]), n.resource);
  }

  /** A covering rule overlaps, so the walk's overlap test never hides a covering allow. */
  lemma CoversOverlaps(rule: Rule, part: Part)
    requires Covers(rule, part)
    ensures Overlaps(rule, part)
  {
    if part.arn == "" {
      var i :| 0 <= i < |rule.actions| && ActionCovers(rule.actions[i], part.action);
      var r, q := SplitAction(rule.actions[i]), SplitAction(part.action);
      CoversImpliesOverlaps(r.service, q.service);
      CoversImpliesOverlaps(r.verb, q.verb);
      assert ActionOverlaps(rule.actions[i], part.action);
      var j :| 0 <= j < |rule.resources| && GlobCovers(Lower(rule.resources[j]), Lower(part.resource));
      CoversImpliesOverlaps(Lower(rule.resources[j]), Lower(part.resource));
    }
  }

  // ----- deny ----------------------------------------------------------------

  predicate Denies(rule: Rule, part: Part) {
    rule.effect == Deny && Overlaps(rule, part)
  }

  function BlockedMessage(part: Part, rule: Rule): string {
    "'" + Label(part) + "' is blocked by approval rule '" + rule.name + "'"
  }

  /** The error for `part`, naming the first deny rule it overlaps. */
  function DenialOf(rules: seq<Rule>, part: Part): seq<string> {
    if rules == [] then []
    else if Denies(rules[0], part) then [BlockedMessage(part, rules[0])]
    else DenialOf(rules[1..], part)
  }

  function DenialsOf(rules: seq<Rule>, parts: seq<Part>): seq<string> {
    if parts == [] then [] else DenialsOf(rules, parts[..|parts| - 1]) + DenialOf(rules, parts[|parts| - 1])
  }

  /** The inner loop: stop at the first deny rule that overlaps. */
  method FirstDenial(rules: seq<Rule>, part: Part) returns (error: seq<string>)
    ensures error == DenialOf(rules, part)
  {
    error := [];
    assert rules[0..] == rules;
    for j := 0 to |rules|
      invariant error == [] && DenialOf(rules[j..], part) == DenialOf(rules, part)
    {
      if Denies(rules[j], part) {
        return [BlockedMessage(part, rules[j])];
      }
      assert rules[j..][1..] == rules[j + 1..];
    }
  }

  /** The refusals, in the order of the parts: each denied part with the first deny rule it meets. */
  method Denials(rules: seq<Rule>, parts: seq<Part>) returns (errors: seq<string>)
    ensures errors == DenialsOf(rules, parts)
    ensures errors == [] <==> forall p, r | p in parts && r in rules :: !Denies(r, p)
  {
    errors := [];
    for i := 0 to |parts|
      invariant errors == DenialsOf(rules, parts[..i])
    {
      var error := FirstDenial(rules, parts[i]);
      errors := errors + error;
      assert parts[..i + 1][..i] == parts[..i];
    }
    assert parts[..|parts|] == parts;
    NoDenials(rules, parts);
  }

  lemma {:induction false} NoDenials(rules: seq<Rule>, parts: seq<Part>)
    ensures DenialsOf(rules, parts) == [] <==> forall p, r | p in parts && r in rules :: !Denies(r, p)
  {
    if parts != [] {
      var init, last := parts[..|parts| - 1], parts[|parts| - 1];
      NoDenials(rules, init);
      NoDenialOfPart(rules, last);
      assert parts == init + [last];
    }
  }

  lemma {:induction false} NoDenialOfPart(rules: seq<Rule>, part: Part)
    ensures DenialOf(rules, part) == [] <==> forall r | r in rules :: !Denies(r, part)
  {
    if rules != [] {
      NoDenialOfPart(rules[1..], part);
      assert rules == [rules[0]] + rules[1..];
    }
  }

  /** Deny is airtight: when no error is returned, no concrete name any part matches is matched
      by any deny rule, whatever the brackets in either mean. */
  lemma DenyIsAirtight(m: Reading, rules: seq<Rule>, parts: seq<Part>, rule: Rule, part: Part, n: Name)
    requires ReadsGlobs(m) && DenialsOf(rules, parts) == []
    requires part in parts && PartMatches(m, part, n)
    requires rule in rules && rule.effect == Deny
    ensures !RuleMatches(m, rule, n)
  {
    NoDenials(rules, parts);
    assert !Denies(rule, part);
    if RuleMatches(m, rule, n) {
      SharedNameOverlaps(m, rule, part, n);
    }
  }

  // ----- the walk ------------------------------------------------------------

  predicate CoveringAllow(rule: Rule, part: Part) {
    rule.effect == Allow && Covers(rule, part)
  }

  predicate AllowedBefore(rules: seq<Rule>, part: Part, i: int)
    requires 0 <= i <= |rules|
  {
    exists k | 0 <= k < i :: CoveringAllow(rules[k], part)
  }

  /** The rule at `i` is a hit: a require_always that overlaps, or a require that overlaps and
      is not shadowed by an earlier covering allow. */
  predicate HitAt(rules: seq<Rule>, part: Part, i: int)
    requires 0 <= i < |rules|
  {
    && Overlaps(rules[i], part)
    && (rules[i].effect == RequireAlways || (rules[i].effect == Require && !AllowedBefore(rules, part, i)))
  }

  /** What the walk does on meeting a rule. */
  datatype Reaction = Passes | Always | Asks | Grants

  function Meets(rule: Rule, part: Part): Reaction {
    if rule.effect == Deny || !Overlaps(rule, part) then Passes
    else if rule.effect == RequireAlways then Always
    else if rule.effect == Require then Asks
    else if Covers(rule, part) then Grants
    else Passes
  }

  /** The loop of the walk: an `Asks` counts until something `Grants`, an `Always` always. */
  method WalkReactions(met: seq<Reaction>) returns (hits: seq<nat>, covered: bool)
    ensures covered <==> Grants in met
    ensures forall i | 0 <= i < |met| :: i in hits <==> met[i] == Always || (met[i] == Asks && Grants !in met[..i])
    ensures forall h | 0 <= h < |hits| :: hits[h] < |met|
    ensures forall g, h | 0 <= g < h < |hits| :: hits[g] < hits[h]
  {
    hits, covered := [], false;
    for i := 0 to |met|
      invariant covered <==> Grants in met[..i]
      invariant forall j | 0 <= j < i :: j in hits <==> met[j] == Always || (met[j] == Asks && Grants !in met[..j])
      invariant forall h | 0 <= h < |hits| :: hits[h] < i
      invariant forall g, h | 0 <= g < h < |hits| :: hits[g] < hits[h]
    {
      if met[i] == Always || (met[i] == Asks && !covered) {
        hits := hits + [i];
      } else if met[i] == Grants {
        covered := true;
      }
    }
    assert met[..|met|] == met;
  }

  /** The walk over the rules: where the hits are, and whether the part was let through by an allow. */
  method Walk(rules: seq<Rule>, part: Part) returns (hits: seq<nat>, covered: bool)
    ensures covered <==> AllowedBefore(rules, part, |rules|)
    ensures forall i | 0 <= i < |rules| :: i in hits <==> HitAt(rules, part, i)
    ensures forall h | 0 <= h < |hits| :: hits[h] < |rules|
    ensures forall g, h | 0 <= g < h < |hits| :: hits[g] < hits[h]
  {
    var met := seq(|rules|, i requires 0 <= i < |rules| => Meets(rules[i], part));
    hits, covered := WalkReactions(met);
    MetMeansHit(rules, part, met);
    assert met[..|rules|] == met;
  }

  lemma MetMeansHit(rules: seq<Rule>, part: Part, met: seq<Reaction>)
    requires |met| == |rules| && forall i | 0 <= i < |rules| :: met[i] == Meets(rules[i], part)
    ensures forall i | 0 <= i <= |rules| :: Grants in met[..i] <==> AllowedBefore(rules, part, i)
    ensures forall i | 0 <= i < |rules| ::
      HitAt(rules, part, i) <==> met[i] == Always || (met[i] == Asks && Grants !in met[..i])
  {
    forall i | 0 <= i <= |rules| ensures Grants in met[..i] <==> AllowedBefore(rules, part, i) {
      GrantsMeansAllowed(rules, part, met, i);
    }
  }

  lemma GrantsMeansAllowed(rules: seq<Rule>, part: Part, met: seq<Reaction>, i: nat)
    requires i <= |met| == |rules| && forall i | 0 <= i < |rules| :: met[i] == Meets(rules[i], part)
    ensures Grants in met[..i] <==> AllowedBefore(rules, part, i)
  {
    if AllowedBefore(rules, part, i) {
      var k :| 0 <= k < i && CoveringAllow(rules[k], part);
      CoversOverlaps(rules[k], part);
      assert met[..i][k] == Grants;
    }
    if Grants in met[..i] {
      var k :| 0 <= k < i && met[k] == Grants;
    }
  }

  // ----- obligations ---------------------------------------------------------

  function AccountObject(account: string): string {
    "aws_account:" + account
  }

  /** Where a rule's approvers are looked up: under the rule when it has its own, else under the account. */
  function RuleObject(account: string, rule: Rule): string {
    if rule.approvers.None? then AccountObject(account) else AccountObject(account + "/" + rule.name)
  }

  /** A hit whose approvers may answer for the require rule `r` on `part`. */
  predicate StandsIn(h: Rule, r: Rule, part: Part) {
    Covers(h, part) || ContainsRule(h, r)
  }

  /** The objects of the other hits that may answer for the hit at `i`. */
  ghost function StandInObjects(account: string, rules: seq<Rule>, part: Part, i: int): set<string>
    requires 0 <= i < |rules|
  {
    set j: int | 0 <= j < |rules| && j != i && HitAt(rules, part, j) && StandsIn(rules[j], rules[i], part)
      :: RuleObject(account, rules[j])
  }

  /** The objects whose approvers may answer the hit at `i`. */
  ghost function EligibleAt(account: string, rules: seq<Rule>, part: Part, i: int): set<string>
    requires 0 <= i < |rules|
  {
    {RuleObject(account, rules[i])} +
    (if rules[i].effect == RequireAlways then {} else StandInObjects(account, rules, part, i))
  }

  /** No allow covers the part and no hit covers it alone. */
  ghost predicate FallsToDefault(rules: seq<Rule>, part: Part) {
    && !AllowedBefore(rules, part, |rules|)
    && forall i | 0 <= i < |rules| && HitAt(rules, part, i) :: !Covers(rules[i], part)
  }

  /** An approval needed from one of `objects`, on account of the rule named `name`. */
  datatype Debt = Debt(objects: set<string>, name: string)

  /** Everything one part needs approved. */
  ghost function Debts(account: string, rules: seq<Rule>, part: Part): set<Debt> {
    (set i | 0 <= i < |rules| && HitAt(rules, part, i) :: Debt(EligibleAt(account, rules, part, i), rules[i].name)) +
    (if FallsToDefault(rules, part) then {Debt({AccountObject(account)}, ACCOUNT_DEFAULT)} else {})
  }

  /** Everything the whole request needs approved. */
  ghost function AllDebts(account: string, rules: seq<Rule>, parts: seq<Part>): set<Debt> {
    set p, d | p in parts && d in Debts(account, rules, p) :: d
  }

  /** One key of the `found` dictionary with its rule names and part labels. */
  datatype Entry = Entry(objects: set<string>, names: seq<string>, labels: seq<string>)

  ghost predicate DistinctKeys(found: seq<Entry>) {
    && (forall i, j | 0 <= i < j < |found| :: found[i].objects != found[j].objects)
    && (forall i | 0 <= i < |found| :: found[i].names != [])
  }

  /** The dictionary as (objects, rule name) pairs, and as (objects, part label) pairs. */
  ghost function Names(found: seq<Entry>): set<Debt> {
    set i, n | 0 <= i < |found| && n in found[i].names :: Debt(found[i].objects, n)
  }

  ghost function Labels(found: seq<Entry>): set<Debt> {
    set i, l | 0 <= i < |found| && l in found[i].labels :: Debt(found[i].objects, l)
  }

  ghost function LabelsOf(debts: set<Debt>, part: Part): set<Debt> {
    set d | d in debts :: Debt(d.objects, Label(part))
  }

  ghost function AllLabels(account: string, rules: seq<Rule>, parts: seq<Part>): set<Debt> {
    set p, d | p in parts && d in LabelsOf(Debts(account, rules, p), p) :: d
  }

  function AddNew(xs: seq<string>, x: string): seq<string> {
    if x in xs then xs else xs + [x]
  }

  /** `add`: file one debt under its set of eligible objects. */
  method AddDebt(found: seq<Entry>, objects: set<string>, name: string, what: string) returns (out: seq<Entry>)
    requires DistinctKeys(found)
    ensures DistinctKeys(out)
    ensures Names(out) == Names(found) + {Debt(objects, name)}
    ensures Labels(out) == Labels(found) + {Debt(objects, what)}
  {
    var i := FindKey(found, objects);
    var e := if i < |found| then found[i] else Entry(objects, [], []);
    var e' := Entry(objects, AddNew(e.names, name), AddNew(e.labels, what));
    out := if i < |found| then found[i := e'] else found + [e'];
    KeysUpdated(found, out, i, objects);
    NamesUpdated(found, out, i, name);
    LabelsUpdated(found, out, i, what);
  }

  /** The entry for a set of objects, or the end of the list. */
  method FindKey(found: seq<Entry>, objects: set<string>) returns (i: nat)
    ensures i <= |found| && (i < |found| ==> found[i].objects == objects)
    ensures forall j | 0 <= j < i :: found[j].objects != objects
  {
    i := 0;
    while i < |found| && found[i].objects != objects
      invariant 0 <= i <= |found|
      invariant forall j | 0 <= j < i :: found[j].objects != objects
      decreases |found| - i
    {
      i := i + 1;
    }
  }

  lemma KeysUpdated(found: seq<Entry>, out: seq<Entry>, i: nat, objects: set<string>)
    requires DistinctKeys(found) && i <= |found| && i < |out| && (|out| == |found| || (i == |found| && |out| == i + 1))
    requires forall j | 0 <= j < |found| && j != i :: out[j] == found[j]
    requires out[i].objects == objects && out[i].names != []
    requires i < |found| ==> found[i].objects == objects
    requires i == |found| ==> forall j | 0 <= j < |found| :: found[j].objects != objects
    ensures DistinctKeys(out)
  {}

  lemma NamesUpdated(found: seq<Entry>, out: seq<Entry>, i: nat, name: string)
    requires i <= |found| && i < |out| && (|out| == |found| || (i == |found| && |out| == i + 1))
    requires forall j | 0 <= j < |found| && j != i :: out[j] == found[j]
    requires i < |found| ==> out[i].objects == found[i].objects && out[i].names == AddNew(found[i].names, name)
    requires i == |found| ==> out[i].names == [name]
    ensures Names(out) == Names(found) + {Debt(out[i].objects, name)}
  {
    forall d | d in Names(found) ensures d in Names(out) {
      var j, n :| 0 <= j < |found| && n in found[j].names && d == Debt(found[j].objects, n);
      assert n in out[j].names;
    }
    assert name in out[i].names;
  }

  lemma LabelsUpdated(found: seq<Entry>, out: seq<Entry>, i: nat, what: string)
    requires i <= |found| && i < |out| && (|out| == |found| || (i == |found| && |out| == i + 1))
    requires forall j | 0 <= j < |found| && j != i :: out[j] == found[j]
    requires i < |found| ==> out[i].objects == found[i].objects && out[i].labels == AddNew(found[i].labels, what)
    requires i == |found| ==> out[i].labels == [what]
    ensures Labels(out) == Labels(found) + {Debt(out[i].objects, what)}
  {
    forall d | d in Labels(found) ensures d in Labels(out) {
      var j, l :| 0 <= j < |found| && l in found[j].labels && d == Debt(found[j].objects, l);
      assert l in out[j].labels;
    }
    assert what in out[i].labels;
  }

  /** The objects that may answer the hit at `i`, collected over the hits. */
  method Eligible(account: string, rules: seq<Rule>, part: Part, hits: seq<nat>, i: nat) returns (objects: set<string>)
    requires i < |rules| && forall h | 0 <= h < |hits| :: hits[h] < |rules|
    requires forall j | 0 <= j < |rules| :: j in hits <==> HitAt(rules, part, j)
    ensures objects == EligibleAt(account, rules, part, i)
  {
    objects := {RuleObject(account, rules[i])};
    if rules[i].effect == RequireAlways {
      return;
    }
    for h := 0 to |hits|
      invariant objects == {RuleObject(account, rules[i])} +
        set j: int | j in hits[..h] && j != i && StandsIn(rules[j], rules[i], part) :: RuleObject(account, rules[j])
    {
      var j := hits[h];
      assert hits[..h + 1] == hits[..h] + [j];
      if j != i && StandsIn(rules[j], rules[i], part) {
        objects := objects + {RuleObject(account, rules[j])};
      }
    }
    assert hits[..|hits|] == hits;
    assert objects == {RuleObject(account, rules[i])} + StandInObjects(account, rules, part, i);
  }

  /** The debts of the first `h` hits. */
  ghost function HitDebts(account: string, rules: seq<Rule>, part: Part, hits: seq<nat>, h: nat): set<Debt>
    requires h <= |hits| && forall g | 0 <= g < |hits| :: hits[g] < |rules|
  {
    set g | 0 <= g < h :: Debt(EligibleAt(account, rules, part, hits[g]), rules[hits[g]].name)
  }

  lemma LabelsOfAdd(debts: set<Debt>, d: Debt, part: Part)
    ensures LabelsOf(debts + {d}, part) == LabelsOf(debts, part) + {Debt(d.objects, Label(part))}
  {}

  lemma HitDebtsSnoc(account: string, rules: seq<Rule>, part: Part, hits: seq<nat>, h: nat)
    requires h < |hits| && forall g | 0 <= g < |hits| :: hits[g] < |rules|
    ensures HitDebts(account, rules, part, hits, h + 1) ==
      HitDebts(account, rules, part, hits, h) + {Debt(EligibleAt(account, rules, part, hits[h]), rules[hits[h]].name)}
  {}

  /** File the debt of one hit on top of those before it. */
  method FileHit(account: string, rules: seq<Rule>, part: Part, hits: seq<nat>, h: nat, ghost found: seq<Entry>,
                 sofar: seq<Entry>)
    returns (out: seq<Entry>)
    requires DistinctKeys(sofar) && h < |hits| && forall g | 0 <= g < |hits| :: hits[g] < |rules|
    requires forall i | 0 <= i < |rules| :: i in hits <==> HitAt(rules, part, i)
    requires Names(sofar) == Names(found) + HitDebts(account, rules, part, hits, h)
    requires Labels(sofar) == Labels(found) + LabelsOf(HitDebts(account, rules, part, hits, h), part)
    ensures DistinctKeys(out)
    ensures Names(out) == Names(found) + HitDebts(account, rules, part, hits, h + 1)
    ensures Labels(out) == Labels(found) + LabelsOf(HitDebts(account, rules, part, hits, h + 1), part)
  {
    var objects := Eligible(account, rules, part, hits, hits[h]);
    out := AddDebt(sofar, objects, rules[hits[h]].name, Label(part));
    HitDebtsSnoc(account, rules, part, hits, h);
    LabelsOfAdd(HitDebts(account, rules, part, hits, h), Debt(objects, rules[hits[h]].name), part);
  }

  /** File the debts of the require rules hit. */
  method FileHits(account: string, rules: seq<Rule>, part: Part, hits: seq<nat>, found: seq<Entry>)
    returns (out: seq<Entry>)
    requires DistinctKeys(found) && forall h | 0 <= h < |hits| :: hits[h] < |rules|
    requires forall i | 0 <= i < |rules| :: i in hits <==> HitAt(rules, part, i)
    ensures DistinctKeys(out)
    ensures Names(out) == Names(found) + HitDebts(account, rules, part, hits, |hits|)
    ensures Labels(out) == Labels(found) + LabelsOf(HitDebts(account, rules, part, hits, |hits|), part)
  {
    out := found;
    assert HitDebts(account, rules, part, hits, 0) == {};
    assert LabelsOf({}, part) == {};
    for h := 0 to |hits|
      invariant DistinctKeys(out)
      invariant Names(out) == Names(found) + HitDebts(account, rules, part, hits, h)
      invariant Labels(out) == Labels(found) + LabelsOf(HitDebts(account, rules, part, hits, h), part)
    {
      out := FileHit(account, rules, part, hits, h, found, out);
    }
  }

  /** Does some hit cover the part alone? */
  predicate HitStandsAlone(rules: seq<Rule>, part: Part, hits: seq<nat>)
    requires forall h | 0 <= h < |hits| :: hits[h] < |rules|
  {
    exists h | 0 <= h < |hits| :: Covers(rules[hits[h]], part)
  }

  /** File every debt of one part. */
  method PartDebts(account: string, rules: seq<Rule>, part: Part, found: seq<Entry>) returns (out: seq<Entry>)
    requires DistinctKeys(found)
    ensures DistinctKeys(out)
    ensures Names(out) == Names(found) + Debts(account, rules, part)
    ensures Labels(out) == Labels(found) + LabelsOf(Debts(account, rules, part), part)
  {
    var hits, covered := Walk(rules, part);
    out := FileHits(account, rules, part, hits, found);
    HitsAreDebts(account, rules, part, hits);
    if !covered && !HitStandsAlone(rules, part, hits) {
      out := AddDebt(out, {AccountObject(account)}, ACCOUNT_DEFAULT, Label(part));
      LabelsOfAdd(HitDebts(account, rules, part, hits, |hits|), Debt({AccountObject(account)}, ACCOUNT_DEFAULT), part);
    }
  }

  /** The hits and the account default are together all the debts. */
  lemma HitsAreDebts(account: string, rules: seq<Rule>, part: Part, hits: seq<nat>)
    requires forall h | 0 <= h < |hits| :: hits[h] < |rules|
    requires forall i | 0 <= i < |rules| :: i in hits <==> HitAt(rules, part, i)
    ensures FallsToDefault(rules, part) <==> !AllowedBefore(rules, part, |rules|) && !HitStandsAlone(rules, part, hits)
    ensures FallsToDefault(rules, part) ==>
      (Debts(account, rules, part) ==
       HitDebts(account, rules, part, hits, |hits|) + {Debt({AccountObject(account)}, ACCOUNT_DEFAULT)})
    ensures !FallsToDefault(rules, part) ==> Debts(account, rules, part) == HitDebts(account, rules, part, hits, |hits|)
  {
    forall h | 0 <= h < |hits| ensures HitAt(rules, part, hits[h]) {
      assert hits[h] in hits;
    }
    forall i | 0 <= i < |rules| && HitAt(rules, part, i)
      ensures Debt(EligibleAt(account, rules, part, i), rules[i].name) in HitDebts(account, rules, part, hits, |hits|)
      ensures exists h | 0 <= h < |hits| :: hits[h] == i
    {
      var h :| 0 <= h < |hits| && hits[h] == i;
    }
  }

  /** Some part of the request needs an approval from `objects`. */
  ghost predicate Owed(account: string, rules: seq<Rule>, parts: seq<Part>, objects: set<string>) {
    exists d | d in AllDebts(account, rules, parts) :: d.objects == objects
  }

  /** The approvals a request needs: the inclusion-minimal sets of eligible objects that are owed,
      each with exactly the rules and parts that owe it.  Empty means auto-granted. */
  method Obligations(account: string, rules: seq<Rule>, parts: seq<Part>) returns (needed: seq<Obligation>)
    ensures NeededFor(account, rules, parts, needed)
    ensures RulesFiled(needed, AllDebts(account, rules, parts)) && PartsFiled(needed, AllLabels(account, rules, parts))
  {
    var found: seq<Entry> := [];
    assert Names([]) == {} == Labels([]);
    for i := 0 to |parts|
      invariant DistinctKeys(found)
      invariant Names(found) == AllDebts(account, rules, parts[..i])
      invariant Labels(found) == AllLabels(account, rules, parts[..i])
    {
      found := PartDebts(account, rules, parts[i], found);
      assert parts[..i + 1] == parts[..i] + [parts[i]];
    }
    assert parts[..|parts|] == parts;
    needed := Prune(found);
    forall k | Owed(account, rules, parts, k) ensures exists i | 0 <= i < |needed| :: needed[i].objects <= k {
      var d :| d in Names(found) && d.objects == k;
      var j, n :| 0 <= j < |found| && n in found[j].names && d == Debt(found[j].objects, n);
    }
    forall i | 0 <= i < |needed| ensures Owed(account, rules, parts, needed[i].objects) {
      assert Debt(needed[i].objects, needed[i].rules[0]) in Names(found);
    }
  }

  /** `needed` is numbered in order and its sets are exactly the minimal ones owed. */
  ghost predicate NeededFor(account: string, rules: seq<Rule>, parts: seq<Part>, needed: seq<Obligation>) {
    && (forall i | 0 <= i < |needed| :: needed[i].id == i)
    && (forall i | 0 <= i < |needed| :: Owed(account, rules, parts, needed[i].objects))
    && Antichain(needed)
    && (forall k | Owed(account, rules, parts, k) :: KeptFor(needed, k))
  }

  ghost predicate Antichain(needed: seq<Obligation>) {
    forall i, j | 0 <= i < |needed| && 0 <= j < |needed| && i != j :: !(needed[i].objects <= needed[j].objects)
  }

  predicate Minimal(found: seq<Entry>, i: nat)
    requires i < |found|
  {
    forall j | 0 <= j < |found| :: !(found[j].objects < found[i].objects)
  }

  ghost predicate Numbered(needed: seq<Obligation>) {
    forall i | 0 <= i < |needed| :: needed[i].id == i && needed[i].rules != []
  }

  /** Some kept set lies below this one. */
  ghost predicate KeptFor(needed: seq<Obligation>, objects: set<string>) {
    exists i | 0 <= i < |needed| :: needed[i].objects <= objects
  }

  ghost predicate ReachesBelow(needed: seq<Obligation>, found: seq<Entry>) {
    forall j | 0 <= j < |found| :: KeptFor(needed, found[j].objects)
  }

  /** Each obligation names exactly the rules, and exactly the parts, that owe its set. */
  ghost predicate RulesFiled(needed: seq<Obligation>, names: set<Debt>) {
    forall i, n | 0 <= i < |needed| :: n in needed[i].rules <==> Debt(needed[i].objects, n) in names
  }

  ghost predicate PartsFiled(needed: seq<Obligation>, labels: set<Debt>) {
    forall i, l | 0 <= i < |needed| :: l in needed[i].parts <==> Debt(needed[i].objects, l) in labels
  }

  /** Drop every entry whose eligible set strictly contains another's. */
  method Prune(found: seq<Entry>) returns (needed: seq<Obligation>)
    requires DistinctKeys(found)
    ensures Numbered(needed)
    ensures Antichain(needed)
    ensures ReachesBelow(needed, found)
    ensures RulesFiled(needed, Names(found)) && PartsFiled(needed, Labels(found))
  {
    needed := [];
    ghost var from: seq<nat> := [];
    for i := 0 to |found|
      invariant |from| == |needed|
      invariant forall a | 0 <= a < |needed| :: KeptAs(found, from[a], needed[a], a) && from[a] < i
      invariant forall a, b | 0 <= a < b < |needed| :: from[a] < from[b]
      invariant forall j | 0 <= j < i && Minimal(found, j) :: j in from
    {
      if Minimal(found, i) {
        needed := needed + [Obligation(|needed|, found[i].names, found[i].objects, found[i].labels)];
        from := from + [i];
      }
    }
    KeptProperties(found, needed, from);
  }

  ghost predicate KeptAs(found: seq<Entry>, j: nat, o: Obligation, id: nat) {
    && j < |found| && Minimal(found, j)
    && o == Obligation(id, found[j].names, found[j].objects, found[j].labels)
  }

  lemma KeptProperties(found: seq<Entry>, needed: seq<Obligation>, from: seq<nat>)
    requires DistinctKeys(found) && |from| == |needed|
    requires forall a | 0 <= a < |needed| :: KeptAs(found, from[a], needed[a], a)
    requires forall a, b | 0 <= a < b < |needed| :: from[a] < from[b]
    requires forall j | 0 <= j < |found| && Minimal(found, j) :: j in from
    ensures Numbered(needed) && Antichain(needed)
    ensures ReachesBelow(needed, found)
    ensures RulesFiled(needed, Names(found)) && PartsFiled(needed, Labels(found))
  {
    forall j | 0 <= j < |found| ensures KeptFor(needed, found[j].objects) {
      var m := MinimalBelow(found, j);
      var a :| 0 <= a < |from| && from[a] == m;
      assert needed[a].objects <= found[j].objects;
    }
    forall i, j | 0 <= i < |needed| && 0 <= j < |needed| && i != j ensures !(needed[i].objects <= needed[j].objects) {
      assert found[from[i]].objects != found[from[j]].objects by {
        assert from[i] < from[j] || from[j] < from[i];
      }
    }
    forall i, x | 0 <= i < |needed|
      ensures x in needed[i].rules <==> Debt(needed[i].objects, x) in Names(found)
      ensures x in needed[i].parts <==> Debt(needed[i].objects, x) in Labels(found)
    {
      assert KeptAs(found, from[i], needed[i], i);
      FiledUnder(found, from[i], x);
    }
  }

  /** With distinct keys, what is filed under an entry's objects is what the entry holds. */
  lemma FiledUnder(found: seq<Entry>, j: nat, x: string)
    requires DistinctKeys(found) && j < |found|
    ensures x in found[j].names <==> Debt(found[j].objects, x) in Names(found)
    ensures x in found[j].labels <==> Debt(found[j].objects, x) in Labels(found)
  {}

  /** Below every entry lies a minimal one. */
  lemma {:induction false} MinimalBelow(found: seq<Entry>, i: nat) returns (m: nat)
    requires i < |found|
    ensures m < |found| && Minimal(found, m) && found[m].objects <= found[i].objects
    decreases found[i].objects
  {
    if Minimal(found, i) {
      m := i;
    } else {
      var j :| 0 <= j < |found| && found[j].objects < found[i].objects;
      m := MinimalBelow(found, j);
    }
  }

  // ----- what the obligations mean -------------------------------------------

  /** The set of approved objects answers an obligation when it holds one of its objects. */
  ghost predicate Answers(approved: set<string>, needed: seq<Obligation>) {
    forall i | 0 <= i < |needed| :: !(approved !! needed[i].objects)
  }

  /** Pruning loses nothing: answering what is kept is answering everything owed. */
  lemma PruningPreservesMeaning(account: string, rules: seq<Rule>, parts: seq<Part>, needed: seq<Obligation>,
                                approved: set<string>)
    requires NeededFor(account, rules, parts, needed)
    ensures Answers(approved, needed) <==> forall d | d in AllDebts(account, rules, parts) :: !(approved !! d.objects)
  {
    if Answers(approved, needed) {
      forall d | d in AllDebts(account, rules, parts) ensures !(approved !! d.objects) {
        assert Owed(account, rules, parts, d.objects);
        var i :| 0 <= i < |needed| && needed[i].objects <= d.objects;
      }
    } else {
      var i :| 0 <= i < |needed| && approved !! needed[i].objects;
      assert Owed(account, rules, parts, needed[i].objects);
    }
  }

  /** Nothing stands between this part and the grant: a covering allow, no overlapping require
      before it, no overlapping require_always anywhere. */
  ghost predicate AutoGranted(rules: seq<Rule>, part: Part) {
    exists k | 0 <= k < |rules| :: GrantedBy(rules, part, k)
  }

  ghost predicate GrantedBy(rules: seq<Rule>, part: Part, k: int)
    requires 0 <= k < |rules|
  {
    && CoveringAllow(rules[k], part)
    && (forall i | 0 <= i < k :: !(rules[i].effect == Require && Overlaps(rules[i], part)))
    && (forall i | 0 <= i < |rules| :: !(rules[i].effect == RequireAlways && Overlaps(rules[i], part)))
  }

  lemma {:induction false} FirstAllow(rules: seq<Rule>, part: Part, n: nat) returns (k: nat)
    requires n <= |rules| && AllowedBefore(rules, part, n)
    ensures k < n && CoveringAllow(rules[k], part) && !AllowedBefore(rules, part, k)
  {
    if AllowedBefore(rules, part, n - 1) {
      k := FirstAllow(rules, part, n - 1);
    } else {
      k := n - 1;
    }
  }

  lemma HitIsDebt(account: string, rules: seq<Rule>, part: Part, i: nat)
    requires i < |rules| && HitAt(rules, part, i)
    ensures Debt(EligibleAt(account, rules, part, i), rules[i].name) in Debts(account, rules, part)
  {}

  lemma DefaultIsDebt(account: string, rules: seq<Rule>, part: Part)
    requires FallsToDefault(rules, part)
    ensures Debt({AccountObject(account)}, ACCOUNT_DEFAULT) in Debts(account, rules, part)
  {}

  lemma PartAutoGrant(account: string, rules: seq<Rule>, part: Part)
    ensures Debts(account, rules, part) == {} <==> AutoGranted(rules, part)
  {
    if Debts(account, rules, part) == {} {
      if FallsToDefault(rules, part) {
        DefaultIsDebt(account, rules, part);
      }
      forall i | 0 <= i < |rules| ensures !HitAt(rules, part, i) {
        if HitAt(rules, part, i) {
          HitIsDebt(account, rules, part, i);
        }
      }
      var k := FirstAllow(rules, part, |rules|);
      forall i | 0 <= i < |rules|
        ensures !(rules[i].effect == RequireAlways && Overlaps(rules[i], part))
        ensures i < k ==> !(rules[i].effect == Require && Overlaps(rules[i], part))
      {
        assert !HitAt(rules, part, i);
      }
      assert GrantedBy(rules, part, k);
    }
    if k :| 0 <= k < |rules| && GrantedBy(rules, part, k) {
      forall i | 0 <= i < |rules| ensures !HitAt(rules, part, i) {
        if k < i {
          assert AllowedBefore(rules, part, i);
        }
      }
      assert AllowedBefore(rules, part, |rules|);
    }
  }

  /** Auto-grant: nothing is needed exactly when every part is auto-granted. */
  lemma AutoGrantCharacterised(account: string, rules: seq<Rule>, parts: seq<Part>, needed: seq<Obligation>)
    requires NeededFor(account, rules, parts, needed)
    ensures needed == [] <==> forall p | p in parts :: AutoGranted(rules, p)
  {
    forall p | p in parts ensures Debts(account, rules, p) == {} <==> AutoGranted(rules, p) {
      PartAutoGrant(account, rules, p);
    }
    if needed == [] {
      forall p | p in parts ensures Debts(account, rules, p) == {} {
        if Debts(account, rules, p) != {} {
          var d :| d in Debts(account, rules, p);
          assert d in AllDebts(account, rules, parts);
          assert Owed(account, rules, parts, d.objects);
        }
      }
    } else {
      assert Owed(account, rules, parts, needed[0].objects);
      var d :| d in AllDebts(account, rules, parts) && d.objects == needed[0].objects;
      var p :| p in parts && d in Debts(account, rules, p);
    }
  }

  /** A stand-in answers for `r` only where its own rule reaches: it matches every concrete name
      of the part that `r` matches. */
  lemma StandInReachesFarEnough(m: Reading, h: Rule, r: Rule, part: Part, n: Name)
    requires ReadsGlobs(m) && WellFormed(r) && StandsIn(h, r, part)
    requires PartMatches(m, part, n) && RuleMatches(m, r, n)
    ensures RuleMatches(m, h, n)
  {
    if Covers(h, part) {
      CoverMatchesAll(m, h, part, n);
    } else {
      ContainmentMatchesAll(m, h, r, n);
    }
  }

  /** The object whose approvers speak for a rule: the rule's own below the account's when it lists
      approvers, the account's when it lists none. */
  predicate Approves(account: string, rule: Rule, obj: string) {
    match rule.approvers
    case None => obj == "aws_account:" + account
    case Some(_) => obj == "aws_account:" + account + "/" + rule.name
  }

  lemma ObjectApproves(account: string, rule: Rule)
    ensures Approves(account, rule, RuleObject(account, rule))
  {
    assert "aws_account:" + (account + "/" + rule.name) == "aws_account:" + account + "/" + rule.name;
  }

  /** An approver of the hit at `i`: the object of a hit whose rule matches every name of the part
      that rule `i` matches; for a require_always, of the rule itself. */
  ghost predicate ApproverReaches(m: Reading, account: string, rules: seq<Rule>, part: Part, i: nat, obj: string)
    requires i < |rules|
  {
    exists j | 0 <= j < |rules| ::
      && HitAt(rules, part, j) && Approves(account, rules[j], obj)
      && (rules[i].effect == RequireAlways ==> j == i)
      && MatchesAllOf(m, rules[j], rules[i], part)
  }

  ghost predicate MatchesAllOf(m: Reading, h: Rule, r: Rule, part: Part) {
    forall n | PartMatches(m, part, n) && RuleMatches(m, r, n) :: RuleMatches(m, h, n)
  }

  lemma EligibleReaches(m: Reading, account: string, rules: seq<Rule>, part: Part, i: nat, obj: string)
    requires ReadsGlobs(m) && i < |rules| && WellFormed(rules[i]) && HitAt(rules, part, i)
    requires obj in EligibleAt(account, rules, part, i)
    ensures ApproverReaches(m, account, rules, part, i, obj)
  {
    if obj == RuleObject(account, rules[i]) {
      ObjectApproves(account, rules[i]);
      assert MatchesAllOf(m, rules[i], rules[i], part);
    } else {
      var j: int :| 0 <= j < |rules| && j != i && HitAt(rules, part, j) && StandsIn(rules[j], rules[i], part)
        && obj == RuleObject(account, rules[j]);
      forall n | PartMatches(m, part, n) && RuleMatches(m, rules[i], n) ensures RuleMatches(m, rules[j], n) {
        StandInReachesFarEnough(m, rules[j], rules[i], part, n);
      }
      ObjectApproves(account, rules[j]);
      assert MatchesAllOf(m, rules[j], rules[i], part);
    }
  }

  /** Every debt of the request holds an approved object. */
  ghost predicate AllAnswered(account: string, rules: seq<Rule>, parts: seq<Part>, approved: set<string>) {
    forall d | d in AllDebts(account, rules, parts) :: !(approved !! d.objects)
  }

  lemma AnsweredDebt(account: string, rules: seq<Rule>, parts: seq<Part>, approved: set<string>, part: Part, d: Debt)
    returns (o: string)
    requires AllAnswered(account, rules, parts, approved) && part in parts && d in Debts(account, rules, part)
    ensures o in approved && o in d.objects
  {
    assert d in AllDebts(account, rules, parts);
    o :| o in approved && o in d.objects;
  }

  /** Every require rule hit has an approver whose rule reaches all it guards. */
  lemma HitHasApprover(m: Reading, account: string, rules: seq<Rule>, parts: seq<Part>, approved: set<string>,
                       part: Part, i: nat)
    returns (o: string)
    requires ReadsGlobs(m) && AllAnswered(account, rules, parts, approved) && part in parts
    requires i < |rules| && WellFormed(rules[i]) && HitAt(rules, part, i)
    ensures o in approved && ApproverReaches(m, account, rules, part, i, o)
  {
    HitIsDebt(account, rules, part, i);
    o := AnsweredDebt(account, rules, parts, approved, part, Debt(EligibleAt(account, rules, part, i), rules[i].name));
    EligibleReaches(m, account, rules, part, i, o);
  }

  /** Someone who approved reaches all that the hit at `i` guards. */
  ghost predicate HitAnswered(m: Reading, account: string, rules: seq<Rule>, approved: set<string>, part: Part, i: nat)
    requires i < |rules|
  {
    exists o | o in approved :: ApproverReaches(m, account, rules, part, i, o)
  }

  /** The rule that lets the part through: an allow that covers it, or a hit that does. */
  ghost predicate Admits(rules: seq<Rule>, part: Part, k: nat)
    requires k < |rules|
  {
    CoveringAllow(rules[k], part) || (HitAt(rules, part, k) && Covers(rules[k], part))
  }

  /** How the part's use of a name is answered for: every require rule hit that matches the name has an
      approver, and the name is let through by a rule that matches it, or by the account's approvers. */
  ghost predicate NameAnswered(m: Reading, account: string, rules: seq<Rule>, approved: set<string>, part: Part,
                               n: Name)
  {
    && (forall i | 0 <= i < |rules| && HitAt(rules, part, i) && RuleMatches(m, rules[i], n) ::
          HitAnswered(m, account, rules, approved, part, i))
    && (if FallsToDefault(rules, part) then "aws_account:" + account in approved
        else exists k | 0 <= k < |rules| && Admits(rules, part, k) :: RuleMatches(m, rules[k], n))
  }

  /** A part no allow covers is owed to a require hit that covers it, or to the account default. */
  lemma UncoveredPartIsOwed(account: string, rules: seq<Rule>, parts: seq<Part>, needed: seq<Obligation>, part: Part)
    requires NeededFor(account, rules, parts, needed) && part in parts && !AllowedBefore(rules, part, |rules|)
    ensures
      || KeptFor(needed, {AccountObject(account)})
      || exists i | 0 <= i < |rules| && HitAt(rules, part, i) && Covers(rules[i], part) ::
           KeptFor(needed, EligibleAt(account, rules, part, i))
  {
    if FallsToDefault(rules, part) {
      DefaultIsDebt(account, rules, part);
      assert Debt({AccountObject(account)}, ACCOUNT_DEFAULT) in AllDebts(account, rules, parts);
      assert Owed(account, rules, parts, {AccountObject(account)});
    } else {
      var i :| 0 <= i < |rules| && HitAt(rules, part, i) && Covers(rules[i], part);
      HitIsDebt(account, rules, part, i);
      assert Debt(EligibleAt(account, rules, part, i), rules[i].name) in AllDebts(account, rules, parts);
      assert Owed(account, rules, parts, EligibleAt(account, rules, part, i));
      assert KeptFor(needed, EligibleAt(account, rules, part, i));
    }
  }

  /** A part that does not fall to the default is let through by a rule that matches all its names. */
  lemma AdmittingRuleMatches(m: Reading, rules: seq<Rule>, part: Part, n: Name)
    requires ReadsGlobs(m) && !FallsToDefault(rules, part) && PartMatches(m, part, n)
    ensures exists k | 0 <= k < |rules| && Admits(rules, part, k) :: RuleMatches(m, rules[k], n)
  {
    if AllowedBefore(rules, part, |rules|) {
      var k :| 0 <= k < |rules| && CoveringAllow(rules[k], part);
      CoverMatchesAll(m, rules[k], part, n);
      assert Admits(rules, part, k);
    } else {
      var k :| 0 <= k < |rules| && HitAt(rules, part, k) && Covers(rules[k], part);
      CoverMatchesAll(m, rules[k], part, n);
      assert Admits(rules, part, k);
    }
  }

  lemma EveryNameAnswered(m: Reading, account: string, rules: seq<Rule>, parts: seq<Part>, approved: set<string>,
                          part: Part, n: Name)
    requires ReadsGlobs(m) && forall r | r in rules :: WellFormed(r)
    requires AllAnswered(account, rules, parts, approved) && part in parts && PartMatches(m, part, n)
    ensures NameAnswered(m, account, rules, approved, part, n)
  {
    forall i | 0 <= i < |rules| && HitAt(rules, part, i) ensures HitAnswered(m, account, rules, approved, part, i) {
      var o := HitHasApprover(m, account, rules, parts, approved, part, i);
    }
    if FallsToDefault(rules, part) {
      DefaultIsDebt(account, rules, part);
      var o := AnsweredDebt(account, rules, parts, approved, part, Debt({AccountObject(account)}, ACCOUNT_DEFAULT));
    } else {
      AdmittingRuleMatches(m, rules, part, n);
    }
  }

  /** What a fully approved request means, end to end.  Take any approved objects that answer every
      obligation.  Every require rule hit has an approver whose rule reaches all it guards, and every
      concrete name the request can use is answered for. */
  lemma ApprovedMeansEveryNameAnswered(m: Reading, account: string, rules: seq<Rule>, parts: seq<Part>,
                                       needed: seq<Obligation>, approved: set<string>, part: Part)
    requires ReadsGlobs(m) && forall r | r in rules :: WellFormed(r)
    requires NeededFor(account, rules, parts, needed) && Answers(approved, needed) && part in parts
    ensures forall i | 0 <= i < |rules| && HitAt(rules, part, i) :: HitAnswered(m, account, rules, approved, part, i)
    ensures forall n | PartMatches(m, part, n) :: NameAnswered(m, account, rules, approved, part, n)
  {
    PruningPreservesMeaning(account, rules, parts, needed, approved);
    assert AllAnswered(account, rules, parts, approved);
    forall i | 0 <= i < |rules| && HitAt(rules, part, i) ensures HitAnswered(m, account, rules, approved, part, i) {
      var o := HitHasApprover(m, account, rules, parts, approved, part, i);
    }
    forall n | PartMatches(m, part, n) ensures NameAnswered(m, account, rules, approved, part, n) {
      EveryNameAnswered(m, account, rules, parts, approved, part, n);
    }
  }

  /** An allow alone does not answer for a name guarded by a require_always rule: with nobody approving,
      the claim fails. */
  lemma AllowDoesNotAnswer(m: Reading, account: string, rules: seq<Rule>, part: Part, n: Name, i: nat)
    requires i < |rules| && HitAt(rules, part, i) && RuleMatches(m, rules[i], n)
    ensures !NameAnswered(m, account, rules, {}, part, n)
  {
    assert !HitAnswered(m, account, rules, {}, part, i);
  }

  /** A require_always hit is answered by its own approvers and nobody else. */
  lemma AlwaysNeedsItsOwn(m: Reading, account: string, rules: seq<Rule>, approved: set<string>, part: Part, i: nat)
    requires i < |rules| && rules[i].effect == RequireAlways && HitAnswered(m, account, rules, approved, part, i)
    ensures match rules[i].approvers
      case None => "aws_account:" + account in approved
      case Some(_) => "aws_account:" + account + "/" + rules[i].name in approved
  {
    var o :| o in approved && ApproverReaches(m, account, rules, part, i, o);
  }

  /** Whoever may answer a hit is one of its approvers, or, for a require rule, of another hit that covers the
      part or contains the rule; and each of those may. */
  lemma WhoMayAnswer(account: string, rules: seq<Rule>, part: Part, i: nat, obj: string)
    requires i < |rules| && HitAt(rules, part, i)
    ensures obj in EligibleAt(account, rules, part, i) <==>
      || Approves(account, rules[i], obj)
      || (rules[i].effect == Require && exists j | 0 <= j < |rules| && j != i && HitAt(rules, part, j) ::
            Approves(account, rules[j], obj) && (Covers(rules[j], part) || ContainsRule(rules[j], rules[i])))
  {
    forall j | 0 <= j < |rules| ensures Approves(account, rules[j], obj) <==> obj == RuleObject(account, rules[j]) {
      ObjectApproves(account, rules[j]);
    }
  }

  /** The four words a rule's effect may be, and what each means. */
  lemma EffectWords(word: string)
    ensures EffectOf(word) == Some(Allow) <==> word == "allow"
    ensures EffectOf(word) == Some(Require) <==> word == "require"
    ensures EffectOf(word) == Some(RequireAlways) <==> word == "require_always"
    ensures EffectOf(word) == Some(Deny) <==> word == "deny"
    ensures EffectOf(word) == None <==> word !in {"allow", "require", "require_always", "deny"}
  {}

  /** What a refused requester reads. */
  lemma BlockedReads(action: string, resource: string, arn: string, rule: Rule)
    requires arn != ""
    ensures BlockedMessage(Part(action, resource, ""), rule) ==
      "'" + action + " on " + resource + "' is blocked by approval rule '" + rule.name + "'"
    ensures BlockedMessage(Part(action, resource, arn), rule) ==
      "'" + arn + "' is blocked by approval rule '" + rule.name + "'"
  {
    assert "'" + (action + " on " + resource) + "' is blocked by approval rule '" + rule.name + "'" ==
      "'" + action + " on " + resource + "' is blocked by approval rule '" + rule.name + "'";
  }
}
