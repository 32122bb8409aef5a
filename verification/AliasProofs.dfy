/** When a short id's cached answer is what a lookup would read.  Names change without notifying anybody,
    so the claim is about what happened to the name since it was looked up. */
module AliasProofs {
  import opened Wrappers
  import opened Placement
  import opened Assignment
  import opened AssignmentProofs

  /** The conversation a resolve is after, once it has looked its id up. */
  function Target(s: Resolver): Id
    requires !s.Seen?
  {
    if s.Lost? then s.conv else s.a.conv
  }

  /** The name was given or taken after `at`, or a lost claim for it came back with another conversation. */
  ghost predicate Touched(h: Names, id: Id, at: nat)
    requires at <= |h.refs|
  {
    id in h.crossed || RefOf(id) in h.refs[at..]
  }

  /** A lookup may still find `conv` under `id`, or there is a reason it may not: news of the conversation
      is on the way, or the name was touched since it was looked up. */
  ghost predicate Stands(rows: Table, r: Router, h: Names, id: Id, conv: Id, at: nat) {
    at <= |h.refs| && (Finds(rows, id, conv) || Undelivered(r, conv) || Touched(h, id, at))
  }

  ghost predicate AliasesStand(rows: Table, r: Router, i: nat, h: Names) {
    forall id | id in r.cache.aliases ::
      (i, id) in h.since && Stands(rows, r, h, id, r.cache.aliases[id], h.since[(i, id)])
  }

  predicate Current(r: Router, k: nat) {
    k in r.resolvers && !r.resolvers[k].Seen? && r.resolvers[k].seen == r.cache.epoch
  }

  ghost predicate ResolvesStand(rows: Table, r: Router, i: nat, h: Names) {
    forall k | Current(r, k) ::
      (i, k) in h.looks && Stands(rows, r, h, r.resolvers[k].id, Target(r.resolvers[k]), h.looks[(i, k)])
  }

  ghost predicate NamesInv(rows: Table, r: Router, i: nat, h: Names) {
    Trusted(r) ==> AliasesStand(rows, r, i, h) && ResolvesStand(rows, r, i, h)
  }

  // ----- the table changes ---------------------------------------------------

  /** What a statement may do to a lookup: nothing, unless it deletes the row or touches the name. */
  lemma FindsAfterRow(w: World, e: RowEvent, id: Id, conv: Id)
    requires Finds(w.rows, id, conv)
    ensures
      || Finds(ApplyRow(w, e).rows, id, conv)
      || (e.Delete? && e.conv == conv)
      || RefOf(id) in Renames(w.rows, e)
  {
    var rows' := ApplyRow(w, e).rows;
    if !(e.Delete? && e.conv == conv) && RefOf(id) !in Renames(w.rows, e) {
      assert RefOf(id) == "conv-" + id;
      forall c | c in rows' && Named(rows', id, c)
        ensures c in w.rows && Named(w.rows, id, c) && rows'[c].parent == w.rows[c].parent
      {
        OldName(w, e, id, c);
      }
      assert conv in rows' && rows'[conv].parent == w.rows[conv].parent;
      KeepsName(w, e, id, conv);
    }
  }

  lemma OldName(w: World, e: RowEvent, id: Id, c: Id)
    requires RefOf(id) !in Renames(w.rows, e) && Named(ApplyRow(w, e).rows, id, c)
    ensures Named(w.rows, id, c) && ApplyRow(w, e).rows[c].parent == w.rows[c].parent
  {}

  lemma KeepsName(w: World, e: RowEvent, id: Id, c: Id)
    requires RefOf(id) !in Renames(w.rows, e) && Named(w.rows, id, c) && !(e.Delete? && e.conv == c)
    ensures Named(ApplyRow(w, e).rows, id, c)
  {}

  lemma TouchedStays(h: Names, h': Names, id: Id, at: nat)
    requires at <= |h.refs| && h.refs <= h'.refs && h.crossed <= h'.crossed && Touched(h, id, at)
    ensures Touched(h', id, at)
  {
    if id !in h.crossed {
      var j :| at <= j < |h.refs| && h.refs[j] == RefOf(id);
      assert h'.refs[at..][j - at] == h'.refs[j];
    }
  }

  lemma TouchedNow(h: Names, h': Names, more: seq<string>, id: Id, at: nat)
    requires at <= |h.refs| && h'.refs == h.refs + more && RefOf(id) in more
    ensures Touched(h', id, at)
  {
    var j :| 0 <= j < |more| && more[j] == RefOf(id);
    assert h'.refs[at..][|h.refs| + j - at] == more[j];
  }

  lemma StandsAfterRow(w: World, e: RowEvent, i: nat, h': Names, id: Id, conv: Id, at: nat)
    requires i in w.routers && w.routers[i].connected && Stands(w.rows, w.routers[i], w.names, id, conv, at)
    requires h' == w.names.(refs := w.names.refs + Renames(w.rows, e)) && i in ApplyRow(w, e).routers
    ensures Stands(ApplyRow(w, e).rows, ApplyRow(w, e).routers[i], h', id, conv, at)
  {
    if Touched(w.names, id, at) {
      TouchedStays(w.names, h', id, at);
    } else if Finds(w.rows, id, conv) {
      FindsAfterRow(w, e, id, conv);
      if RefOf(id) in Renames(w.rows, e) { TouchedNow(w.names, h', Renames(w.rows, e), id, at); }
    }
  }

  lemma RowKeepsNames(w: World, e: RowEvent, i: nat, h': Names)
    requires i in w.routers && NamesInv(w.rows, w.routers[i], i, w.names)
    requires h' == w.names.(refs := w.names.refs + Renames(w.rows, e))
    ensures i in ApplyRow(w, e).routers && NamesInv(ApplyRow(w, e).rows, ApplyRow(w, e).routers[i], i, h')
  {
    RowRises(w, e);
    var r, r' := w.routers[i], ApplyRow(w, e).routers[i];
    RowKeepsRouter(w, e, i);
    if Trusted(r') {
      forall id | id in r'.cache.aliases
        ensures (i, id) in h'.since && Stands(ApplyRow(w, e).rows, r', h', id, r'.cache.aliases[id], h'.since[(i, id)])
      {
        StandsAfterRow(w, e, i, h', id, r.cache.aliases[id], w.names.since[(i, id)]);
      }
      forall k | Current(r', k)
        ensures (i, k) in h'.looks
        ensures Stands(ApplyRow(w, e).rows, r', h', r'.resolvers[k].id, Target(r'.resolvers[k]), h'.looks[(i, k)])
      {
        assert Current(r, k);
        StandsAfterRow(w, e, i, h', r.resolvers[k].id, Target(r.resolvers[k]), w.names.looks[(i, k)]);
      }
    }
  }

  /** A statement changes of a router at most what it has yet to hear. */
  lemma RowKeepsRouter(w: World, e: RowEvent, i: nat)
    requires i in w.routers
    ensures i in ApplyRow(w, e).routers
    ensures var r, r' := w.routers[i], ApplyRow(w, e).routers[i];
      r' == r || r' == Notify(r, e.conv)
  {}

  // ----- claims --------------------------------------------------------------

  /** A claim changes no name. */
  lemma StandsAfterClaim(rows: Table, conv0: Id, row: Row, r: Router, h: Names, id: Id, conv: Id, at: nat)
    requires conv0 in rows && row.parent == rows[conv0].parent && row.sandboxRef == rows[conv0].sandboxRef
    requires Stands(rows, r, h, id, conv, at)
    ensures Stands(rows[conv0 := row], Notify(r, conv0), h, id, conv, at)
  {
    var rows' := rows[conv0 := row];
    assert forall c :: Named(rows', id, c) <==> Named(rows, id, c);
  }

  lemma WonKeepsNames(w: World, i: nat, k: nat, candidates: seq<Pod>, j: nat)
    requires i in w.routers && k in w.routers[i].resolvers && w.routers[i].resolvers[k].Looked? && j in w.routers
    requires ClaimWins(w.rows, w.routers[i].resolvers[k].a.conv, w.routers[i].resolvers[k].a.gen, candidates)
    requires NamesInv(w.rows, w.routers[j], j, w.names)
    ensures var w' := Won(w, i, k, candidates); j in w'.routers && NamesInv(w'.rows, w'.routers[j], j, w.names)
  {
    var w', h := Won(w, i, k, candidates), w.names;
    var conv := w.routers[i].resolvers[k].a.conv;
    var row := ClaimedRow(w.rows, conv, candidates);
    var r, r' := w.routers[j], w'.routers[j];
    if Trusted(r') {
      forall id | id in r'.cache.aliases
        ensures (j, id) in h.since && Stands(w'.rows, r', h, id, r'.cache.aliases[id], h.since[(j, id)])
      {
        StandsAfterClaim(w.rows, conv, row, r, h, id, r.cache.aliases[id], h.since[(j, id)]);
      }
      forall m | Current(r', m)
        ensures (j, m) in h.looks &&
          Stands(w'.rows, r', h, r'.resolvers[m].id, Target(r'.resolvers[m]), h.looks[(j, m)])
      {
        assert Current(r, m);
        StandsAfterClaim(w.rows, conv, row, r, h, r.resolvers[m].id, Target(r.resolvers[m]), h.looks[(j, m)]);
      }
    }
  }

  lemma ClaimKeepsNames(w: World, i: nat, k: nat, candidates: seq<Pod>, j: nat)
    requires i in w.routers && k in w.routers[i].resolvers && w.routers[i].resolvers[k].Looked? && j in w.routers
    requires NamesInv(w.rows, w.routers[j], j, w.names)
    ensures var w' := ApplyClaim(w, i, k, candidates); j in w'.routers && NamesInv(w'.rows, w'.routers[j], j, w.names)
  {
    var s := w.routers[i].resolvers[k];
    if ClaimWins(w.rows, s.a.conv, s.a.gen, candidates) {
      WonKeepsNames(w, i, k, candidates, j);
    } else if i == j {
      LostKeepsNames(w.rows, w.routers[i], i, w.names, k);
    }
  }

  lemma LostKeepsNames(rows: Table, r: Router, i: nat, h: Names, k: nat)
    requires k in r.resolvers && r.resolvers[k].Looked? && NamesInv(rows, r, i, h)
    ensures NamesInv(rows,
      Put(r, k, Lost(r.resolvers[k].id, r.resolvers[k].seen, r.resolvers[k].a.conv, r.resolvers[k].a.gen)), i, h)
  {
    var s := r.resolvers[k];
    var r' := Put(r, k, Lost(s.id, s.seen, s.a.conv, s.a.gen));
    forall m | Current(r', m) ensures Current(r, m) && Target(r'.resolvers[m]) == Target(r.resolvers[m]) {}
  }

  // ----- one router's own steps ----------------------------------------------

  /** The same history but for resolve `k`, alias `id` and what was crossed. */
  ghost predicate Extends(h: Names, h': Names) {
    h'.refs == h.refs && h.crossed <= h'.crossed
  }

  lemma StandsLater(rows: Table, r: Router, r': Router, h: Names, h': Names, id: Id, conv: Id, at: nat)
    requires Stands(rows, r, h, id, conv, at) && Extends(h, h') && r'.pending == r.pending && r'.inHand == r.inHand
    ensures Stands(rows, r', h', id, conv, at)
  {
    if Touched(h, id, at) { TouchedStays(h, h', id, at); }
  }

  lemma ResolverKeepsNames(w: World, i: nat, e: LocalEvent)
    requires i in w.routers && !IsListener(e) && ResolverEnabled(w.rows, w.routers[i], e)
    requires NamesInv(w.rows, w.routers[i], i, w.names)
    ensures NamesInv(w.rows, ApplyResolver(w.rows, w.routers[i], e), i, Noted(w, Local(i, e)))
  {
    var r, h, h' := w.routers[i], w.names, Noted(w, Local(i, e));
    var r' := ApplyResolver(w.rows, r, e);
    if Trusted(r') {
      forall id | id in r'.cache.aliases
        ensures (i, id) in h'.since && Stands(w.rows, r', h', id, r'.cache.aliases[id], h'.since[(i, id)])
      {
        AliasAfterStep(w, i, e, id);
      }
      forall k | Current(r', k)
        ensures (i, k) in h'.looks &&
          Stands(w.rows, r', h', r'.resolvers[k].id, Target(r'.resolvers[k]), h'.looks[(i, k)])
      {
        ResolveAfterStep(w, i, e, k);
      }
    }
  }

  lemma AliasAfterStep(w: World, i: nat, e: LocalEvent, id: Id)
    requires i in w.routers && !IsListener(e) && ResolverEnabled(w.rows, w.routers[i], e)
    requires NamesInv(w.rows, w.routers[i], i, w.names) && Trusted(w.routers[i])
    requires id in ApplyResolver(w.rows, w.routers[i], e).cache.aliases
    ensures var r', h' := ApplyResolver(w.rows, w.routers[i], e), Noted(w, Local(i, e));
      (i, id) in h'.since && Stands(w.rows, r', h', id, r'.cache.aliases[id], h'.since[(i, id)])
  {
    var r, h, h' := w.routers[i], w.names, Noted(w, Local(i, e));
    var r' := ApplyResolver(w.rows, r, e);
    if Remembers(r, e) && r.resolvers[e.k].id == id {
      assert Current(r, e.k);
      var s := r.resolvers[e.k];
      StandsLater(w.rows, r, r', h, h', id, s.a.conv, h.looks[(i, e.k)]);
    } else {
      StandsLater(w.rows, r, r', h, h', id, r.cache.aliases[id], h.since[(i, id)]);
    }
  }

  lemma ResolveAfterStep(w: World, i: nat, e: LocalEvent, k: nat)
    requires i in w.routers && !IsListener(e) && ResolverEnabled(w.rows, w.routers[i], e)
    requires NamesInv(w.rows, w.routers[i], i, w.names) && Trusted(w.routers[i])
    requires Current(ApplyResolver(w.rows, w.routers[i], e), k)
    ensures var r', h' := ApplyResolver(w.rows, w.routers[i], e), Noted(w, Local(i, e));
      (i, k) in h'.looks && Stands(w.rows, r', h', r'.resolvers[k].id, Target(r'.resolvers[k]), h'.looks[(i, k)])
  {
    var r, h, h' := w.routers[i], w.names, Noted(w, Local(i, e));
    var r' := ApplyResolver(w.rows, r, e);
    if e.Look? && e.k == k {
      assert Finds(w.rows, r'.resolvers[k].id, Target(r'.resolvers[k]));
    } else if Crosses(r, e) && e.k == k {
      assert Current(r, k) && r'.resolvers[k].id in h'.crossed;
    } else {
      assert Current(r, k) && Target(r'.resolvers[k]) == Target(r.resolvers[k]);
      StandsLater(w.rows, r, r', h, h', r.resolvers[k].id, Target(r.resolvers[k]), h.looks[(i, k)]);
    }
  }

  lemma ListenerKeepsNames(rows: Table, r: Router, i: nat, h: Names, e: LocalEvent)
    requires RouterShape(r) && ListenerEnabled(r, e) && NamesInv(rows, r, i, h)
    ensures NamesInv(rows, ApplyListener(r, e), i, h)
  {
    var r' := ApplyListener(r, e);
    if Trusted(r') && Trusted(r) {
      if e.Take? { assert r.pending == [r.pending[0]] + r.pending[1..]; }
      forall id, conv, at | Stands(rows, r, h, id, conv, at) && !(e.Invalidate? && r.inHand == Some(conv))
        ensures Stands(rows, r', h, id, conv, at)
      {}
    }
  }

  // ----- every run -----------------------------------------------------------

  ghost predicate AllNames(w: World) {
    forall i | i in w.routers :: NamesInv(w.rows, w.routers[i], i, w.names)
  }

  lemma NamesStep(w: World, e: Event, j: nat)
    requires Inv(w) && AllNames(w) && Enabled(w, e) && j in Apply(w, e).routers
    ensures NamesInv(Apply(w, e).rows, Apply(w, e).routers[j], j, Apply(w, e).names)
  {
    match e
    case Change(row) =>
      RowRises(w, row);
      RowKeepsNames(w, row, j, Noted(w, e));
    case Claim(i, k, podLive, ready) =>
      ClaimKeepsNames(w, i, k, ClaimCandidates(w.routers[i].resolvers[k].a, podLive, ready), j);
    case Local(i, step) =>
      if i != j {
        OthersKeepNames(w, i, step, j);
      } else if IsListener(step) {
        ListenerKeepsNames(w.rows, w.routers[i], i, w.names, step);
      } else {
        ResolverKeepsNames(w, i, step);
      }
  }

  lemma OthersKeepNames(w: World, i: nat, step: LocalEvent, j: nat)
    requires i != j && j in w.routers && NamesInv(w.rows, w.routers[j], j, w.names)
    ensures NamesInv(w.rows, w.routers[j], j, Noted(w, Local(i, step)))
  {
    var r, h, h' := w.routers[j], w.names, Noted(w, Local(i, step));
    forall id, conv, at | Stands(w.rows, r, h, id, conv, at) ensures Stands(w.rows, r, h', id, conv, at) {
      StandsLater(w.rows, r, r, h, h', id, conv, at);
    }
  }

  lemma {:induction false} NamesAlong(w0: World, events: seq<Event>, w: World)
    requires Inv(w0) && AllNames(w0) && Reaches(w0, events, w)
    ensures AllNames(w)
    decreases |events|
  {
    if events != [] {
      var w1 := Apply(w0, events[0]);
      InvStep(w0, events[0]);
      forall j | j in w1.routers ensures NamesInv(w1.rows, w1.routers[j], j, w1.names) {
        NamesStep(w0, events[0], j);
      }
      NamesAlong(w1, events[1..], w);
    }
  }

  lemma EveryRunKeepsNames(w0: World, events: seq<Event>, w: World)
    requires Initial(w0) && Reaches(w0, events, w)
    ensures AllNames(w)
  {
    NamesAlong(w0, events, w);
  }

  /** The alias's name was given or taken since it was looked up. */
  ghost predicate Renamed(w: World, i: nat, id: Id) {
    (i, id) in w.names.since && w.names.since[(i, id)] <= |w.names.refs| && Touched(w.names, id, w.names.since[(i, id)])
  }

  /** Some lookup of `id` answers with `a`. */
  ghost predicate LookupReads(rows: Table, id: Id, a: Assignment) {
    exists c | c in rows :: Finds(rows, id, c) && Tells(a, c, rows[c])
  }

  /** Once everything sent has been delivered, a hit is what a lookup may read, by the conversation's own id
      always, and by a short id unless its name was given or taken since it was looked up. */
  lemma HitEqualsLookup(w0: World, events: seq<Event>, w: World, i: nat, id: Id)
    requires Initial(w0) && Reaches(w0, events, w) && i in w.routers
    requires w.routers[i].connected && w.routers[i].pending == [] && w.routers[i].inHand == None
    requires CachedIn(w.routers[i].cache, id).Some?
    requires id in w.routers[i].cache.aliases ==> !Renamed(w, i, id)
    ensures LookupReads(w.rows, id, CachedIn(w.routers[i].cache, id).value)
  {
    EveryRunKeepsInv(w0, events, w);
    EveryRunKeepsNames(w0, events, w);
    assert RouterInv(w.rows, w.routers[i]) && NamesInv(w.rows, w.routers[i], i, w.names);
    HitIsFound(w, i, id);
  }

  lemma HitIsFound(w: World, i: nat, id: Id)
    requires i in w.routers && RouterInv(w.rows, w.routers[i]) && NamesInv(w.rows, w.routers[i], i, w.names)
    requires w.routers[i].connected && w.routers[i].pending == [] && w.routers[i].inHand == None
    requires CachedIn(w.routers[i].cache, id).Some? && (id in w.routers[i].cache.aliases ==> !Renamed(w, i, id))
    ensures LookupReads(w.rows, id, CachedIn(w.routers[i].cache, id).value)
  {
    var r := w.routers[i];
    var conv := if id in r.cache.aliases then r.cache.aliases[id] else id;
    assert Fresh(w.rows, r, r.cache.byConv[conv]);
    if id in r.cache.aliases {
      assert Stands(w.rows, r, w.names, id, conv, w.names.since[(i, id)]);
    }
    assert Finds(w.rows, id, conv) && AssignmentOf(w.rows, conv) == r.cache.byConv[conv];
  }

  /** A lost claim comes back with another conversation only if its own is gone and some row's short id is
      that conversation's id. */
  lemma CrossingNeedsDeletion(w: World, i: nat, step: LocalEvent)
    requires Enabled(w, Local(i, step)) && Crosses(w.routers[i], step)
    ensures var conv := w.routers[i].resolvers[step.k].conv;
      conv !in w.rows && step.found.value in w.rows && w.rows[step.found.value].sandboxRef == Some(RefOf(conv))
  {}

  /** What giving `x` a name does to a short id that finds `conv`: it goes on finding it exactly unless `conv`
      itself was renamed, or a top-level `x` took the name from a `conv` that is not. */
  lemma RefChangeKeepsAlias(rows: Table, id: Id, conv: Id, x: Id, taken: string)
    requires Finds(rows, id, conv) && conv != id && x in rows
    ensures Finds(rows[x := rows[x].(sandboxRef := Some(taken))], id, conv) <==>
      if x == conv then taken == RefOf(id)
      else !(taken == RefOf(id) && rows[x].parent == None && rows[conv].parent != None)
  {
    var rows' := rows[x := rows[x].(sandboxRef := Some(taken))];
    forall c | c in rows && c != x ensures Named(rows', id, c) <==> Named(rows, id, c) {}
    if x != conv && taken == RefOf(id) { assert Named(rows', id, x); }
  }

  // ----- a run that goes wrong -----------------------------------------------

  /** One step more at the front of a run. */
  lemma StepFirst(w: World, e: Event, events: seq<Event>, w': World)
    requires Enabled(w, e) && Reaches(Apply(w, e), events, w')
    ensures Reaches(w, [e] + events, w')
  {
    assert ([e] + events)[1..] == events;
  }

  lemma {:induction false} StepLast(w0: World, events: seq<Event>, w: World, e: Event)
    requires Reaches(w0, events, w) && Enabled(w, e)
    ensures Reaches(w0, events + [e], Apply(w, e))
    decreases |events|
  {
    if events == [] {
      StepFirst(w, e, [], Apply(w, e));
      assert events + [e] == [e] + [];
    } else {
      StepLast(Apply(w0, events[0]), events[1..], w, e);
      assert (events + [e])[1..] == events[1..] + [e];
    }
  }

  /** A subagent carries the short id "s", its parent no short id yet. */
  function Family(): Table {
    map["sub" := Row(Some("p"), 1, Assigned, Some("top"), Some(RefOf("s"))),
      "top" := Row(Some("p"), 1, Assigned, None, None)]
  }

  /** A live router with nothing left to deliver, which answers "s" with the subagent. */
  ghost predicate AnswersSub(w: World) {
    && w.rows == Family() && w.routers.Keys == {0} && w.routers[0].connected && w.routers[0].pending == []
    && w.routers[0].inHand == None && w.routers[0].cache.live
    && w.routers[0].cache.aliases == map["s" := "sub"] && "sub" in w.routers[0].cache.byConv
    && w.routers[0].cache.byConv["sub"].conv == "sub"
  }

  lemma SubResolved() returns (w0: World, events: seq<Event>, w: World)
    ensures Initial(w0) && Reaches(w0, events, w) && AnswersSub(w)
  {
    var r0 := Router(Cache(false, 0, map[], map[]), Down, false, [], None, map[]);
    w0 := World(Family(), map[0 := r0], map[], {}, Names([], map[], map[], {}));
    var w1 := Apply(w0, Local(0, Connect));
    var more: seq<Event>;
    more, w := UpAndResolved(w1);
    StepFirst(w0, Local(0, Connect), more, w);
    events := [Local(0, Connect)] + more;
  }

  lemma UpAndResolved(w: World) returns (events: seq<Event>, w': World)
    requires w.rows == Family() && w.routers.Keys == {0} && w.routers[0].phase == Listening && w.routers[0].connected
    requires w.routers[0].pending == [] && w.routers[0].inHand == None && w.routers[0].resolvers == map[]
    ensures Reaches(w, events, w') && AnswersSub(w')
  {
    var w1 := Apply(w, Local(0, FlushUp));
    var w2 := Apply(w1, Local(0, GoLive));
    var more: seq<Event>;
    more, w' := LookedUp(w2);
    StepFirst(w1, Local(0, GoLive), more, w');
    StepFirst(w, Local(0, FlushUp), [Local(0, GoLive)] + more, w');
    events := [Local(0, FlushUp)] + ([Local(0, GoLive)] + more);
  }

  lemma LookedUp(w: World) returns (events: seq<Event>, w': World)
    requires w.rows == Family() && w.routers.Keys == {0} && w.routers[0].connected && w.routers[0].cache.live
    requires w.routers[0].pending == [] && w.routers[0].inHand == None && w.routers[0].resolvers == map[]
    requires w.routers[0].cache.byConv == map[] && w.routers[0].cache.aliases == map[]
    ensures Reaches(w, events, w') && AnswersSub(w')
  {
    var start, look := Local(0, Start(0, "s")), Local(0, Look(0, Some("sub")));
    assert RefOf("s")[0] == 'c' && Finds(w.rows, "s", "sub");
    var w1 := Apply(w, start);
    var w2 := Apply(w1, look);
    var more: seq<Event>;
    more, w' := FoundRemembered(w2);
    StepFirst(w1, look, more, w');
    StepFirst(w, start, [look] + more, w');
    events := [start] + ([look] + more);
  }

  lemma FoundRemembered(w: World) returns (events: seq<Event>, w': World)
    requires w.rows == Family() && w.routers.Keys == {0} && w.routers[0].connected && w.routers[0].cache.live
    requires w.routers[0].pending == [] && w.routers[0].inHand == None
    requires w.routers[0].cache.byConv == map[] && w.routers[0].cache.aliases == map[]
    requires w.routers[0].resolvers == map[0 := Looked("s", w.routers[0].cache.epoch, AssignmentOf(w.rows, "sub"))]
    ensures Reaches(w, events, w') && AnswersSub(w')
  {
    var keep, remember := Local(0, Keep(0)), Local(0, Remember(0));
    var w1 := Apply(w, keep);
    w' := Apply(w1, remember);
    StepFirst(w1, remember, [], w');
    StepFirst(w, keep, [remember] + [], w');
    events := [keep] + ([remember] + []);
  }

  /** The parent takes the short id its subagent carries, which notifies nobody: a connected router with
      nothing left to deliver still answers with the subagent, which no lookup reads any more. */
  lemma AliasMissesNewRef() returns (w0: World, events: seq<Event>, w: World)
    ensures Initial(w0) && Reaches(w0, events, w) && 0 in w.routers
    ensures w.routers[0].connected && w.routers[0].pending == [] && w.routers[0].inHand == None
    ensures CachedIn(w.routers[0].cache, "s").Some? &&
      !LookupReads(w.rows, "s", CachedIn(w.routers[0].cache, "s").value)
  {
    var before: World;
    var run: seq<Event>;
    w0, run, before := SubResolved();
    var take := Change(SetSandboxRef("top", RefOf("s")));
    StepLast(w0, run, before, take);
    w := Apply(before, take);
    events := run + [take];
    assert w.rows["top"].sandboxRef == Some(RefOf("s")) && Named(w.rows, "s", "top") && !Finds(w.rows, "s", "sub");
  }
}
