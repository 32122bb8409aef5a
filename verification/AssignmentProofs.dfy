/** Cache coherence and generation fencing, over every interleaving of the assignment protocol. */
module AssignmentProofs {
  import opened Wrappers
  import opened Placement
  import opened Assignment

  // ----- coherence -----------------------------------------------------------

  ghost predicate Undelivered(r: Router, conv: Id) {
    conv in r.pending || r.inHand == Some(conv)
  }

  /** What `a` says of its conversation is what the table says, or this router has yet to hear. */
  ghost predicate Fresh(rows: Table, r: Router, a: Assignment) {
    (a.conv in rows && AssignmentOf(rows, a.conv) == a) || Undelivered(r, a.conv)
  }

  /** From the flush after LISTEN until the connection drops. */
  predicate Trusted(r: Router) {
    r.connected && (r.phase == Primed || r.phase == Up)
  }

  predicate Carries(s: Resolver) {
    s.Looked? || s.Holding?
  }

  ghost predicate RouterShape(r: Router) {
    && CacheShape(r.cache)
    && (forall k | k in r.resolvers :: r.resolvers[k].seen <= r.cache.epoch)
    && (r.cache.live <==> r.phase == Up || r.phase == Broken || r.phase == Drained)
    && (r.connected ==> r.phase == Listening || r.phase == Primed || r.phase == Up)
  }

  /** What is cached, and what a resolve may still cache. */
  ghost predicate Coherent(rows: Table, r: Router) {
    Trusted(r) ==>
      && (forall conv | conv in r.cache.byConv :: Fresh(rows, r, r.cache.byConv[conv]))
      && (forall k | k in r.resolvers && Carries(r.resolvers[k]) && r.resolvers[k].seen == r.cache.epoch ::
            Fresh(rows, r, r.resolvers[k].a))
  }

  ghost predicate RouterInv(rows: Table, r: Router) {
    RouterShape(r) && Coherent(rows, r)
  }

  /** The table changed at `conv` only, and the router was told. */
  lemma ToldOfChange(rows: Table, rows': Table, r: Router, conv: Id)
    requires RouterInv(rows, r)
    requires forall c | c in rows && c != conv :: c in rows' && rows'[c] == rows[c]
    ensures RouterInv(rows', Notify(r, conv))
  {
    var r' := Notify(r, conv);
    forall a | Trusted(r) && Fresh(rows, r, a) ensures Fresh(rows', r', a) {}
  }

  /** The table changed in no way that shows in an assignment. */
  lemma QuietChange(rows: Table, rows': Table, r: Router)
    requires RouterInv(rows, r)
    requires forall c | c in rows :: c in rows' && SameAssignment(rows[c], rows'[c])
    ensures RouterInv(rows', r)
  {
    forall a | Fresh(rows, r, a) ensures Fresh(rows', r, a) {}
  }

  lemma RowKeepsCoherence(w: World, e: RowEvent, i: nat)
    requires i in w.routers && RouterInv(w.rows, w.routers[i])
    ensures i in ApplyRow(w, e).routers && RouterInv(ApplyRow(w, e).rows, ApplyRow(w, e).routers[i])
  {
    var w' := ApplyRow(w, e);
    if w'.routers == w.routers && forall c | c in w.rows :: c in w'.rows && SameAssignment(w.rows[c], w'.rows[c]) {
      QuietChange(w.rows, w'.rows, w.routers[i]);
    } else {
      ToldOfChange(w.rows, w'.rows, w.routers[i], e.conv);
    }
  }

  /** A router that puts a resolver into a state carrying fresh news, or none, stays coherent. */
  lemma PutKeepsCoherence(rows: Table, r: Router, k: nat, s: Resolver)
    requires RouterInv(rows, r) && s.seen <= r.cache.epoch
    requires Trusted(r) && Carries(s) && s.seen == r.cache.epoch ==> Fresh(rows, r, s.a)
    ensures RouterInv(rows, Put(r, k, s))
  {
    var r' := Put(r, k, s);
    forall a | Fresh(rows, r, a) ensures Fresh(rows, r', a) {}
  }

  lemma WonKeepsCoherence(w: World, i: nat, k: nat, candidates: seq<Pod>, j: nat)
    requires forall j | j in w.routers :: RouterInv(w.rows, w.routers[j])
    requires i in w.routers && k in w.routers[i].resolvers && w.routers[i].resolvers[k].Looked? && j in w.routers
    requires ClaimWins(w.rows, w.routers[i].resolvers[k].a.conv, w.routers[i].resolvers[k].a.gen, candidates)
    ensures var w' := Won(w, i, k, candidates); j in w'.routers && RouterInv(w'.rows, w'.routers[j])
  {
    var s := w.routers[i].resolvers[k];
    var conv := s.a.conv;
    var rows' := w.rows[conv := ClaimedRow(w.rows, conv, candidates)];
    ToldOfChange(w.rows, rows', w.routers[j], conv);
    if j == i {
      PutKeepsCoherence(rows', Notify(w.routers[i], conv), k, Holding(s.id, s.seen, AssignmentOf(rows', conv)));
    }
  }

  lemma ClaimKeepsCoherence(w: World, i: nat, k: nat, candidates: seq<Pod>, j: nat)
    requires forall j | j in w.routers :: RouterInv(w.rows, w.routers[j])
    requires i in w.routers && k in w.routers[i].resolvers && w.routers[i].resolvers[k].Looked? && j in w.routers
    ensures var w' := ApplyClaim(w, i, k, candidates); j in w'.routers && RouterInv(w'.rows, w'.routers[j])
  {
    var s := w.routers[i].resolvers[k];
    if ClaimWins(w.rows, s.a.conv, s.a.gen, candidates) {
      WonKeepsCoherence(w, i, k, candidates, j);
    } else {
      PutKeepsCoherence(w.rows, w.routers[i], k, Lost(s.id, s.seen, s.a.conv, s.a.gen));
    }
  }

  lemma ResolverKeepsCoherence(rows: Table, r: Router, e: LocalEvent)
    requires RouterInv(rows, r) && ResolverEnabled(rows, r, e)
    ensures RouterInv(rows, ApplyResolver(rows, r, e))
  {
    var r' := ApplyResolver(rows, r, e);
    forall a | Fresh(rows, r, a) ensures Fresh(rows, r', a) {}
    if e.Start? {
      PutKeepsCoherence(rows, r, e.k, Seen(e.id, r.cache.epoch));
    }
  }

  lemma ListenerKeepsCoherence(rows: Table, r: Router, e: LocalEvent)
    requires RouterInv(rows, r) && ListenerEnabled(r, e)
    ensures RouterInv(rows, ApplyListener(r, e))
  {
    var r' := ApplyListener(r, e);
    if e.Invalidate? {
      forall a | Fresh(rows, r, a) && a.conv != r.inHand.value ensures Fresh(rows, r', a) {}
    } else if e.Take? {
      assert r.pending == [r.pending[0]] + r.pending[1..];
      forall a | Fresh(rows, r, a) ensures Fresh(rows, r', a) {}
    } else if e.GoLive? {
      forall a | Fresh(rows, r, a) ensures Fresh(rows, r', a) {}
    }
  }

  // ----- fencing -------------------------------------------------------------

  ghost predicate Increasing(s: seq<nat>) {
    forall i, j | 0 <= i < j < |s| :: s[i] < s[j]
  }

  /** A conversation never deleted: its claims went up, and none saw the generation it has now. */
  ghost predicate WinsFenced(w: World) {
    forall conv | conv in w.wins && conv !in w.deleted ::
      && conv in w.rows && Increasing(w.wins[conv])
      && forall g | g in w.wins[conv] :: g < w.rows[conv].gen
  }

  /** What a resolve has read is not newer than the row; a claim that lost is strictly older. */
  ghost predicate SeenFenced(rows: Table, deleted: set<Id>, s: Resolver) {
    && (Carries(s) && s.a.conv !in deleted ==> s.a.conv in rows && s.a.gen <= rows[s.a.conv].gen)
    && (s.Lost? && s.conv !in deleted ==> s.conv in rows && s.gen < rows[s.conv].gen)
  }

  ghost predicate Fenced(rows: Table, deleted: set<Id>, r: Router) {
    forall k | k in r.resolvers :: SeenFenced(rows, deleted, r.resolvers[k])
  }

  /** Rows come and rise; they go only by deletion. */
  ghost predicate Rises(rows: Table, deleted: set<Id>, rows': Table, deleted': set<Id>) {
    && deleted <= deleted'
    && forall c | c in rows && c !in deleted' :: c in rows' && rows[c].gen <= rows'[c].gen
  }

  lemma RiseKeepsFence(rows: Table, deleted: set<Id>, rows': Table, deleted': set<Id>, r: Router, r': Router)
    requires Rises(rows, deleted, rows', deleted') && Fenced(rows, deleted, r) && r'.resolvers == r.resolvers
    ensures Fenced(rows', deleted', r')
  {
    forall k | k in r'.resolvers ensures SeenFenced(rows', deleted', r'.resolvers[k]) {
      assert SeenFenced(rows, deleted, r.resolvers[k]);
    }
  }

  lemma RowRises(w: World, e: RowEvent)
    ensures var w' := ApplyRow(w, e);
      Rises(w.rows, w.deleted, w'.rows, w'.deleted) && w'.wins == w.wins && w'.routers.Keys == w.routers.Keys
    ensures forall i | i in w.routers :: ApplyRow(w, e).routers[i].resolvers == w.routers[i].resolvers
  {}

  ghost predicate FenceInv(w: World) {
    WinsFenced(w) && forall i | i in w.routers :: Fenced(w.rows, w.deleted, w.routers[i])
  }

  lemma RowKeepsFence(w: World, e: RowEvent)
    requires FenceInv(w)
    ensures FenceInv(ApplyRow(w, e))
  {
    var w' := ApplyRow(w, e);
    RowRises(w, e);
    forall i | i in w'.routers ensures Fenced(w'.rows, w'.deleted, w'.routers[i]) {
      RiseKeepsFence(w.rows, w.deleted, w'.rows, w'.deleted, w.routers[i], w'.routers[i]);
    }
  }

  lemma PutKeepsFence(rows: Table, deleted: set<Id>, r: Router, k: nat, s: Resolver)
    requires Fenced(rows, deleted, r) && SeenFenced(rows, deleted, s)
    ensures Fenced(rows, deleted, Put(r, k, s))
  {}

  lemma ClaimKeepsFence(w: World, i: nat, k: nat, candidates: seq<Pod>)
    requires FenceInv(w) && candidates != []
    requires i in w.routers && k in w.routers[i].resolvers && w.routers[i].resolvers[k].Looked?
    ensures FenceInv(ApplyClaim(w, i, k, candidates))
  {
    var s, w' := w.routers[i].resolvers[k], ApplyClaim(w, i, k, candidates);
    assert SeenFenced(w.rows, w.deleted, s);
    if ClaimWins(w.rows, s.a.conv, s.a.gen, candidates) {
      WonKeepsFence(w, i, k, candidates);
    } else {
      PutKeepsFence(w.rows, w.deleted, w.routers[i], k, Lost(s.id, s.seen, s.a.conv, s.a.gen));
    }
  }

  lemma WonKeepsFence(w: World, i: nat, k: nat, candidates: seq<Pod>)
    requires FenceInv(w)
    requires i in w.routers && k in w.routers[i].resolvers && w.routers[i].resolvers[k].Looked?
    requires ClaimWins(w.rows, w.routers[i].resolvers[k].a.conv, w.routers[i].resolvers[k].a.gen, candidates)
    ensures FenceInv(Won(w, i, k, candidates))
  {
    var s, w' := w.routers[i].resolvers[k], Won(w, i, k, candidates);
    var conv := s.a.conv;
    forall j | j in w'.routers ensures Fenced(w'.rows, w'.deleted, w'.routers[j]) {
      RiseKeepsFence(w.rows, w.deleted, w'.rows, w'.deleted, w.routers[j], Notify(w.routers[j], conv));
      if j == i {
        PutKeepsFence(w'.rows, w'.deleted, Notify(w.routers[i], conv), k,
          Holding(s.id, s.seen, AssignmentOf(w'.rows, conv)));
      }
    }
    if conv !in w.deleted {
      var before, after := Wins(w.wins, conv), w'.wins[conv];
      forall x, y | 0 <= x < y < |after| ensures after[x] < after[y] {
        assert before[x] in before;
      }
    }
  }

  lemma LocalKeepsFence(rows: Table, deleted: set<Id>, r: Router, e: LocalEvent)
    requires Fenced(rows, deleted, r) && LocalEnabled(rows, r, e)
    ensures Fenced(rows, deleted, ApplyLocal(rows, r, e))
  {
    var r' := ApplyLocal(rows, r, e);
    if IsListener(e) {
      assert r'.resolvers == r.resolvers;
    } else {
      assert e.k in r.resolvers ==> SeenFenced(rows, deleted, r.resolvers[e.k]);
      assert forall k | k in r'.resolvers && k != e.k :: k in r.resolvers && r'.resolvers[k] == r.resolvers[k];
    }
  }

  // ----- every run -----------------------------------------------------------

  ghost predicate Inv(w: World) {
    FenceInv(w) && forall i | i in w.routers :: RouterInv(w.rows, w.routers[i])
  }

  lemma CoherenceStep(w: World, e: Event, j: nat)
    requires Inv(w) && Enabled(w, e) && j in Act(w, e).routers
    ensures RouterInv(Act(w, e).rows, Act(w, e).routers[j])
  {
    match e
    case Change(row) =>
      RowRises(w, row);
      RowKeepsCoherence(w, row, j);
    case Claim(i, k, podLive, ready) =>
      ClaimKeepsCoherence(w, i, k, ClaimCandidates(w.routers[i].resolvers[k].a, podLive, ready), j);
    case Local(i, step) =>
      if i == j {
        if IsListener(step) {
          ListenerKeepsCoherence(w.rows, w.routers[i], step);
        } else {
          ResolverKeepsCoherence(w.rows, w.routers[i], step);
        }
      }
  }

  lemma FenceStep(w: World, e: Event)
    requires FenceInv(w) && Enabled(w, e)
    ensures FenceInv(Act(w, e))
  {
    match e
    case Change(row) => RowKeepsFence(w, row);
    case Claim(i, k, podLive, ready) =>
      ClaimKeepsFence(w, i, k, ClaimCandidates(w.routers[i].resolvers[k].a, podLive, ready));
    case Local(i, step) => LocalKeepsFence(w.rows, w.deleted, w.routers[i], step);
  }

  lemma InvStep(w: World, e: Event)
    requires Inv(w) && Enabled(w, e)
    ensures Inv(Apply(w, e))
  {
    FenceStep(w, e);
    forall j | j in Act(w, e).routers ensures RouterInv(Act(w, e).rows, Act(w, e).routers[j]) {
      CoherenceStep(w, e, j);
    }
  }

  lemma {:induction false} InvAlong(w0: World, events: seq<Event>, w: World)
    requires Inv(w0) && Reaches(w0, events, w)
    ensures Inv(w)
    decreases |events|
  {
    if events != [] {
      InvStep(w0, events[0]);
      InvAlong(Apply(w0, events[0]), events[1..], w);
    }
  }

  lemma EveryRunKeepsInv(w0: World, events: seq<Event>, w: World)
    requires Initial(w0) && Reaches(w0, events, w)
    ensures Inv(w)
  {
    InvAlong(w0, events, w);
  }

  /** The assignment says of a conversation what its row says: the pod, or none; the generation; and whether it
      is suspended. */
  predicate Tells(a: Assignment, conv: Id, row: Row) {
    && a.conv == conv && a.gen == row.gen && (a.suspended <==> row.phase == Suspended)
    && (match row.pod case None => a.pod == "" case Some(p) => a.pod == p)
  }

  /** Coherence: while a router is live and connected, each cached assignment is the table's, or the
      notification of its change has not been delivered; and every alias leads to a cached one. */
  lemma LiveCacheIsCoherent(w0: World, events: seq<Event>, w: World, i: nat)
    requires Initial(w0) && Reaches(w0, events, w) && i in w.routers
    requires w.routers[i].cache.live && w.routers[i].connected
    ensures var r := w.routers[i];
      && (forall conv | conv in r.cache.byConv && !Undelivered(r, conv) ::
            conv in w.rows && Tells(r.cache.byConv[conv], conv, w.rows[conv]))
      && (forall id | id in r.cache.aliases :: r.cache.aliases[id] in r.cache.byConv)
  {
    EveryRunKeepsInv(w0, events, w);
    assert RouterInv(w.rows, w.routers[i]);
  }

  /** At most one claim wins per seen generation, over all routers: the generations won at go up. */
  lemma OneWinPerGeneration(w0: World, events: seq<Event>, w: World, conv: Id, i: nat, j: nat)
    requires Initial(w0) && Reaches(w0, events, w) && conv in w.wins && conv !in w.deleted
    requires i < j < |w.wins[conv]|
    ensures conv in w.rows && w.wins[conv][i] < w.wins[conv][j] < w.rows[conv].gen
  {
    EveryRunKeepsInv(w0, events, w);
    assert w.wins[conv][j] in w.wins[conv];
  }

  /** Whatever runs, the generation of a conversation that stays in the table never goes down. */
  lemma {:induction false} GenerationsNeverFall(w0: World, events: seq<Event>, w: World, conv: Id)
    requires Reaches(w0, events, w) && conv in w0.rows && conv !in w.deleted
    ensures conv in w.rows && w0.rows[conv].gen <= w.rows[conv].gen && conv !in w0.deleted
    decreases |events|
  {
    if events != [] {
      var w1 := Apply(w0, events[0]);
      StepRises(w0, events[0]);
      DeletedStays(w1, events[1..], w);
      GenerationsNeverFall(w1, events[1..], w, conv);
    }
  }

  lemma StepRises(w: World, e: Event)
    requires Enabled(w, e)
    ensures Rises(w.rows, w.deleted, Apply(w, e).rows, Apply(w, e).deleted)
  {
    match e
    case Change(row) => RowRises(w, row);
    case Claim(i, k, podLive, ready) =>
    case Local(i, step) =>
  }

  lemma {:induction false} DeletedStays(w0: World, events: seq<Event>, w: World)
    requires Reaches(w0, events, w)
    ensures w0.deleted <= w.deleted
    decreases |events|
  {
    if events != [] {
      StepRises(w0, events[0]);
      DeletedStays(Apply(w0, events[0]), events[1..], w);
    }
  }

  /** A claim that lost comes back with the row's current assignment, at a later generation than it saw. */
  lemma LoserReturnsCurrent(w0: World, events: seq<Event>, w: World, i: nat, k: nat, found: Option<Id>)
    requires Initial(w0) && Reaches(w0, events, w) && Enabled(w, Local(i, Reread(k, found)))
    requires w.routers[i].resolvers[k].conv !in w.deleted
    ensures var s, w' := w.routers[i].resolvers[k], Apply(w, Local(i, Reread(k, found)));
      && s.conv in w.rows && w.rows[s.conv].gen > s.gen
      && k in w'.routers[i].resolvers && w'.routers[i].resolvers[k].Holding?
      && Tells(w'.routers[i].resolvers[k].a, s.conv, w.rows[s.conv])
  {
    EveryRunKeepsInv(w0, events, w);
    assert SeenFenced(w.rows, w.deleted, w.routers[i].resolvers[k]);
  }
}
