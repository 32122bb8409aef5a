/** That the assignment protocol gets somewhere: a claim at the current generation wins, and a router left to
    itself comes up and caches what the table says. */
module AssignmentProgress {
  import opened Wrappers
  import opened Placement
  import opened Assignment
  import opened AssignmentProofs

  // ----- a claim that wins ---------------------------------------------------

  /** A claim of a row still at the generation it saw, with a pod to go to, moves the row on by one generation
      to one of those pods, out of suspension, and every connected router will hear of it. */
  lemma CurrentClaimWins(w: World, i: nat, k: nat, candidates: seq<Pod>)
    requires i in w.routers && k in w.routers[i].resolvers && w.routers[i].resolvers[k].Looked? && candidates != []
    requires var a := w.routers[i].resolvers[k].a; a.conv in w.rows && w.rows[a.conv].gen == a.gen
    ensures var w', conv := ApplyClaim(w, i, k, candidates), w.routers[i].resolvers[k].a.conv;
      && w'.rows.Keys == w.rows.Keys && (forall c | c in w.rows && c != conv :: w'.rows[c] == w.rows[c])
      && w'.rows[conv].gen == w.rows[conv].gen + 1 && w'.rows[conv].pod.Some? && w'.rows[conv].pod.value in candidates
      && w'.rows[conv].phase == (if w.rows[conv].phase == Failed then Failed else Assigned)
      && w'.rows[conv].parent == w.rows[conv].parent && w'.rows[conv].sandboxRef == w.rows[conv].sandboxRef
    ensures var w', conv := ApplyClaim(w, i, k, candidates), w.routers[i].resolvers[k].a.conv;
      && i in w'.routers && k in w'.routers[i].resolvers && w'.routers[i].resolvers[k].Holding?
      && Tells(w'.routers[i].resolvers[k].a, conv, w'.rows[conv]) && !w'.routers[i].resolvers[k].a.suspended
      && (forall j | j in w.routers && w.routers[j].connected :: j in w'.routers && conv in w'.routers[j].pending)
  {}

  /** A suspended conversation, as looked up, is never kept as it is: it is claimed first, on its own pod if
      that is ready. */
  lemma SuspendedIsClaimedFirst(w: World, i: nat, k: nat, conv: Id)
    requires i in w.routers && k in w.routers[i].resolvers && w.routers[i].resolvers[k].Looked?
    requires conv in w.rows && Tells(w.routers[i].resolvers[k].a, conv, w.rows[conv]) && w.rows[conv].phase == Suspended
    ensures !Enabled(w, Local(i, Keep(k))) && Enabled(w, Claim(i, k, true, []))
    ensures w.rows[conv].pod.Some? ==>
      ClaimCandidates(w.routers[i].resolvers[k].a, true, []) == [w.rows[conv].pod.value]
  {}

  /** A claim of a row that has moved on changes no row, and leaves the resolve to read it again. */
  lemma StaleClaimLoses(w: World, i: nat, k: nat, candidates: seq<Pod>)
    requires i in w.routers && k in w.routers[i].resolvers && w.routers[i].resolvers[k].Looked?
    requires var a := w.routers[i].resolvers[k].a; a.conv in w.rows && w.rows[a.conv].gen != a.gen
    ensures ApplyClaim(w, i, k, candidates).rows == w.rows
    ensures var r := ApplyClaim(w, i, k, candidates).routers; i in r && k in r[i].resolvers && r[i].resolvers[k].Lost?
  {}

  /** A new conversation starts on its parent's pod, at generation one if there is one, and on none otherwise. */
  lemma NewConversationStarts(w: World, conv: Id, parent: Option<Id>, sandboxRef: Option<string>)
    requires conv !in w.rows
    ensures var rows' := ApplyRow(w, Insert(conv, parent, sandboxRef)).rows;
      && conv in rows' && rows'[conv].parent == parent && rows'[conv].sandboxRef == sandboxRef
      && rows'[conv].phase == NoPhase && (forall c | c in w.rows :: c in rows' && rows'[c] == w.rows[c])
      && (if parent.Some? && parent.value in w.rows && w.rows[parent.value].pod.Some?
          then rows'[conv].pod == w.rows[parent.value].pod && rows'[conv].gen == 1
          else rows'[conv].pod == None && rows'[conv].gen == 0)
  {}

  /** What the controller and the agent host may do to a row: assign it at a later generation only, release it
      at its own generation or a later one, and set its phase; whatever really changes, every connected router
      is told once. */
  lemma StatementsAreFenced(w: World, conv: Id, pod: Pod, gen: nat, phase: Phase, i: nat)
    requires conv in w.rows && i in w.routers && w.routers[i].connected
    ensures var w' := ApplyRow(w, SetAssignment(conv, pod, gen));
      if gen > w.rows[conv].gen
      then w'.rows == w.rows[conv := w.rows[conv].(pod := Some(pod), gen := gen)] && Heard(w, w', i, conv)
      else w' == w
    ensures var w' := ApplyRow(w, Release(conv, gen));
      if gen >= w.rows[conv].gen && w.rows[conv].pod != None
      then w'.rows == w.rows[conv := w.rows[conv].(pod := None)] && Heard(w, w', i, conv)
      else w' == w
    ensures var w' := ApplyRow(w, SetPhase(conv, phase));
      && w'.rows == w.rows[conv := w.rows[conv].(phase := phase)]
      && (phase != w.rows[conv].phase ==> Heard(w, w', i, conv))
    ensures var w' := ApplyRow(w, Delete(conv)); w'.rows == w.rows - {conv} && Heard(w, w', i, conv)
  {}

  predicate Heard(w: World, w': World, i: nat, conv: Id)
    requires i in w.routers
  {
    i in w'.routers && w'.routers[i].pending == w.routers[i].pending + [conv]
  }

  // ----- a router left to itself ---------------------------------------------

  /** A run of one router's own steps. */
  ghost predicate Alone(w: World, i: nat, events: seq<Event>, w': World)
    decreases |events|
  {
    if events == [] then w' == w
    else
      && events[0].Local? && events[0].router == i && Enabled(w, events[0])
      && Alone(Apply(w, events[0]), i, events[1..], w')
  }

  lemma AloneFirst(w: World, i: nat, step: LocalEvent, events: seq<Event>, w': World)
    requires Enabled(w, Local(i, step)) && Alone(Apply(w, Local(i, step)), i, events, w')
    ensures Alone(w, i, [Local(i, step)] + events, w')
  {
    assert ([Local(i, step)] + events)[1..] == events;
  }

  lemma {:induction false} AloneJoin(w: World, i: nat, a: seq<Event>, w1: World, b: seq<Event>, w2: World)
    requires Alone(w, i, a, w1) && Alone(w1, i, b, w2)
    ensures Alone(w, i, a + b, w2)
    decreases |a|
  {
    if a == [] {
      assert a + b == b;
    } else {
      AloneJoin(Apply(w, a[0]), i, a[1..], w1, b, w2);
      assert (a + b)[1..] == a[1..] + b;
    }
  }

  /** A router alone changes no row and no other router. */
  ghost predicate OnlyHere(w: World, i: nat, w': World) {
    && w'.rows == w.rows && w'.routers.Keys == w.routers.Keys
    && forall j | j in w.routers && j != i :: w'.routers[j] == w.routers[j]
  }

  function Rank(r: Router): nat {
    match r.phase
    case Down => 0
    case Drained => 1
    case Broken => 2
    case Up => if r.inHand.Some? then 4 else 3
    case Primed => 5
    case Listening => 1
  }

  /** The step by which the listener gets nearer to being down. */
  function WindDown(r: Router): LocalEvent
    requires r.phase != Down
  {
    match r.phase
    case Drained => GoDead
    case Broken => FlushDown
    case Up => if r.inHand.Some? then Invalidate else NoticeBreak
    case Primed => GoLive
    case Listening => CheckFails
  }

  lemma {:induction false} ComesDown(w: World, i: nat) returns (events: seq<Event>, w': World)
    requires i in w.routers
    ensures Alone(w, i, events, w') && OnlyHere(w, i, w') && w'.routers[i].phase == Down
    decreases Rank(w.routers[i]) + if w.routers[i].phase == Primed && w.routers[i].inHand.Some? then 1 else 0
  {
    var r := w.routers[i];
    if r.phase == Down {
      events, w' := [], w;
    } else {
      var step := WindDown(r);
      var w1 := Apply(w, Local(i, step));
      var more: seq<Event>;
      more, w' := ComesDown(w1, i);
      AloneFirst(w, i, step, more, w');
      events := [Local(i, step)] + more;
    }
  }

  lemma ComesUp(w: World, i: nat) returns (events: seq<Event>, w': World)
    requires i in w.routers && w.routers[i].phase == Down
    ensures Alone(w, i, events, w') && OnlyHere(w, i, w')
    ensures var r := w'.routers[i];
      r.phase == Up && r.connected && r.pending == [] && r.inHand == None && r.cache.live && r.cache.aliases == map[]
  {
    var w1 := Apply(w, Local(i, Connect));
    var w2 := Apply(w1, Local(i, FlushUp));
    w' := Apply(w2, Local(i, GoLive));
    assert Alone(w', i, [], w');
    AloneFirst(w2, i, GoLive, [], w');
    AloneFirst(w1, i, FlushUp, [Local(i, GoLive)] + [], w');
    AloneFirst(w, i, Connect, [Local(i, FlushUp)] + ([Local(i, GoLive)] + []), w');
    events := [Local(i, Connect)] + ([Local(i, FlushUp)] + ([Local(i, GoLive)] + []));
  }

  lemma FreshKey(s: set<nat>) returns (k: nat)
    ensures k !in s && forall x | x in s :: x < k
    decreases |s|
  {
    if s == {} {
      k := 0;
    } else {
      var x :| x in s;
      var rest := FreshKey(s - {x});
      k := if rest > x then rest else x + 1;
      forall y | y in s ensures y < k { assert y == x || y in s - {x}; }
    }
  }

  /** One resolve by the conversation's own id, to the end. */
  lemma ResolvesAndCaches(w: World, i: nat, conv: Id) returns (events: seq<Event>, w': World)
    requires i in w.routers && conv in w.rows && w.rows[conv].phase != Suspended
    requires w.routers[i].cache.live && conv !in w.routers[i].cache.aliases
    ensures Alone(w, i, events, w') && OnlyHere(w, i, w')
    ensures var r, r' := w.routers[i], w'.routers[i];
      && r'.phase == r.phase && r'.connected == r.connected && r'.pending == r.pending && r'.inHand == r.inHand
      && CachedIn(r'.cache, conv).Some? && Tells(CachedIn(r'.cache, conv).value, conv, w.rows[conv])
  {
    var k := FreshKey(w.routers[i].resolvers.Keys);
    var w1 := Apply(w, Local(i, Start(k, conv)));
    assert Finds(w1.rows, conv, conv);
    var w2 := Apply(w1, Local(i, Look(k, Some(conv))));
    var more: seq<Event>;
    more, w' := KeepsAndCaches(w2, i, k, conv);
    AloneFirst(w1, i, Look(k, Some(conv)), more, w');
    AloneFirst(w, i, Start(k, conv), [Local(i, Look(k, Some(conv)))] + more, w');
    events := [Local(i, Start(k, conv))] + ([Local(i, Look(k, Some(conv)))] + more);
  }

  lemma KeepsAndCaches(w: World, i: nat, k: nat, conv: Id) returns (events: seq<Event>, w': World)
    requires i in w.routers && conv in w.rows && w.rows[conv].phase != Suspended && k in w.routers[i].resolvers
    requires w.routers[i].resolvers[k] == Looked(conv, w.routers[i].cache.epoch, AssignmentOf(w.rows, conv))
    requires w.routers[i].cache.live && conv !in w.routers[i].cache.aliases
    ensures Alone(w, i, events, w') && OnlyHere(w, i, w')
    ensures var r, r' := w.routers[i], w'.routers[i];
      && r'.phase == r.phase && r'.connected == r.connected && r'.pending == r.pending && r'.inHand == r.inHand
      && CachedIn(r'.cache, conv).Some? && Tells(CachedIn(r'.cache, conv).value, conv, w.rows[conv])
  {
    var w1 := Apply(w, Local(i, Keep(k)));
    w' := Apply(w1, Local(i, Remember(k)));
    assert Alone(w', i, [], w');
    AloneFirst(w1, i, Remember(k), [], w');
    AloneFirst(w, i, Keep(k), [Local(i, Remember(k))] + [], w');
    events := [Local(i, Keep(k))] + ([Local(i, Remember(k))] + []);
  }

  /** From any state whatever, a router's own steps alone, with no row changing, bring it up, live and with
      nothing left to deliver, and have it answer any conversation that is not suspended with what its row says. */
  lemma RouterCatchesUp(w: World, i: nat, conv: Id) returns (events: seq<Event>, w': World)
    requires i in w.routers && conv in w.rows && w.rows[conv].phase != Suspended
    ensures Alone(w, i, events, w') && OnlyHere(w, i, w')
    ensures var r := w'.routers[i];
      && r.phase == Up && r.connected && r.pending == [] && r.inHand == None
      && CachedIn(r.cache, conv).Some? && Tells(CachedIn(r.cache, conv).value, conv, w.rows[conv])
  {
    var down, up, cached: seq<Event>;
    var w1, w2: World;
    down, w1 := ComesDown(w, i);
    up, w2 := ComesUp(w1, i);
    cached, w' := ResolvesAndCaches(w2, i, conv);
    AloneJoin(w, i, down, w1, up, w2);
    AloneJoin(w, i, down + up, w2, cached, w');
    events := down + up + cached;
  }
}
