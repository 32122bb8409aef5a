/** Routers resolving conversations to pods: a shared table, a cache per router, and the
    notifications that keep each cache honest.  A router's resolves and its listener are cut into
    the steps between which anything else may happen. */
module Assignment {
  import opened Wrappers
  import opened Placement

  datatype Assignment = Assignment(conv: Id, pod: Pod, gen: nat, suspended: bool)

  function AssignmentOf(rows: Table, conv: Id): Assignment
    requires conv in rows
  {
    var r := rows[conv];
    Assignment(conv, if r.pod.Some? then r.pod.value else "", r.gen, r.phase == Suspended)
  }

  // ----- one router's cache --------------------------------------------------

  datatype Cache = Cache(live: bool, epoch: nat, byConv: map<Id, Assignment>, aliases: map<Id, Id>)

  function CachedIn(c: Cache, id: Id): Option<Assignment> {
    var conv := if id in c.aliases then c.aliases[id] else id;
    if c.live && conv in c.byConv then Some(c.byConv[conv]) else None
  }

  /** Kept only if nothing was invalidated since `seen` was read. */
  function Remembered(c: Cache, id: Id, a: Assignment, seen: nat): Cache {
    if c.epoch != seen then c
    else c.(byConv := c.byConv[a.conv := a], aliases := if id != a.conv then c.aliases[id := a.conv] else c.aliases)
  }

  function Invalidated(c: Cache, conv: Id): Cache {
    c.(epoch := c.epoch + 1, byConv := c.byConv - {conv},
       aliases := map id | id in c.aliases && c.aliases[id] != conv :: c.aliases[id])
  }

  function Flushed(c: Cache): Cache {
    c.(epoch := c.epoch + 1, byConv := map[], aliases := map[])
  }

  /** Every alias leads to a cached conversation, filed under its own id. */
  ghost predicate CacheShape(c: Cache) {
    && (forall id | id in c.aliases :: c.aliases[id] in c.byConv)
    && (forall conv | conv in c.byConv :: c.byConv[conv].conv == conv)
  }

  /** The `Assigner`'s cache, as the router holds it. */
  class Assigner {
    var live: bool
    var epoch: nat
    var byConv: map<Id, Assignment>
    var aliases: map<Id, Id>

    ghost function View(): Cache reads this {
      Cache(live, epoch, byConv, aliases)
    }

    constructor ()
      ensures View() == Cache(false, 0, map[], map[]) && CacheShape(View())
    {
      live, epoch, byConv, aliases := false, 0, map[], map[];
    }

    /** A hit is filed under the conversation it names. */
    method Cached(id: Id) returns (hit: Option<Assignment>)
      ensures hit == CachedIn(View(), id)
      ensures hit.Some? && CacheShape(View()) ==> hit.value.conv in byConv && byConv[hit.value.conv] == hit.value
    {
      hit := None;
      if live {
        var conv := id;
        if id in aliases { conv := aliases[id]; }
        if conv in byConv { hit := Some(byConv[conv]); }
      }
    }

    method Remember(id: Id, a: Assignment, seen: nat)
      modifies this
      ensures View() == Remembered(old(View()), id, a, seen)
      ensures old(CacheShape(View())) ==> CacheShape(View())
    {
      if epoch == seen {
        byConv := byConv[a.conv := a];
        if id != a.conv { aliases := aliases[id := a.conv]; }
      }
    }

    method Invalidate(conv: Id)
      modifies this
      ensures View() == Invalidated(old(View()), conv)
      ensures old(CacheShape(View())) ==> CacheShape(View())
    {
      epoch := epoch + 1;
      byConv := byConv - {conv};
      var todo, was := aliases.Keys, aliases;
      while todo != {}
        invariant todo <= was.Keys && live == old(live) && epoch == old(epoch) + 1 && byConv == old(byConv) - {conv}
        invariant aliases.Keys <= was.Keys && forall id | id in was :: id in aliases <==> id in todo || was[id] != conv
        invariant forall id | id in aliases :: aliases[id] == was[id]
        decreases |todo|
      {
        var id :| id in todo;
        todo := todo - {id};
        if was[id] == conv { aliases := aliases - {id}; }
      }
      assert aliases == map id | id in was && was[id] != conv :: was[id];
    }

    method Flush()
      modifies this
      ensures View() == Flushed(old(View())) && CacheShape(View())
    {
      epoch := epoch + 1;
      byConv := map[];
      aliases := map[];
    }

    method SetLive(on: bool)
      modifies this
      ensures View() == Flushed(old(View())).(live := on) && CacheShape(View())
    {
      Flush();
      live := on;
    }
  }

  // ----- lookups -------------------------------------------------------------

  function RefOf(name: Id): string {
    "conv-" + name
  }

  predicate Named(rows: Table, id: Id, conv: Id) {
    conv in rows && (conv == id || rows[conv].sandboxRef == Some(RefOf(id)))
  }

  /** The exact id first, then a top-level conversation with that short id, then any. */
  predicate Finds(rows: Table, id: Id, conv: Id) {
    && Named(rows, id, conv)
    && (id in rows ==> conv == id)
    && (id !in rows && rows[conv].parent != None ==> forall c | c in rows && Named(rows, id, c) ::
      rows[c].parent != None)
  }

  predicate FindsOrNot(rows: Table, id: Id, found: Option<Id>) {
    if found.Some? then Finds(rows, id, found.value) else forall c | c in rows :: !Named(rows, id, c)
  }

  // ----- the protocol --------------------------------------------------------

  /** A resolve after its cache miss, by what it has done so far. */
  datatype Resolver =
    | Seen(id: Id, seen: nat)
    | Looked(id: Id, seen: nat, a: Assignment)
    | Lost(id: Id, seen: nat, conv: Id, gen: nat)
    | Holding(id: Id, seen: nat, a: Assignment)

  /** The listener goes round: connect, flush, go live, deliver, find the connection broken, flush, go dead. */
  datatype Listener = Down | Listening | Primed | Up | Broken | Drained

  /** `connected`: the database still queues notifications for this router's session. */
  datatype Router = Router(
    cache: Cache,
    phase: Listener,
    connected: bool,
    pending: seq<Id>,
    inHand: Option<Id>,
    resolvers: map<nat, Resolver>)

  /** What has happened to names.  `refs` logs every name a row silently took or gave up; `looks` says how
      long that log was when each resolve looked its id up, and `since` when each alias of each router was;
      `crossed` are the ids whose lost claim came back with a conversation other than the one claimed. */
  datatype Names = Names(
    refs: seq<string>,
    looks: map<(nat, nat), nat>,
    since: map<(nat, Id), nat>,
    crossed: set<Id>)

  /** `wins`, `deleted` and `names` are history: generations at which each conversation was claimed by a
      router, conversations ever deleted, and what has happened to names. */
  datatype World = World(
    rows: Table,
    routers: map<nat, Router>,
    wins: map<Id, seq<nat>>,
    deleted: set<Id>,
    names: Names)

  datatype RowEvent =
    | Insert(conv: Id, parent: Option<Id>, sandboxRef: Option<string>)
    | SetAssignment(conv: Id, pod: Pod, gen: nat)
    | Release(conv: Id, gen: nat)
    | SetPhase(conv: Id, phase: Phase)
    | SetSandboxRef(conv: Id, taken: string)
    | Delete(conv: Id)

  datatype LocalEvent =
    | Start(k: nat, id: Id)
    | Look(k: nat, found: Option<Id>)
    | Keep(k: nat)
    | Reread(k: nat, found: Option<Id>)
    | Remember(k: nat)
    | GiveUp(k: nat)
    | Connect
    | CheckFails
    | FlushUp
    | GoLive
    | Take
    | Invalidate
    | Disconnect(kept: nat)
    | NoticeBreak
    | FlushDown
    | GoDead

  datatype Event =
    | Change(row: RowEvent)
    | Claim(router: nat, k: nat, podLive: bool, ready: seq<Pod>)
    | Local(router: nat, step: LocalEvent)

  predicate SameAssignment(a: Row, b: Row) {
    a.pod == b.pod && a.gen == b.gen && a.phase == b.phase
  }

  function Notify(r: Router, conv: Id): Router {
    if r.connected then r.(pending := r.pending + [conv]) else r
  }

  function NotifyAll(routers: map<nat, Router>, conv: Id): (out: map<nat, Router>)
    ensures out.Keys == routers.Keys
    ensures forall i | i in routers :: out[i] == Notify(routers[i], conv)
  {
    map i | i in routers :: Notify(routers[i], conv)
  }

  /** An update, with the trigger that fires when the assignment really changed. */
  function Update(w: World, conv: Id, row: Row): World
    requires conv in w.rows
  {
    w.(rows := w.rows[conv := row],
       routers := if SameAssignment(w.rows[conv], row) then w.routers else NotifyAll(w.routers, conv))
  }

  /** A new conversation starts on its parent's pod. */
  function NewRow(rows: Table, parent: Option<Id>, sandboxRef: Option<string>): Row {
    var pod := if parent.Some? && parent.value in rows then rows[parent.value].pod else None;
    Row(pod, if pod.None? then 0 else 1, NoPhase, parent, sandboxRef)
  }

  /** Statements of the creator, the controller and the agent host; each does nothing where its condition fails. */
  function ApplyRow(w: World, e: RowEvent): World {
    match e
    case Insert(conv, parent, sandboxRef) =>
      if conv in w.rows then w else w.(rows := w.rows[conv := NewRow(w.rows, parent, sandboxRef)])
    case SetAssignment(conv, pod, gen) =>
      if conv in w.rows && gen > w.rows[conv].gen
      then Update(w, conv, w.rows[conv].(pod := Some(pod), gen := gen)) else w
    case Release(conv, gen) =>
      if conv in w.rows && gen >= w.rows[conv].gen && w.rows[conv].pod.Some?
      then Update(w, conv, w.rows[conv].(pod := None)) else w
    case SetPhase(conv, phase) =>
      if conv in w.rows then Update(w, conv, w.rows[conv].(phase := phase)) else w
    case SetSandboxRef(conv, taken) =>
      if conv in w.rows then Update(w, conv, w.rows[conv].(sandboxRef := Some(taken))) else w
    case Delete(conv) =>
      if conv in w.rows
      then w.(rows := w.rows - {conv}, routers := NotifyAll(w.routers, conv), deleted := w.deleted + {conv}) else w
  }

  function Wins(wins: map<Id, seq<nat>>, conv: Id): seq<nat> {
    if conv in wins then wins[conv] else []
  }

  predicate ClaimEnabled(w: World, i: nat, k: nat, podLive: bool, ready: seq<Pod>) {
    && i in w.routers && k in w.routers[i].resolvers && w.routers[i].resolvers[k].Looked?
    && (podLive ==> w.routers[i].resolvers[k].a.suspended) && (podLive || ready != [])
  }

  function ClaimCandidates(a: Assignment, podLive: bool, ready: seq<Pod>): seq<Pod> {
    if podLive then [a.pod] else ready
  }

  function ApplyClaim(w: World, i: nat, k: nat, candidates: seq<Pod>): World
    requires i in w.routers && k in w.routers[i].resolvers && w.routers[i].resolvers[k].Looked?
  {
    var s := w.routers[i].resolvers[k];
    if ClaimWins(w.rows, s.a.conv, s.a.gen, candidates) then Won(w, i, k, candidates)
    else w.(routers := w.routers[i := Put(w.routers[i], k, Lost(s.id, s.seen, s.a.conv, s.a.gen))])
  }

  function Won(w: World, i: nat, k: nat, candidates: seq<Pod>): World
    requires i in w.routers && k in w.routers[i].resolvers && w.routers[i].resolvers[k].Looked?
    requires ClaimWins(w.rows, w.routers[i].resolvers[k].a.conv, w.routers[i].resolvers[k].a.gen, candidates)
  {
    var s := w.routers[i].resolvers[k];
    var conv := s.a.conv;
    var rows := w.rows[conv := ClaimedRow(w.rows, conv, candidates)];
    var routers := NotifyAll(w.routers, conv);
    w.(rows := rows, wins := w.wins[conv := Wins(w.wins, conv) + [s.a.gen]],
       routers := routers[i := Put(routers[i], k, Holding(s.id, s.seen, AssignmentOf(rows, conv)))])
  }

  function Put(r: Router, k: nat, s: Resolver): Router {
    r.(resolvers := r.resolvers[k := s])
  }

  function Done(r: Router, k: nat): Router {
    r.(resolvers := r.resolvers - {k})
  }

  predicate IsListener(e: LocalEvent) {
    e.Connect? || e.CheckFails? || e.FlushUp? || e.GoLive? || e.Take? || e.Invalidate? || e.Disconnect?
    || e.NoticeBreak? || e.FlushDown? || e.GoDead?
  }

  predicate ResolverEnabled(rows: Table, r: Router, e: LocalEvent) {
    match e
    case Start(k, _) => k !in r.resolvers
    case Look(k, found) => k in r.resolvers && r.resolvers[k].Seen? && FindsOrNot(rows, r.resolvers[k].id, found)
    case Keep(k) => k in r.resolvers && r.resolvers[k].Looked? && !r.resolvers[k].a.suspended
    case Reread(k, found) => k in r.resolvers && r.resolvers[k].Lost? && FindsOrNot(rows, r.resolvers[k].conv, found)
    case Remember(k) => k in r.resolvers && r.resolvers[k].Holding?
    case GiveUp(k) => k in r.resolvers
    case _ => false
  }

  predicate ListenerEnabled(r: Router, e: LocalEvent) {
    match e
    case Connect => r.phase == Down
    case CheckFails => r.phase == Listening
    case FlushUp => r.phase == Listening
    case GoLive => r.phase == Primed
    case Take => r.phase == Up && r.inHand == None && r.pending != []
    case Invalidate => r.phase == Up && r.inHand.Some?
    case Disconnect(kept) => r.connected && kept <= |r.pending|
    case NoticeBreak => r.phase == Up && r.inHand == None
    case FlushDown => r.phase == Broken
    case GoDead => r.phase == Drained
    case _ => false
  }

  function ApplyResolver(rows: Table, r: Router, e: LocalEvent): Router
    requires ResolverEnabled(rows, r, e)
  {
    match e
    case Start(k, id) => Put(r, k, Seen(id, r.cache.epoch))
    case Look(k, found) =>
      if found.None? then Done(r, k)
      else Put(r, k, Looked(r.resolvers[k].id, r.resolvers[k].seen, AssignmentOf(rows, found.value)))
    case Keep(k) => Put(r, k, Holding(r.resolvers[k].id, r.resolvers[k].seen, r.resolvers[k].a))
    case Reread(k, found) =>
      if found.None? then Done(r, k)
      else Put(r, k, Holding(r.resolvers[k].id, r.resolvers[k].seen, AssignmentOf(rows, found.value)))
    case Remember(k) =>
      var s := r.resolvers[k];
      Done(r, k).(cache := Remembered(r.cache, s.id, s.a, s.seen))
    case GiveUp(k) => Done(r, k)
  }

  function ApplyListener(r: Router, e: LocalEvent): Router
    requires ListenerEnabled(r, e)
  {
    match e
    case Connect => r.(phase := Listening, connected := true, pending := [], inHand := None)
    case CheckFails => r.(phase := Down, connected := false, pending := [])
    case FlushUp => r.(phase := Primed, cache := Flushed(r.cache))
    case GoLive => r.(phase := Up, cache := r.cache.(live := true))
    case Take => r.(inHand := Some(r.pending[0]), pending := r.pending[1..])
    case Invalidate => r.(inHand := None, cache := Invalidated(r.cache, r.inHand.value))
    case Disconnect(kept) => r.(connected := false, pending := r.pending[..kept])
    case NoticeBreak => r.(phase := Broken, connected := false, pending := [])
    case FlushDown => r.(phase := Drained, cache := Flushed(r.cache))
    case GoDead => r.(phase := Down, cache := r.cache.(live := false))
  }

  predicate LocalEnabled(rows: Table, r: Router, e: LocalEvent) {
    if IsListener(e) then ListenerEnabled(r, e) else ResolverEnabled(rows, r, e)
  }

  function ApplyLocal(rows: Table, r: Router, e: LocalEvent): Router
    requires LocalEnabled(rows, r, e)
  {
    if IsListener(e) then ApplyListener(r, e) else ApplyResolver(rows, r, e)
  }

  predicate Enabled(w: World, e: Event) {
    match e
    case Change(_) => true
    case Claim(i, k, podLive, ready) => ClaimEnabled(w, i, k, podLive, ready)
    case Local(i, step) => i in w.routers && LocalEnabled(w.rows, w.routers[i], step)
  }

  /** The names a statement gives or takes without notifying anybody. */
  function Renames(rows: Table, e: RowEvent): seq<string> {
    match e
    case Insert(conv, _, sandboxRef) =>
      if conv in rows then [] else [RefOf(conv)] + if sandboxRef.Some? then [sandboxRef.value] else []
    case SetSandboxRef(conv, taken) =>
      if conv !in rows then []
      else [taken] + if rows[conv].sandboxRef.Some? then [rows[conv].sandboxRef.value] else []
    case _ => []
  }

  /** The step writes an alias. */
  predicate Remembers(r: Router, step: LocalEvent) {
    && step.Remember? && step.k in r.resolvers && r.resolvers[step.k].Holding?
    && r.resolvers[step.k].seen == r.cache.epoch && r.resolvers[step.k].id != r.resolvers[step.k].a.conv
  }

  predicate Crosses(r: Router, step: LocalEvent) {
    && step.Reread? && step.k in r.resolvers && r.resolvers[step.k].Lost?
    && step.found.Some? && step.found.value != r.resolvers[step.k].conv
  }

  function Noted(w: World, e: Event): Names {
    var h := w.names;
    match e
    case Change(row) => h.(refs := h.refs + Renames(w.rows, row))
    case Claim(_, _, _, _) => h
    case Local(i, step) =>
      if i !in w.routers then h
      else if step.Look? then h.(looks := h.looks[(i, step.k) := |h.refs|])
      else if Remembers(w.routers[i], step) && (i, step.k) in h.looks
      then h.(since := h.since[(i, w.routers[i].resolvers[step.k].id) := h.looks[(i, step.k)]])
      else if Crosses(w.routers[i], step) then h.(crossed := h.crossed + {w.routers[i].resolvers[step.k].id})
      else h
  }

  function Apply(w: World, e: Event): World
    requires Enabled(w, e)
  {
    Act(w, e).(names := Noted(w, e))
  }

  /** The step itself, history of names aside. */
  function Act(w: World, e: Event): World
    requires Enabled(w, e)
  {
    match e
    case Change(row) => ApplyRow(w, row)
    case Claim(i, k, podLive, ready) =>
      ApplyClaim(w, i, k, ClaimCandidates(w.routers[i].resolvers[k].a, podLive, ready))
    case Local(i, step) => w.(routers := w.routers[i := ApplyLocal(w.rows, w.routers[i], step)])
  }

  /** Any table, any number of routers, none of them started. */
  ghost predicate Initial(w: World) {
    && w.wins == map[] && w.deleted == {} && w.names == Names([], map[], map[], {})
    && forall i | i in w.routers :: w.routers[i] == Router(Cache(false, 0, map[], map[]), Down, false, [], None, map[])
  }

  ghost predicate Reaches(w0: World, events: seq<Event>, w: World)
    decreases |events|
  {
    if events == [] then w == w0
    else Enabled(w0, events[0]) && Reaches(Apply(w0, events[0]), events[1..], w)
  }
}
