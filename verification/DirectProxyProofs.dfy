/** Every interleaving of lookups, invalidations and touches on the target cache. */
module DirectProxyProofs {
  import opened Wrappers
  import opened DirectProxy

  /** A fetch between its two critical sections; `began` is when, in steps. */
  datatype Job = Job(conv: Conv, key: Key, gen: nat, began: nat)

  /** `steps` counts steps; `origin` says which step each cached entry's fetch began at and for which
      conversation; `dropped` when each conversation was last invalidated; `reports` every touch sent. */
  datatype World = World(
    p: Proxy,
    jobs: map<nat, Job>,
    clock: real,
    steps: nat,
    origin: map<Key, (Conv, nat)>,
    dropped: map<Conv, nat>,
    reports: seq<(Conv, real)>)

  datatype Event =
    | Tick(now: real)
    | Begin(conv: Conv, rest: string, call: nat)
    | End(call: nat, answer: Option<Target>)
    | Invalidate(conv: Conv)
    | Touch(conv: Conv)

  predicate Enabled(w: World, e: Event) {
    match e
    case Tick(now) => w.clock <= now
    case Begin(_, _, call) => call !in w.jobs
    case End(call, _) => call in w.jobs
    case Invalidate(_) => true
    case Touch(_) => true
  }

  function ApplyBegin(w: World, conv: Conv, key: Key, call: nat): World {
    var r := Looked(w.p, conv, key, w.clock, call);
    w.(p := r.1, steps := w.steps + 1,
       jobs := if r.0.Fetch? then w.jobs[call := Job(conv, key, r.0.gen, w.steps)] else w.jobs)
  }

  ghost function ApplyEnd(w: World, call: nat, answer: Option<Target>): World
    requires call in w.jobs
  {
    var j := w.jobs[call];
    var r := Ended(w.p, j.conv, j.key, j.gen, answer, w.clock);
    w.(p := r.1, steps := w.steps + 1, jobs := w.jobs - {call},
       origin := if r.0.Some? then w.origin[j.key := (j.conv, j.began)] else w.origin)
  }

  ghost function ApplyInvalidate(w: World, conv: Conv): World {
    w.(p := Invalidated(w.p, conv), steps := w.steps + 1, dropped := w.dropped[conv := w.steps])
  }

  function ApplyTouch(w: World, conv: Conv): World {
    w.(p := Touched(w.p, conv, w.clock), steps := w.steps + 1,
       reports := if MayTouch(w.p, conv, w.clock) then w.reports + [(conv, w.clock)] else w.reports)
  }

  ghost function Apply(w: World, e: Event): World
    requires Enabled(w, e)
  {
    match e
    case Tick(now) => w.(clock := now)
    case Begin(conv, rest, call) => ApplyBegin(w, conv, KeyOf(conv, rest), call)
    case End(call, answer) => ApplyEnd(w, call, answer)
    case Invalidate(conv) => ApplyInvalidate(w, conv)
    case Touch(conv) => ApplyTouch(w, conv)
  }

  ghost predicate Initial(w: World) {
    w.p == Proxy(map[], map[], map[], map[]) && w.jobs == map[] && w.dropped == map[] && w.reports == []
  }

  ghost predicate Reaches(w0: World, events: seq<Event>, w: World)
    decreases |events|
  {
    if events == [] then w == w0
    else Enabled(w0, events[0]) && Reaches(Apply(w0, events[0]), events[1..], w)
  }

  // ----- what every step keeps -----------------------------------------------

  /** No invalidation of the conversation since that step. */
  ghost predicate Since(w: World, conv: Conv, began: nat) {
    conv in w.dropped ==> w.dropped[conv] < began
  }

  /** Each key in flight has its one fetch, and each fetch its key. */
  ghost predicate FlightInv(w: World) {
    && (forall c | c in w.jobs ::
      w.jobs[c].key in w.p.inflight && w.p.inflight[w.jobs[c].key] == c && KeyFor(w.jobs[c].key, w.jobs[c].conv))
    && (forall k | k in w.p.inflight :: w.p.inflight[k] in w.jobs && w.jobs[w.p.inflight[k]].key == k)
  }

  /** A fetch's counter has moved exactly if an invalidation overtook it, though counters restart. */
  ghost predicate GenInv(w: World) {
    && (forall c | c in w.jobs :: w.jobs[c].began < w.steps && w.jobs[c].gen <= GenOf(w.p.gen, w.jobs[c].conv))
    && (forall c | c in w.jobs ::
      w.jobs[c].gen == GenOf(w.p.gen, w.jobs[c].conv) <==> Since(w, w.jobs[c].conv, w.jobs[c].began))
    && (forall conv | conv in w.dropped :: w.dropped[conv] < w.steps)
  }

  ghost predicate CacheInv(w: World) {
    && |w.p.cache| <= CACHE_MAX
    && (forall k | k in w.p.cache :: w.p.cache[k].expires <= w.clock + MAX_TTL)
    && (forall k | k in w.p.cache ::
      k in w.origin && KeyFor(k, w.origin[k].0) && Since(w, w.origin[k].0, w.origin[k].1))
  }

  ghost predicate TouchInv(w: World) {
    && (forall i | 0 <= i < |w.reports| :: var r := w.reports[i];
          w.clock - r.1 >= TOUCH_INTERVAL || (r.0 in w.p.touched && w.p.touched[r.0] >= r.1))
    && (forall i | 0 <= i < |w.reports| :: w.reports[i].1 <= w.clock)
    && (forall c | c in w.p.touched :: w.p.touched[c] <= w.clock)
    && (forall i, j | 0 <= i < j < |w.reports| && w.reports[i].0 == w.reports[j].0 ::
          w.reports[j].1 - w.reports[i].1 >= TOUCH_INTERVAL)
  }

  ghost predicate Inv(w: World) {
    FlightInv(w) && GenInv(w) && CacheInv(w) && TouchInv(w)
  }

  lemma KeyPasses(conv: Conv, rest: string)
    ensures KeyFor(KeyOf(conv, rest), conv)
  {
    assert (conv + ['\0'] + rest)[..|conv| + 1] == conv + ['\0'];
  }

  lemma BeginFlight(w: World, conv: Conv, key: Key, call: nat)
    requires FlightInv(w) && call !in w.jobs && KeyFor(key, conv)
    ensures FlightInv(ApplyBegin(w, conv, key, call))
  {
    var w' := ApplyBegin(w, conv, key, call);
    if w'.jobs != w.jobs {
      assert w'.p.inflight == w.p.inflight[key := call] && key !in w.p.inflight;
      assert w'.jobs[call].key == key && w'.jobs[call].conv == conv;
      forall k | k in w'.p.inflight ensures w'.p.inflight[k] in w'.jobs && w'.jobs[w'.p.inflight[k]].key == k {}
    }
  }

  lemma BeginGen(w: World, conv: Conv, key: Key, call: nat)
    requires GenInv(w) && call !in w.jobs
    ensures GenInv(ApplyBegin(w, conv, key, call))
  {
    var w' := ApplyBegin(w, conv, key, call);
    assert w'.p.gen == w.p.gen && w'.dropped == w.dropped;
    assert forall c, s :: Since(w, c, s) <==> Since(w', c, s);
  }

  lemma SameCache(w: World, w': World)
    requires CacheInv(w) && TouchInv(w) && w'.p.cache == w.p.cache && w'.p.touched == w.p.touched
    requires w'.clock == w.clock && w'.origin == w.origin && w'.dropped == w.dropped && w'.reports == w.reports
    ensures CacheInv(w') && TouchInv(w')
  {
    assert forall c, s :: Since(w, c, s) <==> Since(w', c, s);
  }

  lemma BeginStep(w: World, conv: Conv, rest: string, call: nat)
    requires Inv(w) && call !in w.jobs
    ensures Inv(ApplyBegin(w, conv, KeyOf(conv, rest), call))
  {
    KeyPasses(conv, rest);
    BeginFlight(w, conv, KeyOf(conv, rest), call);
    BeginGen(w, conv, KeyOf(conv, rest), call);
    SameCache(w, ApplyBegin(w, conv, KeyOf(conv, rest), call));
  }

  /** What an ended fetch leaves of the cache. */
  lemma EndedCache(p: Proxy, conv: Conv, key: Key, gen: nat, answer: Option<Target>, now: real)
    requires |p.cache| <= CACHE_MAX
    ensures var r := Ended(p, conv, key, gen, answer, now);
      && |r.1.cache| <= CACHE_MAX
      && (forall k | k in r.1.cache ::
            || (r.0.Some? && k == key && r.1.cache[k].expires <= now + MAX_TTL)
            || (k in p.cache && r.1.cache[k] == p.cache[k]))
      && (r.0.Some? ==> GenOf(p.gen, conv) == gen)
  {
    var t := Ended(p, conv, key, gen, answer, now).0;
    if t.Some? {
      var inflight := p.inflight - {key};
      var p1 := p.(inflight := inflight, gen := if InFlightFor(inflight, conv) then p.gen else p.gen - {conv});
      var p2 := if |p.cache| >= CACHE_MAX then Pruned(p1, now) else p1;
      assert |p2.cache| < CACHE_MAX;
      GrowsByOne(p2.cache, key, Entry(t.value, now + Ttl(t.value)));
    }
  }

  lemma GrowsByOne(m: map<Key, Entry>, k: Key, e: Entry)
    ensures |m[k := e]| <= |m| + 1
  {
    assert m[k := e].Keys == m.Keys + {k};
    assert |m[k := e].Keys| <= |m.Keys| + 1;
  }

  /** Touches that still matter are kept or renewed; nothing else appears. */
  ghost predicate TouchesKept(was: map<Conv, real>, touched: map<Conv, real>, now: real) {
    && (forall c | c in was && now - was[c] < TOUCH_INTERVAL ::
      c in touched && (touched[c] == was[c] || touched[c] == now))
    && (forall c | c in touched :: touched[c] == now || (c in was && touched[c] == was[c]))
  }

  lemma StoredTouched(p: Proxy, key: Key, t: Target, now: real)
    ensures TouchesKept(p.touched, Stored(p, key, t, now).touched, now)
  {
    var touched := Stored(p, key, t, now).touched;
    assert touched == p.touched[t.conversation := now] ||
      touched == RecentTouches(p.touched, now)[t.conversation := now];
  }

  lemma EndedTouched(p: Proxy, conv: Conv, key: Key, gen: nat, answer: Option<Target>, now: real)
    ensures TouchesKept(p.touched, Ended(p, conv, key, gen, answer, now).1.touched, now)
  {
    var inflight := p.inflight - {key};
    var p1 := p.(inflight := inflight, gen := if InFlightFor(inflight, conv) then p.gen else p.gen - {conv});
    if answer.Some? { StoredTouched(p1, key, answer.value, now); }
  }

  lemma EndedFlight(p: Proxy, conv: Conv, key: Key, gen: nat, answer: Option<Target>, now: real)
    ensures var q := Ended(p, conv, key, gen, answer, now).1;
      && q.inflight == p.inflight - {key}
      && (forall c | c != conv || InFlightFor(p.inflight - {key}, c) :: GenOf(q.gen, c) == GenOf(p.gen, c))
  {}

  /** The cache gained at most one entry, from a fetch no invalidation overtook. */
  lemma CacheGrown(w: World, w': World, key: Key, conv: Conv, began: nat, stored: bool)
    requires CacheInv(w) && w'.clock == w.clock && w'.dropped == w.dropped && |w'.p.cache| <= CACHE_MAX
    requires w'.origin == if stored then w.origin[key := (conv, began)] else w.origin
    requires stored ==> KeyFor(key, conv) && Since(w, conv, began)
    requires forall k | k in w'.p.cache ::
      (stored && k == key && w'.p.cache[k].expires <= w.clock + MAX_TTL) ||
        (k in w.p.cache && w'.p.cache[k] == w.p.cache[k])
    ensures CacheInv(w')
  {
    assert forall c, s :: Since(w, c, s) <==> Since(w', c, s);
  }

  lemma EndStepCache(w: World, call: nat, answer: Option<Target>)
    requires FlightInv(w) && GenInv(w) && CacheInv(w) && call in w.jobs
    ensures CacheInv(ApplyEnd(w, call, answer))
  {
    var j := w.jobs[call];
    EndedCache(w.p, j.conv, j.key, j.gen, answer, w.clock);
    CacheGrown(w, ApplyEnd(w, call, answer), j.key, j.conv, j.began,
      Ended(w.p, j.conv, j.key, j.gen, answer, w.clock).0.Some?);
  }

  lemma TouchKept(w: World, w': World)
    requires TouchInv(w) && w'.clock == w.clock && w'.reports == w.reports
    requires TouchesKept(w.p.touched, w'.p.touched, w.clock)
    ensures TouchInv(w')
  {}

  lemma EndStepTouch(w: World, call: nat, answer: Option<Target>)
    requires TouchInv(w) && call in w.jobs
    ensures TouchInv(ApplyEnd(w, call, answer))
  {
    var j := w.jobs[call];
    EndedTouched(w.p, j.conv, j.key, j.gen, answer, w.clock);
    TouchKept(w, ApplyEnd(w, call, answer));
  }

  lemma EndStepFlight(w: World, call: nat, answer: Option<Target>)
    requires Inv(w) && call in w.jobs
    ensures FlightInv(ApplyEnd(w, call, answer)) && GenInv(ApplyEnd(w, call, answer))
  {
    var j, w' := w.jobs[call], ApplyEnd(w, call, answer);
    EndedFlight(w.p, j.conv, j.key, j.gen, answer, w.clock);
    assert forall c, s :: Since(w, c, s) <==> Since(w', c, s);
    forall c | c in w'.jobs ensures GenOf(w'.p.gen, w.jobs[c].conv) == GenOf(w.p.gen, w.jobs[c].conv) {
      var k := w.jobs[c].key;
      assert k in w.p.inflight - {j.key} && KeyFor(k, w.jobs[c].conv);
    }
  }

  lemma InvalidateGen(w: World, conv: Conv)
    requires FlightInv(w) && GenInv(w)
    ensures FlightInv(ApplyInvalidate(w, conv)) && GenInv(ApplyInvalidate(w, conv))
  {
    var w' := ApplyInvalidate(w, conv);
    forall c | c in w.jobs
      ensures w.jobs[c].gen <= GenOf(w'.p.gen, w.jobs[c].conv)
      ensures w.jobs[c].gen == GenOf(w'.p.gen, w.jobs[c].conv) <==> Since(w', w.jobs[c].conv, w.jobs[c].began)
    {
      var j := w.jobs[c];
      assert j.gen == GenOf(w.p.gen, j.conv) <==> Since(w, j.conv, j.began);
      if j.conv == conv { assert j.key in w.p.inflight && KeyFor(j.key, conv); }
    }
  }

  lemma CacheShrunk(w: World, w': World, conv: Conv)
    requires CacheInv(w) && w'.clock == w.clock && w'.origin == w.origin && w'.dropped == w.dropped[conv := w.steps]
    requires w'.p.cache == WithoutConv(w.p.cache, conv)
    ensures CacheInv(w')
  {
    assert forall c, s | c != conv :: Since(w, c, s) <==> Since(w', c, s);
    SubsetIsSmaller(w'.p.cache.Keys, w.p.cache.Keys);
    assert |w'.p.cache| == |w'.p.cache.Keys| && |w.p.cache| == |w.p.cache.Keys|;
  }

  lemma InvalidateStep(w: World, conv: Conv)
    requires Inv(w)
    ensures Inv(ApplyInvalidate(w, conv))
  {
    InvalidateGen(w, conv);
    CacheShrunk(w, ApplyInvalidate(w, conv), conv);
    TouchKept(w, ApplyInvalidate(w, conv));
  }

  lemma TouchStep(w: World, conv: Conv)
    requires Inv(w)
    ensures Inv(ApplyTouch(w, conv))
  {
    var w' := ApplyTouch(w, conv);
    assert forall c, s :: Since(w, c, s) <==> Since(w', c, s);
  }

  lemma InvStep(w: World, e: Event)
    requires Inv(w) && Enabled(w, e)
    ensures Inv(Apply(w, e))
  {
    match e
    case Tick(now) => assert forall c, s :: Since(w, c, s) <==> Since(Apply(w, e), c, s);
    case Begin(conv, rest, call) => BeginStep(w, conv, rest, call);
    case End(call, answer) =>
      EndStepCache(w, call, answer);
      EndStepTouch(w, call, answer);
      EndStepFlight(w, call, answer);
    case Invalidate(conv) => InvalidateStep(w, conv);
    case Touch(conv) => TouchStep(w, conv);
  }

  lemma {:induction false} InvAlong(w0: World, events: seq<Event>, w: World)
    requires Inv(w0) && Reaches(w0, events, w)
    ensures Inv(w)
    decreases |events|
  {
    if events != [] {
      InvStep(w0, events[0]);
      InvAlong(Apply(w0, events[0]), events[1..], w);
    }
  }

  lemma EveryRunKeepsInv(w0: World, events: seq<Event>, w: World)
    requires Initial(w0) && Reaches(w0, events, w)
    ensures Inv(w)
  {
    InvAlong(w0, events, w);
  }

  /** At most one fetch per key is under way. */
  lemma OneFetchPerKey(w0: World, events: seq<Event>, w: World, a: nat, b: nat)
    requires Initial(w0) && Reaches(w0, events, w) && a in w.jobs && b in w.jobs && w.jobs[a].key == w.jobs[b].key
    ensures a == b
  {
    EveryRunKeepsInv(w0, events, w);
  }

  /** No cached entry comes from a fetch that began before its conversation's latest invalidation. */
  lemma NoStaleEntry(w0: World, events: seq<Event>, w: World, k: Key)
    requires Initial(w0) && Reaches(w0, events, w) && k in w.p.cache
    ensures k in w.origin && KeyFor(k, w.origin[k].0)
    ensures w.origin[k].0 in w.dropped ==> w.dropped[w.origin[k].0] < w.origin[k].1
  {
    EveryRunKeepsInv(w0, events, w);
  }

  /** A hit is unexpired, from a fetch no invalidation overtook, and lives at most a minute more. */
  lemma HitIsCurrent(w0: World, events: seq<Event>, w: World, conv: Conv, key: Key, call: nat)
    requires Initial(w0) && Reaches(w0, events, w) && Looked(w.p, conv, key, w.clock, call).0.Hit?
    ensures key in w.p.cache && Looked(w.p, conv, key, w.clock, call).0.target == w.p.cache[key].target
    ensures w.clock < w.p.cache[key].expires <= w.clock + 60.0
    ensures key in w.origin && Since(w, w.origin[key].0, w.origin[key].1)
  {
    EveryRunKeepsInv(w0, events, w);
  }

  /** Nor does any waiter get an answer from such a fetch. */
  lemma NoStaleAnswer(w0: World, events: seq<Event>, w: World, call: nat, answer: Option<Target>)
    requires Initial(w0) && Reaches(w0, events, w) && call in w.jobs
    requires var j := w.jobs[call]; j.conv in w.dropped && w.dropped[j.conv] >= j.began
    ensures var j := w.jobs[call]; Ended(w.p, j.conv, j.key, j.gen, answer, w.clock).0 == None
  {
    EveryRunKeepsInv(w0, events, w);
    assert !Since(w, w.jobs[call].conv, w.jobs[call].began);
  }

  lemma CacheIsBounded(w0: World, events: seq<Event>, w: World)
    requires Initial(w0) && Reaches(w0, events, w)
    ensures |w.p.cache| <= 4096
  {
    EveryRunKeepsInv(w0, events, w);
  }

  /** Reports of one conversation are at least 15 seconds apart, whatever pruning forgets. */
  lemma ReportsAreSpaced(w0: World, events: seq<Event>, w: World, i: nat, j: nat)
    requires Initial(w0) && Reaches(w0, events, w) && i < j < |w.reports| && w.reports[i].0 == w.reports[j].0
    ensures w.reports[j].1 - w.reports[i].1 >= 15.0
  {
    EveryRunKeepsInv(w0, events, w);
  }

  // ----- and it does serve ---------------------------------------------------

  /** Nobody waits in vain: a lookup is answered from the cache, or waits for a fetch of its own key that is
      under way, or begins one. */
  lemma EveryLookupIsServed(w0: World, events: seq<Event>, w: World, conv: Conv, key: Key, call: nat)
    requires Initial(w0) && Reaches(w0, events, w) && call !in w.jobs
    ensures match Looked(w.p, conv, key, w.clock, call).0
      case Hit(t) => key in w.p.cache && t == w.p.cache[key].target
      case Wait(c) => c in w.jobs && w.jobs[c].key == key
      case Fetch(_) =>
        var w' := ApplyBegin(w, conv, key, call);
        call in w'.jobs && w'.jobs[call].conv == conv && w'.jobs[call].key == key
  {
    EveryRunKeepsInv(w0, events, w);
  }

  /** A fetch counts exactly if no invalidation of its conversation came since it began. */
  lemma FetchCountsUnlessOvertaken(w0: World, events: seq<Event>, w: World, call: nat, t: Target)
    requires Initial(w0) && Reaches(w0, events, w) && call in w.jobs
    ensures var j := w.jobs[call];
      Ended(w.p, j.conv, j.key, j.gen, Some(t), w.clock).0 ==
        if j.conv in w.dropped && w.dropped[j.conv] >= j.began then None else Some(t)
  {
    EveryRunKeepsInv(w0, events, w);
    assert Since(w, w.jobs[call].conv, w.jobs[call].began) <==>
      !(w.jobs[call].conv in w.dropped && w.dropped[w.jobs[call].conv] >= w.jobs[call].began);
  }

  /** Once it counts, its answer is what lookups of the key get, without another fetch, for as long as the
      target says, but for a minute if that is nothing or more than a minute. */
  lemma AnswerIsReused(w0: World, events: seq<Event>, w: World, call: nat, t: Target, now: real, other: nat)
    requires Initial(w0) && Reaches(w0, events, w) && call in w.jobs && other != call && w.clock <= now
    requires var j := w.jobs[call]; !(j.conv in w.dropped && w.dropped[j.conv] >= j.began)
    ensures var j, p := w.jobs[call], Apply(w, End(call, Some(t))).p;
      && j.key in p.cache
      && (now - w.clock < (if 0 < t.ttlMs <= 60000 then t.ttlMs as real / 1000.0 else 60.0) <==>
          Looked(p, j.conv, j.key, now, other).0 == Hit(t))
  {
    FetchCountsUnlessOvertaken(w0, events, w, call, t);
  }

  /** A conversation nothing was heard of for fifteen seconds is reported when it is next touched. */
  lemma SilenceIsReported(w0: World, events: seq<Event>, w: World, conv: Conv, now: real)
    requires Initial(w0) && Reaches(w0, events, w) && now - w.clock >= 15.0
    ensures Enabled(w, Tick(now)) && Apply(Apply(w, Tick(now)), Touch(conv)).reports == w.reports + [(conv, now)]
  {
    EveryRunKeepsInv(w0, events, w);
  }

  // ----- what is forgotten, and when -----------------------------------------

  /** Storing an answer forgets other entries only when the cache is full, and then the expired ones, or all if
      that makes no room. */
  lemma StoringKeepsTheRest(p: Proxy, key: Key, t: Target, now: real, k: Key)
    requires k != key
    ensures var q := Stored(p, key, t, now);
      && (k in q.cache ==> k in p.cache && q.cache[k] == p.cache[k])
      && (k in q.cache <==>
            && k in p.cache
            && (|p.cache| < 4096 || (now < p.cache[k].expires && |Unexpired(p.cache, now)| < 4096)))
  {}

  predicate NulFree(conv: Conv) {
    '\0' !in conv
  }

  /** The conversation a step is about has no NUL in its id. */
  predicate Plain(e: Event) {
    match e
    case Begin(conv, _, _) => NulFree(conv)
    case Invalidate(conv) => NulFree(conv)
    case _ => true
  }

  ghost predicate KeyBelongs(key: Key, conv: Conv) {
    NulFree(conv) && exists rest :: key == KeyOf(conv, rest)
  }

  /** A counter is kept only while some fetch of its conversation is under way. */
  ghost predicate CounterInv(w: World) {
    && (forall c | c in w.jobs :: KeyBelongs(w.jobs[c].key, w.jobs[c].conv))
    && (forall conv | conv in w.p.gen :: NulFree(conv) && InFlightFor(w.p.inflight, conv))
  }

  lemma OwnKeyOnly(key: Key, conv: Conv, other: Conv)
    requires KeyBelongs(key, conv) && NulFree(other)
    ensures KeyFor(key, other) <==> conv == other
  {
    var rest :| key == KeyOf(conv, rest);
    PrefixTestIsExact(conv, rest, other);
  }

  lemma CounterEnd(w: World, call: nat, answer: Option<Target>)
    requires FlightInv(w) && CounterInv(w) && call in w.jobs
    ensures CounterInv(ApplyEnd(w, call, answer))
  {
    var j, w' := w.jobs[call], ApplyEnd(w, call, answer);
    EndedFlight(w.p, j.conv, j.key, j.gen, answer, w.clock);
    EndedCounters(w.p, j.conv, j.key, j.gen, answer, w.clock);
    forall conv | conv in w'.p.gen ensures InFlightFor(w'.p.inflight, conv) {
      if conv != j.conv {
        var k :| k in w.p.inflight && KeyFor(k, conv);
        OwnKeyOnly(j.key, j.conv, conv);
        assert k in w'.p.inflight;
      }
    }
  }

  lemma EndedCounters(p: Proxy, conv: Conv, key: Key, gen: nat, answer: Option<Target>, now: real)
    ensures var q := Ended(p, conv, key, gen, answer, now).1;
      q.gen.Keys <= p.gen.Keys && (conv in q.gen ==> InFlightFor(p.inflight - {key}, conv))
  {}

  lemma CounterBegin(w: World, conv: Conv, rest: string, call: nat)
    requires CounterInv(w) && NulFree(conv) && call !in w.jobs
    ensures CounterInv(ApplyBegin(w, conv, KeyOf(conv, rest), call))
  {
    var w' := ApplyBegin(w, conv, KeyOf(conv, rest), call);
    assert KeyBelongs(KeyOf(conv, rest), conv);
    forall c | c in w'.p.gen ensures InFlightFor(w'.p.inflight, c) {
      var k :| k in w.p.inflight && KeyFor(k, c);
      assert k in w'.p.inflight;
    }
  }

  lemma CounterStep(w: World, e: Event)
    requires Inv(w) && CounterInv(w) && Enabled(w, e) && Plain(e)
    ensures CounterInv(Apply(w, e))
  {
    match e
    case Begin(conv, rest, call) => CounterBegin(w, conv, rest, call);
    case End(call, answer) => CounterEnd(w, call, answer);
    case _ =>
  }

  lemma {:induction false} CountersAlong(w0: World, events: seq<Event>, w: World)
    requires Inv(w0) && CounterInv(w0) && Reaches(w0, events, w) && forall i | 0 <= i < |events| :: Plain(events[i])
    ensures CounterInv(w)
    decreases |events|
  {
    if events != [] {
      InvStep(w0, events[0]);
      CounterStep(w0, events[0]);
      CountersAlong(Apply(w0, events[0]), events[1..], w);
    }
  }

  /** Counters do not pile up: with ids free of NULs, a conversation has one only while a fetch of its own is
      under way. */
  lemma CountersAreForgotten(w0: World, events: seq<Event>, w: World, conv: Conv)
    requires Initial(w0) && Reaches(w0, events, w) && forall i | 0 <= i < |events| :: Plain(events[i])
    requires conv in w.p.gen
    ensures exists c | c in w.jobs :: w.jobs[c].conv == conv
  {
    EveryRunKeepsInv(w0, events, w);
    CountersAlong(w0, events, w);
    var k :| k in w.p.inflight && KeyFor(k, conv);
    var c := w.p.inflight[k];
    OwnKeyOnly(k, w.jobs[c].conv, conv);
  }
}
