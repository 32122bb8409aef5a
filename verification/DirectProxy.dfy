/** The router's target cache for sandbox hosts: one fetch per key in flight, invalidations that reach
    fetches already under way through a per-conversation counter kept only while it is needed, and a
    throttle on activity reports. */
module DirectProxy {
  import opened Wrappers

  type Conv = string
  type Key = string

  datatype Target = Target(conversation: Conv, address: string, ttlMs: int)

  datatype Entry = Entry(target: Target, expires: real)

  const TOUCH_INTERVAL := 15.0
  const MAX_TTL := 60.0
  const CACHE_MAX := 4096

  /** `inflight` names the call that fetches each key. */
  datatype Proxy = Proxy(
    cache: map<Key, Entry>,
    inflight: map<Key, nat>,
    gen: map<Conv, nat>,
    touched: map<Conv, real>)

  function KeyOf(conv: Conv, rest: string): Key {
    conv + ['\0'] + rest
  }

  predicate HasPrefix(k: Key, p: string) {
    |p| <= |k| && k[..|p|] == p
  }

  /** The source's test for "a key of this conversation". */
  predicate KeyFor(k: Key, conv: Conv) {
    HasPrefix(k, conv + ['\0'])
  }

  /** A conversation's keys always pass the test, and among ids without a NUL only they do. */
  lemma PrefixTestIsExact(conv: Conv, rest: string, other: Conv)
    requires forall c | c in conv + other :: c != '\0'
    ensures KeyFor(KeyOf(conv, rest), other) <==> conv == other
  {
    var k, p := KeyOf(conv, rest), other + ['\0'];
    assert k[|conv|] == '\0' && p[|other|] == '\0';
    if conv == other {
      assert k[..|p|] == p;
    }
    if HasPrefix(k, p) {
      assert forall i | 0 <= i < |p| :: k[i] == p[i];
      assert forall i | 0 <= i < |conv| :: k[i] == conv[i] && conv[i] in conv + other;
      assert forall i | 0 <= i < |other| :: p[i] == other[i] && other[i] in conv + other;
      assert |conv| == |other|;
      assert conv == other;
    }
  }

  function GenOf(gen: map<Conv, nat>, conv: Conv): nat {
    if conv in gen then gen[conv] else 0
  }

  ghost predicate InFlightFor(inflight: map<Key, nat>, conv: Conv) {
    exists k | k in inflight :: KeyFor(k, conv)
  }

  datatype Lookup = Hit(target: Target) | Wait(call: nat) | Fetch(gen: nat)

  function Looked(p: Proxy, conv: Conv, key: Key, now: real, call: nat): (Lookup, Proxy) {
    if key in p.cache && now < p.cache[key].expires then (Hit(p.cache[key].target), p)
    else if key in p.inflight then (Wait(p.inflight[key]), p)
    else (Fetch(GenOf(p.gen, conv)), p.(inflight := p.inflight[key := call]))
  }

  function Ttl(t: Target): (s: real)
    ensures 0.0 < s <= MAX_TTL
  {
    var s := t.ttlMs as real / 1000.0;
    if s <= 0.0 || s > MAX_TTL then MAX_TTL else s
  }

  function Unexpired(cache: map<Key, Entry>, now: real): map<Key, Entry> {
    map k | k in cache && now < cache[k].expires :: cache[k]
  }

  function Pruned(p: Proxy, now: real): (q: Proxy)
    ensures |q.cache| < CACHE_MAX
  {
    var kept := Unexpired(p.cache, now);
    p.(cache := if |kept| >= CACHE_MAX then map[] else kept,
       touched := RecentTouches(p.touched, now))
  }

  function RecentTouches(touched: map<Conv, real>, now: real): map<Conv, real> {
    map c | c in touched && now - touched[c] < TOUCH_INTERVAL :: touched[c]
  }

  /** A fetch ends: its answer counts only if the counter has not moved since it began. */
  ghost function Ended(p: Proxy, conv: Conv, key: Key, gen: nat, answer: Option<Target>,
                       now: real): (Option<Target>, Proxy)
  {
    var t := if GenOf(p.gen, conv) != gen then None else answer;
    var inflight := p.inflight - {key};
    var p1 := p.(inflight := inflight, gen := if InFlightFor(inflight, conv) then p.gen else p.gen - {conv});
    (t, if t.None? then p1 else Stored(p1, key, t.value, now))
  }

  function Stored(p: Proxy, key: Key, t: Target, now: real): Proxy {
    var p2 := if |p.cache| >= CACHE_MAX then Pruned(p, now) else p;
    p2.(cache := p2.cache[key := Entry(t, now + Ttl(t))], touched := p2.touched[t.conversation := now])
  }

  ghost function Invalidated(p: Proxy, conv: Conv): Proxy {
    p.(gen := if InFlightFor(p.inflight, conv) then p.gen[conv := GenOf(p.gen, conv) + 1] else p.gen,
       cache := WithoutConv(p.cache, conv))
  }

  function WithoutConv(cache: map<Key, Entry>, conv: Conv): map<Key, Entry> {
    map k | k in cache && !KeyFor(k, conv) :: cache[k]
  }

  predicate MayTouch(p: Proxy, conv: Conv, now: real) {
    conv !in p.touched || now - p.touched[conv] >= TOUCH_INTERVAL
  }

  function Touched(p: Proxy, conv: Conv, now: real): Proxy {
    if MayTouch(p, conv, now) then p.(touched := p.touched[conv := now]) else p
  }

  /** The proxy's state under its lock. */
  class Direct {
    var cache: map<Key, Entry>
    var inflight: map<Key, nat>
    var gen: map<Conv, nat>
    var touched: map<Conv, real>

    ghost function View(): Proxy reads this {
      Proxy(cache, inflight, gen, touched)
    }

    constructor ()
      ensures View() == Proxy(map[], map[], map[], map[])
    {
      cache, inflight, gen, touched := map[], map[], map[], map[];
    }

    method Begin(conv: Conv, key: Key, now: real, call: nat) returns (r: Lookup)
      modifies this
      ensures (r, View()) == Looked(old(View()), conv, key, now, call)
    {
      if key in cache && now < cache[key].expires { return Hit(cache[key].target); }
      if key in inflight { return Wait(inflight[key]); }
      inflight := inflight[key := call];
      r := Fetch(if conv in gen then gen[conv] else 0);
    }

    method AnyInFlight(conv: Conv) returns (found: bool)
      ensures found <==> InFlightFor(inflight, conv)
    {
      var todo := inflight.Keys;
      while todo != {}
        invariant todo <= inflight.Keys && forall k | k in inflight && k !in todo :: !KeyFor(k, conv)
        decreases |todo|
      {
        var k :| k in todo;
        if KeyFor(k, conv) { return true; }
        todo := todo - {k};
      }
      found := false;
    }

    method Prune(now: real)
      modifies this`cache, this`touched
      ensures View() == Pruned(old(View()), now)
    {
      var todo, was := cache.Keys, cache;
      while todo != {}
        invariant todo <= was.Keys && cache.Keys <= was.Keys && forall k | k in cache :: cache[k] == was[k]
        invariant forall k | k in was :: k in cache <==> k in todo || now < was[k].expires
        invariant touched == old(touched)
        decreases |todo|
      {
        var k :| k in todo;
        todo := todo - {k};
        if now >= was[k].expires { cache := cache - {k}; }
      }
      assert cache == Unexpired(was, now);
      if |cache| >= CACHE_MAX { cache := map[]; }
      PruneTouched(now);
    }

    method PruneTouched(now: real)
      modifies this`touched
      ensures touched == RecentTouches(old(touched), now)
    {
      var todo, was := touched.Keys, touched;
      while todo != {}
        invariant todo <= was.Keys && touched.Keys <= was.Keys && forall c | c in touched :: touched[c] == was[c]
        invariant forall c | c in was :: c in touched <==> c in todo || now - was[c] < TOUCH_INTERVAL
        decreases |todo|
      {
        var c :| c in todo;
        todo := todo - {c};
        if now - was[c] >= TOUCH_INTERVAL { touched := touched - {c}; }
      }
      assert touched == RecentTouches(was, now);
    }

    method End(conv: Conv, key: Key, seen: nat, answer: Option<Target>, now: real) returns (t: Option<Target>)
      modifies this
      ensures (t, View()) == Ended(old(View()), conv, key, seen, answer, now)
    {
      t := answer;
      inflight := inflight - {key};
      if (if conv in gen then gen[conv] else 0) != seen { t := None; }
      var busy := AnyInFlight(conv);
      if !busy { gen := gen - {conv}; }
      if t.Some? {
        Put(key, t.value, now);
      }
    }

    method Put(key: Key, t: Target, now: real)
      modifies this`cache, this`touched
      ensures View() == Stored(old(View()), key, t, now)
    {
      if |cache| >= CACHE_MAX { Prune(now); }
      cache := cache[key := Entry(t, now + Ttl(t))];
      touched := touched[t.conversation := now];
    }

    method Invalidate(conv: Conv)
      modifies this`gen, this`cache
      ensures View() == Invalidated(old(View()), conv)
    {
      var busy := AnyInFlight(conv);
      if busy { gen := gen[conv := (if conv in gen then gen[conv] else 0) + 1]; }
      DropKeys(conv);
    }

    method DropKeys(conv: Conv)
      modifies this`cache
      ensures cache == WithoutConv(old(cache), conv)
    {
      var todo, was := cache.Keys, cache;
      while todo != {}
        invariant todo <= was.Keys && cache.Keys <= was.Keys && forall k | k in cache :: cache[k] == was[k]
        invariant forall k | k in was :: k in cache <==> k in todo || !KeyFor(k, conv)
        decreases |todo|
      {
        var k :| k in todo;
        todo := todo - {k};
        if KeyFor(k, conv) { cache := cache - {k}; }
      }
      assert cache == WithoutConv(was, conv);
    }

    method Touch(conv: Conv, now: real) returns (report: bool)
      modifies this`touched
      ensures report <==> MayTouch(old(View()), conv, now)
      ensures View() == Touched(old(View()), conv, now)
    {
      report := !(conv in touched && now - touched[conv] < TOUCH_INTERVAL);
      if report { touched := touched[conv := now]; }
    }
  }
}
