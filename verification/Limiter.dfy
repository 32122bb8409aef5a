/** The sandbox message limit: a sliding one-minute window per conversation, compacted in place and
    forgotten when idle. */
module Limiter {

  type Conv = string

  const MINUTE := 60.0
  const MAX_CONVERSATIONS := 4096

  ghost predicate Sorted(s: seq<real>) {
    forall i, j | 0 <= i < j < |s| :: s[i] <= s[j]
  }

  ghost predicate Before(s: seq<real>, now: real) {
    forall i | 0 <= i < |s| :: s[i] <= now
  }

  /** The times less than a minute old. */
  function Recent(s: seq<real>, now: real): (r: seq<real>)
    ensures |r| <= |s|
  {
    if s == [] then [] else
      var init, last := s[..|s| - 1], s[|s| - 1];
      if now - last < MINUTE then Recent(init, now) + [last] else Recent(init, now)
  }

  /** In a sorted sequence the recent times are a suffix, and all before it is old. */
  lemma {:induction false} RecentIsSuffix(s: seq<real>, now: real)
    requires Sorted(s)
    ensures var k := |s| - |Recent(s, now)|; Recent(s, now) == s[k..] && (forall i | 0 <= i < k :: now - s[i] >= MINUTE)
    decreases |s|
  {
    if s != [] {
      var init, last := s[..|s| - 1], s[|s| - 1];
      RecentIsSuffix(init, now);
      var k := |init| - |Recent(init, now)|;
      if now - last >= MINUTE {
        forall i | 0 <= i < |s| ensures now - s[i] >= MINUTE { assert i < |init| ==> s[i] <= last; }
        AllOld(s, now);
      } else {
        assert init[k..] + [last] == s[k..];
        forall i | 0 <= i < k ensures now - s[i] >= MINUTE { assert s[i] == init[i]; }
      }
    }
  }

  lemma {:induction false} AllOld(s: seq<real>, now: real)
    requires forall i | 0 <= i < |s| :: now - s[i] >= MINUTE
    ensures Recent(s, now) == []
    decreases |s|
  {
    if s != [] { AllOld(s[..|s| - 1], now); }
  }

  /** Looking again later loses nothing that looking once would have kept. */
  lemma {:induction false} RecentTwice(s: seq<real>, now: real, later: real)
    requires now <= later
    ensures Recent(Recent(s, now), later) == Recent(s, later)
    decreases |s|
  {
    if s != [] {
      var init, last := s[..|s| - 1], s[|s| - 1];
      RecentTwice(init, now, later);
      if now - last < MINUTE {
        var r := Recent(init, now);
        assert (r + [last])[..|r|] == r;
      }
    }
  }

  lemma RecentAppend(s: seq<real>, t: real, now: real)
    ensures Recent(s + [t], now) == if now - t < MINUTE then Recent(s, now) + [t] else Recent(s, now)
  {
    assert (s + [t])[..|s|] == s;
  }

  /** The first loop of `allowMessage`, in the slice's own storage. */
  method CompactInPlace(a: array<real>, now: real) returns (m: nat)
    modifies a
    ensures m <= a.Length && a[..m] == Recent(old(a[..]), now)
  {
    m := 0;
    for i := 0 to a.Length
      invariant m <= i && a[..m] == Recent(old(a[..])[..i], now)
      invariant a[i..] == old(a[..])[i..]
    {
      ghost var was := old(a[..]);
      assert was[..i + 1][..i] == was[..i] && a[i] == a[i..][0] == was[i];
      if now - a[i] < MINUTE {
        a[m] := a[i];
        m := m + 1;
      }
    }
    assert old(a[..])[..a.Length] == old(a[..]);
  }

  // ----- the promise ---------------------------------------------------------

  /** No message within a minute of the one `n` before it. */
  ghost predicate Limited(h: seq<real>, n: int) {
    forall i, j | 0 <= i < j < |h| && i + n <= j :: h[j] - h[i] >= MINUTE
  }

  /** Accepting exactly when fewer than `n` were accepted in the last minute keeps the limit. */
  lemma AcceptKeepsLimited(h: seq<real>, n: int, now: real)
    requires Sorted(h) && Limited(h, n) && |Recent(h, now)| < n && Before(h, now)
    ensures Sorted(h + [now]) && Limited(h + [now], n)
  {
    RecentIsSuffix(h, now);
  }

  /** How many fall into the minute from `t` on. */
  function InWindow(h: seq<real>, t: real): nat {
    if h == [] then 0
    else InWindow(h[..|h| - 1], t) + if t <= h[|h| - 1] < t + 60.0 then 1 else 0
  }

  /** Accepted in the sixty seconds up to `now`. */
  function Preceding(h: seq<real>, now: real): nat {
    if h == [] then 0
    else Preceding(h[..|h| - 1], now) + if now - 60.0 < h[|h| - 1] <= now then 1 else 0
  }

  lemma {:induction false} CountsPreceding(h: seq<real>, now: real)
    requires Before(h, now)
    ensures |Recent(h, now)| == Preceding(h, now)
    decreases |h|
  {
    if h != [] { CountsPreceding(h[..|h| - 1], now); }
  }

  /** So no one-minute window, wherever it starts, holds more than `n` accepted messages. */
  lemma {:induction false} WindowHoldsAtMost(h: seq<real>, n: int, t: real)
    requires Limited(h, n) && n >= 1
    ensures InWindow(h, t) <= n
    decreases |h|
  {
    if h != [] {
      var init, last := h[..|h| - 1], h[|h| - 1];
      WindowHoldsAtMost(init, n, t);
      if t <= last < t + MINUTE {
        forall i | 0 <= i < |init| && t <= init[i] < t + MINUTE ensures i > |init| - n { assert h[i] == init[i]; }
        WindowFrom(init, t, if |init| - n + 1 > 0 then |init| - n + 1 else 0);
      }
    }
  }

  lemma {:induction false} WindowFrom(h: seq<real>, t: real, lo: nat)
    requires lo <= |h| && forall i | 0 <= i < |h| && t <= h[i] < t + MINUTE :: lo <= i
    ensures InWindow(h, t) <= |h| - lo
    decreases |h|
  {
    if h != [] {
      WindowFrom(h[..|h| - 1], t, if lo == |h| then lo - 1 else lo);
    }
  }

  function At(m: map<Conv, seq<real>>, conv: Conv): seq<real> {
    if conv in m then m[conv] else []
  }

  predicate Idle(ts: seq<real>, now: real) {
    |ts| == 0 || now - ts[|ts| - 1] >= MINUTE
  }

  lemma IdleHasNoRecent(ts: seq<real>, now: real)
    requires Sorted(ts) && Idle(ts, now)
    ensures Recent(ts, now) == []
  {
    AllOld(ts, now);
  }

  /** What is kept of a conversation's history `h` is what matters of it. */
  ghost predicate Remembers(kept: seq<real>, h: seq<real>, n: int, clock: real) {
    && Sorted(kept) && Sorted(h) && Limited(h, n)
    && Recent(kept, clock) == Recent(h, clock)
    && Before(h, clock) && Before(kept, clock)
  }

  /** Whether the kept times are compacted, left alone or dropped as idle, nothing is lost. */
  lemma StillRemembers(kept: seq<real>, h: seq<real>, n: int, clock: real, now: real)
    requires Remembers(kept, h, n, clock) && clock <= now
    ensures Remembers(kept, h, n, now)
    ensures Recent(Recent(kept, now), now) == Recent(h, now) && Sorted(Recent(kept, now)) &&
      Before(Recent(kept, now), now)
    ensures Idle(kept, now) ==> Recent(h, now) == []
  {
    RecentTwice(kept, clock, now);
    RecentTwice(h, clock, now);
    RecentTwice(kept, now, now);
    SuffixSorted(kept, now);
    if Idle(kept, now) { IdleHasNoRecent(kept, now); }
  }

  lemma SuffixSorted(s: seq<real>, now: real)
    requires Sorted(s) && Before(s, now)
    ensures Sorted(Recent(s, now)) && Before(Recent(s, now), now)
  {
    RecentIsSuffix(s, now);
    var k := |s| - |Recent(s, now)|;
    assert forall i | 0 <= i < |s| - k :: s[k..][i] == s[k + i];
  }

  lemma RemembersOnly(kept: seq<real>, h: seq<real>, n: int, clock: real, now: real)
    requires Remembers(kept, h, n, clock) && clock <= now
    ensures Remembers(Recent(kept, now), h, n, now)
    ensures Idle(kept, now) ==> Remembers([], h, n, now)
  {
    StillRemembers(kept, h, n, clock, now);
  }

  lemma AppendSorted(s: seq<real>, now: real)
    requires Sorted(s) && Before(s, now)
    ensures Sorted(s + [now]) && Before(s + [now], now)
  {}

  lemma AcceptRemembers(kept: seq<real>, h: seq<real>, n: int, now: real)
    requires Remembers(kept, h, n, now) && kept == Recent(h, now) && |kept| < n
    ensures Remembers(kept + [now], h + [now], n, now)
  {
    AppendSorted(kept, now);
    AppendSorted(h, now);
    AcceptKeepsLimited(h, n, now);
    RecentOfBoth(kept, h, now);
  }

  lemma RemembersUpdate(sent: map<Conv, seq<real>>, accepted: map<Conv, seq<real>>, conv: Conv, k: seq<real>,
                        h: seq<real>, n: int, now: real)
    requires RemembersAll(sent, accepted, n, now) && Remembers(k, h, n, now)
    ensures RemembersAll(sent[conv := k], accepted[conv := h], n, now)
  {
    var sent', accepted' := sent[conv := k], accepted[conv := h];
    forall c ensures Remembers(At(sent', c), At(accepted', c), n, now) {
      assert Remembers(At(sent, c), At(accepted, c), n, now);
    }
  }

  lemma RecentOfBoth(kept: seq<real>, h: seq<real>, now: real)
    requires Recent(kept, now) == Recent(h, now)
    ensures Recent(kept + [now], now) == Recent(h + [now], now)
  {
    RecentAppend(h, now, now);
    RecentAppend(kept, now, now);
  }

  ghost predicate RemembersAll(sent: map<Conv, seq<real>>, accepted: map<Conv, seq<real>>, n: int, clock: real) {
    forall c :: Remembers(At(sent, c), At(accepted, c), n, clock)
  }

  // ----- one call ------------------------------------------------------------

  /** Conversations with a message less than a minute old, judged by the last one kept. */
  function Awake(sent: map<Conv, seq<real>>, now: real): map<Conv, seq<real>> {
    map c | c in sent && !Idle(sent[c], now) :: sent[c]
  }

  /** Compact the conversation's times, count them, and forget idle conversations once there are many. */
  function Allow(sent: map<Conv, seq<real>>, n: int, conv: Conv, now: real): (bool, map<Conv, seq<real>>) {
    if n <= 0 then (true, sent)
    else
      var recent := Recent(At(sent, conv), now);
      if |recent| >= n then (false, sent[conv := recent])
      else
        var more := sent[conv := recent + [now]];
        (true, Trimmed(more, now))
  }

  function Trimmed(sent: map<Conv, seq<real>>, now: real): map<Conv, seq<real>> {
    if |sent| > MAX_CONVERSATIONS then Awake(sent, now) else sent
  }

  function Noted(accepted: map<Conv, seq<real>>, conv: Conv, now: real): map<Conv, seq<real>> {
    accepted[conv := At(accepted, conv) + [now]]
  }

  lemma CompactRemembers(sent: map<Conv, seq<real>>, accepted: map<Conv, seq<real>>, n: int, clock: real, conv: Conv,
                         now: real)
    requires RemembersAll(sent, accepted, n, clock) && clock <= now
    ensures RemembersAll(sent[conv := Recent(At(sent, conv), now)], accepted, n, now)
    ensures Recent(At(sent, conv), now) == Recent(At(accepted, conv), now)
  {
    var sent' := sent[conv := Recent(At(sent, conv), now)];
    forall c ensures Remembers(At(sent', c), At(accepted, c), n, now) {
      assert Remembers(At(sent, c), At(accepted, c), n, clock);
      StillRemembers(At(sent, c), At(accepted, c), n, clock, now);
      RemembersOnly(At(sent, c), At(accepted, c), n, clock, now);
    }
    assert Remembers(At(sent, conv), At(accepted, conv), n, clock);
    RecentTwice(At(sent, conv), clock, now);
    RecentTwice(At(accepted, conv), clock, now);
  }

  lemma AwakeRemembers(sent: map<Conv, seq<real>>, accepted: map<Conv, seq<real>>, n: int, now: real)
    requires RemembersAll(sent, accepted, n, now)
    ensures RemembersAll(Awake(sent, now), accepted, n, now)
  {
    forall c ensures Remembers(At(Awake(sent, now), c), At(accepted, c), n, now) {
      assert Remembers(At(sent, c), At(accepted, c), n, now);
      RemembersOnly(At(sent, c), At(accepted, c), n, now, now);
    }
  }

  /** In clock order a call is accepted exactly when fewer than `n` were in the preceding minute, and what
      is kept goes on telling all that matters. */
  lemma AllowInOrder(sent: map<Conv, seq<real>>, accepted: map<Conv, seq<real>>, n: int, clock: real, conv: Conv,
                     now: real)
    requires RemembersAll(sent, accepted, n, clock) && clock <= now && n > 0
    ensures var r := Allow(sent, n, conv, now);
      && (r.0 <==> Preceding(At(accepted, conv), now) < n)
      && RemembersAll(r.1, if r.0 then Noted(accepted, conv, now) else accepted, n, now)
  {
    var recent, h := Recent(At(sent, conv), now), At(accepted, conv);
    CompactRemembers(sent, accepted, n, clock, conv, now);
    assert Remembers(At(sent, conv), h, n, clock);
    CountsPreceding(h, now);
    if |recent| < n {
      AcceptedRemembers(sent, accepted, n, conv, recent, now);
      AwakeRemembers(sent[conv := recent + [now]], Noted(accepted, conv, now), n, now);
    }
  }

  lemma AcceptedRemembers(sent: map<Conv, seq<real>>, accepted: map<Conv, seq<real>>, n: int, conv: Conv,
                          recent: seq<real>, now: real)
    requires RemembersAll(sent[conv := recent], accepted, n, now) && |recent| < n
    requires recent == Recent(At(accepted, conv), now)
    ensures RemembersAll(sent[conv := recent + [now]], Noted(accepted, conv, now), n, now)
  {
    var kept, h := sent[conv := recent], At(accepted, conv);
    assert Remembers(At(kept, conv), h, n, now);
    AcceptRemembers(recent, h, n, now);
    RemembersUpdate(kept, accepted, conv, recent + [now], h + [now], n, now);
    assert kept[conv := recent + [now]] == sent[conv := recent + [now]];
  }

  /** The limiter.  `accepted` is every message it ever let through under a limit, `clock` the last time it
      was asked for, and `ordered` whether the times it was asked for never went back. */
  class MessageLimiter {
    const perMinute: int
    var sent: map<Conv, seq<real>>
    ghost var accepted: map<Conv, seq<real>>
    ghost var clock: real
    ghost var ordered: bool

    ghost predicate Valid() reads this {
      perMinute > 0 && ordered ==> RemembersAll(sent, accepted, perMinute, clock)
    }

    constructor (perMinute: int, now: real)
      ensures Valid() && this.perMinute == perMinute && sent == map[] && accepted == map[] && clock == now && ordered
    {
      this.perMinute := perMinute;
      sent, accepted, clock, ordered := map[], map[], now, true;
    }

    /** Any call, whatever its time: what it answers and what it keeps.  As long as no call was late, it
        accepts exactly when fewer than the limit were accepted in the preceding minute. */
    method AllowMessage(conv: Conv, now: real) returns (ok: bool)
      requires Valid()
      modifies this
      ensures Valid() && clock == now && ordered == (old(ordered) && old(clock) <= now)
      ensures (ok, sent) == Allow(old(sent), perMinute, conv, now)
      ensures accepted == if ok && perMinute > 0 then Noted(old(accepted), conv, now) else old(accepted)
      ensures ordered ==> (ok <==> perMinute <= 0 || Preceding(At(old(accepted), conv), now) < perMinute)
    {
      ghost var inOrder := ordered && clock <= now;
      if inOrder && perMinute > 0 { AllowInOrder(sent, accepted, perMinute, clock, conv, now); }
      ok := true;
      if perMinute > 0 {
        ok := Decide(conv, now);
        if ok { accepted := Noted(accepted, conv, now); }
      }
      clock, ordered := now, inOrder;
    }

    /** The critical section. */
    method Decide(conv: Conv, now: real) returns (ok: bool)
      requires perMinute > 0
      modifies this`sent
      ensures (ok, sent) == Allow(old(sent), perMinute, conv, now)
    {
      var ts := At(sent, conv);
      var buffer := new real[|ts|](i requires 0 <= i < |ts| => ts[i]);
      assert buffer[..] == ts;
      var m := CompactInPlace(buffer, now);
      var recent := buffer[..m];
      if m >= perMinute {
        sent := sent[conv := recent];
        return false;
      }
      sent := sent[conv := recent + [now]];
      if |sent| > MAX_CONVERSATIONS { Evict(now); }
      ok := true;
    }

    /** Forgets conversations idle for a minute. */
    method Evict(now: real)
      modifies this`sent
      ensures sent == Awake(old(sent), now)
    {
      var todo, was := sent.Keys, sent;
      while todo != {}
        invariant todo <= was.Keys && sent.Keys <= was.Keys
        invariant forall c | c in sent :: sent[c] == was[c]
        invariant forall c | c in was :: c in sent <==> c in todo || !Idle(was[c], now)
        decreases |todo|
      {
        var id :| id in todo;
        todo := todo - {id};
        if Idle(was[id], now) { sent := sent - {id}; }
      }
      assert sent == Awake(was, now);
    }

    /** As long as no call was late, no minute saw more than the limit. */
    lemma NoMinuteOverLimit(conv: Conv, t: real)
      requires Valid() && perMinute > 0 && ordered
      ensures InWindow(At(accepted, conv), t) <= perMinute
    {
      assert Remembers(At(sent, conv), At(accepted, conv), perMinute, clock);
      WindowHoldsAtMost(At(accepted, conv), perMinute, t);
    }
  }
}
