/** The message limit over runs whose calls reach the lock out of clock order, as they may: the clock is
    read before the lock is taken. */
module LimiterRuns {
  import opened Wrappers
  import opened Limiter

  datatype Call = Call(conv: Conv, now: real)

  /** What the limiter keeps, and all it ever accepted. */
  datatype Book = Book(sent: map<Conv, seq<real>>, accepted: map<Conv, seq<real>>)

  function Serve(b: Book, n: int, call: Call): Book {
    var r := Allow(b.sent, n, call.conv, call.now);
    Book(r.1, if r.0 then Noted(b.accepted, call.conv, call.now) else b.accepted)
  }

  function ServeAll(n: int, calls: seq<Call>): Book {
    if calls == [] then Book(map[], map[]) else Serve(ServeAll(n, calls[..|calls| - 1]), n, calls[|calls| - 1])
  }

  function Repeat(x: real, n: nat): seq<real> {
    seq(n, _ => x)
  }

  function Calls(conv: Conv, now: real, n: nat): seq<Call> {
    seq(n, _ => Call(conv, now))
  }

  lemma ServeSnoc(n: int, calls: seq<Call>, call: Call)
    ensures ServeAll(n, calls + [call]) == Serve(ServeAll(n, calls), n, call)
  {
    assert (calls + [call])[..|calls|] == calls;
  }

  /** An accepted call while few conversations are kept. */
  lemma Accepted(b: Book, n: int, conv: Conv, now: real, recent: seq<real>)
    requires recent == Recent(At(b.sent, conv), now) && |recent| < n && |b.sent.Keys + {conv}| <= MAX_CONVERSATIONS
    ensures |b.sent[conv := recent + [now]]| <= MAX_CONVERSATIONS
    ensures Serve(b, n, Call(conv, now)) == Book(b.sent[conv := recent + [now]], Noted(b.accepted, conv, now))
  {
    var more := b.sent[conv := recent + [now]];
    assert more.Keys == b.sent.Keys + {conv} && |more| == |more.Keys|;
  }

  lemma {:induction false} RepeatIsRecent(x: real, n: nat, now: real)
    ensures Recent(Repeat(x, n), now) == if now - x < MINUTE then Repeat(x, n) else []
  {
    if n > 0 {
      assert Repeat(x, n)[..n - 1] == Repeat(x, n - 1);
      RepeatIsRecent(x, n - 1, now);
      assert Repeat(x, n - 1) + [x] == Repeat(x, n);
    }
  }

  /** Up to the limit, messages of one moment are all accepted. */
  lemma {:induction false} FirstBurst(n: int, conv: Conv, now: real, k: nat)
    requires 0 < k <= n
    ensures ServeAll(n, Calls(conv, now, k)) == Book(map[conv := Repeat(now, k)], map[conv := Repeat(now, k)])
    decreases k
  {
    assert Calls(conv, now, k) == Calls(conv, now, k - 1) + [Call(conv, now)];
    ServeSnoc(n, Calls(conv, now, k - 1), Call(conv, now));
    if k > 1 {
      FirstBurst(n, conv, now, k - 1);
    } else {
      assert Calls(conv, now, 0) == [];
    }
    OneMore(ServeAll(n, Calls(conv, now, k - 1)), n, conv, now, k - 1);
  }

  lemma OneMore(b: Book, n: int, conv: Conv, now: real, k: nat)
    requires k < n && At(b.sent, conv) == Repeat(now, k) == At(b.accepted, conv)
    requires b.sent.Keys <= {conv} && b.accepted.Keys <= {conv}
    ensures Serve(b, n, Call(conv, now)) == Book(map[conv := Repeat(now, k + 1)], map[conv := Repeat(now, k + 1)])
  {
    RepeatIsRecent(now, k, now);
    assert b.sent.Keys + {conv} == {conv} && Repeat(now, k + 1) == Repeat(now, k) + [now];
    Accepted(b, n, conv, now, Repeat(now, k));
    assert b.sent[conv := Repeat(now, k + 1)] == map[conv := Repeat(now, k + 1)];
    assert Noted(b.accepted, conv, now) == map[conv := Repeat(now, k + 1)];
  }

  lemma {:induction false} NonePreceding(x: real, n: nat, now: real)
    requires x > now
    ensures Preceding(Repeat(x, n), now) == 0
  {
    if n > 0 {
      assert Repeat(x, n)[..n - 1] == Repeat(x, n - 1);
      NonePreceding(x, n - 1, now);
    }
  }

  /** A late call can be refused though nothing was accepted in the minute before it: whatever the limit
      and however little it is late. */
  lemma LateCallRefused(n: int, late: real)
    requires n >= 1 && late > 0.0
    ensures var b := ServeAll(n, Calls("c", late, n));
      Preceding(At(b.accepted, "c"), 0.0) == 0 && !Allow(b.sent, n, "c", 0.0).0
  {
    FirstBurst(n, "c", late, n);
    NonePreceding(late, n, 0.0);
    RepeatIsRecent(late, n, 0.0);
  }

  lemma {:induction false} AllInWindow(x: real, n: nat, t: real)
    requires t <= x < t + MINUTE
    ensures InWindow(Repeat(x, n), t) == n
  {
    if n > 0 {
      assert Repeat(x, n)[..n - 1] == Repeat(x, n - 1);
      AllInWindow(x, n - 1, t);
    }
  }

  /** A time a minute or more on, from which going back by `late` leads into the first minute. */
  function Later(late: real): (mid: real)
    requires late > 0.0
    ensures mid >= MINUTE && 0.0 <= mid - late < MINUTE
  {
    if late > MINUTE then late else MINUTE
  }

  /** A full burst, one message when it is old, and then one that is late. */
  function LateRun(n: nat, late: real): seq<Call>
    requires late > 0.0
  {
    Calls("c", 0.0, n) + [Call("c", Later(late))] + [Call("c", Later(late) - late)]
  }

  /** With a limit of two or more, a call late by any amount can take one minute over the limit: the one
      before it threw away the times it needed. */
  lemma LateCallBreaksLimit(n: nat, late: real)
    requires n >= 2 && late > 0.0
    ensures InWindow(At(ServeAll(n, LateRun(n, late)).accepted, "c"), 0.0) == n + 1
  {
    var mid, burst := Later(late), Repeat(0.0, n);
    var last := mid - late;
    var so := Calls("c", 0.0, n) + [Call("c", mid)];
    FirstBurst(n, "c", 0.0, n);
    ServeSnoc(n, Calls("c", 0.0, n), Call("c", mid));
    MinuteLater(Book(map["c" := burst], map["c" := burst]), n, mid);
    ServeSnoc(n, so, Call("c", last));
    LateAccepted(Book(map["c" := [mid]], map["c" := burst + [mid]]), n, mid, last);
    CountLateRun(n, mid, last);
  }

  lemma MinuteLater(b: Book, n: nat, mid: real)
    requires n >= 2 && mid >= MINUTE && b == Book(map["c" := Repeat(0.0, n)], map["c" := Repeat(0.0, n)])
    ensures Serve(b, n, Call("c", mid)) == Book(map["c" := [mid]], map["c" := Repeat(0.0, n) + [mid]])
  {
    RepeatIsRecent(0.0, n, mid);
    assert b.sent.Keys + {"c"} == {"c"};
    Accepted(b, n, "c", mid, []);
    assert [] + [mid] == [mid];
    assert b.sent["c" := [mid]] == map["c" := [mid]];
    assert Noted(b.accepted, "c", mid) == map["c" := Repeat(0.0, n) + [mid]];
  }

  lemma LateAccepted(b: Book, n: nat, mid: real, last: real)
    requires n >= 2 && b.sent == map["c" := [mid]] && "c" in b.accepted && last < mid
    ensures At(Serve(b, n, Call("c", last)).accepted, "c") == b.accepted["c"] + [last]
  {
    assert Recent([mid][..0], last) == [] && Recent([mid], last) == [] + [mid];
    assert b.sent.Keys + {"c"} == {"c"};
    Accepted(b, n, "c", last, [mid]);
  }

  lemma CountLateRun(n: nat, mid: real, last: real)
    requires 0.0 <= last < MINUTE <= mid
    ensures InWindow(Repeat(0.0, n) + [mid] + [last], 0.0) == n + 1
  {
    var burst := Repeat(0.0, n);
    var h := burst + [mid] + [last];
    assert h[..n + 1] == burst + [mid] && (burst + [mid])[..n] == burst;
    AllInWindow(0.0, n, 0.0);
  }

  // ----- a limit of one ------------------------------------------------------

  function Callers(calls: seq<Call>): set<Conv> {
    set call | call in calls :: call.conv
  }

  /** What is kept of a conversation is its last accepted time, and those only rise by minutes. */
  ghost predicate Single(kept: seq<real>, h: seq<real>) {
    && kept == (if h == [] then [] else [h[|h| - 1]])
    && forall i, j | 0 <= i < j < |h| :: h[j] - h[i] >= MINUTE
  }

  lemma SingleRecent(kept: seq<real>, h: seq<real>, now: real)
    requires Single(kept, h)
    ensures Recent(kept, now) == kept || (h != [] && now - h[|h| - 1] >= MINUTE && Recent(kept, now) == [])
    ensures Recent(kept, now) == [] ==> Single([now], h + [now])
  {
    if h != [] { assert kept[..0] == [] && Recent(kept[..0], now) == []; }
  }

  ghost predicate SingleAll(b: Book) {
    forall c :: Single(At(b.sent, c), At(b.accepted, c))
  }

  lemma OneServed(b: Book, call: Call)
    requires SingleAll(b) && |b.sent.Keys + {call.conv}| <= MAX_CONVERSATIONS
    ensures SingleAll(Serve(b, 1, call)) && Serve(b, 1, call).sent.Keys <= b.sent.Keys + {call.conv}
  {
    var kept, h := At(b.sent, call.conv), At(b.accepted, call.conv);
    var recent := Recent(kept, call.now);
    assert Single(kept, h);
    SingleRecent(kept, h, call.now);
    if recent == [] {
      Accepted(b, 1, call.conv, call.now, []);
      assert [] + [call.now] == [call.now];
      SingleUpdate(b, Book(b.sent[call.conv := [call.now]], Noted(b.accepted, call.conv, call.now)), call.conv,
        [call.now], h + [call.now]);
    } else {
      Refused(b, call.conv, call.now, kept);
      SingleUpdate(b, Book(b.sent[call.conv := kept], b.accepted), call.conv, kept, h);
    }
  }

  lemma Refused(b: Book, conv: Conv, now: real, recent: seq<real>)
    requires recent == Recent(At(b.sent, conv), now) && |recent| >= 1
    ensures Serve(b, 1, Call(conv, now)) == Book(b.sent[conv := recent], b.accepted)
  {}

  lemma SingleUpdate(b: Book, b': Book, conv: Conv, kept: seq<real>, h: seq<real>)
    requires SingleAll(b) && Single(kept, h) && At(b'.sent, conv) == kept && At(b'.accepted, conv) == h
    requires forall c | c != conv :: At(b'.sent, c) == At(b.sent, c) && At(b'.accepted, c) == At(b.accepted, c)
    ensures SingleAll(b')
  {
    forall c ensures Single(At(b'.sent, c), At(b'.accepted, c)) {
      assert Single(At(b.sent, c), At(b.accepted, c));
    }
  }

  lemma {:induction false} OneInAnyOrder(calls: seq<Call>)
    requires |Callers(calls)| <= MAX_CONVERSATIONS
    ensures SingleAll(ServeAll(1, calls)) && ServeAll(1, calls).sent.Keys <= Callers(calls)
    decreases |calls|
  {
    if calls != [] {
      var init, last := calls[..|calls| - 1], calls[|calls| - 1];
      assert calls == init + [last] && Callers(calls) == Callers(init) + {last.conv};
      SubsetIsSmaller(Callers(init), Callers(calls));
      OneInAnyOrder(init);
      SubsetIsSmaller(ServeAll(1, init).sent.Keys + {last.conv}, Callers(calls));
      OneServed(ServeAll(1, init), last);
    }
  }

  /** With a limit of one, no minute sees more than one message in whatever order calls come, as long as
      no more conversations send than are ever kept. */
  lemma LimitOfOneHolds(calls: seq<Call>, c: Conv, t: real)
    requires |Callers(calls)| <= 4096
    ensures InWindow(At(ServeAll(1, calls).accepted, c), t) <= 1
  {
    OneInAnyOrder(calls);
    assert Single(At(ServeAll(1, calls).sent, c), At(ServeAll(1, calls).accepted, c));
    WindowHoldsAtMost(At(ServeAll(1, calls).accepted, c), 1, t);
  }

  /** Names for any number of conversations. */
  function Nth(k: nat): Conv {
    seq(k, _ => 'c')
  }

  function Crowd(k: nat): seq<Call> {
    seq(k, i requires 0 <= i < k => Call(Nth(i), 0.0))
  }

  function Everyone(k: nat): map<Conv, seq<real>> {
    if k == 0 then map[] else Everyone(k - 1)[Nth(k - 1) := [0.0]]
  }

  lemma {:induction false} EveryoneSize(k: nat)
    ensures |Everyone(k)| == k && forall c | c in Everyone(k) :: |c| < k && Everyone(k)[c] == [0.0]
    ensures k > 0 ==> Nth(0) in Everyone(k)
  {
    if k > 0 {
      EveryoneSize(k - 1);
      assert |Nth(k - 1)| == k - 1;
      assert Everyone(k).Keys == Everyone(k - 1).Keys + {Nth(k - 1)};
      assert |Everyone(k)| == |Everyone(k).Keys| && |Everyone(k - 1)| == |Everyone(k - 1).Keys|;
    }
  }

  lemma {:induction false} CrowdServed(k: nat)
    requires k <= MAX_CONVERSATIONS
    ensures ServeAll(1, Crowd(k)) == Book(Everyone(k), Everyone(k))
    decreases k
  {
    if k > 0 {
      CrowdServed(k - 1);
      var before, call := Crowd(k - 1), Call(Nth(k - 1), 0.0);
      assert Crowd(k) == before + [call];
      NewcomerServed(Book(Everyone(k - 1), Everyone(k - 1)), k - 1);
      ServeSnoc(1, before, call);
    }
  }

  lemma NewcomerServed(b: Book, k: nat)
    requires k < MAX_CONVERSATIONS && b.sent == Everyone(k) && b.accepted == Everyone(k)
    ensures Serve(b, 1, Call(Nth(k), 0.0)) == Book(Everyone(k + 1), Everyone(k + 1))
    ensures Allow(b.sent, 1, Nth(k), 0.0) == (true, Everyone(k + 1))
  {
    NewcomerJoins(k);
    Accepted(b, 1, Nth(k), 0.0, []);
    assert [] + [0.0] == [0.0];
  }

  lemma NewcomerJoins(k: nat)
    ensures Nth(k) !in Everyone(k) && |Everyone(k).Keys + {Nth(k)}| == k + 1
    ensures Everyone(k + 1) == Everyone(k)[Nth(k) := [0.0]]
  {
    EveryoneSize(k);
    assert |Nth(k)| == k && Nth(k) !in Everyone(k);
    assert |Everyone(k)| == |Everyone(k).Keys|;
  }

  /** One conversation more, and a call late by any amount takes a minute over a limit of one: forgetting idle
      conversations threw away the time it needed. */
  lemma CrowdBreaksLimitOfOne(late: real) returns (calls: seq<Call>)
    requires late > 0.0
    ensures |calls| == 4098
    ensures InWindow(At(ServeAll(1, calls).accepted, Nth(0)), 0.0) == 2
  {
    var k, mid := MAX_CONVERSATIONS, Later(late);
    var stranger, last := Call(Nth(k), mid), Call(Nth(0), mid - late);
    calls := Crowd(k) + [stranger] + [last];
    CrowdServed(k);
    StrangerEvicts(k, mid);
    ServeSnoc(1, Crowd(k), stranger);
    ServeSnoc(1, Crowd(k) + [stranger], last);
    LateAfterEviction(ServeAll(1, Crowd(k) + [stranger]), mid - late);
  }

  lemma LateAfterEviction(b: Book, now: real)
    requires Nth(0) !in b.sent && |b.sent| <= 1 && At(b.accepted, Nth(0)) == [0.0] && 0.0 <= now < MINUTE
    ensures InWindow(At(Serve(b, 1, Call(Nth(0), now)).accepted, Nth(0)), 0.0) == 2
  {
    assert |b.sent.Keys| == |b.sent| && |b.sent.Keys + {Nth(0)}| <= 2;
    Accepted(b, 1, Nth(0), now, []);
    var h := [0.0] + [now];
    assert h[..1] == [0.0] && [0.0][..0] == [] && InWindow([0.0], 0.0) == 1;
  }

  /** Of a crowd whose times are all old, only the newcomer is kept. */
  lemma OnlyNewcomerAwake(all: map<Conv, seq<real>>, x: Conv, mid: real)
    requires mid >= MINUTE && x !in all && forall c | c in all :: all[c] == [0.0]
    ensures Awake(all[x := [mid]], mid).Keys <= {x} && |Awake(all[x := [mid]], mid)| <= 1
  {
    var awake := Awake(all[x := [mid]], mid);
    SubsetIsSmaller(awake.Keys, {x});
    assert |awake| == |awake.Keys|;
  }

  lemma StrangerEvicts(k: nat, mid: real)
    requires k == MAX_CONVERSATIONS && mid >= MINUTE
    ensures var r := Allow(Everyone(k), 1, Nth(k), mid); r.0 && Nth(0) !in r.1 && |r.1| <= 1
    ensures Nth(0) in Everyone(k) && Nth(0) != Nth(k) && Everyone(k)[Nth(0)] == [0.0]
  {
    EveryoneSize(k);
    NewcomerJoins(k);
    OnlyNewcomerAwake(Everyone(k), Nth(k), mid);
    var more := Everyone(k)[Nth(k) := [mid]];
    assert [] + [mid] == [mid] && more.Keys == Everyone(k).Keys + {Nth(k)} && |more| == |more.Keys|;
    assert |Nth(0)| == 0 && |Nth(k)| == k;
  }
}
