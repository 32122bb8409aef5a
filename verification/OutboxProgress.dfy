/** That the outbox gets somewhere: while the broker stores what it is sent and the agent's inbox takes messages,
    two passes of the worker empty the queue, with every remark stored and announced. */
module OutboxProgress {
  import opened Outbox
  import opened OutboxProofs

  /** A step of a worker to whom nothing goes wrong. */
  predicate GoesWell(e: Event) {
    || e.FlushStart? || e.Skip? || e.Begin? || e.PushOk? || e.NoticesStart? || e.Arrive?
    || (e.SendEnds? && e.outcome == Answered) || (e.FlushEnd? && e.save)
  }

  ghost predicate RunsWell(w: World, events: seq<Event>, w': World)
    decreases |events|
  {
    if events == [] then w' == w
    else GoesWell(events[0]) && Enabled(w, events[0]) && RunsWell(Apply(w, events[0]), events[1..], w')
  }

  lemma WellFirst(w: World, e: Event, w1: World, events: seq<Event>, w': World)
    requires GoesWell(e) && Enabled(w, e) && w1 == Apply(w, e) && RunsWell(w1, events, w')
    ensures RunsWell(w, [e] + events, w')
  {
    assert ([e] + events)[1..] == events;
  }

  lemma {:induction false} WellJoin(w: World, a: seq<Event>, w1: World, b: seq<Event>, w2: World)
    requires RunsWell(w, a, w1) && RunsWell(w1, b, w2)
    ensures RunsWell(w, a + b, w2)
    decreases |a|
  {
    if a == [] {
      assert a + b == b;
    } else {
      var e, w' := a[0], Apply(w, a[0]);
      assert a + b == [e] + (a[1..] + b);
      WellJoin(w', a[1..], w1, b, w2);
      WellFirst(w, e, w', a[1..] + b, w2);
    }
  }

  lemma {:induction false} WellReaches(w: World, events: seq<Event>, w': World)
    requires RunsWell(w, events, w')
    ensures Reaches(w, events, w')
    decreases |events|
  {
    if events != [] { WellReaches(Apply(w, events[0]), events[1..], w'); }
  }

  // ----- the queue by kind ---------------------------------------------------

  function OfKind(queue: seq<Op>, notices: bool): seq<Op> {
    if queue == [] then []
    else if (queue[0].kind == Notify) == notices then [queue[0]] + OfKind(queue[1..], notices)
    else OfKind(queue[1..], notices)
  }

  ghost predicate AllDue(queue: seq<Op>, now: real) {
    forall q | q in queue :: q.next <= now
  }

  lemma {:induction false} DueIsOfKind(queue: seq<Op>, now: real, notices: bool)
    requires AllDue(queue, now)
    ensures Due(queue, now, notices) == OfKind(queue, notices)
  {
    if queue != [] {
      assert queue[0] in queue && forall q | q in queue[1..] :: q in queue;
      DueIsOfKind(queue[1..], now, notices);
    }
  }

  /** The first operation that is no notice goes, and it alone. */
  lemma {:induction false} DropFirstOther(queue: seq<Op>, op: Op)
    requires OfKind(queue, false) != [] && OfKind(queue, false)[0] == op
    ensures OfKind(Drop(queue, op), false) == OfKind(queue, false)[1..] &&
      OfKind(Drop(queue, op), true) == OfKind(queue, true)
    decreases |queue|
  {
    if queue[0].kind == Notify {
      DropFirstOther(queue[1..], op);
      assert !SameValue(queue[0], op) by { KindOf(queue[1..], op); }
      assert Drop(queue, op)[1..] == Drop(queue[1..], op);
    } else {
      assert SameValue(queue[0], op);
    }
  }

  lemma {:induction false} KindOf(queue: seq<Op>, op: Op)
    requires op in OfKind(queue, false)
    ensures op.kind != Notify
    decreases |queue|
  {
    if !(queue[0].kind != Notify && op == queue[0]) { KindOf(queue[1..], op); }
  }

  lemma {:induction false} OfKindAppend(queue: seq<Op>, more: seq<Op>, notices: bool)
    ensures OfKind(queue + more, notices) == OfKind(queue, notices) + OfKind(more, notices)
    decreases |queue|
  {
    if queue == [] {
      assert queue + more == more;
    } else {
      assert (queue + more)[1..] == queue[1..] + more;
      OfKindAppend(queue[1..], more, notices);
    }
  }

  lemma {:induction false} AllNotices(queue: seq<Op>)
    requires OfKind(queue, false) == []
    ensures OfKind(queue, true) == queue
    decreases |queue|
  {
    if queue != [] { AllNotices(queue[1..]); }
  }

  // ----- values --------------------------------------------------------------

  /** The operations as Python compares them. */
  function Values(ops: seq<Op>): multiset<Op> {
    if ops == [] then multiset{} else multiset{ops[0].(uid := 0)} + Values(ops[1..])
  }

  lemma {:induction false} ValuesSize(ops: seq<Op>)
    ensures |Values(ops)| == |ops|
  {
    if ops != [] { ValuesSize(ops[1..]); }
  }

  lemma {:induction false} ValuesAppend(a: seq<Op>, b: seq<Op>)
    ensures Values(a + b) == Values(a) + Values(b)
    decreases |a|
  {
    if a == [] {
      assert a + b == b;
    } else {
      assert (a + b)[1..] == a[1..] + b;
      ValuesAppend(a[1..], b);
    }
  }

  lemma {:induction false} DropValue(queue: seq<Op>, op: Op)
    requires op.(uid := 0) in Values(queue)
    ensures Values(queue) == Values(Drop(queue, op)) + multiset{op.(uid := 0)}
    decreases |queue|
  {
    if !SameValue(queue[0], op) {
      assert queue[0].(uid := 0) != op.(uid := 0);
      DropValue(queue[1..], op);
      assert Drop(queue, op)[1..] == Drop(queue[1..], op);
    } else {
      assert queue[0].(uid := 0) == op.(uid := 0);
    }
  }

  lemma Cancel(a: multiset<Op>, b: multiset<Op>, v: Op)
    requires a + multiset{v} == b + multiset{v}
    ensures a == b
  {
    assert a == (a + multiset{v}) - multiset{v} && b == (b + multiset{v}) - multiset{v};
  }

  /** Sorting notices into dropped and live takes the dropped out of the queue. */
  lemma {:induction false} GatherValues(records: map<Id, Record>, canNotify: bool, queue: seq<Op>, notices: seq<Op>,
                                        live: seq<Op>, added: multiset<Op>)
    requires Values(queue) == Values(notices) + Values(live) + added
    ensures var g := Gather(records, canNotify, queue, notices, live); Values(g.0) == Values(g.1) + added
    decreases |notices|
  {
    if notices != [] {
      var op := notices[0];
      if op.key !in records || records[op.key].notify != Waiting || !canNotify || op.key in Keys(live) {
        DroppedOne(queue, notices, Values(live) + added);
        assert Values(notices[1..]) + (Values(live) + added) == Values(notices[1..]) + Values(live) + added;
        GatherValues(records, canNotify, Drop(queue, op), notices[1..], live, added);
      } else {
        MovedOne(notices, live);
        GatherValues(records, canNotify, queue, notices[1..], live + [op], added);
      }
    }
  }

  lemma DroppedOne(queue: seq<Op>, ops: seq<Op>, others: multiset<Op>)
    requires ops != [] && Values(queue) == Values(ops) + others
    ensures Values(Drop(queue, ops[0])) == Values(ops[1..]) + others
  {
    var v := ops[0].(uid := 0);
    assert v in Values(ops);
    DropValue(queue, ops[0]);
    assert Values(ops[1..]) + others + multiset{v} == Values(ops) + others;
    Cancel(Values(Drop(queue, ops[0])), Values(ops[1..]) + others, v);
  }

  lemma MovedOne(notices: seq<Op>, live: seq<Op>)
    requires notices != []
    ensures Values(notices) + Values(live) == Values(notices[1..]) + Values(live + [notices[0]])
  {
    ValuesAppend(live, [notices[0]]);
    assert [notices[0]][1..] == [];
    assert Values([notices[0]]) == multiset{notices[0].(uid := 0)};
  }

  lemma {:induction false} DropAllValues(queue: seq<Op>, ops: seq<Op>, added: multiset<Op>)
    requires Values(queue) == Values(ops) + added
    ensures Values(DropAll(queue, ops)) == added
    decreases |ops|
  {
    if ops != [] {
      DroppedOne(queue, ops, added);
      DropAllValues(Drop(queue, ops[0]), ops[1..], added);
    }
  }

  // ----- what only gets better -----------------------------------------------

  /** Records stay; a state only turns to acked, an announcement only moves on to sent. */
  predicate Better(r: Record, r': Record) {
    && (r'.state == r.state || r'.state == Acked)
    && (r'.notify == r.notify || (r.notify == Waiting && r'.notify == Sent))
    && r'.thread == r.thread && r'.resolved == r.resolved
  }

  /** Some message that reached the agent names the remark. */
  ghost predicate Told(w: World, id: Id) {
    exists i | 0 <= i < |w.sends| :: i in w.arrived && id in w.sends[i].keys
  }

  /** What was tried, sent or arrived stays so. */
  ghost predicate Remembers(w: World, w': World) {
    && (forall uid :: |Log(w.tries, uid)| <= |Log(w'.tries, uid)|)
    && |w.sends| <= |w'.sends| && w.arrived <= w'.arrived
    && forall i | 0 <= i < |w.sends| :: w'.sends[i].keys == w.sends[i].keys
  }

  ghost predicate Improves(w: World, w': World) {
    && w'.canNotify == w.canNotify && w'.records.Keys == w.records.Keys && Remembers(w, w')
    && forall id | id in w.records ::
      Better(w.records[id], w'.records[id]) && (w'.records[id].notify != w.records[id].notify ==> Told(w', id))
  }

  lemma TellsOn(w: World, w': World, id: Id)
    requires Told(w, id) && Remembers(w, w')
    ensures Told(w', id)
  {
    var i :| 0 <= i < |w.sends| && i in w.arrived && id in w.sends[i].keys;
    assert id in w'.sends[i].keys;
  }

  lemma ImprovesOn(w: World, w1: World, w2: World)
    requires Improves(w, w1) && Improves(w1, w2)
    ensures Improves(w, w2)
  {
    forall id | id in w.records
      ensures Better(w.records[id], w2.records[id])
      ensures w2.records[id].notify != w.records[id].notify ==> Told(w2, id)
    {
      assert Better(w.records[id], w1.records[id]) && Better(w1.records[id], w2.records[id]);
      if w1.records[id].notify != w.records[id].notify { TellsOn(w1, w2, id); }
    }
  }

  // ----- one pass with everything due ----------------------------------------

  /** In the middle of such a pass: what is no notice is still to be pushed, the notices at hand come first. */
  ghost predicate MidPass(w: World, added: seq<Op>) {
    && w.flush.Pushing? && OfKind(w.queue, false) == w.flush.rest && OfKind(w.queue, true) == w.flush.notices + added
  }

  /** A request for the operation went out. */
  ghost predicate TriedAgain(w: World, w': World, op: Op) {
    |Log(w.tries, op.uid)| < |Log(w'.tries, op.uid)|
  }

  lemma PushedOne(w: World, added: seq<Op>) returns (events: seq<Event>, w': World, added': seq<Op>)
    requires MidPass(w, added) && w.flush.rest != []
    ensures RunsWell(w, events, w') && Improves(w, w') && MidPass(w', added') && w'.flush.rest == w.flush.rest[1..]
    ensures w'.flush.notices == w.flush.notices
    ensures w.flush.rest[0].kind != Put ==> TriedAgain(w, w', w.flush.rest[0])
  {
    var op := w.flush.rest[0];
    if Skippable(w, op) {
      w' := ApplySkip(w);
      DropFirstOther(w.queue, op);
      assert RunsWell(w', [], w');
      WellFirst(w, Skip, w', [], w');
      events, added' := [Skip] + [], added;
    } else {
      events, w', added' := Pushed(w, added);
    }
  }

  lemma Pushed(w: World, added: seq<Op>) returns (events: seq<Event>, w': World, added': seq<Op>)
    requires MidPass(w, added) && w.flush.rest != [] && !Skippable(w, w.flush.rest[0])
    ensures RunsWell(w, events, w') && Improves(w, w') && MidPass(w', added') && w'.flush.rest == w.flush.rest[1..]
    ensures w'.flush.notices == w.flush.notices && TriedAgain(w, w', w.flush.rest[0])
  {
    var w1 := ApplyBegin(w);
    Begun(w, w1);
    w', added' := Stored(w1, added);
    assert RunsWell(w', [], w');
    WellFirst(w1, PushOk, w', [], w');
    WellFirst(w, Begin, w1, [PushOk] + [], w');
    events := [Begin] + ([PushOk] + []);
    ImprovesOn(w, w1, w');
  }

  lemma Begun(w: World, w1: World)
    requires w.flush.Pushing? && w.flush.rest != [] && w1 == ApplyBegin(w)
    ensures Improves(w, w1) && TriedAgain(w, w1, w.flush.rest[0])
    ensures w1.flush.InPush? && [w1.flush.op] + w1.flush.rest == w.flush.rest && w1.flush.notices == w.flush.notices
    ensures w1.queue == w.queue
  {}

  /** The push goes through: its operation leaves the queue, and perhaps a notice joins. */
  lemma Stored(w: World, added: seq<Op>) returns (w': World, added': seq<Op>)
    requires w.flush.InPush? && OfKind(w.queue, false) == [w.flush.op] + w.flush.rest
    requires OfKind(w.queue, true) == w.flush.notices + added
    ensures w' == ApplyPushOk(w) && Improves(w, w') && MidPass(w', added')
    ensures w'.flush.rest == w.flush.rest && w'.flush.notices == w.flush.notices
  {
    w' := ApplyPushOk(w);
    assert w.flush.op in OfKind(w.queue, false);
    KindOf(w.queue, w.flush.op);
    var joined := PushOkQueue(w);
    DropFirstOther(w.queue, w.flush.op);
    OfKindAppend(Drop(w.queue, w.flush.op), joined, false);
    OfKindAppend(Drop(w.queue, w.flush.op), joined, true);
    assert OfKind(joined, false) == [] && OfKind(joined, true) == joined;
    added' := added + joined;
    assert w.flush.notices + added + joined == w.flush.notices + added';
  }

  lemma {:induction false} PushedAll(w: World, added: seq<Op>) returns (events: seq<Event>, w': World, added': seq<Op>)
    requires MidPass(w, added)
    ensures RunsWell(w, events, w') && Improves(w, w') && MidPass(w', added') && w'.flush.rest == []
    ensures w'.flush.notices == w.flush.notices && (w.flush.rest == [] ==> added' == added)
    ensures forall o | o in w.flush.rest && o.kind != Put :: TriedAgain(w, w', o)
    decreases |w.flush.rest|
  {
    if w.flush.rest == [] {
      events, w', added' := [], w, added;
    } else {
      var first, more: seq<Event>;
      var w1: World;
      var added1: seq<Op>;
      first, w1, added1 := PushedOne(w, added);
      more, w', added' := PushedAll(w1, added1);
      WellJoin(w, first, w1, more, w');
      ImprovesOn(w, w1, w');
      events := first + more;
      forall o | o in w.flush.rest && o.kind != Put ensures TriedAgain(w, w', o) {
        assert o == w.flush.rest[0] || o in w.flush.rest[1..];
      }
    }
  }

  /** The notices at hand are sorted and sent, and the pass ends; those that joined during it remain. */
  lemma Announced(w: World, added: seq<Op>) returns (events: seq<Event>, w': World)
    requires MidPass(w, added) && w.flush.rest == []
    ensures RunsWell(w, events, w') && Improves(w, w') && w'.flush.Idle? && Values(w'.queue) == Values(added)
    ensures w'.disk == w'.records
  {
    GatheredValues(w, added);
    var g := Gather(w.records, w.canNotify, w.queue, w.flush.notices, []);
    var w1 := ApplyNotices(w);
    var more: seq<Event>;
    if g.1 == [] {
      more, w' := EndedIdle(w1);
    } else {
      more, w' := SentOff(w, w1, g.0, g.1, added);
    }
    WellFirst(w, NoticesStart, w1, more, w');
    events := [NoticesStart] + more;
  }

  lemma GatheredValues(w: World, added: seq<Op>)
    requires MidPass(w, added) && w.flush.rest == []
    ensures var g := Gather(w.records, w.canNotify, w.queue, w.flush.notices, []);
      && Values(g.0) == Values(g.1) + Values(added)
      && forall k | k in Keys(g.1) && k in w.records :: w.records[k].notify == Waiting
  {
    AllNotices(w.queue);
    ValuesAppend(w.flush.notices, added);
    assert Values([]) == multiset{} && Keys([]) == {};
    GatherValues(w.records, w.canNotify, w.queue, w.flush.notices, [], Values(added));
    GatherLive(w.records, w.canNotify, w.queue, w.flush.notices, []);
  }

  lemma EndedIdle(w: World) returns (events: seq<Event>, w': World)
    requires w.flush.Finishing?
    ensures RunsWell(w, events, w') && w'.flush.Idle? && w'.queue == w.queue && w'.records == w.records
    ensures w'.canNotify == w.canNotify && w'.sends == w.sends && w'.arrived == w.arrived && w'.tries == w.tries
    ensures w'.disk == w'.records
  {
    w' := ApplyEnd(w, true);
    assert RunsWell(w', [], w');
    WellFirst(w, FlushEnd(true), w', [], w');
    events := [FlushEnd(true)] + [];
  }

  lemma SentOff(w: World, w1: World, queue: seq<Op>, live: seq<Op>, added: seq<Op>)
    returns (events: seq<Event>, w': World)
    requires w1.flush.Announcing? && w1.flush.live == live && w1.queue == queue
    requires w1.flush.send == |w.sends| && w1.sends == w.sends + [Send(Keys(live), InFlight)] && w1.arrived == w.arrived
    requires w1.tries == w.tries
    requires Values(queue) == Values(live) + Values(added) && w1.canNotify == w.canNotify
    requires w1.records == SetNotice(w.records, Keys(live), Sending)
    requires forall k | k in Keys(live) && k in w.records :: w.records[k].notify == Waiting
    ensures RunsWell(w1, events, w') && Improves(w, w') && w'.flush.Idle? && Values(w'.queue) == Values(added)
    ensures w'.disk == w'.records
  {
    var send := |w.sends|;
    var w2 := w1.(arrived := w1.arrived + {send});
    var w3 := ApplySendEnds(w2, Answered);
    DropAllValues(queue, live, Values(added));
    SentImproves(w, w3, live);
    var more: seq<Event>;
    more, w' := EndedIdle(w3);
    WellFirst(w2, SendEnds(Answered), w3, more, w');
    WellFirst(w1, Arrive(send), w2, [SendEnds(Answered)] + more, w');
    events := [Arrive(send)] + ([SendEnds(Answered)] + more);
    ImprovesAlike(w, w3, w');
  }

  lemma SentImproves(w: World, w': World, live: seq<Op>)
    requires w'.canNotify == w.canNotify && w'.tries == w.tries && w'.arrived == w.arrived + {|w.sends|}
    requires |w'.sends| == |w.sends| + 1 && w'.sends[..|w.sends|] == w.sends && w'.sends[|w.sends|].keys == Keys(live)
    requires w'.records == SetNotice(SetNotice(w.records, Keys(live), Sending), Keys(live), Sent)
    requires forall k | k in Keys(live) && k in w.records :: w.records[k].notify == Waiting
    ensures Improves(w, w')
  {
    forall k | k in Keys(live) ensures Told(w', k) { assert |w.sends| in w'.arrived; }
  }

  lemma ImprovesAlike(w: World, w1: World, w': World)
    requires Improves(w, w1) && w'.records == w1.records && w'.canNotify == w1.canNotify && w'.sends == w1.sends
    requires w'.arrived == w1.arrived && w'.tries == w1.tries
    ensures Improves(w, w')
  {
    ImprovesOn(w, w1, w') by {
      assert forall id :: Told(w1, id) == Told(w', id);
    }
  }

  lemma {:induction false} LatestDue(queue: seq<Op>, clock: real) returns (now: real)
    ensures clock <= now && AllDue(queue, now)
    decreases |queue|
  {
    if queue == [] {
      now := clock;
    } else {
      var rest := LatestDue(queue[1..], clock);
      now := if rest >= queue[0].next then rest else queue[0].next;
      forall q | q in queue ensures q.next <= now { assert q == queue[0] || q in queue[1..]; }
    }
  }

  /** A pass once everything is due: nothing is left but the notices it brought about. */
  lemma FullPass(w: World) returns (events: seq<Event>, w': World, added: seq<Op>)
    requires w.flush.Idle?
    ensures RunsWell(w, events, w') && Improves(w, w') && w'.flush.Idle? && Values(w'.queue) == Values(added)
    ensures w'.disk == w'.records
    ensures OfKind(w.queue, false) == [] ==> added == []
    ensures OfKind(added, false) == []
    ensures forall q | q in w.queue && (q.kind == Resolve || q.kind == Delete) :: TriedAgain(w, w', q)
  {
    var now := LatestDue(w.queue, w.clock);
    var w1 := ApplyStart(w, now);
    DueIsOfKind(w.queue, now, false);
    DueIsOfKind(w.queue, now, true);
    assert w1.flush.notices + [] == w1.flush.notices;
    var pushed, sent: seq<Event>;
    var w2: World;
    pushed, w2, added := PushedAll(w1, []);
    sent, w' := Announced(w2, added);
    WellJoin(w1, pushed, w2, sent, w');
    WellFirst(w, FlushStart(now), w1, pushed + sent, w');
    ImprovesOn(w1, w2, w');
    events := [FlushStart(now)] + (pushed + sent);
    forall q | q in w.queue && (q.kind == Resolve || q.kind == Delete) ensures TriedAgain(w, w', q) {
      StaysOfKind(w.queue, q);
    }
    OnlyNotices(w2.queue);
    AddedAreNotices(w2.queue, w2.flush.notices, added);
  }

  lemma {:induction false} StaysOfKind(queue: seq<Op>, q: Op)
    requires q in queue && q.kind != Notify
    ensures q in OfKind(queue, false)
    decreases |queue|
  {
    if queue[0] != q { StaysOfKind(queue[1..], q); }
  }

  lemma {:induction false} OnlyNotices(queue: seq<Op>)
    ensures OfKind(OfKind(queue, true), false) == []
    decreases |queue|
  {
    if queue != [] {
      OnlyNotices(queue[1..]);
      if queue[0].kind == Notify { assert OfKind(queue, true)[1..] == OfKind(queue[1..], true); }
    }
  }

  lemma AddedAreNotices(queue: seq<Op>, notices: seq<Op>, added: seq<Op>)
    requires OfKind(queue, true) == notices + added && OfKind(OfKind(queue, true), false) == []
    ensures OfKind(added, false) == []
  {
    OfKindAppend(notices, added, false);
  }

  lemma {:induction false} SameValuesSameKinds(a: seq<Op>, b: seq<Op>)
    requires Values(a) == Values(b) && OfKind(b, false) == []
    ensures OfKind(a, false) == []
  {
    forall q | q in a ensures q.kind == Notify {
      HasValue(a, q);
      var p := ValueOf(b, q.(uid := 0));
      NoneOther(b, p);
    }
    AllNotify(a);
  }

  lemma {:induction false} HasValue(ops: seq<Op>, q: Op)
    requires q in ops
    ensures q.(uid := 0) in Values(ops)
  {
    if ops[0] != q { HasValue(ops[1..], q); }
  }

  lemma {:induction false} ValueOf(ops: seq<Op>, v: Op) returns (p: Op)
    requires v in Values(ops)
    ensures p in ops && p.(uid := 0) == v
  {
    if ops[0].(uid := 0) == v { p := ops[0]; } else { p := ValueOf(ops[1..], v); }
  }

  lemma {:induction false} NoneOther(ops: seq<Op>, p: Op)
    requires OfKind(ops, false) == [] && p in ops
    ensures p.kind == Notify
  {
    if ops[0] != p { NoneOther(ops[1..], p); }
  }

  lemma {:induction false} AllNotify(ops: seq<Op>)
    requires forall q | q in ops :: q.kind == Notify
    ensures OfKind(ops, false) == []
  {
    if ops != [] {
      assert ops[0] in ops && forall q | q in ops[1..] :: q in ops;
      AllNotify(ops[1..]);
    }
  }

  /** Between passes of any run: if nothing goes wrong, two passes empty the queue and save, every remark waiting
      to be stored is stored, every resolution and deletion queued goes out, and, with the notifier configured,
      the agent is told of every remark waiting to be announced. */
  lemma EverythingDrains(w0: World, events: seq<Event>, w: World) returns (more: seq<Event>, w': World)
    requires Initial(w0) && Reaches(w0, events, w) && w.flush.Idle?
    ensures RunsWell(w, more, w') && w'.flush.Idle? && w'.queue == [] && w'.records.Keys == w.records.Keys
    ensures w'.disk == w'.records
    ensures forall id | id in w.records ::
      w'.records[id].thread == w.records[id].thread && w'.records[id].resolved == w.records[id].resolved
    ensures forall q | q in w.queue && (q.kind == Resolve || q.kind == Delete) :: TriedAgain(w, w', q)
    ensures forall id | id in w.records && w.records[id].state in {Pending, Acked} :: w'.records[id].state == Acked
    ensures w.canNotify ==> forall id |
      id in w.records && w.records[id].state in {Pending, Acked} && w.records[id].notify == Waiting ::
      w'.records[id].notify == Sent && Told(w', id)
  {
    var a, b: seq<Event>;
    var w1: World;
    var left, none: seq<Op>;
    a, w1, left := FullPass(w);
    SameValuesSameKinds(w1.queue, left);
    b, w', none := FullPass(w1);
    ValuesSize(w'.queue);
    ImprovesOn(w, w1, w');
    WellJoin(w, a, w1, b, w');
    more := a + b;
    WellReaches(w, more, w');
    RunsJoin(w0, events, w, more, w');
    forall id | id in w.records
      ensures w.records[id].state in {Pending, Acked} ==> w'.records[id].state == Acked
      ensures w.canNotify && w.records[id].state in {Pending, Acked} && w.records[id].notify == Waiting ==>
        w'.records[id].notify == Sent && Told(w', id)
    {
      assert Better(w.records[id], w'.records[id]);
      NothingStranded(w0, events + more, w', id);
    }
  }

  // ----- whose remarks are announced -----------------------------------------

  predicate QuietIn(records: map<Id, Record>, id: Id) {
    id in records ==> records[id].notify == Quiet
  }

  ghost predicate Unnamed(sends: seq<Send>, id: Id) {
    forall i | 0 <= i < |sends| :: id !in sends[i].keys
  }

  /** The remark is on record as one nobody is told about, and nobody has been. */
  ghost predicate Hushed(w: World, id: Id) {
    && id in w.used && QuietIn(w.records, id) && QuietIn(w.disk, id) && Unnamed(w.sends, id)
    && (w.flush.Announcing? || w.flush.Refused? ==> id !in Keys(w.flush.live))
  }

  ghost predicate NamedAreUsed(w: World) {
    forall id | id !in w.used :: Unnamed(w.sends, id)
  }

  lemma HushedWrite(w: World, e: Event, id: Id)
    requires Hushed(w, id) && IsWrite(e) && WriteEnabled(w, e)
    ensures Hushed(ApplyWrite(w, e), id)
  {}

  lemma HushedNotice(w: World, e: Event, id: Id)
    requires Hushed(w, id) && IsNotice(e) && NoticeEnabled(w, e)
    ensures Hushed(ApplyNotice(w, e), id)
  {
    match e
    case NoticesStart =>
      GatherLive(w.records, w.canNotify, w.queue, w.flush.notices, []);
      assert Keys([]) == {};
    case SendEnds(_) =>
    case SendRefused(_) =>
    case RefuseOne =>
      var live := w.flush.live;
      assert live[0] in live && live[0].key in Keys(live);
      assert forall o | o in live[1..] :: o in live;
  }

  lemma HushedPass(w: World, e: Event, id: Id)
    requires Hushed(w, id) && !IsWrite(e) && !IsNotice(e) && Enabled(w, e)
    ensures Hushed(Apply(w, e), id)
  {}

  lemma {:induction false} HushedAlong(w0: World, events: seq<Event>, w: World, id: Id)
    requires Hushed(w0, id) && Reaches(w0, events, w)
    ensures Hushed(w, id)
    decreases |events|
  {
    if events != [] {
      var e := events[0];
      if IsWrite(e) {
        HushedWrite(w0, e, id);
      } else if IsNotice(e) {
        HushedNotice(w0, e, id);
      } else {
        HushedPass(w0, e, id);
      }
      HushedAlong(Apply(w0, e), events[1..], w, id);
    }
  }

  lemma NamedStep(w: World, e: Event)
    requires Shape(w) && NamedAreUsed(w) && Enabled(w, e)
    ensures NamedAreUsed(Apply(w, e))
  {
    if e.NoticesStart? {
      GatherLive(w.records, w.canNotify, w.queue, w.flush.notices, []);
      assert Keys([]) == {};
    }
  }

  lemma {:induction false} AddedInRun(w0: World, events: seq<Event>, w: World, k: nat)
    requires Inv(w0) && NamedAreUsed(w0) && Reaches(w0, events, w)
    requires k < |events| && events[k].Add? && events[k].byAgent
    ensures Hushed(w, events[k].id)
    decreases |events|
  {
    var e := events[0];
    if k > 0 {
      InvStep(w0, e);
      NamedStep(w0, e);
      AddedInRun(Apply(w0, e), events[1..], w, k - 1);
    } else {
      AddedIsHushed(w0, e);
      HushedAlong(Apply(w0, e), events[1..], w, e.id);
    }
  }

  lemma AddedIsHushed(w: World, e: Event)
    requires Inv(w) && NamedAreUsed(w) && e.Add? && e.byAgent && Enabled(w, e)
    ensures Hushed(Apply(w, e), e.id)
  {
    if w.flush.Announcing? || w.flush.Refused? {
      forall o | o in w.flush.live ensures o.key != e.id { assert o in NoticeList(w.flush); }
    }
  }

  /** In every run, retries, pulls and crashes included, no message to the agent names a remark the agent
      wrote itself. */
  lemma AgentHearsNothingOfItsOwn(w0: World, events: seq<Event>, w: World, k: nat, i: nat)
    requires Initial(w0) && Reaches(w0, events, w) && k < |events| && events[k].Add? && events[k].byAgent
    requires i < |w.sends|
    ensures events[k].id !in w.sends[i].keys
  {
    AddedInRun(w0, events, w, k);
  }

  lemma RunsOn(w0: World, events: seq<Event>, w: World, e: Event)
    requires Reaches(w0, events, w) && Enabled(w, e)
    ensures Reaches(w0, events + [e], Apply(w, e))
  {
    var w1 := Apply(w, e);
    assert Reaches(w1, [], w1) && [e][1..] == [];
    assert Reaches(w, [e], w1);
    RunsJoin(w0, events, w, [e], w1);
  }

  /** A reader's remark, added between passes of any run, is stored if nothing goes wrong, and with the notifier
      configured the agent is told of it. */
  lemma ReaderIsHeard(w0: World, events: seq<Event>, w: World, id: Id, thread: Id)
    returns (more: seq<Event>, w': World)
    requires Initial(w0) && Reaches(w0, events, w) && w.flush.Idle? && id !in w.used
    ensures Enabled(w, Add(id, thread, false)) && RunsWell(Apply(w, Add(id, thread, false)), more, w')
    ensures id in w'.records && w'.records[id].state == Acked
    ensures w.canNotify ==> w'.records[id].notify == Sent && Told(w', id)
    ensures w'.records[id].thread == if thread == "" then id else thread
  {
    var e := Add(id, thread, false);
    var w1 := Apply(w, e);
    RunsOn(w0, events, w, e);
    more, w' := EverythingDrains(w0, events + [e], w1);
  }

  /** A deletion takes the remark, and with a thread's first remark the whole thread.  It leaves in the queue a
      delete for each that it takes, no put for any, and the rest as it was. */
  lemma DeletionIsQueued(w: World, id: Id, victims: seq<Id>)
    requires Enabled(w, Remove(id, victims))
    ensures forall v :: v in victims <==>
      v in w.records && (v == id || (w.records[id].thread == id && w.records[v].thread == id))
    ensures var w' := Apply(w, Remove(id, victims));
      && w'.records.Keys == w.records.Keys - (set v | v in victims)
      && (forall v | v in w'.records :: w'.records[v] == w.records[v])
      && (forall v | v in victims :: Has(w'.queue, Delete, v) && !Has(w'.queue, Put, v))
      && (forall q | q in w.queue && !(q.kind == Put && q.key in victims) :: q in w'.queue)
  {
    var w', doomed := Apply(w, Remove(id, victims)), set v | v in victims;
    var added := DeleteOps(victims, w.nextUid);
    forall q ensures q in WithoutPuts(w.queue, doomed) <==> q in w.queue && !(q.kind == Put && q.key in doomed) {
      WithoutPutsExactly(w.queue, doomed, q);
    }
    forall v | v in victims ensures Has(w'.queue, Delete, v) {
      var i :| 0 <= i < |victims| && victims[i] == v;
      assert added[i] in w'.queue;
    }
  }

  lemma {:induction false} WithoutPutsExactly(queue: seq<Op>, victims: set<Id>, q: Op)
    ensures q in WithoutPuts(queue, victims) <==> q in queue && !(q.kind == Put && q.key in victims)
    decreases |queue|
  {
    if queue != [] { WithoutPutsExactly(queue[1..], victims, q); }
  }

  /** A remark deleted between passes of any run is gone here at once, and the broker is asked to delete it
      if nothing goes wrong, whether or not it had been stored. */
  lemma DeletionGoesOut(w0: World, events: seq<Event>, w: World, id: Id, victims: seq<Id>, v: Id)
    returns (op: Op, more: seq<Event>, w': World)
    requires Initial(w0) && Reaches(w0, events, w) && w.flush.Idle?
    requires Enabled(w, Remove(id, victims)) && v in victims
    ensures RunsWell(Apply(w, Remove(id, victims)), more, w') && v !in w'.records && w'.queue == []
    ensures op.kind == Delete && op.key == v && TriedAgain(Apply(w, Remove(id, victims)), w', op)
  {
    var e := Remove(id, victims);
    var w1 := Apply(w, e);
    RunsOn(w0, events, w, e);
    DeletionIsQueued(w, id, victims);
    assert Has(w1.queue, Delete, v);
    op :| op in w1.queue && op.kind == Delete && op.key == v;
    more, w' := EverythingDrains(w0, events + [e], w1);
  }

  // ----- what the reader's other calls do ------------------------------------

  /** Resolving marks the thread's remarks and no others, and the broker is told the same. */
  lemma ResolutionGoesOut(w0: World, events: seq<Event>, w: World, thread: Id, resolved: bool)
    returns (op: Op, more: seq<Event>, w': World)
    requires Initial(w0) && Reaches(w0, events, w) && w.flush.Idle?
    requires Enabled(w, ResolveThread(thread, resolved))
    ensures RunsWell(Apply(w, ResolveThread(thread, resolved)), more, w') && w'.records.Keys == w.records.Keys
    ensures forall id | id in w.records ::
      w'.records[id].resolved == if w.records[id].thread == thread then resolved else w.records[id].resolved
    ensures op.kind == Resolve && op.key == thread && op.resolved == resolved
    ensures TriedAgain(Apply(w, ResolveThread(thread, resolved)), w', op)
  {
    var e := ResolveThread(thread, resolved);
    var w1 := Apply(w, e);
    RunsOn(w0, events, w, e);
    op := w1.queue[|w.queue|];
    more, w' := EverythingDrains(w0, events + [e], w1);
  }

  lemma RetriedRecord(w: World, id: Id)
    requires id in w.records
    ensures var w', r := ApplyRetry(w, id), w.records[id];
      && w'.flush == w.flush && w'.canNotify == w.canNotify && id in w'.records
      && (r.state != Acked ==> w'.records[id].state == Pending && w'.records[id].attempts == 0)
      && (r.state == Acked ==> w'.records[id].state == Acked)
      && (r.state == Acked && r.notify == GaveUp ==> w'.records[id].notify == Waiting)
  {}

  /** A retry takes back a remark that was not stored, with its failures forgotten, or a notice given up, and it
      is stored, or the agent told, if nothing goes wrong this time. */
  lemma RetryIsServed(w0: World, events: seq<Event>, w: World, id: Id) returns (more: seq<Event>, w': World)
    requires Initial(w0) && Reaches(w0, events, w) && w.flush.Idle? && id in w.records
    ensures w.records[id].state != Acked ==> ApplyRetry(w, id).records[id].attempts == 0
    ensures RunsWell(ApplyRetry(w, id), more, w') && id in w'.records && w'.records[id].state == Acked
    ensures w.canNotify && w.records[id].state == Acked && w.records[id].notify == GaveUp ==>
      w'.records[id].notify == Sent && Told(w', id)
  {
    var w1 := RetriedRun(w0, events, w, id);
    RetriedRecord(w, id);
    more, w' := EverythingDrains(w0, events + [Retry(id)], w1);
  }

  lemma RetriedRun(w0: World, events: seq<Event>, w: World, id: Id) returns (w1: World)
    requires Reaches(w0, events, w) && id in w.records
    ensures w1 == ApplyRetry(w, id) && Reaches(w0, events + [Retry(id)], w1)
  {
    w1 := ApplyRetry(w, id);
    RunsOn(w0, events, w, Retry(id));
  }

  /** A pull brings in, as stored and not to be announced, what the broker has and the viewer has not, and
      leaves alone what the viewer has. */
  lemma PullBringsIn(w: World, remote: map<Id, Record>, id: Id)
    requires Enabled(w, Pull(remote))
    ensures var w' := Apply(w, Pull(remote));
      && (id in w'.records <==> id in w.records || id in remote)
      && (id in w.records ==> w'.records[id] == w.records[id])
      && (id in remote && id !in w.records ==>
            && w'.records[id].thread == remote[id].thread && w'.records[id].resolved == remote[id].resolved
            && w'.records[id].state == Acked && w'.records[id].notify == Quiet
            && id in w'.disk && w'.disk[id] == w'.records[id])
  {
    var novel := map x | x in remote && x !in w.records ::
      Record(remote[x].thread, remote[x].resolved, Acked, 0, Quiet);
    assert id in novel <==> id in remote && id !in w.records;
  }

  /** A restart reads back what was saved, takes a message that was being sent for sent, and queues afresh a
      put for every remark not stored, failed ones included, a notice for every one not announced, and no more. */
  lemma RestartQueues(w: World, order: seq<Id>, canNotify: bool, clock: real, id: Id)
    requires Enabled(w, Crash(order, canNotify, clock))
    ensures var w' := Apply(w, Crash(order, canNotify, clock));
      && w'.records.Keys == w.disk.Keys
      && (id in w.disk ==>
            w'.records[id] == if w.disk[id].notify == Sending then w.disk[id].(notify := Sent) else w.disk[id])
      && (Has(w'.queue, Put, id) <==> id in w.disk && w.disk[id].state in {Pending, Failed})
      && (Has(w'.queue, Notify, id) <==> id in w.disk && w.disk[id].state == Acked && w.disk[id].notify == Waiting)
      && (forall q | q in w'.queue :: q.attempts == 0 && q.next == 0.0 && q.kind in {Put, Notify})
  {
    LoadedExactly(w.disk, order, w.nextUid, id);
    assert id in order <==> id in (set x | x in order);
  }

  lemma {:induction false} LoadedExactly(disk: map<Id, Record>, order: seq<Id>, uid: nat, id: Id)
    requires forall x | x in order :: x in disk
    ensures var ops := LoadedOps(disk, order, uid);
      && (Has(ops, Put, id) <==> id in order && disk[id].state in {Pending, Failed})
      && (Has(ops, Notify, id) <==> id in order && disk[id].state == Acked && disk[id].notify == Waiting)
      && (forall q | q in ops :: q.attempts == 0 && q.next == 0.0 && q.kind in {Put, Notify})
    decreases |order|
  {
    if order != [] {
      assert order[0] in order && forall x | x in order[1..] :: x in order;
      var r := disk[order[0]];
      var rest := LoadedOps(disk, order[1..], if OwedAfterLoad(r) then uid + 1 else uid);
      LoadedExactly(disk, order[1..], if OwedAfterLoad(r) then uid + 1 else uid, id);
      if OwedAfterLoad(r) {
        var op := Op(uid, if r.state == Acked then Notify else Put, order[0], false, 0, 0.0);
        HasFirst(op, rest, Put, id);
        HasFirst(op, rest, Notify, id);
      }
    }
  }

  lemma HasFirst(op: Op, rest: seq<Op>, kind: Kind, id: Id)
    ensures Has([op] + rest, kind, id) <==> (op.kind == kind && op.key == id) || Has(rest, kind, id)
  {
    assert op in [op] + rest && forall q | q in rest :: q in [op] + rest;
  }

  // ----- what a failure costs ------------------------------------------------

  /** Seconds to wait after the failure that makes it this many. */
  function Wait(failures: nat): real {
    if failures == 1 then 2.0 else if failures == 2 then 4.0 else if failures == 3 then 8.0 else 16.0
  }

  lemma {:induction false} DropShortens(queue: seq<Op>, op: Op)
    requires op in queue
    ensures |Drop(queue, op)| == |queue| - 1
    decreases |queue|
  {
    if !SameValue(queue[0], op) { DropShortens(queue[1..], op); }
  }

  lemma FailsLater(op: Op, now: real)
    requires op.attempts < 4
    ensures Failing(op, now) == op.(attempts := op.attempts + 1, next := now + Wait(op.attempts + 1))
  {
    FailureTable(op, now);
  }

  /** A push that fails is tried again after 2, 4, 8 and 16 seconds and given up at the fifth failure, or at
      once if the broker does not store annotations; its remark then reads failed, or disabled. */
  lemma PushFailureCosts(w: World, notStored: bool, i: nat)
    requires w.flush.InPush? && i < |w.queue| && w.queue[i].uid == w.flush.op.uid
    ensures var w', op := ApplyPushFail(w, notStored), w.flush.op;
      if notStored || op.attempts >= 4 then |w'.queue| == |w.queue| - 1
      else
        && |w'.queue| == |w.queue|
        && w'.queue[i] == op.(attempts := op.attempts + 1, next := w.flush.now + Wait(op.attempts + 1))
    ensures var w', op := ApplyPushFail(w, notStored), w.flush.op;
      w'.records == if op.kind == Put && op.key in w.records then
          w.records[op.key := w.records[op.key].(attempts := op.attempts + 1, state :=
            if notStored then Disabled else if op.attempts >= 4 then Failed else w.records[op.key].state)]
        else w.records
  {
    var op := Failing(w.flush.op, w.flush.now);
    assert Mutate(w.queue, op)[i] == op;
    if notStored || w.flush.op.attempts >= 4 {
      DropShortens(Mutate(w.queue, op), op);
    } else {
      FailsLater(w.flush.op, w.flush.now);
    }
  }

  /** A notice turned down waits as told if there were too many, without its failure being counted; is given up
      at once if it is not allowed; and else fares like a push. */
  lemma RefusalCosts(w: World, i: nat)
    requires w.flush.Refused? && w.flush.live != [] && i < |w.queue| && w.queue[i].uid == w.flush.live[0].uid
    ensures var w', op, now := ApplyRefuseOne(w), w.flush.live[0], w.flush.now;
      match w.flush.why
      case RateLimited(wait) =>
        |w'.queue| == |w.queue| && w'.queue[i] == op.(next := now + wait) && w'.records == w.records
      case Forbidden => |w'.queue| == |w.queue| - 1 && w'.records == SetNotice(w.records, {op.key}, GaveUp)
      case OtherFailure =>
        if op.attempts >= 4
        then |w'.queue| == |w.queue| - 1 && w'.records == SetNotice(w.records, {op.key}, GaveUp)
        else
          && |w'.queue| == |w.queue| && w'.records == w.records
          && w'.queue[i] == op.(attempts := op.attempts + 1, next := now + Wait(op.attempts + 1))
  {
    var was, now, why := w.flush.live[0], w.flush.now, w.flush.why;
    var op := RefusedOp(was, now, why);
    assert Mutate(w.queue, op)[i] == op;
    if Over(op, why) { DropShortens(Mutate(w.queue, op), op); }
    if !why.RateLimited? && was.attempts < 4 { FailsLater(was, now); }
  }
}
