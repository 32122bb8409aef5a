/** What every run of the outbox keeps, crashes included. */
module OutboxProofs {
  import opened Outbox

  // ----- the queue -----------------------------------------------------------

  ghost predicate Sorted(ops: seq<Op>) {
    forall i, j | 0 <= i < j < |ops| :: ops[i].uid < ops[j].uid
  }

  ghost predicate Has(queue: seq<Op>, kind: Kind, key: Id) {
    exists q | q in queue :: q.kind == kind && q.key == key
  }

  /** One equal-by-value element goes, and only such a one. */
  lemma {:induction false} DropEffect(queue: seq<Op>, op: Op)
    ensures forall q | q in Drop(queue, op) :: q in queue
    ensures forall q | q in queue && !SameValue(q, op) :: q in Drop(queue, op)
    ensures Sorted(queue) ==> Sorted(Drop(queue, op))
  {
    if queue != [] && !SameValue(queue[0], op) {
      DropEffect(queue[1..], op);
      var d := Drop(queue[1..], op);
      assert Drop(queue, op) == [queue[0]] + d;
      if Sorted(queue) {
        forall j | 0 <= j < |d| ensures queue[0].uid < d[j].uid {
          assert d[j] in queue[1..];
        }
      }
    }
  }

  /** The object itself goes when nothing earlier in the queue equals it. */
  lemma {:induction false} DropTakesItself(queue: seq<Op>, op: Op)
    requires Sorted(queue)
    requires forall q | q in queue && SameValue(q, op) :: op.uid <= q.uid
    requires forall q | q in queue && q.uid == op.uid :: q == op
    ensures forall q | q in Drop(queue, op) :: q.uid != op.uid
  {
    if queue != [] {
      if SameValue(queue[0], op) {
        assert op.uid <= queue[0].uid;
      } else {
        assert queue[0] != op;
        DropTakesItself(queue[1..], op);
      }
    }
  }

  lemma HasAfterDrop(queue: seq<Op>, op: Op, kind: Kind, key: Id)
    requires Has(queue, kind, key) && !(op.kind == kind && op.key == key)
    ensures Has(Drop(queue, op), kind, key)
  {
    DropEffect(queue, op);
  }

  lemma MutateEffect(queue: seq<Op>, op: Op)
    requires forall q | q in queue && q.uid == op.uid :: q.kind == op.kind && q.key == op.key
    ensures Sorted(queue) ==> Sorted(Mutate(queue, op))
    ensures forall q | q in Mutate(queue, op) :: q == op || (q in queue && q.uid != op.uid)
    ensures forall kind, key :: Has(queue, kind, key) ==> Has(Mutate(queue, op), kind, key)
    ensures op in Mutate(queue, op) ==> exists q | q in queue :: q.uid == op.uid
    ensures forall q | q in queue && q.uid != op.uid :: q in Mutate(queue, op)
  {
    var m := Mutate(queue, op);
    forall q | q in queue && q.uid != op.uid ensures q in m {
      var i :| 0 <= i < |queue| && queue[i] == q;
      assert m[i] == q;
    }
    forall kind, key | Has(queue, kind, key) ensures Has(m, kind, key) {
      var q :| q in queue && q.kind == kind && q.key == key;
      var i :| 0 <= i < |queue| && queue[i] == q;
      assert m[i] in m;
    }
    if op in m {
      var i :| 0 <= i < |m| && m[i] == op;
      assert queue[i] in queue;
    }
  }

  lemma {:induction false} WithoutPutsEffect(queue: seq<Op>, victims: set<Id>)
    ensures forall q :: q in WithoutPuts(queue, victims) <==> q in queue && !(q.kind == Put && q.key in victims)
    ensures Sorted(queue) ==> Sorted(WithoutPuts(queue, victims))
  {
    if queue != [] {
      WithoutPutsEffect(queue[1..], victims);
      var d := WithoutPuts(queue[1..], victims);
      assert queue == [queue[0]] + queue[1..];
      if Sorted(queue) {
        forall j | 0 <= j < |d| ensures queue[0].uid < d[j].uid {
          assert d[j] in queue[1..];
        }
      }
    }
  }

  lemma {:induction false} DueEffect(queue: seq<Op>, now: real, notices: bool)
    ensures forall q :: q in Due(queue, now, notices) <==> q in queue && q.next <= now && (q.kind == Notify) == notices
    ensures Sorted(queue) ==> Sorted(Due(queue, now, notices))
  {
    if queue != [] {
      DueEffect(queue[1..], now, notices);
      var d := Due(queue[1..], now, notices);
      assert queue == [queue[0]] + queue[1..];
      if Sorted(queue) {
        forall j | 0 <= j < |d| ensures queue[0].uid < d[j].uid {
          assert d[j] in queue[1..];
        }
      }
    }
  }

  lemma {:induction false} LoadedEffect(disk: map<Id, Record>, order: seq<Id>, uid: nat)
    requires forall id | id in order :: id in disk
    ensures var ops := LoadedOps(disk, order, uid);
      && Sorted(ops)
      && (forall q | q in ops :: uid <= q.uid < uid + |order| && q.key in disk && q.attempts == 0
            && OwedAfterLoad(disk[q.key]) && q.kind == (if disk[q.key].state == Acked then Notify else Put))
      && (forall id | id in order && OwedAfterLoad(disk[id]) ::
        Has(ops, if disk[id].state == Acked then Notify else Put, id))
  {
    if order != [] {
      LoadedEffect(disk, order[1..], uid + if OwedAfterLoad(disk[order[0]]) then 1 else 0);
      assert order == [order[0]] + order[1..];
      var ops, tail := LoadedOps(disk, order, uid),
        LoadedOps(disk, order[1..], uid + if OwedAfterLoad(disk[order[0]]) then 1 else 0);
      if OwedAfterLoad(disk[order[0]]) {
        assert ops == [ops[0]] + tail;
        forall j | 0 <= j < |tail| ensures ops[0].uid < tail[j].uid {
          assert tail[j] in tail;
        }
        assert ops[0] in ops;
      }
      forall id | id in order[1..] && OwedAfterLoad(disk[id])
        ensures Has(ops, if disk[id].state == Acked then Notify else Put, id)
      {
        var q :| q in tail && q.kind == (if disk[id].state == Acked then Notify else Put) && q.key == id;
        assert q in ops;
      }
    }
  }

  function Todo(f: Flush): seq<Op> {
    match f
    case Pushing(_, _, rest, _) => rest
    case InPush(_, _, op, rest, _) => [op] + rest
    case _ => []
  }

  function NoticeList(f: Flush): seq<Op> {
    match f
    case Pushing(_, _, _, notices) => notices
    case InPush(_, _, _, _, notices) => notices
    case Announcing(_, live, _) => live
    case Refused(_, live, _) => live
    case _ => []
  }

  // ----- shape ---------------------------------------------------------------

  ghost predicate QueueShape(w: World) {
    && Sorted(w.queue)
    && (forall q | q in w.queue :: q.uid < w.nextUid && (q.kind != Resolve ==> q.key in w.used))
    && w.records.Keys <= w.used && w.disk.Keys == w.records.Keys
    && (forall uid | uid in w.tries :: uid < w.nextUid)
  }

  /** The worker's list: in queue order, due, and every due push the queue held at the start. */
  ghost predicate TodoShape(w: World) {
    var f, todo := w.flush, Todo(w.flush);
    && (forall q | q in NoticeList(f) :: q.kind == Notify && q.key in w.used && q.uid < w.nextUid)
    && (f.Pushing? || f.InPush? ==>
      && f.firstNew <= w.nextUid && Sorted(todo)
      && (forall o | o in todo ::
        o.uid < f.firstNew && o.kind != Notify && o.next <= f.now && (o.kind != Resolve ==> o.key in w.used))
      && (forall o, q | o in todo && q in w.queue && o.uid == q.uid :: o == q)
      && (forall q | q in w.queue && q.kind != Notify && q.next <= f.now && q.uid < f.firstNew :: q in todo))
  }

  /** A live notice keeps its kind and key in the queue. */
  ghost predicate NoticeShape(w: World) {
    forall o, q | o in NoticeList(w.flush) && q in w.queue && o.uid == q.uid :: q.kind == Notify && q.key == o.key
  }

  ghost predicate Shape(w: World) {
    QueueShape(w) && TodoShape(w) && NoticeShape(w)
  }

  lemma {:induction false} GatherShape(records: map<Id, Record>, canNotify: bool, queue: seq<Op>, notices: seq<Op>,
                                       live: seq<Op>)
    requires Sorted(queue) && forall q | q in notices :: q.kind == Notify
    ensures var g := Gather(records, canNotify, queue, notices, live);
      && Sorted(g.0)
      && (forall q | q in g.0 :: q in queue)
      && (forall q | q in queue && (q.kind != Notify || q.key !in Keys(notices)) :: q in g.0)
      && (forall o | o in g.1 :: o in live || o in notices)
    decreases |notices|
  {
    if notices != [] {
      var op := notices[0];
      assert notices == [op] + notices[1..];
      DropEffect(queue, op);
      if op.key !in records || records[op.key].notify != Waiting || !canNotify || op.key in Keys(live) {
        GatherShape(records, canNotify, Drop(queue, op), notices[1..], live);
      } else {
        GatherShape(records, canNotify, queue, notices[1..], live + [op]);
      }
    }
  }

  lemma {:induction false} DropAllShape(queue: seq<Op>, ops: seq<Op>)
    requires Sorted(queue) && forall q | q in ops :: q.kind == Notify
    ensures Sorted(DropAll(queue, ops)) && forall q | q in DropAll(queue, ops) :: q in queue
    ensures forall q | q in queue && (q.kind != Notify || q.key !in Keys(ops)) :: q in DropAll(queue, ops)
    decreases |ops|
  {
    if ops != [] {
      DropEffect(queue, ops[0]);
      assert ops == [ops[0]] + ops[1..];
      DropAllShape(Drop(queue, ops[0]), ops[1..]);
    }
  }

  /** Dropping the head of the worker's list takes that very object out of the queue. */
  lemma DropHead(queue: seq<Op>, op: Op, rest: seq<Op>, now: real, firstNew: nat)
    requires Sorted(queue) && Sorted([op] + rest) && op.kind != Notify && op.next <= now && op.uid < firstNew
    requires forall o, q | o in [op] + rest && q in queue && o.uid == q.uid :: o == q
    requires forall q | q in queue && q.kind != Notify && q.next <= now && q.uid < firstNew :: q in [op] + rest
    ensures forall q | q in Drop(queue, op) :: q.uid != op.uid
    ensures forall q | q in Drop(queue, op) && q.kind != Notify && q.next <= now && q.uid < firstNew :: q in rest
  {
    assert op in [op] + rest;
    forall o | o in rest ensures op.uid < o.uid {
      var i :| 0 <= i < |rest| && rest[i] == o;
      assert ([op] + rest)[0] == op && ([op] + rest)[i + 1] == o;
    }
    forall q | q in queue && SameValue(q, op) ensures op.uid <= q.uid {
      assert q.uid < op.uid ==> q.uid < firstNew && q in [op] + rest;
    }
    DropTakesItself(queue, op);
    DropEffect(queue, op);
  }

  lemma BackoffPositive(n: nat)
    ensures Backoff(n) >= 2.0
  {}

  lemma ShapeSameTodo(w: World, w': World)
    requires Shape(w) && w'.queue == w.queue && w'.nextUid == w.nextUid && w'.used == w.used
    requires w'.records == w.records && w'.disk == w.disk && forall uid | uid in w'.tries :: uid < w.nextUid
    requires w.flush.Pushing? && w'.flush.InPush? && Todo(w'.flush) == w.flush.rest
    requires w'.flush.now == w.flush.now && w'.flush.firstNew == w.flush.firstNew && w'.flush.notices == w.flush.notices
    ensures Shape(w')
  {}

  lemma ShapeAfterBegin(w: World)
    requires Shape(w) && PassEnabled(w, Begin)
    ensures Shape(ApplyBegin(w))
  {
    assert w.flush.rest == [w.flush.rest[0]] + w.flush.rest[1..];
    assert w.flush.rest[0] in Todo(w.flush);
    ShapeSameTodo(w, ApplyBegin(w));
  }

  /** The worker's list after its head is done. */
  lemma TodoTail(op: Op, rest: seq<Op>)
    requires Sorted([op] + rest)
    ensures Sorted(rest) && forall o | o in rest :: op.uid < o.uid
  {
    forall i | 0 <= i < |rest| ensures op.uid < rest[i].uid {
      assert ([op] + rest)[0] == op && ([op] + rest)[i + 1] == rest[i];
    }
    forall i, j | 0 <= i < j < |rest| ensures rest[i].uid < rest[j].uid {
      assert ([op] + rest)[i + 1] == rest[i] && ([op] + rest)[j + 1] == rest[j];
    }
  }

  /** Nothing but the queue, the worker and the records' contents differ. */
  ghost predicate SameFrame(w: World, w': World) {
    && w'.used == w.used && w'.tries == w.tries && w'.nextUid >= w.nextUid
    && w'.records.Keys == w.records.Keys && w'.disk.Keys == w.disk.Keys
  }

  /** The worker is done with the head of its list, and the queue kept to what it may hold. */
  lemma ShapeAfterHead(w: World, w': World, op: Op, rest: seq<Op>)
    requires Shape(w) && (w.flush.Pushing? || w.flush.InPush?) && Todo(w.flush) == [op] + rest
    requires SameFrame(w, w') && Sorted(w'.queue)
    requires w'.flush == Pushing(w.flush.now, w.flush.firstNew, rest, w.flush.notices)
    requires forall o, q | o in rest && q in w'.queue && o.uid == q.uid :: o == q
    requires forall q | q in w'.queue && q.kind != Notify && q.next <= w.flush.now && q.uid < w.flush.firstNew ::
      q in rest
    requires forall q | q in w'.queue ::
      || q in w.queue
      || (w.nextUid <= q.uid < w'.nextUid && q.kind == Notify && q.key in w.used)
      || (q == Failing(op, w.flush.now) && op in w.queue)
    ensures Shape(w')
  {
    TodoTail(op, rest);
    assert op in Todo(w.flush) && forall o | o in rest :: o in Todo(w.flush);
    assert QueueShape(w');
    assert NoticeShape(w');
  }

  lemma ShapeAfterSkip(w: World)
    requires Shape(w) && PassEnabled(w, Skip)
    ensures Shape(ApplySkip(w))
  {
    var f := w.flush;
    var op, rest := f.rest[0], f.rest[1..];
    assert f.rest == [op] + rest;
    DropHead(w.queue, op, rest, f.now, f.firstNew);
    DropEffect(w.queue, op);
    ShapeAfterHead(w, ApplySkip(w), op, rest);
  }

  lemma {:induction false} DropBeforeAppend(queue: seq<Op>, op: Op, added: Op)
    requires !SameValue(added, op)
    ensures Drop(queue + [added], op) == Drop(queue, op) + [added]
  {
    if queue != [] {
      assert (queue + [added])[1..] == queue[1..] + [added];
      DropBeforeAppend(queue[1..], op, added);
    }
  }

  /** The queue after a push went through: its op is gone, and a notice may have joined. */
  lemma PushOkQueue(w: World) returns (joined: seq<Op>)
    requires w.flush.InPush? && w.flush.op.kind != Notify
    ensures ApplyPushOk(w).queue == Drop(w.queue, w.flush.op) + joined
    ensures ApplyPushOk(w).nextUid == w.nextUid + |joined|
    ensures var op := w.flush.op;
      joined == if op.kind == Put && op.key in w.records && w.records[op.key].notify == Waiting
                then [Op(w.nextUid, Notify, op.key, false, 0, w.flush.now + NOTIFY_DELAY)] else []
  {
    var f, op := w.flush, w.flush.op;
    joined := if op.kind == Put && op.key in w.records && w.records[op.key].notify == Waiting
              then [Op(w.nextUid, Notify, op.key, false, 0, f.now + NOTIFY_DELAY)] else [];
    if joined == [] {
      assert w.queue + joined == w.queue;
    } else {
      DropBeforeAppend(w.queue, op, joined[0]);
    }
  }

  lemma ShapeAfterPushOk(w: World)
    requires Shape(w) && w.flush.InPush?
    ensures Shape(ApplyPushOk(w))
  {
    assert w.flush.op in Todo(w.flush);
    PushOkFrame(w);
    var joined := PushOkQueue(w);
    ShapePushed(w, ApplyPushOk(w), joined);
  }

  lemma PushOkFrame(w: World)
    requires w.flush.InPush?
    ensures SameFrame(w, ApplyPushOk(w))
    ensures ApplyPushOk(w).flush == Pushing(w.flush.now, w.flush.firstNew, w.flush.rest, w.flush.notices)
  {}

  lemma ShapePushed(w: World, w': World, joined: seq<Op>)
    requires Shape(w) && w.flush.InPush? && SameFrame(w, w')
    requires w'.flush == Pushing(w.flush.now, w.flush.firstNew, w.flush.rest, w.flush.notices)
    requires w'.queue == Drop(w.queue, w.flush.op) + joined && w'.nextUid == w.nextUid + |joined| && |joined| <= 1
    requires forall q | q in joined :: q.uid == w.nextUid && q.kind == Notify && q.key in w.used
    ensures Shape(w')
  {
    var f, op := w.flush, w.flush.op;
    assert op in Todo(f) && forall o | o in f.rest :: o in Todo(f);
    DropHead(w.queue, op, f.rest, f.now, f.firstNew);
    DropEffect(w.queue, op);
    SortedAppend(Drop(w.queue, op), joined, w.nextUid);
    ShapeAfterHead(w, w', op, f.rest);
  }

  lemma SortedAppend(ops: seq<Op>, more: seq<Op>, uid: nat)
    requires Sorted(ops) && |more| <= 1 && (forall q | q in ops :: q.uid < uid) && forall q | q in more :: q.uid == uid
    ensures Sorted(ops + more)
  {
    forall i, j | 0 <= i < j < |ops + more| ensures (ops + more)[i].uid < (ops + more)[j].uid {
      assert i < |ops| && (ops + more)[i] in ops;
    }
  }

  lemma FailKeepsTodo(queue: seq<Op>, op: Op, rest: seq<Op>, now: real, firstNew: nat)
    requires Sorted([op] + rest)
    requires forall o, q | o in [op] + rest && q in queue && o.uid == q.uid :: o == q
    requires forall q | q in queue && q.kind != Notify && q.next <= now && q.uid < firstNew :: q in [op] + rest
    ensures var after := Mutate(queue, Failing(op, now));
      && (forall o, q | o in rest && q in after && o.uid == q.uid :: o == q)
      && (forall q | q in after && q.kind != Notify && q.next <= now && q.uid < firstNew :: q in rest)
      && (forall q | q in after :: q == Failing(op, now) || (q in queue && q.uid != op.uid))
      && (Failing(op, now) in after ==> op in queue)
  {
    BackoffPositive(op.attempts + 1);
    TodoTail(op, rest);
    assert op in [op] + rest && forall o | o in rest :: o in [op] + rest;
    MutateEffect(queue, Failing(op, now));
  }

  lemma FailedQueueEffect(queue: seq<Op>, op: Op, notStored: bool)
    requires Sorted(queue) && forall q | q in queue && q.uid == op.uid :: q.kind == op.kind && q.key == op.key
    ensures Sorted(FailedQueue(queue, op, notStored))
    ensures forall q | q in FailedQueue(queue, op, notStored) :: q in Mutate(queue, op)
  {
    MutateEffect(queue, op);
    DropEffect(Mutate(queue, op), op);
  }

  lemma FailFrame(w: World, notStored: bool)
    requires w.flush.InPush? && w.disk.Keys == w.records.Keys
    ensures var w' := ApplyPushFail(w, notStored);
      && SameFrame(w, w') && w'.queue == FailedQueue(w.queue, Failing(w.flush.op, w.flush.now), notStored)
      && w'.flush == Pushing(w.flush.now, w.flush.firstNew, w.flush.rest, w.flush.notices)
  {}

  lemma ShapeAfterFail(w: World, notStored: bool)
    requires Shape(w) && w.flush.InPush?
    ensures Shape(ApplyPushFail(w, notStored))
  {
    var f := w.flush;
    FailKeepsTodo(w.queue, f.op, f.rest, f.now, f.firstNew);
    assert f.op in Todo(f);
    FailedQueueEffect(w.queue, Failing(f.op, f.now), notStored);
    FailFrame(w, notStored);
    ShapeAfterHead(w, ApplyPushFail(w, notStored), f.op, f.rest);
  }

  lemma NoticesParts(w: World)
    requires w.flush.Pushing? && w.disk.Keys == w.records.Keys
    ensures var w', g := ApplyNotices(w), Gather(w.records, w.canNotify, w.queue, w.flush.notices, []);
      && SameFrame(w, w') && w'.queue == g.0 && NoticeList(w'.flush) == g.1
      && (w'.flush.Finishing? || w'.flush.Announcing?)
  {}

  lemma NoticesFrame(w: World)
    requires QueueShape(w) && w.flush.Pushing? && forall q | q in w.flush.notices :: q.kind == Notify
    ensures var w' := ApplyNotices(w);
      && SameFrame(w, w') && Sorted(w'.queue) && (forall q | q in w'.queue :: q in w.queue)
      && (w'.flush.Finishing? || w'.flush.Announcing?)
      && (forall q | q in NoticeList(w'.flush) :: q in w.flush.notices)
  {
    NoticesParts(w);
    GatherShape(w.records, w.canNotify, w.queue, w.flush.notices, []);
  }

  lemma ShapeShrunk(w: World, w': World)
    requires Shape(w) && SameFrame(w, w') && Sorted(w'.queue) && !w'.flush.Pushing? && !w'.flush.InPush?
    requires forall q | q in w'.queue :: q in w.queue
    requires forall q | q in NoticeList(w'.flush) :: q in NoticeList(w.flush)
    ensures Shape(w')
  {}

  lemma ShapeAfterNotices(w: World)
    requires Shape(w) && w.flush.Pushing?
    ensures Shape(ApplyNotices(w))
  {
    NoticesFrame(w);
    ShapeShrunk(w, ApplyNotices(w));
  }

  lemma ShapeAfterSendEnds(w: World, outcome: Outcome)
    requires Shape(w) && NoticeEnabled(w, SendEnds(outcome))
    ensures Shape(ApplySendEnds(w, outcome))
  {
    DropAllShape(w.queue, w.flush.live);
    ShapeShrunk(w, ApplySendEnds(w, outcome));
  }

  lemma ShapeAfterRefusal(w: World, w': World, op': Op)
    requires Shape(w) && w.flush.Refused? && w.flush.live != [] && SameFrame(w, w') && Sorted(w'.queue)
    requires var op := w.flush.live[0]; op'.uid == op.uid && op'.kind == op.kind && op'.key == op.key
    requires w'.flush == Refused(w.flush.now, w.flush.live[1..], w.flush.why)
    requires forall q | q in w'.queue :: q in w.queue || (q == op' && exists q0 | q0 in w.queue :: q0.uid == op'.uid)
    ensures Shape(w')
  {
    var f, op := w.flush, w.flush.live[0];
    assert op in f.live && forall o | o in f.live[1..] :: o in f.live;
    forall q0 | q0 in w.queue && q0.uid == op.uid ensures q0.kind == Notify && q0.key == op.key {}
    forall o, q | o in f.live[1..] && q in w'.queue && o.uid == q.uid ensures q.kind == Notify && q.key == o.key {
      if q !in w.queue {
        var q0 :| q0 in w.queue && q0.uid == op'.uid;
        assert q0.key == o.key;
      }
    }
  }

  lemma ShapeAfterRefuseOne(w: World)
    requires Shape(w) && NoticeEnabled(w, RefuseOne)
    ensures Shape(ApplyRefuseOne(w))
  {
    var f, op, w' := w.flush, w.flush.live[0], ApplyRefuseOne(w);
    var op' := RefusedOp(op, f.now, f.why);
    assert op in f.live;
    MutateEffect(w.queue, op');
    DropEffect(Mutate(w.queue, op'), op');
    assert w'.queue == Drop(Mutate(w.queue, op'), op') || w'.queue == Mutate(w.queue, op');
    ShapeAfterRefusal(w, w', op');
  }

  lemma SortedWithDeletes(kept: seq<Op>, victims: seq<Id>, uid: nat)
    requires Sorted(kept) && forall q | q in kept :: q.uid < uid
    ensures Sorted(kept + DeleteOps(victims, uid))
    ensures forall q | q in DeleteOps(victims, uid) ::
      uid <= q.uid < uid + |victims| && q.kind == Delete && q.key in victims
  {
    var ops := DeleteOps(victims, uid);
    var queue := kept + ops;
    forall q | q in ops ensures uid <= q.uid < uid + |victims| && q.kind == Delete && q.key in victims {
      var i :| 0 <= i < |ops| && ops[i] == q;
      assert victims[i] in victims;
    }
    forall i, j | 0 <= i < j < |queue| ensures queue[i].uid < queue[j].uid {
      assert i < |kept| ==> queue[i] in kept;
      assert |kept| <= j ==> queue[j] in ops;
    }
  }

  lemma ShapeAfterRemove(w: World, id: Id, victims: seq<Id>)
    requires Shape(w) && WriteEnabled(w, Remove(id, victims))
    ensures Shape(ApplyRemove(w, victims))
  {
    var doomed := set v | v in victims;
    WithoutPutsEffect(w.queue, doomed);
    var kept, ops := WithoutPuts(w.queue, doomed), DeleteOps(victims, w.nextUid);
    SortedWithDeletes(kept, victims, w.nextUid);
    assert ApplyRemove(w, victims).queue == kept + ops;
    assert forall q | q in kept + ops :: q in w.queue || q in ops;
  }

  lemma ShapeAfterCrash(w: World, order: seq<Id>, canNotify: bool, clock: real)
    requires Shape(w) && CrashEnabled(w, order)
    ensures Shape(ApplyCrash(w, order, canNotify, clock))
  {
    assert forall id | id in order :: id in w.disk.Keys;
    LoadedEffect(w.disk, order, w.nextUid);
  }

  /** A fresh op at the end, and records that keep their ids. */
  lemma ShapeAfterEnqueue(w: World, records: map<Id, Record>, used: set<Id>, kind: Kind, key: Id, resolved: bool,
                          next: real)
    requires Shape(w) && w.used <= used && records.Keys <= used && (kind != Resolve ==> key in used)
    ensures Shape(Save(Enqueue(w.(records := records, used := used), kind, key, resolved, next)))
  {
    var w' := Save(Enqueue(w.(records := records, used := used), kind, key, resolved, next));
    var added := Op(w.nextUid, kind, key, resolved, 0, next);
    assert forall q | q in w'.queue :: q in w.queue || q == added;
    assert QueueShape(w');
    assert TodoShape(w');
  }

  lemma ShapeAfterWrite(w: World, e: Event)
    requires Shape(w) && WriteEnabled(w, e)
    ensures Shape(ApplyWrite(w, e))
  {
    match e
    case Add(id, thread, byAgent) =>
      ShapeAfterEnqueue(w, ApplyAdd(w, id, thread, byAgent).records, w.used + {id}, Put, id, false, 0.0);
    case ResolveThread(thread, resolved) =>
      ShapeAfterEnqueue(w, ApplyResolve(w, thread, resolved).records, w.used, Resolve, thread, resolved, 0.0);
    case Remove(id, victims) =>
      ShapeAfterRemove(w, id, victims);
    case Retry(id) =>
      ShapeAfterRetry(w, id);
    case Pull(_) =>
  }

  lemma ShapeAfterRetry(w: World, id: Id)
    requires Shape(w) && id in w.records
    ensures Shape(ApplyRetry(w, id))
  {
    var w' := ApplyRetry(w, id);
    if w.records[id].state != Acked {
      ShapeAfterEnqueue(w, w'.records, w.used, Put, id, false, 0.0);
    } else if w.records[id].notify == GaveUp {
      ShapeAfterEnqueue(w, w'.records, w.used, Notify, id, false, 0.0);
    }
  }

  lemma ShapeAfterStart(w: World, now: real)
    requires Shape(w) && PassEnabled(w, FlushStart(now))
    ensures Shape(ApplyStart(w, now))
  {
    DueEffect(w.queue, now, false);
    DueEffect(w.queue, now, true);
    forall q, o | q in w.queue && o in w.queue && q.uid == o.uid ensures q == o {
      UidsAreDistinct(w.queue, q, o);
    }
  }

  lemma UidsAreDistinct(ops: seq<Op>, a: Op, b: Op)
    requires Sorted(ops) && a in ops && b in ops && a.uid == b.uid
    ensures a == b
  {
    var i :| 0 <= i < |ops| && ops[i] == a;
    var j :| 0 <= j < |ops| && ops[j] == b;
    assert i == j;
  }

  lemma ShapeAfterAbort(w: World)
    requires Shape(w) && PassEnabled(w, Abort)
    ensures Shape(ApplyAbort(w))
  {
    var w' := ApplyAbort(w);
    if w.flush.InPush? { assert w.flush.op in Todo(w.flush); }
    assert forall uid | uid in w'.tries :: uid < w.nextUid;
  }

  lemma ShapeAfterPass(w: World, e: Event)
    requires Shape(w) && PassEnabled(w, e)
    ensures Shape(ApplyPass(w, e))
  {
    match e
    case FlushStart(now) => ShapeAfterStart(w, now);
    case Skip => ShapeAfterSkip(w);
    case Begin => ShapeAfterBegin(w);
    case PushOk => ShapeAfterPushOk(w);
    case PushFail(notStored) => ShapeAfterFail(w, notStored);
    case FlushEnd(_) =>
    case Abort => ShapeAfterAbort(w);
    case Arrive(_) =>
  }

  lemma ShapeAfterNotice(w: World, e: Event)
    requires Shape(w) && NoticeEnabled(w, e)
    ensures Shape(ApplyNotice(w, e))
  {
    match e
    case NoticesStart => ShapeAfterNotices(w);
    case SendEnds(outcome) => ShapeAfterSendEnds(w, outcome);
    case SendRefused(_) =>
    case RefuseOne => ShapeAfterRefuseOne(w);
  }

  lemma ShapeStep(w: World, e: Event)
    requires Shape(w) && Enabled(w, e)
    ensures Shape(Apply(w, e))
  {
    if IsWrite(e) {
      ShapeAfterWrite(w, e);
    } else if IsNotice(e) {
      ShapeAfterNotice(w, e);
    } else if e.Crash? {
      ShapeAfterCrash(w, e.order, e.canNotify, e.clock);
    } else {
      ShapeAfterPass(w, e);
    }
  }

  // ----- five tries and the aborted ones, ever further apart -----------------

  /** How many of the tries were cut short, or how many were not. */
  function Counted(s: seq<Try>, aborted: bool): nat {
    if s == [] then 0
    else Counted(s[..|s| - 1], aborted) + if s[|s| - 1].aborted == aborted then 1 else 0
  }

  lemma {:induction false} CountedAll(s: seq<Try>)
    ensures Counted(s, true) + Counted(s, false) == |s|
    decreases |s|
  {
    if s != [] { CountedAll(s[..|s| - 1]); }
  }

  lemma CountedSnoc(s: seq<Try>, t: Try)
    ensures Counted(s + [t], false) == Counted(s, false) + if t.aborted then 0 else 1
  {
    assert (s + [t])[..|s|] == s;
  }

  /** The times an op was tried: at most five not aborted, each of those followed by the doubling delay. */
  ghost predicate Spaced(s: seq<Try>) {
    Counted(s, false) <= MAX_ATTEMPTS && forall i | 0 <= i < |s| - 1 :: Delayed(s, i)
  }

  ghost predicate Delayed(s: seq<Try>, i: nat)
    requires i < |s| - 1
  {
    var failures, wait := Counted(s[..i + 1], false), s[i + 1].at - s[i].at;
    !s[i].aborted ==>
      && (failures == 1 ==> wait >= 2.0) && (failures == 2 ==> wait >= 4.0)
      && (failures == 3 ==> wait >= 8.0) && (failures == 4 ==> wait >= 16.0)
  }

  /** The delay after each failure, in seconds. */
  lemma BackoffTable()
    ensures Backoff(1) == 2.0 && Backoff(2) == 4.0 && Backoff(3) == 8.0 && Backoff(4) == 16.0 && Backoff(5) == 32.0
  {
    assert Backoff(2) == 2.0 * Backoff(1);
    assert Backoff(3) == 2.0 * Backoff(2);
    assert Backoff(4) == 2.0 * Backoff(3);
    assert Backoff(5) == 2.0 * Backoff(4);
  }

  /** When a push that has failed `op.attempts` times fails again, its next try is 2, 4, 8, 16 seconds on. */
  lemma FailureTable(op: Op, now: real)
    ensures Failing(op, now).attempts == op.attempts + 1
    ensures op.attempts == 0 ==> Failing(op, now).next == now + 2.0
    ensures op.attempts == 1 ==> Failing(op, now).next == now + 4.0
    ensures op.attempts == 2 ==> Failing(op, now).next == now + 8.0
    ensures op.attempts == 3 ==> Failing(op, now).next == now + 16.0
  {
    BackoffTable();
  }

  /** The op's counter and due time agree with its history. */
  ghost predicate Tried(tries: map<nat, seq<Try>>, q: Op) {
    var s := Log(tries, q.uid);
    && Counted(s, false) == q.attempts < MAX_ATTEMPTS
    && (s != [] && !s[|s| - 1].aborted ==> q.next == s[|s| - 1].at + Backoff(q.attempts))
  }

  ghost predicate Flying(f: Flush, uid: nat) {
    f.InPush? && f.op.uid == uid
  }

  function Rest(f: Flush): seq<Op> {
    if f.Pushing? || f.InPush? then f.rest else []
  }

  ghost predicate TriesInv(w: World) {
    && (forall uid | uid in w.tries :: Spaced(w.tries[uid]))
    && (forall q | q in w.queue && q.kind != Notify && !Flying(w.flush, q.uid) :: Tried(w.tries, q))
    && (forall o | o in Rest(w.flush) :: Tried(w.tries, o))
    && (w.flush.InPush? ==>
          var s := Log(w.tries, w.flush.op.uid);
          Counted(s, false) == w.flush.op.attempts + 1 <= MAX_ATTEMPTS && s != [] &&
            s[|s| - 1] == Try(w.flush.now, false))
  }

  /** Steps that push nothing: ops are untouched, new, notices, or gone. */
  lemma TriesElsewhere(w: World, w': World)
    requires QueueShape(w) && TriesInv(w) && w'.tries == w.tries
    requires forall q | q in w'.queue && q.kind != Notify :: q in w.queue || (q.uid >= w.nextUid && q.attempts == 0)
    requires w'.flush == w.flush || (!w'.flush.InPush? && !w.flush.InPush? && forall o | o in Rest(w'.flush) ::
      o in w.queue && o.kind != Notify)
    ensures TriesInv(w')
  {}

  lemma SpacedByDelay(tries: map<nat, seq<Try>>, op: Op, now: real)
    requires Tried(tries, op) && op.next <= now && (op.uid in tries ==> Spaced(tries[op.uid]))
    ensures Spaced(Log(tries, op.uid) + [Try(now, false)])
    ensures Counted(Log(tries, op.uid) + [Try(now, false)], false) == op.attempts + 1
  {
    var s, t := Log(tries, op.uid), Try(now, false);
    CountedSnoc(s, t);
    BackoffTable();
    forall i | 0 <= i < |s| ensures Delayed(s + [t], i) {
      assert (s + [t])[..i + 1] == s[..i + 1];
      if i < |s| - 1 {
        assert Delayed(s, i);
      } else {
        assert s[..i + 1] == s;
      }
    }
  }

  /** Cutting the last try short takes it out of the count and leaves the gaps before it. */
  lemma SpacedAborted(s: seq<Try>)
    requires s != [] && Spaced(s) && !s[|s| - 1].aborted
    ensures var s' := s[..|s| - 1] + [s[|s| - 1].(aborted := true)];
      Spaced(s') && Counted(s', false) == Counted(s, false) - 1 && |s'| == |s| && s'[|s| - 1].aborted
  {
    var init, last := s[..|s| - 1], s[|s| - 1];
    var s' := init + [last.(aborted := true)];
    assert s == init + [last];
    CountedSnoc(init, last);
    CountedSnoc(init, last.(aborted := true));
    forall i | 0 <= i < |s'| - 1 ensures Delayed(s', i) {
      assert Delayed(s, i) && s'[..i + 1] == s[..i + 1];
    }
  }

  lemma TriesAfterBegin(w: World)
    requires Shape(w) && TriesInv(w) && PassEnabled(w, Begin)
    ensures TriesInv(ApplyBegin(w))
  {
    var f, op, rest, w' := w.flush, w.flush.rest[0], w.flush.rest[1..], ApplyBegin(w);
    assert f.rest == [op] + rest;
    TodoTail(op, rest);
    assert op in Rest(f) && forall o | o in rest :: o in Rest(f);
    TriesBegun(w, w', op, rest);
  }

  lemma TriesBegun(w: World, w': World, op: Op, rest: seq<Op>)
    requires TriesInv(w) && w.flush.Pushing? && op in w.flush.rest && op.next <= w.flush.now
    requires forall o | o in rest :: o in w.flush.rest && o.uid != op.uid
    requires w'.flush == InPush(w.flush.now, w.flush.firstNew, op, rest, w.flush.notices)
    requires w'.queue == w.queue && w'.tries == w.tries[op.uid := Log(w.tries, op.uid) + [Try(w.flush.now, false)]]
    ensures TriesInv(w')
  {
    assert Tried(w.tries, op);
    SpacedByDelay(w.tries, op, w.flush.now);
    LogElsewhere(w, w', op, Log(w.tries, op.uid) + [Try(w.flush.now, false)]);
  }

  lemma LogElsewhere(w: World, w': World, op: Op, log: seq<Try>)
    requires w'.tries == w.tries[op.uid := log]
    ensures Log(w'.tries, op.uid) == log
    ensures forall q: Op | q.uid != op.uid && Tried(w.tries, q) :: Tried(w'.tries, q)
  {
    forall q: Op | q.uid != op.uid && Tried(w.tries, q) ensures Tried(w'.tries, q) {
      assert Log(w'.tries, q.uid) == Log(w.tries, q.uid);
    }
  }

  lemma TriesAfterPushOk(w: World)
    requires Shape(w) && TriesInv(w) && w.flush.InPush?
    ensures TriesInv(ApplyPushOk(w))
  {
    var f, op := w.flush, w.flush.op;
    assert op in Todo(f) && forall o | o in f.rest :: o in Todo(f);
    DropHead(w.queue, op, f.rest, f.now, f.firstNew);
    DropEffect(w.queue, op);
    PushOkFrame(w);
    var joined := PushOkQueue(w);
  }

  lemma TriesAfterFail(w: World, notStored: bool)
    requires Shape(w) && TriesInv(w) && w.flush.InPush?
    ensures TriesInv(ApplyPushFail(w, notStored))
  {
    var f, w' := w.flush, ApplyPushFail(w, notStored);
    var op := Failing(f.op, f.now);
    assert f.op in Todo(f) && f.op.kind != Notify;
    var queue := Mutate(w.queue, op);
    MutateEffect(w.queue, op);
    DropEffect(queue, op);
    if op.attempts >= MAX_ATTEMPTS {
      forall q | q in queue && SameValue(q, op) ensures op.uid <= q.uid {
        assert q != op ==> q in w.queue && Tried(w.tries, q);
      }
      DropTakesItself(queue, op);
    } else {
      assert Tried(w.tries, op);
    }
  }

  lemma TriesAfterAbort(w: World)
    requires Shape(w) && TriesInv(w) && PassEnabled(w, Abort)
    ensures TriesInv(ApplyAbort(w))
  {
    if w.flush.InPush? {
      assert w.flush.op in Todo(w.flush);
      TriesAborted(w, ApplyAbort(w), w.flush.op);
    } else {
      TriesElsewhere(w, ApplyAbort(w));
    }
  }

  lemma TriesAborted(w: World, w': World, op: Op)
    requires TriesInv(w) && w.flush.InPush? && op == w.flush.op && w'.flush.Idle? && w'.queue == w.queue
    requires w'.tries == MarkAborted(w.tries, op.uid) && forall q | q in w.queue && q.uid == op.uid :: q == op
    ensures TriesInv(w')
  {
    var s := Log(w.tries, op.uid);
    SpacedAborted(s);
    LogElsewhere(w, w', op, s[..|s| - 1] + [s[|s| - 1].(aborted := true)]);
    assert Tried(w'.tries, op);
  }

  lemma TriesAfterPass(w: World, e: Event)
    requires Shape(w) && TriesInv(w) && PassEnabled(w, e)
    ensures TriesInv(ApplyPass(w, e))
  {
    match e
    case FlushStart(now) =>
      DueEffect(w.queue, now, false);
      TriesElsewhere(w, ApplyStart(w, now));
    case Skip =>
      DropEffect(w.queue, w.flush.rest[0]);
      assert forall o | o in w.flush.rest[1..] :: o in w.flush.rest;
    case Begin => TriesAfterBegin(w);
    case PushOk => TriesAfterPushOk(w);
    case PushFail(notStored) => TriesAfterFail(w, notStored);
    case FlushEnd(save) => TriesElsewhere(w, ApplyEnd(w, save));
    case Abort => TriesAfterAbort(w);
    case Arrive(_) => TriesElsewhere(w, ApplyPass(w, e));
  }

  lemma TriesAfterCrash(w: World, order: seq<Id>, canNotify: bool, clock: real)
    requires Shape(w) && TriesInv(w) && CrashEnabled(w, order)
    ensures TriesInv(ApplyCrash(w, order, canNotify, clock))
  {
    assert forall id | id in order :: id in w.disk.Keys;
    LoadedEffect(w.disk, order, w.nextUid);
    assert forall q | q in ApplyCrash(w, order, canNotify, clock).queue :: Log(w.tries, q.uid) == [];
  }

  lemma TriesStep(w: World, e: Event)
    requires Shape(w) && TriesInv(w) && Enabled(w, e)
    ensures TriesInv(Apply(w, e))
  {
    if IsWrite(e) {
      WriteQueue(w, e);
      TriesElsewhere(w, ApplyWrite(w, e));
    } else if IsNotice(e) {
      TriesNotice(w, e);
    } else if e.Crash? {
      TriesAfterCrash(w, e.order, e.canNotify, e.clock);
    } else {
      TriesAfterPass(w, e);
    }
  }

  /** A reader's write only appends fresh ops, and a removal takes its puts along. */
  lemma WriteQueue(w: World, e: Event)
    requires WriteEnabled(w, e)
    ensures var w' := ApplyWrite(w, e);
      && w'.flush == w.flush && w'.tries == w.tries
      && (forall q | q in w'.queue :: q in w.queue || (q.uid >= w.nextUid && q.attempts == 0))
      && (forall q | q in w.queue && !(e.Remove? && q.kind == Put && q.key in e.victims) :: q in w'.queue)
  {
    match e
    case Remove(id, victims) => WithoutPutsEffect(w.queue, set v | v in victims);
    case _ =>
  }

  lemma TriesNotice(w: World, e: Event)
    requires Shape(w) && TriesInv(w) && NoticeEnabled(w, e)
    ensures TriesInv(ApplyNotice(w, e))
  {
    NoticeQueue(w, e);
    TriesElsewhere(w, ApplyNotice(w, e));
  }

  /** The keys whose notices a step may touch. */
  function NoticeKeys(w: World, e: Event): set<Id>
    requires NoticeEnabled(w, e)
  {
    match e
    case NoticesStart => Keys(w.flush.notices)
    case SendEnds(_) => Keys(w.flush.live)
    case SendRefused(_) => {}
    case RefuseOne => {w.flush.live[0].key}
  }

  /** Announcing touches notices alone, and only of the remarks at hand. */
  lemma NoticeQueue(w: World, e: Event)
    requires Shape(w) && NoticeEnabled(w, e)
    ensures forall q: Op | q.kind != Notify || q.key !in NoticeKeys(w, e) ::
      q in ApplyNotice(w, e).queue <==> q in w.queue
  {
    match e
    case NoticesStart => GatherShape(w.records, w.canNotify, w.queue, w.flush.notices, []);
    case SendEnds(_) => DropAllShape(w.queue, w.flush.live);
    case SendRefused(_) =>
    case RefuseOne => RefusedQueue(w);
  }

  lemma RefusedQueue(w: World)
    requires Shape(w) && NoticeEnabled(w, RefuseOne)
    ensures forall q: Op | q.kind != Notify || q.key != w.flush.live[0].key ::
      q in ApplyRefuseOne(w).queue <==> q in w.queue
  {
    var f, op, w' := w.flush, w.flush.live[0], ApplyRefuseOne(w);
    var op' := RefusedOp(op, f.now, f.why);
    assert op in f.live;
    MutateEffect(w.queue, op');
    DropEffect(Mutate(w.queue, op'), op');
    assert w'.queue == Drop(Mutate(w.queue, op'), op') || w'.queue == Mutate(w.queue, op');
  }

  // ----- an acked remark stays acked -----------------------------------------

  ghost predicate AckedIfHeld(records: map<Id, Record>, id: Id) {
    id in records ==> records[id].state == Acked
  }

  ghost predicate AckInv(w: World) {
    && (forall q | q in w.queue && q.kind == Notify :: AckedIfHeld(w.records, q.key))
    && (forall q | q in NoticeList(w.flush) :: AckedIfHeld(w.records, q.key))
    && (w.flush.InPush? && w.flush.op.kind == Put && w.flush.op.key in w.records ==>
      w.records[w.flush.op.key].state != Acked)
    && (forall id | id in w.disk && w.disk[id].state == Acked :: AckedIfHeld(w.records, id))
  }

  /** Between two states of one process: what was acked and is still held is still acked. */
  ghost predicate AckKept(w: World, w': World) {
    forall id | id in w.records && w.records[id].state == Acked :: AckedIfHeld(w'.records, id)
  }

  lemma AckFrom(w: World, w': World)
    requires Shape(w) && AckInv(w) && AckKept(w, w')
    requires forall id | id in w'.records && id !in w.records :: id !in w.used || w'.records[id].state == Acked
    requires w'.disk == w.disk || w'.disk == w'.records
    requires forall q | q in w'.queue && q.kind == Notify :: q.key in w.used && AckedIfHeld(w.records, q.key)
    requires forall q | q in NoticeList(w'.flush) :: q.key in w.used && AckedIfHeld(w.records, q.key)
    requires w'.flush.InPush? && w'.flush.op.kind == Put && w'.flush.op.key in w'.records ==>
      w'.records[w'.flush.op.key].state != Acked
    ensures AckInv(w')
  {}

  /** What a write does to the records: new ids are unused or pulled in acked, nothing else turns
      acked or stops being so, and no announcement state changes but failed to waiting. */
  lemma WriteRecords(w: World, e: Event)
    requires w.records.Keys <= w.used && WriteEnabled(w, e)
    ensures var w' := ApplyWrite(w, e);
      && w'.flush == w.flush && (w'.disk == w'.records || w' == w) && w.used <= w'.used && w'.sends == w.sends
      && (forall id | id in w'.records && id in w.records ::
            && (w'.records[id].state == Acked <==> w.records[id].state == Acked)
            && (w'.records[id].notify == w.records[id].notify ||
              (w.records[id].notify == GaveUp && w'.records[id].notify == Waiting)))
      && (forall id | id in w'.records && id !in w.records ::
            id !in w.used || (w'.records[id].state == Acked && w'.records[id].notify == Quiet && e.Pull?))
  {}

  /** A notice a write queues is for a remark that is acked. */
  lemma WriteNotices(w: World, e: Event)
    requires WriteEnabled(w, e)
    ensures forall q | q in ApplyWrite(w, e).queue && q.kind == Notify ::
      q in w.queue || (q.key in w.records && w.records[q.key].state == Acked)
  {
    if e.Remove? {
      WithoutPutsEffect(w.queue, set v | v in e.victims);
    }
  }

  lemma AckWritten(w: World, w': World, pulled: bool)
    requires Shape(w) && AckInv(w) && w'.flush == w.flush && (w'.disk == w'.records || w' == w)
    requires forall id | id in w'.records && id in w.records ::
      w'.records[id].state == Acked <==> w.records[id].state == Acked
    requires forall id | id in w'.records && id !in w.records ::
      id !in w.used || (w'.records[id].state == Acked && pulled)
    requires pulled ==> w.flush.Idle?
    requires forall q | q in w'.queue && q.kind == Notify ::
      q in w.queue || (q.key in w.records && w.records[q.key].state == Acked)
    ensures AckInv(w') && AckKept(w, w')
  {
    if w.flush.InPush? {
      assert w.flush.op in Todo(w.flush);
    }
    AckFrom(w, w');
  }

  lemma AckAfterWrite(w: World, e: Event)
    requires Shape(w) && AckInv(w) && WriteEnabled(w, e)
    ensures AckInv(ApplyWrite(w, e)) && AckKept(w, ApplyWrite(w, e))
  {
    WriteRecords(w, e);
    WriteNotices(w, e);
    AckWritten(w, ApplyWrite(w, e), e.Pull?);
  }

  lemma AckPushed(w: World, w': World, joined: seq<Op>)
    requires AckInv(w) && w.flush.InPush? && w.flush.op.kind != Notify
    requires w'.queue == Drop(w.queue, w.flush.op) + joined && (forall q | q in joined ::
      q.key == w.flush.op.key && w.flush.op.kind == Put)
    requires w'.disk == w.disk && w'.records.Keys == w.records.Keys
    requires w'.flush == Pushing(w.flush.now, w.flush.firstNew, w.flush.rest, w.flush.notices)
    requires forall id | id in w.records ::
      w'.records[id].state == (if w.flush.op.kind == Put && id == w.flush.op.key then Acked else w.records[id].state)
    ensures AckKept(w, w') && AckInv(w')
  {
    DropEffect(w.queue, w.flush.op);
  }

  lemma AckAfterPushOk(w: World)
    requires Shape(w) && AckInv(w) && w.flush.InPush?
    ensures AckKept(w, ApplyPushOk(w)) && AckInv(ApplyPushOk(w))
  {
    assert w.flush.op in Todo(w.flush);
    var joined := PushOkQueue(w);
    AckPushed(w, ApplyPushOk(w), joined);
  }

  lemma AckAfterFail(w: World, notStored: bool)
    requires Shape(w) && AckInv(w) && w.flush.InPush?
    ensures AckKept(w, ApplyPushFail(w, notStored)) && AckInv(ApplyPushFail(w, notStored))
  {
    var f, w' := w.flush, ApplyPushFail(w, notStored);
    var op := Failing(f.op, f.now);
    assert f.op in Todo(f);
    MutateEffect(w.queue, op);
    DropEffect(Mutate(w.queue, op), op);
    AckFrom(w, w');
  }

  /** What announcing does to the records: only announcement states change. */
  lemma NoticeRecords(w: World, e: Event)
    requires NoticeEnabled(w, e)
    ensures var w' := ApplyNotice(w, e);
      && w'.records.Keys == w.records.Keys && (w'.disk == w.disk || w'.disk == w'.records)
      && (forall id | id in w.records :: w'.records[id].state == w.records[id].state)
  {}

  lemma NoticeFlush(w: World, e: Event)
    requires Shape(w) && NoticeEnabled(w, e)
    ensures forall q | q in NoticeList(ApplyNotice(w, e).flush) :: q in NoticeList(w.flush)
    ensures !ApplyNotice(w, e).flush.InPush?
    ensures NoticeKeys(w, e) <= Keys(NoticeList(w.flush))
  {
    if e.NoticesStart? {
      NoticesFrame(w);
    } else if e.RefuseOne? {
      assert w.flush.live[0] in w.flush.live;
    }
  }

  lemma AckAfterNotice(w: World, e: Event)
    requires Shape(w) && AckInv(w) && NoticeEnabled(w, e)
    ensures AckKept(w, ApplyNotice(w, e)) && AckInv(ApplyNotice(w, e))
  {
    NoticeQueue(w, e);
    NoticeRecords(w, e);
    NoticeFlush(w, e);
    AckNoticed(w, ApplyNotice(w, e), NoticeKeys(w, e));
  }

  lemma AckNoticed(w: World, w': World, keys: set<Id>)
    requires Shape(w) && AckInv(w) && keys <= Keys(NoticeList(w.flush)) && !w'.flush.InPush?
    requires w'.records.Keys == w.records.Keys && (w'.disk == w.disk || w'.disk == w'.records)
    requires forall id | id in w.records :: w'.records[id].state == w.records[id].state
    requires forall q | q in NoticeList(w'.flush) :: q in NoticeList(w.flush)
    requires forall q: Op | q.kind != Notify || q.key !in keys :: q in w'.queue <==> q in w.queue
    ensures AckKept(w, w') && AckInv(w')
  {
    forall q | q in w'.queue && q.kind == Notify ensures q.key in w.used && AckedIfHeld(w.records, q.key) {
      if q.key in keys {
        var o :| o in NoticeList(w.flush) && o.key == q.key;
      } else {
        assert q in w.queue;
      }
    }
    AckFrom(w, w');
  }

  lemma AckAfterPass(w: World, e: Event)
    requires Shape(w) && AckInv(w) && PassEnabled(w, e)
    ensures AckInv(ApplyPass(w, e)) && AckKept(w, ApplyPass(w, e))
  {
    match e
    case FlushStart(now) =>
      DueEffect(w.queue, now, true);
      AckFrom(w, ApplyStart(w, now));
    case Skip =>
      DropEffect(w.queue, w.flush.rest[0]);
      AckFrom(w, ApplySkip(w));
    case Begin => AckFrom(w, ApplyBegin(w));
    case PushOk => AckAfterPushOk(w);
    case PushFail(notStored) => AckAfterFail(w, notStored);
    case FlushEnd(save) => AckFrom(w, ApplyEnd(w, save));
    case Abort => AckFrom(w, ApplyAbort(w));
    case Arrive(_) =>
  }

  lemma AckAfterCrash(w: World, order: seq<Id>, canNotify: bool, clock: real)
    requires Shape(w) && AckInv(w) && CrashEnabled(w, order)
    ensures AckInv(ApplyCrash(w, order, canNotify, clock))
  {
    assert forall id | id in order :: id in w.disk.Keys;
    LoadedEffect(w.disk, order, w.nextUid);
  }

  lemma AckStep(w: World, e: Event)
    requires Shape(w) && AckInv(w) && Enabled(w, e)
    ensures AckInv(Apply(w, e))
    ensures !e.Crash? ==> AckKept(w, Apply(w, e))
  {
    if IsWrite(e) {
      AckAfterWrite(w, e);
    } else if IsNotice(e) {
      AckAfterNotice(w, e);
    } else if e.Crash? {
      AckAfterCrash(w, e.order, e.canNotify, e.clock);
    } else {
      AckAfterPass(w, e);
    }
  }

  // ----- announced at most once ----------------------------------------------

  /** Send `i` names the remark and was not turned down. */
  ghost predicate Counts(sends: seq<Send>, i: int, id: Id) {
    0 <= i < |sends| && id in sends[i].keys && sends[i].outcome != Rejected
  }

  ghost predicate Announced(sends: seq<Send>, id: Id) {
    exists i :: Counts(sends, i, id)
  }

  /** Whatever is sent again was turned down each time before. */
  ghost predicate EarlierRejected(sends: seq<Send>) {
    forall i, j, id | 0 <= i < j < |sends| && id in sends[i].keys && id in sends[j].keys :: sends[i].outcome == Rejected
  }

  /** A remark still to be announced, or given up and so open to a retry. */
  ghost predicate Open(records: map<Id, Record>, id: Id) {
    id in records && records[id].notify in {Waiting, GaveUp}
  }

  ghost predicate SendInv(w: World) {
    && EarlierRejected(w.sends)
    && (forall id | Announced(w.sends, id) :: id in w.used && !Open(w.records, id) && !Open(w.disk, id))
    && (w.flush.Announcing? ==>
      && w.flush.send < |w.sends| && w.sends[w.flush.send] == Send(Keys(w.flush.live), InFlight)
      && (forall id | id in Keys(w.flush.live) && id in w.records :: w.records[id].notify == Sending)
      && (forall id | id in Keys(w.flush.live) && id in w.disk :: w.disk[id].notify == Sending))
    && (w.flush.Refused? ==> forall o | o in w.flush.live && o.key in w.records :: Open(w.records, o.key))
  }

  /** Steps that send nothing. */
  lemma SendFrom(w: World, w': World)
    requires Shape(w) && SendInv(w) && w'.sends == w.sends && w.used <= w'.used
    requires forall id | Open(w'.records, id) :: Open(w.records, id) || id !in w.used
    requires w'.disk == w.disk || w'.disk == w'.records
    requires w'.flush.Announcing? || w'.flush.Refused? ==>
      w'.flush == w.flush && forall id | id in w'.records ::
        (id in w.records && (w'.records[id].notify == w.records[id].notify ||
          (Open(w.records, id) && Open(w'.records, id)))) || id !in w.used
    ensures SendInv(w')
  {
    if w'.flush.Announcing? || w'.flush.Refused? {
      forall id | id in Keys(w.flush.live) ensures id in w.used {}
    }
  }

  lemma {:induction false} GatherLive(records: map<Id, Record>, canNotify: bool, queue: seq<Op>, notices: seq<Op>,
                                      live: seq<Op>)
    ensures var g := Gather(records, canNotify, queue, notices, live);
      && Keys(live) <= Keys(g.1)
      && (forall k | k in Keys(g.1) && k !in Keys(live) ::
        k in Keys(notices) && k in records && records[k].notify == Waiting)
      && (canNotify ==> forall k | k in Keys(notices) && k in records && records[k].notify == Waiting :: k in Keys(g.1))
    decreases |notices|
  {
    if notices != [] {
      var op := notices[0];
      assert notices == [op] + notices[1..];
      assert Keys(notices) == {op.key} + Keys(notices[1..]);
      if op.key !in records || records[op.key].notify != Waiting || !canNotify || op.key in Keys(live) {
        GatherLive(records, canNotify, Drop(queue, op), notices[1..], live);
      } else {
        assert Keys(live + [op]) == Keys(live) + {op.key};
        GatherLive(records, canNotify, queue, notices[1..], live + [op]);
      }
    }
  }

  lemma SendAfterNotices(w: World)
    requires Shape(w) && SendInv(w) && w.flush.Pushing?
    ensures SendInv(ApplyNotices(w))
  {
    GatherLive(w.records, w.canNotify, w.queue, w.flush.notices, []);
    var g := Gather(w.records, w.canNotify, w.queue, w.flush.notices, []);
    assert Keys([]) == {};
    if g.1 != [] {
      SendOut(w, ApplyNotices(w), Keys(g.1));
    } else {
      SendFrom(w, ApplyNotices(w));
    }
  }

  lemma SendOut(w: World, w': World, keys: set<Id>)
    requires Shape(w) && SendInv(w) && w'.sends == w.sends + [Send(keys, InFlight)] && w'.used == w.used
    requires forall k | k in keys :: k in w.records && w.records[k].notify == Waiting
    requires w'.records == SetNotice(w.records, keys, Sending) && w'.disk == w'.records
    requires w'.flush.Announcing? && w'.flush.send == |w.sends| && Keys(w'.flush.live) == keys
    ensures SendInv(w')
  {
    forall i, id | Counts(w'.sends, i, id) ensures if i == |w.sends| then id in keys else Counts(w.sends, i, id) {}
    forall k | k in keys ensures !Announced(w.sends, k) {
      assert Open(w.records, k);
    }
    forall i, k | 0 <= i < |w.sends| && k in w.sends[i].keys && k in keys ensures w.sends[i].outcome == Rejected {
      assert !Announced(w.sends, k) && !Counts(w.sends, i, k);
    }
    forall id | Announced(w'.sends, id) ensures id in w.used && !Open(w'.records, id) {
      var i :| Counts(w'.sends, i, id);
      if i != |w.sends| {
        assert Announced(w.sends, id);
      }
    }
  }

  lemma SendAfterEnd(w: World, w': World, outcome: Outcome)
    requires SendInv(w) && w.flush.Announcing? && outcome != InFlight && w'.used == w.used && w'.disk == w.disk
    requires w'.sends == w.sends[w.flush.send := w.sends[w.flush.send].(outcome := outcome)]
    requires w'.records == SetNotice(w.records, Keys(w.flush.live), if outcome == Rejected then Waiting else Sent)
    requires if outcome == Rejected then w'.flush.Refused? && w'.flush.live == w.flush.live else w'.flush.Finishing?
    ensures SendInv(w')
  {
    var s := w.flush.send;
    forall i, id | Counts(w'.sends, i, id) ensures Counts(w.sends, i, id) && (i == s ==> outcome != Rejected) {}
    forall id | Announced(w'.sends, id) ensures id in w.used && !Open(w'.records, id) && !Open(w.disk, id) {
      var i :| Counts(w'.sends, i, id);
      assert Announced(w.sends, id);
      assert outcome == Rejected ==> i != s;
      assert id in Keys(w.flush.live) ==> Counts(w.sends, s, id);
    }
  }

  lemma SendAfterRefuseOne(w: World)
    requires Shape(w) && SendInv(w) && NoticeEnabled(w, RefuseOne)
    ensures SendInv(ApplyRefuseOne(w))
  {
    var w' := ApplyRefuseOne(w);
    var op := w.flush.live[0];
    assert op in w.flush.live && forall o | o in w.flush.live[1..] :: o in w.flush.live;
    forall id | Open(w'.records, id) ensures Open(w.records, id) {}
    forall id | Open(w.records, id) ensures Open(w'.records, id) {}
  }

  lemma SendAfterPass(w: World, e: Event)
    requires Shape(w) && SendInv(w) && PassEnabled(w, e)
    ensures SendInv(ApplyPass(w, e))
  {
    match e
    case FlushStart(now) => SendFrom(w, ApplyStart(w, now));
    case Skip => SendFrom(w, ApplySkip(w));
    case Begin => SendFrom(w, ApplyBegin(w));
    case PushOk => SendFrom(w, ApplyPushOk(w));
    case PushFail(notStored) => SendFrom(w, ApplyPushFail(w, notStored));
    case FlushEnd(save) => SendFrom(w, ApplyEnd(w, save));
    case Abort => SendFrom(w, ApplyAbort(w));
    case Arrive(_) => SendFrom(w, ApplyPass(w, e));
  }

  lemma SendAfterNotice(w: World, e: Event)
    requires Shape(w) && SendInv(w) && NoticeEnabled(w, e)
    ensures SendInv(ApplyNotice(w, e))
  {
    match e
    case NoticesStart => SendAfterNotices(w);
    case SendEnds(outcome) => SendAfterEnd(w, ApplySendEnds(w, outcome), outcome);
    case SendRefused(why) => SendAfterEnd(w, ApplySendRefused(w, why), Rejected);
    case RefuseOne => SendAfterRefuseOne(w);
  }

  lemma SendAfterWrite(w: World, e: Event)
    requires Shape(w) && SendInv(w) && WriteEnabled(w, e)
    ensures SendInv(ApplyWrite(w, e))
  {
    WriteRecords(w, e);
    SendFrom(w, ApplyWrite(w, e));
  }

  lemma SendAfterCrash(w: World, order: seq<Id>, canNotify: bool, clock: real)
    requires Shape(w) && SendInv(w) && CrashEnabled(w, order)
    ensures SendInv(ApplyCrash(w, order, canNotify, clock))
  {
    forall id | Open(ApplyCrash(w, order, canNotify, clock).records, id) ensures Open(w.disk, id) {}
  }

  lemma SendStep(w: World, e: Event)
    requires Shape(w) && SendInv(w) && Enabled(w, e)
    ensures SendInv(Apply(w, e))
  {
    if IsWrite(e) {
      SendAfterWrite(w, e);
    } else if IsNotice(e) {
      SendAfterNotice(w, e);
    } else if e.Crash? {
      SendAfterCrash(w, e.order, e.canNotify, e.clock);
    } else {
      SendAfterPass(w, e);
    }
  }

  // ----- nothing is stranded -------------------------------------------------

  function Count(ops: seq<Op>, k: Id): nat {
    if ops == [] then 0 else (if ops[0].kind == Notify && ops[0].key == k then 1 else 0) + Count(ops[1..], k)
  }

  lemma {:induction false} CountHas(ops: seq<Op>, k: Id)
    ensures Count(ops, k) > 0 <==> Has(ops, Notify, k)
  {
    if ops != [] {
      CountHas(ops[1..], k);
      assert ops == [ops[0]] + ops[1..];
    }
  }

  lemma {:induction false} CountConcat(a: seq<Op>, b: seq<Op>, k: Id)
    ensures Count(a + b, k) == Count(a, k) + Count(b, k)
  {
    if a == [] {
      assert a + b == b;
    } else {
      assert (a + b)[1..] == a[1..] + b;
      CountConcat(a[1..], b, k);
    }
  }

  lemma {:induction false} CountDrop(queue: seq<Op>, op: Op, k: Id)
    ensures Count(Drop(queue, op), k) >= Count(queue, k) - (if op.kind == Notify && op.key == k then 1 else 0)
  {
    if queue != [] && !SameValue(queue[0], op) {
      CountDrop(queue[1..], op, k);
      assert Drop(queue, op)[1..] == Drop(queue[1..], op);
    }
  }

  lemma {:induction false} CountWithoutPuts(queue: seq<Op>, victims: set<Id>, k: Id)
    ensures Count(WithoutPuts(queue, victims), k) == Count(queue, k)
  {
    if queue != [] {
      CountWithoutPuts(queue[1..], victims, k);
      if !(queue[0].kind == Put && queue[0].key in victims) {
        assert WithoutPuts(queue, victims)[1..] == WithoutPuts(queue[1..], victims);
      }
    }
  }

  lemma {:induction false} CountDue(queue: seq<Op>, now: real, k: Id)
    ensures Count(Due(queue, now, true), k) <= Count(queue, k)
  {
    if queue != [] {
      CountDue(queue[1..], now, k);
      if queue[0].next <= now && queue[0].kind == Notify {
        assert Due(queue, now, true)[1..] == Due(queue[1..], now, true);
      }
    }
  }

  lemma {:induction false} CountMutate(queue: seq<Op>, op: Op, k: Id)
    requires op.kind != Notify && forall q | q in queue && q.uid == op.uid :: q.kind != Notify
    ensures Count(Mutate(queue, op), k) == Count(queue, k)
  {
    if queue != [] {
      assert queue[0] in queue;
      CountMutate(queue[1..], op, k);
      assert Mutate(queue, op)[1..] == Mutate(queue[1..], op);
    }
  }

  /** Of each remark announced one notice survives in the queue, though removal is by value and
      may take the very object that is being announced. */
  lemma {:induction false} GatherCount(records: map<Id, Record>, canNotify: bool, queue: seq<Op>, notices: seq<Op>,
                                       live: seq<Op>, k: Id)
    requires forall q | q in notices :: q.kind == Notify
    ensures var g := Gather(records, canNotify, queue, notices, live);
      Count(g.0, k) + Count(notices, k) >= Count(queue, k) + (if k in Keys(g.1) && k !in Keys(live) then 1 else 0)
    decreases |notices|
  {
    if notices != [] {
      var op := notices[0];
      if op.key !in records || records[op.key].notify != Waiting || !canNotify || op.key in Keys(live) {
        CountDrop(queue, op, k);
        GatherCount(records, canNotify, Drop(queue, op), notices[1..], live, k);
      } else {
        assert Keys(live + [op]) == Keys(live) + {op.key};
        GatherCount(records, canNotify, queue, notices[1..], live + [op], k);
      }
    }
  }

  ghost predicate OneEach(ops: seq<Op>) {
    forall i, j | 0 <= i < j < |ops| :: ops[i].key != ops[j].key
  }

  lemma {:induction false} GatherOneEach(records: map<Id, Record>, canNotify: bool, queue: seq<Op>, notices: seq<Op>,
                                         live: seq<Op>)
    requires OneEach(live)
    ensures OneEach(Gather(records, canNotify, queue, notices, live).1)
    decreases |notices|
  {
    if notices != [] {
      var op := notices[0];
      if op.key !in records || records[op.key].notify != Waiting || !canNotify || op.key in Keys(live) {
        GatherOneEach(records, canNotify, Drop(queue, op), notices[1..], live);
      } else {
        forall i | 0 <= i < |live| ensures live[i].key in Keys(live) {
          assert live[i] in live;
        }
        GatherOneEach(records, canNotify, queue, notices[1..], live + [op]);
      }
    }
  }

  /** A pending record has its put queued, and an acked one still to be announced its notice. */
  ghost predicate Served(w: World, id: Id)
    requires id in w.records
  {
    var r := w.records[id];
    && (r.state == Pending ==> Has(w.queue, Put, id))
    && (w.canNotify && r.state == Acked && r.notify == Waiting ==> Has(w.queue, Notify, id))
  }

  ghost predicate StrandInv(w: World) {
    && (forall id | id in w.records :: Served(w, id))
    && (w.flush.Pushing? || w.flush.InPush? ==> forall k :: Count(w.queue, k) >= Count(w.flush.notices, k))
    && (w.flush.Announcing? || w.flush.Refused? ==>
          OneEach(w.flush.live) && forall o | o in w.flush.live :: Has(w.queue, Notify, o.key))
  }

  lemma HasConcat(a: seq<Op>, b: seq<Op>, kind: Kind, key: Id)
    ensures Has(a + b, kind, key) <==> Has(a, kind, key) || Has(b, kind, key)
  {
    if Has(a, kind, key) {
      var q :| q in a && q.kind == kind && q.key == key;
      assert q in a + b;
    }
    if Has(b, kind, key) {
      var q :| q in b && q.kind == kind && q.key == key;
      assert q in a + b;
    }
  }

  /** The queue lost nothing of this kind and key. */
  lemma HasKept(queue: seq<Op>, queue': seq<Op>, kind: Kind, key: Id)
    requires Has(queue, kind, key) && forall q | q in queue && q.kind == kind && q.key == key :: q in queue'
    ensures Has(queue', kind, key)
  {
    var q :| q in queue && q.kind == kind && q.key == key;
    assert q in queue';
  }

  lemma WriteServes(w: World, e: Event, id: Id)
    requires QueueShape(w) && StrandInv(w) && WriteEnabled(w, e) && id in ApplyWrite(w, e).records
    ensures Served(ApplyWrite(w, e), id)
  {
    var w' := ApplyWrite(w, e);
    WriteQueue(w, e);
    WriteRecords(w, e);
    if id in w.records {
      assert Served(w, id);
      if Has(w.queue, Put, id) { HasKept(w.queue, w'.queue, Put, id); }
      if Has(w.queue, Notify, id) { HasKept(w.queue, w'.queue, Notify, id); }
    }
    if (e.Add? || e.Retry?) && e.id == id && |w'.queue| > |w.queue| {
      assert w'.queue[|w.queue|] in w'.queue;
    }
  }

  lemma WriteCounts(w: World, e: Event, k: Id)
    requires WriteEnabled(w, e)
    ensures Count(ApplyWrite(w, e).queue, k) >= Count(w.queue, k)
  {
    var w' := ApplyWrite(w, e);
    if e.Remove? {
      var doomed := set v | v in e.victims;
      CountWithoutPuts(w.queue, doomed, k);
      CountConcat(WithoutPuts(w.queue, doomed), DeleteOps(e.victims, w.nextUid), k);
    } else {
      assert w'.queue == w.queue + w'.queue[|w.queue|..] by {
        if e.Pull? { assert w'.queue == w.queue; }
      }
      CountConcat(w.queue, w'.queue[|w.queue|..], k);
    }
  }

  lemma StrandAfterWrite(w: World, e: Event)
    requires Shape(w) && StrandInv(w) && WriteEnabled(w, e)
    ensures StrandInv(ApplyWrite(w, e))
  {
    var w' := ApplyWrite(w, e);
    WriteQueue(w, e);
    forall id | id in w'.records ensures Served(w', id) {
      WriteServes(w, e, id);
    }
    forall k ensures Count(w'.queue, k) >= Count(w.queue, k) {
      WriteCounts(w, e, k);
      CountHas(w.queue, k);
      CountHas(w'.queue, k);
    }
    forall k | Has(w.queue, Notify, k) ensures Has(w'.queue, Notify, k) {
      CountHas(w.queue, k);
      CountHas(w'.queue, k);
    }
  }

  /** The worker's queue changes in one place: everything but the pushed op's own kind and key stays. */
  lemma StrandAfterHead(w: World, w': World, op: Op)
    requires StrandInv(w) && (w.flush.Pushing? || w.flush.InPush?) && op.kind != Notify && w'.flush.Pushing?
    requires w'.flush.notices == w.flush.notices && w'.canNotify == w.canNotify && w'.records.Keys == w.records.Keys
    requires forall kind, key | Has(w.queue, kind, key) && (kind, key) != (op.kind, op.key) :: Has(w'.queue, kind, key)
    requires forall k :: Count(w'.queue, k) >= Count(w.queue, k)
    requires forall id | id in w.records && (op.kind != Put || id != op.key) :: w'.records[id] == w.records[id]
    requires op.kind == Put && op.key in w.records ==> Served(w', op.key)
    ensures StrandInv(w')
  {
    forall id | id in w'.records ensures Served(w', id) {
      if id in w.records && (op.kind != Put || id != op.key) {
        assert Served(w, id);
      }
    }
  }

  lemma StrandAfterSkip(w: World)
    requires Shape(w) && StrandInv(w) && PassEnabled(w, Skip)
    ensures StrandInv(ApplySkip(w))
  {
    var w', op := ApplySkip(w), w.flush.rest[0];
    assert op in Todo(w.flush);
    forall kind, key | Has(w.queue, kind, key) && (kind, key) != (op.kind, op.key) ensures Has(w'.queue, kind, key) {
      HasAfterDrop(w.queue, op, kind, key);
    }
    forall k ensures Count(w'.queue, k) >= Count(w.queue, k) { CountDrop(w.queue, op, k); }
    if op.key in w.records {
      assert Served(w, op.key);
    }
    StrandAfterHead(w, w', op);
  }

  lemma StrandAfterPushOk(w: World)
    requires Shape(w) && StrandInv(w) && w.flush.InPush?
    ensures StrandInv(ApplyPushOk(w))
  {
    var w', op := ApplyPushOk(w), w.flush.op;
    assert op in Todo(w.flush);
    var joined := PushOkQueue(w);
    var dropped := Drop(w.queue, op);
    forall kind, key | Has(w.queue, kind, key) && (kind, key) != (op.kind, op.key) ensures Has(w'.queue, kind, key) {
      HasAfterDrop(w.queue, op, kind, key);
      HasConcat(dropped, joined, kind, key);
    }
    forall k ensures Count(w'.queue, k) >= Count(w.queue, k) {
      CountDrop(w.queue, op, k);
      CountConcat(dropped, joined, k);
    }
    if op.kind == Put && op.key in w.records {
      if joined != [] {
        assert joined[0] in w'.queue;
      }
      assert Served(w', op.key);
    }
    StrandAfterHead(w, w', op);
  }

  lemma StrandAfterFail(w: World, notStored: bool)
    requires Shape(w) && StrandInv(w) && w.flush.InPush?
    ensures StrandInv(ApplyPushFail(w, notStored))
  {
    var f, w' := w.flush, ApplyPushFail(w, notStored);
    var op := Failing(f.op, f.now);
    assert f.op in Todo(f);
    var mutated := Mutate(w.queue, op);
    MutateEffect(w.queue, op);
    forall kind, key | Has(w.queue, kind, key) && (kind, key) != (op.kind, op.key) ensures Has(w'.queue, kind, key) {
      HasAfterDrop(mutated, op, kind, key);
    }
    forall k ensures Count(w'.queue, k) >= Count(w.queue, k) {
      CountMutate(w.queue, op, k);
      CountDrop(mutated, op, k);
    }
    if op.kind == Put && op.key in w.records {
      assert Served(w, op.key);
      if w'.queue != mutated && Has(mutated, Notify, op.key) {
        HasAfterDrop(mutated, op, Notify, op.key);
      }
    }
    StrandAfterHead(w, w', op);
  }

  lemma StrandAfterNotices(w: World)
    requires Shape(w) && StrandInv(w) && NoticeEnabled(w, NoticesStart)
    ensures StrandInv(ApplyNotices(w))
  {
    var w', f := ApplyNotices(w), w.flush;
    var g := Gather(w.records, w.canNotify, w.queue, f.notices, []);
    GatherLive(w.records, w.canNotify, w.queue, f.notices, []);
    GatherOneEach(w.records, w.canNotify, w.queue, f.notices, []);
    NoticeQueue(w, NoticesStart);
    assert Keys([]) == {};
    forall id | id in w'.records ensures Served(w', id) {
      assert Served(w, id);
      if Has(w.queue, Put, id) { HasKept(w.queue, w'.queue, Put, id); }
      if Has(w.queue, Notify, id) && id !in Keys(f.notices) { HasKept(w.queue, w'.queue, Notify, id); }
    }
    forall o | o in g.1 ensures Has(g.0, Notify, o.key) {
      GatherCount(w.records, w.canNotify, w.queue, f.notices, [], o.key);
      CountHas(g.0, o.key);
    }
  }

  lemma StrandAfterSend(w: World, e: Event)
    requires Shape(w) && AckInv(w) && StrandInv(w) && NoticeEnabled(w, e) && (e.SendEnds? || e.SendRefused?)
    ensures StrandInv(ApplyNotice(w, e))
  {
    var w', f := ApplyNotice(w, e), w.flush;
    NoticeQueue(w, e);
    forall id | id in w'.records ensures Served(w', id) {
      assert Served(w, id);
      if Has(w.queue, Put, id) { HasKept(w.queue, w'.queue, Put, id); }
      if Has(w.queue, Notify, id) && id !in NoticeKeys(w, e) { HasKept(w.queue, w'.queue, Notify, id); }
      if id in Keys(f.live) {
        var o :| o in f.live && o.key == id;
        assert Has(w.queue, Notify, o.key);
      }
    }
  }

  lemma StrandRefused(w: World, w': World, op: Op)
    requires StrandInv(w) && w.flush.Refused? && w.flush.live != [] && op == w.flush.live[0]
    requires w'.flush.Refused? && w'.flush.live == w.flush.live[1..] && w'.canNotify == w.canNotify
    requires w'.records.Keys == w.records.Keys
    requires forall id | id in w.records && id != op.key :: w'.records[id] == w.records[id]
    requires forall q: Op | q.kind != Notify || q.key != op.key :: q in w'.queue <==> q in w.queue
    requires op.key in w.records ==>
      w'.records[op.key].state == w.records[op.key].state &&
        (w'.records[op.key].notify != Waiting || Has(w'.queue, Notify, op.key))
    ensures StrandInv(w')
  {
    var live := w.flush.live;
    forall id | id in w'.records ensures Served(w', id) {
      assert Served(w, id);
      if Has(w.queue, Put, id) { HasKept(w.queue, w'.queue, Put, id); }
      if Has(w.queue, Notify, id) && id != op.key { HasKept(w.queue, w'.queue, Notify, id); }
    }
    forall i | 0 <= i < |live| - 1 ensures live[1..][i].key != op.key && Has(w'.queue, Notify, live[1..][i].key) {
      assert live[i + 1] in live && live[1..][i] == live[i + 1];
      HasKept(w.queue, w'.queue, Notify, live[i + 1].key);
    }
  }

  lemma StrandAfterRefuseOne(w: World)
    requires Shape(w) && StrandInv(w) && NoticeEnabled(w, RefuseOne)
    ensures StrandInv(ApplyRefuseOne(w))
  {
    var w', f, op := ApplyRefuseOne(w), w.flush, w.flush.live[0];
    assert op in f.live && Has(w.queue, Notify, op.key);
    RefusedQueue(w);
    RefusedHas(w);
    StrandRefused(w, w', op);
  }

  /** A notice refused for now is still queued; one refused for good is given up. */
  lemma RefusedHas(w: World)
    requires Shape(w) && NoticeEnabled(w, RefuseOne) && Has(w.queue, Notify, w.flush.live[0].key)
    ensures var w', k := ApplyRefuseOne(w), w.flush.live[0].key;
      k in w.records ==>
        w'.records[k].state == w.records[k].state && (w'.records[k].notify != Waiting || Has(w'.queue, Notify, k))
  {
    var f, op := w.flush, w.flush.live[0];
    var op' := RefusedOp(op, f.now, f.why);
    assert op in f.live;
    MutateEffect(w.queue, op');
  }

  lemma StrandAfterPass(w: World, e: Event)
    requires Shape(w) && StrandInv(w) && PassEnabled(w, e)
    ensures StrandInv(ApplyPass(w, e))
  {
    match e
    case FlushStart(now) =>
      forall k ensures Count(w.queue, k) >= Count(Due(w.queue, now, true), k) {
        CountDue(w.queue, now, k);
      }
      StrandSame(w, ApplyStart(w, now));
    case Skip => StrandAfterSkip(w);
    case Begin => StrandSame(w, ApplyBegin(w));
    case PushOk => StrandAfterPushOk(w);
    case PushFail(notStored) => StrandAfterFail(w, notStored);
    case FlushEnd(save) => StrandSame(w, ApplyEnd(w, save));
    case Abort => StrandSame(w, ApplyAbort(w));
    case Arrive(_) =>
  }

  lemma StrandSame(w: World, w': World)
    requires StrandInv(w) && w'.queue == w.queue && w'.records == w.records && w'.canNotify == w.canNotify
    requires w'.flush.Idle? || ((w'.flush.Pushing? || w'.flush.InPush?) && forall k ::
      Count(w.queue, k) >= Count(w'.flush.notices, k))
    ensures StrandInv(w')
  {
    forall id | id in w'.records ensures Served(w', id) {
      assert Served(w, id);
    }
  }

  lemma StrandAfterNotice(w: World, e: Event)
    requires Shape(w) && AckInv(w) && StrandInv(w) && NoticeEnabled(w, e)
    ensures StrandInv(ApplyNotice(w, e))
  {
    match e
    case NoticesStart => StrandAfterNotices(w);
    case SendEnds(_) => StrandAfterSend(w, e);
    case SendRefused(_) => StrandAfterSend(w, e);
    case RefuseOne => StrandAfterRefuseOne(w);
  }

  lemma StrandAfterCrash(w: World, order: seq<Id>, canNotify: bool, clock: real)
    requires CrashEnabled(w, order)
    ensures StrandInv(ApplyCrash(w, order, canNotify, clock))
  {
    assert forall id | id in w.disk :: id in order;
    assert forall id | id in order :: id in w.disk.Keys;
    LoadedEffect(w.disk, order, w.nextUid);
  }

  lemma StrandStep(w: World, e: Event)
    requires Shape(w) && AckInv(w) && StrandInv(w) && Enabled(w, e)
    ensures StrandInv(Apply(w, e))
  {
    if IsWrite(e) {
      StrandAfterWrite(w, e);
    } else if IsNotice(e) {
      StrandAfterNotice(w, e);
    } else if e.Crash? {
      StrandAfterCrash(w, e.order, e.canNotify, e.clock);
    } else {
      StrandAfterPass(w, e);
    }
  }

  // ----- every run -----------------------------------------------------------

  ghost predicate Inv(w: World) {
    Shape(w) && TriesInv(w) && AckInv(w) && SendInv(w) && StrandInv(w)
  }

  lemma InvStep(w: World, e: Event)
    requires Inv(w) && Enabled(w, e)
    ensures Inv(Apply(w, e))
  {
    ShapeStep(w, e);
    TriesStep(w, e);
    AckStep(w, e);
    SendStep(w, e);
    StrandStep(w, e);
  }

  lemma {:induction false} EveryRunKeepsInv(w0: World, events: seq<Event>, w: World)
    requires Inv(w0) && Reaches(w0, events, w)
    ensures Inv(w)
    decreases |events|
  {
    if events != [] {
      InvStep(w0, events[0]);
      EveryRunKeepsInv(Apply(w0, events[0]), events[1..], w);
    }
  }

  /** Over every run of writes, passes, aborts and crashes: a remark is sent again only after every earlier
      send of it was turned down. */
  lemma ResentOnlyIfRejected(w0: World, events: seq<Event>, w: World, i: nat, j: nat, id: Id)
    requires Initial(w0) && Reaches(w0, events, w)
    requires i < j < |w.sends| && id in w.sends[i].keys && id in w.sends[j].keys
    ensures w.sends[i].outcome == Rejected
  {
    EveryRunKeepsInv(w0, events, w);
  }

  /** How many of the first `n` sends name the remark and reached the agent; of those turned down, or of all. */
  function Arrivals(sends: seq<Send>, arrived: set<nat>, id: Id, n: nat, rejected: bool): nat
    requires n <= |sends|
  {
    if n == 0 then 0 else
      var s := sends[n - 1];
      Arrivals(sends, arrived, id, n - 1, rejected)
      + if n - 1 in arrived && id in s.keys && (rejected ==> s.outcome == Rejected) then 1 else 0
  }

  lemma {:induction false} AllRejected(sends: seq<Send>, arrived: set<nat>, id: Id, n: nat)
    requires n <= |sends| && forall i | 0 <= i < n && id in sends[i].keys :: sends[i].outcome == Rejected
    ensures Arrivals(sends, arrived, id, n, false) == Arrivals(sends, arrived, id, n, true)
  {
    if n > 0 { AllRejected(sends, arrived, id, n - 1); }
  }

  lemma {:induction false} ArrivalsUpTo(sends: seq<Send>, arrived: set<nat>, id: Id, n: nat)
    requires n <= |sends| && EarlierRejected(sends)
    ensures Arrivals(sends, arrived, id, n, false) <= 1 + Arrivals(sends, arrived, id, n, true)
  {
    if n > 0 {
      if id in sends[n - 1].keys {
        AllRejected(sends, arrived, id, n - 1);
      } else {
        ArrivalsUpTo(sends, arrived, id, n - 1);
      }
    }
  }

  /** A remark reaches the agent at most once, plus once for each send of it that arrived and was turned
      down all the same. */
  lemma ArrivalsAreBounded(w0: World, events: seq<Event>, w: World, id: Id)
    requires Initial(w0) && Reaches(w0, events, w)
    ensures var n := |w.sends|;
      Arrivals(w.sends, w.arrived, id, n, false) <= 1 + Arrivals(w.sends, w.arrived, id, n, true)
  {
    EveryRunKeepsInv(w0, events, w);
    ArrivalsUpTo(w.sends, w.arrived, id, |w.sends|);
  }

  /** So at most once where no send of it that arrived was turned down. */
  lemma AnnouncedAtMostOnce(w0: World, events: seq<Event>, w: World, i: nat, j: nat, id: Id)
    requires Initial(w0) && Reaches(w0, events, w)
    requires forall k | k in w.arrived && k < |w.sends| && id in w.sends[k].keys :: w.sends[k].outcome != Rejected
    requires i in w.arrived && i < |w.sends| && id in w.sends[i].keys
    requires j in w.arrived && j < |w.sends| && id in w.sends[j].keys
    ensures i == j
  {
    if i < j {
      ResentOnlyIfRejected(w0, events, w, i, j, id);
    } else if j < i {
      ResentOnlyIfRejected(w0, events, w, j, i, id);
    }
  }

  /** One step more at the front of a run. */
  lemma StepFirst(w: World, e: Event, w1: World, events: seq<Event>, w': World)
    requires Enabled(w, e) && w1 == Apply(w, e) && Reaches(w1, events, w')
    ensures Reaches(w, [e] + events, w')
  {
    assert ([e] + events)[1..] == events;
  }

  lemma {:induction false} RunsJoin(w0: World, first: seq<Event>, w1: World, second: seq<Event>, w2: World)
    requires Reaches(w0, first, w1) && Reaches(w1, second, w2)
    ensures Reaches(w0, first + second, w2)
    decreases |first|
  {
    if first == [] {
      assert first + second == second;
    } else {
      RunsJoin(Apply(w0, first[0]), first[1..], w1, second, w2);
      assert (first + second)[1..] == first[1..] + second;
    }
  }

  /** Between passes, one stored remark whose notice is queued after `tries` failures. */
  ghost predicate ToAnnounce(w: World, tries: nat) {
    && w.flush.Idle? && w.canNotify && w.records.Keys == {"a"} && w.records["a"].state == Acked
    && w.records["a"].notify == Waiting && |w.queue| == 1 && w.queue[0].kind == Notify && w.queue[0].key == "a"
    && w.queue[0].attempts == tries
  }

  /** The message is out and has arrived, and no answer has come yet. */
  ghost predicate Arrived(w: World, tries: nat) {
    && w.flush.Announcing? && w.flush.live == w.queue && |w.queue| == 1 && w.queue[0].kind == Notify
    && w.queue[0].key == "a" && w.queue[0].attempts == tries
    && w.records.Keys == {"a"} && w.records["a"].state == Acked && w.canNotify
    && w.flush.send == |w.sends| - 1 && w.flush.send in w.arrived && w.sends[w.flush.send].keys == {"a"}
  }

  lemma MessageArrives(w: World, now: real, tries: nat) returns (events: seq<Event>, w': World)
    requires ToAnnounce(w, tries) && w.clock <= now && w.queue[0].next <= now
    ensures Reaches(w, events, w') && Arrived(w', tries) && |w'.sends| == |w.sends| + 1
    ensures w'.arrived == w.arrived + {|w.sends|} && forall i | 0 <= i < |w.sends| :: w'.sends[i] == w.sends[i]
  {
    var w1, op := ApplyStart(w, now), w.queue[0];
    assert w.queue == [op] && w.queue[1..] == [] && Due([], now, true) == [] && Due([], now, false) == [];
    assert w1.flush.notices == [op] && w1.flush.rest == [];
    var more: seq<Event>;
    more, w' := SentAndArrived(w1, op);
    StepFirst(w, FlushStart(now), w1, more, w');
    events := [FlushStart(now)] + more;
  }

  lemma SentAndArrived(w: World, op: Op) returns (events: seq<Event>, w': World)
    requires w.flush.Pushing? && w.flush.rest == [] && w.flush.notices == [op] && w.queue == [op] && w.canNotify
    requires op.kind == Notify && op.key == "a" && w.records.Keys == {"a"} && w.records["a"].state == Acked
    requires w.records["a"].notify == Waiting
    ensures Reaches(w, events, w') && Arrived(w', op.attempts) && |w'.sends| == |w.sends| + 1
    ensures w'.arrived == w.arrived + {|w.sends|} && forall i | 0 <= i < |w.sends| :: w'.sends[i] == w.sends[i]
  {
    OneGathered(w.records, w.queue, op);
    var w1, arrive := ApplyNotices(w), Arrive(|w.sends|);
    w' := w1.(arrived := w1.arrived + {|w.sends|});
    StepFirst(w1, arrive, w', [], w');
    StepFirst(w, NoticesStart, w1, [arrive] + [], w');
    events := [NoticesStart] + ([arrive] + []);
  }

  lemma OneGathered(records: map<Id, Record>, queue: seq<Op>, op: Op)
    requires op.key in records && records[op.key].notify == Waiting
    ensures Gather(records, true, queue, [op], []) == (queue, [op]) && Keys([op]) == {op.key}
  {
    assert Keys([]) == {} && [op][1..] == [] && [] + [op] == [op];
    assert Gather(records, true, queue, [], [op]) == (queue, [op]);
  }

  /** A bad gateway answers a message that had arrived: the worker takes it for undelivered. */
  lemma AnsweredByBadGateway(w: World) returns (events: seq<Event>, w': World)
    requires Arrived(w, 0)
    ensures Reaches(w, events, w') && ToAnnounce(w', 1) && w'.queue[0].next == w.flush.now + 2.0 && w'.clock == w.clock
    ensures |w'.sends| == |w.sends| && w'.sends[|w.sends| - 1].keys == {"a"} && w'.arrived == w.arrived
  {
    var op := w.queue[0];
    var w1 := ApplySendRefused(w, OtherFailure);
    assert op in w.flush.live && Keys(w.flush.live) == {"a"};
    var w2 := ApplyRefuseOne(w1);
    assert w1.flush.live[1..] == [];
    assert Mutate(w.queue, Failing(op, w.flush.now)) == [Failing(op, w.flush.now)];
    w' := ApplyEnd(w2, false);
    StepFirst(w2, FlushEnd(false), w', [], w');
    StepFirst(w1, RefuseOne, w2, [FlushEnd(false)] + [], w');
    StepFirst(w, SendRefused(OtherFailure), w1, [RefuseOne] + ([FlushEnd(false)] + []), w');
    events := [SendRefused(OtherFailure)] + ([RefuseOne] + ([FlushEnd(false)] + []));
  }

  /** A remark is stored, and its notice waits for the delay to pass. */
  lemma StoredAndWaiting() returns (w0: World, events: seq<Event>, w: World)
    ensures Initial(w0) && Reaches(w0, events, w) && ToAnnounce(w, 0)
    ensures w.clock == 0.0 && w.queue[0].next == 3.0 && w.sends == [] && w.arrived == {}
  {
    w0 := World(true, map[], [], 0, Idle, 0.0, map[], [], {}, {}, map[]);
    var w1 := ApplyAdd(w0, "a", "", false);
    var w2 := ApplyStart(w1, 0.0);
    var put := Op(0, Put, "a", false, 0, 0.0);
    assert w1.queue == [put] && [put][1..] == [] && Due([], 0.0, false) == [] && Due([], 0.0, true) == [];
    assert w2.flush.rest == [put] && w2.flush.notices == [];
    var more: seq<Event>;
    more, w := StoredInPass(w2, put);
    StepFirst(w1, FlushStart(0.0), w2, more, w);
    StepFirst(w0, Add("a", "", false), w1, [FlushStart(0.0)] + more, w);
    events := [Add("a", "", false)] + ([FlushStart(0.0)] + more);
  }

  lemma StoredInPass(w: World, put: Op) returns (events: seq<Event>, w': World)
    requires w.flush.Pushing? && w.flush.rest == [put] && w.flush.notices == [] && w.flush.now == 0.0 &&
      w.queue == [put]
    requires put.kind == Put && put.key == "a" && w.canNotify && w.records.Keys == {"a"}
    requires w.records["a"].state == Pending && w.records["a"].notify == Waiting
    ensures Reaches(w, events, w') && ToAnnounce(w', 0) && w'.queue[0].next == 3.0
    ensures w'.clock == w.clock && w'.sends == w.sends && w'.arrived == w.arrived
  {
    var w1 := ApplyBegin(w);
    var w2 := ApplyPushOk(w1);
    var notice := Op(w.nextUid, Notify, "a", false, 0, 3.0);
    assert [put] + [notice] == [put, notice] && [put, notice][1..] == [notice] && [put][1..] == [];
    assert w2.queue == [notice];
    var w3 := ApplyNotices(w2);
    w' := ApplyEnd(w3, true);
    StepFirst(w3, FlushEnd(true), w', [], w');
    StepFirst(w2, NoticesStart, w3, [FlushEnd(true)] + [], w');
    StepFirst(w1, PushOk, w2, [NoticesStart] + ([FlushEnd(true)] + []), w');
    StepFirst(w, Begin, w1, [PushOk] + ([NoticesStart] + ([FlushEnd(true)] + [])), w');
    events := [Begin] + ([PushOk] + ([NoticesStart] + ([FlushEnd(true)] + [])));
  }

  /** A remark the agent gets twice: the first message arrived and was answered with a bad gateway. */
  lemma AnnouncedTwice() returns (w0: World, events: seq<Event>, w: World)
    ensures Initial(w0) && Reaches(w0, events, w) && |w.sends| == 2 && w.arrived == {0, 1}
    ensures "a" in w.sends[0].keys && "a" in w.sends[1].keys
  {
    var w1, w2, w3: World;
    var e1, e2, e3, e4: seq<Event>;
    w0, e1, w1 := StoredAndWaiting();
    e2, w2 := MessageArrives(w1, 3.0, 0);
    e3, w3 := AnsweredByBadGateway(w2);
    e4, w := MessageArrives(w3, if w3.queue[0].next >= w3.clock then w3.queue[0].next else w3.clock, 1);
    RunsJoin(w0, e1, w1, e2, w2);
    RunsJoin(w0, e1 + e2, w2, e3, w3);
    RunsJoin(w0, e1 + e2 + e3, w3, e4, w);
    events := e1 + e2 + e3 + e4;
  }

  /** No stranded remark, in any state of any run, just after a reload included. */
  lemma NothingStranded(w0: World, events: seq<Event>, w: World, id: Id)
    requires Initial(w0) && Reaches(w0, events, w) && id in w.records
    ensures w.records[id].state == Pending ==> exists q | q in w.queue :: q.kind == Put && q.key == id
    ensures w.canNotify && w.records[id].state == Acked && w.records[id].notify == Waiting ==>
      exists q | q in w.queue :: q.kind == Notify && q.key == id
  {
    EveryRunKeepsInv(w0, events, w);
    assert Served(w, id);
  }

  /** Every put, resolve and delete is tried at most five times plus the tries cut short, despite
      removal by value equality; a try that was not is followed by a wait that doubles each time. */
  lemma TriesAreBounded(w0: World, events: seq<Event>, w: World, uid: nat)
    requires Initial(w0) && Reaches(w0, events, w) && uid in w.tries
    ensures |w.tries[uid]| <= 5 + Counted(w.tries[uid], true)
    ensures forall i | 0 <= i < |w.tries[uid]| - 1 :: Delayed(w.tries[uid], i)
  {
    EveryRunKeepsInv(w0, events, w);
    CountedAll(w.tries[uid]);
  }

  /** Two puts queued, and the first is due whenever the worker looks. */
  ghost predicate Stuck(w: World) {
    && w.flush.Idle? && w.clock >= 0.0 && "a" in w.records && w.records["a"].state == Pending
    && w.queue == [Op(0, Put, "a", false, 0, 0.0), Op(1, Put, "b", false, 0, 0.0)] && Log(w.tries, 1) == []
  }

  /** One pass that begins the first put and dies in it. */
  lemma AbortedPass(w: World) returns (w': World)
    requires Stuck(w)
    ensures Enabled(w, FlushStart(w.clock))
    ensures var w1 := Apply(w, FlushStart(w.clock));
      Enabled(w1, Begin) && Enabled(Apply(w1, Begin), Abort) && w' == Apply(Apply(w1, Begin), Abort)
    ensures Stuck(w') && |Log(w'.tries, 0)| == |Log(w.tries, 0)| + 1
  {
    var w1 := ApplyStart(w, w.clock);
    assert w1.flush.rest[0] == w.queue[0];
    w' := ApplyAbort(ApplyBegin(w1));
  }

  lemma {:induction false} AbortedPasses(w: World, n: nat) returns (events: seq<Event>, w': World)
    requires Stuck(w)
    ensures Reaches(w, events, w') && Stuck(w') && |Log(w'.tries, 0)| == |Log(w.tries, 0)| + n
    decreases n
  {
    if n == 0 {
      events, w' := [], w;
    } else {
      var w1 := AbortedPass(w);
      var more: seq<Event>;
      more, w' := AbortedPasses(w1, n - 1);
      events := [FlushStart(w.clock)] + ([Begin] + ([Abort] + more));
      assert events[1..] == [Begin] + ([Abort] + more) && events[1..][1..] == [Abort] + more &&
        events[1..][1..][1..] == more;
    }
  }

  /** The aborted tries have no bound: for every `n` some run tries one put `n` times, and never once
      the put behind it. */
  lemma TriesWithoutBound(n: nat) returns (w0: World, events: seq<Event>, w: World)
    ensures Initial(w0) && Reaches(w0, events, w)
    ensures |Log(w.tries, 0)| == n && Log(w.tries, 1) == []
    ensures |w.queue| == 2 && w.queue[0].attempts == 0 && w.queue[1].uid == 1
  {
    w0 := World(false, map[], [], 0, Idle, 0.0, map[], [], {}, {}, map[]);
    var w1 := Apply(w0, Add("a", "", false));
    var w2 := Apply(w1, Add("b", "", false));
    assert Stuck(w2);
    var more: seq<Event>;
    more, w := AbortedPasses(w2, n);
    events := [Add("a", "", false)] + ([Add("b", "", false)] + more);
    assert events[1..] == [Add("b", "", false)] + more && events[1..][1..] == more;
  }

  /** "Acked" never reverts on disk, nor in memory while the process lives; after a crash a remark is
      acked exactly if it is acked on disk. */
  lemma AckedStaysAcked(w0: World, events: seq<Event>, w: World, e: Event, id: Id)
    requires Initial(w0) && Reaches(w0, events, w) && Enabled(w, e)
    ensures !e.Crash? && id in w.records && w.records[id].state == Acked && id in Apply(w, e).records ==>
      Apply(w, e).records[id].state == Acked
    ensures id in w.disk && w.disk[id].state == Acked && id in Apply(w, e).disk ==> Apply(w, e).disk[id].state == Acked
    ensures e.Crash? ==> (AckedIn(Apply(w, e).records, id) <==> AckedIn(w.disk, id))
  {
    EveryRunKeepsInv(w0, events, w);
    AckStep(w, e);
    DiskIsOldOrNew(w, e);
    AckOnDisk(w, Apply(w, e), id, e.Crash?);
    if e.Crash? { CrashKeepsDiskAcks(w, e.order, e.canNotify, e.clock, id); }
  }

  predicate AckedIn(records: map<Id, Record>, id: Id) {
    id in records && records[id].state == Acked
  }

  lemma CrashKeepsDiskAcks(w: World, order: seq<Id>, canNotify: bool, clock: real, id: Id)
    requires CrashEnabled(w, order)
    ensures AckedIn(ApplyCrash(w, order, canNotify, clock).records, id) <==> AckedIn(w.disk, id)
  {
    assert forall x | x in order :: x in w.disk.Keys;
  }

  /** A crash before the pass has saved forgets an acknowledgement the process had. */
  lemma CrashForgetsAck() returns (w0: World, events: seq<Event>, w: World, crash: Event)
    ensures Initial(w0) && Reaches(w0, events, w) && crash.Crash? && Enabled(w, crash)
    ensures AckedIn(w.records, "a") && !AckedIn(w.disk, "a") && !AckedIn(Apply(w, crash).records, "a")
  {
    w0 := World(false, map[], [], 0, Idle, 0.0, map[], [], {}, {}, map[]);
    var w1 := ApplyAdd(w0, "a", "", false);
    var more: seq<Event>;
    more, w := PushedNotSaved(w1);
    events := [Add("a", "", false)] + more;
    assert events[1..] == more;
    crash := Crash(["a"], false, 0.0);
    assert (set x | x in ["a"]) == {"a"} == w.disk.Keys;
    CrashKeepsDiskAcks(w, ["a"], false, 0.0, "a");
  }

  lemma PushedNotSaved(w: World) returns (events: seq<Event>, w': World)
    requires w.flush.Idle? && w.clock == 0.0 && w.queue == [Op(0, Put, "a", false, 0, 0.0)]
    requires "a" in w.records && w.records["a"].state == Pending && w.disk.Keys == {"a"} && !AckedIn(w.disk, "a")
    ensures Reaches(w, events, w') && AckedIn(w'.records, "a") && w'.disk == w.disk
  {
    var w1 := ApplyStart(w, 0.0);
    assert w1.flush.rest[0] == w.queue[0];
    var more: seq<Event>;
    more, w' := PushedInPass(w1);
    events := [FlushStart(0.0)] + more;
    StepFirst(w, FlushStart(0.0), w1, more, w');
  }

  lemma PushedInPass(w: World) returns (events: seq<Event>, w': World)
    requires w.flush.Pushing? && w.flush.rest != [] && w.flush.rest[0].kind == Put && w.flush.rest[0].key == "a"
    requires "a" in w.records && w.records["a"].state == Pending
    ensures Reaches(w, events, w') && AckedIn(w'.records, "a") && w'.disk == w.disk
  {
    var w1 := ApplyBegin(w);
    w' := ApplyPushOk(w1);
    StepFirst(w1, PushOk, w', [], w');
    StepFirst(w, Begin, w1, [PushOk] + [], w');
    events := [Begin] + ([PushOk] + []);
  }

  lemma AckOnDisk(w: World, w': World, id: Id, crash: bool)
    requires Shape(w) && AckInv(w) && (!crash ==> AckKept(w, w'))
    requires w'.disk == w.disk || (!crash && w'.disk == w'.records)
    ensures !crash && id in w.records && w.records[id].state == Acked && id in w'.records ==>
      w'.records[id].state == Acked
    ensures id in w.disk && w.disk[id].state == Acked && id in w'.disk ==> w'.disk[id].state == Acked
  {}

  lemma DiskIsOldOrNew(w: World, e: Event)
    requires Shape(w) && Enabled(w, e)
    ensures var w' := Apply(w, e); w'.disk == w.disk || (!e.Crash? && w'.disk == w'.records)
  {
    if IsWrite(e) {
      WriteRecords(w, e);
    } else if IsNotice(e) {
      NoticeRecords(w, e);
    }
  }

  /** Nothing is announced before the broker has acked it. */
  lemma AnnouncedOnlyAfterAck(w0: World, events: seq<Event>, w: World, id: Id)
    requires Initial(w0) && Reaches(w0, events, w) && NoticeEnabled(w, NoticesStart)
    requires |ApplyNotices(w).sends| > |w.sends| && id in ApplyNotices(w).sends[|w.sends|].keys
    ensures id in w.records && w.records[id].state == Acked && w.records[id].notify == Waiting
    ensures id in ApplyNotices(w).disk && ApplyNotices(w).disk[id].notify == Sending
  {
    EveryRunKeepsInv(w0, events, w);
    GatheredHolds(w, id);
  }

  lemma GatheredHolds(w: World, id: Id)
    requires Shape(w) && AckInv(w) && NoticeEnabled(w, NoticesStart)
    requires |ApplyNotices(w).sends| > |w.sends| && id in ApplyNotices(w).sends[|w.sends|].keys
    ensures id in w.records && w.records[id].state == Acked && w.records[id].notify == Waiting
    ensures id in ApplyNotices(w).disk && ApplyNotices(w).disk[id].notify == Sending
  {
    GatheredIsAcked(w.records, w.canNotify, w.queue, w.flush.notices, id);
  }

  lemma GatheredIsAcked(records: map<Id, Record>, canNotify: bool, queue: seq<Op>, notices: seq<Op>, id: Id)
    requires forall q | q in notices :: AckedIfHeld(records, q.key)
    requires id in Keys(Gather(records, canNotify, queue, notices, []).1)
    ensures id in records && records[id].state == Acked && records[id].notify == Waiting
  {
    GatherLive(records, canNotify, queue, notices, []);
    assert Keys([]) == {};
  }
}
