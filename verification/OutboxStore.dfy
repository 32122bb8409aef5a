/** The annotation store as an object: every method's critical section, proved to be one step of the
    outbox.  `past` is what the object does not hold: the worker's place, the clock and the history. */
module OutboxStore {
  import opened Outbox

  // ----- loops over the queue ------------------------------------------------

  lemma {:induction false} DropAt(queue: seq<Op>, op: Op, i: nat)
    requires i < |queue| && SameValue(queue[i], op) && forall j | 0 <= j < i :: !SameValue(queue[j], op)
    ensures Drop(queue, op) == queue[..i] + queue[i + 1..]
    decreases i
  {
    if i > 0 {
      DropAt(queue[1..], op, i - 1);
      assert queue == [queue[0]] + queue[1..];
      assert queue[..i] == [queue[0]] + queue[1..][..i - 1];
    }
  }

  lemma {:induction false} DropNone(queue: seq<Op>, op: Op)
    requires forall j | 0 <= j < |queue| :: !SameValue(queue[j], op)
    ensures Drop(queue, op) == queue
    decreases |queue|
  {
    if queue != [] { DropNone(queue[1..], op); }
  }

  /** `list.remove`: the first element equal by value. */
  method DropFirst(queue: seq<Op>, op: Op) returns (left: seq<Op>)
    ensures left == Drop(queue, op)
  {
    for i := 0 to |queue|
      invariant forall j | 0 <= j < i :: !SameValue(queue[j], op)
    {
      if SameValue(queue[i], op) {
        DropAt(queue, op, i);
        return queue[..i] + queue[i + 1..];
      }
    }
    DropNone(queue, op);
    left := queue;
  }

  lemma {:induction false} WithoutPutsAppend(queue: seq<Op>, op: Op, victims: set<Id>)
    ensures WithoutPuts(queue + [op], victims) ==
      if op.kind == Put && op.key in victims then WithoutPuts(queue, victims) else WithoutPuts(queue, victims) + [op]
    decreases |queue|
  {
    if queue == [] {
      assert queue + [op] == [op] && [op][1..] == [];
    } else {
      assert (queue + [op])[1..] == queue[1..] + [op];
      WithoutPutsAppend(queue[1..], op, victims);
    }
  }

  /** The comprehension that keeps all but one victim's puts. */
  method KeepOthers(queue: seq<Op>, victim: Id) returns (kept: seq<Op>)
    ensures kept == WithoutPuts(queue, {victim})
  {
    kept := [];
    for i := 0 to |queue|
      invariant kept == WithoutPuts(queue[..i], {victim})
    {
      assert queue[..i + 1] == queue[..i] + [queue[i]];
      WithoutPutsAppend(queue[..i], queue[i], {victim});
      if !(queue[i].kind == Put && queue[i].key == victim) { kept := kept + [queue[i]]; }
    }
    assert queue[..|queue|] == queue;
  }

  /** Filtering victim by victim, with a delete queued after each, is filtering once for all. */
  lemma {:induction false} WithoutPutsTwice(queue: seq<Op>, victims: set<Id>, v: Id)
    ensures WithoutPuts(WithoutPuts(queue, victims), {v}) == WithoutPuts(queue, victims + {v})
    decreases |queue|
  {
    if queue != [] { WithoutPutsTwice(queue[1..], victims, v); }
  }

  lemma {:induction false} WithoutPutsOfDeletes(queue: seq<Op>, ops: seq<Op>, v: Id)
    requires forall o | o in ops :: o.kind == Delete
    ensures WithoutPuts(queue + ops, {v}) == WithoutPuts(queue, {v}) + ops
    decreases |ops|
  {
    if ops == [] {
      assert queue + ops == queue;
    } else {
      var init, last := ops[..|ops| - 1], ops[|ops| - 1];
      WithoutPutsOfDeletes(queue, init, v);
      var longer := queue + init;
      assert last in ops && queue + ops == longer + [last];
      WithoutPutsAppend(longer, last, {v});
      assert ops == init + [last];
    }
  }

  /** The first loop of `_notify`. */
  method GatherLive(records: map<Id, Record>, canNotify: bool, queue: seq<Op>, ops: seq<Op>)
    returns (left: seq<Op>, live: seq<Op>)
    ensures (left, live) == Gather(records, canNotify, queue, ops, [])
  {
    left, live := queue, [];
    assert ops[0..] == ops;
    for i := 0 to |ops|
      invariant Gather(records, canNotify, left, ops[i..], live) == Gather(records, canNotify, queue, ops, [])
    {
      var op := ops[i];
      assert ops[i..][0] == op && ops[i..][1..] == ops[i + 1..];
      var doubled := exists j | 0 <= j < |live| :: live[j].key == op.key;
      assert doubled <==> op.key in Keys(live) by {
        if op.key in Keys(live) {
          var o :| o in live && o.key == op.key;
        }
      }
      if op.key !in records || records[op.key].notify != Waiting || !canNotify || doubled {
        left := DropFirst(left, op);
      } else {
        live := live + [op];
      }
    }
  }

  method DropEach(queue: seq<Op>, ops: seq<Op>) returns (left: seq<Op>)
    ensures left == DropAll(queue, ops)
  {
    left := queue;
    assert ops[0..] == ops;
    for i := 0 to |ops|
      invariant DropAll(left, ops[i..]) == DropAll(queue, ops)
    {
      assert ops[i..][0] == ops[i] && ops[i..][1..] == ops[i + 1..];
      left := DropFirst(left, ops[i]);
    }
  }

  method MarkEach(records: map<Id, Record>, ops: seq<Op>, n: Notice) returns (out: map<Id, Record>)
    ensures out == SetNotice(records, Keys(ops), n)
  {
    out := records;
    for i := 0 to |ops|
      invariant out.Keys == records.Keys
      invariant forall id | id in records ::
        out[id] == if id in Keys(ops[..i]) then records[id].(notify := n) else records[id]
    {
      assert ops[..i + 1] == ops[..i] + [ops[i]];
      assert Keys(ops[..i + 1]) == Keys(ops[..i]) + {ops[i].key};
      if ops[i].key in out { out := out[ops[i].key := out[ops[i].key].(notify := n)]; }
    }
    assert ops[..|ops|] == ops;
  }

  /** What `_load` queues, in the file's order. */
  method QueueLoaded(disk: map<Id, Record>, order: seq<Id>, uid: nat) returns (queue: seq<Op>)
    requires forall id | id in order :: id in disk
    ensures queue == LoadedOps(disk, order, uid)
  {
    queue := [];
    assert order[0..] == order;
    for i := 0 to |order|
      invariant LoadedOps(disk, order, uid) == queue + LoadedOps(disk, order[i..], uid + |queue|)
    {
      assert order[i] in order && order[i..][0] == order[i] && order[i..][1..] == order[i + 1..];
      var r := disk[order[i]];
      if r.state == Pending || r.state == Failed {
        queue := queue + [Op(uid + |queue|, Put, order[i], false, 0, 0.0)];
      } else if r.state == Acked && r.notify == Waiting {
        queue := queue + [Op(uid + |queue|, Notify, order[i], false, 0, 0.0)];
      }
    }
  }

  method ResolveEach(records: map<Id, Record>, touched: set<Id>, thread: Id, resolved: bool)
    returns (out: map<Id, Record>)
    requires forall id :: id in touched <==> id in records && records[id].thread == thread
    ensures out == MarkResolved(records, thread, resolved)
  {
    out := records;
    var todo := touched;
    while todo != {}
      invariant todo <= touched && out.Keys == records.Keys
      invariant forall id | id in records && (id in todo || id !in touched) :: out[id] == records[id]
      invariant forall id | id in touched && id !in todo :: out[id] == records[id].(resolved := resolved)
      decreases |todo|
    {
      var id :| id in todo;
      todo := todo - {id};
      out := out[id := out[id].(resolved := resolved)];
    }
  }

  /** Whom a delete takes, in some order. */
  method DoomedList(records: map<Id, Record>, id: Id) returns (list: seq<Id>)
    requires id in records
    ensures Distinct(list) && (forall v | v in list :: Doomed(records, id, v))
    ensures forall v | v in records && Doomed(records, id, v) :: v in list
  {
    if records[id].thread != id { return [id]; }
    list := [];
    var todo := set v | v in records && records[v].thread == id;
    while todo != {}
      invariant Distinct(list) && (forall v | v in list :: Doomed(records, id, v) && v !in todo)
      invariant forall v | v in todo :: v in records && records[v].thread == id
      invariant forall v | v in records && records[v].thread == id :: v in todo || v in list
      decreases |todo|
    {
      var v :| v in todo;
      todo := todo - {v};
      assert forall i | 0 <= i < |list| :: list[i] in list;
      list := list + [v];
    }
  }

  /** Victim by victim: drop its queued puts, queue its delete. */
  method DeleteEach(queue: seq<Op>, uid: nat, victims: seq<Id>) returns (out: seq<Op>, next: nat)
    ensures out == WithoutPuts(queue, set v | v in victims) + DeleteOps(victims, uid) && next == uid + |victims|
  {
    out, next := queue, uid;
    NoVictims(queue);
    assert IdSet(victims[..0]) == {} && DeleteOps(victims[..0], uid) == [];
    for i := 0 to |victims|
      invariant next == uid + i
      invariant out == WithoutPuts(queue, IdSet(victims[..i])) + DeleteOps(victims[..i], uid)
    {
      var v := victims[i];
      ghost var done, ops := IdSet(victims[..i]), DeleteOps(victims[..i], uid);
      assert victims[..i + 1] == victims[..i] + [v];
      assert IdSet(victims[..i + 1]) == done + {v};
      assert DeleteOps(victims[..i + 1], uid) == ops + [Op(next, Delete, v, false, 0, 0.0)];
      WithoutPutsOfDeletes(WithoutPuts(queue, done), ops, v);
      WithoutPutsTwice(queue, done, v);
      out := KeepOthers(out, v);
      out := out + [Op(next, Delete, v, false, 0, 0.0)];
      next := next + 1;
    }
    assert victims[..|victims|] == victims;
  }

  function IdSet(ids: seq<Id>): set<Id> {
    set v | v in ids
  }

  lemma {:induction false} NoVictims(queue: seq<Op>)
    ensures WithoutPuts(queue, {}) == queue
    decreases |queue|
  {
    if queue != [] { NoVictims(queue[1..]); }
  }

  /** The queue's view of an op changed in place. */
  method MutateInPlace(queue: seq<Op>, op: Op) returns (out: seq<Op>)
    ensures out == Mutate(queue, op)
  {
    out := queue;
    for i := 0 to |queue|
      invariant |out| == |queue| && forall j | 0 <= j < |queue| ::
        out[j] == if j < i && queue[j].uid == op.uid then op else queue[j]
    {
      if queue[i].uid == op.uid { out := out[i := op]; }
    }
  }

  /** The record of a failed put shows its attempts, and its end if this was it. */
  method RecordFailure(records: map<Id, Record>, op: Op, notStored: bool) returns (out: map<Id, Record>)
    ensures out == FailedRecords(records, op, notStored)
  {
    out := records;
    if op.kind == Put && op.key in records {
      var r := records[op.key].(attempts := op.attempts);
      if notStored { r := r.(state := Disabled); } else if op.attempts >= MAX_ATTEMPTS { r := r.(state := Failed); }
      out := records[op.key := r];
    }
  }

  method FailInQueue(queue: seq<Op>, op: Op, notStored: bool) returns (out: seq<Op>)
    ensures out == FailedQueue(queue, op, notStored)
  {
    out := MutateInPlace(queue, op);
    if notStored || op.attempts >= MAX_ATTEMPTS { out := DropFirst(out, op); }
  }

  // ----- the object ----------------------------------------------------------

  class Annotations {
    var canNotify: bool
    var records: map<Id, Record>
    var queue: seq<Op>
    var nextUid: nat
    var disk: map<Id, Record>
    ghost var past: World

    ghost function View(): World reads this {
      past.(canNotify := canNotify, records := records, queue := queue, nextUid := nextUid, disk := disk)
    }

    /** A process started over what is on disk, after a crash at any point. */
    constructor Load(ghost before: World, disk: map<Id, Record>, order: seq<Id>, uid: nat, canNotify: bool,
                     ghost clock: real)
      requires before.disk == disk && before.nextUid == uid && CrashEnabled(before, order)
      ensures View() == ApplyCrash(before, order, canNotify, clock)
    {
      assert forall id | id in order :: id in before.disk.Keys;
      var queued := QueueLoaded(disk, order, uid);
      this.disk := disk;
      this.records := ReloadAll(disk);
      this.queue := queued;
      this.nextUid := uid + |order|;
      this.canNotify := canNotify;
      this.past := before.(clock := clock, flush := Idle);
    }

    method Save()
      modifies this`disk
      ensures View() == Outbox.Save(old(View()))
    {
      disk := records;
    }

    method Append(kind: Kind, key: Id, resolved: bool, next: real)
      modifies this`queue, this`nextUid
      ensures View() == Enqueue(old(View()), kind, key, resolved, next)
    {
      queue := queue + [Op(nextUid, kind, key, resolved, 0, next)];
      nextUid := nextUid + 1;
    }

    method Add(id: Id, thread: Id, byAgent: bool)
      modifies this
      ensures View() == ApplyAdd(old(View()), id, thread, byAgent)
    {
      var notify := if canNotify && !byAgent then Waiting else Quiet;
      var r := Record(if thread == "" then id else thread, false, Pending, 0, notify);
      records := records[id := r];
      past := past.(used := past.used + {id});
      Append(Put, id, false, 0.0);
      Save();
    }

    method ResolveThread(thread: Id, resolved: bool) returns (ok: bool)
      modifies this
      ensures ok <==> WriteEnabled(old(View()), Event.ResolveThread(thread, resolved))
      ensures View() == if ok then ApplyResolve(old(View()), thread, resolved) else old(View())
    {
      var touched := set id | id in records && records[id].thread == thread;
      if touched == {} {
        assert forall id | id in records :: records[id].thread == thread ==> id in touched;
        return false;
      }
      assert exists id :: id in touched;
      records := ResolveEach(records, touched, thread, resolved);
      Append(Resolve, thread, resolved, 0.0);
      Save();
      ok := true;
    }

    /** Forget a remark, with its replies if it opened the thread; one delete op each. */
    method Delete(id: Id) returns (ok: bool, removed: seq<Id>)
      modifies this
      ensures ok <==> id in old(records)
      ensures ok ==> WriteEnabled(old(View()), Remove(id, removed)) && View() == ApplyRemove(old(View()), removed)
      ensures !ok ==> View() == old(View())
    {
      if id !in records { return false, []; }
      removed := DoomedList(records, id);
      queue, nextUid := DeleteEach(queue, nextUid, removed);
      records := records - set v | v in removed;
      Save();
      ok := true;
    }

    method Retry(id: Id) returns (ok: bool)
      modifies this
      ensures ok <==> id in old(records)
      ensures ok ==> View() == ApplyRetry(old(View()), id)
      ensures !ok ==> View() == old(View())
    {
      if id !in records { return false; }
      var r := records[id];
      if r.state == Acked {
        if r.notify == GaveUp {
          records := records[id := r.(notify := Waiting)];
          Append(Notify, id, false, 0.0);
        } else {
          assert queue == queue + [] && records == records[id := r];
        }
      } else {
        records := records[id := r.(state := Pending, attempts := 0)];
        Append(Put, id, false, 0.0);
      }
      Save();
      ok := true;
    }

    /** Gather, mark "sending" and save, in one critical section. */
    method BeginNotices(ops: seq<Op>) returns (live: seq<Op>)
      requires past.flush.Pushing? && past.flush.notices == ops
      modifies this
      ensures View() == ApplyNotices(old(View()))
      ensures View().flush.Announcing? <==> live != []
    {
      queue, live := GatherLive(records, canNotify, queue, ops);
      if live == [] {
        past := past.(flush := Finishing);
        return;
      }
      records := MarkEach(records, live, Sending);
      past := past.(sends := past.sends + [Send(Keys(live), InFlight)],
        flush := Announcing(past.flush.now, live, |past.sends|));
      Save();
    }

    /** The message went out, or may have. */
    method NoticesSent(live: seq<Op>, ghost outcome: Outcome)
      requires past.flush.Announcing? && past.flush.live == live && past.flush.send < |past.sends|
      modifies this
      ensures View() == ApplySendEnds(old(View()), outcome)
    {
      records := MarkEach(records, live, Sent);
      queue := DropEach(queue, live);
      past := past.(sends := past.sends[past.flush.send := past.sends[past.flush.send].(outcome := outcome)],
        flush := Finishing);
    }

    method NoticesRefused(live: seq<Op>, ghost why: Refusal)
      requires past.flush.Announcing? && past.flush.live == live && past.flush.send < |past.sends|
      modifies this
      ensures View() == ApplySendRefused(old(View()), why)
    {
      records := MarkEach(records, live, Waiting);
      past := past.(sends := past.sends[past.flush.send := past.sends[past.flush.send].(outcome := Rejected)],
                    flush := Refused(past.flush.now, past.flush.live, why));
    }

    /** The push went through. */
    method PushDone(op: Op, now: real)
      requires past.flush.InPush? && past.flush.op == op && past.flush.now == now
      modifies this
      ensures View() == ApplyPushOk(old(View()))
    {
      if op.kind == Put && op.key in records {
        records := records[op.key := records[op.key].(state := Acked)];
        if records[op.key].notify == Waiting {
          Append(Notify, op.key, false, now + NOTIFY_DELAY);
        } else {
          assert queue == queue + [];
        }
      } else {
        assert queue == queue + [];
      }
      queue := DropFirst(queue, op);
      past := past.(flush := Pushing(past.flush.now, past.flush.firstNew, past.flush.rest, past.flush.notices));
    }

    /** The push failed: back off, or give up after the last attempt or a 404. */
    method PushFailed(op: Op, now: real, notStored: bool)
      requires past.flush.InPush? && past.flush.op == op && past.flush.now == now
      modifies this
      ensures View() == ApplyPushFail(old(View()), notStored)
    {
      var op' := op.(attempts := op.attempts + 1, next := now + Backoff(op.attempts + 1));
      queue := FailInQueue(queue, op', notStored);
      records := RecordFailure(records, op', notStored);
      past := past.(flush := Pushing(past.flush.now, past.flush.firstNew, past.flush.rest, past.flush.notices));
      Save();
    }

    /** `_notify_failed` for the next refused op. */
    method NoticeFailed(now: real, why: Refusal, op: Op)
      requires past.flush.Refused? && past.flush.live != [] && past.flush.live[0] == op && past.flush.now == now &&
        past.flush.why == why
      modifies this
      ensures View() == ApplyRefuseOne(old(View()))
    {
      var op' := op;
      var over := false;
      if why.RateLimited? {
        op' := op.(next := now + why.wait);
      } else {
        op' := op.(attempts := op.attempts + 1, next := now + Backoff(op.attempts + 1));
        over := why.Forbidden? || op'.attempts >= MAX_ATTEMPTS;
      }
      queue := MutateInPlace(queue, op');
      if over {
        queue := DropFirst(queue, op');
        assert Keys([op']) == {op'.key};
        records := MarkEach(records, [op'], GaveUp);
      }
      past := past.(flush := Refused(past.flush.now, past.flush.live[1..], past.flush.why));
      Save();
    }
  }
}
