/** The viewer's annotation outbox: records kept in memory and on disk, a queue of operations for
    the broker, and announcements to the agent.  Memory is lost in a crash, the disk is not.  The
    worker's pass over the queue is cut into the steps between which another thread, or a crash,
    may come. */
module Outbox {

  type Id = string

  datatype State = Pending | Acked | Failed | Disabled

  /** "", pending, sending, sent, failed. */
  datatype Notice = Quiet | Waiting | Sending | Sent | GaveUp

  datatype Record = Record(thread: Id, resolved: bool, state: State, attempts: nat, notify: Notice)

  datatype Kind = Put | Resolve | Delete | Notify

  /** A queued operation.  `uid` is the identity of the object; Python compares the rest. */
  datatype Op = Op(uid: nat, kind: Kind, key: Id, resolved: bool, attempts: nat, next: real)

  predicate SameValue(a: Op, b: Op) {
    a.(uid := b.uid) == b
  }

  /** What the worker concludes of a send: it was taken, no answer came (or a gateway gave up waiting for
      one), or it was turned down.  Whether the message arrived is another matter. */
  datatype Outcome = InFlight | Answered | Unanswered | Rejected

  /** One message to the agent, naming the remarks in it. */
  datatype Send = Send(keys: set<Id>, outcome: Outcome)

  /** Why a send or a push definitely failed. */
  datatype Refusal = RateLimited(wait: real) | Forbidden | OtherFailure

  /** Where the worker is in its pass. */
  datatype Flush =
    | Idle
    | Pushing(now: real, firstNew: nat, rest: seq<Op>, notices: seq<Op>)
    | InPush(now: real, firstNew: nat, op: Op, rest: seq<Op>, notices: seq<Op>)
    | Announcing(now: real, live: seq<Op>, send: nat)
    | Refused(now: real, live: seq<Op>, why: Refusal)
    | Finishing

  /** One request for an op; `aborted` if something other than a transport error ended the pass in it. */
  datatype Try = Try(at: real, aborted: bool)

  /** Memory, disk and history.  `used`, `tries` and `sends` are what has ever happened,
      `arrived` the sends that reached the agent, known to no one here. */
  datatype World = World(
    canNotify: bool,
    records: map<Id, Record>,
    queue: seq<Op>,
    nextUid: nat,
    flush: Flush,
    clock: real,
    disk: map<Id, Record>,
    sends: seq<Send>,
    arrived: set<nat>,
    used: set<Id>,
    tries: map<nat, seq<Try>>)

  const MAX_ATTEMPTS := 5
  const NOTIFY_DELAY := 3.0

  /** The delay after the n-th failure: 2s, doubling. */
  function Backoff(n: nat): real {
    if n <= 1 then 2.0 else 2.0 * Backoff(n - 1)
  }

  datatype Event =
    | Add(id: Id, thread: Id, byAgent: bool)
    | ResolveThread(thread: Id, resolved: bool)
    | Remove(id: Id, victims: seq<Id>)
    | Retry(id: Id)
    | Pull(remote: map<Id, Record>)
    | FlushStart(now: real)
    | Skip
    | Begin
    | PushOk
    | PushFail(notStored: bool)
    | NoticesStart
    | SendEnds(outcome: Outcome)
    | SendRefused(why: Refusal)
    | RefuseOne
    | FlushEnd(save: bool)
    | Abort
    | Arrive(send: nat)
    | Crash(order: seq<Id>, canNotify: bool, clock: real)

  // ----- queue operations ----------------------------------------------------

  /** `queue.remove(op)`: the first element equal by value goes, whichever object it is. */
  function Drop(queue: seq<Op>, op: Op): seq<Op> {
    if queue == [] then []
    else if SameValue(queue[0], op) then queue[1..]
    else [queue[0]] + Drop(queue[1..], op)
  }

  /** Mutating the object `op` in place: the queue sees it if it holds that object. */
  function Mutate(queue: seq<Op>, op: Op): seq<Op> {
    seq(|queue|, i requires 0 <= i < |queue| => if queue[i].uid == op.uid then op else queue[i])
  }

  /** Queued puts for the victims go with them. */
  function WithoutPuts(queue: seq<Op>, victims: set<Id>): seq<Op> {
    if queue == [] then []
    else if queue[0].kind == Put && queue[0].key in victims then WithoutPuts(queue[1..], victims)
    else [queue[0]] + WithoutPuts(queue[1..], victims)
  }

  function DeleteOps(victims: seq<Id>, uid: nat): seq<Op> {
    seq(|victims|, i requires 0 <= i < |victims| => Op(uid + i, Delete, victims[i], false, 0, 0.0))
  }

  function Due(queue: seq<Op>, now: real, notices: bool): seq<Op> {
    if queue == [] then []
    else if queue[0].next <= now && (queue[0].kind == Notify) == notices then [queue[0]] + Due(queue[1..], now, notices)
    else Due(queue[1..], now, notices)
  }

  /** What `_load` queues for one record. */
  function Reload(r: Record): Record {
    if r.notify == Sending then r.(notify := Sent) else r
  }

  function ReloadAll(disk: map<Id, Record>): (out: map<Id, Record>)
    ensures out.Keys == disk.Keys && forall id | id in disk :: out[id] == Reload(disk[id])
  {
    map id | id in disk :: Reload(disk[id])
  }

  predicate OwedAfterLoad(r: Record) {
    r.state in {Pending, Failed} || (r.state == Acked && r.notify == Waiting)
  }

  function LoadedOps(disk: map<Id, Record>, order: seq<Id>, uid: nat): seq<Op>
    requires forall id | id in order :: id in disk
  {
    if order == [] then [] else
      var r := disk[order[0]];
      if OwedAfterLoad(r) then
        var kind := if r.state == Acked then Notify else Put;
        [Op(uid, kind, order[0], false, 0, 0.0)] + LoadedOps(disk, order[1..], uid + 1)
      else LoadedOps(disk, order[1..], uid)
  }

  function Keys(ops: seq<Op>): set<Id> {
    set op | op in ops :: op.key
  }

  /** The first loop of `_notify`: drop what is gone, announced or doubled; the rest is live. */
  function Gather(records: map<Id, Record>, canNotify: bool, queue: seq<Op>, notices: seq<Op>,
                  live: seq<Op>): (r: (seq<Op>, seq<Op>))
    decreases |notices|
  {
    if notices == [] then (queue, live) else
      var op := notices[0];
      if op.key !in records || records[op.key].notify != Waiting || !canNotify || op.key in Keys(live)
      then Gather(records, canNotify, Drop(queue, op), notices[1..], live)
      else Gather(records, canNotify, queue, notices[1..], live + [op])
  }

  function SetNotice(records: map<Id, Record>, keys: set<Id>, n: Notice): (out: map<Id, Record>)
    ensures out.Keys == records.Keys
    ensures forall id | id in records :: out[id] == if id in keys then records[id].(notify := n) else records[id]
  {
    map id | id in records :: if id in keys then records[id].(notify := n) else records[id]
  }

  function DropAll(queue: seq<Op>, ops: seq<Op>): seq<Op>
    decreases |ops|
  {
    if ops == [] then queue else DropAll(Drop(queue, ops[0]), ops[1..])
  }

  function Log(tries: map<nat, seq<Try>>, uid: nat): seq<Try> {
    if uid in tries then tries[uid] else []
  }

  // ----- the steps -----------------------------------------------------------

  predicate Doomed(records: map<Id, Record>, id: Id, victim: Id)
    requires id in records
  {
    && victim in records
    && (if records[id].thread == id then records[victim].thread == id else victim == id)
  }

  predicate Distinct(ids: seq<Id>) {
    forall i, j | 0 <= i < j < |ids| :: ids[i] != ids[j]
  }

  /** Steps of other threads: the reader's calls. */
  predicate IsWrite(e: Event) {
    e.Add? || e.ResolveThread? || e.Remove? || e.Retry? || e.Pull?
  }

  /** Steps of the worker that announce. */
  predicate IsNotice(e: Event) {
    e.NoticesStart? || e.SendEnds? || e.SendRefused? || e.RefuseOne?
  }

  /** A pull is made before the worker starts, never during a pass. */
  predicate WriteEnabled(w: World, e: Event) {
    match e
    case Add(id, _, _) => id !in w.used
    case ResolveThread(thread, _) => exists id | id in w.records :: w.records[id].thread == thread
    case Remove(id, victims) => id in w.records && Distinct(victims)
      && (forall v | v in victims :: Doomed(w.records, id, v))
      && (forall v | v in w.records && Doomed(w.records, id, v) :: v in victims)
    case Retry(id) => id in w.records
    case Pull(_) => w.flush.Idle?
    case _ => false
  }

  predicate NoticeEnabled(w: World, e: Event) {
    match e
    case NoticesStart => w.flush.Pushing? && w.flush.rest == []
    case SendEnds(outcome) => w.flush.Announcing? && w.flush.send < |w.sends|
      && (outcome == Unanswered || (outcome == Answered && w.flush.send in w.arrived))
    case SendRefused(_) => w.flush.Announcing? && w.flush.send < |w.sends|
    case RefuseOne => w.flush.Refused? && w.flush.live != []
    case _ => false
  }

  predicate PassEnabled(w: World, e: Event) {
    match e
    case FlushStart(now) => w.flush.Idle? && w.clock <= now
    case Skip => w.flush.Pushing? && w.flush.rest != [] && Skippable(w, w.flush.rest[0])
    case Begin => w.flush.Pushing? && w.flush.rest != [] && !Skippable(w, w.flush.rest[0])
    case PushOk => w.flush.InPush?
    case PushFail(_) => w.flush.InPush?
    case Arrive(send) => send < |w.sends|
    case Abort => w.flush.Pushing? || w.flush.InPush? || w.flush.Announcing? || w.flush.Refused?
    case FlushEnd(_) => w.flush.Finishing? || (w.flush.Refused? && w.flush.live == [])
    case _ => false
  }

  predicate CrashEnabled(w: World, order: seq<Id>) {
    Distinct(order) && (set id | id in order) == w.disk.Keys
  }

  predicate Enabled(w: World, e: Event) {
    if IsWrite(e) then WriteEnabled(w, e)
    else if IsNotice(e) then NoticeEnabled(w, e)
    else if e.Crash? then CrashEnabled(w, e.order)
    else PassEnabled(w, e)
  }

  /** A push whose record is gone or already stored is dropped without a request. */
  predicate Skippable(w: World, op: Op) {
    op.kind == Put && (op.key !in w.records || w.records[op.key].state == Acked)
  }

  function Enqueue(w: World, kind: Kind, key: Id, resolved: bool, next: real): World {
    w.(queue := w.queue + [Op(w.nextUid, kind, key, resolved, 0, next)], nextUid := w.nextUid + 1)
  }

  function Save(w: World): World {
    w.(disk := w.records)
  }

  function ApplyWrite(w: World, e: Event): World
    requires WriteEnabled(w, e)
  {
    match e
    case Add(id, thread, byAgent) => ApplyAdd(w, id, thread, byAgent)
    case ResolveThread(thread, resolved) => ApplyResolve(w, thread, resolved)
    case Remove(id, victims) => ApplyRemove(w, victims)
    case Retry(id) => ApplyRetry(w, id)
    case Pull(remote) => ApplyPull(w, remote)
  }

  function ApplyNotice(w: World, e: Event): World
    requires NoticeEnabled(w, e)
  {
    match e
    case NoticesStart => ApplyNotices(w)
    case SendEnds(outcome) => ApplySendEnds(w, outcome)
    case SendRefused(why) => ApplySendRefused(w, why)
    case RefuseOne => ApplyRefuseOne(w)
  }

  function ApplyPass(w: World, e: Event): World
    requires PassEnabled(w, e)
  {
    match e
    case FlushStart(now) => ApplyStart(w, now)
    case Skip => ApplySkip(w)
    case Begin => ApplyBegin(w)
    case PushOk => ApplyPushOk(w)
    case PushFail(notStored) => ApplyPushFail(w, notStored)
    case FlushEnd(save) => ApplyEnd(w, save)
    case Abort => ApplyAbort(w)
    case Arrive(send) => w.(arrived := w.arrived + {send})
  }

  function Apply(w: World, e: Event): World
    requires Enabled(w, e)
  {
    if IsWrite(e) then ApplyWrite(w, e)
    else if IsNotice(e) then ApplyNotice(w, e)
    else if e.Crash? then ApplyCrash(w, e.order, e.canNotify, e.clock)
    else ApplyPass(w, e)
  }

  function ApplyStart(w: World, now: real): World {
    w.(clock := now, flush := Pushing(now, w.nextUid, Due(w.queue, now, false), Due(w.queue, now, true)))
  }

  /** The pass ends, saving if anything was done. */
  function ApplyEnd(w: World, save: bool): World {
    (if save then Save(w) else w).(flush := Idle)
  }

  /** An exception the pass does not expect ends it where it is: the worker starts over at its next
      turn, with nothing saved and no attempt counted. */
  function ApplyAbort(w: World): World {
    w.(flush := Idle, tries := if w.flush.InPush? then MarkAborted(w.tries, w.flush.op.uid) else w.tries)
  }

  function MarkAborted(tries: map<nat, seq<Try>>, uid: nat): map<nat, seq<Try>> {
    var s := Log(tries, uid);
    if s == [] then tries else tries[uid := s[..|s| - 1] + [s[|s| - 1].(aborted := true)]]
  }

  function ApplyAdd(w: World, id: Id, thread: Id, byAgent: bool): World {
    var r := Record(if thread == "" then id else thread, false, Pending, 0,
                    if w.canNotify && !byAgent then Waiting else Quiet);
    Save(Enqueue(w.(records := w.records[id := r], used := w.used + {id}), Put, id, false, 0.0))
  }

  function ApplyResolve(w: World, thread: Id, resolved: bool): World {
    Save(Enqueue(w.(records := MarkResolved(w.records, thread, resolved)), Resolve, thread, resolved, 0.0))
  }

  function MarkResolved(records: map<Id, Record>, thread: Id, resolved: bool): (out: map<Id, Record>)
    ensures out.Keys == records.Keys
    ensures forall id | id in records ::
      out[id] == if records[id].thread == thread then records[id].(resolved := resolved) else records[id]
  {
    map id | id in records :: if records[id].thread == thread then records[id].(resolved := resolved) else records[id]
  }

  function ApplyRemove(w: World, victims: seq<Id>): World {
    var doomed := set v | v in victims;
    Save(w.(records := w.records - doomed,
            queue := WithoutPuts(w.queue, doomed) + DeleteOps(victims, w.nextUid),
            nextUid := w.nextUid + |victims|))
  }

  function ApplyRetry(w: World, id: Id): World
    requires id in w.records
  {
    var r := w.records[id];
    var again := r.state != Acked || r.notify == GaveUp;
    var r' := if r.state != Acked then r.(state := Pending, attempts := 0)
              else if again then r.(notify := Waiting) else r;
    var kind := if r.state == Acked then Notify else Put;
    Save(w.(records := w.records[id := r'],
            queue := w.queue + if again then [Op(w.nextUid, kind, id, false, 0, 0.0)] else [],
            nextUid := w.nextUid + if again then 1 else 0))
  }

  function ApplyPull(w: World, remote: map<Id, Record>): World {
    var novel := map id | id in remote && id !in w.records ::
      Record(remote[id].thread, remote[id].resolved, Acked, 0, Quiet);
    if novel == map[] then w
    else Save(w.(records := w.records + novel, used := w.used + novel.Keys))
  }

  function ApplySkip(w: World): World
    requires w.flush.Pushing? && w.flush.rest != []
  {
    var f := w.flush;
    w.(queue := Drop(w.queue, f.rest[0]), flush := Pushing(f.now, f.firstNew, f.rest[1..], f.notices))
  }

  function ApplyBegin(w: World): World
    requires w.flush.Pushing? && w.flush.rest != []
  {
    var f, op := w.flush, w.flush.rest[0];
    w.(tries := w.tries[op.uid := Log(w.tries, op.uid) + [Try(f.now, false)]],
       flush := InPush(f.now, f.firstNew, op, f.rest[1..], f.notices))
  }

  /** The record of a stored put is acked, and its notice queued after a delay. */
  function ApplyPushOk(w: World): World
    requires w.flush.InPush?
  {
    var f, op := w.flush, w.flush.op;
    var stored := op.kind == Put && op.key in w.records;
    var joined := if stored && w.records[op.key].notify == Waiting
                  then [Op(w.nextUid, Notify, op.key, false, 0, f.now + NOTIFY_DELAY)] else [];
    w.(records := if stored then w.records[op.key := w.records[op.key].(state := Acked)] else w.records,
       queue := Drop(w.queue + joined, op), nextUid := w.nextUid + |joined|,
       flush := Pushing(f.now, f.firstNew, f.rest, f.notices))
  }

  /** The op after one more failure. */
  function Failing(op: Op, now: real): Op {
    op.(attempts := op.attempts + 1, next := now + Backoff(op.attempts + 1))
  }

  /** A 404 ends the op at once, anything else after the last attempt. */
  predicate GivesUp(op: Op, notStored: bool) {
    notStored || op.attempts >= MAX_ATTEMPTS
  }

  function FailedQueue(queue: seq<Op>, op: Op, notStored: bool): seq<Op> {
    if GivesUp(op, notStored) then Drop(Mutate(queue, op), op) else Mutate(queue, op)
  }

  function FailedRecords(records: map<Id, Record>, op: Op, notStored: bool): map<Id, Record> {
    if op.kind == Put && op.key in records then
      var r := records[op.key].(attempts := op.attempts);
      records[op.key := if notStored then r.(state := Disabled)
                        else if GivesUp(op, notStored) then r.(state := Failed) else r]
    else records
  }

  function ApplyPushFail(w: World, notStored: bool): World
    requires w.flush.InPush?
  {
    var f := w.flush;
    var op := Failing(f.op, f.now);
    Save(w.(records := FailedRecords(w.records, op, notStored), queue := FailedQueue(w.queue, op, notStored),
            flush := Pushing(f.now, f.firstNew, f.rest, f.notices)))
  }

  /** Mark the live remarks "sending" and save, before the request goes out. */
  function ApplyNotices(w: World): World
    requires w.flush.Pushing?
  {
    var g := Gather(w.records, w.canNotify, w.queue, w.flush.notices, []);
    if g.1 == [] then w.(queue := g.0, flush := Finishing)
    else Save(w.(records := SetNotice(w.records, Keys(g.1), Sending), queue := g.0,
                 sends := w.sends + [Send(Keys(g.1), InFlight)],
                 flush := Announcing(w.flush.now, g.1, |w.sends|)))
  }

  function ApplySendEnds(w: World, outcome: Outcome): World
    requires w.flush.Announcing? && w.flush.send < |w.sends|
  {
    var f := w.flush;
    w.(sends := w.sends[f.send := w.sends[f.send].(outcome := outcome)],
       records := SetNotice(w.records, Keys(f.live), Sent),
       queue := DropAll(w.queue, f.live), flush := Finishing)
  }

  function ApplySendRefused(w: World, why: Refusal): World
    requires w.flush.Announcing? && w.flush.send < |w.sends|
  {
    var f := w.flush;
    w.(sends := w.sends[f.send := w.sends[f.send].(outcome := Rejected)],
       records := SetNotice(w.records, Keys(f.live), Waiting), flush := Refused(f.now, f.live, why))
  }

  /** `_notify_failed` for one op; a rate limit costs no attempt, a 403 or 404 ends it. */
  function ApplyRefuseOne(w: World): World
    requires w.flush.Refused? && w.flush.live != []
  {
    var f := w.flush;
    var op := RefusedOp(f.live[0], f.now, f.why);
    var over := Over(op, f.why);
    var queue := Mutate(w.queue, op);
    Save(w.(queue := if over then Drop(queue, op) else queue,
            records := if over then SetNotice(w.records, {op.key}, GaveUp) else w.records,
            flush := Refused(f.now, f.live[1..], f.why)))
  }

  function RefusedOp(op: Op, now: real, why: Refusal): Op {
    if why.RateLimited? then op.(next := now + why.wait) else Failing(op, now)
  }

  predicate Over(op: Op, why: Refusal) {
    why.Forbidden? || (why.OtherFailure? && op.attempts >= MAX_ATTEMPTS)
  }

  function ApplyCrash(w: World, order: seq<Id>, canNotify: bool, clock: real): World
    requires forall id | id in order :: id in w.disk
  {
    w.(canNotify := canNotify, clock := clock, flush := Idle,
       records := ReloadAll(w.disk),
       queue := LoadedOps(w.disk, order, w.nextUid), nextUid := w.nextUid + |order|)
  }

  /** A new viewer over an empty state file. */
  ghost predicate Initial(w: World) {
    && w.records == map[] && w.disk == map[] && w.queue == [] && w.flush.Idle?
    && w.sends == [] && w.arrived == {} && w.used == {} && w.tries == map[]
  }

  /** `w` comes from a fresh start by some sequence of steps. */
  ghost predicate Reaches(w0: World, events: seq<Event>, w: World)
    decreases |events|
  {
    if events == [] then w == w0
    else Enabled(w0, events[0]) && Reaches(Apply(w0, events[0]), events[1..], w)
  }
}
