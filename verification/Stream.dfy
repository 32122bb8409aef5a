/** The conversation-list push stream: table changes become notes, notes become pushes, pushes become
    frames in bounded queues, and a queue that overflows costs its subscriber a fresh snapshot. */
module Stream {
  import opened Wrappers
  import opened Access

  type Id = string

  /** What the sidebar shows: the activity stamp, the other columns whose change the trigger notifies, and
      the ones it is silent about (the model and the sandbox). */
  datatype Row = Row(owner: Option<string>, visibility: Visibility, meta: string, activity: int, silent: string)

  /** Equal in every column whose change is notified. */
  predicate SameNotified(a: Row, b: Row) {
    a.(silent := b.silent) == b
  }

  type Table = map<Id, Row>

  // ----- who sees what -------------------------------------------------------

  predicate Visible(owner: Option<string>, visibility: Visibility, caller: string, scope: string) {
    CanAccess(owner, visibility, caller) && (scope == "all" || caller == "" || owner == Some(caller))
  }

  /** Going private only ever takes a row away, and from everyone but its owner. */
  lemma PrivacyOnlyHides(owner: Option<string>, caller: string, scope: string)
    ensures Visible(owner, Private, caller, scope) ==> Visible(owner, Shared, caller, scope)
    ensures Visible(owner, Private, caller, scope) <==> caller != "" && owner == Some(caller)
  {}

  /** The rows a subscriber's list should hold. */
  function VisibleRows(rows: Table, caller: string, scope: string): Table {
    map id | id in rows && Visible(rows[id].owner, rows[id].visibility, caller, scope) :: rows[id]
  }

  /** The snapshot, in the store's order. */
  method AssembleList(metas: seq<(Id, Row)>, caller: string, scope: string) returns (list: seq<(Id, Row)>)
    requires forall i, j | 0 <= i < j < |metas| :: metas[i].0 != metas[j].0
    ensures TableOf(list) == VisibleRows(TableOf(metas), caller, scope)
    ensures Subsequence(list, metas)
    ensures forall i, j | 0 <= i < j < |list| :: list[i].0 != list[j].0
  {
    list := [];
    for k := 0 to |metas|
      invariant Lists(list, metas[..k], caller, scope)
    {
      ghost var was := list;
      var m := metas[k];
      assert metas[..k + 1] == metas[..k] + [m];
      assert forall i | 0 <= i < k :: metas[..k][i].0 != m.0;
      if Visible(m.1.owner, m.1.visibility, caller, scope) {
        list := list + [m];
      }
      ListsMore(was, metas[..k], m, caller, scope);
    }
    assert metas[..|metas|] == metas;
    ListHoldsVisible(list, metas, caller, scope);
  }

  /** The visible ones of `metas`, in their order. */
  ghost predicate Lists(list: seq<(Id, Row)>, metas: seq<(Id, Row)>, caller: string, scope: string) {
    HoldsVisible(list, metas, caller, scope) && Subsequence(list, metas) && DistinctIds(list)
  }

  ghost predicate HoldsVisible(list: seq<(Id, Row)>, metas: seq<(Id, Row)>, caller: string, scope: string) {
    forall m :: m in list <==> m in metas && Visible(m.1.owner, m.1.visibility, caller, scope)
  }

  ghost predicate DistinctIds(list: seq<(Id, Row)>) {
    forall i, j | 0 <= i < j < |list| :: list[i].0 != list[j].0
  }

  lemma HoldsMore(list: seq<(Id, Row)>, metas: seq<(Id, Row)>, m: (Id, Row), caller: string, scope: string)
    requires HoldsVisible(list, metas, caller, scope) && forall i | 0 <= i < |metas| :: metas[i].0 != m.0
    ensures var seen := Visible(m.1.owner, m.1.visibility, caller, scope);
      HoldsVisible(if seen then list + [m] else list, metas + [m], caller, scope)
    ensures forall i | 0 <= i < |list| :: list[i].0 != m.0
  {
    forall i | 0 <= i < |list| ensures list[i].0 != m.0 {
      assert list[i] in list;
      var k :| 0 <= k < |metas| && metas[k] == list[i];
    }
  }

  lemma ListsMore(list: seq<(Id, Row)>, metas: seq<(Id, Row)>, m: (Id, Row), caller: string, scope: string)
    requires Lists(list, metas, caller, scope) && forall i | 0 <= i < |metas| :: metas[i].0 != m.0
    ensures var seen := Visible(m.1.owner, m.1.visibility, caller, scope);
      Lists(if seen then list + [m] else list, metas + [m], caller, scope)
  {
    HoldsMore(list, metas, m, caller, scope);
    if Visible(m.1.owner, m.1.visibility, caller, scope) {
      ExtendBoth(list, metas, m);
    } else {
      ExtendWhole(list, metas, m);
    }
  }

  ghost function TableOf(list: seq<(Id, Row)>): Table {
    if list == [] then map[] else TableOf(list[..|list| - 1])[list[|list| - 1].0 := list[|list| - 1].1]
  }

  predicate Subsequence(s: seq<(Id, Row)>, t: seq<(Id, Row)>) {
    if s == [] then true
    else if t == [] then false
    else if s[|s| - 1] == t[|t| - 1] then Subsequence(s[..|s| - 1], t[..|t| - 1])
    else Subsequence(s, t[..|t| - 1])
  }

  lemma ExtendBoth(s: seq<(Id, Row)>, t: seq<(Id, Row)>, m: (Id, Row))
    requires Subsequence(s, t)
    ensures Subsequence(s + [m], t + [m])
  {
    assert (s + [m])[..|s|] == s && (t + [m])[..|t|] == t;
  }

  lemma {:induction false} ShrinkLeft(s: seq<(Id, Row)>, t: seq<(Id, Row)>)
    requires s != [] && Subsequence(s, t)
    ensures Subsequence(s[..|s| - 1], t)
    decreases |t|, 0
  {
    var s' := s[..|s| - 1];
    if s[|s| - 1] == t[|t| - 1] {
      ExtendWhole(s', t[..|t| - 1], t[|t| - 1]);
      assert t == t[..|t| - 1] + [t[|t| - 1]];
    } else {
      ShrinkLeft(s, t[..|t| - 1]);
      ExtendWhole(s', t[..|t| - 1], t[|t| - 1]);
      assert t == t[..|t| - 1] + [t[|t| - 1]];
    }
  }

  lemma {:induction false} ExtendWhole(s: seq<(Id, Row)>, t: seq<(Id, Row)>, m: (Id, Row))
    requires Subsequence(s, t)
    ensures Subsequence(s, t + [m])
    decreases |t|, 1
  {
    assert (t + [m])[..|t|] == t;
    if s != [] && s[|s| - 1] == m {
      ShrinkLeft(s, t);
    }
  }

  lemma {:induction false} TableHolds(list: seq<(Id, Row)>, id: Id, r: Row)
    requires forall i, j | 0 <= i < j < |list| :: list[i].0 != list[j].0
    ensures (id in TableOf(list) && TableOf(list)[id] == r) <==> (id, r) in list
    decreases |list|
  {
    if list != [] {
      var init, last := list[..|list| - 1], list[|list| - 1];
      assert list == init + [last];
      TableHolds(init, id, r);
      if (id, r) in init {
        var i :| 0 <= i < |init| && init[i] == (id, r);
        assert list[i].0 != last.0;
      }
    }
  }

  lemma ListHoldsVisible(list: seq<(Id, Row)>, metas: seq<(Id, Row)>, caller: string, scope: string)
    requires forall i, j | 0 <= i < j < |metas| :: metas[i].0 != metas[j].0
    requires forall i, j | 0 <= i < j < |list| :: list[i].0 != list[j].0
    requires forall m :: m in list <==> m in metas && Visible(m.1.owner, m.1.visibility, caller, scope)
    ensures TableOf(list) == VisibleRows(TableOf(metas), caller, scope)
  {
    var got, want := TableOf(list), VisibleRows(TableOf(metas), caller, scope);
    forall id | id in got ensures id in want && want[id] == got[id] {
      TableHolds(list, id, got[id]);
      TableHolds(metas, id, got[id]);
    }
    forall id | id in want ensures id in got {
      TableHolds(metas, id, want[id]);
      TableHolds(list, id, want[id]);
    }
  }

  // ----- frames and subscribers ----------------------------------------------

  datatype Frame = Upsert(id: Id, row: Row) | Remove(id: Id)

  const SUB_BUFFER := 64

  /** The serve loop: taking frames, emptying its queue for a resync, or about to read a snapshot. */
  datatype Serving = Streaming | Draining | Reading

  /** `client` is what the frames written so far add up to. */
  datatype Sub = Sub(caller: string, scope: string, queue: seq<Frame>, resync: bool, phase: Serving, client: Table)

  predicate Sees(s: Sub, owner: Option<string>, visibility: Visibility) {
    Visible(owner, visibility, s.caller, s.scope)
  }

  function Merge(client: Table, f: Frame): Table {
    match f
    case Upsert(id, row) => client[id := row]
    case Remove(id) => client - {id}
  }

  function Replay(client: Table, queue: seq<Frame>): Table {
    if queue == [] then client else Merge(Replay(client, queue[..|queue| - 1]), queue[|queue| - 1])
  }

  /** Queue the frame, or ask for a resync if there is no room. */
  function Deliver(s: Sub, f: Frame): Sub {
    if |s.queue| < SUB_BUFFER then s.(queue := s.queue + [f]) else s.(resync := true)
  }

  /** Whom a frame is for: those who see the row, or those who lose it as it goes private. */
  datatype Audience = Viewers(owner: Option<string>, visibility: Visibility) | Losers(owner: Option<string>)

  predicate Accepts(to: Audience, s: Sub) {
    match to
    case Viewers(owner, visibility) => Sees(s, owner, visibility)
    case Losers(owner) => Sees(s, owner, Shared) && !Sees(s, owner, Private)
  }

  function DeliverTo(s: Sub, f: Frame, to: Audience): Sub {
    if Accepts(to, s) then Deliver(s, f) else s
  }

  function DeliverAll(subs: map<nat, Sub>, f: Frame, to: Audience): (out: map<nat, Sub>)
    ensures out.Keys == subs.Keys
    ensures forall i | i in subs :: out[i] == DeliverTo(subs[i], f, to)
  {
    map i | i in subs :: DeliverTo(subs[i], f, to)
  }

  /** The hub: the live subscribers. */
  class Hub {
    var subs: map<nat, Sub>

    constructor ()
      ensures subs == map[]
    {
      subs := map[];
    }

    method Subscribe(i: nat, caller: string, scope: string)
      requires i !in subs
      modifies this
      ensures subs == old(subs)[i := Sub(caller, scope, [], false, Reading, map[])]
    {
      subs := subs[i := Sub(caller, scope, [], false, Reading, map[])];
    }

    /** Whatever the order of the subscribers, each accepted one gets the frame exactly once. */
    method Broadcast(f: Frame, to: Audience)
      modifies this
      ensures subs == DeliverAll(old(subs), f, to)
    {
      var todo, was := subs.Keys, subs;
      while todo != {}
        invariant todo <= was.Keys && subs.Keys == was.Keys
        invariant forall i | i in was :: subs[i] == if i in todo then was[i] else DeliverTo(was[i], f, to)
        decreases |todo|
      {
        var i :| i in todo;
        todo := todo - {i};
        if Accepts(to, subs[i]) {
          if |subs[i].queue| < SUB_BUFFER {
            subs := subs[i := subs[i].(queue := subs[i].queue + [f])];
          } else {
            subs := subs[i := subs[i].(resync := true)];
          }
        }
      }
    }
  }

  // ----- notes and the throttle ----------------------------------------------

  /** One notification, as the trigger wrote it. */
  datatype Note = Note(id: Id, deleted: bool, activityOnly: bool, owner: Option<string>, visibility: Visibility,
                       wentPrivate: bool)

  /** `windows` maps an id in its throttle window to whether it is dirty; `owed` are pushes begun
      and not yet read, `drifted` the rows changed in a silent column since they were last pushed. */
  datatype World = World(
    rows: Table,
    notes: seq<Note>,
    windows: map<Id, bool>,
    owed: set<Id>,
    drifted: set<Id>,
    subs: map<nat, Sub>)

  datatype Event =
    | Insert(id: Id, row: Row)
    | Update(id: Id, visibility: Visibility, meta: string, activity: int, silent: string)
    | Delete(id: Id)
    | Revoke
    | Handle
    | Push(id: Id)
    | Expire(id: Id)
    | Subscribe(i: nat, caller: string, scope: string)
    | Unsubscribe(i: nat)
    | Receive(i: nat)
    | Resync(i: nat)
    | Drain(i: nat)
    | Snapshot(i: nat)

  /** Changes of the table. */
  predicate IsChange(e: Event) {
    e.Insert? || e.Update? || e.Delete?
  }

  /** Steps of the listener and the throttle. */
  predicate IsFeed(e: Event) {
    e.Revoke? || e.Handle? || e.Push? || e.Expire?
  }

  predicate Enabled(w: World, e: Event) {
    match e
    case Insert(id, _) => id !in w.rows
    case Update(id, _, _, _, _) => id in w.rows
    case Delete(id) => id in w.rows
    case Revoke => w.notes != [] && w.notes[0].wentPrivate
    case Handle => w.notes != [] && !w.notes[0].wentPrivate
    case Push(_) => true
    case Expire(id) => id in w.windows
    case Subscribe(i, _, _) => i !in w.subs
    case Unsubscribe(i) => i in w.subs
    case Receive(i) => i in w.subs && w.subs[i].phase == Streaming && w.subs[i].queue != []
    case Resync(i) => i in w.subs && w.subs[i].phase == Streaming && w.subs[i].resync
    case Drain(i) => i in w.subs && w.subs[i].phase == Draining
    case Snapshot(i) => i in w.subs && w.subs[i].phase == Reading
  }

  /** The owner never changes. */
  function Changed(r: Row, visibility: Visibility, meta: string, activity: int, silent: string): Row {
    r.(visibility := visibility, meta := meta, activity := activity, silent := silent)
  }

  function UpdateNote(id: Id, was: Row, now: Row): Note {
    Note(id, false, was.meta == now.meta && was.visibility == now.visibility, now.owner, now.visibility,
         was.visibility == Shared && now.visibility == Private)
  }

  function ApplyChange(w: World, e: Event): World
    requires IsChange(e) && Enabled(w, e)
  {
    match e
    case Insert(id, row) =>
      w.(rows := w.rows[id := row], notes := w.notes + [Note(id, false, false, row.owner, row.visibility, false)])
    case Update(id, visibility, meta, activity, silent) =>
      var was, now := w.rows[id], Changed(w.rows[id], visibility, meta, activity, silent);
      w.(rows := w.rows[id := now],
         notes := if SameNotified(was, now) then w.notes else w.notes + [UpdateNote(id, was, now)],
         drifted := if SameNotified(was, now) && was != now then w.drifted + {id} else w.drifted)
    case Delete(id) =>
      w.(rows := w.rows - {id},
        notes := w.notes + [Note(id, true, false, w.rows[id].owner, w.rows[id].visibility, false)])
  }

  /** The first half of handling a note that went private. */
  function ApplyRevoke(w: World): World
    requires w.notes != []
  {
    var n := w.notes[0];
    w.(notes := [n.(wentPrivate := false)] + w.notes[1..], subs := DeliverAll(w.subs, Remove(n.id), Losers(n.owner)))
  }

  /** A removal closes the window and goes out; an activity note falls into the open window or opens
      one and pushes; any other note pushes. */
  function ApplyHandle(w: World): World
    requires w.notes != []
  {
    var n := w.notes[0];
    if n.deleted then
      w.(notes := w.notes[1..], windows := w.windows - {n.id},
         subs := DeliverAll(w.subs, Remove(n.id), Viewers(n.owner, n.visibility)))
    else if n.activityOnly && n.id in w.windows then
      w.(notes := w.notes[1..], windows := w.windows[n.id := true])
    else
      w.(notes := w.notes[1..], owed := w.owed + {n.id},
         windows := if n.activityOnly then w.windows[n.id := false] else w.windows)
  }

  /** Read the row as it is now and send it to those who see it as it is now. */
  function ApplyPush(w: World, id: Id): World {
    w.(owed := w.owed - {id}, drifted := w.drifted - {id},
       subs := if id in w.rows
               then DeliverAll(w.subs, Upsert(id, w.rows[id]), Viewers(w.rows[id].owner, w.rows[id].visibility))
               else w.subs)
  }

  function ApplyExpire(w: World, id: Id): World
    requires id in w.windows
  {
    if w.windows[id] then w.(windows := w.windows[id := false], owed := w.owed + {id})
    else w.(windows := w.windows - {id})
  }

  function ApplyFeed(w: World, e: Event): World
    requires IsFeed(e) && Enabled(w, e)
  {
    match e
    case Revoke => ApplyRevoke(w)
    case Handle => ApplyHandle(w)
    case Push(id) => ApplyPush(w, id)
    case Expire(id) => ApplyExpire(w, id)
  }

  /** One subscriber's serve loop. */
  function Served(rows: Table, s: Sub, e: Event): Sub
    requires e.Receive? ==> s.queue != []
  {
    match e
    case Receive(_) => s.(client := Merge(s.client, s.queue[0]), queue := s.queue[1..])
    case Resync(_) => s.(resync := false, phase := Draining)
    case Drain(_) => if s.queue == [] then s.(phase := Reading) else s.(queue := s.queue[1..])
    case Snapshot(_) => s.(phase := Streaming, client := VisibleRows(rows, s.caller, s.scope))
    case _ => s
  }

  function ApplyServe(w: World, e: Event): World
    requires !IsChange(e) && !IsFeed(e) && Enabled(w, e)
  {
    match e
    case Subscribe(i, caller, scope) => w.(subs := w.subs[i := Sub(caller, scope, [], false, Reading, map[])])
    case Unsubscribe(i) => w.(subs := w.subs - {i})
    case Receive(i) => w.(subs := w.subs[i := Served(w.rows, w.subs[i], e)])
    case Resync(i) => w.(subs := w.subs[i := Served(w.rows, w.subs[i], e)])
    case Drain(i) => w.(subs := w.subs[i := Served(w.rows, w.subs[i], e)])
    case Snapshot(i) => w.(subs := w.subs[i := Served(w.rows, w.subs[i], e)])
  }

  function Apply(w: World, e: Event): World
    requires Enabled(w, e)
  {
    if IsChange(e) then ApplyChange(w, e) else if IsFeed(e) then ApplyFeed(w, e) else ApplyServe(w, e)
  }

  /** Any table, nothing in flight, nobody listening. */
  ghost predicate Initial(w: World) {
    w.notes == [] && w.windows == map[] && w.owed == {} && w.drifted == {} && w.subs == map[]
  }

  ghost predicate Reaches(w0: World, events: seq<Event>, w: World)
    decreases |events|
  {
    if events == [] then w == w0
    else Enabled(w0, events[0]) && Reaches(Apply(w0, events[0]), events[1..], w)
  }
}
