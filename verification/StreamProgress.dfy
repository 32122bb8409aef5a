/** That the push stream gets somewhere: with the table left alone, what is outstanding can always be worked
    off, and then every client shows what a fresh read would. */
module StreamProgress {
  import opened Wrappers
  import opened Access
  import opened Stream
  import opened StreamProofs

  /** A step of the listener, the throttle or a serve loop; only what is owed is pushed. */
  predicate Works(w: World, e: Event) {
    match e
    case Revoke => true
    case Handle => true
    case Push(id) => id in w.owed
    case Expire(_) => true
    case Receive(_) => true
    case Resync(_) => true
    case Drain(_) => true
    case Snapshot(_) => true
    case _ => false
  }

  /** A run of such steps alone. */
  ghost predicate WorksOff(w: World, events: seq<Event>, w': World)
    decreases |events|
  {
    if events == [] then w' == w
    else Enabled(w, events[0]) && Works(w, events[0]) && WorksOff(Apply(w, events[0]), events[1..], w')
  }

  lemma WorkFirst(w: World, e: Event, events: seq<Event>, w': World)
    requires Enabled(w, e) && Works(w, e) && WorksOff(Apply(w, e), events, w')
    ensures WorksOff(w, [e] + events, w')
  {
    assert ([e] + events)[1..] == events;
  }

  lemma {:induction false} WorkJoin(w: World, a: seq<Event>, w1: World, b: seq<Event>, w2: World)
    requires WorksOff(w, a, w1) && WorksOff(w1, b, w2)
    ensures WorksOff(w, a + b, w2)
    decreases |a|
  {
    if a == [] {
      assert a + b == b;
    } else {
      WorkJoin(Apply(w, a[0]), a[1..], w1, b, w2);
      assert (a + b)[1..] == a[1..] + b;
    }
  }

  lemma {:induction false} WorkReaches(w0: World, events: seq<Event>, w: World, more: seq<Event>, w': World)
    requires Reaches(w0, events, w) && WorksOff(w, more, w')
    ensures Reaches(w0, events + more, w')
    decreases |events|, |more|
  {
    if events != [] {
      WorkReaches(Apply(w0, events[0]), events[1..], w, more, w');
      assert (events + more)[1..] == events[1..] + more;
    } else if more != [] {
      WorkReaches(Apply(w, more[0]), [], Apply(w, more[0]), more[1..], w');
      assert [] + more[1..] == more[1..] && events + more == more;
    } else {
      assert events + more == [];
    }
  }

  /** The table and the set of subscribers are as they were. */
  ghost predicate SameTable(w: World, w': World) {
    w'.rows == w.rows && w'.subs.Keys == w.subs.Keys
  }

  // ----- notes, then windows, then pushes ------------------------------------

  lemma {:induction false} NotesWorkedOff(w: World) returns (events: seq<Event>, w': World)
    ensures WorksOff(w, events, w') && SameTable(w, w') && w'.notes == []
    decreases |w.notes|, if w.notes != [] && w.notes[0].wentPrivate then 1 else 0
  {
    if w.notes == [] {
      events, w' := [], w;
    } else {
      var e := if w.notes[0].wentPrivate then Revoke else Handle;
      var more: seq<Event>;
      more, w' := NotesWorkedOff(Apply(w, e));
      WorkFirst(w, e, more, w');
      events := [e] + more;
    }
  }

  function Dirty(w: World): set<Id> {
    set id | id in w.windows && w.windows[id]
  }

  lemma {:induction false} WindowsWorkedOff(w: World) returns (events: seq<Event>, w': World)
    requires w.notes == []
    ensures WorksOff(w, events, w') && SameTable(w, w') && w'.notes == [] && Dirty(w') == {}
    decreases |Dirty(w)|
  {
    if Dirty(w) == {} {
      events, w' := [], w;
    } else {
      var id :| id in Dirty(w);
      var w1 := Apply(w, Expire(id));
      assert Dirty(w1) == Dirty(w) - {id};
      var more: seq<Event>;
      more, w' := WindowsWorkedOff(w1);
      WorkFirst(w, Expire(id), more, w');
      events := [Expire(id)] + more;
    }
  }

  lemma {:induction false} PushesWorkedOff(w: World) returns (events: seq<Event>, w': World)
    requires w.notes == [] && Dirty(w) == {}
    ensures WorksOff(w, events, w') && SameTable(w, w') && w'.notes == [] && Dirty(w') == {} && w'.owed == {}
    decreases |w.owed|
  {
    if w.owed == {} {
      events, w' := [], w;
    } else {
      var id :| id in w.owed;
      var w1 := Apply(w, Push(id));
      assert w1.owed == w.owed - {id};
      var more: seq<Event>;
      more, w' := PushesWorkedOff(w1);
      WorkFirst(w, Push(id), more, w');
      events := [Push(id)] + more;
    }
  }

  // ----- the serve loops -----------------------------------------------------

  predicate Settled(s: Sub) {
    s.phase == Streaming && !s.resync && s.queue == []
  }

  function Rank(s: Sub): nat {
    match s.phase
    case Streaming => 0
    case Reading => 1
    case Draining => 2
  }

  /** What an unsettled serve loop does next. */
  function Next(s: Sub, i: nat): Event {
    match s.phase
    case Draining => Drain(i)
    case Reading => Snapshot(i)
    case Streaming => if s.resync then Resync(i) else Receive(i)
  }

  /** Only the one serve loop moved. */
  ghost predicate OnlySub(w: World, i: nat, w': World) {
    && w'.rows == w.rows && w'.notes == w.notes && w'.windows == w.windows && w'.owed == w.owed
    && w'.drifted == w.drifted && w'.subs.Keys == w.subs.Keys
    && forall j | j in w.subs && j != i :: w'.subs[j] == w.subs[j]
  }

  lemma {:induction false} SubSettles(w: World, i: nat) returns (events: seq<Event>, w': World)
    requires i in w.subs
    ensures WorksOff(w, events, w') && OnlySub(w, i, w') && Settled(w'.subs[i])
    decreases if w.subs[i].resync then 1 else 0, Rank(w.subs[i]), |w.subs[i].queue|
  {
    var s := w.subs[i];
    if Settled(s) {
      events, w' := [], w;
    } else {
      var e := Next(s, i);
      var w1 := Apply(w, e);
      var more: seq<Event>;
      more, w' := SubSettles(w1, i);
      WorkFirst(w, e, more, w');
      events := [e] + more;
    }
  }

  function Unsettled(w: World): set<nat> {
    set i | i in w.subs && !Settled(w.subs[i])
  }

  lemma {:induction false} SubsSettle(w: World) returns (events: seq<Event>, w': World)
    ensures WorksOff(w, events, w') && Unsettled(w') == {} && w'.subs.Keys == w.subs.Keys
    ensures w'.rows == w.rows && w'.notes == w.notes && w'.windows == w.windows && w'.owed == w.owed
    decreases |Unsettled(w)|
  {
    if Unsettled(w) == {} {
      events, w' := [], w;
    } else {
      var i :| i in Unsettled(w);
      var first, more: seq<Event>;
      var w1: World;
      first, w1 := SubSettles(w, i);
      assert Unsettled(w1) == Unsettled(w) - {i};
      more, w' := SubsSettle(w1);
      WorkJoin(w, first, w1, more, w');
      events := first + more;
    }
  }

  /** From every reachable state, the steps of the listener, the throttle and the serve loops alone, with no
      change of the table, lead to one with nothing outstanding, every queue empty, and every client showing
      exactly the rows of a fresh read, in all columns but silent ones that have drifted. */
  lemma EverythingDrains(w0: World, events: seq<Event>, w: World) returns (more: seq<Event>, w': World)
    requires Initial(w0) && Reaches(w0, events, w)
    ensures WorksOff(w, more, w') && w'.rows == w.rows && w'.subs.Keys == w.subs.Keys
    ensures forall id :: !Outstanding(w', id)
    ensures forall i | i in w'.subs :: Settled(w'.subs[i]) && ShowsTable(w', w'.subs[i])
  {
    var a, b, c, d: seq<Event>;
    var w1, w2, w3: World;
    a, w1 := NotesWorkedOff(w);
    b, w2 := WindowsWorkedOff(w1);
    c, w3 := PushesWorkedOff(w2);
    d, w' := SubsSettle(w3);
    WorkJoin(w, a, w1, b, w2);
    WorkJoin(w, a + b, w2, c, w3);
    WorkJoin(w, a + b + c, w3, d, w');
    more := a + b + c + d;
    WorkReaches(w0, events, w, more, w');
    DrainedShows(w0, events + more, w');
  }

  lemma DrainedShows(w0: World, events: seq<Event>, w: World)
    requires Initial(w0) && Reaches(w0, events, w)
    requires w.notes == [] && w.owed == {} && Dirty(w) == {} && Unsettled(w) == {}
    ensures forall id :: !Outstanding(w, id)
    ensures forall i | i in w.subs :: Settled(w.subs[i]) && ShowsTable(w, w.subs[i])
  {
    NothingOutstanding(w);
    forall i | i in w.subs ensures Settled(w.subs[i]) && ShowsTable(w, w.subs[i]) {
      assert i !in Unsettled(w);
      QuietClientIsExact(w0, events, w, i);
    }
  }

  /** Who is to see a row: of a private one its owner, of a shared one everyone who lists all, the anonymous
      caller, and whoever lists his own and owns it. */
  predicate Entitled(r: Row, caller: string, scope: string) {
    match r.visibility
    case Private => caller != "" && r.owner == Some(caller)
    case Shared => scope == "all" || caller == "" || r.owner == Some(caller)
  }

  /** The client's rows are those it is entitled to, equal in every notified column, and in the others unless
      they drifted. */
  ghost predicate ShowsTable(w: World, s: Sub) {
    forall id ::
      && (id in s.client <==> id in w.rows && Entitled(w.rows[id], s.caller, s.scope))
      && (id in s.client && id in w.rows ==>
            && s.client[id].owner == w.rows[id].owner && s.client[id].visibility == w.rows[id].visibility
            && s.client[id].meta == w.rows[id].meta && s.client[id].activity == w.rows[id].activity
            && (id !in w.drifted ==> s.client[id].silent == w.rows[id].silent))
  }

  lemma NothingOutstanding(w: World)
    requires w.notes == [] && w.owed == {} && Dirty(w) == {}
    ensures forall id :: !Outstanding(w, id)
  {
    forall id ensures !Outstanding(w, id) {
      assert id in w.windows && w.windows[id] ==> id in Dirty(w);
    }
  }

  // ----- in whatever order ---------------------------------------------------

  function Weight(s: Sub): nat {
    |s.queue| + (if s.resync then 3 else 0) + Rank(s)
  }

  /** What the serve loops still have to do. */
  ghost function Load(subs: map<nat, Sub>): nat
    decreases |subs|
  {
    if subs == map[] then 0 else
      var i :| i in subs;
      var rest := subs - {i};
      assert rest.Keys == subs.Keys - {i} && |rest| == |rest.Keys| && |subs| == |subs.Keys|;
      Weight(subs[i]) + Load(rest)
  }

  lemma {:induction false} LoadWithout(subs: map<nat, Sub>, i: nat)
    requires i in subs
    ensures Load(subs) == Weight(subs[i]) + Load(subs - {i})
    decreases |subs|
  {
    var k :| k in subs && Load(subs) == Weight(subs[k]) + Load(subs - {k});
    assert (subs - {k}).Keys == subs.Keys - {k} && |subs - {k}| == |(subs - {k}).Keys| && |subs| == |subs.Keys|;
    if k != i {
      LoadWithout(subs - {k}, i);
      assert (subs - {i}).Keys == subs.Keys - {i} && |subs - {i}| == |(subs - {i}).Keys|;
      LoadWithout(subs - {i}, k);
      assert subs - {k} - {i} == subs - {i} - {k};
    }
  }

  lemma LoadFalls(subs: map<nat, Sub>, i: nat, s: Sub)
    requires i in subs && Weight(s) < Weight(subs[i])
    ensures Load(subs[i := s]) < Load(subs)
  {
    LoadWithout(subs, i);
    LoadWithout(subs[i := s], i);
    assert subs[i := s] - {i} == subs - {i};
  }

  function Flag(w: World): nat {
    if w.notes != [] && w.notes[0].wentPrivate then 1 else 0
  }

  /** Nearer to being done: the notes first, then the windows, the pushes and the serve loops. */
  ghost predicate Nearer(w': World, w: World) {
    || |w'.notes| < |w.notes|
    || (|w'.notes| == |w.notes| &&
        (|| Flag(w') < Flag(w)
         || (Flag(w') == Flag(w) &&
             (|| |w'.windows.Keys| + |Dirty(w')| < |w.windows.Keys| + |Dirty(w)|
              || (|w'.windows.Keys| + |Dirty(w')| == |w.windows.Keys| + |Dirty(w)| &&
                  (|| |w'.owed| < |w.owed|
                   || (|w'.owed| == |w.owed| && Load(w'.subs) < Load(w.subs))))))))
  }

  lemma ExpireNears(w: World, id: Id)
    requires id in w.windows
    ensures Nearer(ApplyExpire(w, id), w)
  {
    var w' := ApplyExpire(w, id);
    if w.windows[id] {
      assert w'.windows.Keys == w.windows.Keys && Dirty(w') == Dirty(w) - {id};
    } else {
      assert w'.windows.Keys == w.windows.Keys - {id} && Dirty(w') == Dirty(w);
    }
  }

  lemma ServeNears(w: World, e: Event)
    requires Enabled(w, e) && (e.Receive? || e.Resync? || e.Drain? || e.Snapshot?)
    ensures Nearer(ApplyServe(w, e), w)
  {
    LoadFalls(w.subs, e.i, Served(w.rows, w.subs[e.i], e));
  }

  /** Every step of work, whichever is taken, leaves less to do. */
  lemma WorkNears(w: World, e: Event)
    requires Enabled(w, e) && Works(w, e)
    ensures Nearer(Apply(w, e), w)
  {
    match e
    case Revoke =>
    case Handle =>
    case Push(id) => assert Apply(w, e).owed == w.owed - {id};
    case Expire(id) => ExpireNears(w, id);
    case _ => ServeNears(w, e);
  }

  /** So work comes to an end: no run of work steps alone goes on for ever. */
  lemma {:induction false} NoEndlessWork(run: nat -> World, steps: nat -> Event, n: nat)
    requires forall k: nat :: Enabled(run(k), steps(k)) && Works(run(k), steps(k))
    requires forall k: nat :: run(k + 1) == Apply(run(k), steps(k))
    ensures false
    decreases |run(n).notes|, Flag(run(n)), |run(n).windows.Keys| + |Dirty(run(n))|, |run(n).owed|, Load(run(n).subs)
  {
    WorkNears(run(n), steps(n));
    NoEndlessWork(run, steps, n + 1);
  }

  /** And it ends only when it is done: in every reachable state where no step of work is left to take, in
      whatever order they were taken, nothing is outstanding and every client shows the table. */
  lemma WorkEndsDone(w0: World, events: seq<Event>, w: World)
    requires Initial(w0) && Reaches(w0, events, w)
    requires forall e | Works(w, e) :: !Enabled(w, e)
    ensures forall id :: !Outstanding(w, id)
    ensures forall i | i in w.subs :: Settled(w.subs[i]) && ShowsTable(w, w.subs[i])
  {
    assert Works(w, Revoke) && Works(w, Handle);
    forall id ensures id !in w.windows && id !in w.owed {
      assert Works(w, Expire(id));
      assert id in w.owed ==> Works(w, Push(id)) && Enabled(w, Push(id));
    }
    forall i | i in w.subs ensures Settled(w.subs[i]) {
      assert Works(w, Next(w.subs[i], i));
    }
    DrainedShows(w0, events, w);
  }

  // ----- the throttle and the queues -----------------------------------------

  /** A new stamp alone waits for the end of an open window, and without one is pushed at once and opens one; a
      change of title, state or visibility is pushed at once either way. */
  lemma StampWaitsMetaDoesNot(w: World, id: Id, visibility: Visibility, meta: string, activity: int, silent: string)
    requires w.notes == [] && id in w.rows && id !in w.owed
    requires visibility == w.rows[id].visibility || visibility == Shared
    requires activity != w.rows[id].activity || meta != w.rows[id].meta || visibility != w.rows[id].visibility
    ensures var w' := Apply(w, Update(id, visibility, meta, activity, silent));
      && Enabled(w', Handle)
      && var w'' := Apply(w', Handle);
         if meta != w.rows[id].meta || visibility != w.rows[id].visibility
         then id in w''.owed && w''.windows == w.windows
         else if id in w.windows then id !in w''.owed && w''.windows == w.windows[id := true]
         else id in w''.owed && w''.windows == w.windows[id := false]
  {
    var e := Update(id, visibility, meta, activity, silent);
    assert Apply(w, e).notes == [UpdateNote(id, w.rows[id], Apply(w, e).rows[id])];
  }

  /** A row that goes private is taken at once from everyone who may see it no longer, and from nobody else. */
  lemma RevocationIsPrompt(w: World, id: Id, meta: string, activity: int, silent: string, i: nat)
    requires w.notes == [] && id in w.rows && w.rows[id].visibility == Shared && i in w.subs
    ensures var w' := Apply(w, Update(id, Private, meta, activity, silent));
      && Enabled(w', Revoke)
      && var s, s', r := w.subs[i], Apply(w', Revoke).subs[i], w.rows[id];
         if Entitled(r, s.caller, s.scope) && !(s.caller != "" && r.owner == Some(s.caller))
         then s' == (if |s.queue| < 64 then s.(queue := s.queue + [Remove(id)]) else s.(resync := true))
         else s' == s
  {
    var e := Update(id, Private, meta, activity, silent);
    assert Apply(w, e).notes == [UpdateNote(id, w.rows[id], Apply(w, e).rows[id])];
  }

  /** A deleted row is taken from those who saw it, and its window is closed, so that no push follows it. */
  lemma DeletionIsPrompt(w: World, id: Id, i: nat)
    requires w.notes == [] && id in w.rows && i in w.subs
    ensures var w' := Apply(w, Delete(id));
      && Enabled(w', Handle) && id !in Apply(w', Handle).windows
      && var s, s' := w.subs[i], Apply(w', Handle).subs[i];
         if Entitled(w.rows[id], s.caller, s.scope)
         then s' == (if |s.queue| < 64 then s.(queue := s.queue + [Remove(id)]) else s.(resync := true))
         else s' == s
  {
    assert Apply(w, Delete(id)).notes == [Note(id, true, false, w.rows[id].owner, w.rows[id].visibility, false)];
  }

  ghost predicate Bounded(w: World) {
    forall i | i in w.subs :: |w.subs[i].queue| <= 64
  }

  lemma {:induction false} BoundedAlong(w0: World, events: seq<Event>, w: World)
    requires Bounded(w0) && Reaches(w0, events, w)
    ensures Bounded(w)
    decreases |events|
  {
    if events != [] {
      BoundedStep(w0, events[0]);
      BoundedAlong(Apply(w0, events[0]), events[1..], w);
    }
  }

  lemma BoundedStep(w: World, e: Event)
    requires Bounded(w) && Enabled(w, e)
    ensures Bounded(Apply(w, e))
  {}

  /** No queue ever holds more than 64 frames, and a subscriber is told to start over only by a frame that
      found 64 waiting. */
  lemma QueuesAreBounded(w0: World, events: seq<Event>, w: World, i: nat, e: Event)
    requires Initial(w0) && Reaches(w0, events, w) && i in w.subs && Enabled(w, e)
    ensures |w.subs[i].queue| <= 64
    ensures i in Apply(w, e).subs && Apply(w, e).subs[i].resync && !w.subs[i].resync ==> |w.subs[i].queue| == 64
  {
    BoundedAlong(w0, events, w);
  }
}
