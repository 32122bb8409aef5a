/** The per-conversation throttle: a change with no window open is pushed at once and opens one,
    which collects the changes that follow.  Pushes run outside the lock, so every critical section is a
    step of its own. */
module Coalescer {
  import opened Wrappers

  type Id = string

  datatype Window = Window(timer: Option<nat>, dirty: bool)

  type Windows = map<Id, Window>

  // ----- the critical sections -----------------------------------------------

  /** What a submit leaves open, and whether it pushes. */
  function Submitted(open: Windows, id: Id): (Windows, bool) {
    if id in open then (open[id := open[id].(dirty := true)], false) else (open[id := Window(None, false)], true)
  }

  function Armed(open: Windows, id: Id, timer: nat): Windows {
    if id in open then open[id := open[id].(timer := Some(timer))] else open
  }

  function Expired(open: Windows, id: Id): (Windows, bool) {
    if id !in open then (open, false)
    else if open[id].dirty then (open[id := open[id].(dirty := false)], true)
    else (open - {id}, false)
  }

  /** The coalescer's state under its lock. */
  class Throttle {
    var open: Windows

    constructor ()
      ensures open == map[]
    {
      open := map[];
    }

    method Submit(id: Id) returns (push: bool)
      modifies this
      ensures (open, push) == Submitted(old(open), id)
      ensures id in open && (push <==> id !in old(open)) && (open[id].dirty <==> !push)
    {
      push := id !in open;
      if push { open := open[id := Window(None, false)]; }
      else { open := open[id := open[id].(dirty := true)]; }
    }

    method Arm(id: Id, timer: nat)
      modifies this
      ensures open == Armed(old(open), id, timer)
    {
      if id in open { open := open[id := open[id].(timer := Some(timer))]; }
    }

    method Expire(id: Id) returns (push: bool)
      modifies this
      ensures (open, push) == Expired(old(open), id)
      ensures push ==> id in open && !open[id].dirty
      ensures !push ==> id !in open
    {
      push := id in open && open[id].dirty;
      if push {
        open := open[id := open[id].(dirty := false)];
      } else if id in open {
        open := open - {id};
      }
    }

    /** Closes the window; the caller's timer, if armed, is stopped. */
    method Forget(id: Id) returns (stopped: Option<nat>)
      modifies this
      ensures open == old(open) - {id}
      ensures stopped == if id in old(open) then old(open)[id].timer else None
    {
      stopped := if id in open then open[id].timer else None;
      open := open - {id};
    }

    method Stop() returns (stopped: set<nat>)
      modifies this
      ensures open == map[]
      ensures stopped == set id | id in old(open) && old(open)[id].timer.Some? :: old(open)[id].timer.value
    {
      stopped := {};
      ghost var was := open;
      while open != map[]
        invariant open.Keys <= was.Keys && forall id | id in open :: open[id] == was[id]
        invariant stopped == set id | id in was && id !in open && was[id].timer.Some? :: was[id].timer.value
        decreases |open.Keys|
      {
        var id :| id in open;
        ghost var before := open.Keys;
        var timer := Forget(id);
        assert open.Keys == before - {id};
        if timer.Some? { stopped := stopped + {timer.value}; }
      }
    }
  }

  // ----- submitters, pushers and timers, interleaved -------------------------

  /** One goroutine or timer at work for an id. */
  datatype Actor =
    | BeforePush(id: Id)
    | Pushing(id: Id)
    | Timer(id: Id, deadline: real)
    | Fired(id: Id)

  datatype Entry = Submit(id: Id, at: real) | Start(id: Id, at: real)

  /** `log` is every submit and every start of a push so far; `forgotten` the ids ever closed from outside. */
  datatype World = World(dur: real, clock: real, open: Windows, actors: map<nat, Actor>, log: seq<Entry>,
                         forgotten: set<Id>)

  datatype Event =
    | Tick(now: real)
    | DoSubmit(id: Id, k: nat)
    | StartPush(k: nat)
    | EndPush(k: nat)
    | Fire(k: nat)
    | Expire(k: nat)
    | Forget(id: Id)

  predicate Enabled(w: World, e: Event) {
    match e
    case Tick(now) => w.clock <= now
    case DoSubmit(_, k) => k !in w.actors
    case StartPush(k) => k in w.actors && w.actors[k].BeforePush?
    case EndPush(k) => k in w.actors && w.actors[k].Pushing?
    case Fire(k) => k in w.actors && w.actors[k].Timer? && w.actors[k].deadline <= w.clock
    case Expire(k) => k in w.actors && w.actors[k].Fired?
    case Forget(_) => true
  }

  function Apply(w: World, e: Event): World
    requires Enabled(w, e)
  {
    match e
    case Tick(now) => w.(clock := now)
    case DoSubmit(id, k) =>
      var r := Submitted(w.open, id);
      w.(open := r.0, log := w.log + [Submit(id, w.clock)],
         actors := if r.1 then w.actors[k := BeforePush(id)] else w.actors)
    case StartPush(k) =>
      var id := w.actors[k].id;
      w.(log := w.log + [Start(id, w.clock)], actors := w.actors[k := Pushing(id)])
    case EndPush(k) =>
      var id := w.actors[k].id;
      w.(open := Armed(w.open, id, k),
         actors := if id in w.open then w.actors[k := Timer(id, w.clock + w.dur)] else w.actors - {k})
    case Fire(k) => w.(actors := w.actors[k := Fired(w.actors[k].id)])
    case Expire(k) =>
      var id := w.actors[k].id;
      var r := Expired(w.open, id);
      w.(open := r.0, actors := if r.1 then w.actors[k := BeforePush(id)] else w.actors - {k})
    case Forget(id) =>
      w.(open := w.open - {id}, forgotten := w.forgotten + {id},
         actors := if id in w.open && w.open[id].timer.Some? && IsTimer(w, w.open[id].timer.value)
                   then w.actors - {w.open[id].timer.value} else w.actors)
  }

  /** Stopping a timer that has fired does nothing. */
  predicate IsTimer(w: World, k: nat) {
    k in w.actors && w.actors[k].Timer?
  }

  ghost predicate Initial(w: World) {
    w.open == map[] && w.actors == map[] && w.log == [] && w.forgotten == {} && w.dur >= 0.0
  }

  ghost predicate Reaches(w0: World, events: seq<Event>, w: World)
    decreases |events|
  {
    if events == [] then w == w0
    else Enabled(w0, events[0]) && Reaches(Apply(w0, events[0]), events[1..], w)
  }

  // ----- what every step keeps -----------------------------------------------

  ghost predicate Works(w: World, k: nat, id: Id) {
    k in w.actors && w.actors[k].id == id
  }

  /** One actor for an open window, none for a closed one. */
  ghost predicate OneActor(w: World, id: Id) {
    && (forall k, m | Works(w, k, id) && Works(w, m, id) :: k == m)
    && ((exists k :: Works(w, k, id)) <==> id in w.open)
  }

  /** Every push of `id` so far started at least a window before `t`. */
  ghost predicate Clear(w: World, id: Id, t: real) {
    forall i | 0 <= i < |w.log| && w.log[i].Start? && w.log[i].id == id :: w.log[i].at + w.dur <= t
  }

  ghost predicate Spaced(w: World, id: Id) {
    forall i, j | 0 <= i < j < |w.log| && w.log[i].Start? && w.log[j].Start? && w.log[i].id == w.log[j].id == id ::
      w.log[i].at + w.dur <= w.log[j].at
  }

  ghost predicate Timed(w: World, k: nat)
    requires k in w.actors
  {
    match w.actors[k]
    case BeforePush(id) => Clear(w, id, w.clock)
    case Pushing(id) => Clear(w, id, w.clock + w.dur)
    case Timer(id, deadline) => Clear(w, id, deadline) && deadline <= w.clock + w.dur
    case Fired(id) => Clear(w, id, w.clock)
  }

  /** Whether the last that happened to `id` is a submit. */
  predicate Unanswered(log: seq<Entry>, id: Id) {
    log != [] && if log[|log| - 1].id == id then log[|log| - 1].Submit? else Unanswered(log[..|log| - 1], id)
  }

  ghost predicate Owed(w: World, id: Id) {
    id in w.open && (w.open[id].dirty || exists k :: Works(w, k, id) && w.actors[k].BeforePush?)
  }

  ghost predicate Kept(w: World, id: Id) {
    && OneActor(w, id) && Spaced(w, id)
    && (forall k | Works(w, k, id) :: Timed(w, k))
    && (id !in w.open ==> Clear(w, id, w.clock))
    && (Unanswered(w.log, id) ==> Owed(w, id))
  }

  ghost predicate Inv(w: World) {
    w.dur >= 0.0 && forall id | id !in w.forgotten :: Kept(w, id)
  }

  /** A step that leaves an id's window, actors and history alone, and lets time pass. */
  lemma KeptElsewhere(w: World, w': World, id: Id)
    requires Kept(w, id) && w'.dur == w.dur && w.clock <= w'.clock
    requires id in w.open <==> id in w'.open
    requires id in w.open ==> w'.open[id].dirty == w.open[id].dirty
    requires forall k :: Works(w', k, id) <==> Works(w, k, id)
    requires forall k | Works(w, k, id) :: k in w'.actors && w'.actors[k] == w.actors[k]
    requires w'.log == w.log || (|w'.log| == |w.log| + 1 && w'.log[..|w.log|] == w.log && w'.log[|w.log|].id != id)
    ensures Kept(w', id)
  {
    assert forall i | 0 <= i < |w.log| :: w'.log[i] == w.log[i];
    assert forall t :: Clear(w, id, t) ==> Clear(w', id, t);
    if Owed(w, id) && !w.open[id].dirty {
      var k :| Works(w, k, id) && w.actors[k].BeforePush?;
      assert Works(w', k, id);
    }
  }

  lemma KeptSubmit(w: World, id: Id, k: nat)
    requires Kept(w, id) && k !in w.actors
    ensures Kept(Apply(w, DoSubmit(id, k)), id)
  {
    var w' := Apply(w, DoSubmit(id, k));
    assert forall t :: Clear(w, id, t) ==> Clear(w', id, t);
    if id in w.open {
      assert forall m :: Works(w, m, id) <==> Works(w', m, id);
    } else {
      assert Works(w', k, id) && forall m | Works(w', m, id) :: m == k || Works(w, m, id);
    }
  }

  lemma KeptStart(w: World, k: nat)
    requires w.dur >= 0.0 && Enabled(w, StartPush(k)) && Kept(w, w.actors[k].id)
    ensures Kept(Apply(w, StartPush(k)), w.actors[k].id)
  {
    var w', id := Apply(w, StartPush(k)), w.actors[k].id;
    assert Works(w, k, id) && Works(w', k, id);
    assert forall m :: Works(w, m, id) <==> Works(w', m, id);
  }

  lemma KeptEnd(w: World, k: nat)
    requires Enabled(w, EndPush(k)) && Kept(w, w.actors[k].id)
    ensures Kept(Apply(w, EndPush(k)), w.actors[k].id)
  {
    var w', id := Apply(w, EndPush(k)), w.actors[k].id;
    assert Works(w, k, id) && Works(w', k, id);
    assert forall m :: Works(w, m, id) <==> Works(w', m, id);
    assert forall t :: Clear(w, id, t) ==> Clear(w', id, t);
  }

  lemma KeptFire(w: World, k: nat)
    requires Enabled(w, Fire(k)) && Kept(w, w.actors[k].id)
    ensures Kept(Apply(w, Fire(k)), w.actors[k].id)
  {
    var w', id := Apply(w, Fire(k)), w.actors[k].id;
    assert Works(w, k, id) && Works(w', k, id);
    assert forall m :: Works(w, m, id) <==> Works(w', m, id);
    assert forall t :: Clear(w, id, t) ==> Clear(w', id, t);
  }

  lemma KeptExpire(w: World, k: nat)
    requires Enabled(w, Expire(k)) && Kept(w, w.actors[k].id)
    ensures Kept(Apply(w, Expire(k)), w.actors[k].id)
  {
    var w', id := Apply(w, Expire(k)), w.actors[k].id;
    assert Works(w, k, id) && Timed(w, k);
    assert forall t :: Clear(w, id, t) ==> Clear(w', id, t);
    if w.open[id].dirty {
      assert Works(w', k, id) && forall m :: Works(w, m, id) <==> Works(w', m, id);
    } else {
      forall m ensures !Works(w', m, id) { assert Works(w', m, id) ==> Works(w, m, id); }
    }
  }

  /** The id a step works on. */
  function Subject(w: World, e: Event): Option<Id>
    requires Enabled(w, e)
  {
    match e
    case Tick(_) => None
    case DoSubmit(id, _) => Some(id)
    case StartPush(k) => Some(w.actors[k].id)
    case EndPush(k) => Some(w.actors[k].id)
    case Fire(k) => Some(w.actors[k].id)
    case Expire(k) => Some(w.actors[k].id)
    case Forget(id) => Some(id)
  }

  /** The timer a window holds is an actor of its id, as long as the window is open. */
  ghost predicate TimersInv(w: World) {
    forall id | id in w.open && w.open[id].timer.Some? :: Works(w, w.open[id].timer.value, id)
  }

  lemma ElsewhereStep(w: World, e: Event, id: Id)
    requires Kept(w, id) && TimersInv(w) && Enabled(w, e) && Subject(w, e) != Some(id)
    ensures Kept(Apply(w, e), id)
  {
    var w' := Apply(w, e);
    assert forall k :: Works(w', k, id) <==> Works(w, k, id);
    KeptElsewhere(w, w', id);
  }

  lemma SubjectStep(w: World, e: Event, id: Id)
    requires w.dur >= 0.0 && Kept(w, id) && Enabled(w, e) && Subject(w, e) == Some(id) && !e.Forget?
    ensures Kept(Apply(w, e), id)
  {
    match e
    case DoSubmit(_, k) => KeptSubmit(w, id, k);
    case StartPush(k) => KeptStart(w, k);
    case EndPush(k) => KeptEnd(w, k);
    case Fire(k) => KeptFire(w, k);
    case Expire(k) => KeptExpire(w, k);
  }

  lemma TimersStep(w: World, e: Event)
    requires TimersInv(w) && Enabled(w, e)
    ensures TimersInv(Apply(w, e))
  {
    var w' := Apply(w, e);
    forall id | id in w'.open && w'.open[id].timer.Some? ensures Works(w', w'.open[id].timer.value, id) {
      assert id in w.open && w.open[id].timer.Some? ==> Works(w, w.open[id].timer.value, id);
    }
  }

  lemma InvStep(w: World, e: Event)
    requires Inv(w) && TimersInv(w) && Enabled(w, e)
    ensures Inv(Apply(w, e)) && TimersInv(Apply(w, e))
  {
    TimersStep(w, e);
    forall id | id !in Apply(w, e).forgotten ensures Kept(Apply(w, e), id) {
      if Subject(w, e) == Some(id) {
        SubjectStep(w, e, id);
      } else {
        ElsewhereStep(w, e, id);
      }
    }
  }

  lemma {:induction false} InvAlong(w0: World, events: seq<Event>, w: World)
    requires Inv(w0) && TimersInv(w0) && Reaches(w0, events, w)
    ensures Inv(w)
    decreases |events|
  {
    if events != [] {
      InvStep(w0, events[0]);
      InvAlong(Apply(w0, events[0]), events[1..], w);
    }
  }

  // ----- what the throttle promises, of an id never forgotten ----------------

  lemma EveryRunKeeps(w0: World, events: seq<Event>, w: World, id: Id)
    requires Initial(w0) && Reaches(w0, events, w) && id !in w.forgotten
    ensures Kept(w, id)
  {
    InvAlong(w0, events, w);
  }

  /** Exactly one timer or pusher works for an open window, and none for a closed one. */
  lemma OneActorPerWindow(w0: World, events: seq<Event>, w: World, id: Id)
    requires Initial(w0) && Reaches(w0, events, w) && id !in w.forgotten
    ensures id in w.open ==> exists k :: Works(w, k, id) && forall m | Works(w, m, id) :: m == k
    ensures id !in w.open ==> forall m :: !Works(w, m, id)
  {
    EveryRunKeeps(w0, events, w, id);
  }

  /** Pushes of one id start at least a window apart. */
  lemma PushesAreSpaced(w0: World, events: seq<Event>, w: World, id: Id, i: nat, j: nat)
    requires Initial(w0) && Reaches(w0, events, w) && id !in w.forgotten
    requires i < j < |w.log| && w.log[i].Start? && w.log[j].Start? && w.log[i].id == id && w.log[j].id == id
    ensures w.log[j].at - w.log[i].at >= w.dur
  {
    EveryRunKeeps(w0, events, w, id);
  }

  ghost predicate StartedAfter(log: seq<Entry>, i: nat, id: Id) {
    exists j | i < j < |log| :: log[j].Start? && log[j].id == id
  }

  lemma {:induction false} AnsweredOrNot(log: seq<Entry>, i: nat, id: Id)
    requires i < |log| && log[i].Submit? && log[i].id == id
    ensures StartedAfter(log, i, id) || Unanswered(log, id)
    decreases |log|
  {
    var last := |log| - 1;
    if i < last && log[last].id != id {
      AnsweredOrNot(log[..last], i, id);
      if StartedAfter(log[..last], i, id) {
        var j :| i < j < last && log[..last][j].Start? && log[..last][j].id == id;
        assert log[j] == log[..last][j];
      }
    }
  }

  /** Every submit is followed by a push that starts after it, or one is still owed. */
  lemma NoSubmitIsLost(w0: World, events: seq<Event>, w: World, id: Id, i: nat)
    requires Initial(w0) && Reaches(w0, events, w) && id !in w.forgotten
    requires i < |w.log| && w.log[i].Submit? && w.log[i].id == id
    ensures StartedAfter(w.log, i, id) || Owed(w, id)
  {
    EveryRunKeeps(w0, events, w, id);
    AnsweredOrNot(w.log, i, id);
  }

  /** No timer is further off than one window, whenever one looks: so a change folded into an open window is
      pushed within a window of it, or of the end of the push that was running. */
  lemma DueWithinWindow(w0: World, events: seq<Event>, w: World, id: Id, k: nat)
    requires Initial(w0) && Reaches(w0, events, w) && id !in w.forgotten && Works(w, k, id) && w.actors[k].Timer?
    ensures w.actors[k].deadline <= w.clock + w.dur
  {
    EveryRunKeeps(w0, events, w, id);
    assert Timed(w, k);
  }

  predicate GoesOnToPush(w: World, k: nat, id: Id) {
    k in w.actors && w.actors[k] == BeforePush(id)
  }

  /** And what is owed leads to a push: the id's one actor can always take its next step once its
      deadline has passed, and a dirty window that expires goes on to push. */
  lemma OwedLeadsToPush(w0: World, events: seq<Event>, w: World, id: Id) returns (k: nat)
    requires Initial(w0) && Reaches(w0, events, w) && id !in w.forgotten && Owed(w, id)
    ensures Works(w, k, id)
    ensures match w.actors[k]
      case BeforePush(_) => Enabled(w, StartPush(k)) && |Apply(w, StartPush(k)).log| == |w.log| + 1
      case Pushing(_) => Enabled(w, EndPush(k)) && IsTimer(Apply(w, EndPush(k)), k)
      case Timer(_, deadline) => deadline <= w.clock ==> Enabled(w, Fire(k))
      case Fired(_) => Enabled(w, Expire(k)) && GoesOnToPush(Apply(w, Expire(k)), k, id)
  {
    EveryRunKeeps(w0, events, w, id);
    k :| Works(w, k, id);
  }

  // ----- and it is pushed ----------------------------------------------------

  lemma First(w: World, e: Event, w1: World, events: seq<Event>, w': World)
    requires Enabled(w, e) && w1 == Apply(w, e) && Reaches(w1, events, w')
    ensures Reaches(w, [e] + events, w')
  {
    assert ([e] + events)[1..] == events;
  }

  /** How far the actor is from starting a push. */
  function Stage(a: Actor): nat {
    match a
    case BeforePush(_) => 0
    case Fired(_) => 1
    case Timer(_, _) => 2
    case Pushing(_) => 3
  }

  function NextStep(w: World, k: nat): Event
    requires k in w.actors
  {
    match w.actors[k]
    case BeforePush(_) => StartPush(k)
    case Fired(_) => Expire(k)
    case Timer(_, deadline) => if deadline <= w.clock then Fire(k) else Tick(deadline)
    case Pushing(_) => EndPush(k)
  }

  /** One more entry of the log, a push of `id` that starts no later than `latest`. */
  ghost predicate Starts(log: seq<Entry>, log': seq<Entry>, id: Id, latest: real) {
    && |log'| == |log| + 1 && log'[..|log|] == log
    && log'[|log|].Start? && log'[|log|].id == id && log'[|log|].at <= latest
  }

  lemma {:induction false} ActorGoesOn(w: World, id: Id, k: nat, latest: real) returns (events: seq<Event>, w': World)
    requires Works(w, k, id) && id in w.open && (w.open[id].dirty || w.actors[k].BeforePush?) && w.clock <= latest
    requires w.actors[k].Pushing? ==> w.clock + w.dur <= latest
    requires w.actors[k].Timer? ==> w.actors[k].deadline <= latest
    ensures Reaches(w, events, w') && Starts(w.log, w'.log, id, latest)
    decreases Stage(w.actors[k]), if w.actors[k].Timer? && w.actors[k].deadline > w.clock then 1 else 0
  {
    var e := NextStep(w, k);
    var w1 := Apply(w, e);
    var more: seq<Event>;
    if w.actors[k].BeforePush? {
      more, w' := [], w1;
    } else {
      more, w' := ActorGoesOn(w1, id, k, latest);
    }
    First(w, e, w1, more, w');
    events := [e] + more;
  }

  /** What is owed can be paid before anything else is pushed or submitted, by a push that starts within one window. */
  lemma OwedIsPaid(w0: World, events: seq<Event>, w: World, id: Id) returns (more: seq<Event>, w': World)
    requires Initial(w0) && Reaches(w0, events, w) && id !in w.forgotten && Owed(w, id)
    ensures Reaches(w, more, w') && Starts(w.log, w'.log, id, w.clock + w.dur)
  {
    InvAlong(w0, events, w);
    assert Kept(w, id);
    var k := OwedLeadsToPush(w0, events, w, id);
    assert Timed(w, k);
    more, w' := ActorGoesOn(w, id, k, w.clock + w.dur);
  }

  // ----- no more pushes than submits -----------------------------------------

  /** Submits of `id` so far, or starts of its pushes. */
  function Count(log: seq<Entry>, id: Id, submits: bool): nat {
    if log == [] then 0
    else
      var last := log[|log| - 1];
      Count(log[..|log| - 1], id, submits) + if last.id == id && last.Submit? == submits then 1 else 0
  }

  lemma CountSnoc(log: seq<Entry>, e: Entry, id: Id, submits: bool)
    ensures Count(log + [e], id, submits) ==
      Count(log, id, submits) + if e.id == id && e.Submit? == submits then 1 else 0
  {
    assert (log + [e])[..|log|] == log;
  }

  ghost predicate AboutToPush(w: World, id: Id) {
    exists k :: Works(w, k, id) && w.actors[k].BeforePush?
  }

  /** Pushes begun, about to begin and still to come are paid for by submits. */
  ghost predicate Paid(w: World, id: Id) {
    var coming := (if AboutToPush(w, id) then 1 else 0) + (if id in w.open && w.open[id].dirty then 1 else 0);
    Count(w.log, id, false) + coming <= Count(w.log, id, true)
  }

  /** A step that leaves an id's window and actors alone, and logs nothing of it. */
  lemma PaidAlike(w: World, w': World, id: Id)
    requires Paid(w, id)
    requires id in w.open <==> id in w'.open
    requires id in w.open ==> w'.open[id].dirty == w.open[id].dirty
    requires forall k | Works(w', k, id) :: Works(w, k, id) && w'.actors[k] == w.actors[k]
    requires w'.log == w.log || (|w'.log| == |w.log| + 1 && w'.log[..|w.log|] == w.log && w'.log[|w.log|].id != id)
    ensures Paid(w', id)
  {
    if AboutToPush(w', id) {
      var k :| Works(w', k, id) && w'.actors[k].BeforePush?;
      assert Works(w, k, id);
    }
  }

  lemma PaidElsewhere(w: World, e: Event, id: Id)
    requires Paid(w, id) && TimersInv(w) && Enabled(w, e) && Subject(w, e) != Some(id)
    ensures Paid(Apply(w, e), id)
  {
    var w' := Apply(w, e);
    assert forall k :: Works(w', k, id) <==> Works(w, k, id);
    PaidAlike(w, w', id);
  }

  lemma PaidSubmit(w: World, id: Id, k: nat)
    requires Paid(w, id) && Kept(w, id) && k !in w.actors
    ensures Paid(Apply(w, DoSubmit(id, k)), id)
  {
    var w' := Apply(w, DoSubmit(id, k));
    CountSnoc(w.log, Submit(id, w.clock), id, true);
    CountSnoc(w.log, Submit(id, w.clock), id, false);
    if id in w.open && AboutToPush(w', id) {
      var m :| Works(w', m, id) && w'.actors[m].BeforePush?;
      assert Works(w, m, id);
    }
  }

  lemma PaidStart(w: World, k: nat)
    requires Enabled(w, StartPush(k)) && Paid(w, w.actors[k].id) && Kept(w, w.actors[k].id)
    ensures Paid(Apply(w, StartPush(k)), w.actors[k].id)
  {
    var w', id := Apply(w, StartPush(k)), w.actors[k].id;
    assert Works(w, k, id);
    CountSnoc(w.log, Start(id, w.clock), id, true);
    CountSnoc(w.log, Start(id, w.clock), id, false);
    forall m | Works(w', m, id) ensures m == k { assert Works(w, m, id); }
  }

  /** Steps that log nothing: the one actor moves on, and a dirty window at most turns into a push to come. */
  lemma PaidQuiet(w: World, e: Event, id: Id)
    requires Paid(w, id) && Kept(w, id) && Enabled(w, e) && Subject(w, e) == Some(id)
    requires e.EndPush? || e.Fire? || e.Expire?
    ensures Paid(Apply(w, e), id)
  {
    var w', k := Apply(w, e), e.k;
    assert Works(w, k, id) && !w.actors[k].BeforePush?;
    assert !AboutToPush(w, id);
    forall m | Works(w', m, id) ensures m == k { assert Works(w, m, id); }
  }

  lemma PaidStep(w: World, e: Event, id: Id)
    requires Paid(w, id) && Kept(w, id) && TimersInv(w) && Enabled(w, e) && !(e.Forget? && e.id == id)
    ensures Paid(Apply(w, e), id)
  {
    if Subject(w, e) != Some(id) {
      PaidElsewhere(w, e, id);
    } else if e.DoSubmit? {
      PaidSubmit(w, id, e.k);
    } else if e.StartPush? {
      PaidStart(w, e.k);
    } else {
      PaidQuiet(w, e, id);
    }
  }

  lemma {:induction false} PaidAlong(w0: World, events: seq<Event>, w: World, id: Id)
    requires Inv(w0) && TimersInv(w0) && Paid(w0, id) && Reaches(w0, events, w) && id !in w.forgotten
    ensures Paid(w, id)
    decreases |events|
  {
    if events != [] {
      ForgottenGrows(w0, events, w);
      ForgottenGrows(Apply(w0, events[0]), events[1..], w);
      PaidStep(w0, events[0], id);
      InvStep(w0, events[0]);
      PaidAlong(Apply(w0, events[0]), events[1..], w, id);
    }
  }

  lemma {:induction false} ForgottenGrows(w0: World, events: seq<Event>, w: World)
    requires Reaches(w0, events, w)
    ensures w0.forgotten <= w.forgotten
    decreases |events|
  {
    if events != [] { ForgottenGrows(Apply(w0, events[0]), events[1..], w); }
  }

  /** The throttle never adds pushes of its own: an id is pushed at most as often as it was submitted. */
  lemma NoMorePushesThanSubmits(w0: World, events: seq<Event>, w: World, id: Id)
    requires Initial(w0) && Reaches(w0, events, w) && id !in w.forgotten
    ensures Count(w.log, id, false) <= Count(w.log, id, true)
  {
    assert Count(w0.log, id, true) == 0 && Count(w0.log, id, false) == 0;
    assert forall k :: !Works(w0, k, id);
    PaidAlong(w0, events, w, id);
  }

  // ----- forgetting ----------------------------------------------------------

  /** A running timer is the one its window holds. */
  ghost predicate HeldByWindow(w: World, id: Id) {
    forall k | Works(w, k, id) && w.actors[k].Timer? :: id in w.open && w.open[id].timer == Some(k)
  }

  lemma ArmedStep(w: World, e: Event, id: Id)
    requires HeldByWindow(w, id) && OneActor(w, id) && TimersInv(w) && Enabled(w, e) && !(e.Forget? && e.id == id)
    ensures HeldByWindow(Apply(w, e), id)
  {
    var w' := Apply(w, e);
    if e.EndPush? || e.Expire? { assert w.actors[e.k].id == id ==> Works(w, e.k, id); }
    forall k | Works(w', k, id) && w'.actors[k].Timer? ensures id in w'.open && w'.open[id].timer == Some(k) {
      assert Works(w, k, id);
    }
  }

  lemma {:induction false} ArmedAlong(w0: World, events: seq<Event>, w: World, id: Id)
    requires Inv(w0) && TimersInv(w0) && HeldByWindow(w0, id) && Reaches(w0, events, w) && id !in w.forgotten
    ensures HeldByWindow(w, id)
    decreases |events|
  {
    if events != [] {
      ForgottenGrows(w0, events, w);
      ForgottenGrows(Apply(w0, events[0]), events[1..], w);
      assert Kept(w0, id);
      ArmedStep(w0, events[0], id);
      InvStep(w0, events[0]);
      ArmedAlong(Apply(w0, events[0]), events[1..], w, id);
    }
  }

  /** Forgetting an id closes its window and stops its timer: whoever still works for it was already past the
      timer, or in a push, and then finds the window closed. */
  lemma ForgetStopsTheTimer(w0: World, events: seq<Event>, w: World, id: Id, k: nat)
    requires Initial(w0) && Reaches(w0, events, w) && id !in w.forgotten
    ensures var w' := Apply(w, Forget(id));
      id !in w'.open && (Works(w', k, id) ==> !w'.actors[k].Timer? && Works(w, k, id) && w'.actors[k] == w.actors[k])
  {
    ArmedAlong(w0, events, w, id);
  }
}
