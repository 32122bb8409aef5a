/** Convergence of the push stream: what a client will hold is what it should see, over every run. */
module StreamProofs {
  import opened Wrappers
  import opened Access
  import opened Stream

  function At(t: Table, id: Id): Option<Row> {
    if id in t then Some(t[id]) else None
  }

  function Wanted(rows: Table, s: Sub, id: Id): Option<Row> {
    At(VisibleRows(rows, s.caller, s.scope), id)
  }

  /** What the client holds, or will hold once the snapshot about to be read is written. */
  function Base(rows: Table, s: Sub): Table {
    if s.phase == Reading then VisibleRows(rows, s.caller, s.scope) else s.client
  }

  /** What the client holds once it has taken its queue. */
  function Shown(rows: Table, s: Sub): Table {
    Replay(Base(rows, s), s.queue)
  }

  predicate Steady(s: Sub) {
    !s.resync && s.phase != Draining
  }

  ghost predicate Noted(notes: seq<Note>, id: Id) {
    exists n | n in notes :: n.id == id
  }

  ghost predicate Outstanding(w: World, id: Id) {
    Noted(w.notes, id) || id in w.owed || (id in w.windows && w.windows[id])
  }

  predicate Removes(n: Note, s: Sub, id: Id) {
    n.id == id &&
      ((n.deleted && Accepts(Viewers(n.owner, n.visibility), s)) || (n.wentPrivate && Accepts(Losers(n.owner), s)))
  }

  ghost predicate HasRemover(notes: seq<Note>, s: Sub, id: Id) {
    exists n | n in notes :: Removes(n, s, id)
  }

  /** A row it should see is shown as it is, but for silent columns that have drifted, or news of it is on
      the way; a row it should not see is not shown, or the note that removes it is on the way. */
  ghost predicate Converges(w: World, s: Sub, id: Id) {
    var want, got := Wanted(w.rows, s, id), At(Shown(w.rows, s), id);
    && (want.Some? && !Outstanding(w, id) ==>
          got.Some? && SameNotified(got.value, want.value) && (id !in w.drifted ==> got == want))
    && (want.None? && got.Some? ==> HasRemover(w.notes, s, id))
  }

  ghost predicate SubInv(w: World, s: Sub) {
    Steady(s) ==> forall id :: Converges(w, s, id)
  }

  ghost predicate Followed(notes: seq<Note>, i: nat, id: Id) {
    exists j | i < j < |notes| :: notes[j].id == id && !notes[j].deleted
  }

  /** A removal still waiting for a row that is back is followed by news of the row. */
  ghost predicate NotesInv(rows: Table, notes: seq<Note>) {
    forall i | 0 <= i < |notes| && notes[i].deleted && notes[i].id in rows :: Followed(notes, i, notes[i].id)
  }

  ghost predicate Inv(w: World) {
    NotesInv(w.rows, w.notes) && forall i | i in w.subs :: SubInv(w, w.subs[i])
  }

  // ----- replay --------------------------------------------------------------

  lemma {:induction false} ReplayLocal(a: Table, b: Table, queue: seq<Frame>, id: Id)
    requires At(a, id) == At(b, id)
    ensures At(Replay(a, queue), id) == At(Replay(b, queue), id)
    decreases |queue|
  {
    if queue != [] {
      ReplayLocal(a, b, queue[..|queue| - 1], id);
    }
  }

  /** Either the queue settles what is shown of `id`, or it says nothing of it. */
  lemma {:induction false} ReplaySettles(a: Table, b: Table, queue: seq<Frame>, id: Id)
    ensures
      || At(Replay(a, queue), id) == At(Replay(b, queue), id)
      || (At(Replay(a, queue), id) == At(a, id) && At(Replay(b, queue), id) == At(b, id))
    decreases |queue|
  {
    if queue != [] { ReplaySettles(a, b, queue[..|queue| - 1], id); }
  }

  lemma ReplayAppend(t: Table, queue: seq<Frame>, f: Frame)
    ensures Replay(t, queue + [f]) == Merge(Replay(t, queue), f)
  {
    assert (queue + [f])[..|queue|] == queue;
  }

  /** Taking the first frame early changes nothing in the end. */
  lemma {:induction false} ReplayFirst(t: Table, queue: seq<Frame>)
    requires queue != []
    ensures Replay(Merge(t, queue[0]), queue[1..]) == Replay(t, queue)
    decreases |queue|
  {
    if |queue| > 1 {
      var init := queue[..|queue| - 1];
      ReplayFirst(t, init);
      assert queue[1..][..|queue| - 2] == init[1..];
    } else {
      assert queue[..0] == [] && Replay(t, []) == t;
    }
  }

  // ----- table changes -------------------------------------------------------

  /** A change at one id with a note of it: others are as they were; a row that left a list left a
      removing note. */
  lemma ChangeConverges(w: World, w': World, n: Note, s: Sub, id: Id)
    requires Converges(w, s, id)
    requires w'.notes == w.notes + [n] && w'.owed == w.owed && w'.windows == w.windows && w'.drifted == w.drifted
    requires forall x | x != n.id :: At(w'.rows, x) == At(w.rows, x)
    requires Wanted(w.rows, s, n.id).Some? && Wanted(w'.rows, s, n.id).None? ==> Removes(n, s, n.id)
    ensures Converges(w', s, id)
  {
    assert n in w'.notes;
    assert forall m | m in w.notes :: m in w'.notes;
    if id != n.id {
      assert At(w'.rows, id) == At(w.rows, id);
      assert Wanted(w.rows, s, id) == Wanted(w'.rows, s, id);
      ReplayLocal(Base(w.rows, s), Base(w'.rows, s), s.queue, id);
    } else if Wanted(w.rows, s, id).None? && Wanted(w'.rows, s, id).None? {
      ReplayLocal(Base(w.rows, s), Base(w'.rows, s), s.queue, id);
    }
  }

  function ChangeNote(w: World, e: Event): Note
    requires IsChange(e) && Enabled(w, e)
  {
    match e
    case Insert(id, row) => Note(id, false, false, row.owner, row.visibility, false)
    case Update(id, visibility, meta, activity, silent) =>
      UpdateNote(id, w.rows[id], Changed(w.rows[id], visibility, meta, activity, silent))
    case Delete(id) => Note(id, true, false, w.rows[id].owner, w.rows[id].visibility, false)
  }

  lemma ChangeEffect(w: World, e: Event, s: Sub)
    requires IsChange(e) && Enabled(w, e)
    ensures var w', n := ApplyChange(w, e), ChangeNote(w, e);
      && w'.owed == w.owed && w'.windows == w.windows && w'.subs == w.subs && n.id == e.id
      && (Silent(w, e) || (w'.notes == w.notes + [n] && w'.drifted == w.drifted))
      && (forall x | x != n.id :: At(w'.rows, x) == At(w.rows, x))
      && (Wanted(w.rows, s, n.id).Some? && Wanted(w'.rows, s, n.id).None? ==> Removes(n, s, n.id))
      && (n.deleted ==> n.id !in w'.rows)
  {}

  /** A change no note is sent for. */
  predicate Silent(w: World, e: Event) {
    && e.Update? && e.id in w.rows
    && SameNotified(w.rows[e.id], Changed(w.rows[e.id], e.visibility, e.meta, e.activity, e.silent))
  }

  lemma SilentConverges(w: World, w': World, x: Id, s: Sub, id: Id)
    requires Converges(w, s, id) && w'.notes == w.notes && w'.owed == w.owed && w'.windows == w.windows
    requires x in w.rows && x in w'.rows && SameNotified(w.rows[x], w'.rows[x]) && w'.rows == w.rows[x := w'.rows[x]]
    requires w.drifted <= w'.drifted && (w.rows[x] == w'.rows[x] || x in w'.drifted)
    ensures Converges(w', s, id)
  {
    assert Outstanding(w, id) <==> Outstanding(w', id);
    if id != x {
      assert Wanted(w.rows, s, id) == Wanted(w'.rows, s, id);
      ReplayLocal(Base(w.rows, s), Base(w'.rows, s), s.queue, id);
    } else {
      ReplaySettles(Base(w.rows, s), Base(w'.rows, s), s.queue, id);
    }
  }

  lemma ChangeKeepsNotes(rows: Table, notes: seq<Note>, rows': Table, n: Note)
    requires NotesInv(rows, notes) && (n.deleted ==> n.id !in rows')
    requires forall x | x != n.id :: At(rows', x) == At(rows, x)
    ensures NotesInv(rows', notes + [n])
  {
    var notes' := notes + [n];
    forall i | 0 <= i < |notes'| && notes'[i].deleted && notes'[i].id in rows'
      ensures Followed(notes', i, notes'[i].id)
    {
      var x := notes'[i].id;
      if x == n.id {
        assert notes'[|notes|] == n;
      } else {
        assert At(rows', x) == At(rows, x) && Followed(notes, i, x);
        var j :| i < j < |notes| && notes[j].id == x && !notes[j].deleted;
        assert notes'[j] == notes[j];
      }
    }
  }

  lemma ChangeStep(w: World, e: Event)
    requires Inv(w) && IsChange(e) && Enabled(w, e)
    ensures Inv(ApplyChange(w, e))
  {
    var w', n := ApplyChange(w, e), ChangeNote(w, e);
    ChangeEffect(w, e, Sub("", "", [], false, Streaming, map[]));
    if Silent(w, e) {
      SilentStep(w, e);
    } else {
      ChangeKeepsNotes(w.rows, w.notes, w'.rows, n);
      forall i, id | i in w'.subs && Steady(w'.subs[i]) ensures Converges(w', w'.subs[i], id) {
        ChangeEffect(w, e, w.subs[i]);
        ChangeConverges(w, w', n, w.subs[i], id);
      }
    }
  }

  lemma SilentStep(w: World, e: Event)
    requires Inv(w) && IsChange(e) && Enabled(w, e) && Silent(w, e)
    ensures Inv(ApplyChange(w, e))
  {
    var w' := ApplyChange(w, e);
    forall i, id | i in w'.subs && Steady(w'.subs[i]) ensures Converges(w', w'.subs[i], id) {
      SilentConverges(w, w', e.id, w.subs[i], id);
    }
  }

  // ----- the feed ------------------------------------------------------------

  /** What one subscriber shows after a frame that found room. */
  lemma DeliveredShows(rows: Table, s: Sub, f: Frame, to: Audience)
    requires Steady(DeliverTo(s, f, to))
    ensures Steady(s)
    ensures Shown(rows, DeliverTo(s, f, to)) == if Accepts(to, s) then Merge(Shown(rows, s), f) else Shown(rows, s)
  {
    ReplayAppend(Base(rows, s), s.queue, f);
  }

  lemma SameEyes(rows: Table, s: Sub, f: Frame, to: Audience, notes: seq<Note>, id: Id)
    ensures Wanted(rows, DeliverTo(s, f, to), id) == Wanted(rows, s, id)
    ensures HasRemover(notes, DeliverTo(s, f, to), id) <==> HasRemover(notes, s, id)
  {
    var s' := DeliverTo(s, f, to);
    forall n | n in notes ensures Removes(n, s, id) <==> Removes(n, s', id) {}
  }

  lemma PushConverges(w: World, id: Id, s: Sub, s': Sub, x: Id)
    requires SubInv(w, s) && Steady(s')
    requires id !in w.rows ==> s' == s
    requires id in w.rows ==>
      s' == DeliverTo(s, Upsert(id, w.rows[id]), Viewers(w.rows[id].owner, w.rows[id].visibility))
    ensures Converges(w.(owed := w.owed - {id}, drifted := w.drifted - {id}), s', x)
  {
    if id in w.rows {
      var f, to := Upsert(id, w.rows[id]), Viewers(w.rows[id].owner, w.rows[id].visibility);
      DeliveredShows(w.rows, s, f, to);
      SameEyes(w.rows, s, f, to, w.notes, x);
    }
    assert Converges(w, s, x);
  }

  lemma PushStep(w: World, id: Id)
    requires Inv(w)
    ensures Inv(ApplyPush(w, id))
  {
    var w' := ApplyPush(w, id);
    forall i, x | i in w'.subs && Steady(w'.subs[i]) ensures Converges(w', w'.subs[i], x) {
      PushConverges(w, id, w.subs[i], w'.subs[i], x);
      ConvergesAlike(w.(owed := w.owed - {id}, drifted := w.drifted - {id}), w', w'.subs[i], x);
    }
  }

  /** Convergence does not depend on the other subscribers. */
  lemma ConvergesAlike(w: World, w': World, s: Sub, id: Id)
    requires Converges(w, s, id) && w'.rows == w.rows && w'.notes == w.notes && w'.drifted == w.drifted
    requires Outstanding(w, id) ==> Outstanding(w', id)
    ensures Converges(w', s, id)
  {}

  lemma ExpireStep(w: World, id: Id)
    requires Inv(w) && id in w.windows
    ensures Inv(ApplyExpire(w, id))
  {
    var w' := ApplyExpire(w, id);
    forall i, x | i in w'.subs && Steady(w'.subs[i]) ensures Converges(w', w'.subs[i], x) {
      assert Converges(w, w.subs[i], x);
      ConvergesAlike(w, w', w'.subs[i], x);
    }
  }

  /** A removing frame to those the note removes for, and the note is spent. */
  lemma RemovalConverges(w: World, w': World, n: Note, to: Audience, s: Sub, id: Id)
    requires SubInv(w, s) && Steady(DeliverTo(s, Remove(n.id), to))
    requires w'.rows == w.rows && w'.drifted == w.drifted
    requires forall x | x != n.id && Outstanding(w, x) :: Outstanding(w', x)
    requires n.id in w.rows ==> Outstanding(w', n.id)
    requires HasRemover(w.notes, s, id) && !(id == n.id && Accepts(to, s)) ==> HasRemover(w'.notes, s, id)
    ensures Converges(w', DeliverTo(s, Remove(n.id), to), id)
  {
    assert Converges(w, s, id);
    DeliveredShows(w.rows, s, Remove(n.id), to);
    SameEyes(w.rows, s, Remove(n.id), to, w'.notes, id);
  }

  lemma RevokedRemover(notes: seq<Note>, s: Sub, id: Id)
    requires notes != [] && HasRemover(notes, s, id) && !(id == notes[0].id && Accepts(Losers(notes[0].owner), s))
    ensures HasRemover([notes[0].(wentPrivate := false)] + notes[1..], s, id)
  {
    var notes' := [notes[0].(wentPrivate := false)] + notes[1..];
    var n :| n in notes && Removes(n, s, id);
    if n == notes[0] {
      assert notes'[0] in notes' && Removes(notes'[0], s, id);
    } else {
      assert notes == [notes[0]] + notes[1..];
      assert n in notes';
    }
  }

  lemma RevokeNoted(notes: seq<Note>, id: Id)
    requires notes != []
    ensures Noted([notes[0].(wentPrivate := false)] + notes[1..], id) <==> Noted(notes, id)
  {
    var notes' := [notes[0].(wentPrivate := false)] + notes[1..];
    assert notes == [notes[0]] + notes[1..] && notes'[0] in notes';
    if Noted(notes, id) {
      var n :| n in notes && n.id == id;
      assert n == notes[0] || n in notes';
    }
    if Noted(notes', id) {
      var n :| n in notes' && n.id == id;
      assert n == notes'[0] || n in notes;
      assert notes[0] in notes;
    }
  }

  lemma RevokeKeepsNotes(rows: Table, notes: seq<Note>)
    requires NotesInv(rows, notes) && notes != []
    ensures NotesInv(rows, [notes[0].(wentPrivate := false)] + notes[1..])
  {
    var notes' := [notes[0].(wentPrivate := false)] + notes[1..];
    forall i | 0 <= i < |notes'| && notes'[i].deleted && notes'[i].id in rows
      ensures Followed(notes', i, notes'[i].id)
    {
      assert Followed(notes, i, notes[i].id);
      var j :| i < j < |notes| && notes[j].id == notes[i].id && !notes[j].deleted;
      assert notes'[j] == notes[j];
    }
  }

  lemma RevokeStep(w: World)
    requires Inv(w) && w.notes != []
    ensures Inv(ApplyRevoke(w))
  {
    var w', n := ApplyRevoke(w), w.notes[0];
    RevokeKeepsNotes(w.rows, w.notes);
    forall x ensures Outstanding(w', x) <==> Outstanding(w, x) { RevokeNoted(w.notes, x); }
    assert n in w.notes;
    forall i, id | i in w'.subs && Steady(w'.subs[i]) ensures Converges(w', w'.subs[i], id) {
      if HasRemover(w.notes, w.subs[i], id) && !(id == n.id && Accepts(Losers(n.owner), w.subs[i])) {
        RevokedRemover(w.notes, w.subs[i], id);
      }
      RemovalConverges(w, w', n, Losers(n.owner), w.subs[i], id);
    }
  }

  lemma TailKeepsNotes(rows: Table, notes: seq<Note>)
    requires NotesInv(rows, notes) && notes != []
    ensures NotesInv(rows, notes[1..])
    ensures notes[0].deleted && notes[0].id in rows ==> Noted(notes[1..], notes[0].id)
  {
    forall i | 0 <= i < |notes| - 1 && notes[1..][i].deleted && notes[1..][i].id in rows
      ensures Followed(notes[1..], i, notes[1..][i].id)
    {
      assert Followed(notes, i + 1, notes[i + 1].id);
      var j :| i + 1 < j < |notes| && notes[j].id == notes[i + 1].id && !notes[j].deleted;
      assert notes[1..][j - 1] == notes[j];
    }
    if notes[0].deleted && notes[0].id in rows {
      var j :| 0 < j < |notes| && notes[j].id == notes[0].id && !notes[j].deleted;
      assert notes[1..][j - 1] in notes[1..];
    }
  }

  lemma TailNoted(notes: seq<Note>, s: Sub, id: Id)
    requires notes != []
    ensures Noted(notes, id) && id != notes[0].id ==> Noted(notes[1..], id)
    ensures HasRemover(notes, s, id) && !Removes(notes[0], s, id) ==> HasRemover(notes[1..], s, id)
  {
    assert notes == [notes[0]] + notes[1..];
  }

  lemma DeleteStep(w: World)
    requires Inv(w) && w.notes != [] && w.notes[0].deleted && !w.notes[0].wentPrivate
    ensures Inv(ApplyHandle(w))
  {
    var w', n := ApplyHandle(w), w.notes[0];
    TailKeepsNotes(w.rows, w.notes);
    forall i, id | i in w'.subs && Steady(w'.subs[i]) ensures Converges(w', w'.subs[i], id) {
      TailNoted(w.notes, w.subs[i], id);
      forall x | x != n.id && Outstanding(w, x) ensures Outstanding(w', x) { TailNoted(w.notes, w.subs[i], x); }
      RemovalConverges(w, w', n, Viewers(n.owner, n.visibility), w.subs[i], id);
    }
  }

  lemma NewsStep(w: World)
    requires Inv(w) && w.notes != [] && !w.notes[0].deleted && !w.notes[0].wentPrivate
    ensures Inv(ApplyHandle(w))
  {
    var w', n := ApplyHandle(w), w.notes[0];
    TailKeepsNotes(w.rows, w.notes);
    forall i, id | i in w'.subs && Steady(w'.subs[i]) ensures Converges(w', w'.subs[i], id) {
      TailNoted(w.notes, w.subs[i], id);
      assert Converges(w, w.subs[i], id);
      assert Outstanding(w, id) ==> Outstanding(w', id);
    }
  }

  // ----- the serve loop ------------------------------------------------------

  /** A snapshot about to be read shows exactly what it should. */
  lemma SnapshotConverges(w: World, s: Sub, id: Id)
    requires s.phase == Reading && s.queue == []
    ensures Converges(w, s, id)
  {}

  lemma ServedKeeps(w: World, s: Sub, e: Event)
    requires SubInv(w, s)
    requires e.Receive? ==> s.queue != [] && s.phase == Streaming
    requires e.Resync? ==> s.phase == Streaming
    requires e.Drain? ==> s.phase == Draining
    requires e.Snapshot? ==> s.phase == Reading
    ensures SubInv(w, Served(w.rows, s, e))
  {
    var s' := Served(w.rows, s, e);
    if Steady(s') {
      forall id ensures Converges(w, s', id) {
        if e.Drain? {
          SnapshotConverges(w, s', id);
        } else {
          if e.Receive? { ReplayFirst(s.client, s.queue); }
          assert Shown(w.rows, s') == Shown(w.rows, s);
          assert Converges(w, s, id);
          forall n | n in w.notes ensures Removes(n, s, id) <==> Removes(n, s', id) {}
        }
      }
    }
  }

  lemma SubAlike(w: World, w': World, s: Sub)
    requires SubInv(w, s) && w'.rows == w.rows && w'.notes == w.notes && w'.owed == w.owed && w'.windows == w.windows
    requires w'.drifted == w.drifted
    ensures SubInv(w', s)
  {
    if Steady(s) {
      forall id ensures Converges(w', s, id) {
        assert Converges(w, s, id);
        ConvergesAlike(w, w', s, id);
      }
    }
  }

  lemma ServeStep(w: World, e: Event)
    requires Inv(w) && !IsChange(e) && !IsFeed(e) && Enabled(w, e)
    ensures Inv(ApplyServe(w, e))
  {
    var w' := ApplyServe(w, e);
    forall i | i in w'.subs ensures SubInv(w', w'.subs[i]) {
      if i == e.i {
        if e.Subscribe? {
          forall id ensures Converges(w', w'.subs[i], id) { SnapshotConverges(w', w'.subs[i], id); }
        } else {
          ServedKeeps(w, w.subs[i], e);
          SubAlike(w, w', w'.subs[i]);
        }
      } else {
        SubAlike(w, w', w.subs[i]);
      }
    }
  }

  // ----- every run -----------------------------------------------------------

  lemma InvStep(w: World, e: Event)
    requires Inv(w) && Enabled(w, e)
    ensures Inv(Apply(w, e))
  {
    if IsChange(e) {
      ChangeStep(w, e);
    } else if e.Revoke? {
      RevokeStep(w);
    } else if e.Handle? {
      if w.notes[0].deleted { DeleteStep(w); } else { NewsStep(w); }
    } else if e.Push? {
      PushStep(w, e.id);
    } else if e.Expire? {
      ExpireStep(w, e.id);
    } else {
      ServeStep(w, e);
    }
  }

  lemma {:induction false} InvAlong(w0: World, events: seq<Event>, w: World)
    requires Inv(w0) && Reaches(w0, events, w)
    ensures Inv(w)
    decreases |events|
  {
    if events != [] {
      InvStep(w0, events[0]);
      InvAlong(Apply(w0, events[0]), events[1..], w);
    }
  }

  /** Convergence: in every reachable state, a subscriber with no resync pending will hold, at every id with
      nothing outstanding, nothing where it should see no row, and else the row it should see, equal in
      every notified column, and in the silent ones too unless they changed since the row's last push. */
  lemma EveryClientConverges(w0: World, events: seq<Event>, w: World, i: nat, id: Id)
    requires Initial(w0) && Reaches(w0, events, w) && i in w.subs && Steady(w.subs[i]) && !Outstanding(w, id)
    ensures var got, want := At(Shown(w.rows, w.subs[i]), id), Wanted(w.rows, w.subs[i], id);
      && (got.Some? <==> want.Some?)
      && (want.Some? ==> SameNotified(got.value, want.value))
      && (id !in w.drifted ==> got == want)
  {
    InvAlong(w0, events, w);
    assert Converges(w, w.subs[i], id);
    forall n | n in w.notes ensures !Removes(n, w.subs[i], id) {}
  }

  /** Once all is quiet the client's list is the list a fresh read would give, silent columns that have
      drifted excepted. */
  lemma QuietClientIsExact(w0: World, events: seq<Event>, w: World, i: nat)
    requires Initial(w0) && Reaches(w0, events, w) && i in w.subs && w.subs[i].phase == Streaming
    requires w.subs[i].queue == [] && !w.subs[i].resync && forall id :: !Outstanding(w, id)
    ensures var client, want := w.subs[i].client, VisibleRows(w.rows, w.subs[i].caller, w.subs[i].scope);
      && client.Keys == want.Keys
      && (forall id | id in want :: SameNotified(client[id], want[id]) && (id !in w.drifted ==> client[id] == want[id]))
      && (w.drifted == {} ==> client == want)
  {
    var s := w.subs[i];
    var want := VisibleRows(w.rows, s.caller, s.scope);
    forall id
      ensures id in s.client <==> id in want
      ensures id in want ==> SameNotified(s.client[id], want[id]) && (id !in w.drifted ==> s.client[id] == want[id])
    {
      EveryClientConverges(w0, events, w, i, id);
      assert id in s.client <==> At(s.client, id).Some?;
      assert id in want <==> At(want, id).Some?;
    }
  }

  /** The silent columns are the exact exception: any change of one, to anything other than what a
      settled client shows, leaves that client stale with nothing outstanding to correct it. */
  lemma SilentChangeIsMissed(w0: World, events: seq<Event>, w: World, i: nat, id: Id, silent: string)
    requires Initial(w0) && Reaches(w0, events, w) && i in w.subs && !Outstanding(w, id)
    requires w.subs[i].phase == Streaming && !w.subs[i].resync && Wanted(w.rows, w.subs[i], id).Some?
    requires At(Shown(w.rows, w.subs[i]), id).Some? && At(Shown(w.rows, w.subs[i]), id).value.silent != silent
    ensures var r := w.rows[id];
      var e := Update(id, r.visibility, r.meta, r.activity, silent);
      && Enabled(w, e) && i in Apply(w, e).subs && Steady(Apply(w, e).subs[i]) && !Outstanding(Apply(w, e), id)
      && At(Shown(Apply(w, e).rows, Apply(w, e).subs[i]), id) != Wanted(Apply(w, e).rows, Apply(w, e).subs[i], id)
  {
    var r := w.rows[id];
    var e := Update(id, r.visibility, r.meta, r.activity, silent);
    var w' := ApplyChange(w, e);
    assert w'.notes == w.notes && w'.subs == w.subs;
  }

  /** Such a client exists: one subscriber, one row, one change of the model. */
  lemma StaleClientExists() returns (w0: World, events: seq<Event>, w: World)
    ensures Initial(w0) && Reaches(w0, events, w) && 0 in w.subs && Steady(w.subs[0]) && w.subs[0].queue == []
    ensures !Outstanding(w, "c") && "c" in w.rows && "c" in w.subs[0].client && w.subs[0].client["c"] != w.rows["c"]
  {
    var r := Row(None, Shared, "title", 0, "model one");
    w0 := World(map["c" := r], [], map[], {}, {}, map[]);
    var e1, e2, e3 := Subscribe(0, "", "all"), Snapshot(0), Update("c", Shared, "title", 0, "model two");
    var w1 := Apply(w0, e1);
    var w2 := Apply(w1, e2);
    w := Apply(w2, e3);
    events := [e1, e2, e3];
    assert events[1..] == [e2, e3] && [e2, e3][1..] == [e3] && [e3][1..] == [];
    assert Reaches(w2, [e3], w);
    assert Reaches(w1, [e2, e3], w);
  }

  /** Even with pushes outstanding, a row goes on being shown to someone who may not see it only
      while the note that removes it waits. */
  lemma NothingLingersUnseen(w0: World, events: seq<Event>, w: World, i: nat, id: Id)
    requires Initial(w0) && Reaches(w0, events, w) && i in w.subs && Steady(w.subs[i])
    requires id in Shown(w.rows, w.subs[i]) &&
      !(id in w.rows && Sees(w.subs[i], w.rows[id].owner, w.rows[id].visibility))
    ensures HasRemover(w.notes, w.subs[i], id)
  {
    InvAlong(w0, events, w);
    assert Converges(w, w.subs[i], id);
  }
}
