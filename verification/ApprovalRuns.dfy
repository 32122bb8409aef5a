/** Whole runs of the approval service: calls taken one at a time, for uniqueness, and calls cut at
    every await, for what an active request means. */
module ApprovalRuns {
  import opened Wrappers
  import opened Approvals
  import Globs
  import Rules
  import Concrete

  // ----- calls one at a time -------------------------------------------------

  datatype Call =
    | File(id: Id, r: Request, iam: Iam, expires: real)
    | ApproveCall(id: Id, approver: string, authz: Authz, iam: Iam, expires: real)
    | DenyCall(id: Id, authz: Authz, deleted: bool)
    | RevokeCall(id: Id, conv: string, deleted: bool)
    | SweepCall(now: real, torn: set<Id>, past: set<Id>)

  function Do(rows: Table, c: Call): Table {
    match c
    case File(id, r, iam, expires) => FileIn(rows, id, r, iam, expires)
    case ApproveCall(id, approver, authz, iam, expires) => ApproveIn(rows, id, approver, authz, iam, expires)
    case DenyCall(id, authz, deleted) => DenyIn(rows, id, authz, deleted)
    case RevokeCall(id, conv, deleted) => RevokeIn(rows, id, conv, deleted)
    case SweepCall(now, torn, past) => Swept(rows, now, torn, past)
  }

  function DoAll(rows: Table, calls: seq<Call>): Table {
    if calls == [] then rows else Do(DoAll(rows, calls[..|calls| - 1]), calls[|calls| - 1])
  }

  lemma CallKeeps(rows: Table, c: Call)
    requires TableInv(rows)
    ensures TableInv(Do(rows, c))
  {
    match c
    case File(id, r, iam, expires) =>
      if id !in rows && r.status == Pending && r.approvals == [] {
        FiledKeeps(rows, id, r);
        if r.auto { ProvisionedKeeps(Filed(rows, id, r), id, iam, expires); }
      }
    case ApproveCall(id, approver, authz, iam, expires) => ApproveInKeeps(rows, id, approver, authz, iam, expires);
    case DenyCall(id, authz, deleted) =>
      if DenyAccepted(rows, id, authz, deleted) { SettledOne(rows, id, Denied); }
    case RevokeCall(id, conv, deleted) =>
      if RevokeAccepted(rows, id, conv, deleted) { SettledOne(rows, id, Revoked); }
    case SweepCall(now, torn, past) => SweptKeeps(rows, now, torn, past);
  }

  lemma {:induction false} CallsKeep(rows: Table, calls: seq<Call>)
    requires TableInv(rows)
    ensures TableInv(DoAll(rows, calls))
    decreases |calls|
  {
    if calls != [] {
      CallsKeep(rows, calls[..|calls| - 1]);
      CallKeeps(DoAll(rows, calls[..|calls| - 1]), calls[|calls| - 1]);
    }
  }

  /** In every run of whole calls: two live requests of one kind never share a conversation and
      account, no request has more approvals than obligations, nor two from one approver. */
  lemma OneLiveRequest(calls: seq<Call>, a: Id, b: Id)
    requires a in DoAll(map[], calls) && b in DoAll(map[], calls)
    ensures var rows := DoAll(map[], calls);
      && (a != b && rows[a].conv == rows[b].conv && rows[a].account == rows[b].account ==>
            && (rows[a].status in {Pending, Approved} ==> rows[b].status !in {Pending, Approved})
            && (rows[a].status == Active ==> rows[b].status != Active))
      && |rows[a].approvals| <= |Obligations(rows[a])|
      && (forall i, j | 0 <= i < j < |rows[a].approvals| ::
        rows[a].approvals[i].approver != rows[a].approvals[j].approver)
  {
    CallsKeep(map[], calls);
    var rows := DoAll(map[], calls);
    assert a != b ==> !Clash(rows[a], rows[b]);
    assert RowInv(rows[a]);
  }

  // ----- calls cut at every await --------------------------------------------

  /** An approve, or the provisioning a request or approve ends with, between two awaits. */
  datatype Flight =
    | Checking(id: Id, approver: string, unmet: seq<Owed>)
    | Adding(id: Id, approver: string, unmet: seq<Owed>, satisfied: seq<nat>, check: nat)
    | Rereading(id: Id, unmet: seq<Owed>)
    | Provisioning(id: Id)

  /** What a request was filed over. */
  datatype Origin = Origin(rules: seq<Rules.Rule>, parts: seq<Rules.Part>)

  /** One round of checks: for whom, on which request, and the objects on which the answer was yes. */
  datatype Checked = Checked(id: Id, approver: string, allowed: set<string>)

  /** History beside the table: every round of checks that found something, the round each recorded
      approval of a request came from, in order, and what each request was filed over. */
  datatype World = World(
    rows: Table,
    flights: map<nat, Flight>,
    checks: seq<Checked>,
    sources: map<Id, seq<nat>>,
    origins: map<Id, Origin>)

  datatype Event =
    | FileRow(id: Id, r: Request, origin: Origin, k: nat)
    | Begin(k: nat, id: Id, approver: string)
    | Check(k: nat, authz: Authz)
    | Add(k: nat)
    | Reread(k: nat)
    | Finish(k: nat, iamOk: bool)
    | Settle(id: Id, status: Status)
    | Drop(k: nat)

  ghost predicate Enabled(w: World, e: Event) {
    match e
    case FileRow(id, r, origin, k) => id !in w.rows && k !in w.flights && FiledFor(r, origin.rules, origin.parts)
    case Begin(k, id, _) => k !in w.flights && id in w.rows && w.rows[id].status == Pending
    case Check(k, _) => k in w.flights && w.flights[k].Checking?
    case Add(k) => k in w.flights && w.flights[k].Adding? && w.flights[k].id in w.rows
    case Reread(k) => k in w.flights && w.flights[k].Rereading? && w.flights[k].id in w.rows
    case Finish(k, _) => k in w.flights && w.flights[k].Provisioning? && w.flights[k].id in w.rows
    case Settle(id, status) => id in w.rows && status != Active
    case Drop(k) => k in w.flights
  }

  /** The objects asked about in this round to which the answer was yes. */
  function Heard(owed: seq<Owed>, authz: Authz): set<string> {
    set o, x | o in owed && x in AllowedOn(o.objects, authz) :: x
  }

  function Sources(w: World, id: Id): seq<nat> {
    if id in w.sources then w.sources[id] else []
  }

  function Step(w: World, k: nat, t: Flight): World {
    w.(flights := w.flights[k := t])
  }

  function AfterCheck(w: World, k: nat, authz: Authz): World
    requires k in w.flights && w.flights[k].Checking?
  {
    var t := w.flights[k];
    var ids := Eligible(t.unmet, authz);
    if ids.None? || ids.value == [] then w.(flights := w.flights - {k})
    else w.(flights := w.flights[k := Adding(t.id, t.approver, t.unmet, ids.value, |w.checks|)],
            checks := w.checks + [Checked(t.id, t.approver, Heard(t.unmet, authz))])
  }

  /** One approval per approver; the primary key refuses a second. */
  function AfterAdd(w: World, k: nat): World
    requires k in w.flights && w.flights[k].Adding? && w.flights[k].id in w.rows
  {
    var t := w.flights[k];
    var r := w.rows[t.id];
    if t.approver in Approvers(r.approvals) then w.(flights := w.flights - {k})
    else w.(rows := w.rows[t.id := r.(approvals := r.approvals + [Approval(t.approver, t.satisfied)])],
            sources := w.sources[t.id := Sources(w, t.id) + [t.check]],
            flights := w.flights[k := Rereading(t.id, t.unmet)])
  }

  function AfterReread(w: World, k: nat): World
    requires k in w.flights && w.flights[k].Rereading? && w.flights[k].id in w.rows
  {
    var t := w.flights[k];
    w.(flights := if Unmet(w.rows[t.id].approvals, t.unmet) == [] then w.flights[k := Provisioning(t.id)]
      else w.flights - {k})
  }

  function AfterFinish(w: World, k: nat, iamOk: bool): World
    requires k in w.flights && w.flights[k].Provisioning? && w.flights[k].id in w.rows
  {
    var id := w.flights[k].id;
    w.(rows := w.rows[id := w.rows[id].(status := if iamOk then Active else Errored)], flights := w.flights - {k})
  }

  ghost function Apply(w: World, e: Event): World
    requires Enabled(w, e)
  {
    match e
    case FileRow(id, r, origin, k) =>
      w.(rows := w.rows[id := r], origins := w.origins[id := origin],
         flights := if r.auto then w.flights[k := Provisioning(id)] else w.flights)
    case Begin(k, id, approver) => Step(w, k,
      Checking(id, approver, Unmet(w.rows[id].approvals, Obligations(w.rows[id]))))
    case Check(k, authz) => AfterCheck(w, k, authz)
    case Add(k) => AfterAdd(w, k)
    case Reread(k) => AfterReread(w, k)
    case Finish(k, iamOk) => AfterFinish(w, k, iamOk)
    case Settle(id, status) => w.(rows := w.rows[id := w.rows[id].(status := status)])
    case Drop(k) => w.(flights := w.flights - {k})
  }

  /** Nothing under way; the table may hold rows from before obligations were stored. */
  ghost predicate Initial(w: World) {
    && w.flights == map[] && w.checks == [] && w.sources == map[] && w.origins == map[]
    && forall id | id in w.rows :: Legacy(w.rows[id])
  }

  predicate Legacy(r: Request) {
    r.stored == None && !r.auto && r.approvals == [] && r.status != Active
  }

  ghost predicate Reaches(w0: World, events: seq<Event>, w: World)
    decreases |events|
  {
    if events == [] then w == w0
    else Enabled(w0, events[0]) && Reaches(Apply(w0, events[0]), events[1..], w)
  }

  // ----- what every step keeps -----------------------------------------------

  /** Some obligation of that id has an object that was allowed. */
  ghost predicate Backed(allowed: set<string>, owed: seq<Owed>, i: nat) {
    exists o, x | o in owed && x in o.objects :: o.id == i && x in allowed
  }

  /** Round `c` was about this request and this approver, and backs each of the ids. */
  ghost predicate Vouches(checks: seq<Checked>, c: nat, id: Id, owed: seq<Owed>, a: Approval) {
    && c < |checks| && checks[c].id == id && checks[c].approver == a.approver
    && forall i | i in a.obligations :: Backed(checks[c].allowed, owed, i)
  }

  predicate Cleared(r: Request) {
    r.auto || Unmet(r.approvals, Obligations(r)) == []
  }

  ghost predicate RowGood(checks: seq<Checked>, from: seq<nat>, id: Id, r: Request) {
    && |from| == |r.approvals|
    && (forall j | 0 <= j < |from| :: Vouches(checks, from[j], id, Obligations(r), r.approvals[j]))
    && (r.status == Active ==> Cleared(r))
  }

  /** What is left out of `unmet` has been answered, and what is in it is owed. */
  ghost predicate Snapshot(r: Request, unmet: seq<Owed>) {
    && (forall o | o in Obligations(r) && o !in unmet :: o.id in Done(r.approvals))
    && (forall o | o in unmet :: o in Obligations(r))
  }

  ghost predicate FlightGood(w: World, t: Flight) {
    && t.id in w.rows
    && match t
       case Checking(id, _, unmet) => Snapshot(w.rows[id], unmet)
       case Adding(id, approver, unmet, satisfied, check) =>
         Snapshot(w.rows[id], unmet) &&
           Vouches(w.checks, check, id, Obligations(w.rows[id]), Approval(approver, satisfied))
       case Rereading(id, unmet) => Snapshot(w.rows[id], unmet)
       case Provisioning(id) => Cleared(w.rows[id])
  }

  ghost predicate OriginGood(r: Request, o: Origin) {
    && Rules.DenialsOf(o.rules, o.parts) == []
    && exists needed ::
      Rules.NeededFor(r.account, o.rules, o.parts, needed) && StoredFor(needed, r.stored) && r.auto == (needed == [])
  }

  ghost predicate Inv(w: World) {
    && w.sources.Keys <= w.rows.Keys
    && (forall id | id in w.rows :: RowGood(w.checks, Sources(w, id), id, w.rows[id]))
    && (forall k | k in w.flights :: FlightGood(w, w.flights[k]))
  }

  /** Every request still needs what its rules asked for when it was filed. */
  ghost predicate OriginInv(w: World) {
    w.origins.Keys <= w.rows.Keys && forall id | id in w.origins :: OriginGood(w.rows[id], w.origins[id])
  }

  lemma OriginKept(r: Request, r': Request, o: Origin)
    requires OriginGood(r, o) && SameNeeds(r, r')
    ensures OriginGood(r', o)
  {}

  /** What a request needs never changes after it is filed. */
  predicate SameNeeds(r: Request, r': Request) {
    r'.stored == r.stored && r'.auto == r.auto && r'.account == r.account
  }

  lemma NeedsStay(w: World, e: Event)
    requires Enabled(w, e) && !e.FileRow?
    ensures var w' := Apply(w, e);
      w'.rows.Keys == w.rows.Keys && w'.origins == w.origins && forall id | id in w.rows ::
        SameNeeds(w.rows[id], w'.rows[id])
  {}

  lemma OriginStep(w: World, e: Event)
    requires OriginInv(w) && Enabled(w, e)
    ensures OriginInv(Apply(w, e))
  {
    if e.FileRow? {
      OriginFiled(w, Apply(w, e), e.id);
    } else {
      NeedsStay(w, e);
      OriginsStay(w, Apply(w, e));
    }
  }

  /** No two obligations of a request share an id. */
  ghost predicate DistinctIds(owed: seq<Owed>) {
    forall i, j | 0 <= i < j < |owed| :: owed[i].id != owed[j].id
  }

  ghost predicate IdsInv(w: World) {
    forall id | id in w.rows :: DistinctIds(Obligations(w.rows[id]))
  }

  lemma StoredIsDistinct(needed: seq<Rules.Obligation>, r: Request)
    requires StoredFor(needed, r.stored) && forall i | 0 <= i < |needed| :: needed[i].id == i
    ensures DistinctIds(Obligations(r))
  {
    var owed := Obligations(r);
    if needed != [] {
      forall i | 0 <= i < |owed| ensures owed[i].id == i { assert Stores(needed[i], owed[i]); }
    }
  }

  lemma FiledIsDistinct(r: Request, rules: seq<Rules.Rule>, parts: seq<Rules.Part>)
    requires FiledFor(r, rules, parts)
    ensures DistinctIds(Obligations(r))
  {
    var needed :| Rules.NeededFor(r.account, rules, parts, needed) && StoredFor(needed, r.stored)
      && r.auto == (needed == []);
    StoredIsDistinct(needed, r);
  }

  lemma IdsStep(w: World, e: Event)
    requires IdsInv(w) && Enabled(w, e)
    ensures IdsInv(Apply(w, e))
  {
    if e.FileRow? {
      FiledIsDistinct(e.r, e.origin.rules, e.origin.parts);
    } else {
      NeedsStay(w, e);
    }
  }

  lemma OriginsStay(w: World, w': World)
    requires OriginInv(w) && w'.rows.Keys == w.rows.Keys && w'.origins == w.origins
    requires forall id | id in w.rows :: SameNeeds(w.rows[id], w'.rows[id])
    ensures OriginInv(w')
  {
    forall id | id in w.origins ensures OriginGood(w'.rows[id], w'.origins[id]) {
      OriginKept(w.rows[id], w'.rows[id], w.origins[id]);
    }
  }

  lemma OriginFiled(w: World, w': World, id: Id)
    requires OriginInv(w) && id in w'.rows && id in w'.origins && OriginGood(w'.rows[id], w'.origins[id])
    requires w'.rows == w.rows[id := w'.rows[id]] && w'.origins == w.origins[id := w'.origins[id]]
    ensures OriginInv(w')
  {}

  /** Rows only gain approvals. */
  ghost predicate Extends(r: Request, r': Request) {
    && r'.stored == r.stored && r'.auto == r.auto && r'.account == r.account && Done(r.approvals) <= Done(r'.approvals)
  }

  lemma ClearedStays(r: Request, r': Request)
    requires Extends(r, r') && Cleared(r)
    ensures Cleared(r')
  {
    assert Obligations(r') == Obligations(r);
    if !r.auto { UnmetShrinks(r.approvals, r'.approvals, Obligations(r)); }
  }

  lemma FlightStays(w: World, w': World, t: Flight)
    requires FlightGood(w, t) && t.id in w'.rows && Extends(w.rows[t.id], w'.rows[t.id]) && w.checks <= w'.checks
    ensures FlightGood(w', t)
  {
    var r, r' := w.rows[t.id], w'.rows[t.id];
    assert Obligations(r') == Obligations(r);
    if t.Provisioning? { ClearedStays(r, r'); }
  }

  lemma RowStays(checks: seq<Checked>, checks': seq<Checked>, from: seq<nat>, id: Id, r: Request)
    requires RowGood(checks, from, id, r) && checks <= checks'
    ensures RowGood(checks', from, id, r)
  {
    forall j | 0 <= j < |from| ensures Vouches(checks', from[j], id, Obligations(r), r.approvals[j]) {
      assert Vouches(checks, from[j], id, Obligations(r), r.approvals[j]);
    }
  }

  /** A row changed in a way that keeps everyone's word: every flight's facts survive. */
  lemma RowStep(w: World, w': World, id: Id)
    requires Inv(w) && id in w.rows && w'.rows.Keys == w.rows.Keys && w'.checks == w.checks
    requires w'.sources.Keys <= w'.rows.Keys
    requires forall k | k in w.rows && k != id :: w'.rows[k] == w.rows[k] && Sources(w', k) == Sources(w, k)
    requires Extends(w.rows[id], w'.rows[id]) && RowGood(w'.checks, Sources(w', id), id, w'.rows[id])
    requires forall k | k in w'.flights ::
      (k in w.flights && w'.flights[k] == w.flights[k]) || FlightGood(w', w'.flights[k])
    ensures Inv(w')
  {
    forall k | k in w'.flights ensures FlightGood(w', w'.flights[k]) {
      if k in w.flights && w'.flights[k] == w.flights[k] {
        assert FlightGood(w, w.flights[k]);
        FlightStays(w, w', w'.flights[k]);
      }
    }
  }

  /** Only flights changed, and rounds of checks were added. */
  lemma FlightsStep(w: World, w': World)
    requires Inv(w) && w'.rows == w.rows && w'.sources == w.sources && w.checks <= w'.checks
    requires forall k | k in w'.flights ::
      (k in w.flights && w'.flights[k] == w.flights[k]) || FlightGood(w', w'.flights[k])
    ensures Inv(w')
  {
    forall k | k in w'.flights ensures FlightGood(w', w'.flights[k]) {
      if k in w.flights && w'.flights[k] == w.flights[k] {
        assert FlightGood(w, w.flights[k]);
        FlightStays(w, w', w'.flights[k]);
      }
    }
    forall id | id in w'.rows ensures RowGood(w'.checks, Sources(w', id), id, w'.rows[id]) {
      RowStays(w.checks, w'.checks, Sources(w, id), id, w.rows[id]);
    }
  }

  lemma FiledIsGood(checks: seq<Checked>, id: Id, r: Request, origin: Origin)
    requires FiledFor(r, origin.rules, origin.parts)
    ensures RowGood(checks, [], id, r)
  {}

  lemma FileStep(w: World, w': World, id: Id, k: nat)
    requires Inv(w) && id !in w.rows && w'.checks == w.checks && w'.sources == w.sources &&
      w'.rows.Keys == w.rows.Keys + {id}
    requires forall x | x in w.rows :: w'.rows[x] == w.rows[x]
    requires RowGood(w'.checks, [], id, w'.rows[id])
    requires w'.flights == w.flights || (w'.flights == w.flights[k := Provisioning(id)] && w'.rows[id].auto)
    ensures Inv(w')
  {
    forall j | j in w'.flights ensures FlightGood(w', w'.flights[j]) {
      if j in w.flights && w'.flights[j] == w.flights[j] {
        assert FlightGood(w, w.flights[j]);
        FlightStays(w, w', w'.flights[j]);
      }
    }
  }

  lemma CheckedIsBacked(r: Request, unmet: seq<Owed>, authz: Authz, i: nat)
    requires Snapshot(r, unmet) && Eligible(unmet, authz).Some? && i in Eligible(unmet, authz).value
    ensures Backed(Heard(unmet, authz), Obligations(r), i)
  {
    var o :| o in unmet && o.id == i && Ask(o.objects, authz) == Allowed;
    var x :| x in AllowedOn(o.objects, authz);
    assert x in Heard(unmet, authz) && o in Obligations(r);
  }

  lemma CheckStep(w: World, k: nat, authz: Authz)
    requires Inv(w) && k in w.flights && w.flights[k].Checking?
    ensures Inv(AfterCheck(w, k, authz))
  {
    var w', t := AfterCheck(w, k, authz), w.flights[k];
    assert FlightGood(w, t);
    if w'.flights != w.flights - {k} {
      CheckedFlight(w, w', t, authz);
      assert w'.flights == w.flights[k := w'.flights[k]];
    }
    FlightsStep(w, w');
  }

  lemma CheckedFlight(w: World, w': World, t: Flight, authz: Authz)
    requires t.Checking? && FlightGood(w, t) && Eligible(t.unmet, authz).Some? && w'.rows == w.rows
    requires w'.checks == w.checks + [Checked(t.id, t.approver, Heard(t.unmet, authz))]
    ensures FlightGood(w', Adding(t.id, t.approver, t.unmet, Eligible(t.unmet, authz).value, |w.checks|))
  {
    var r, ids := w.rows[t.id], Eligible(t.unmet, authz).value;
    forall i | i in ids ensures Backed(Heard(t.unmet, authz), Obligations(r), i) {
      CheckedIsBacked(r, t.unmet, authz, i);
    }
    assert Vouches(w'.checks, |w.checks|, t.id, Obligations(r), Approval(t.approver, ids));
  }

  lemma AddedRow(checks: seq<Checked>, from: seq<nat>, c: nat, id: Id, r: Request, r': Request, a: Approval)
    requires RowGood(checks, from, id, r) && Vouches(checks, c, id, Obligations(r), a)
    requires r' == r.(approvals := r.approvals + [a])
    ensures RowGood(checks, from + [c], id, r') && Extends(r, r')
  {
    DoneGrows(r.approvals, a);
    assert Obligations(r') == Obligations(r);
    if r.status == Active { ClearedStays(r, r'); }
  }

  lemma AddStep(w: World, k: nat)
    requires Inv(w) && k in w.flights && w.flights[k].Adding? && w.flights[k].id in w.rows
    ensures Inv(AfterAdd(w, k))
  {
    var w', t := AfterAdd(w, k), w.flights[k];
    assert FlightGood(w, t);
    if t.approver in Approvers(w.rows[t.id].approvals) {
      FlightsStep(w, w');
    } else {
      Added(w, w', k, t);
    }
  }

  lemma Added(w: World, w': World, k: nat, t: Flight)
    requires Inv(w) && k in w.flights && t == w.flights[k] && t.Adding? && t.id in w.rows
    requires var r := w.rows[t.id];
      w'.rows == w.rows[t.id := r.(approvals := r.approvals + [Approval(t.approver, t.satisfied)])]
    requires w'.checks == w.checks && w'.sources == w.sources[t.id := Sources(w, t.id) + [t.check]]
    requires w'.flights == w.flights[k := Rereading(t.id, t.unmet)]
    ensures Inv(w')
  {
    var r, r' := w.rows[t.id], w'.rows[t.id];
    assert FlightGood(w, t);
    AddedRow(w.checks, Sources(w, t.id), t.check, t.id, r, r', Approval(t.approver, t.satisfied));
    SnapshotStays(r, r', t.unmet);
    RowStep(w, w', t.id);
  }

  lemma SnapshotStays(r: Request, r': Request, unmet: seq<Owed>)
    requires Snapshot(r, unmet) && Extends(r, r')
    ensures Snapshot(r', unmet)
  {
    assert Obligations(r') == Obligations(r);
  }

  /** Nothing of the earlier list unmet means nothing unmet. */
  lemma RereadClears(r: Request, unmet: seq<Owed>)
    requires Snapshot(r, unmet) && Unmet(r.approvals, unmet) == []
    ensures Cleared(r)
  {
    var left := Unmet(r.approvals, Obligations(r));
    assert forall o | o in left :: o in Unmet(r.approvals, unmet);
    FirstIsIn(left);
  }

  lemma FirstIsIn(s: seq<Owed>)
    ensures s == [] || s[0] in s
  {}

  lemma RereadStep(w: World, k: nat)
    requires Inv(w) && k in w.flights && w.flights[k].Rereading? && w.flights[k].id in w.rows
    ensures Inv(AfterReread(w, k))
  {
    var w', t := AfterReread(w, k), w.flights[k];
    assert FlightGood(w, t);
    if Unmet(w.rows[t.id].approvals, t.unmet) == [] {
      RereadClears(w.rows[t.id], t.unmet);
      assert w'.flights == w.flights[k := Provisioning(t.id)];
    }
    FlightsStep(w, w');
  }

  lemma StatusIsGood(checks: seq<Checked>, from: seq<nat>, id: Id, r: Request, status: Status)
    requires RowGood(checks, from, id, r) && (status == Active ==> Cleared(r))
    ensures RowGood(checks, from, id, r.(status := status)) && Extends(r, r.(status := status))
  {
    assert Obligations(r.(status := status)) == Obligations(r);
  }

  lemma FinishStep(w: World, k: nat, iamOk: bool)
    requires Inv(w) && k in w.flights && w.flights[k].Provisioning? && w.flights[k].id in w.rows
    ensures Inv(AfterFinish(w, k, iamOk))
  {
    var w', t := AfterFinish(w, k, iamOk), w.flights[k];
    assert FlightGood(w, t);
    StatusIsGood(w.checks, Sources(w, t.id), t.id, w.rows[t.id], if iamOk then Active else Errored);
    RowStep(w, w', t.id);
  }

  lemma SettleStep(w: World, id: Id, status: Status)
    requires Inv(w) && id in w.rows && status != Active
    ensures Inv(w.(rows := w.rows[id := w.rows[id].(status := status)]))
  {
    StatusIsGood(w.checks, Sources(w, id), id, w.rows[id], status);
    RowStep(w, w.(rows := w.rows[id := w.rows[id].(status := status)]), id);
  }

  lemma InvStep(w: World, e: Event)
    requires Inv(w) && Enabled(w, e)
    ensures Inv(Apply(w, e))
  {
    match e
    case FileRow(id, r, origin, k) =>
      FiledIsGood(w.checks, id, r, origin);
      FileStep(w, Apply(w, e), id, k);
    case Begin(k, id, approver) => FlightsStep(w, Apply(w, e));
    case Check(k, authz) => CheckStep(w, k, authz);
    case Add(k) => AddStep(w, k);
    case Reread(k) => RereadStep(w, k);
    case Finish(k, iamOk) => FinishStep(w, k, iamOk);
    case Settle(id, status) => SettleStep(w, id, status);
    case Drop(k) => FlightsStep(w, Apply(w, e));
  }

  lemma {:induction false} InvAlong(w0: World, events: seq<Event>, w: World)
    requires Inv(w0) && OriginInv(w0) && IdsInv(w0) && Reaches(w0, events, w)
    ensures Inv(w) && OriginInv(w) && IdsInv(w)
    decreases |events|
  {
    if events != [] {
      InvStep(w0, events[0]);
      OriginStep(w0, events[0]);
      IdsStep(w0, events[0]);
      InvAlong(Apply(w0, events[0]), events[1..], w);
    }
  }

  // ----- what an active request means ----------------------------------------

  /** Round `c`, for this request and this approver, heard yes about one of the obligation's own objects. */
  ghost predicate HeardYes(checks: seq<Checked>, c: nat, id: Id, approver: string, o: Owed) {
    && c < |checks| && checks[c].id == id && checks[c].approver == approver
    && exists x | x in o.objects :: x in checks[c].allowed
  }

  /** Some recorded approval satisfies the obligation, and the round of checks it was recorded from backs it. */
  ghost predicate Discharged(w: World, id: Id, o: Owed)
    requires id in w.rows
  {
    var r, from := w.rows[id], Sources(w, id);
    exists j | 0 <= j < |r.approvals| && j < |from| ::
      o.id in r.approvals[j].obligations && HeardYes(w.checks, from[j], id, r.approvals[j].approver, o)
  }

  /** No grant without its approvals, whatever runs between two awaits of anything. */
  lemma ActiveMeansApproved(w0: World, events: seq<Event>, w: World, id: Id)
    requires Initial(w0) && Reaches(w0, events, w) && id in w.rows && w.rows[id].status == Active
    ensures w.rows[id].auto || forall o | o in Obligations(w.rows[id]) :: Discharged(w, id, o)
  {
    InvAlong(w0, events, w);
    assert RowGood(w.checks, Sources(w, id), id, w.rows[id]);
    if !w.rows[id].auto {
      forall o | o in Obligations(w.rows[id]) ensures Discharged(w, id, o) { MetIsDischarged(w, id, o); }
    }
  }

  lemma MetIsDischarged(w: World, id: Id, o: Owed)
    requires id in w.rows && RowGood(w.checks, Sources(w, id), id, w.rows[id]) && DistinctIds(Obligations(w.rows[id]))
    requires o in Obligations(w.rows[id]) && o !in Unmet(w.rows[id].approvals, Obligations(w.rows[id]))
    ensures Discharged(w, id, o)
  {
    var r := w.rows[id];
    var a :| a in r.approvals && o.id in a.obligations;
    var j :| 0 <= j < |r.approvals| && r.approvals[j] == a;
    var c := Sources(w, id)[j];
    assert Vouches(w.checks, c, id, Obligations(r), r.approvals[j]);
    BackedItself(w.checks[c].allowed, Obligations(r), o);
  }

  /** With distinct ids, what backs the id backs the obligation itself. */
  lemma BackedItself(allowed: set<string>, owed: seq<Owed>, o: Owed)
    requires DistinctIds(owed) && o in owed && Backed(allowed, owed, o.id)
    ensures exists x | x in o.objects :: x in allowed
  {
    var p, x :| p in owed && x in p.objects && p.id == o.id && x in allowed;
    var i :| 0 <= i < |owed| && owed[i] == p;
    var j :| 0 <= j < |owed| && owed[j] == o;
    assert i == j;
  }

  /** The objects on which the request's own approvers were allowed, in the rounds their approvals came from. */
  function ApprovedObjects(w: World, id: Id): set<string> {
    set c, x | c in Sources(w, id) && c < |w.checks| && x in w.checks[c].allowed :: x
  }

  /** An obligation of the rules, met through its stored form. */
  lemma StoredIsAnswered(w: World, id: Id, needed: seq<Rules.Obligation>, i: nat)
    requires id in w.rows && StoredFor(needed, w.rows[id].stored) && i < |needed|
    requires Discharged(w, id, w.rows[id].stored.value[i])
    ensures !(ApprovedObjects(w, id) !! needed[i].objects)
  {
    var r, o, from := w.rows[id], w.rows[id].stored.value[i], Sources(w, id);
    assert Stores(needed[i], o);
    var j :| 0 <= j < |r.approvals| && j < |from| && o.id in r.approvals[j].obligations
      && HeardYes(w.checks, from[j], id, r.approvals[j].approver, o);
    var x :| x in o.objects && x in w.checks[from[j]].allowed;
    assert from[j] in from && x in needed[i].objects && x in ApprovedObjects(w, id);
  }

  lemma ActiveAnswers(w0: World, events: seq<Event>, w: World, id: Id, needed: seq<Rules.Obligation>)
    requires Initial(w0) && Reaches(w0, events, w) && id in w.rows && w.rows[id].status == Active
    requires StoredFor(needed, w.rows[id].stored) && w.rows[id].auto == (needed == [])
    requires forall j | 0 <= j < |needed| :: needed[j].id == j
    ensures Rules.Answers(ApprovedObjects(w, id), needed)
  {
    var r := w.rows[id];
    ActiveMeansApproved(w0, events, w, id);
    forall i | 0 <= i < |needed| ensures !(ApprovedObjects(w, id) !! needed[i].objects) {
      assert r.stored.value[i] in Obligations(r);
      StoredIsAnswered(w, id, needed, i);
    }
  }

  /** End to end, for every concrete name an active request can reach: no deny rule of its account matches
      it; every require rule hit that matches it has an approver, allowed for this request, whose rule
      reaches all that the hit guards; and it is let through by a covering allow or hit that matches it,
      or, where the part falls to the default, by the account's own approvers. */
  lemma ActiveReachesOnlyAnsweredNames(w0: World, events: seq<Event>, w: World, id: Id,
                                       m: Rules.Reading, part: Rules.Part, n: Rules.Name)
    requires Initial(w0) && Reaches(w0, events, w) && id in w.rows && w.rows[id].status == Active && id in w.origins
    requires Globs.ReadsGlobs(m) && forall r | r in w.origins[id].rules :: Rules.WellFormed(r)
    requires part in w.origins[id].parts && Rules.PartMatches(m, part, n)
    ensures forall rule | rule in w.origins[id].rules && rule.effect == Rules.Deny :: !Rules.RuleMatches(m, rule, n)
    ensures forall i | 0 <= i < |w.origins[id].rules| && Rules.HitAt(w.origins[id].rules, part, i) ::
      Rules.HitAnswered(m, w.rows[id].account, w.origins[id].rules, ApprovedObjects(w, id), part, i)
    ensures Rules.NameAnswered(m, w.rows[id].account, w.origins[id].rules, ApprovedObjects(w, id), part, n)
    ensures forall i | 0 <= i < |w.origins[id].rules| && Rules.HitAt(w.origins[id].rules, part, i) ::
      OwnApproved(w.rows[id].account, w.origins[id].rules[i], ApprovedObjects(w, id))
  {
    InvAlong(w0, events, w);
    var r, o := w.rows[id], w.origins[id];
    assert OriginGood(r, o);
    forall rule | rule in o.rules && rule.effect == Rules.Deny ensures !Rules.RuleMatches(m, rule, n) {
      Rules.DenyIsAirtight(m, o.rules, o.parts, rule, part, n);
    }
    var needed :| Rules.NeededFor(r.account, o.rules, o.parts, needed) && StoredFor(needed, r.stored)
      && r.auto == (needed == []);
    ActiveAnswers(w0, events, w, id, needed);
    Rules.ApprovedMeansEveryNameAnswered(m, r.account, o.rules, o.parts, needed, ApprovedObjects(w, id), part);
    forall i | 0 <= i < |o.rules| && Rules.HitAt(o.rules, part, i)
      ensures OwnApproved(r.account, o.rules[i], ApprovedObjects(w, id))
    {
      if o.rules[i].effect == Rules.RequireAlways {
        Rules.AlwaysNeedsItsOwn(m, r.account, o.rules, ApprovedObjects(w, id), part, i);
      }
    }
  }

  /** A require_always rule has an approval on its own object, or on the account's if it lists no approvers. */
  predicate OwnApproved(account: string, rule: Rules.Rule, approved: set<string>) {
    rule.effect == Rules.RequireAlways ==>
      match rule.approvers
      case None => "aws_account:" + account in approved
      case Some(_) => "aws_account:" + account + "/" + rule.name in approved
  }

  /** The same for one API call, read off the patterns themselves: an active request reaches no call that a
      deny rule reaches; every require_always rule that reaches it was approved by its own approvers; and the
      call is let through by an allow or require rule that reaches it, or by the account's approvers. */
  lemma ActiveCallsAreApproved(w0: World, events: seq<Event>, w: World, id: Id, part: Rules.Part, call: Concrete.Call)
    requires Initial(w0) && Reaches(w0, events, w) && id in w.rows && w.rows[id].status == Active && id in w.origins
    requires forall r | r in w.origins[id].rules :: Rules.WellFormed(r)
    requires part in w.origins[id].parts && Concrete.Proper(call) && Concrete.PartReaches(part, call)
    ensures forall rule | rule in w.origins[id].rules && Concrete.RuleReaches(rule, call) ::
      rule.effect != Rules.Deny && OwnApproved(w.rows[id].account, rule, ApprovedObjects(w, id))
    ensures
      || "aws_account:" + w.rows[id].account in ApprovedObjects(w, id)
      || exists rule | rule in w.origins[id].rules :: rule.effect != Rules.Deny && Concrete.RuleReaches(rule, call)
  {
    var n, o, r, approved := Concrete.NameOf(call), w.origins[id], w.rows[id], ApprovedObjects(w, id);
    Concrete.PartReachesExactly(part, call);
    ActiveReachesOnlyAnsweredNames(w0, events, w, id, Globs.Matches, part, n);
    ReachingRulesAreApproved(r.account, o.rules, approved, part, call);
    LetThrough(r.account, o.rules, approved, part, call);
  }

  lemma ReachingRulesAreApproved(account: string, rules: seq<Rules.Rule>, approved: set<string>, part: Rules.Part,
                                 call: Concrete.Call)
    requires Concrete.Proper(call) && Concrete.PartReaches(part, call)
    requires forall r | r in rules && r.effect == Rules.Deny ::
      !Rules.RuleMatches(Globs.Matches, r, Concrete.NameOf(call))
    requires forall i | 0 <= i < |rules| && Rules.HitAt(rules, part, i) :: OwnApproved(account, rules[i], approved)
    ensures forall rule | rule in rules && Concrete.RuleReaches(rule, call) ::
      rule.effect != Rules.Deny && OwnApproved(account, rule, approved)
  {
    forall rule | rule in rules && Concrete.RuleReaches(rule, call)
      ensures rule.effect != Rules.Deny && OwnApproved(account, rule, approved)
    {
      Concrete.RuleReachesExactly(rule, call);
      Concrete.ReachingRuleOverlaps(rule, part, call);
      var i :| 0 <= i < |rules| && rules[i] == rule;
      assert rule.effect == Rules.RequireAlways ==> Rules.HitAt(rules, part, i);
    }
  }

  lemma LetThrough(account: string, rules: seq<Rules.Rule>, approved: set<string>, part: Rules.Part,
                   call: Concrete.Call)
    requires Concrete.Proper(call)
    requires Rules.NameAnswered(Globs.Matches, account, rules, approved, part, Concrete.NameOf(call))
    ensures
      || "aws_account:" + account in approved
      || exists rule | rule in rules :: rule.effect != Rules.Deny && Concrete.RuleReaches(rule, call)
  {
    if !Rules.FallsToDefault(rules, part) {
      var k :| 0 <= k < |rules| && Rules.Admits(rules, part, k)
        && Rules.RuleMatches(Globs.Matches, rules[k], Concrete.NameOf(call));
      Concrete.RuleReachesExactly(rules[k], call);
      assert rules[k] in rules;
    }
  }
}
