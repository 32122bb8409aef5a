/** What one call changes and what it leaves alone, and that requests get through: a call cut at its awaits but
    not interrupted does what the whole call does, and willing approvers bring a request to life. */
module ApprovalProgress {
  import opened Wrappers
  import opened Approvals
  import opened ApprovalRuns
  import Rules

  // ----- what a call leaves alone --------------------------------------------

  /** Replaced by a newer request for the same conversation and account: what waited once that was filed,
      what was active once that is. */
  predicate GivesWay(r: Request, r': Request, conv: string, account: string, waiting: bool, active: bool) {
    && r.conv == conv && r.account == account && r' == r.(status := Superseded)
    && ((waiting && r.status in {Pending, Approved}) || (active && r.status == Active))
  }

  /** Whether and how a call may change a request other than the one it is about. */
  predicate MayTouch(rows: Table, c: Call, k: Id, r': Request)
    requires k in rows
  {
    match c
    case File(_, r, iam, _) => GivesWay(rows[k], r', r.conv, r.account, true, r.auto && iam == RoleMade)
    case ApproveCall(id, _, _, iam, _) =>
      id in rows && GivesWay(rows[k], r', rows[id].conv, rows[id].account, false, iam == RoleMade)
    case DenyCall(_, _, _) => false
    case RevokeCall(_, _, _) => false
    case SweepCall(now, torn, past) =>
      && (rows[k].status == Active || rows[k].status == Approved) && r' == rows[k].(status := Expired)
      && rows[k].roleExpires.Some? && rows[k].roleExpires.value <= now
      && (rows[k].hasRole ==> k in torn || k in past)
  }

  predicate About(c: Call, k: Id) {
    match c
    case File(id, _, _, _) => k == id
    case ApproveCall(id, _, _, _, _) => k == id
    case DenyCall(id, _, _) => k == id
    case RevokeCall(id, _, _) => k == id
    case SweepCall(_, _, _) => false
  }

  lemma FiledTouches(rows: Table, id: Id, r: Request, k: Id)
    requires id !in rows && k in rows
    ensures k in Filed(rows, id, r) && id in Filed(rows, id, r) && Filed(rows, id, r)[id] == r
    ensures Filed(rows, id, r)[k] ==
      if rows[k].conv == r.conv && rows[k].account == r.account && rows[k].status in {Pending, Approved}
      then rows[k].(status := Superseded) else rows[k]
  {}

  lemma ProvisionedTouches(rows: Table, id: Id, iam: Iam, expires: real, k: Id)
    requires id in rows && k in rows && k != id
    ensures Provisioned(rows, id, iam, expires)[k] ==
      if iam == RoleMade && rows[k].conv == rows[id].conv && rows[k].account == rows[id].account &&
         rows[k].status == Active
      then rows[k].(status := Superseded) else rows[k]
  {}

  /** No request vanishes, and one that a call is not about changes only by giving way to a newer request of its
      own conversation and account, or by its role running out. */
  lemma OthersAreLeftAlone(rows: Table, c: Call, k: Id)
    requires k in rows && !About(c, k)
    ensures k in Do(rows, c)
    ensures Do(rows, c)[k] == rows[k] || MayTouch(rows, c, k, Do(rows, c)[k])
    ensures c.SweepCall? ==> forall r' | MayTouch(rows, c, k, r') :: Do(rows, c)[k] == r'
  {
    match c
    case File(id, r, iam, expires) =>
      if id !in rows && r.status == Pending && r.approvals == [] {
        FiledTouches(rows, id, r, k);
        if r.auto { ProvisionedTouches(Filed(rows, id, r), id, iam, expires, k); }
      }
    case ApproveCall(id, approver, authz, iam, expires) =>
      if id in rows && Approve(rows[id], approver, authz).Good? {
        ProvisionedTouches(rows[id := Approve(rows[id], approver, authz).value], id, iam, expires, k);
      }
    case DenyCall(id, authz, deleted) =>
    case RevokeCall(id, conv, deleted) =>
    case SweepCall(now, torn, past) =>
  }

  /** Another conversation's request cannot be revoked, an unknown one neither. */
  lemma RevokeIsOnesOwn(rows: Table, id: Id, conv: string, deleted: bool)
    ensures id !in rows || rows[id].conv != conv ==> Do(rows, RevokeCall(id, conv, deleted)) == rows
    ensures id in rows && rows[id].conv == conv && deleted ==>
      Do(rows, RevokeCall(id, conv, deleted)) == rows[id := rows[id].(status := Revoked)]
  {}

  // ----- the whole call and its pieces ---------------------------------------

  lemma First(w: World, e: Event, w1: World, events: seq<Event>, w': World)
    requires Enabled(w, e) && w1 == Apply(w, e) && Reaches(w1, events, w')
    ensures Reaches(w, [e] + events, w')
  {
    assert ([e] + events)[1..] == events;
  }

  /** What is left of the list read at the start is what is left of all. */
  lemma LeftOfUnmet(before: seq<Approval>, after: seq<Approval>, owed: seq<Owed>)
    requires Done(before) <= Done(after)
    ensures Unmet(after, Unmet(before, owed)) == [] <==> Unmet(after, owed) == []
  {
    var some, all := Unmet(after, Unmet(before, owed)), Unmet(after, owed);
    assert forall o :: o in some <==> o in all;
    FirstIsIn(some);
    FirstIsIn(all);
  }

  /** The request as the whole call leaves it, but for its policy and role, which the pieces do not follow. */
  predicate SameProgress(r: Request, whole: Request) {
    r.status == whole.status && r.approvals == whole.approvals && SameNeeds(whole, r)
  }

  ghost predicate OnlyRow(w: World, id: Id, w': World) {
    && w'.rows.Keys == w.rows.Keys && w'.flights == w.flights
    && forall x | x in w.rows && x != id :: w'.rows[x] == w.rows[x]
  }

  /** What approving with these ids comes to. */
  function Recorded(r: Request, approver: string, ids: seq<nat>): Request {
    r.(approvals := r.approvals + [Approval(approver, ids)])
  }

  function StatusAfter(r: Request, iam: Iam): Status {
    if Unmet(r.approvals, Obligations(r)) != [] then r.status else if iam == RoleMade then Active else Errored
  }

  function Outcome(r: Request, approver: string, ids: Option<seq<nat>>, iam: Iam): Request {
    if ids.None? || ids.value == [] || approver in Approvers(r.approvals) then r
    else var r' := Recorded(r, approver, ids.value); r'.(status := StatusAfter(r', iam))
  }

  lemma WholeRow(rows: Table, id: Id, approver: string, authz: Authz, iam: Iam, expires: real)
    requires id in rows && rows[id].status == Pending
    ensures var ids := Eligible(Unmet(rows[id].approvals, Obligations(rows[id])), authz);
      SameProgress(Outcome(rows[id], approver, ids, iam), ApproveIn(rows, id, approver, authz, iam, expires)[id])
  {
    if Approve(rows[id], approver, authz).Good? {
      var r := Approve(rows[id], approver, authz).value;
      ProvisionedRow(rows[id := r], id, iam, expires);
    }
  }

  /** How far provisioning got is on record: a policy as soon as it is made, a role with its end only once the
      request is active. */
  lemma ProvisionedRow(rows: Table, id: Id, iam: Iam, expires: real)
    requires id in rows
    ensures var r, r' := rows[id], Provisioned(rows, id, iam, expires)[id];
      match iam
      case PolicyFailed => r' == r.(status := Errored)
      case RoleFailed => r' == r.(status := Errored, hasPolicy := r.hasPolicy || r.hasDocument)
      case RoleMade =>
        r' == r.(status := Active, hasPolicy := r.hasPolicy || r.hasDocument, hasRole := true,
                 roleExpires := Some(expires))
  {}

  /** An approve cut at its awaits, with nothing between, is the whole call. */
  lemma UninterruptedIsWhole(w: World, k: nat, id: Id, approver: string, authz: Authz, iam: Iam, expires: real)
    returns (events: seq<Event>, w': World)
    requires k !in w.flights && id in w.rows && w.rows[id].status == Pending
    ensures Reaches(w, events, w') && OnlyRow(w, id, w')
    ensures SameProgress(w'.rows[id], ApproveIn(w.rows, id, approver, authz, iam, expires)[id])
  {
    WholeRow(w.rows, id, approver, authz, iam, expires);
    var unmet := Unmet(w.rows[id].approvals, Obligations(w.rows[id]));
    var w1 := Step(w, k, Checking(id, approver, unmet));
    var more: seq<Event>;
    more, w' := FromCheck(w, w1, k, id, approver, authz, iam);
    First(w, Begin(k, id, approver), w1, more, w');
    events := [Begin(k, id, approver)] + more;
  }

  lemma FromCheck(w: World, w1: World, k: nat, id: Id, approver: string, authz: Authz, iam: Iam)
    returns (events: seq<Event>, w': World)
    requires k !in w.flights && id in w.rows
    requires w1 == Step(w, k, Checking(id, approver, Unmet(w.rows[id].approvals, Obligations(w.rows[id]))))
    ensures Reaches(w1, events, w') && OnlyRow(w, id, w')
    ensures var ids := Eligible(Unmet(w.rows[id].approvals, Obligations(w.rows[id])), authz);
      w'.rows[id] == Outcome(w.rows[id], approver, ids, iam)
  {
    var ids := Eligible(w1.flights[k].unmet, authz);
    var w2 := AfterCheck(w1, k, authz);
    if ids.None? || ids.value == [] {
      assert w2.flights == w.flights && Reaches(w2, [], w2);
      w' := w2;
      First(w1, Check(k, authz), w2, [], w');
      events := [Check(k, authz)] + [];
    } else {
      var more: seq<Event>;
      more, w' := FromAdd(w, w2, k, id, approver, ids.value, iam);
      First(w1, Check(k, authz), w2, more, w');
      events := [Check(k, authz)] + more;
    }
  }

  lemma FromAdd(w: World, w2: World, k: nat, id: Id, approver: string, ids: seq<nat>, iam: Iam)
    returns (events: seq<Event>, w': World)
    requires k !in w.flights && id in w.rows && k in w2.flights && w2.rows == w.rows
    requires w2.flights == w.flights[k := w2.flights[k]] && w2.flights[k].Adding? && w2.flights[k].id == id
    requires w2.flights[k].approver == approver && w2.flights[k].satisfied == ids
    requires w2.flights[k].unmet == Unmet(w.rows[id].approvals, Obligations(w.rows[id]))
    ensures Reaches(w2, events, w') && OnlyRow(w, id, w')
    ensures w'.rows[id] ==
      if approver in Approvers(w.rows[id].approvals) then w.rows[id]
      else var r := Recorded(w.rows[id], approver, ids); r.(status := StatusAfter(r, iam))
  {
    var w3 := AfterAdd(w2, k);
    var more: seq<Event>;
    if approver in Approvers(w.rows[id].approvals) {
      assert w3.flights == w.flights && Reaches(w3, [], w3);
      more, w' := [], w3;
    } else {
      more, w' := FromReread(w, w3, k, id, approver, ids, iam);
    }
    First(w2, Add(k), w3, more, w');
    events := [Add(k)] + more;
  }

  lemma RereadAgrees(r: Request, approver: string, ids: seq<nat>)
    ensures var r' := Recorded(r, approver, ids);
      Unmet(r'.approvals, Unmet(r.approvals, Obligations(r))) == [] <==> Unmet(r'.approvals, Obligations(r')) == []
  {
    var r' := Recorded(r, approver, ids);
    DoneGrows(r.approvals, Approval(approver, ids));
    LeftOfUnmet(r.approvals, r'.approvals, Obligations(r));
    assert Obligations(r') == Obligations(r);
  }

  lemma FromReread(w: World, w3: World, k: nat, id: Id, approver: string, ids: seq<nat>, iam: Iam)
    returns (events: seq<Event>, w': World)
    requires k !in w.flights && id in w.rows && w3.rows == w.rows[id := Recorded(w.rows[id], approver, ids)]
    requires w3.flights == w.flights[k := Rereading(id, Unmet(w.rows[id].approvals, Obligations(w.rows[id])))]
    ensures Reaches(w3, events, w') && OnlyRow(w, id, w')
    ensures var r := Recorded(w.rows[id], approver, ids); w'.rows[id] == r.(status := StatusAfter(r, iam))
  {
    var r := Recorded(w.rows[id], approver, ids);
    RereadAgrees(w.rows[id], approver, ids);
    var w4 := AfterReread(w3, k);
    var more: seq<Event>;
    if Unmet(r.approvals, Obligations(r)) != [] {
      assert w4.flights == w.flights && Reaches(w4, [], w4);
      more, w' := [], w4;
    } else {
      more, w' := FromFinish(w, w4, k, id, iam == RoleMade);
    }
    First(w3, Reread(k), w4, more, w');
    events := [Reread(k)] + more;
  }

  lemma FromFinish(w: World, w4: World, k: nat, id: Id, iamOk: bool) returns (events: seq<Event>, w': World)
    requires k !in w.flights && id in w.rows && id in w4.rows && w4.rows == w.rows[id := w4.rows[id]]
    requires w4.flights == w.flights[k := Provisioning(id)]
    ensures Reaches(w4, events, w') && OnlyRow(w, id, w')
    ensures w'.rows[id] == w4.rows[id].(status := if iamOk then Active else Errored)
  {
    w' := AfterFinish(w4, k, iamOk);
    assert w'.flights == w.flights && Reaches(w', [], w');
    First(w4, Finish(k, iamOk), w', [], w');
    events := [Finish(k, iamOk)] + [];
  }

  // ----- the right approvers suffice -----------------------------------------

  /** Somebody, and what the authorization service says of him. */
  datatype Person = Person(name: string, authz: Authz)

  /** Each approves in turn, and provisioning works. */
  function ApproveEach(rows: Table, id: Id, people: seq<Person>, expires: real): Table
    decreases |people|
  {
    if people == [] then rows
    else ApproveEach(ApproveIn(rows, id, people[0].name, people[0].authz, RoleMade, expires), id, people[1..], expires)
  }

  ghost predicate Reachable(authz: Authz) {
    forall x :: authz(x) != Failure
  }

  ghost predicate MaySatisfy(p: Person, o: Owed) {
    exists x | x in o.objects :: p.authz(x) == Allowed
  }

  lemma {:induction false} AskedFinds(objects: seq<string>, authz: Authz)
    requires Reachable(authz)
    ensures Ask(objects, authz) == Allowed <==> exists x | x in objects :: authz(x) == Allowed
    decreases |objects|
  {
    if objects != [] {
      AskedFinds(objects[1..], authz);
      assert objects == [objects[0]] + objects[1..];
    }
  }

  /** Of what is owed, the person satisfies exactly what he may. */
  lemma SatisfiesHisShare(unmet: seq<Owed>, p: Person)
    requires Reachable(p.authz)
    ensures Eligible(unmet, p.authz).Some?
    ensures forall o | o in unmet && MaySatisfy(p, o) :: o.id in Eligible(unmet, p.authz).value
  {
    forall o | o in unmet ensures Ask(o.objects, p.authz) == Allowed <==> MaySatisfy(p, o) {
      AskedFinds(o.objects, p.authz);
    }
    forall o | o in unmet ensures Ask(o.objects, p.authz) != Failure {
      AskedFinds(o.objects, p.authz);
    }
  }

  lemma {:induction false} SettledStays(rows: Table, id: Id, people: seq<Person>, expires: real)
    requires id in rows && rows[id].status != Pending
    ensures ApproveEach(rows, id, people, expires) == rows
    decreases |people|
  {
    if people != [] { SettledStays(rows, id, people[1..], expires); }
  }

  ghost predicate AllCanBeMet(r: Request, people: seq<Person>) {
    forall o | o in Unmet(r.approvals, Obligations(r)) :: exists i | 0 <= i < |people| :: MaySatisfy(people[i], o)
  }

  /** One person's turn: the request is active, or it still waits and those after him can meet the rest. */
  lemma OneTurn(rows: Table, id: Id, people: seq<Person>, expires: real)
    requires people != [] && id in rows && rows[id].status == Pending && Reachable(people[0].authz)
    requires Unmet(rows[id].approvals, Obligations(rows[id])) != [] && AllCanBeMet(rows[id], people)
    requires people[0].name !in Approvers(rows[id].approvals)
    ensures var rows' := ApproveIn(rows, id, people[0].name, people[0].authz, RoleMade, expires);
      && id in rows'
      && (rows'[id].status == Active ||
          (&& rows'[id].status == Pending && Unmet(rows'[id].approvals, Obligations(rows'[id])) != []
           && AllCanBeMet(rows'[id], people[1..])
           && Approvers(rows'[id].approvals) <= Approvers(rows[id].approvals) + {people[0].name}))
  {
    var r, p := rows[id], people[0];
    var unmet := Unmet(r.approvals, Obligations(r));
    SatisfiesHisShare(unmet, p);
    var ids := Eligible(unmet, p.authz).value;
    if ids == [] {
      forall o | o in unmet ensures exists i | 0 <= i < |people| - 1 :: MaySatisfy(people[1..][i], o) {
        LeftToOthers(people, o);
      }
    } else {
      var r' := Recorded(r, p.name, ids);
      DoneGrows(r.approvals, Approval(p.name, ids));
      var unmet' := Unmet(r'.approvals, Obligations(r'));
      forall o | o in unmet' ensures exists i | 0 <= i < |people| - 1 :: MaySatisfy(people[1..][i], o) {
        assert o in unmet;
        LeftToOthers(people, o);
      }
    }
  }

  lemma LeftToOthers(people: seq<Person>, o: Owed)
    requires people != [] && !MaySatisfy(people[0], o) && exists i | 0 <= i < |people| :: MaySatisfy(people[i], o)
    ensures exists i | 0 <= i < |people| - 1 :: MaySatisfy(people[1..][i], o)
  {
    var i :| 0 <= i < |people| && MaySatisfy(people[i], o);
    assert people[1..][i - 1] == people[i];
  }

  ghost predicate Distinct(people: seq<Person>) {
    forall i, j | 0 <= i < j < |people| :: people[i].name != people[j].name
  }

  /** A pending request becomes active once people who between them may satisfy all that is unmet have each
      approved, in any order, none of them twice. */
  lemma {:induction false} RightApproversSuffice(rows: Table, id: Id, people: seq<Person>, expires: real)
    requires id in rows && rows[id].status == Pending && Unmet(rows[id].approvals, Obligations(rows[id])) != []
    requires AllCanBeMet(rows[id], people) && Distinct(people)
    requires forall i | 0 <= i < |people| ::
      Reachable(people[i].authz) && people[i].name !in Approvers(rows[id].approvals)
    ensures var out := ApproveEach(rows, id, people, expires); id in out && out[id].status == Active
    decreases |people|
  {
    assert Unmet(rows[id].approvals, Obligations(rows[id]))[0] in Unmet(rows[id].approvals, Obligations(rows[id]));
    OneTurn(rows, id, people, expires);
    var rows' := ApproveIn(rows, id, people[0].name, people[0].authz, RoleMade, expires);
    if rows'[id].status == Active {
      SettledStays(rows', id, people[1..], expires);
    } else {
      RightApproversSuffice(rows', id, people[1..], expires);
    }
  }

  /** A request from before obligations were stored takes one approval on its account, by anyone allowed there. */
  lemma LegacyNeedsTheAccount(r: Request, approver: string, authz: Authz)
    requires r.stored == None && r.approvals == [] && r.status == Pending
    ensures Approve(r, approver, authz).Good? <==> authz("aws_account:" + r.account) == Allowed
    ensures Approve(r, approver, authz).Good? ==>
      var r' := Approve(r, approver, authz).value; Unmet(r'.approvals, Obligations(r')) == []
  {
    var whole := "aws_account:" + r.account;
    var owed := Obligations(r);
    assert owed == [Owed(0, [whole])] && Unmet(r.approvals, owed) == owed;
    assert [whole][1..] == [] && owed[..0] == [];
    assert Ask([whole], authz) == authz(whole);
    assert Eligible(owed[..0], authz) == Some([]);
    if authz(whole) == Allowed {
      assert [] + [0] == [0] && Eligible(owed, authz) == Some([0]);
      DoneGrows(r.approvals, Approval(approver, [0]));
      assert 0 in [0] && Approve(r, approver, authz).value == Recorded(r, approver, [0]);
      FirstIsIn(Unmet(Recorded(r, approver, [0]).approvals, owed));
    }
  }
}
