/** The life of an AWS permission request: filed with the approvals it needs, approved piece by piece,
    provisioned, superseded, denied, revoked or expired.  One live request per conversation and account. */
module Approvals {
  import opened Wrappers
  import Rules

  type Id = string

  datatype Status = Pending | Approved | Active | Expired | Denied | Revoked | Superseded | Errored

  /** A stored obligation: an id and the objects on which an approver may satisfy it, in stored order. */
  datatype Owed = Owed(id: nat, objects: seq<string>)

  datatype Approval = Approval(approver: string, obligations: seq<nat>)

  /** `auto`: the request needed no approval when it was filed. */
  datatype Request = Request(
    conv: string,
    account: string,
    status: Status,
    stored: Option<seq<Owed>>,
    approvals: seq<Approval>,
    auto: bool,
    hasDocument: bool,
    hasPolicy: bool,
    hasRole: bool,
    roleExpires: Option<real>)

  type Table = map<Id, Request>

  // ----- obligations and who may satisfy them --------------------------------

  /** Stored obligations; a row without any needs one account approval. */
  function Obligations(r: Request): seq<Owed> {
    match r.stored
    case Some(owed) => owed
    case None => [Owed(0, [Rules.AccountObject(r.account)])]
  }

  function Done(approvals: seq<Approval>): set<nat> {
    set a, i | a in approvals && i in a.obligations :: i
  }

  function Unmet(approvals: seq<Approval>, owed: seq<Owed>): (u: seq<Owed>)
    ensures forall o :: o in u <==> o in owed && o.id !in Done(approvals)
    ensures |u| <= |owed|
  {
    if owed == [] then [] else
      assert owed == [owed[0]] + owed[1..];
      if owed[0].id in Done(approvals) then Unmet(approvals, owed[1..])
      else [owed[0]] + Unmet(approvals, owed[1..])
  }

  /** What the authorization service says of the approver on one object. */
  datatype Answer = Allowed | NotAllowed | Failure

  type Authz = string -> Answer

  /** Objects are asked in order until one is allowed; an error propagates. */
  function Ask(objects: seq<string>, authz: Authz): (a: Answer)
    ensures a == Allowed ==> exists o | o in objects :: authz(o) == Allowed
    ensures a == NotAllowed <==> forall o | o in objects :: authz(o) == NotAllowed
  {
    if objects == [] then NotAllowed
    else
      assert objects == [objects[0]] + objects[1..];
      if authz(objects[0]) == NotAllowed then Ask(objects[1..], authz) else authz(objects[0])
  }

  /** The object at which asking stops with a yes, if it does; later ones are never asked. */
  function AllowedOn(objects: seq<string>, authz: Authz): (heard: set<string>)
    ensures forall x | x in heard :: x in objects && authz(x) == Allowed
    ensures heard != {} <==> Ask(objects, authz) == Allowed
  {
    if objects == [] then {}
    else if authz(objects[0]) == NotAllowed then AllowedOn(objects[1..], authz)
    else if authz(objects[0]) == Allowed then {objects[0]}
    else {}
  }

  /** The ids the approver may satisfy, or nothing if a check failed. */
  function Eligible(owed: seq<Owed>, authz: Authz): (r: Option<seq<nat>>)
    ensures r.Some? ==> forall i ::
      i in r.value <==> exists o | o in owed :: o.id == i && Ask(o.objects, authz) == Allowed
    ensures r.None? <==> exists o | o in owed :: Ask(o.objects, authz) == Failure
  {
    if owed == [] then Some([]) else
      var init, last := owed[..|owed| - 1], owed[|owed| - 1];
      assert owed == init + [last];
      match Eligible(init, authz)
      case None => None
      case Some(ids) =>
        match Ask(last.objects, authz)
        case Allowed => Some(ids + [last.id])
        case NotAllowed => Some(ids)
        case Failure => None
  }

  function Approvers(approvals: seq<Approval>): set<string> {
    set a | a in approvals :: a.approver
  }

  // ----- approving -----------------------------------------------------------

  datatype Refusal = Unknown | NotPending | CheckFailed | NotAuthorized | AlreadyApproved | Blocked | Duplicate |
      NotTornDown | NotProvisioned

  /** What an approval does to the request: recorded, or refused for a reason. */
  function Approve(r: Request, approver: string, authz: Authz): (out: Result<Request, Refusal>) {
    if r.status != Pending then Bad(NotPending)
    else match Eligible(Unmet(r.approvals, Obligations(r)), authz)
      case None => Bad(CheckFailed)
      case Some(ids) =>
        if ids == [] then Bad(NotAuthorized)
        else if approver in Approvers(r.approvals) then Bad(AlreadyApproved)
        else Good(r.(approvals := r.approvals + [Approval(approver, ids)]))
  }

  function CanApprove(r: Request, approver: string, authz: Authz): bool {
    && approver !in Approvers(r.approvals)
    && var ids := Eligible(Unmet(r.approvals, Obligations(r)), authz); ids.Some? && ids.value != []
  }

  /** Approving is accepted if and only if the request is pending and `can_approve` holds. */
  lemma ApproveAccepts(r: Request, approver: string, authz: Authz)
    ensures Approve(r, approver, authz).Good? <==> r.status == Pending && CanApprove(r, approver, authz)
  {}

  ghost predicate Agree(r: Request) {
    forall approver: string, authz: Authz ::
      Approve(r, approver, authz).Good? <==> CanApprove(r, approver, authz)
  }

  /** Something is unmet that somebody could be asked about. */
  predicate Askable(r: Request) {
    exists o | o in Unmet(r.approvals, Obligations(r)) :: o.objects != []
  }

  /** `can_approve` foretells `approve`, whoever asks and whatever the authorization service says,
      exactly on pending requests and on those with nothing left to ask about. */
  lemma CanApproveAgrees(r: Request)
    ensures Agree(r) <==> r.status == Pending || !Askable(r)
  {
    var unmet := Unmet(r.approvals, Obligations(r));
    if r.status != Pending && Askable(r) {
      var o :| o in unmet && o.objects != [];
      var yes: Authz := (x: string) => Allowed;
      var approver := Stranger(r.approvals);
      assert Ask(o.objects, yes) == Allowed;
      forall x | x in unmet ensures Ask(x.objects, yes) != Failure {}
      assert o.id in Eligible(unmet, yes).value;
      assert CanApprove(r, approver, yes) && Approve(r, approver, yes) == Bad(NotPending);
    } else {
      forall approver: string, authz: Authz
        ensures Approve(r, approver, authz).Good? <==> CanApprove(r, approver, authz)
      {
        if r.status != Pending { NobodyToAsk(unmet, authz); }
      }
    }
  }

  /** With no objects to ask about, nobody is eligible. */
  lemma {:induction false} NobodyToAsk(unmet: seq<Owed>, authz: Authz)
    requires forall o | o in unmet :: o.objects == []
    ensures Eligible(unmet, authz) == Some([])
    decreases |unmet|
  {
    if unmet != [] { NobodyToAsk(unmet[..|unmet| - 1], authz); }
  }

  /** A name no recorded approver has: longer than all of them. */
  lemma Stranger(approvals: seq<Approval>) returns (name: string)
    ensures name !in Approvers(approvals)
  {
    name := "a";
    for i := 0 to |approvals|
      invariant |name| >= 1 && forall j | 0 <= j < i :: |approvals[j].approver| < |name|
    {
      name := name + approvals[i].approver;
    }
    forall a | a in approvals ensures a.approver != name {}
  }

  /** On a settled request it may still say yes where `approve` would refuse. */
  lemma CanApproveOverpromises()
    ensures exists r: Request, approver: string, authz: Authz ::
      CanApprove(r, approver, authz) && Approve(r, approver, authz) == Bad(NotPending)
  {
    var r := Request("c", "dev", Denied, None, [], false, true, false, false, None);
    var yes: Authz := (o: string) => Allowed;
    var owed := Obligations(r);
    assert Unmet(r.approvals, owed) == owed;
    assert owed[..0] == [] && Eligible(owed[..0], yes) == Some([]) && Ask(owed[0].objects, yes) == Allowed;
    assert [] + [0] == [0];
    assert Eligible(owed, yes) == Some([0]);
    assert CanApprove(r, "ann", yes);
  }

  lemma DoneGrows(approvals: seq<Approval>, a: Approval)
    ensures Done(approvals + [a]) == Done(approvals) + set i | i in a.obligations
  {
    forall i | i in a.obligations ensures i in Done(approvals + [a]) { assert a in approvals + [a]; }
    forall i | i in Done(approvals) ensures i in Done(approvals + [a]) {
      var b :| b in approvals && i in b.obligations;
      assert b in approvals + [a];
    }
  }

  lemma {:induction false} UnmetShrinks(before: seq<Approval>, after: seq<Approval>, owed: seq<Owed>)
    requires Done(before) <= Done(after)
    ensures |Unmet(after, owed)| <= |Unmet(before, owed)|
    ensures (exists o | o in owed :: o.id !in Done(before) && o.id in Done(after)) ==>
      |Unmet(after, owed)| < |Unmet(before, owed)|
    decreases |owed|
  {
    if owed != [] {
      UnmetShrinks(before, after, owed[1..]);
      assert owed == [owed[0]] + owed[1..];
    }
  }

  /** An accepted approval satisfies something still owed, and nothing becomes owed again. */
  lemma ApprovalShrinksUnmet(r: Request, approver: string, authz: Authz)
    requires Approve(r, approver, authz).Good?
    ensures var r' := Approve(r, approver, authz).value;
      && |Unmet(r'.approvals, Obligations(r'))| < |Unmet(r.approvals, Obligations(r))|
      && approver !in Approvers(r.approvals) && r'.status == Pending
  {
    var owed := Obligations(r);
    var unmet := Unmet(r.approvals, owed);
    var ids := Eligible(unmet, authz).value;
    DoneGrows(r.approvals, Approval(approver, ids));
    assert ids[0] in ids;
    var o :| o in unmet && o.id == ids[0] && Ask(o.objects, authz) == Allowed;
    UnmetShrinks(r.approvals, r.approvals + [Approval(approver, ids)], owed);
  }

  // ----- what every row keeps ------------------------------------------------

  /** Never more approvals than obligations they answered; active only with none unmet. */
  ghost predicate RowInv(r: Request) {
    && |r.approvals| + |Unmet(r.approvals, Obligations(r))| <= |Obligations(r)|
    && (forall i, j | 0 <= i < j < |r.approvals| :: r.approvals[i].approver != r.approvals[j].approver)
    && (r.status == Active ==> r.auto || Unmet(r.approvals, Obligations(r)) == [])
  }

  lemma ApproveKeepsRow(r: Request, approver: string, authz: Authz)
    requires RowInv(r) && Approve(r, approver, authz).Good?
    ensures RowInv(Approve(r, approver, authz).value)
  {
    ApprovalShrinksUnmet(r, approver, authz);
    forall i | 0 <= i < |r.approvals| ensures r.approvals[i].approver != approver {
      assert r.approvals[i] in r.approvals;
    }
  }

  predicate Siblings(a: Request, b: Request) {
    a.conv == b.conv && a.account == b.account
  }

  predicate Waiting(s: Status) {
    s == Pending || s == Approved
  }

  /** Both waiting, or both active, for the same conversation and account. */
  predicate Clash(a: Request, b: Request) {
    Siblings(a, b) && ((Waiting(a.status) && Waiting(b.status)) || (a.status == Active && b.status == Active))
  }

  /** At most one waiting and one active request per conversation and account. */
  ghost predicate OneLive(rows: Table) {
    forall a, b | a in rows && b in rows && a != b :: !Clash(rows[a], rows[b])
  }

  /** The request is as live as it was, or not live at all. */
  predicate NoLivelier(r: Request, r': Request) {
    Siblings(r, r') && (r'.status == r.status || (!Waiting(r'.status) && r'.status != Active))
  }

  ghost predicate TableInv(rows: Table) {
    OneLive(rows) && forall id | id in rows :: RowInv(rows[id])
  }

  // ----- the operations on the table -----------------------------------------

  predicate Replaced(s: Status, active: bool) {
    if active then s == Active else Waiting(s)
  }

  /** Every sibling of `id` in the given state becomes superseded. */
  function SupersedeSiblings(rows: Table, id: Id, active: bool): (out: Table)
    requires id in rows
    ensures out.Keys == rows.Keys && out[id] == rows[id]
    ensures forall k | k in rows && k != id :: out[k] == AfterSibling(rows[k], rows[id], active)
  {
    map k | k in rows :: if k != id then AfterSibling(rows[k], rows[id], active) else rows[k]
  }

  function AfterSibling(r: Request, newer: Request, active: bool): Request {
    if Siblings(r, newer) && Replaced(r.status, active) then r.(status := Superseded) else r
  }

  function Filed(rows: Table, id: Id, r: Request): Table {
    SupersedeSiblings(rows[id := r], id, false)
  }

  /** How far provisioning got: all the way, or only to the policy, or not even that. */
  datatype Iam = RoleMade | RoleFailed | PolicyFailed

  /** A policy is made only for a document that has none yet, and its row says so before the role is tried. */
  predicate HasPolicyAfter(r: Request, iam: Iam) {
    r.hasPolicy || (r.hasDocument && iam != PolicyFailed)
  }

  function WithPolicy(rows: Table, id: Id, iam: Iam): Table
    requires id in rows
  {
    rows[id := rows[id].(hasPolicy := HasPolicyAfter(rows[id], iam))]
  }

  function Activated(rows: Table, id: Id, expires: real): (out: Table)
    requires id in rows
    ensures out.Keys == rows.Keys
    ensures out[id] == rows[id].(status := Active, hasRole := true, roleExpires := Some(expires))
    ensures forall k | k in rows && k != id :: out[k] == AfterSibling(rows[k], rows[id], true)
  {
    SupersedeSiblings(rows[id := rows[id].(status := Active, hasRole := true, roleExpires := Some(expires))], id, true)
  }

  /** Provisioning makes the request active and tears down its active siblings, or marks it errored. */
  function Provisioned(rows: Table, id: Id, iam: Iam, expires: real): (out: Table)
    requires id in rows
    ensures out.Keys == rows.Keys
  {
    var stored := WithPolicy(rows, id, iam);
    if iam == RoleMade then Activated(stored, id, expires) else stored[id := stored[id].(status := Errored)]
  }

  /** Approve one request of the table, and provision it once nothing is unmet. */
  function ApproveIn(rows: Table, id: Id, approver: string, authz: Authz, iam: Iam, expires: real): Table {
    if id !in rows then rows
    else match Approve(rows[id], approver, authz)
      case Bad(_) => rows
      case Good(r) =>
        if Unmet(r.approvals, Obligations(r)) == [] then Provisioned(rows[id := r], id, iam, expires) else rows[id := r]
  }

  /** Filing supersedes what waits, and provisions at once if nothing is needed. */
  function FileIn(rows: Table, id: Id, r: Request, iam: Iam, expires: real): Table {
    if id in rows || r.status != Pending || r.approvals != [] then rows
    else if r.auto then Provisioned(Filed(rows, id, r), id, iam, expires)
    else Filed(rows, id, r)
  }

  predicate DenyAccepted(rows: Table, id: Id, authz: Authz, deleted: bool) {
    && id in rows && (var ids := Eligible(Obligations(rows[id]), authz); ids.Some? && ids.value != [])
    && (rows[id].hasPolicy ==> deleted)
  }

  function DenyIn(rows: Table, id: Id, authz: Authz, deleted: bool): Table {
    if DenyAccepted(rows, id, authz, deleted) then rows[id := rows[id].(status := Denied)] else rows
  }

  predicate RevokeAccepted(rows: Table, id: Id, conv: string, deleted: bool) {
    id in rows && rows[id].conv == conv && (rows[id].hasRole || rows[id].hasPolicy ==> deleted)
  }

  function RevokeIn(rows: Table, id: Id, conv: string, deleted: bool): Table {
    if RevokeAccepted(rows, id, conv, deleted) then rows[id := rows[id].(status := Revoked)] else rows
  }

  predicate Lapsed(r: Request, now: real) {
    (r.status == Active || r.status == Approved) && r.roleExpires.Some? && r.roleExpires.value <= now
  }

  /** A lapsed request expires if it was torn down, had no role, or is past the grace period. */
  function Swept(rows: Table, now: real, torn: set<Id>, past: set<Id>): (out: Table)
    ensures out.Keys == rows.Keys
    ensures forall id | id in rows :: out[id] == AfterSweep(rows[id], now, id in torn || id in past)
  {
    map id | id in rows :: AfterSweep(rows[id], now, id in torn || id in past)
  }

  function AfterSweep(r: Request, now: real, gone: bool): Request {
    if Goes(r, now, gone) then r.(status := Expired) else r
  }

  predicate Goes(r: Request, now: real, gone: bool) {
    Lapsed(r, now) && (!r.hasRole || gone)
  }

  // ----- what they keep ------------------------------------------------------

  /** The newly filed request is the only one waiting. */
  lemma FiledOneLive(rows: Table, out: Table, id: Id)
    requires OneLive(rows) && id !in rows && out.Keys == rows.Keys + {id} && out[id].status == Pending
    requires forall k | k in rows ::
      NoLivelier(rows[k], out[k]) && !(Siblings(out[k], out[id]) && Waiting(out[k].status))
    ensures OneLive(out)
  {
    forall a, b | a in out && b in out && a != b ensures !Clash(out[a], out[b]) {
      if a != id && b != id { assert !Clash(rows[a], rows[b]); }
    }
  }

  lemma FiledKeeps(rows: Table, id: Id, r: Request)
    requires TableInv(rows) && id !in rows && r.status == Pending && r.approvals == []
    ensures TableInv(Filed(rows, id, r))
  {
    NothingDoneYet(Obligations(r));
    var out := Filed(rows, id, r);
    assert out[id] == r;
    forall k | k in rows
      ensures RowInv(out[k]) && NoLivelier(rows[k], out[k]) && !(Siblings(out[k], r) && Waiting(out[k].status))
    {
      assert RowInv(rows[k]) && out[k] == AfterSibling(rows[k], r, false);
      StatusKeepsRow(rows[k], out[k]);
    }
    FiledOneLive(rows, out, id);
  }

  lemma {:induction false} NothingDoneYet(owed: seq<Owed>)
    ensures Unmet([], owed) == owed
  {
    assert Done([]) == {};
    if owed != [] { NothingDoneYet(owed[1..]); }
  }

  /** A change that makes no request active keeps the row's promises. */
  lemma StatusKeepsRow(r: Request, r': Request)
    requires RowInv(r) && r'.stored == r.stored && r'.approvals == r.approvals && r'.auto == r.auto &&
      r'.account == r.account
    requires r'.status == Active ==> r.status == Active || r.auto || Unmet(r.approvals, Obligations(r)) == []
    ensures RowInv(r')
  {
    assert Obligations(r') == Obligations(r);
  }

  /** The newly active request is the only one. */
  lemma ActivatedOneLive(rows: Table, out: Table, id: Id)
    requires OneLive(rows) && id in rows && out.Keys == rows.Keys && out[id].status == Active
    requires forall k | k in rows && k != id ::
      NoLivelier(rows[k], out[k]) && !(Siblings(out[k], out[id]) && out[k].status == Active)
    ensures OneLive(out)
  {
    forall a, b | a in out && b in out && a != b ensures !Clash(out[a], out[b]) {
      if a != id && b != id { assert !Clash(rows[a], rows[b]); }
    }
  }

  lemma ActivatedKeeps(rows: Table, id: Id, expires: real)
    requires TableInv(rows) && id in rows && (rows[id].auto || Unmet(rows[id].approvals, Obligations(rows[id])) == [])
    ensures TableInv(Activated(rows, id, expires))
  {
    var out := Activated(rows, id, expires);
    forall k | k in rows && k != id
      ensures RowInv(out[k]) && NoLivelier(rows[k], out[k]) && !(Siblings(out[k], out[id]) && out[k].status == Active)
    {
      assert RowInv(rows[k]) && out[k] == AfterSibling(rows[k], rows[id], true);
      StatusKeepsRow(rows[k], out[k]);
    }
    ActivatedOneLive(rows, out, id);
    StatusKeepsRow(rows[id], out[id]);
  }

  lemma PolicyKeeps(rows: Table, id: Id, iam: Iam)
    requires TableInv(rows) && id in rows
    ensures TableInv(WithPolicy(rows, id, iam))
  {
    var r := rows[id].(hasPolicy := HasPolicyAfter(rows[id], iam));
    StatusKeepsRow(rows[id], r);
    RecordKeeps(rows, id, r);
  }

  lemma ProvisionedKeeps(rows: Table, id: Id, iam: Iam, expires: real)
    requires TableInv(rows) && id in rows && (rows[id].auto || Unmet(rows[id].approvals, Obligations(rows[id])) == [])
    ensures TableInv(Provisioned(rows, id, iam, expires))
  {
    var stored := WithPolicy(rows, id, iam);
    PolicyKeeps(rows, id, iam);
    assert Obligations(stored[id]) == Obligations(rows[id]);
    if iam == RoleMade {
      ActivatedKeeps(stored, id, expires);
    } else {
      SettlingKeeps(stored, stored[id := stored[id].(status := Errored)]);
    }
  }

  lemma ApproveInKeeps(rows: Table, id: Id, approver: string, authz: Authz, iam: Iam, expires: real)
    requires TableInv(rows)
    ensures TableInv(ApproveIn(rows, id, approver, authz, iam, expires))
  {
    if id in rows && Approve(rows[id], approver, authz).Good? {
      var r := Approve(rows[id], approver, authz).value;
      ApproveKeepsRow(rows[id], approver, authz);
      RecordKeeps(rows, id, r);
      if Unmet(r.approvals, Obligations(r)) == [] { ProvisionedKeeps(rows[id := r], id, iam, expires); }
    }
  }

  lemma RecordKeeps(rows: Table, id: Id, r: Request)
    requires TableInv(rows) && id in rows && RowInv(r) && NoLivelier(rows[id], r)
    ensures TableInv(rows[id := r])
  {
    NoneLivelier(rows, rows[id := r]);
  }

  lemma NoneLivelier(rows: Table, rows': Table)
    requires OneLive(rows) && rows'.Keys == rows.Keys && forall k | k in rows :: NoLivelier(rows[k], rows'[k])
    ensures OneLive(rows')
  {
    forall a, b | a in rows' && b in rows' && a != b ensures !Clash(rows'[a], rows'[b]) {
      assert !Clash(rows[a], rows[b]);
    }
  }

  /** Requests may leave the live states in any number at once. */
  lemma SettlingKeeps(rows: Table, rows': Table)
    requires TableInv(rows) && rows'.Keys == rows.Keys
    requires forall id | id in rows :: rows'[id] == rows[id] || Settled(rows[id], rows'[id])
    ensures TableInv(rows')
  {
    forall k | k in rows ensures RowInv(rows'[k]) && NoLivelier(rows[k], rows'[k]) {
      assert RowInv(rows[k]);
      StatusKeepsRow(rows[k], rows'[k]);
    }
    NoneLivelier(rows, rows');
  }

  lemma SettledOne(rows: Table, id: Id, status: Status)
    requires TableInv(rows) && id in rows && !Waiting(status) && status != Active
    ensures TableInv(rows[id := rows[id].(status := status)])
  {
    SettlingKeeps(rows, rows[id := rows[id].(status := status)]);
  }

  predicate Settled(r: Request, r': Request) {
    !Waiting(r'.status) && r'.status != Active && r' == r.(status := r'.status)
  }

  /** Access is handed over without a gap: the older grant works until the newer one does, and goes
      on working if the newer one cannot be provisioned. */
  lemma AccessIsHandedOver(rows: Table, older: Id, id: Id, r: Request, iam: Iam, expires: real)
    requires older in rows && rows[older].status == Active && id !in rows && Siblings(rows[older], r) &&
      r.status == Pending
    ensures Filed(rows, id, r)[older] == rows[older]
    ensures var out := Provisioned(Filed(rows, id, r), id, iam, expires);
      if iam == RoleMade then out[id].status == Active && out[older].status == Superseded
      else out[id].status == Errored && out[older] == rows[older]
  {
    var filed := Filed(rows, id, r);
    assert filed[older] == AfterSibling(rows[older], r, false) && filed[id] == r;
    ProvisioningReplaces(filed, older, id, iam, expires);
  }

  lemma ProvisioningReplaces(rows: Table, older: Id, id: Id, iam: Iam, expires: real)
    requires older in rows && id in rows && older != id && Siblings(rows[older], rows[id]) &&
      rows[older].status == Active
    ensures var out := Provisioned(rows, id, iam, expires);
      if iam == RoleMade then out[id].status == Active && out[older].status == Superseded
      else out[id].status == Errored && out[older] == rows[older]
  {
    if iam == RoleMade {
      var out := Provisioned(rows, id, iam, expires);
      assert out[older] == AfterSibling(rows[older], out[id], true);
    }
  }

  /** Once a policy exists for a request that failed or settled, nothing but deleting it lets a deny
      or a revoke through. */
  lemma PolicyIsTornDown(rows: Table, id: Id, iam: Iam, expires: real, authz: Authz, conv: string)
    requires id in rows && rows[id].hasDocument && iam == RoleFailed
    ensures var out := Provisioned(rows, id, iam, expires);
      out[id].hasPolicy && !DenyAccepted(out, id, authz, false) && !RevokeAccepted(out, id, conv, false)
  {}

  // ----- filing --------------------------------------------------------------

  /** The stored form of what the rules ask for: nothing at all if they ask for nothing. */
  ghost predicate StoredFor(needed: seq<Rules.Obligation>, stored: Option<seq<Owed>>) {
    if needed == [] then stored == None
    else stored.Some? && |stored.value| == |needed| && forall i | 0 <= i < |needed| ::
      Stores(needed[i], stored.value[i])
  }

  ghost predicate Stores(o: Rules.Obligation, owed: Owed) {
    owed.id == o.id && (set x | x in owed.objects) == o.objects
  }

  /** A fresh request over these parts, with the approvals the account's rules ask for. */
  ghost predicate FiledFor(r: Request, rules: seq<Rules.Rule>, parts: seq<Rules.Part>) {
    && r.status == Pending && r.approvals == [] && Rules.DenialsOf(rules, parts) == []
    && exists needed ::
      Rules.NeededFor(r.account, rules, parts, needed) && StoredFor(needed, r.stored) && r.auto == (needed == [])
  }

  method Store(needed: seq<Rules.Obligation>) returns (stored: Option<seq<Owed>>)
    ensures StoredFor(needed, stored)
  {
    if needed == [] { return None; }
    var owed := [];
    for i := 0 to |needed|
      invariant |owed| == i && forall j | 0 <= j < i :: Stores(needed[j], owed[j])
    {
      var objects := ListOf(needed[i].objects);
      owed := owed + [Owed(needed[i].id, objects)];
    }
    stored := Some(owed);
  }

  method ListOf(s: set<string>) returns (list: seq<string>)
    ensures (set x | x in list) == s
  {
    list := [];
    var todo := s;
    while todo != {}
      invariant todo <= s && (set x | x in list) == s - todo
      decreases |todo|
    {
      var x :| x in todo;
      todo := todo - {x};
      assert (set y | y in list + [x]) == (set y | y in list) + {x};
      list := list + [x];
    }
  }

  /** The broker's service over its table; each call is taken whole. */
  class PermissionService {
    var rows: Table

    ghost predicate Valid() reads this {
      TableInv(rows)
    }

    constructor ()
      ensures Valid() && rows == map[]
    {
      rows := map[];
    }

    /** File a request, supersede the ones waiting, and provision at once if nothing is needed. */
    method RequestAccess(id: Id, conv: string, account: string, rules: seq<Rules.Rule>, parts: seq<Rules.Part>,
                         otherErrors: seq<string>, hasDocument: bool, iam: Iam, expires: real)
      returns (out: Result<Status, Refusal>)
      requires Valid()
      modifies this
      ensures Valid()
      ensures out == Bad(Blocked) <==> otherErrors != [] || Rules.DenialsOf(rules, parts) != []
      ensures out.Bad? && out.error != NotProvisioned ==> rows == old(rows)
      ensures out.Good? || out == Bad(NotProvisioned) ==> id !in old(rows) && exists r ::
        && FiledFor(r, rules, parts) && r.conv == conv && r.account == account
        && rows == FileIn(old(rows), id, r, iam, expires)
      ensures out.Good? ==> out.value == rows[id].status
    {
      var errors := Rules.Denials(rules, parts);
      if otherErrors + errors != [] { return Bad(Blocked); }
      var needed := Rules.Obligations(account, rules, parts);
      if id in rows { return Bad(Duplicate); }
      var stored := Store(needed);
      var r := Request(conv, account, Pending, stored, [], needed == [], hasDocument, false, false, None);
      assert FiledFor(r, rules, parts);
      FiledKeeps(rows, id, r);
      rows := rows[id := r];
      SupersedeEach(id, false);
      if needed == [] {
        var ok := Provision(id, iam, expires);
        if !ok { return Bad(NotProvisioned); }
      }
      out := Good(rows[id].status);
    }

    /** `_supersede_*`: a loop over the siblings. */
    method SupersedeEach(id: Id, active: bool)
      requires id in rows
      modifies this
      ensures rows == SupersedeSiblings(old(rows), id, active)
    {
      var todo, was := rows.Keys - {id}, rows;
      while todo != {}
        invariant todo <= was.Keys - {id} && rows.Keys == was.Keys && rows[id] == was[id]
        invariant forall k | k in was && k != id ::
          rows[k] == if k in todo then was[k] else AfterSibling(was[k], was[id], active)
        decreases |todo|
      {
        var k :| k in todo;
        todo := todo - {k};
        if Siblings(rows[k], rows[id]) && Replaced(rows[k].status, active) {
          rows := rows[k := rows[k].(status := Superseded)];
        }
      }
      assert rows == SupersedeSiblings(was, id, active);
    }

    method Provision(id: Id, iam: Iam, expires: real) returns (ok: bool)
      requires Valid() && id in rows && (rows[id].auto || Unmet(rows[id].approvals, Obligations(rows[id])) == [])
      modifies this
      ensures Valid() && rows == Provisioned(old(rows), id, iam, expires) && ok == (iam == RoleMade)
    {
      ProvisionedKeeps(rows, id, iam, expires);
      StorePolicy(id, iam);
      ok := iam == RoleMade;
      if ok {
        Activate(id, expires);
      } else {
        rows := rows[id := rows[id].(status := Errored)];
      }
    }

    /** The policy's name is stored before the role is tried. */
    method StorePolicy(id: Id, iam: Iam)
      requires id in rows
      modifies this
      ensures rows == WithPolicy(old(rows), id, iam)
    {
      if !rows[id].hasPolicy && rows[id].hasDocument && iam != PolicyFailed {
        rows := rows[id := rows[id].(hasPolicy := true)];
      }
    }

    method Activate(id: Id, expires: real)
      requires id in rows
      modifies this
      ensures rows == Activated(old(rows), id, expires)
    {
      rows := rows[id := rows[id].(status := Active, hasRole := true, roleExpires := Some(expires))];
      SupersedeEach(id, true);
    }

    /** `_eligible`: one check per object, remembered for the call. */
    method EligibleIds(owed: seq<Owed>, authz: Authz) returns (ids: Option<seq<nat>>)
      ensures ids == Eligible(owed, authz)
    {
      var allowed: map<string, bool> := map[];
      var found: seq<nat> := [];
      for i := 0 to |owed|
        invariant Eligible(owed[..i], authz) == Some(found)
        invariant forall o | o in allowed :: authz(o) == if allowed[o] then Allowed else NotAllowed
      {
        var objects := owed[i].objects;
        assert owed[..i + 1][..i] == owed[..i];
        var yes := false;
        var j := 0;
        while j < |objects| && !yes
          invariant j <= |objects| && forall o | o in allowed :: authz(o) == if allowed[o] then Allowed else NotAllowed
          invariant Ask(objects, authz) == if yes then Allowed else Ask(objects[j..], authz)
        {
          var obj := objects[j];
          assert objects[j..][0] == obj && objects[j..][1..] == objects[j + 1..];
          if obj !in allowed {
            if authz(obj) == Failure {
              EligibleFails(owed, i, authz);
              return None;
            }
            allowed := allowed[obj := authz(obj) == Allowed];
          }
          yes := allowed[obj];
          j := j + 1;
        }
        if yes { found := found + [owed[i].id]; }
      }
      assert owed[..|owed|] == owed;
      ids := Some(found);
    }

    method ApproveRequest(id: Id, approver: string, authz: Authz, iam: Iam, expires: real)
      returns (out: Result<Status, Refusal>)
      requires Valid()
      modifies this
      ensures Valid() && rows == ApproveIn(old(rows), id, approver, authz, iam, expires)
      ensures id !in old(rows) ==> out == Bad(Unknown)
      ensures id in old(rows) ==> match Approve(old(rows)[id], approver, authz)
        case Bad(e) => out == Bad(e)
        case Good(r) => out == if rows[id].status == Errored then Bad(NotProvisioned) else Good(rows[id].status)
    {
      if id !in rows { return Bad(Unknown); }
      var r := rows[id];
      if r.status != Pending { return Bad(NotPending); }
      var ids := EligibleIds(Unmet(r.approvals, Obligations(r)), authz);
      if ids.None? { return Bad(CheckFailed); }
      if ids.value == [] { return Bad(NotAuthorized); }
      if approver in Approvers(r.approvals) { return Bad(AlreadyApproved); }
      ApproveInKeeps(rows, id, approver, authz, iam, expires);
      r := r.(approvals := r.approvals + [Approval(approver, ids.value)]);
      ghost var was := rows;
      rows := rows[id := r];
      if Unmet(r.approvals, Obligations(r)) == [] {
        StorePolicy(id, iam);
        if iam == RoleMade {
          Activate(id, expires);
        } else {
          rows := rows[id := rows[id].(status := Errored)];
        }
      }
      out := if rows[id].status == Errored then Bad(NotProvisioned) else Good(rows[id].status);
    }

    method Deny(id: Id, authz: Authz, deleted: bool) returns (ok: bool)
      requires Valid()
      modifies this
      ensures Valid() && ok == DenyAccepted(old(rows), id, authz, deleted)
      ensures rows == DenyIn(old(rows), id, authz, deleted)
    {
      if id !in rows { return false; }
      var ids := EligibleIds(Obligations(rows[id]), authz);
      if ids.None? || ids.value == [] || (rows[id].hasPolicy && !deleted) { return false; }
      SettledOne(rows, id, Denied);
      rows := rows[id := rows[id].(status := Denied)];
      ok := true;
    }

    method Revoke(id: Id, conv: string, deleted: bool) returns (ok: bool)
      requires Valid()
      modifies this
      ensures Valid() && ok == RevokeAccepted(old(rows), id, conv, deleted)
      ensures rows == RevokeIn(old(rows), id, conv, deleted)
    {
      if id !in rows || rows[id].conv != conv { return false; }
      if (rows[id].hasRole || rows[id].hasPolicy) && !deleted { return false; }
      SettledOne(rows, id, Revoked);
      rows := rows[id := rows[id].(status := Revoked)];
      ok := true;
    }

    method SweepExpired(now: real, torn: set<Id>, past: set<Id>) returns (swept: set<Id>)
      requires Valid()
      modifies this
      ensures Valid() && rows == Swept(old(rows), now, torn, past)
      ensures forall id :: id in swept <==> id in old(rows) && Goes(old(rows)[id], now, id in torn || id in past)
    {
      SweptKeeps(rows, now, torn, past);
      var lapsed := set id | id in rows && Lapsed(rows[id], now);
      swept := SweepEach(lapsed, now, torn + past);
    }

    method SweepEach(lapsed: set<Id>, now: real, gone: set<Id>) returns (swept: set<Id>)
      requires forall id :: id in lapsed <==> id in rows && Lapsed(rows[id], now)
      modifies this
      ensures rows.Keys == old(rows).Keys && forall id | id in rows ::
        rows[id] == AfterSweep(old(rows)[id], now, id in gone)
      ensures forall id :: id in swept <==> id in old(rows) && Goes(old(rows)[id], now, id in gone)
    {
      var todo := lapsed;
      ghost var was := rows;
      swept := {};
      while todo != {}
        invariant todo <= lapsed && rows.Keys == was.Keys
        invariant forall k :: k in swept <==> k in lapsed && k !in todo && Goes(was[k], now, k in gone)
        invariant forall k | k in was :: rows[k] == if k in todo then was[k] else AfterSweep(was[k], now, k in gone)
        decreases |todo|
      {
        var id :| id in todo;
        todo := todo - {id};
        if !rows[id].hasRole || id in gone {
          rows := rows[id := rows[id].(status := Expired)];
          swept := swept + {id};
        }
      }
    }
  }

  lemma SweptKeeps(rows: Table, now: real, torn: set<Id>, past: set<Id>)
    requires TableInv(rows)
    ensures TableInv(Swept(rows, now, torn, past))
  {
    var out := Swept(rows, now, torn, past);
    forall id | id in rows ensures out[id] == rows[id] || Settled(rows[id], out[id]) {
      assert out[id] == AfterSweep(rows[id], now, id in torn || id in past);
    }
    SettlingKeeps(rows, out);
  }

  lemma {:induction false} EligibleFails(owed: seq<Owed>, i: nat, authz: Authz)
    requires i < |owed| && Ask(owed[i].objects, authz) == Failure
    ensures Eligible(owed, authz) == None
    decreases |owed|
  {
    if i < |owed| - 1 {
      EligibleFails(owed[..|owed| - 1], i, authz);
    }
  }
}
