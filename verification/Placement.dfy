/** The conversations table as the assignment protocol sees it, and the claim statement's choice of pod. */
module Placement {
  import opened Wrappers

  type Id = string
  type Pod = string

  datatype Phase = NoPhase | Assigned | Suspended | Failed | Pending

  datatype Row = Row(pod: Option<Pod>, gen: nat, phase: Phase, parent: Option<Id>, sandboxRef: Option<string>)

  type Table = map<Id, Row>

  /** Top-level conversations on a pod; subagents do not count as load. */
  function Residents(rows: Table, pod: Pod): set<Id> {
    set c | c in rows && rows[c].pod == Some(pod) && rows[c].parent == None
  }

  function Load(rows: Table, pod: Pod): nat {
    |Residents(rows, pod)|
  }

  /** The first of the least loaded; the candidates come sorted by name. */
  function LeastLoaded(rows: Table, pods: seq<Pod>): (best: Pod)
    requires pods != []
    ensures best in pods
    ensures forall p | p in pods :: Load(rows, best) <= Load(rows, p)
  {
    if |pods| == 1 then pods[0] else
      var rest := LeastLoaded(rows, pods[1..]);
      assert pods == [pods[0]] + pods[1..];
      if Load(rows, pods[0]) <= Load(rows, rest) then pods[0] else rest
  }

  /** Ties go to the earliest: everything before the chosen pod is strictly more loaded. */
  lemma {:induction false} LeastLoadedIsFirst(rows: Table, pods: seq<Pod>, i: nat, j: nat)
    requires i < j < |pods| && pods[j] == LeastLoaded(rows, pods)
    requires forall k | 0 <= k < j :: pods[k] != pods[j]
    ensures Load(rows, pods[i]) > Load(rows, pods[j])
  {
    assert pods[i] in pods;
    if i > 0 {
      assert pods[1..][j - 1] == pods[j] && forall k | 0 <= k < j - 1 :: pods[1..][k] == pods[k + 1];
      LeastLoadedIsFirst(rows, pods[1..], i - 1, j - 1);
    }
  }

  function ParentPod(rows: Table, conv: Id): Option<Pod>
    requires conv in rows
  {
    match rows[conv].parent
    case None => None
    case Some(p) => if p in rows then rows[p].pod else None
  }

  function Pick(rows: Table, conv: Id, candidates: seq<Pod>): (pod: Pod)
    requires conv in rows && candidates != []
    ensures pod in candidates
  {
    match ParentPod(rows, conv)
    case Some(p) => if p in candidates then p else LeastLoaded(rows, candidates)
    case None => LeastLoaded(rows, candidates)
  }

  /** The compare-and-swap: the row is still at the generation the claimer saw. */
  predicate ClaimWins(rows: Table, conv: Id, seen: nat, candidates: seq<Pod>) {
    conv in rows && rows[conv].gen == seen && candidates != []
  }

  function ClaimedRow(rows: Table, conv: Id, candidates: seq<Pod>): (row: Row)
    requires conv in rows && candidates != []
    ensures row.phase != Suspended && row.gen > rows[conv].gen && row.pod.Some? && row.pod.value in candidates
  {
    var r := rows[conv];
    r.(pod := Some(Pick(rows, conv, candidates)), gen := r.gen + 1,
       phase := if r.phase == Failed then Failed else Assigned)
  }

  /** A subagent lands on its parent's pod whenever that pod is a candidate, however loaded. */
  lemma SubagentFollowsParent(rows: Table, conv: Id, parent: Id, candidates: seq<Pod>)
    requires conv in rows && rows[conv].parent == Some(parent) && parent in rows
    requires rows[parent].pod.Some? && rows[parent].pod.value in candidates
    ensures var rows' := rows[conv := ClaimedRow(rows, conv, candidates)];
      rows'[conv].pod == rows[parent].pod && forall p: Pod :: Load(rows', p) == Load(rows, p)
  {
    var rows' := rows[conv := ClaimedRow(rows, conv, candidates)];
    forall p: Pod ensures Load(rows', p) == Load(rows, p) {
      assert Residents(rows', p) == Residents(rows, p);
    }
  }

  // ----- balance over serial claims ------------------------------------------

  ghost predicate Spread(rows: Table, pods: seq<Pod>, d: nat) {
    forall p, q | p in pods && q in pods :: Load(rows, p) <= Load(rows, q) + d
  }

  /** What a router claims for `conv` while `pods` are ready: in place if its pod is one of them. */
  function Candidates(rows: Table, pods: seq<Pod>, conv: Id): (c: seq<Pod>)
    requires conv in rows && pods != []
    ensures c != [] && forall p | p in c :: p in pods
  {
    match rows[conv].pod
    case Some(p) => if p in pods then [p] else pods
    case None => pods
  }

  function Serve(rows: Table, pods: seq<Pod>, conv: Id): (rows': Table)
    requires conv in rows && pods != []
    ensures rows'.Keys == rows.Keys
  {
    rows[conv := ClaimedRow(rows, conv, Candidates(rows, pods, conv))]
  }

  function ServeAll(rows: Table, pods: seq<Pod>, convs: seq<Id>): (rows': Table)
    requires pods != [] && forall c | c in convs :: c in rows
  {
    if convs == [] then rows else ServeAll(Serve(rows, pods, convs[0]), pods, convs[1..])
  }

  /** A claim moves one conversation, if it is top-level, and nothing else. */
  lemma LoadAfterMove(rows: Table, conv: Id, row: Row, p: Pod)
    requires conv in rows && row.parent == rows[conv].parent
    ensures var rows' := rows[conv := row];
      Load(rows', p) == Load(rows, p) + (if row.parent == None && row.pod == Some(p) then 1 else 0)
                        - (if row.parent == None && rows[conv].pod == Some(p) then 1 else 0)
  {
    var rows' := rows[conv := row];
    SizeWithout(Residents(rows, p), conv);
    SizeWithout(Residents(rows', p), conv);
    forall c | c != conv ensures c in Residents(rows, p) <==> c in Residents(rows', p) {}
    assert Residents(rows, p) - {conv} == Residents(rows', p) - {conv};
  }

  lemma SizeWithout(s: set<Id>, x: Id)
    ensures |s| == |s - {x}| + if x in s then 1 else 0
  {
    if x in s { assert s == (s - {x}) + {x}; } else { assert s == s - {x}; }
  }

  lemma ServeKeepsSpread(rows: Table, pods: seq<Pod>, conv: Id, d: nat)
    requires conv in rows && pods != [] && d >= 1 && Spread(rows, pods, d)
    ensures Spread(Serve(rows, pods, conv), pods, d)
  {
    var c := Candidates(rows, pods, conv);
    var row := ClaimedRow(rows, conv, c);
    var rows' := Serve(rows, pods, conv);
    forall p, q | p in pods && q in pods ensures Load(rows', p) <= Load(rows', q) + d {
      LoadAfterMove(rows, conv, row, p);
      LoadAfterMove(rows, conv, row, q);
    }
  }

  /** Serial claims over a fixed ready set never widen the spread of loads beyond one, or beyond
      what it already was. */
  lemma {:induction false} ServingKeepsBalance(rows: Table, pods: seq<Pod>, convs: seq<Id>, d: nat)
    requires pods != [] && (forall c | c in convs :: c in rows) && d >= 1 && Spread(rows, pods, d)
    ensures Spread(ServeAll(rows, pods, convs), pods, d)
    decreases |convs|
  {
    if convs != [] {
      ServeKeepsSpread(rows, pods, convs[0], d);
      ServingKeepsBalance(Serve(rows, pods, convs[0]), pods, convs[1..], d);
    }
  }
}
