/** The visibility tree: below a private conversation everything is private. */
module Heredity {
  import opened Wrappers
  import opened Access

  type Id = string

  datatype Row = Row(owner: Option<string>, visibility: Visibility, parent: Option<Id>)

  type Table = map<Id, Row>

  // ----- descendants ---------------------------------------------------------

  predicate ChildOf(rows: Table, c: Id, p: Id) {
    c in rows && rows[c].parent == Some(p)
  }

  /** A path down the tree, each step from a parent to one of its children. */
  predicate Descent(rows: Table, path: seq<Id>) {
    path != [] && forall i | 0 < i < |path| :: ChildOf(rows, path[i], path[i - 1])
  }

  ghost predicate Below(rows: Table, root: Id, c: Id) {
    exists path: seq<Id> :: Descent(rows, path) && path[0] == root && path[|path| - 1] == c
  }

  /** Closed downwards: holds the children of everything it holds. */
  ghost predicate Closed(rows: Table, s: set<Id>) {
    forall c, p | p in s && ChildOf(rows, c, p) :: c in s
  }

  lemma BelowSelf(rows: Table, root: Id)
    ensures Below(rows, root, root)
  {
    assert Descent(rows, [root]);
  }

  lemma BelowChild(rows: Table, root: Id, p: Id, c: Id)
    requires Below(rows, root, p) && ChildOf(rows, c, p)
    ensures Below(rows, root, c)
  {
    var path: seq<Id> :| Descent(rows, path) && path[0] == root && path[|path| - 1] == p;
    assert Descent(rows, path + [c]);
    assert (path + [c])[|path + [c]| - 1] == c;
  }

  lemma {:induction false} ClosedHoldsPath(rows: Table, s: set<Id>, path: seq<Id>)
    requires Closed(rows, s) && Descent(rows, path) && path[0] in s
    ensures path[|path| - 1] in s
    decreases |path|
  {
    if |path| > 1 {
      ClosedHoldsPath(rows, s, path[..|path| - 1]);
    }
  }

  /** The recursive query: exactly the root and everything below it. */
  method TreeOf(rows: Table, root: Id) returns (tree: set<Id>)
    ensures forall c :: c in tree <==> Below(rows, root, c)
  {
    tree := {root};
    BelowSelf(rows, root);
    var next := ChildrenOf(rows, tree);
    while next != {}
      invariant root in tree && next == ChildrenOf(rows, tree)
      invariant forall c | c in tree :: Below(rows, root, c)
      decreases rows.Keys - tree
    {
      forall c | c in next ensures Below(rows, root, c) {
        BelowChild(rows, root, rows[c].parent.value, c);
      }
      var c0 :| c0 in next;
      assert c0 in rows.Keys - tree;
      tree := tree + next;
      next := ChildrenOf(rows, tree);
    }
    NothingLeftIsClosed(rows, tree);
    forall c | Below(rows, root, c) ensures c in tree {
      var path: seq<Id> :| Descent(rows, path) && path[0] == root && path[|path| - 1] == c;
      ClosedHoldsPath(rows, tree, path);
    }
  }

  /** Children of the set that are not in it yet. */
  function ChildrenOf(rows: Table, s: set<Id>): set<Id> {
    set c | c in rows && c !in s && rows[c].parent.Some? && rows[c].parent.value in s
  }

  lemma NothingLeftIsClosed(rows: Table, s: set<Id>)
    requires ChildrenOf(rows, s) == {}
    ensures Closed(rows, s)
  {
    forall c, p | p in s && ChildOf(rows, c, p) ensures c in s {
      assert c !in s ==> c in ChildrenOf(rows, s);
    }
  }

  // ----- the statements ------------------------------------------------------

  /** The table's own check: private for nobody is meaningless. */
  ghost predicate Checked(rows: Table) {
    forall c | c in rows :: RowChecked(rows[c])
  }

  predicate RowChecked(r: Row) {
    r.visibility == Shared || r.owner.Some?
  }

  /** Children never less private than their parents. */
  ghost predicate Hereditary(rows: Table) {
    forall c, p | ChildOf(rows, c, p) && p in rows && rows[p].visibility == Private :: rows[c].visibility == Private
  }

  function NewRow(rows: Table, owner: Option<string>, parent: Option<Id>, asked: Option<Visibility>): Row {
    var inherited := parent.Some? && parent.value in rows && rows[parent.value].visibility == Private;
    Row(owner, if inherited then Private else if asked.Some? then asked.value else Shared, parent)
  }

  /** An insert that conflicts does nothing; one that fails the check does nothing and errs. */
  function Inserted(rows: Table, id: Id, owner: Option<string>, parent: Option<Id>, asked: Option<Visibility>): Table {
    var row := NewRow(rows, owner, parent, asked);
    if id in rows || !RowChecked(row) then rows else rows[id := row]
  }

  ghost function Tree(rows: Table, root: Id): set<Id> {
    set c | c in rows.Keys && Below(rows, root, c)
  }

  ghost predicate MaySet(rows: Table, root: Id, v: Visibility) {
    v == Shared || forall c | c in Tree(rows, root) :: rows[c].owner.Some?
  }

  /** One statement: every row of the tree, or none if the check would fail on any. */
  ghost function WithVisibility(rows: Table, root: Id, v: Visibility): Table {
    if MaySet(rows, root, v)
    then map c | c in rows :: if c in Tree(rows, root) then rows[c].(visibility := v) else rows[c]
    else rows
  }

  datatype Status = Ok | NotFound | Forbidden | BadRequest | Conflict | BadGateway

  /** The guards of a visibility patch, in order; `asked` is absent if the body names no visibility. */
  function PatchGuard(rows: Table, id: Id, caller: string, asked: Option<Visibility>, confirm: bool): Status {
    if id !in rows || !CanAccess(rows[id].owner, rows[id].visibility, caller) then NotFound
    else if caller != "" && rows[id].owner.Some? && rows[id].owner.value != caller then Forbidden
    else if asked.None? then BadRequest
    else if caller == "" || rows[id].owner != Some(caller) then Forbidden
    else if rows[id].parent.Some? then Conflict
    else if asked.value == Shared && rows[id].visibility == Private && !confirm then Conflict
    else Ok
  }

  /** Past the guards: a top-level conversation, patched by its owner. */
  lemma PatchIsOwners(rows: Table, id: Id, caller: string, asked: Option<Visibility>, confirm: bool)
    ensures PatchGuard(rows, id, caller, asked, confirm) == Ok <==>
      && id in rows && caller != "" && rows[id].owner == Some(caller) && rows[id].parent == None && asked.Some?
      && (asked == Some(Shared) && rows[id].visibility == Private ==> confirm)
  {}

  /** Whom a patch is refused, and how: a caller who may not see the conversation is told there is none, one who
      is not its owner may not, and its owner is told what is wrong with the patch. */
  lemma PatchRefusals(rows: Table, id: Id, caller: string, asked: Option<Visibility>, confirm: bool)
    ensures var status := PatchGuard(rows, id, caller, asked, confirm);
      if id !in rows then status == NotFound
      else
        var owned := caller != "" && rows[id].owner == Some(caller);
        && (status == NotFound <==> !owned && rows[id].visibility == Private)
        && (status == Forbidden <==>
              !owned && rows[id].visibility == Shared && (asked.Some? || (caller != "" && rows[id].owner.Some?)))
        && (status == BadRequest <==> asked == None && status != NotFound && status != Forbidden)
        && (status == Conflict <==>
              && owned && asked.Some?
              && (rows[id].parent.Some? || (asked == Some(Shared) && rows[id].visibility == Private && !confirm)))
  {}

  ghost function Patched(rows: Table, id: Id, caller: string, asked: Option<Visibility>, confirm: bool): Table {
    if PatchGuard(rows, id, caller, asked, confirm) == Ok && asked.Some?
    then WithVisibility(rows, id, asked.value) else rows
  }

  /** The store the router writes through. */
  class WriteStore {
    var rows: Table

    constructor (rows: Table)
      ensures this.rows == rows
    {
      this.rows := rows;
    }

    method Create(id: Id, owner: Option<string>, parent: Option<Id>, asked: Option<Visibility>) returns (ok: bool)
      modifies this
      ensures rows == Inserted(old(rows), id, owner, parent, asked)
      ensures ok ==> id in rows
      ensures old(Checked(rows)) ==> Checked(rows)
    {
      var p := if parent.Some? && parent.value in rows then Some(rows[parent.value].visibility) else None;
      var visibility := if p == Some(Private) then Private else if asked.Some? then asked.value else Shared;
      if id in rows { return true; }
      ok := visibility == Shared || owner.Some?;
      if ok { rows := rows[id := Row(owner, visibility, parent)]; }
    }

    method SetVisibility(id: Id, v: Visibility) returns (ok: bool)
      modifies this
      ensures rows == WithVisibility(old(rows), id, v)
      ensures ok <==> MaySet(old(rows), id, v)
      ensures old(Checked(rows)) ==> Checked(rows)
    {
      var reached := TreeOf(rows, id);
      var tree := set c | c in rows && c in reached;
      assert tree == Tree(rows, id);
      ok := v == Shared || forall c | c in tree :: rows[c].owner.Some?;
      if ok { rows := map c | c in rows :: if c in tree then rows[c].(visibility := v) else rows[c]; }
    }

    method Patch(id: Id, caller: string, asked: Option<Visibility>, confirm: bool) returns (status: Status)
      modifies this
      ensures rows == Patched(old(rows), id, caller, asked, confirm)
      ensures status == Ok ==> PatchGuard(old(rows), id, caller, asked, confirm) == Ok
      ensures PatchGuard(old(rows), id, caller, asked, confirm) != Ok ==>
        status == PatchGuard(old(rows), id, caller, asked, confirm)
      ensures status == BadGateway ==> rows == old(rows)
    {
      status := PatchGuard(rows, id, caller, asked, confirm);
      if status == Ok {
        var ok := SetVisibility(id, asked.value);
        if !ok { status := BadGateway; }
      }
    }
  }

  // ----- what the statements do ----------------------------------------------

  /** A new conversation is private if asked for or if its parent is, and is not made if it would be private for
      nobody; an id in use is left as it is. */
  lemma CreatedAsAsked(rows: Table, id: Id, owner: Option<string>, parent: Option<Id>, asked: Option<Visibility>)
    ensures var rows' := Inserted(rows, id, owner, parent, asked);
      var private := asked == Some(Private) || exists p | p in rows ::
        parent == Some(p) && rows[p].visibility == Private;
      && (forall c | c in rows :: c in rows' && rows'[c] == rows[c])
      && (id !in rows ==>
            if private && owner == None then rows' == rows
            else
              && rows'.Keys == rows.Keys + {id} && rows'[id].owner == owner && rows'[id].parent == parent
              && (rows'[id].visibility == Private <==> private))
  {
    if parent.Some? && parent.value in rows { assert parent == Some(parent.value); }
  }

  /** A patch that passes its guards reaches all that is below the conversation and nothing else, or, where
      something below has no owner and private was asked for, nothing at all. */
  lemma PatchReachesTheTree(rows: Table, id: Id, caller: string, v: Visibility, confirm: bool, c: Id)
    requires PatchGuard(rows, id, caller, Some(v), confirm) == Ok && c in rows
    ensures var rows' := Patched(rows, id, caller, Some(v), confirm);
      && rows'.Keys == rows.Keys && rows'[c].owner == rows[c].owner && rows'[c].parent == rows[c].parent
      && (if v == Private && exists x | x in rows :: Below(rows, id, x) && rows[x].owner == None
          then rows' == rows
          else rows'[c].visibility == if Below(rows, id, c) then v else rows[c].visibility)
  {
    if exists x | x in rows :: Below(rows, id, x) && rows[x].owner == None {
      var x :| x in rows && Below(rows, id, x) && rows[x].owner == None;
      assert x in Tree(rows, id);
    }
  }

  // ----- what the statements keep --------------------------------------------

  /** An insert keeps heredity exactly when no shared row already names the new, private id as its parent. */
  lemma InsertKeepsHeredity(rows: Table, id: Id, owner: Option<string>, parent: Option<Id>, asked: Option<Visibility>)
    requires Hereditary(rows)
    ensures Hereditary(Inserted(rows, id, owner, parent, asked)) <==>
      id in rows || !RowChecked(NewRow(rows, owner, parent, asked))
      || NewRow(rows, owner, parent, asked).visibility == Shared
      || forall c | c in rows && ChildOf(rows, c, id) :: rows[c].visibility == Private
  {
    var rows' := Inserted(rows, id, owner, parent, asked);
    if id !in rows && RowChecked(NewRow(rows, owner, parent, asked)) {
      assert forall c | c in rows :: c in rows' && rows'[c] == rows[c];
      assert forall c, p | c in rows :: ChildOf(rows, c, p) <==> ChildOf(rows', c, p);
    }
  }

  /** The condition is not idle: without fresh ids, which the router always draws, a private conversation
      could be inserted over a shared child that names it. */
  lemma FreshIdsAreNeeded()
    ensures exists rows: Table, id: Id :: (
      Hereditary(rows) && id !in rows && !Hereditary(Inserted(rows, id, Some("ann"), None, Some(Private))))
  {
    var rows := map["child" := Row(Some("ann"), Shared, Some("root"))];
    var rows' := Inserted(rows, "root", Some("ann"), None, Some(Private));
    assert Hereditary(rows) && ChildOf(rows', "child", "root");
    assert !Hereditary(rows');
  }

  /** Setting a whole tree at once keeps heredity when the root has no parent. */
  lemma SetKeepsHeredity(rows: Table, root: Id, v: Visibility)
    requires Hereditary(rows) && root in rows && rows[root].parent == None
    ensures Hereditary(WithVisibility(rows, root, v))
  {
    var rows' := WithVisibility(rows, root, v);
    if MaySet(rows, root, v) {
      forall c, p | ChildOf(rows', c, p) && p in rows' && rows'[p].visibility == Private
        ensures rows'[c].visibility == Private
      {
        assert ChildOf(rows, c, p);
        if p in Tree(rows, root) {
          BelowChild(rows, root, p, c);
        } else if c in Tree(rows, root) {
          BelowHasParentBelow(rows, root, c, p);
          assert false;
        }
      }
    }
  }

  /** Whatever is below the root, other than the root, has its parent below it too. */
  lemma BelowHasParentBelow(rows: Table, root: Id, c: Id, p: Id)
    requires Below(rows, root, c) && ChildOf(rows, c, p) && root in rows && rows[root].parent == None && p in rows
    ensures p in Tree(rows, root)
  {
    var path: seq<Id> :| Descent(rows, path) && path[0] == root && path[|path| - 1] == c;
    var up := path[..|path| - 1];
    assert |path| > 1 && ChildOf(rows, c, path[|path| - 2]);
    assert Descent(rows, up) && up[0] == root && up[|up| - 1] == p;
  }

  lemma TopIsBelowItselfOnly(rows: Table, top: Id, c: Id)
    requires top in rows && rows[top].parent == None
    ensures Below(rows, c, top) <==> c == top
  {
    BelowSelf(rows, top);
    if Below(rows, c, top) {
      var path: seq<Id> :| Descent(rows, path) && path[0] == c && path[|path| - 1] == top;
      PathEnds(rows, path);
    }
  }

  lemma PathEnds(rows: Table, path: seq<Id>)
    requires Descent(rows, path)
    ensures |path| == 1 || (path[|path| - 1] in rows && rows[path[|path| - 1]].parent.Some?)
  {
    assert |path| > 1 ==> ChildOf(rows, path[|path| - 1], path[|path| - 2]);
  }

  /** A patch of a subagent would break heredity where a patch of its parent does not. */
  lemma SubagentPatchWouldBreak()
    ensures exists rows: Table, id: Id :: (
      Hereditary(rows) && id in rows && rows[id].parent.Some? && !Hereditary(WithVisibility(rows, id, Shared)))
  {
    var rows := map["root" := Row(Some("ann"), Private, None), "child" := Row(Some("ann"), Private, Some("root"))];
    assert Hereditary(rows);
    BelowSelf(rows, "child");
    var rows' := WithVisibility(rows, "child", Shared);
    TopIsBelowItselfOnly(rows, "root", "child");
    assert "child" in Tree(rows, "child") && "root" !in Tree(rows, "child");
    assert ChildOf(rows', "child", "root") && rows'["root"].visibility == Private &&
      rows'["child"].visibility == Shared;
    assert !Hereditary(rows');
  }

  /** Step by step heredity is heredity all the way down. */
  lemma {:induction false} PathStaysPrivate(rows: Table, path: seq<Id>)
    requires Hereditary(rows) && Descent(rows, path) && path[0] in rows && rows[path[0]].visibility == Private
    ensures path[|path| - 1] in rows && rows[path[|path| - 1]].visibility == Private
    decreases |path|
  {
    if |path| > 1 {
      PathStaysPrivate(rows, path[..|path| - 1]);
      assert ChildOf(rows, path[|path| - 1], path[|path| - 2]);
    }
  }

  // ----- every run -----------------------------------------------------------

  datatype Event =
    | Create(id: Id, owner: Option<string>, parent: Option<Id>, asked: Option<Visibility>)
    | Patch(id: Id, caller: string, asked: Option<Visibility>, confirm: bool)
    | Delete(id: Id)

  /** New ids are fresh: no row names one as its parent yet. */
  ghost predicate Enabled(rows: Table, e: Event) {
    e.Create? ==> e.id in rows || forall c | c in rows :: !ChildOf(rows, c, e.id)
  }

  ghost function Apply(rows: Table, e: Event): Table {
    match e
    case Create(id, owner, parent, asked) => Inserted(rows, id, owner, parent, asked)
    case Patch(id, caller, asked, confirm) => Patched(rows, id, caller, asked, confirm)
    case Delete(id) => rows - {id}
  }

  ghost predicate Reaches(rows0: Table, events: seq<Event>, rows: Table)
    decreases |events|
  {
    if events == [] then rows == rows0
    else Enabled(rows0, events[0]) && Reaches(Apply(rows0, events[0]), events[1..], rows)
  }

  lemma StepKeepsHeredity(rows: Table, e: Event)
    requires Hereditary(rows) && Enabled(rows, e)
    ensures Hereditary(Apply(rows, e))
  {
    match e
    case Create(id, owner, parent, asked) => InsertKeepsHeredity(rows, id, owner, parent, asked);
    case Patch(id, caller, asked, confirm) =>
      if PatchGuard(rows, id, caller, asked, confirm) == Ok { SetKeepsHeredity(rows, id, asked.value); }
    case Delete(id) => assert forall c, p | ChildOf(rows - {id}, c, p) :: ChildOf(rows, c, p);
  }

  lemma {:induction false} RunKeepsHeredity(rows0: Table, events: seq<Event>, rows: Table)
    requires Hereditary(rows0) && Reaches(rows0, events, rows)
    ensures Hereditary(rows)
    decreases |events|
  {
    if events != [] {
      StepKeepsHeredity(rows0, events[0]);
      RunKeepsHeredity(Apply(rows0, events[0]), events[1..], rows);
    }
  }

  /** In every run, everything below a private conversation is private. */
  lemma DescendantsOfPrivateArePrivate(rows0: Table, events: seq<Event>, rows: Table, root: Id, c: Id)
    requires rows0 == map[] && Reaches(rows0, events, rows)
    requires root in rows && rows[root].visibility == Private && Below(rows, root, c)
    ensures c in rows && rows[c].visibility == Private
  {
    RunKeepsHeredity(rows0, events, rows);
    var path: seq<Id> :| Descent(rows, path) && path[0] == root && path[|path| - 1] == c;
    PathStaysPrivate(rows, path);
  }
}
