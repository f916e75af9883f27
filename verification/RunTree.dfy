/** services/manager.py: `get_run_tree`, which climbs to the root, collects the delegations below it level by level, and
    builds the tree. */
module RunTrees {
  import opened Prelude

  type RunId = nat
  type Record = nat

  datatype Row = Row(parent: RunId, child: RunId, node: nat, depth: nat)

  /** The delegation table, oldest row first, the run table, and the deepest delegation the settings allow. */
  datatype Table = Table(rows: seq<Row>, runs: map<RunId, Record>, maxDepth: nat)

  datatype Tree = Tree(node: Option<nat>, depth: nat, id: RunId, record: Record, children: seq<Tree>)

  // ---------------------------------------------------------------- the delegation table

  predicate Joined(rows: seq<Row>, maxDepth: nat, i: nat, j: nat)
    requires i < |rows| && j < |rows|
  {
    && 1 <= rows[i].depth <= maxDepth
    && (rows[i].child == rows[j].parent ==> rows[j].depth == rows[i].depth + 1)
    && (rows[i].parent == rows[j].parent ==> rows[j].depth == rows[i].depth)
    && (i != j ==> rows[i].child != rows[j].child)
  }

  /** What the table promises: a child has one row, depths are bounded, a child of a child is one deeper, the children
      of one run are equally deep, and every run named has a record. */
  ghost predicate Forest(t: Table) {
    && (forall i, j {:trigger Joined(t.rows, t.maxDepth, i, j)} :: 0 <= i < |t.rows| && 0 <= j < |t.rows| ==>
          Joined(t.rows, t.maxDepth, i, j))
    && (forall i :: 0 <= i < |t.rows| ==> t.rows[i].parent in t.runs && t.rows[i].child in t.runs)
  }

  /** Where the run occurs as a child, or the length when it does not. */
  function Find(rows: seq<Row>, x: RunId): (i: nat)
    ensures i <= |rows|
    ensures i < |rows| ==> rows[i].child == x
    ensures forall j :: 0 <= j < i ==> rows[j].child != x
  {
    if rows == [] || rows[0].child == x then 0 else 1 + Find(rows[1..], x)
  }

  predicate HasRow(rows: seq<Row>, x: RunId) {
    Find(rows, x) < |rows|
  }

  function RowDepth(rows: seq<Row>, x: RunId): nat {
    if HasRow(rows, x) then rows[Find(rows, x)].depth else 0
  }

  function ParentOf(rows: seq<Row>, x: RunId): RunId
    requires HasRow(rows, x)
  {
    rows[Find(rows, x)].parent
  }

  lemma ParentIsHigher(t: Table, x: RunId)
    requires Forest(t) && HasRow(t.rows, x)
    ensures RowDepth(t.rows, ParentOf(t.rows, x)) < RowDepth(t.rows, x) <= t.maxDepth
    ensures ParentOf(t.rows, x) in t.runs && x in t.runs
    ensures HasRow(t.rows, ParentOf(t.rows, x)) ==> RowDepth(t.rows, x) == RowDepth(t.rows, ParentOf(t.rows, x)) + 1
  {
    var i, j := Find(t.rows, x), Find(t.rows, ParentOf(t.rows, x));
    assert Joined(t.rows, t.maxDepth, i, i);
    if j < |t.rows| {
      assert Joined(t.rows, t.maxDepth, j, i);
    }
  }

  lemma RowOf(t: Table, i: nat)
    requires Forest(t) && i < |t.rows|
    ensures Find(t.rows, t.rows[i].child) == i && HasRow(t.rows, t.rows[i].child)
  {
    var j := Find(t.rows, t.rows[i].child);
    assert j < |t.rows| ==> Joined(t.rows, t.maxDepth, i, j);
  }

  /** The run at the top of the chain of parents. */
  ghost function Top(t: Table, x: RunId): (top: RunId)
    requires Forest(t)
    ensures !HasRow(t.rows, top)
    decreases RowDepth(t.rows, x)
  {
    if !HasRow(t.rows, x) then x
    else
      ParentIsHigher(t, x);
      Top(t, ParentOf(t.rows, x))
  }

  /** `c` is the run or one of its ancestors. */
  ghost predicate Within(t: Table, c: RunId, x: RunId)
    requires Forest(t)
    decreases RowDepth(t.rows, x)
  {
    x == c || (HasRow(t.rows, x) &&
      (ParentIsHigher(t, x);
       Within(t, c, ParentOf(t.rows, x))))
  }

  lemma {:induction false} WithinRoot(t: Table, c: RunId, x: RunId)
    requires Forest(t) && !HasRow(t.rows, c)
    ensures Within(t, c, x) <==> Top(t, x) == c
    decreases RowDepth(t.rows, x)
  {
    hide Forest;
    if HasRow(t.rows, x) {
      ParentIsHigher(t, x);
      WithinRoot(t, c, ParentOf(t.rows, x));
    }
  }

  lemma {:induction false} WithinIsDeeper(t: Table, c: RunId, x: RunId)
    requires Forest(t) && Within(t, c, x)
    ensures x == c || RowDepth(t.rows, c) < RowDepth(t.rows, x)
    decreases RowDepth(t.rows, x)
  {
    hide Forest;
    if x != c {
      ParentIsHigher(t, x);
      WithinIsDeeper(t, c, ParentOf(t.rows, x));
    }
  }

  /** Equally deep runs have no descendant in common. */
  lemma {:induction false} SubtreesAreDisjoint(t: Table, b: RunId,
                                               c: RunId, x: RunId)
    requires Forest(t) && RowDepth(t.rows, b) == RowDepth(t.rows, c)
    requires Within(t, b, x) && Within(t, c, x)
    ensures b == c
    decreases RowDepth(t.rows, x)
  {
    hide Forest;
    WithinIsDeeper(t, b, x);
    WithinIsDeeper(t, c, x);
    if x != b && x != c {
      ParentIsHigher(t, x);
      SubtreesAreDisjoint(t, b, c, ParentOf(t.rows, x));
    }
  }

  /** The child of `c` through which the chain from `x` passes. */
  lemma {:induction false} ChildTowards(t: Table, c: RunId, x: RunId)
    returns (i: nat)
    requires Forest(t) && Within(t, c, x) && x != c
    ensures i < |t.rows| && t.rows[i].parent == c && Within(t, t.rows[i].child, x)
    decreases RowDepth(t.rows, x)
  {
    hide Forest;
    ParentIsHigher(t, x);
    if ParentOf(t.rows, x) == c {
      i := Find(t.rows, x);
    } else {
      i := ChildTowards(t, c, ParentOf(t.rows, x));
    }
  }

  lemma {:induction false} WithinStep(t: Table, i: nat, x: RunId)
    requires Forest(t) && i < |t.rows| && Within(t, t.rows[i].child, x)
    ensures Within(t, t.rows[i].parent, x)
    decreases RowDepth(t.rows, x)
  {
    hide Forest;
    RowOf(t, i);
    if x == t.rows[i].child {
      ParentIsHigher(t, x);
    } else {
      ParentIsHigher(t, x);
      WithinStep(t, i, ParentOf(t.rows, x));
    }
  }

  // ---------------------------------------------------------------- the children of a run, and the tree

  /** The rows of one parent, oldest first. */
  function ChildRows(rows: seq<Row>, p: RunId): (children: seq<Row>)
  {
    if rows == [] then []
    else
      var rest := ChildRows(rows[..|rows| - 1], p);
      if rows[|rows| - 1].parent == p then rest + [rows[|rows| - 1]] else rest
  }

  ghost predicate ChildrenDiffer(items: seq<Row>) {
    forall i, j :: 0 <= i < j < |items| ==> items[i].child != items[j].child
  }

  lemma {:induction false} ChildRowsAre(rows: seq<Row>, p: RunId, row: Row)
    ensures row in ChildRows(rows, p) <==> row in rows && row.parent == p
  {
    if rows != [] {
      assert rows == rows[..|rows| - 1] + [rows[|rows| - 1]];
      ChildRowsAre(rows[..|rows| - 1], p, row);
    }
  }

  lemma {:induction false} ChildRowsDiffer(rows: seq<Row>, p: RunId)
    requires ChildrenDiffer(rows)
    ensures ChildrenDiffer(ChildRows(rows, p))
  {
    if rows != [] {
      var front, last := rows[..|rows| - 1], rows[|rows| - 1];
      ChildRowsDiffer(front, p);
      var rest := ChildRows(front, p);
      forall i | 0 <= i < |rest|
        ensures rest[i].child != last.child
      {
        ChildRowsAre(front, p, rest[i]);
      }
    }
  }

  function RowsBelow(below: map<RunId, seq<Row>>, p: RunId): seq<Row> {
    if p in below then below[p] else []
  }

  /** What the collecting loops have gathered about everything below the root. */
  ghost predicate Gathered(below: map<RunId, seq<Row>>, records: map<RunId, Record>, t: Table, root: RunId)
    requires Forest(t)
  {
    forall p {:trigger Within(t, root, p)} :: Within(t, root, p) ==>
      p in records && p in t.runs && records[p] == t.runs[p] && RowsBelow(below, p) == ChildRows(t.rows, p)
  }

  /** The row belongs to a run below the root, and is as deep as that run. */
  ghost predicate Below(t: Table, root: RunId, p: RunId, row: Row)
    requires Forest(t)
  {
    row in t.rows && row.parent == p && Within(t, root, p)
  }

  lemma RowBelow(t: Table, root: RunId, p: RunId, row: Row)
    requires Forest(t) && Below(t, root, p, row)
    ensures Within(t, root, row.child) && HasRow(t.rows, row.child)
    ensures RowDepth(t.rows, row.child) == row.depth && RowDepth(t.rows, p) < row.depth <= t.maxDepth
  {
    hide Forest;
    var i :| 0 <= i < |t.rows| && t.rows[i] == row;
    RowOf(t, i);
    ParentIsHigher(t, row.child);
  }

  /** The nested `build`. */
  function Build(below: map<RunId, seq<Row>>, records: map<RunId, Record>, ghost t: Table, ghost root: RunId,
                 id: RunId, node: Option<nat>, depth: nat): Tree
    requires Forest(t) && Gathered(below, records, t, root)
    requires Within(t, root, id) && depth == RowDepth(t.rows, id) <= t.maxDepth
    decreases t.maxDepth - depth, 1, 0
  {
    ghost var items := ChildRows(t.rows, id);
    assert forall row :: row in items ==> Below(t, root, id, row) by {
      forall row | row in items
        ensures Below(t, root, id, row)
      {
        ChildRowsAre(t.rows, id, row);
      }
    }
    Tree(node, depth, id, records[id], BuildAll(below, records, t, root, id, depth, RowsBelow(below, id)))
  }

  function BuildAll(below: map<RunId, seq<Row>>, records: map<RunId, Record>, ghost t: Table, ghost root: RunId,
                    ghost id: RunId, ghost depth: nat, items: seq<Row>): seq<Tree>
    requires Forest(t) && Gathered(below, records, t, root)
    requires depth == RowDepth(t.rows, id) <= t.maxDepth
    requires forall row :: row in items ==> Below(t, root, id, row)
    decreases t.maxDepth - depth, 0, |items|
  {
    if items == [] then []
    else
      RowBelow(t, root, id, items[0]);
      [Build(below, records, t, root, items[0].child, Some(items[0].node), items[0].depth)]
        + BuildAll(below, records, t, root, id, depth, items[1..])
  }

  // ---------------------------------------------------------------- what the built tree holds

  /** The runs of a tree, parents before children. */
  function RunsOf(tree: Tree): seq<RunId> {
    [tree.id] + RunsOfAll(tree.children)
  }

  function RunsOfAll(trees: seq<Tree>): seq<RunId> {
    if trees == [] then [] else RunsOf(trees[0]) + RunsOfAll(trees[1..])
  }

  /** One of the rows leads down to the run. */
  ghost predicate LeadsTo(t: Table, items: seq<Row>, x: RunId)
    requires Forest(t)
  {
    items != [] && (Within(t, items[0].child, x) || LeadsTo(t, items[1..], x))
  }

  lemma {:induction false} LeadsToBy(t: Table, items: seq<Row>, row: Row, x: RunId)
    requires Forest(t) && row in items && Within(t, row.child, x)
    ensures LeadsTo(t, items, x)
  {
    hide Forest, Within;
    if row != items[0] {
      assert items == [items[0]] + items[1..];
      LeadsToBy(t, items[1..], row, x);
    }
  }

  lemma {:induction false} LeadsUp(t: Table, id: RunId, items: seq<Row>, x: RunId)
    requires Forest(t) && LeadsTo(t, items, x)
    requires forall row :: row in items ==> row in t.rows && row.parent == id
    ensures Within(t, id, x) && x != id
  {
    hide Forest, Within;
    if Within(t, items[0].child, x) {
      var i :| 0 <= i < |t.rows| && t.rows[i] == items[0];
      WithinStep(t, i, x);
      RowOf(t, i);
      ParentIsHigher(t, items[0].child);
      WithinIsDeeper(t, items[0].child, x);
    } else {
      LeadsUp(t, id, items[1..], x);
    }
  }

  lemma ChildrenLead(t: Table, id: RunId, x: RunId)
    requires Forest(t)
    ensures LeadsTo(t, ChildRows(t.rows, id), x) <==> Within(t, id, x) && x != id
  {
    hide Forest, Within;
    var items := ChildRows(t.rows, id);
    if LeadsTo(t, items, x) {
      forall row | row in items
        ensures row in t.rows && row.parent == id
      {
        ChildRowsAre(t.rows, id, row);
      }
      LeadsUp(t, id, items, x);
    }
    if Within(t, id, x) && x != id {
      var i := ChildTowards(t, id, x);
      ChildRowsAre(t.rows, id, t.rows[i]);
      LeadsToBy(t, items, t.rows[i], x);
    }
  }

  lemma AllBelow(below: map<RunId, seq<Row>>, records: map<RunId, Record>, t: Table, root: RunId, id: RunId)
    requires Forest(t) && Gathered(below, records, t, root) && Within(t, root, id)
    ensures RowsBelow(below, id) == ChildRows(t.rows, id) && id in records && id in t.runs
    ensures records[id] == t.runs[id]
    ensures forall row :: row in RowsBelow(below, id) ==> Below(t, root, id, row)
  {
    hide Forest;
    forall row | row in RowsBelow(below, id)
      ensures Below(t, root, id, row)
    {
      ChildRowsAre(t.rows, id, row);
    }
  }

  /** The tree holds exactly the run and its descendants. */
  lemma {:induction false} BuildHolds(below: map<RunId, seq<Row>>, records: map<RunId, Record>, t: Table, root: RunId,
                                      id: RunId, node: Option<nat>, depth: nat, x: RunId)
    requires Forest(t) && Gathered(below, records, t, root)
    requires Within(t, root, id) && depth == RowDepth(t.rows, id) <= t.maxDepth
    ensures x in RunsOf(Build(below, records, t, root, id, node, depth)) <==> Within(t, id, x)
    decreases t.maxDepth - depth, 1, 0
  {
    hide Forest, Within, Gathered, Below, BuildAll;
    AllBelow(below, records, t, root, id);
    BuildAllHolds(below, records, t, root, id, depth, RowsBelow(below, id), x);
    ChildrenLead(t, id, x);
    WithinItself(t, id);
  }

  lemma WithinItself(t: Table, id: RunId)
    requires Forest(t)
    ensures Within(t, id, id)
  {
  }

  lemma {:induction false} BuildAllHolds(below: map<RunId, seq<Row>>, records: map<RunId, Record>, t: Table,
                                         root: RunId, id: RunId, depth: nat, items: seq<Row>, x: RunId)
    requires Forest(t) && Gathered(below, records, t, root)
    requires depth == RowDepth(t.rows, id) <= t.maxDepth
    requires forall row :: row in items ==> Below(t, root, id, row)
    ensures x in RunsOfAll(BuildAll(below, records, t, root, id, depth, items)) <==> LeadsTo(t, items, x)
    decreases t.maxDepth - depth, 0, |items|
  {
    hide Forest, Within, Gathered, Below, Build, RunsOf;
    if items != [] {
      RowBelow(t, root, id, items[0]);
      BuildHolds(below, records, t, root, items[0].child, Some(items[0].node), items[0].depth, x);
      BuildAllHolds(below, records, t, root, id, depth, items[1..], x);
    }
  }

  // ---------------------------------------------------------------- each run once

  lemma DistinctBoth(a: seq<RunId>, b: seq<RunId>)
    requires Distinct(a) && Distinct(b) && forall x :: x in a ==> x !in b
    ensures Distinct(a + b)
  {
    forall i, j | 0 <= i < |a| <= j < |a + b|
      ensures (a + b)[i] != (a + b)[j]
    {
      assert (a + b)[i] in a && (a + b)[j] in b;
    }
  }

  lemma {:induction false} BuildDistinct(below: map<RunId, seq<Row>>, records: map<RunId, Record>, t: Table,
                                         root: RunId, id: RunId, node: Option<nat>, depth: nat)
    requires Forest(t) && Gathered(below, records, t, root)
    requires Within(t, root, id) && depth == RowDepth(t.rows, id) <= t.maxDepth
    ensures Distinct(RunsOf(Build(below, records, t, root, id, node, depth)))
    decreases t.maxDepth - depth, 1, 0
  {
    hide Forest, Within, Gathered, Below, BuildAll, Distinct, ChildrenDiffer;
    AllBelow(below, records, t, root, id);
    var items := RowsBelow(below, id);
    RowsDiffer(t);
    ChildRowsDiffer(t.rows, id);
    BuildAllDistinct(below, records, t, root, id, depth, items);
    BuildAllHolds(below, records, t, root, id, depth, items, id);
    ChildrenLead(t, id, id);
    Single(id);
    DistinctBoth([id], RunsOfAll(BuildAll(below, records, t, root, id, depth, items)));
  }

  lemma Single(x: RunId)
    ensures Distinct([x])
  {
  }

  lemma RowsDiffer(t: Table)
    requires Forest(t)
    ensures ChildrenDiffer(t.rows)
  {
    forall i, j | 0 <= i < j < |t.rows|
      ensures t.rows[i].child != t.rows[j].child
    {
      assert Joined(t.rows, t.maxDepth, i, j);
    }
  }

  lemma {:induction false} BuildAllDistinct(below: map<RunId, seq<Row>>, records: map<RunId, Record>, t: Table,
                                            root: RunId, id: RunId, depth: nat, items: seq<Row>)
    requires Forest(t) && Gathered(below, records, t, root) && ChildrenDiffer(items)
    requires depth == RowDepth(t.rows, id) <= t.maxDepth
    requires forall row :: row in items ==> Below(t, root, id, row)
    ensures Distinct(RunsOfAll(BuildAll(below, records, t, root, id, depth, items)))
    decreases t.maxDepth - depth, 0, |items|
  {
    hide Forest, Within, Gathered, Below, Build, RunsOf, Distinct;
    if items == [] {
      Empty();
    } else {
      var row, rest := items[0], items[1..];
      RowBelow(t, root, id, row);
      var first := Build(below, records, t, root, row.child, Some(row.node), row.depth);
      var others := BuildAll(below, records, t, root, id, depth, rest);
      BuildDistinct(below, records, t, root, row.child, Some(row.node), row.depth);
      BuildAllDistinct(below, records, t, root, id, depth, rest);
      forall x | x in RunsOf(first)
        ensures x !in RunsOfAll(others)
      {
        BuildHolds(below, records, t, root, row.child, Some(row.node), row.depth, x);
        BuildAllHolds(below, records, t, root, id, depth, rest, x);
        if LeadsTo(t, rest, x) {
          NotAlsoUnder(t, root, id, row, rest, x);
        }
      }
      DistinctBoth(RunsOf(first), RunsOfAll(others));
    }
  }

  lemma Empty()
    ensures Distinct<RunId>([])
  {
  }

  lemma {:induction false} NotAlsoUnder(t: Table, root: RunId, id: RunId, row: Row, rest: seq<Row>, x: RunId)
    requires Forest(t) && Below(t, root, id, row) && Within(t, row.child, x)
    requires forall other :: other in rest ==> Below(t, root, id, other) && other.child != row.child
    ensures !LeadsTo(t, rest, x)
  {
    hide Forest, Within, Below;
    if rest != [] {
      NotAlsoUnder(t, root, id, row, rest[1..], x);
      if Within(t, rest[0].child, x) {
        SiblingsAreEquallyDeep(t, root, id, row, rest[0]);
        SubtreesAreDisjoint(t, row.child, rest[0].child, x);
      }
    }
  }

  lemma SiblingsAreEquallyDeep(t: Table, root: RunId, id: RunId, row: Row, other: Row)
    requires Forest(t) && Below(t, root, id, row) && Below(t, root, id, other)
    ensures RowDepth(t.rows, row.child) == RowDepth(t.rows, other.child)
  {
    RowBelow(t, root, id, row);
    RowBelow(t, root, id, other);
    var i :| 0 <= i < |t.rows| && t.rows[i] == row;
    var j :| 0 <= j < |t.rows| && t.rows[j] == other;
    assert Joined(t.rows, t.maxDepth, i, j);
  }

  // ---------------------------------------------------------------- every node shows its own row

  /** The node shows its run's record, and has one child for each of the run's rows, in order, with the row's node id
      and stored depth. */
  ghost predicate Faithful(t: Table, tree: Tree)
    decreases tree
  {
    && tree.id in t.runs
    && tree.record == t.runs[tree.id]
    && FaithfulAll(t, ChildRows(t.rows, tree.id), tree.children)
  }

  ghost predicate FaithfulAll(t: Table, items: seq<Row>, trees: seq<Tree>)
    decreases trees
  {
    && |trees| == |items|
    && (items != [] ==>
          && trees[0].id == items[0].child
          && trees[0].node == Some(items[0].node)
          && trees[0].depth == items[0].depth
          && Faithful(t, trees[0])
          && FaithfulAll(t, items[1..], trees[1..]))
  }

  lemma {:induction false} BuildFaithful(below: map<RunId, seq<Row>>, records: map<RunId, Record>, t: Table,
                                         root: RunId, id: RunId, node: Option<nat>, depth: nat)
    requires Forest(t) && Gathered(below, records, t, root)
    requires Within(t, root, id) && depth == RowDepth(t.rows, id) <= t.maxDepth
    ensures Faithful(t, Build(below, records, t, root, id, node, depth))
    decreases t.maxDepth - depth, 1, 0
  {
    hide Forest, Within, Gathered, Below, BuildAll, FaithfulAll;
    AllBelow(below, records, t, root, id);
    BuildAllFaithful(below, records, t, root, id, depth, RowsBelow(below, id));
  }

  lemma {:induction false} BuildAllFaithful(below: map<RunId, seq<Row>>, records: map<RunId, Record>, t: Table,
                                            root: RunId, id: RunId, depth: nat, items: seq<Row>)
    requires Forest(t) && Gathered(below, records, t, root)
    requires depth == RowDepth(t.rows, id) <= t.maxDepth
    requires forall row :: row in items ==> Below(t, root, id, row)
    ensures FaithfulAll(t, items, BuildAll(below, records, t, root, id, depth, items))
    decreases t.maxDepth - depth, 0, |items|
  {
    hide Forest, Within, Gathered, Below, Faithful;
    if items != [] {
      RowBelow(t, root, id, items[0]);
      BuildFaithful(below, records, t, root, items[0].child, Some(items[0].node), items[0].depth);
      BuildAllFaithful(below, records, t, root, id, depth, items[1..]);
      assert BuildAll(below, records, t, root, id, depth, items)[1..]
             == BuildAll(below, records, t, root, id, depth, items[1..]);
    }
  }

  // ---------------------------------------------------------------- stored depth and distance

  /** Every node shows its distance below a node that is `distance` deep. */
  ghost predicate ShowsDistance(tree: Tree, distance: nat) {
    tree.depth == distance && AllShowDistance(tree.children, distance + 1)
  }

  ghost predicate AllShowDistance(trees: seq<Tree>, distance: nat) {
    trees != [] ==> ShowsDistance(trees[0], distance) && AllShowDistance(trees[1..], distance)
  }

  lemma {:induction false} BelowAChild(t: Table, tree: Tree)
    requires Forest(t) && Faithful(t, tree) && HasRow(t.rows, tree.id) && tree.depth == RowDepth(t.rows, tree.id)
    ensures ShowsDistance(tree, tree.depth)
    decreases tree, 1, 0
  {
    hide Forest, FaithfulAll;
    var items := ChildRows(t.rows, tree.id);
    forall row | row in items
      ensures row in t.rows && row.parent == tree.id && row.depth == tree.depth + 1
    {
      ChildRowsAre(t.rows, tree.id, row);
      var i :| 0 <= i < |t.rows| && t.rows[i] == row;
      RowOf(t, i);
      ParentIsHigher(t, row.child);
    }
    AllBelowAChild(t, items, tree.children, tree.depth + 1);
  }

  lemma {:induction false} AllBelowAChild(t: Table, items: seq<Row>, trees: seq<Tree>, distance: nat)
    requires Forest(t) && FaithfulAll(t, items, trees)
    requires forall row :: row in items ==> row in t.rows && row.depth == distance
    ensures AllShowDistance(trees, distance)
    decreases trees, 0, |items|
  {
    hide Forest, Faithful;
    if items != [] {
      var i :| 0 <= i < |t.rows| && t.rows[i] == items[0];
      RowOf(t, i);
      BelowAChild(t, trees[0]);
      AllBelowAChild(t, items[1..], trees[1..], distance);
    }
  }

  lemma {:induction false} FirstLevel(t: Table, items: seq<Row>, trees: seq<Tree>)
    requires FaithfulAll(t, items, trees) && AllShowDistance(trees, 1)
    ensures forall row :: row in items ==> row.depth == 1
    decreases |items|
  {
    hide Faithful;
    if items != [] {
      FirstLevel(t, items[1..], trees[1..]);
      assert items == [items[0]] + items[1..];
    }
  }

  /** The depths shown are distances from the root exactly when the root's own children were stored with depth one,
      which fails once the root was itself a child whose parent has been deleted. */
  lemma ShowsDistanceExactly(t: Table, tree: Tree)
    requires Forest(t) && Faithful(t, tree) && tree.depth == 0 && !HasRow(t.rows, tree.id)
    ensures ShowsDistance(tree, 0) <==> forall row :: row in t.rows && row.parent == tree.id ==> row.depth == 1
  {
    hide Forest;
    var items := ChildRows(t.rows, tree.id);
    assert forall row :: row in items <==> row in t.rows && row.parent == tree.id by {
      forall row
        ensures row in items <==> row in t.rows && row.parent == tree.id
      {
        ChildRowsAre(t.rows, tree.id, row);
      }
    }
    hide FaithfulAll, ChildRows;
    if ShowsDistance(tree, 0) {
      FirstLevel(t, items, tree.children);
    }
    if forall row :: row in items ==> row.depth == 1 {
      AllBelowAChild(t, items, tree.children, 1);
    }
  }

  // ---------------------------------------------------------------- collecting the relations

  /** `list_for_parents`: the rows of any of these parents, oldest first. */
  function RowsUnder(rows: seq<Row>, parents: seq<RunId>): seq<Row> {
    if rows == [] then []
    else
      var rest := RowsUnder(rows[..|rows| - 1], parents);
      if rows[|rows| - 1].parent in parents then rest + [rows[|rows| - 1]] else rest
  }

  lemma {:induction false} RowsUnderAre(rows: seq<Row>, parents: seq<RunId>, row: Row)
    ensures row in RowsUnder(rows, parents) <==> row in rows && row.parent in parents
  {
    if rows != [] {
      assert rows == rows[..|rows| - 1] + [rows[|rows| - 1]];
      RowsUnderAre(rows[..|rows| - 1], parents, row);
    }
  }

  lemma {:induction false} ChildRowsUnder(rows: seq<Row>, parents: seq<RunId>, p: RunId)
    ensures ChildRows(RowsUnder(rows, parents), p) == if p in parents then ChildRows(rows, p) else []
  {
    if rows != [] {
      var front, last := rows[..|rows| - 1], rows[|rows| - 1];
      ChildRowsUnder(front, parents, p);
      if last.parent in parents {
        var rest := RowsUnder(front, parents);
        assert (rest + [last])[..|rest|] == rest;
      }
    }
  }

  lemma {:induction false} ChildRowsOfBoth(a: seq<Row>, b: seq<Row>, p: RunId)
    ensures ChildRows(a + b, p) == ChildRows(a, p) + ChildRows(b, p)
    decreases |b|
  {
    if b == [] {
      assert a + b == a;
    } else {
      ChildRowsOfBoth(a, b[..|b| - 1], p);
      assert (a + b)[..|a + b| - 1] == a + b[..|b| - 1];
    }
  }

  /** The frontier is one level of the tree: equally deep runs below the root, the root alone or all of them
      children. */
  ghost predicate Level(t: Table, root: RunId, frontier: seq<RunId>, depth: nat)
    requires Forest(t)
  {
    forall x :: x in frontier ==>
      && Within(t, root, x) && x in t.runs && RowDepth(t.rows, x) == depth <= t.maxDepth
      && (HasRow(t.rows, x) || x == root)
  }

  /** What has been expanded is below the root and above the frontier, its rows are collected and no others, and its
      children are expanded or in the frontier. */
  ghost predicate Collected(t: Table, root: RunId, frontier: seq<RunId>, depth: nat, seen: set<RunId>,
                            relations: seq<Row>)
    requires Forest(t)
  {
    && (forall x :: x in seen ==> Within(t, root, x) && RowDepth(t.rows, x) < depth)
    && (forall p {:trigger ChildRows(relations, p)} ::
          ChildRows(relations, p) == if p in seen then ChildRows(t.rows, p) else [])
    && (forall row :: row in t.rows && row.parent in seen ==> row.child in seen || row.child in frontier)
    && (root in seen || root in frontier)
  }

  lemma RowLevel(t: Table, root: RunId, frontier: seq<RunId>, depth: nat, row: Row)
    requires Forest(t) && Level(t, root, frontier, depth) && row in t.rows && row.parent in frontier
    ensures Within(t, root, row.child) && row.child in t.runs && HasRow(t.rows, row.child)
    ensures depth < RowDepth(t.rows, row.child) == row.depth <= t.maxDepth
    ensures if row.parent == root && !HasRow(t.rows, root) then depth == 0 else depth > 0 && row.depth == depth + 1
  {
    hide Forest, Within;
    RowBelow(t, root, row.parent, row);
    RowInTable(t, row);
    ParentIsHigher(t, row.child);
    ParentOfRow(t, row);
    if HasRow(t.rows, row.parent) {
      ParentIsHigher(t, row.parent);
    }
  }

  lemma ParentOfRow(t: Table, row: Row)
    requires Forest(t) && row in t.rows
    ensures HasRow(t.rows, row.child) && ParentOf(t.rows, row.child) == row.parent
  {
    var i :| 0 <= i < |t.rows| && t.rows[i] == row;
    RowOf(t, i);
  }

  lemma NextLevel(t: Table, root: RunId, frontier: seq<RunId>, depth: nat, row: Row, other: Row)
    requires Forest(t) && !HasRow(t.rows, root) && Level(t, root, frontier, depth)
    requires row in t.rows && row.parent in frontier && other in t.rows && other.parent in frontier
    ensures Within(t, root, row.child) && row.child in t.runs && HasRow(t.rows, row.child)
    ensures depth < RowDepth(t.rows, row.child) == RowDepth(t.rows, other.child) <= t.maxDepth
  {
    hide Forest, Within, Level;
    RowLevel(t, root, frontier, depth, row);
    RowLevel(t, root, frontier, depth, other);
    if row.parent == other.parent {
      Siblings(t, row, other);
    }
  }

  lemma Siblings(t: Table, row: Row, other: Row)
    requires Forest(t) && row in t.rows && other in t.rows && row.parent == other.parent
    ensures row.depth == other.depth
  {
    var i :| 0 <= i < |t.rows| && t.rows[i] == row;
    var j :| 0 <= j < |t.rows| && t.rows[j] == other;
    assert Joined(t.rows, t.maxDepth, i, j);
  }

  function ChildrenOf(batch: seq<Row>): seq<RunId> {
    seq(|batch|, i requires 0 <= i < |batch| => batch[i].child)
  }

  lemma ChildOf(batch: seq<Row>, x: RunId) returns (row: Row)
    requires x in ChildrenOf(batch)
    ensures row in batch && row.child == x
  {
    var i :| 0 <= i < |batch| && ChildrenOf(batch)[i] == x;
    row := batch[i];
  }

  lemma Descend(t: Table, root: RunId, frontier: seq<RunId>, depth: nat, batch: seq<Row>, depth': nat)
    requires Forest(t) && !HasRow(t.rows, root) && Level(t, root, frontier, depth)
    requires batch == RowsUnder(t.rows, frontier)
    requires depth' == if batch == [] then depth + 1 else batch[0].depth
    ensures Level(t, root, ChildrenOf(batch), depth') && depth < depth'
  {
    hide Forest, Within, Level, RowsUnder;
    if batch != [] {
      RowsUnderAre(t.rows, frontier, batch[0]);
      NextLevel(t, root, frontier, depth, batch[0], batch[0]);
      RowInTable(t, batch[0]);
    }
    forall x | x in ChildrenOf(batch)
      ensures Within(t, root, x) && x in t.runs && RowDepth(t.rows, x) == depth' <= t.maxDepth && HasRow(t.rows, x)
    {
      var row := ChildOf(batch, x);
      RowsUnderAre(t.rows, frontier, row);
      RowInTable(t, row);
      NextLevel(t, root, frontier, depth, row, batch[0]);
    }
    LevelBy(t, root, ChildrenOf(batch), depth');
  }

  lemma RowInTable(t: Table, row: Row)
    requires Forest(t) && row in t.rows
    ensures HasRow(t.rows, row.child) && RowDepth(t.rows, row.child) == row.depth
  {
    var i :| 0 <= i < |t.rows| && t.rows[i] == row;
    RowOf(t, i);
  }

  lemma LevelBy(t: Table, root: RunId, frontier: seq<RunId>, depth: nat)
    requires Forest(t)
    requires forall x :: x in frontier ==>
               Within(t, root, x) && x in t.runs && RowDepth(t.rows, x) == depth <= t.maxDepth && HasRow(t.rows, x)
    ensures Level(t, root, frontier, depth)
  {
  }

  lemma CollectNext(t: Table, root: RunId, frontier: seq<RunId>, depth: nat, seen: set<RunId>, relations: seq<Row>,
                    batch: seq<Row>, depth': nat)
    requires Forest(t) && Level(t, root, frontier, depth) && Collected(t, root, frontier, depth, seen, relations)
    requires batch == RowsUnder(t.rows, frontier) && depth < depth'
    ensures Collected(t, root, ChildrenOf(batch), depth', seen + (set x | x in frontier), relations + batch)
  {
    hide Forest, Within, RowsUnder, ChildRows;
    var seen' := seen + (set x | x in frontier);
    forall p
      ensures ChildRows(relations + batch, p) == if p in seen' then ChildRows(t.rows, p) else []
    {
      ChildRowsOfBoth(relations, batch, p);
      ChildRowsUnder(t.rows, frontier, p);
    }
    forall row | row in t.rows && row.parent in seen'
      ensures row.child in seen' || row.child in ChildrenOf(batch)
    {
      if row.parent !in seen {
        RowsUnderAre(t.rows, frontier, row);
        var i :| 0 <= i < |batch| && batch[i] == row;
        assert ChildrenOf(batch)[i] == row.child;
      }
    }
  }

  lemma {:induction false} AllExpanded(t: Table, root: RunId, depth: nat, seen: set<RunId>, relations: seq<Row>,
                                       p: RunId)
    requires Forest(t) && Collected(t, root, [], depth, seen, relations) && Within(t, root, p)
    ensures p in seen
    decreases RowDepth(t.rows, p)
  {
    hide Forest, ChildRows;
    if p != root {
      ParentIsHigher(t, p);
      AllExpanded(t, root, depth, seen, relations, ParentOf(t.rows, p));
      assert t.rows[Find(t.rows, p)] in t.rows;
    }
  }

  ghost predicate RecordsOk(t: Table, records: map<RunId, Record>) {
    forall x :: x in records ==> x in t.runs && records[x] == t.runs[x]
  }

  /** The frontier loop: one query for the rows below a level, one for their runs, and so on until a level has no
      rows. */
  method Collect(t: Table, root: RunId) returns (relations: seq<Row>, records: map<RunId, Record>)
    requires Forest(t) && root in t.runs && !HasRow(t.rows, root)
    ensures forall p :: Within(t, root, p) ==>
              p in records && p in t.runs && records[p] == t.runs[p] && ChildRows(relations, p) == ChildRows(t.rows, p)
  {
    hide Forest, Within, Level, Collected, RowsUnder;
    relations, records := [], map[root := t.runs[root]];
    var frontier := [root];
    ghost var depth, seen := 0, {};
    StartCollecting(t, root);
    while frontier != []
      invariant Level(t, root, frontier, depth) && Collected(t, root, frontier, depth, seen, relations)
      invariant RecordsOk(t, records)
      invariant forall x :: x in seen || x in frontier ==> x in records
      decreases t.maxDepth + 1 - depth, |frontier|
    {
      var batch := RowsUnder(t.rows, frontier);
      relations := relations + batch;
      var children := ChildrenOf(batch);
      ghost var deeper := if batch == [] then depth + 1 else batch[0].depth;
      Descend(t, root, frontier, depth, batch, deeper);
      CollectNext(t, root, frontier, depth, seen, relations[..|relations| - |batch|], batch, deeper);
      assert relations[..|relations| - |batch|] + batch == relations;
      LevelHasRuns(t, root, frontier, depth);
      LevelHasRuns(t, root, children, deeper);
      records := records + map x | x in children && x in t.runs :: t.runs[x];
      seen := seen + set x | x in frontier;
      frontier, depth := children, deeper;
    }
    forall p | Within(t, root, p)
      ensures p in records && p in t.runs && records[p] == t.runs[p] && ChildRows(relations, p) == ChildRows(t.rows, p)
    {
      AllExpanded(t, root, depth, seen, relations, p);
      CollectedRows(t, root, depth, seen, relations, p);
    }
  }

  lemma StartCollecting(t: Table, root: RunId)
    requires Forest(t) && root in t.runs && !HasRow(t.rows, root)
    ensures Level(t, root, [root], 0) && Collected(t, root, [root], 0, {}, [])
  {
  }

  lemma LevelHasRuns(t: Table, root: RunId, frontier: seq<RunId>, depth: nat)
    requires Forest(t) && Level(t, root, frontier, depth)
    ensures forall x :: x in frontier ==> x in t.runs
    ensures frontier != [] ==> depth <= t.maxDepth
  {
    if frontier != [] {
      assert frontier[0] in frontier;
    }
  }

  lemma CollectedRows(t: Table, root: RunId, depth: nat, seen: set<RunId>, relations: seq<Row>, p: RunId)
    requires Forest(t) && Collected(t, root, [], depth, seen, relations) && p in seen
    ensures ChildRows(relations, p) == ChildRows(t.rows, p)
  {
  }

  // ---------------------------------------------------------------- the whole query

  /** The climbing loop. */
  method Climb(t: Table, id: RunId) returns (root: RunId)
    requires Forest(t)
    ensures root == Top(t, id) && !HasRow(t.rows, root)
    ensures id in t.runs <==> root in t.runs
  {
    hide Forest;
    root := id;
    while HasRow(t.rows, root)
      invariant Top(t, root) == Top(t, id)
      invariant id in t.runs <==> root in t.runs
      decreases RowDepth(t.rows, root)
    {
      ParentIsHigher(t, root);
      root := ParentOf(t.rows, root);
    }
  }

  /** The loop over `relations` that fills `by_parent`. */
  method ByParent(relations: seq<Row>) returns (below: map<RunId, seq<Row>>)
    ensures forall p :: RowsBelow(below, p) == ChildRows(relations, p)
  {
    below := map[];
    var i := 0;
    while i < |relations|
      invariant i <= |relations|
      invariant forall p :: RowsBelow(below, p) == ChildRows(relations[..i], p)
    {
      var row := relations[i];
      assert relations[..i + 1][..i] == relations[..i];
      below := below[row.parent := RowsBelow(below, row.parent) + [row]];
      i := i + 1;
    }
    assert relations[..|relations|] == relations;
  }

  /** `get_run_tree`: for a run that exists, the tree of its root. It holds exactly the runs with that root, each once,
      and every node shows its own record, its delegated children in order, and their stored depths; no lookup of a
      record fails. */
  method GetRunTree(t: Table, id: RunId) returns (found: Option<Tree>)
    requires Forest(t)
    ensures found.Some? <==> id in t.runs
    ensures found.Some? ==>
              var tree := found.value;
              && tree.id == Top(t, id) && tree.node == None && tree.depth == 0
              && Faithful(t, tree)
              && Distinct(RunsOf(tree))
              && (forall x :: x in RunsOf(tree) <==> Top(t, x) == Top(t, id))
  {
    hide Forest, Top, Within, Build, Faithful, Gathered, RowsBelow;
    var root := Climb(t, id);
    if root !in t.runs {
      return None;
    }
    var relations, records := Collect(t, root);
    var below := ByParent(relations);
    RootFits(t, root);
    GatheredBy(below, records, t, root, relations);
    var tree := Build(below, records, t, root, root, None, 0);
    BuildShape(below, records, t, root, root, None, 0);
    BuildFaithful(below, records, t, root, root, None, 0);
    BuildDistinct(below, records, t, root, root, None, 0);
    forall x
      ensures x in RunsOf(tree) <==> Top(t, x) == Top(t, id)
    {
      BuildHolds(below, records, t, root, root, None, 0, x);
      WithinRoot(t, root, x);
    }
    found := Some(tree);
  }

  lemma RootFits(t: Table, root: RunId)
    requires Forest(t) && !HasRow(t.rows, root)
    ensures Within(t, root, root) && RowDepth(t.rows, root) == 0
  {
  }

  lemma GatheredBy(below: map<RunId, seq<Row>>, records: map<RunId, Record>, t: Table, root: RunId, relations: seq<Row>)
    requires Forest(t)
    requires forall p :: RowsBelow(below, p) == ChildRows(relations, p)
    requires forall p :: Within(t, root, p) ==>
               p in records && p in t.runs && records[p] == t.runs[p] && ChildRows(relations, p) == ChildRows(t.rows, p)
    ensures Gathered(below, records, t, root)
  {
    hide Forest, Within, ChildRows, RowsBelow;
  }

  lemma BuildShape(below: map<RunId, seq<Row>>, records: map<RunId, Record>, t: Table, root: RunId, id: RunId,
                   node: Option<nat>, depth: nat)
    requires Forest(t) && Gathered(below, records, t, root)
    requires Within(t, root, id) && depth == RowDepth(t.rows, id) <= t.maxDepth
    ensures var tree := Build(below, records, t, root, id, node, depth);
            tree.id == id && tree.node == node && tree.depth == depth
  {
    hide Forest, Within, BuildAll;
  }
}
