/**
  The worklist of _linux_owned_descendants in scripts/regression_common.py:
  all transitive children of a process in one reading of the process table.
 */
module Descendants {

  /** One row of the table read from /proc. */
  datatype Row = Row(pid: nat, ppid: nat, zombie: bool, token: string)

  /** The rows are the values of a dictionary keyed by PID. */
  ghost predicate DistinctPids(rows: seq<Row>) {
    forall i, j :: 0 <= i < j < |rows| ==> rows[i].pid != rows[j].pid
  }

  /** `path` leads from a child of `root` down to its last row, parent by parent. */
  ghost predicate Chain(rows: seq<Row>, root: nat, path: seq<Row>) {
    && path != [] && path[0].ppid == root
    && (forall i :: 0 <= i < |path| ==> path[i] in rows)
    && (forall i :: 0 <= i < |path| - 1 ==> path[i + 1].ppid == path[i].pid)
  }

  ghost predicate Descendant(rows: seq<Row>, root: nat, r: Row) {
    exists path :: Chain(rows, root, path) && path[|path| - 1] == r
  }

  /** The parent links lead from `root` back to itself. */
  ghost predicate RootOnCycle(rows: seq<Row>, root: nat) {
    exists r :: r in rows && r.pid == root && Descendant(rows, root, r)
  }

  /** The children of one parent, in table order. */
  function ChildrenOf(rows: seq<Row>, parent: nat): (cs: seq<Row>)
    ensures forall r :: r in cs <==> r in rows && r.ppid == parent
    ensures |cs| <= |rows|
  {
    if rows == [] then []
    else
      var rest := ChildrenOf(rows[..|rows| - 1], parent);
      var last := rows[|rows| - 1];
      assert rows == rows[..|rows| - 1] + [last];
      if last.ppid == parent then rest + [last] else rest
  }

  lemma {:induction false} ChildrenDistinct(rows: seq<Row>, parent: nat)
    requires DistinctPids(rows)
    ensures DistinctPids(ChildrenOf(rows, parent))
  {
    if rows != [] {
      var init := rows[..|rows| - 1];
      ChildrenDistinct(init, parent);
      forall r | r in ChildrenOf(init, parent) ensures r.pid != rows[|rows| - 1].pid {
        assert r in init;
      }
    }
  }

  // --- what the worklist keeps ------------------------------------------------

  /** `r` hangs below `root` or below a row already found. */
  ghost predicate Below(found: seq<Row>, root: nat, r: Row) {
    r.ppid == root || exists q :: q in found && q.pid == r.ppid
  }

  ghost predicate Worklist(rows: seq<Row>, root: nat, found: seq<Row>, pending: seq<Row>) {
    && DistinctPids(found + pending)
    && (forall r :: r in found + pending ==> r in rows && Below(found, root, r) && Descendant(rows, root, r))
    && (forall r :: r in rows && Below(found, root, r) ==> r in found + pending)
  }

  lemma DirectChild(rows: seq<Row>, root: nat, r: Row)
    requires r in rows && r.ppid == root
    ensures Descendant(rows, root, r)
  {
    assert Chain(rows, root, [r]);
  }

  lemma OneDeeper(rows: seq<Row>, root: nat, q: Row, r: Row)
    requires Descendant(rows, root, q) && r in rows && r.ppid == q.pid
    ensures Descendant(rows, root, r)
  {
    var path :| Chain(rows, root, path) && path[|path| - 1] == q;
    assert Chain(rows, root, path + [r]);
  }

  /** Popping a row and pushing its children keeps the worklist. */
  lemma PopKeeps(rows: seq<Row>, root: nat, found: seq<Row>, pending: seq<Row>)
    requires DistinctPids(rows) && !RootOnCycle(rows, root)
    requires Worklist(rows, root, found, pending) && pending != []
    ensures
      var r := pending[|pending| - 1];
      Worklist(rows, root, found + [r], pending[..|pending| - 1] + ChildrenOf(rows, r.pid))
  {
    var r := pending[|pending| - 1];
    assert (found + pending)[|found + pending| - 1] == r;
    PopDistinct(rows, root, found, pending);
    PopSound(rows, root, found, pending);
    PopClosed(rows, root, found, pending);
  }

  /** The children of the popped row are new: no row found or pending has it as parent. */
  lemma PopDistinct(rows: seq<Row>, root: nat, found: seq<Row>, pending: seq<Row>)
    requires DistinctPids(rows) && !RootOnCycle(rows, root)
    requires Worklist(rows, root, found, pending) && pending != []
    ensures
      var r := pending[|pending| - 1];
      DistinctPids(found + [r] + (pending[..|pending| - 1] + ChildrenOf(rows, r.pid)))
  {
    var r := pending[|pending| - 1];
    var cs := ChildrenOf(rows, r.pid);
    ChildrenDistinct(rows, r.pid);
    forall x, c | x in found + pending && c in cs ensures x.pid != c.pid {
      NotChildOfPopped(rows, root, found, pending, x);
      if x.pid == c.pid {
        SamePid(rows, x, c);
      }
    }
    DistinctAfterPop(found, pending, cs);
  }

  lemma NotChildOfPopped(rows: seq<Row>, root: nat, found: seq<Row>, pending: seq<Row>, x: Row)
    requires !RootOnCycle(rows, root)
    requires Worklist(rows, root, found, pending) && pending != [] && x in found + pending
    ensures x.ppid != pending[|pending| - 1].pid
  {
    var r := pending[|pending| - 1];
    var was := found + pending;
    assert r in was && was[|was| - 1] == r && r.pid != root;
    assert Below(found, root, x);
    if x.ppid != root {
      var q :| q in found && q.pid == x.ppid;
      var i :| 0 <= i < |found| && found[i] == q;
      assert was[i] == q;
    }
  }

  lemma PopSound(rows: seq<Row>, root: nat, found: seq<Row>, pending: seq<Row>)
    requires Worklist(rows, root, found, pending) && pending != []
    ensures
      var r := pending[|pending| - 1];
      forall x :: x in found + [r] + (pending[..|pending| - 1] + ChildrenOf(rows, r.pid)) ==>
        x in rows && Below(found + [r], root, x) && Descendant(rows, root, x)
  {
    var r := pending[|pending| - 1];
    var found' := found + [r];
    forall x | x in found' + (pending[..|pending| - 1] + ChildrenOf(rows, r.pid))
      ensures x in rows && Below(found', root, x) && Descendant(rows, root, x)
    {
      assert r in found + pending && r in found';
      if x in ChildrenOf(rows, r.pid) {
        OneDeeper(rows, root, r, x);
      } else {
        assert x in found + pending && Below(found, root, x);
        if x.ppid != root {
          var q :| q in found && q.pid == x.ppid;
          assert q in found';
        }
      }
    }
  }

  lemma PopClosed(rows: seq<Row>, root: nat, found: seq<Row>, pending: seq<Row>)
    requires Worklist(rows, root, found, pending) && pending != []
    ensures
      var r := pending[|pending| - 1];
      forall x :: x in rows && Below(found + [r], root, x) ==>
        x in found + [r] + (pending[..|pending| - 1] + ChildrenOf(rows, r.pid))
  {
  }

  lemma SamePid(rows: seq<Row>, x: Row, y: Row)
    requires DistinctPids(rows) && x in rows && y in rows && x.pid == y.pid
    ensures x == y
  {
  }

  lemma DistinctAfterPop(found: seq<Row>, pending: seq<Row>, cs: seq<Row>)
    requires pending != [] && DistinctPids(found + pending) && DistinctPids(cs)
    requires forall x, c :: x in found + pending && c in cs ==> x.pid != c.pid
    ensures DistinctPids(found + [pending[|pending| - 1]] + (pending[..|pending| - 1] + cs))
  {
    var r, rest := pending[|pending| - 1], pending[..|pending| - 1];
    var was := found + pending;
    var now := found + [r] + (rest + cs);
    forall i, j | 0 <= i < j < |now| ensures now[i].pid != now[j].pid {
      if j < |was| {
        var i' := if i < |found| then i else if i == |found| then |was| - 1 else i - 1;
        var j' := if j < |found| then j else if j == |found| then |was| - 1 else j - 1;
        assert now[i] == was[i'] && now[j] == was[j'] && i' != j';
        assert was[if i' < j' then i' else j'].pid != was[if i' < j' then j' else i'].pid;
      } else if i < |was| {
        assert now[i] in was && now[j] in cs;
      } else {
        assert now[i] == cs[i - |was|] && now[j] == cs[j - |was|];
      }
    }
  }

  /** A duplicate-free selection is no longer than what it selects from. */
  lemma SelectionIsShort(rows: seq<Row>, some: seq<Row>)
    requires DistinctPids(some) && forall r :: r in some ==> r in rows
    ensures |some| <= |rows|
  {
    var all := set r | r in rows;
    SetIsShort(rows);
    SetIsWhole(some);
    assert (set r | r in some) <= all;
    SubsetIsSmall((set r | r in some), all);
  }

  lemma {:induction false} SetIsShort(rows: seq<Row>)
    ensures |set r | r in rows| <= |rows|
  {
    if rows != [] {
      SetIsShort(rows[1..]);
      assert (set r | r in rows) == {rows[0]} + (set r | r in rows[1..]);
    }
  }

  lemma {:induction false} SetIsWhole(some: seq<Row>)
    requires DistinctPids(some)
    ensures |set r | r in some| == |some|
  {
    if some != [] {
      SetIsWhole(some[1..]);
      assert (set r | r in some) == {some[0]} + (set r | r in some[1..]);
      assert some[0] !in some[1..];
    }
  }

  lemma {:induction false} SubsetIsSmall<T>(a: set<T>, b: set<T>)
    requires a <= b
    ensures |a| <= |b|
  {
    if a != {} {
      var x :| x in a;
      SubsetIsSmall(a - {x}, b - {x});
    }
  }

  /** With nothing pending, every descendant has been found. */
  lemma {:induction false} ClosedMeansAll(rows: seq<Row>, root: nat, found: seq<Row>, path: seq<Row>)
    requires Worklist(rows, root, found, []) && Chain(rows, root, path)
    ensures path[|path| - 1] in found
    decreases |path|
  {
    var r := path[|path| - 1];
    if |path| > 1 {
      var up := path[..|path| - 1];
      assert Chain(rows, root, up);
      ClosedMeansAll(rows, root, found, up);
      assert up[|up| - 1] in found && up[|up| - 1].pid == r.ppid;
    }
    assert Below(found, root, r);
    assert found + [] == found;
  }

  /**
    The worklist ends, and finds exactly the transitive children of `root`,
    each once, on every table whose parent links do not lead from `root` to itself.
   */
  method OwnedDescendants(rows: seq<Row>, root: nat) returns (found: seq<Row>)
    requires DistinctPids(rows) && !RootOnCycle(rows, root)
    ensures forall r :: r in found <==> Descendant(rows, root, r)
    ensures DistinctPids(found)
    ensures forall r :: r in found ==> r in rows
  {
    var byParent: map<nat, seq<Row>> := map[];
    for i := 0 to |rows|
      invariant forall k :: k in byParent ==> byParent[k] == ChildrenOf(rows[..i], k)
      invariant forall k :: k !in byParent ==> ChildrenOf(rows[..i], k) == []
    {
      var r := rows[i];
      assert rows[..i + 1][..i] == rows[..i] && rows[..i + 1][i] == r;
      var siblings := if r.ppid in byParent then byParent[r.ppid] else [];
      byParent := byParent[r.ppid := siblings + [r]];
    }
    assert rows[..|rows|] == rows;
    found := [];
    var pending := if root in byParent then byParent[root] else [];
    InitialWorklist(rows, root);
    while pending != []
      invariant Worklist(rows, root, found, pending) && |found| <= |rows|
      decreases |rows| - |found|
    {
      var r := pending[|pending| - 1];
      PopKeeps(rows, root, found, pending);
      var children := if r.pid in byParent then byParent[r.pid] else [];
      assert children == ChildrenOf(rows, r.pid);
      pending := pending[..|pending| - 1] + children;
      found := found + [r];
      PrefixDistinct(found, pending);
      assert forall x :: x in found ==> x in found + pending;
      SelectionIsShort(rows, found);
    }
    assert found + [] == found;
    forall r | Descendant(rows, root, r) ensures r in found {
      var path :| Chain(rows, root, path) && path[|path| - 1] == r;
      ClosedMeansAll(rows, root, found, path);
    }
  }

  lemma PrefixDistinct(a: seq<Row>, b: seq<Row>)
    requires DistinctPids(a + b)
    ensures DistinctPids(a)
  {
    forall i, j | 0 <= i < j < |a| ensures a[i].pid != a[j].pid {
      assert (a + b)[i] == a[i] && (a + b)[j] == a[j];
    }
  }

  lemma InitialWorklist(rows: seq<Row>, root: nat)
    requires DistinctPids(rows)
    ensures Worklist(rows, root, [], ChildrenOf(rows, root))
  {
    var cs := ChildrenOf(rows, root);
    assert [] + cs == cs;
    ChildrenDistinct(rows, root);
    forall r | r in cs ensures Descendant(rows, root, r) {
      DirectChild(rows, root, r);
    }
  }

  // --- and when it does not end -------------------------------------------------

  /** The list of pending rows after `n` turns of the loop. */
  function PendingAfter(rows: seq<Row>, pending: seq<Row>, n: nat): seq<Row>
    decreases n
  {
    if n == 0 || pending == [] then pending
    else
      var r := pending[|pending| - 1];
      PendingAfter(rows, pending[..|pending| - 1] + ChildrenOf(rows, r.pid), n - 1)
  }

  /** A row on the cycle through `root` stays pending until a later row of the cycle replaces it. */
  lemma {:induction false} CycleStaysPending(rows: seq<Row>, root: nat, path: seq<Row>, pending: seq<Row>, n: nat)
    requires Chain(rows, root, path) && path[|path| - 1].pid == root
    requires exists i :: 0 <= i < |path| && path[i] in pending
    ensures PendingAfter(rows, pending, n) != []
    decreases n
  {
    if n > 0 {
      var i :| 0 <= i < |path| && path[i] in pending;
      var r := pending[|pending| - 1];
      var pending' := pending[..|pending| - 1] + ChildrenOf(rows, r.pid);
      if path[i] == r {
        var j := if i == |path| - 1 then 0 else i + 1;
        assert path[j] in rows && path[j].ppid == r.pid;
        assert path[j] in pending';
      } else {
        assert path[i] in pending[..|pending| - 1];
      }
      CycleStaysPending(rows, root, path, pending', n - 1);
    }
  }

  /** The condition of OwnedDescendants is exact: with `root` on a cycle the loop never runs out of work. */
  lemma CycleNeverEnds(rows: seq<Row>, root: nat)
    requires RootOnCycle(rows, root)
    ensures forall n: nat :: PendingAfter(rows, ChildrenOf(rows, root), n) != []
  {
    var last :| last in rows && last.pid == root && Descendant(rows, root, last);
    var path :| Chain(rows, root, path) && path[|path| - 1] == last;
    assert path[0] in ChildrenOf(rows, root);
    forall n: nat ensures PendingAfter(rows, ChildrenOf(rows, root), n) != [] {
      CycleStaysPending(rows, root, path, ChildrenOf(rows, root), n);
    }
  }
}
