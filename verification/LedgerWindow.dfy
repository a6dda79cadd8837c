/**
  What the two unresolved checks of the ledger see: the first hundred intents
  of an account and mode, and so not always every intent.
 */
module LedgerWindow {
  import opened Options
  import opened OrderLedger
  import opened LedgerTheorems

  /** has_unresolved_intents without an exclusion and the reconciliation never disagree. */
  lemma ChecksAgree(l: Ledger, account: string, mode: string)
    requires Linked(l)
    ensures HasUnresolved(l, account, mode, None) <==> Reconcile(l, account, mode) > 0
  {
    CountFinds(Listed(l, account, mode));
  }

  lemma {:induction false} CountFinds(rows: seq<Intent>)
    ensures CountUnresolved(rows) > 0 <==> exists i :: 0 <= i < |rows| && IsUnresolved(rows[i].state)
  {
    if rows != [] {
      var init := rows[..|rows| - 1];
      CountFinds(init);
      assert forall i :: 0 <= i < |init| ==> init[i] == rows[i];
    }
  }

  // --- what is seen, in terms of the intents themselves -------------------------------

  /** The intents of the ids `order`, in that order, exist. */
  predicate AllKnown(l: Ledger, order: seq<string>) {
    forall i :: 0 <= i < |order| ==> order[i] in l.intents
  }

  /** The `j`-th intent is of this account and mode. */
  predicate IsTheirs(l: Ledger, order: seq<string>, account: string, mode: string, j: nat)
    requires AllKnown(l, order) && j < |order|
  {
    l.intents[order[j]].key.account == account && l.intents[order[j]].key.mode == mode
  }

  /** The outcome of the `j`-th intent is not settled. */
  predicate IsOpen(l: Ledger, order: seq<string>, j: nat)
    requires AllKnown(l, order) && j < |order|
  {
    l.intents[order[j]].state != Persisted && l.intents[order[j]].state != Rejected
  }

  /** How many of the account's intents were recorded before the `j`-th of all. */
  function Before(l: Ledger, order: seq<string>, j: nat, account: string, mode: string): nat
    requires j <= |order| && AllKnown(l, order)
  {
    |set i | 0 <= i < j && IsTheirs(l, order, account, mode, i)|
  }

  /** The intents the checks can see: open, of the account and mode, and with fewer than a hundred of these before them. */
  function Seen(l: Ledger, order: seq<string>, n: nat, account: string, mode: string): set<nat>
    requires n <= |order| && AllKnown(l, order)
  {
    set j: nat | 0 <= j < n && IsTheirs(l, order, account, mode, j) && IsOpen(l, order, j) && Before(l, order, j, account, mode) < 100
  }

  function Window(rows: seq<Intent>): seq<Intent> {
    if |rows| <= WINDOW then rows else rows[..WINDOW]
  }

  lemma OneMoreBefore(l: Ledger, order: seq<string>, n: nat, account: string, mode: string)
    requires n < |order| && AllKnown(l, order)
    ensures Before(l, order, n + 1, account, mode) == Before(l, order, n, account, mode) + if IsTheirs(l, order, account, mode, n) then 1 else 0
  {
    var ids := set i | 0 <= i < n && IsTheirs(l, order, account, mode, i);
    var ids' := set i | 0 <= i < n + 1 && IsTheirs(l, order, account, mode, i);
    assert ids' == ids + if IsTheirs(l, order, account, mode, n) then {n} else {};
  }

  lemma OneMoreSeen(l: Ledger, order: seq<string>, n: nat, account: string, mode: string)
    requires n < |order| && AllKnown(l, order)
    ensures
      Seen(l, order, n + 1, account, mode) == Seen(l, order, n, account, mode) +
        if IsTheirs(l, order, account, mode, n) && IsOpen(l, order, n) && Before(l, order, n, account, mode) < 100 then {n} else {}
  {
    hide Before;
  }

  /** The rows of the first `n` intents: how many there are, what they count up to, and where each comes from. */
  lemma {:induction false} RowsAre(l: Ledger, order: seq<string>, n: nat, account: string, mode: string)
    requires n <= |order| && AllKnown(l, order)
    ensures
      var rows := Rows(l, order[..n], account, mode);
      && |rows| == Before(l, order, n, account, mode)
      && CountUnresolved(Window(rows)) == |Seen(l, order, n, account, mode)|
  {
    hide Before, Seen, Window, CountUnresolved, Rows;
    if n == 0 {
      NothingBefore(l, order, account, mode);
    } else {
      NextRows(l, order, n - 1, account, mode);
      RowsAre(l, order, n - 1, account, mode);
      OneMoreBefore(l, order, n - 1, account, mode);
      OneMoreSeen(l, order, n - 1, account, mode);
      SeenIsBelow(l, order, n - 1, account, mode);
      var rows, seen := Rows(l, order[..n - 1], account, mode), Seen(l, order, n - 1, account, mode);
      WindowGrows(rows, l.intents[order[n - 1]]);
      assert rows + [] == rows && seen + {} == seen && |seen + {n - 1}| == |seen| + 1;
    }
  }

  lemma NothingBefore(l: Ledger, order: seq<string>, account: string, mode: string)
    requires AllKnown(l, order)
    ensures Before(l, order, 0, account, mode) == 0 && Seen(l, order, 0, account, mode) == {}
    ensures Rows(l, order[..0], account, mode) == [] && CountUnresolved(Window([])) == 0
  {
  }

  lemma NextRows(l: Ledger, order: seq<string>, n: nat, account: string, mode: string)
    requires n < |order| && AllKnown(l, order)
    ensures Rows(l, order[..n + 1], account, mode)
         == Rows(l, order[..n], account, mode) + if IsTheirs(l, order, account, mode, n) then [l.intents[order[n]]] else []
    ensures IsOpen(l, order, n) <==> IsUnresolved(l.intents[order[n]].state)
  {
    assert order[..n + 1][..n] == order[..n];
  }

  lemma SeenIsBelow(l: Ledger, order: seq<string>, n: nat, account: string, mode: string)
    requires n <= |order| && AllKnown(l, order)
    ensures n !in Seen(l, order, n, account, mode)
  {
  }

  lemma WindowGrows(rows: seq<Intent>, i: Intent)
    ensures CountUnresolved(Window(rows + [i])) == CountUnresolved(Window(rows)) + if |rows| < WINDOW && IsUnresolved(i.state) then 1 else 0
  {
    if |rows| < WINDOW {
      assert (rows + [i])[..|rows|] == rows;
    } else {
      assert (rows + [i])[..WINDOW] == rows[..WINDOW];
      assert |rows| == WINDOW ==> rows[..WINDOW] == rows;
    }
  }

  /** The reconciliation reports as many unresolved intents as it can see. */
  lemma ReconcileCountsExactly(l: Ledger, account: string, mode: string)
    requires Linked(l)
    ensures AllKnown(l, l.intentOrder) && Reconcile(l, account, mode) == |Seen(l, l.intentOrder, |l.intentOrder|, account, mode)|
  {
    hide Rows, CountUnresolved, Seen;
    RowsAre(l, l.intentOrder, |l.intentOrder|, account, mode);
    assert l.intentOrder[..|l.intentOrder|] == l.intentOrder;
  }

  /** An intent's row number is the count of those before it. */
  lemma {:induction false} RowOf(l: Ledger, order: seq<string>, j: nat, n: nat, account: string, mode: string)
    requires j < n <= |order| && AllKnown(l, order) && IsTheirs(l, order, account, mode, j)
    ensures
      var rows := Rows(l, order[..n], account, mode);
      var r := Before(l, order, j, account, mode);
      r < |rows| && rows[r] == l.intents[order[j]]
  {
    hide Before;
    assert order[..n][..n - 1] == order[..n - 1];
    if j < n - 1 {
      RowOf(l, order, j, n - 1, account, mode);
    } else {
      RowsAre(l, order, j, account, mode);
    }
  }

  /** Every row is some intent's. */
  lemma {:induction false} RowFrom(l: Ledger, order: seq<string>, r: nat, n: nat, account: string, mode: string) returns (j: nat)
    requires n <= |order| && AllKnown(l, order) && r < |Rows(l, order[..n], account, mode)|
    ensures j < n && IsTheirs(l, order, account, mode, j) && Before(l, order, j, account, mode) == r
    ensures Rows(l, order[..n], account, mode)[r] == l.intents[order[j]]
  {
    hide Before;
    assert order[..n][..n - 1] == order[..n - 1];
    if r < |Rows(l, order[..n - 1], account, mode)| {
      j := RowFrom(l, order, r, n - 1, account, mode);
    } else {
      j := n - 1;
      RowsAre(l, order, j, account, mode);
    }
  }

  /**
    An unresolved intent is seen exactly when fewer than a hundred of its
    account and mode were recorded before it, and its parent is not the one
    that is left out.
   */
  lemma SeenExactly(l: Ledger, account: string, mode: string, exclude: Option<string>)
    requires Linked(l)
    ensures AllKnown(l, l.intentOrder)
    ensures HasUnresolved(l, account, mode, exclude) <==>
      exists j :: j in Seen(l, l.intentOrder, |l.intentOrder|, account, mode) && exclude != Some(l.intents[l.intentOrder[j]].parent)
  {
    var order, n := l.intentOrder, |l.intentOrder|;
    assert order[..n] == order;
    var rows := Rows(l, order, account, mode);
    hide Before, Rows;
    forall r | 0 <= r < |rows| && r < WINDOW && exclude != Some(rows[r].parent) && IsUnresolved(rows[r].state)
      ensures exists j :: j in Seen(l, order, n, account, mode) && exclude != Some(l.intents[order[j]].parent)
    {
      var j := RowFrom(l, order, r, n, account, mode);
      assert j in Seen(l, order, n, account, mode);
    }
    forall j | j in Seen(l, order, n, account, mode) && exclude != Some(l.intents[order[j]].parent)
      ensures HasUnresolved(l, account, mode, exclude)
    {
      RowOf(l, order, j, n, account, mode);
      assert Listed(l, account, mode)[Before(l, order, j, account, mode)] == l.intents[order[j]];
    }
  }

  // --- a hundred filled orders hide an unknown outcome -------------------------------

  const SAMPLE := Request("account", "paper", "QQQ.US", Buy, 1, None)

  function Fill(n: nat): seq<Call> {
    if n == 0 then [] else Fill(n - 1) + [DoSubmit(SAMPLE, None, None, true)]
  }

  lemma {:induction false} RunLast(l: Ledger, calls: seq<Call>, c: Call)
    requires Ok(l) && Linked(l)
    ensures Run(l, calls + [c]) == Do(Run(l, calls), c)
    decreases |calls|
  {
    hide Ok, Linked, Do;
    if calls == [] {
      assert [] + [c] == [c];
      RunFirst(l, c, []);
    } else {
      assert (calls + [c])[0] == calls[0] && (calls + [c])[1..] == calls[1..] + [c];
      DoKeeps(l, calls[0]);
      RunLast(Do(l, calls[0]), calls[1..], c);
    }
  }

  /** A keyless call after keyless calls is always recorded. */
  lemma KeylessIsRecorded(calls: seq<Call>, ok: bool)
    requires forall i :: 0 <= i < |calls| ==> calls[i].DoSubmit? && calls[i].name == None
    ensures
      var l := After(calls);
      var l' := After(calls + [DoSubmit(SAMPLE, None, None, ok)]);
      l' == Record(l, NewIntent(l, SAMPLE, SubmitKey(l, SAMPLE, None), None, ok))
  {
    hide Ok, Linked, Record, NewIntent, SubmitKey;
    KeylessCollidesExactly(calls, SAMPLE);
    EmptyIsOk();
    RunLast(EMPTY, calls, DoSubmit(SAMPLE, None, None, ok));
  }

  /** Recording an intent adds one row at the end and leaves the older rows. */
  lemma RecordAddsARow(l: Ledger, i: Intent)
    requires Linked(l) && i.id !in l.intents && Belongs(i, "account", "paper")
    ensures
      var l' := Record(l, i);
      Linked(l') && Rows(l', l'.intentOrder, "account", "paper") == Rows(l, l.intentOrder, "account", "paper") + [i]
  {
    var l' := Record(l, i);
    assert l'.intentOrder[..|l'.intentOrder| - 1] == l.intentOrder;
    SameRows(l, l', l.intentOrder);
  }

  lemma {:induction false} SameRows(l: Ledger, l': Ledger, order: seq<string>)
    requires forall i :: 0 <= i < |order| ==> order[i] in l.intents && order[i] in l'.intents && l.intents[order[i]] == l'.intents[order[i]]
    ensures Rows(l, order, "account", "paper") == Rows(l', order, "account", "paper")
  {
    if order != [] {
      SameRows(l, l', order[..|order| - 1]);
    }
  }

  lemma NextRow(calls: seq<Call>, ok: bool)
    requires forall i :: 0 <= i < |calls| ==> calls[i].DoSubmit? && calls[i].name == None
    ensures
      var l := After(calls);
      var l' := After(calls + [DoSubmit(SAMPLE, None, None, ok)]);
      var rows := Rows(l, l.intentOrder, "account", "paper");
      var rows' := Rows(l', l'.intentOrder, "account", "paper");
      && |rows'| == |rows| + 1 && rows'[..|rows|] == rows
      && rows'[|rows|].state == (if ok then Persisted else Unknown)
      && rows'[|rows|].id in l'.intents && l'.intents[rows'[|rows|].id] == rows'[|rows|]
  {
    hide Ok, Linked;
    var l := After(calls);
    FreshIds(l);
    KeylessIsRecorded(calls, ok);
    RecordAddsARow(l, NewIntent(l, SAMPLE, SubmitKey(l, SAMPLE, None), None, ok));
  }

  lemma NoRows()
    ensures Rows(After([]), After([]).intentOrder, "account", "paper") == []
  {
  }

  lemma {:induction false} FilledRows(n: nat)
    ensures |Fill(n)| == n && forall i :: 0 <= i < n ==> Fill(n)[i].DoSubmit? && Fill(n)[i].name == None
    ensures
      var l := After(Fill(n));
      var rows := Rows(l, l.intentOrder, "account", "paper");
      |rows| == n && forall i :: 0 <= i < n ==> rows[i].state == Persisted
  {
    hide Ok, Linked, NewIntent, Record;
    if n == 0 {
      NoRows();
    } else {
      FilledRows(n - 1);
      NextRow(Fill(n - 1), true);
    }
  }

  /** When the first hundred rows are settled, both checks are content, whatever comes after. */
  lemma OnlyTheWindowCounts(l: Ledger, account: string, mode: string)
    requires Linked(l)
    requires
      var rows := Rows(l, l.intentOrder, account, mode);
      |rows| >= 100 && forall i :: 0 <= i < WINDOW ==> !IsUnresolved(rows[i].state)
    ensures !HasUnresolved(l, account, mode, None) && Reconcile(l, account, mode) == 0
  {
    hide Rows;
    ChecksAgree(l, account, mode);
    var listed := Listed(l, account, mode);
    assert |listed| == WINDOW && forall i :: 0 <= i < WINDOW ==> listed[i] == Rows(l, l.intentOrder, account, mode)[i];
    hide Reconcile;
  }

  /**
    An order of unknown outcome after a hundred filled ones goes unnoticed: its
    intent is unresolved, and both checks answer that nothing is.
   */
  lemma HundredFillsHideAnUnknown()
    ensures
      var l := After(Fill(100) + [DoSubmit(SAMPLE, None, None, false)]);
      && (exists id :: id in l.intents && IsUnresolved(l.intents[id].state))
      && !HasUnresolved(l, "account", "paper", None) && Reconcile(l, "account", "paper") == 0
  {
    hide Ok, After, Fill, Rows, HasUnresolved, Reconcile;
    FilledRows(100);
    NextRow(Fill(100), false);
    var l := After(Fill(100) + [DoSubmit(SAMPLE, None, None, false)]);
    var rows := Rows(l, l.intentOrder, "account", "paper");
    assert forall i :: 0 <= i < WINDOW ==> rows[i] == rows[..WINDOW][i];
    OnlyTheWindowCounts(l, "account", "paper");
  }
}
