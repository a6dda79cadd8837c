/**
  What holds of the mock dashboard after any sequence of calls: ids stay
  unique, spreads only move towards closed, a finished order stays finished,
  and at most one recovery order is ever placed.
 */
module DashboardTheorems {
  import opened Options
  import opened Decimals
  import opened MockDashboard

  // --- the invariant -------------------------------------------------------------

  ghost predicate OrdersOk(orders: seq<Order>, counter: nat) {
    && (forall i, j :: 0 <= i < j < |orders| ==> orders[i].id != orders[j].id)
    && (forall i, n: nat :: 0 <= i < |orders| && n > counter ==> orders[i].id != OrderId(n))
  }

  ghost predicate SpreadsOk(rows: seq<Spread>, counter: nat) {
    && (forall i, j :: 0 <= i < j < |rows| ==> rows[i].id != rows[j].id)
    && (forall i, n: nat :: 0 <= i < |rows| && n > counter ==> rows[i].id != SpreadId(n))
  }

  /** The seeded close order is in the list, and has failed for good once a recovery was placed. */
  ghost predicate SeedCloseOk(orders: seq<Order>, recovered: bool) {
    exists i :: 0 <= i < |orders| && orders[i].id == SEED_CLOSE && (recovered ==> IsFailed(orders[i].status))
  }

  /** Only the seeded spread can be open with a close order; once recovered it is open no more. */
  ghost predicate SeedSpreadOk(rows: seq<Spread>, recovered: bool) {
    && (exists i :: 0 <= i < |rows| && rows[i].id == SEED_SPREAD && (recovered ==> rows[i].status != Open))
    && (forall i :: 0 <= i < |rows| && rows[i].status == Open ==>
          rows[i].shortExit == (if rows[i].id == SEED_SPREAD then Some(SEED_CLOSE) else None))
  }

  ghost predicate RecoveriesOk(recoveries: seq<Recovery>) {
    |recoveries| <= 1 && forall i :: 0 <= i < |recoveries| ==> recoveries[i].spread == SEED_SPREAD && recoveries[i].order != SEED_CLOSE
  }

  ghost predicate Ok(s: State) {
    && OrdersOk(s.orders, s.orderCounter)
    && SpreadsOk(AllSpreads(s), s.spreadCounter)
    && SeedCloseOk(s.orders, s.recoveries != [])
    && SeedSpreadOk(AllSpreads(s), s.recoveries != [])
    && RecoveriesOk(s.recoveries)
  }

  /** A generated number is above every seed's. */
  lemma NumeralIsFresh(n: nat)
    requires n > 1000
    ensures Numeral(n) != "0001" && Numeral(n) != "0002"
  {
    RoundTrip(n);
    assert Value("0001") == 1 && Value("0002") == 2 by {
      assert Value("") == 0 && "0"[..0] == "" && Value("0") == 0;
      assert "00"[..1] == "0" && Value("00") == 0 && "000"[..2] == "00" && Value("000") == 0;
      assert "0001"[..3] == "000" && "0002"[..3] == "000";
    }
  }

  lemma PaddedInjective(m: nat, n: nat)
    requires 0 < m < n < 27
    ensures Padded(m) != Padded(n)
  {
    PrefixedInjective("000", m, n);
    PrefixedInjective("00", m, n);
    if m < 10 <= n {
      assert |Numeral(m)| == 1 && |Numeral(n)| == 2;
      assert Padded(n)[2] == Numeral(n)[0] && Padded(m)[2] == '0';
    }
  }

  lemma InitialIsOk(account: string, closeStatus: OrderStatus, says: bool, latest: Option<OrderStatus>)
    ensures Ok(Initial(account, closeStatus, says, latest))
  {
    var s := Initial(account, closeStatus, says, latest);
    forall n: nat | n > 1000 ensures OrderId(n) != SEED_CLOSE && OrderId(n) != SEED_FILLED && SpreadId(n) != SEED_SPREAD {
      NumeralIsFresh(n);
      assert OrderId(n)[11..] == Numeral(n) && SEED_CLOSE[11..] == "0001" && SEED_FILLED[11..] == "0002";
      assert SpreadId(n)[12..] == Numeral(n) && SEED_SPREAD[12..] == "0001";
    }
    assert s.orders[0].id == SEED_CLOSE && AllSpreads(s)[0].id == SEED_SPREAD;
    ClosedSeedsAreApart(s);
  }

  lemma ClosedSeedsAreApart(s: State)
    requires |s.closed| == 26 && forall i :: 0 <= i < 26 ==> s.closed[i] == ClosedSeed(s.account, i + 1)
    ensures forall i, j :: 0 <= i < j < 26 ==> s.closed[i].id != s.closed[j].id
    ensures forall i, n: nat :: 0 <= i < 26 ==> s.closed[i].id != SpreadId(n) && s.closed[i].id != SEED_SPREAD
  {
    forall i, j | 0 <= i < j < 26 ensures s.closed[i].id != s.closed[j].id {
      PaddedInjective(i + 1, j + 1);
      assert s.closed[i].id[19..] == Padded(i + 1) && s.closed[j].id[19..] == Padded(j + 1);
    }
    forall i, n: nat | 0 <= i < 26 ensures s.closed[i].id != SpreadId(n) && s.closed[i].id != SEED_SPREAD {
      RoundTrip(n);
      assert s.closed[i].id[12] == 'c' && SpreadId(n)[12] == Numeral(n)[0] && SEED_SPREAD[12] == '0';
    }
  }

  // --- every call keeps it --------------------------------------------------------

  lemma AddOrder(orders: seq<Order>, counter: nat, terms: Terms, recovered: bool)
    requires OrdersOk(orders, counter) && SeedCloseOk(orders, recovered)
    ensures
      var orders' := [Order(OrderId(counter + 1), terms, Submitted)] + orders;
      OrdersOk(orders', counter + 1) && SeedCloseOk(orders', recovered)
  {
    forall n: nat | n > counter + 1 ensures OrderId(n) != OrderId(counter + 1) {
      PrefixedInjective("mock-order-", n, counter + 1);
    }
    hide OrderId;
    var i :| 0 <= i < |orders| && orders[i].id == SEED_CLOSE && (recovered ==> IsFailed(orders[i].status));
    assert ([Order(OrderId(counter + 1), terms, Submitted)] + orders)[i + 1] == orders[i];
  }

  /** A working order may change; the failed seed is not one. */
  lemma EditOrder(orders: seq<Order>, counter: nat, i: nat, o: Order, recovered: bool)
    requires OrdersOk(orders, counter) && SeedCloseOk(orders, recovered)
    requires i < |orders| && o.id == orders[i].id && IsWorking(orders[i].status)
    ensures OrdersOk(orders[i := o], counter) && SeedCloseOk(orders[i := o], recovered)
  {
    hide OrderId;
    var k :| 0 <= k < |orders| && orders[k].id == SEED_CLOSE && (recovered ==> IsFailed(orders[k].status));
    assert orders[i := o][k].id == SEED_CLOSE;
  }

  lemma AddSpread(before: seq<Spread>, after: seq<Spread>, counter: nat, row: Spread, recovered: bool)
    requires SpreadsOk(before + after, counter) && SeedSpreadOk(before + after, recovered)
    requires row.id == SpreadId(counter + 1) && row.shortExit == None
    ensures SpreadsOk(before + [row] + after, counter + 1) && SeedSpreadOk(before + [row] + after, recovered)
  {
    var rows, rows' := before + after, before + [row] + after;
    forall n: nat | n > counter + 1 ensures SpreadId(n) != row.id {
      PrefixedInjective("mock-spread-", n, counter + 1);
    }
    assert forall i :: 0 <= i < |rows| ==> rows[i].id != SpreadId(counter + 1);
    hide SpreadId;
    forall i | 0 <= i < |rows'| && i != |before| ensures rows'[i] == rows[if i < |before| then i else i - 1] {
    }
    forall i, j | 0 <= i < j < |rows'| ensures rows'[i].id != rows'[j].id {
      assert i != |before| ==> rows'[i] == rows[if i < |before| then i else i - 1];
      assert j != |before| ==> rows'[j] == rows[if j < |before| then j else j - 1];
    }
    var k :| 0 <= k < |rows| && rows[k].id == SEED_SPREAD && (recovered ==> rows[k].status != Open);
    assert rows'[if k < |before| then k else k + 1] == rows[k];
  }

  /** A row may change in place; a row that is open afterwards was open before, with the same close order. */
  lemma EditSpread(rows: seq<Spread>, counter: nat, i: nat, row: Spread, recovered: bool)
    requires SpreadsOk(rows, counter) && SeedSpreadOk(rows, recovered)
    requires i < |rows| && row.id == rows[i].id
    requires row.status == Open ==> rows[i].status == Open && row.shortExit == rows[i].shortExit
    ensures SpreadsOk(rows[i := row], counter) && SeedSpreadOk(rows[i := row], recovered)
  {
    hide SpreadId;
    var k :| 0 <= k < |rows| && rows[k].id == SEED_SPREAD && (recovered ==> rows[k].status != Open);
    assert rows[i := row][k].id == SEED_SPREAD;
  }

  lemma PutSpreadIs(s: State, i: nat, row: Spread)
    requires i < |AllSpreads(s)|
    ensures AllSpreads(PutSpread(s, i, row)) == AllSpreads(s)[i := row]
  {
  }

  /** One more kind of reason looked at. */
  lemma NextReason(s: State, row: Spread, account: Option<string>, mode: string, reasons: seq<Reason>, r: Reason)
    requires ExplainsFirst(s, row, account, mode, reasons, Place(r))
    ensures ExplainsFirst(s, row, account, mode, AddIf(reasons, Applies(s, row, account, mode, r), r), Place(r) + 1)
  {
    hide Applies;
    assert forall x: Reason :: Place(x) == Place(r) ==> x == r;
    var reasons' := AddIf(reasons, Applies(s, row, account, mode, r), r);
    assert forall x: Reason :: x in reasons' <==> x in reasons || (x == r && Applies(s, row, account, mode, r));
    hide Place;
  }

  /** The close order is missing exactly when the list has none under the spread's exit id. */
  lemma CloseOrderIsMissing(s: State, row: Spread, account: Option<string>, mode: string)
    ensures CloseOrder(s, row).None? <==> Applies(s, row, account, mode, MissingShortClose)
  {
  }

  /** The eligibility check lists exactly the reasons that apply, in order. */
  lemma ReasonsExplain(s: State, row: Spread, account: Option<string>, mode: string)
    ensures Explains(s, row, account, mode, Reasons(s, row, account, mode))
  {
    hide ExplainsFirst, CloseOrder;
    var r1 := AddIf([], mode != "paper", ModeNotPaper);
    var r2 := AddIf(r1, row.mode != "paper", SpreadNotPaper);
    var r3 := AddIf(r2, account.Some? && account.value != row.account, AccountMismatch);
    var r4 := AddIf(r3, row.status != Open, SpreadNotOpen);
    var r5 := AddIf(r4, !row.monitorSays && !row.latestSays, CloseNotRequired);
    NoReasons(s, row, account, mode);
    NextReason(s, row, account, mode, [], ModeNotPaper);
    NextReason(s, row, account, mode, r1, SpreadNotPaper);
    NextReason(s, row, account, mode, r2, AccountMismatch);
    NextReason(s, row, account, mode, r3, SpreadNotOpen);
    NextReason(s, row, account, mode, r4, CloseNotRequired);
    CloseReasons(s, row, account, mode, r5);
  }

  lemma NoReasons(s: State, row: Spread, account: Option<string>, mode: string)
    ensures ExplainsFirst(s, row, account, mode, [], 0)
  {
  }

  /** At most one of the three reasons about the close order applies. */
  lemma CloseReasons(s: State, row: Spread, account: Option<string>, mode: string, reasons: seq<Reason>)
    requires ExplainsFirst(s, row, account, mode, reasons, Place(MissingShortClose))
    ensures
      var order := CloseOrder(s, row);
      Explains(s, row, account, mode,
               if order.None? then reasons + [MissingShortClose]
               else if IsWorking(order.value.status) then reasons + [WorkingReplacement]
               else AddIf(reasons, !IsFailed(order.value.status), ShortCloseNotFailed))
  {
    CloseOrderIsMissing(s, row, account, mode);
    hide ExplainsFirst, CloseOrder;
    var r6 := AddIf(reasons, CloseOrder(s, row).None?, MissingShortClose);
    var r7 := AddIf(r6, Applies(s, row, account, mode, WorkingReplacement), WorkingReplacement);
    NextReason(s, row, account, mode, reasons, MissingShortClose);
    NextReason(s, row, account, mode, r6, WorkingReplacement);
    NextReason(s, row, account, mode, r7, ShortCloseNotFailed);
  }

  /** Two lists that explain a case are one list, so the contract says all there is to say. */
  lemma {:induction false} ExplanationIsUnique(s: State, row: Spread, account: Option<string>, mode: string, a: seq<Reason>, b: seq<Reason>, n: nat)
    requires ExplainsFirst(s, row, account, mode, a, n) && ExplainsFirst(s, row, account, mode, b, n)
    ensures a == b
    decreases n
  {
    hide Applies;
    assert (a != [] ==> a[0] in b) && (b != [] ==> b[0] in a);
    if a != [] && b != [] {
      var x, y := a[|a| - 1], b[|b| - 1];
      assert x in b && y in a;
      assert Place(x) <= Place(y) && Place(y) <= Place(x) && x == y;
      Shorter(s, row, account, mode, a, n);
      Shorter(s, row, account, mode, b, n);
      ExplanationIsUnique(s, row, account, mode, a[..|a| - 1], b[..|b| - 1], Place(x));
    }
  }

  /** Without its last reason a list explains the kinds before that one. */
  lemma Shorter(s: State, row: Spread, account: Option<string>, mode: string, a: seq<Reason>, n: nat)
    requires ExplainsFirst(s, row, account, mode, a, n) && a != []
    ensures Place(a[|a| - 1]) < n && ExplainsFirst(s, row, account, mode, a[..|a| - 1], Place(a[|a| - 1]))
  {
    hide Applies;
    var init, last := a[..|a| - 1], a[|a| - 1];
    assert last in a;
    forall r: Reason ensures r in init <==> Place(r) < Place(last) && Applies(s, row, account, mode, r) {
      if r in a {
        var i :| 0 <= i < |a| && a[i] == r;
        assert i < |a| - 1 ==> init[i] == r;
      }
    }
  }

  /** What an eligible spread must be. */
  lemma EligibleIsTheSeed(s: State, i: nat, account: Option<string>, mode: string)
    requires Ok(s) && i < |AllSpreads(s)| && Reasons(s, AllSpreads(s)[i], account, mode) == []
    ensures AllSpreads(s)[i].id == SEED_SPREAD && AllSpreads(s)[i].status == Open && s.recoveries == []
    ensures SeedCloseOk(s.orders, true)
  {
  }

  lemma RecoverKeeps(s: State, id: string, confirm: bool, account: Option<string>, mode: string, limit: string)
    requires Ok(s)
    ensures Ok(Recover(s, id, confirm, account, mode, limit).0)
  {
    hide OrdersOk, SpreadsOk, SeedCloseOk, SeedSpreadOk, Reasons, OrderId;
    var i := FindSpread(AllSpreads(s), id);
    if confirm && i < |AllSpreads(s)| && Reasons(s, AllSpreads(s)[i], account, mode) == [] {
      EligibleIsTheSeed(s, i, account, mode);
      AddOrder(s.orders, s.orderCounter, RecoveryTerms(limit), true);
      var order := OrderId(s.orderCounter + 1);
      var row := AllSpreads(s)[i].(status := ExitPendingShort, shortExit := Some(order), latestClose := Some(Submitted));
      EditSpread(AllSpreads(s), s.spreadCounter, i, row, false);
      RecoveredSeed(AllSpreads(s)[i := row], i);
      PutSpreadIs(Submit(s, RecoveryTerms(limit)), i, row);
      SeedCloseIsNotNew(s.orders, s.orderCounter);
    }
  }

  lemma RecoveredSeed(rows: seq<Spread>, i: nat)
    requires SeedSpreadOk(rows, false) && i < |rows| && rows[i].id == SEED_SPREAD && rows[i].status != Open
    ensures SeedSpreadOk(rows, true)
  {
  }

  lemma SeedCloseIsNotNew(orders: seq<Order>, counter: nat)
    requires OrdersOk(orders, counter) && SeedCloseOk(orders, true)
    ensures OrderId(counter + 1) != SEED_CLOSE
  {
  }

  lemma MonitorKeeps(s: State, id: string)
    requires Ok(s)
    ensures Ok(Monitor(s, id).0)
  {
    hide OrdersOk, SeedCloseOk, SeedSpreadOk, SpreadsOk, ShortExitId;
    var all := AllSpreads(s);
    var i := FindSpread(all, id);
    if i < |all| {
      var row := if IsActive(all[i].status)
                 then all[i].(status := Closed, shortExit := Some(ShortExitId(s.spreadCounter + 1)), monitorSays := true)
                 else all[i].(monitorSays := false);
      EditSpread(all, s.spreadCounter, i, row, s.recoveries != []);
      PutSpreadIs(s, i, row);
      LargerCounter(all[i := row], s.spreadCounter);
    }
  }

  lemma LargerCounter(rows: seq<Spread>, counter: nat)
    requires SpreadsOk(rows, counter)
    ensures SpreadsOk(rows, counter + 1)
  {
  }

  lemma OpenKeeps(s: State, call: Call)
    requires Ok(s) && (call.DoEntryScan? || call.DoExecuteBound?)
    ensures Ok(Do(s, call))
  {
    hide OrdersOk, SeedCloseOk, SeedSpreadOk, SpreadsOk, SpreadId;
    var s' := Do(s, call);
    if s' != s && call.DoEntryScan? {
      assert [] + AllSpreads(s) == AllSpreads(s);
      AddSpread([], AllSpreads(s), s.spreadCounter, s'.spreads[0], s.recoveries != []);
      assert AllSpreads(s') == [] + [s'.spreads[0]] + AllSpreads(s);
    } else if s' != s {
      var row := s'.spreads[|s.spreads|];
      AddSpread(s.spreads, s.closed, s.spreadCounter, row, s.recoveries != []);
      assert AllSpreads(s') == s.spreads + [row] + s.closed;
    }
  }

  lemma OrderCallKeeps(s: State, call: Call)
    requires Ok(s) && (call.DoSubmit? || call.DoReplace? || call.DoCancel?)
    ensures Ok(Do(s, call))
  {
    hide OrdersOk, SeedCloseOk, SeedSpreadOk, SpreadsOk, OrderId;
    if call.DoSubmit? {
      AddOrder(s.orders, s.orderCounter, call.terms, s.recoveries != []);
    } else {
      var i := FindOrder(s.orders, call.id);
      if i < |s.orders| && IsWorking(s.orders[i].status) {
        EditOrder(s.orders, s.orderCounter, i, Do(s, call).orders[i], s.recoveries != []);
      }
    }
  }

  lemma DoKeeps(s: State, call: Call)
    requires Ok(s)
    ensures Ok(Do(s, call))
  {
    hide OrdersOk, SeedCloseOk, SeedSpreadOk, SpreadsOk, Recover, Monitor, EntryScan, ExecuteBound, Submit, Replace, Cancel;
    if call.DoRecover? {
      RecoverKeeps(s, call.id, call.confirm, call.asker, call.mode, call.limit);
    } else if call.DoMonitor? {
      MonitorKeeps(s, call.id);
    } else if call.DoEntryScan? || call.DoExecuteBound? {
      OpenKeeps(s, call);
    } else if !call.DoSwitches? {
      OrderCallKeeps(s, call);
    }
  }

  lemma {:induction false} RunKeeps(s: State, calls: seq<Call>)
    requires Ok(s)
    ensures Ok(Run(s, calls))
    decreases |calls|
  {
    hide Ok, Do;
    if calls != [] {
      DoKeeps(s, calls[0]);
      RunKeeps(Do(s, calls[0]), calls[1..]);
    }
  }

  // --- over whole runs -------------------------------------------------------------

  /** The states of a fresh dashboard, whatever its scenario, after any calls. */
  ghost predicate Reached(s: State) {
    exists account, closeStatus, says, latest, calls :: s == Run(Initial(account, closeStatus, says, latest), calls)
  }

  lemma ReachedIsOk(s: State)
    requires Reached(s)
    ensures Ok(s)
  {
    hide Initial, Ok;
    var account, closeStatus, says, latest, calls :| s == Run(Initial(account, closeStatus, says, latest), calls);
    InitialIsOk(account, closeStatus, says, latest);
    RunKeeps(Initial(account, closeStatus, says, latest), calls);
  }

  /** Order ids and spread ids stay unique. */
  lemma IdsAreUnique(s: State)
    requires Reached(s)
    ensures forall i, j :: 0 <= i < j < |s.orders| ==> s.orders[i].id != s.orders[j].id
    ensures forall i, j :: 0 <= i < j < |AllSpreads(s)| ==> AllSpreads(s)[i].id != AllSpreads(s)[j].id
  {
    ReachedIsOk(s);
  }

  /** How far a spread has come. */
  function Rank(st: SpreadStatus): nat {
    match st
    case Open => 0
    case ExitPendingShort => 1
    case ExitPendingLong => 2
    case Closed => 3
  }

  /** A spread row is still there, no less far. */
  ghost predicate StillThere(rows: seq<Spread>, was: Spread) {
    exists j :: 0 <= j < |rows| && rows[j].id == was.id && Rank(rows[j].status) >= Rank(was.status)
  }

  /** Finished orders do not change at all, spreads never go back, recoveries are never forgotten. */
  ghost predicate Forward(s: State, s': State) {
    && (forall i :: 0 <= i < |s.orders| && !IsWorking(s.orders[i].status) ==> s.orders[i] in s'.orders)
    && (forall i :: 0 <= i < |AllSpreads(s)| ==> StillThere(AllSpreads(s'), AllSpreads(s)[i]))
    && s.recoveries <= s'.recoveries
  }

  lemma PutGoesForward(rows: seq<Spread>, i: nat, row: Spread)
    requires i < |rows| && row.id == rows[i].id && Rank(row.status) >= Rank(rows[i].status)
    ensures forall k :: 0 <= k < |rows| ==> StillThere(rows[i := row], rows[k])
  {
    forall k | 0 <= k < |rows| ensures StillThere(rows[i := row], rows[k]) {
      assert rows[i := row][k].id == rows[k].id;
    }
  }

  lemma InsertGoesForward(before: seq<Spread>, more: seq<Spread>, after: seq<Spread>)
    ensures forall k :: 0 <= k < |before + after| ==> StillThere(before + more + after, (before + after)[k])
  {
    forall k | 0 <= k < |before + after| ensures StillThere(before + more + after, (before + after)[k]) {
      assert (before + more + after)[if k < |before| then k else k + |more|] == (before + after)[k];
    }
  }

  /** One row is rewritten in place, its id kept and its status no less far. */
  ghost predicate OneRowChanges(rows: seq<Spread>, rows': seq<Spread>, i: nat) {
    && |rows'| == |rows| && i < |rows| && rows' == rows[i := rows'[i]]
    && rows'[i].id == rows[i].id && Rank(rows'[i].status) >= Rank(rows[i].status)
  }

  lemma MonitorChangesOneRow(s: State, id: string)
    requires FindSpread(AllSpreads(s), id) < |AllSpreads(s)|
    ensures OneRowChanges(AllSpreads(s), AllSpreads(Monitor(s, id).0), FindSpread(AllSpreads(s), id))
  {
    hide ShortExitId, PutSpread;
    var i := FindSpread(AllSpreads(s), id);
    var row := AllSpreads(s)[i];
    PutSpreadIs(s, i, row.(monitorSays := false));
    PutSpreadIs(s, i, row.(status := Closed, shortExit := Some(ShortExitId(s.spreadCounter + 1)), monitorSays := true));
  }

  lemma EligibleIsOpen(s: State, row: Spread, account: Option<string>, mode: string)
    ensures Reasons(s, row, account, mode) == [] ==> row.status == Open
  {
  }

  lemma RecoverChangesOneRow(s: State, id: string, confirm: bool, account: Option<string>, mode: string, limit: string)
    requires FindSpread(AllSpreads(s), id) < |AllSpreads(s)|
    ensures OneRowChanges(AllSpreads(s), AllSpreads(Recover(s, id, confirm, account, mode, limit).0), FindSpread(AllSpreads(s), id))
  {
    hide OrderId, Reasons;
    EligibleIsOpen(s, AllSpreads(s)[FindSpread(AllSpreads(s), id)], account, mode);
  }

  lemma SpreadsGoForward(s: State, call: Call)
    ensures forall i :: 0 <= i < |AllSpreads(s)| ==> StillThere(AllSpreads(Do(s, call)), AllSpreads(s)[i])
  {
    hide StillThere, SpreadId, Recover, Monitor, EntryScan, ExecuteBound;
    var s', all := Do(s, call), AllSpreads(s);
    if (call.DoRecover? || call.DoMonitor?) && FindSpread(all, call.id) < |all| {
      var i := FindSpread(all, call.id);
      if call.DoRecover? {
        RecoverChangesOneRow(s, call.id, call.confirm, call.asker, call.mode, call.limit);
      } else {
        MonitorChangesOneRow(s, call.id);
      }
      PutGoesForward(all, i, AllSpreads(s')[i]);
    } else if call.DoExecuteBound? {
      var more := BoundAppends(s, call.request);
      InsertGoesForward(s.spreads, more, s.closed);
    } else if call.DoEntryScan? {
      var more := ScanPrepends(s, call.account);
      InsertGoesForward([], more, all);
      assert [] + all == all && [] + more + all == more + s.spreads + s.closed;
    } else {
      UnfoundChangesNothing(s, call);
      assert AllSpreads(s') == all;
      InsertGoesForward(all, [], []);
      assert all + [] == all && all + [] + [] == all;
    }
  }

  lemma BoundAppends(s: State, r: BoundRequest) returns (more: seq<Spread>)
    ensures ExecuteBound(s, r).0.spreads == s.spreads + more && ExecuteBound(s, r).0.closed == s.closed
  {
    hide SpreadId;
    more := ExecuteBound(s, r).0.spreads[|s.spreads|..];
  }

  lemma ScanPrepends(s: State, account: string) returns (more: seq<Spread>)
    ensures EntryScan(s, account).0.spreads == more + s.spreads && EntryScan(s, account).0.closed == s.closed
  {
    hide SpreadId;
    var spreads := EntryScan(s, account).0.spreads;
    more := spreads[..|spreads| - |s.spreads|];
  }

  lemma UnfoundChangesNothing(s: State, call: Call)
    requires (call.DoRecover? || call.DoMonitor?) ==> FindSpread(AllSpreads(s), call.id) == |AllSpreads(s)|
    ensures (call.DoRecover? || call.DoMonitor?) ==> Do(s, call) == s
  {
  }

  lemma OrdersGoForward(s: State, call: Call)
    ensures forall i :: 0 <= i < |s.orders| && !IsWorking(s.orders[i].status) ==> s.orders[i] in Do(s, call).orders
  {
    hide Reasons, OrderId, SpreadId, ShortExitId, AllSpreads;
    var orders := Do(s, call).orders;
    forall i | 0 <= i < |s.orders| && !IsWorking(s.orders[i].status) ensures s.orders[i] in orders {
      assert orders[|orders| - |s.orders| + i] == s.orders[i];
    }
  }

  lemma DoGoesForward(s: State, call: Call)
    ensures Forward(s, Do(s, call))
  {
    SpreadsGoForward(s, call);
    OrdersGoForward(s, call);
    hide StillThere, Reasons, OrderId, SpreadId, ShortExitId, AllSpreads;
  }

  lemma ForwardAgain(a: State, b: State, c: State)
    requires Forward(a, b) && Forward(b, c)
    ensures Forward(a, c)
  {
  }

  /** Over any calls: a canceled order never works again, and spread status only moves open, exit pending, closed. */
  lemma {:induction false} RunGoesForward(s: State, calls: seq<Call>)
    ensures Forward(s, Run(s, calls))
    decreases |calls|
  {
    hide StillThere, Do;
    if calls != [] {
      DoGoesForward(s, calls[0]);
      RunGoesForward(Do(s, calls[0]), calls[1..]);
      ForwardAgain(s, Do(s, calls[0]), Run(s, calls));
    } else {
      assert AllSpreads(s) + [] + [] == AllSpreads(s) && AllSpreads(s) + [] == AllSpreads(s);
      InsertGoesForward(AllSpreads(s), [], []);
    }
  }

  /** At most one recovery order is ever placed, and only for the seeded spread. */
  lemma AtMostOneRecovery(s: State)
    requires Reached(s)
    ensures |s.recoveries| <= 1 && forall i :: 0 <= i < |s.recoveries| ==> s.recoveries[i].spread == SEED_SPREAD
  {
    ReachedIsOk(s);
  }

  /** The orders ever meant to close the spread with this id: the seeded one and the recoveries. */
  predicate MeantToClose(s: State, spread: string, order: string) {
    || (spread == SEED_SPREAD && order == SEED_CLOSE)
    || Recovery(spread, order) in s.recoveries
  }

  /** A spread never has two working close orders, however the old one and the new one are canceled or replaced. */
  lemma OneWorkingCloseOrder(s: State, spread: string, i: nat, j: nat)
    requires Reached(s) && i < |s.orders| && j < |s.orders|
    requires IsWorking(s.orders[i].status) && MeantToClose(s, spread, s.orders[i].id)
    requires IsWorking(s.orders[j].status) && MeantToClose(s, spread, s.orders[j].id)
    ensures i == j
  {
    ReachedIsOk(s);
    hide SpreadsOk, SeedSpreadOk, OrderId;
    if s.recoveries != [] {
      var k :| 0 <= k < |s.orders| && s.orders[k].id == SEED_CLOSE && IsFailed(s.orders[k].status);
      assert s.orders[i].id != SEED_CLOSE && s.orders[j].id != SEED_CLOSE;
    }
  }

  /** The recovery that recover_close will accept, in terms a caller can look up beforehand. */
  ghost predicate CanRecover(s: State, id: string, confirm: bool, account: Option<string>, mode: string) {
    && confirm && mode == "paper" && id == SEED_SPREAD
    && exists i, k :: 0 <= i < |AllSpreads(s)| && 0 <= k < |s.orders|
         && AllSpreads(s)[i].id == SEED_SPREAD && s.orders[k].id == SEED_CLOSE
         && AllSpreads(s)[i].status == Open && AllSpreads(s)[i].mode == "paper"
         && (AllSpreads(s)[i].monitorSays || AllSpreads(s)[i].latestSays)
         && (account.Some? ==> account.value == AllSpreads(s)[i].account)
         && IsFailed(s.orders[k].status)
  }

  lemma RecoverSucceedsExactly(s: State, id: string, confirm: bool, account: Option<string>, mode: string, limit: string)
    requires Reached(s)
    ensures Recover(s, id, confirm, account, mode, limit).1 == Done <==> CanRecover(s, id, confirm, account, mode)
  {
    hide OrderId, SpreadId, PutSpread, Submit, Reached, RecoveriesOk;
    ReachedIsOk(s);
    var all := AllSpreads(s);
    var i := FindSpread(all, id);
    var k := FindOrder(s.orders, SEED_CLOSE);
    if i < |all| && Reasons(s, all[i], account, mode) == [] {
      EligibleIsTheSeed(s, i, account, mode);
      assert CloseOrder(s, all[i]) == Some(s.orders[k]);
    }
    if CanRecover(s, id, confirm, account, mode) {
      assert all[i].id == SEED_SPREAD && s.orders[k].id == SEED_CLOSE;
      assert CloseOrder(s, all[i]) == Some(s.orders[k]);
    }
  }

  /** Canceling stops the one working order it names, and is refused for any other. */
  lemma CancelStopsOneOrder(s: State, id: string)
    requires Reached(s)
    ensures
      var (s', outcome) := Cancel(s, id);
      && s' == s.(orders := s'.orders) && |s'.orders| == |s.orders|
      && (outcome == Done <==> exists i :: 0 <= i < |s.orders| && s.orders[i].id == id && IsWorking(s.orders[i].status))
      && (outcome == NoSuchId <==> forall i :: 0 <= i < |s.orders| ==> s.orders[i].id != id)
      && (outcome != Done ==> s' == s)
      && forall i :: 0 <= i < |s.orders| ==>
           s'.orders[i] == if outcome == Done && s.orders[i].id == id then s.orders[i].(status := Canceled) else s.orders[i]
  {
    hide OrderId, Reached, SpreadsOk, SeedSpreadOk, SeedCloseOk;
    ReachedIsOk(s);
  }

  /** Every row but the one with the given id is as it was. */
  ghost predicate OnlyRow(s: State, s': State, id: string) {
    && |AllSpreads(s')| == |AllSpreads(s)|
    && forall i :: 0 <= i < |AllSpreads(s)| && AllSpreads(s)[i].id != id ==> AllSpreads(s')[i] == AllSpreads(s)[i]
  }

  /** After the monitor has seen a spread it is closed; orders and other spreads are untouched. */
  lemma MonitorCloses(s: State, id: string)
    ensures
      var (s', outcome) := Monitor(s, id);
      && s'.orders == s.orders && OnlyRow(s, s', id)
      && (outcome == Done <==> exists i :: 0 <= i < |AllSpreads(s)| && AllSpreads(s)[i].id == id)
      && (outcome == Done ==> exists i :: 0 <= i < |AllSpreads(s')| && AllSpreads(s')[i].id == id && AllSpreads(s')[i].status == Closed)
  {
    hide PutSpread, ShortExitId;
    var all := AllSpreads(s);
    var i := FindSpread(all, id);
    if i < |all| {
      MonitorChangesOneRow(s, id);
      var row := if IsActive(all[i].status)
                 then all[i].(status := Closed, shortExit := Some(ShortExitId(s.spreadCounter + 1)), monitorSays := true)
                 else all[i].(monitorSays := false);
      PutSpreadIs(s, i, row);
      PutKeepsOrders(s, i, row);
      var all' := AllSpreads(Monitor(s, id).0);
      assert all' == all[i := row] && all'[i].id == id && all'[i].status == Closed;
    }
  }

  lemma PutKeepsOrders(s: State, i: nat, row: Spread)
    requires i < |AllSpreads(s)|
    ensures PutSpread(s, i, row).orders == s.orders
  {
  }

  /** An accepted recovery puts one new working order in front of the old ones and points the spread, and no other, at it. */
  lemma RecoverPlacesOneOrder(s: State, id: string, confirm: bool, account: Option<string>, mode: string, limit: string)
    requires Reached(s) && Recover(s, id, confirm, account, mode, limit).1 == Done
    ensures
      var s' := Recover(s, id, confirm, account, mode, limit).0;
      && |s'.orders| == |s.orders| + 1 && s'.orders[1..] == s.orders && IsWorking(s'.orders[0].status) && s'.orders[0].terms == RecoveryTerms(limit)
      && OnlyRow(s, s', id)
      && exists i :: 0 <= i < |AllSpreads(s')| && AllSpreads(s')[i].id == id && AllSpreads(s')[i].status == ExitPendingShort
                     && AllSpreads(s')[i].shortExit == Some(s'.orders[0].id)
  {
    hide PutSpread, Reasons, OrderId, Reached;
    var all := AllSpreads(s);
    var i := FindSpread(all, id);
    var order := OrderId(s.orderCounter + 1);
    var row := all[i].(status := ExitPendingShort, shortExit := Some(order), latestClose := Some(Submitted));
    PutSpreadIs(Submit(s, RecoveryTerms(limit)), i, row);
    PutKeepsOrders(Submit(s, RecoveryTerms(limit)), i, row);
    var all' := AllSpreads(Recover(s, id, confirm, account, mode, limit).0);
    assert all' == all[i := row] && all'[i].id == id;
  }

  // --- one active spread -------------------------------------------------------------

  /** No two of the live spreads are active. */
  ghost predicate OneActive(s: State) {
    && (forall i, j :: 0 <= i < j < |s.spreads| ==> !(IsActive(s.spreads[i].status) && IsActive(s.spreads[j].status)))
    && (forall i :: 0 <= i < |s.closed| ==> s.closed[i].status == Closed)
  }

  /** A change of one row that does not open it. */
  lemma PutKeepsOneActive(s: State, i: nat, row: Spread)
    requires OneActive(s) && i < |AllSpreads(s)| && (IsActive(row.status) ==> IsActive(AllSpreads(s)[i].status))
    ensures OneActive(PutSpread(s, i, row))
  {
  }

  ghost predicate SomeActive(s: State) {
    exists i :: 0 <= i < |s.spreads| && IsActive(s.spreads[i].status)
  }

  /** A bound execution goes through while a spread is active. */
  ghost predicate BreaksCap(s: State, call: Call) {
    call.DoExecuteBound? && ExecuteBound(s, call.request).1 == Done && SomeActive(s)
  }

  /** One call ends with at most one active spread exactly if it does not break the cap. */
  lemma CapIsKeptExactly(s: State, call: Call)
    requires OneActive(s)
    ensures OneActive(Do(s, call)) <==> !BreaksCap(s, call)
  {
    hide Recover, Monitor, SpreadId, IsBindable;
    if call.DoRecover? || call.DoMonitor? {
      OneRowKeepsOneActive(s, call);
    } else if call.DoExecuteBound? {
      BoundKeepsOneActiveExactly(s, call.request);
    }
  }

  lemma OneRowKeepsOneActive(s: State, call: Call)
    requires OneActive(s) && (call.DoRecover? || call.DoMonitor?)
    ensures OneActive(Do(s, call))
  {
    hide PutSpread, Reasons, OrderId, SpreadId, ShortExitId;
    var i := FindSpread(AllSpreads(s), call.id);
    if i < |AllSpreads(s)| {
      var row := AllSpreads(s)[i];
      if call.DoRecover? {
        EligibleIsOpen(s, row, call.asker, call.mode);
        if Reasons(s, row, call.asker, call.mode) == [] {
          PutKeepsOneActive(Submit(s, RecoveryTerms(call.limit)), i,
                            row.(status := ExitPendingShort, shortExit := Some(OrderId(s.orderCounter + 1)), latestClose := Some(Submitted)));
        }
      } else {
        PutKeepsOneActive(s, i, row.(status := Closed, shortExit := Some(ShortExitId(s.spreadCounter + 1)), monitorSays := true));
        PutKeepsOneActive(s, i, row.(monitorSays := false));
      }
    }
  }

  lemma BoundKeepsOneActiveExactly(s: State, r: BoundRequest)
    requires OneActive(s)
    ensures OneActive(ExecuteBound(s, r).0) <==> !(ExecuteBound(s, r).1 == Done && SomeActive(s))
  {
    hide SpreadId, IsBindable;
    var (s', outcome) := ExecuteBound(s, r);
    if outcome == Done {
      var n := |s.spreads|;
      assert s'.spreads[..n] == s.spreads && IsActive(s'.spreads[n].status);
      if i :| 0 <= i < n && IsActive(s.spreads[i].status) {
        assert IsActive(s'.spreads[i].status);
      }
    }
  }

  /** At most one spread is active before, between and after the calls. */
  ghost predicate AlwaysOneActive(s: State, calls: seq<Call>)
    decreases |calls|
  {
    OneActive(s) && (calls != [] ==> AlwaysOneActive(Do(s, calls[0]), calls[1..]))
  }

  /** None of the calls is a bound execution that goes through while a spread is active. */
  ghost predicate NeverBreaksCap(s: State, calls: seq<Call>)
    decreases |calls|
  {
    calls != [] ==> !BreaksCap(s, calls[0]) && NeverBreaksCap(Do(s, calls[0]), calls[1..])
  }

  /** Over a whole run there is never more than one active spread if and only if no call breaks the cap. */
  lemma {:induction false} CapIsKeptExactlyOverRuns(s: State, calls: seq<Call>)
    requires OneActive(s)
    ensures AlwaysOneActive(s, calls) <==> NeverBreaksCap(s, calls)
    decreases |calls|
  {
    hide OneActive, Do, BreaksCap;
    if calls != [] {
      CapIsKeptExactly(s, calls[0]);
      if OneActive(Do(s, calls[0])) {
        CapIsKeptExactlyOverRuns(Do(s, calls[0]), calls[1..]);
      }
    }
  }

  lemma InitialHasOneActive(account: string, closeStatus: OrderStatus, says: bool, latest: Option<OrderStatus>)
    ensures OneActive(Initial(account, closeStatus, says, latest))
  {
  }

  /** The same from the seeded state of any scenario. */
  lemma OneActiveFromTheStart(account: string, closeStatus: OrderStatus, says: bool, latest: Option<OrderStatus>, calls: seq<Call>)
    ensures
      var s := Initial(account, closeStatus, says, latest);
      AlwaysOneActive(s, calls) <==> NeverBreaksCap(s, calls)
  {
    InitialHasOneActive(account, closeStatus, says, latest);
    CapIsKeptExactlyOverRuns(Initial(account, closeStatus, says, latest), calls);
  }

  /** Bound execution is not held to the cap: a confirmed one for the account always opens one more spread. */
  lemma BoundExecutionAlwaysOpens(s: State, r: BoundRequest)
    requires Reached(s)
    ensures
      var (s', outcome) := ExecuteBound(s, r);
      && (outcome == Done <==> r.account == s.account && IsBindable(r) && s.spreads != [])
      && (outcome == Done ==> |s'.spreads| == |s.spreads| + 1 && s'.spreads[|s.spreads|].status == Open
                              && s'.spreads[..|s.spreads|] == s.spreads
                              && forall i :: 0 <= i < |AllSpreads(s)| ==> AllSpreads(s)[i].id != s'.spreads[|s.spreads|].id)
  {
    hide Reached, SpreadId, IsBindable;
    ReachedIsOk(s);
  }

  // --- closing a spread leaves its orders alone ------------------------------------------

  /** An order meant to close the spread is still working. */
  ghost predicate CloseOrderWorks(s: State, spread: string) {
    exists i :: 0 <= i < |s.orders| && IsWorking(s.orders[i].status) && MeantToClose(s, spread, s.orders[i].id)
  }

  /**
    monitor_spread never looks at the orders: it leaves a spread closed with an
    order still working to close it exactly if such an order was working before.
   */
  lemma ClosedWithAWorkingOrderExactly(s: State, id: string)
    requires Monitor(s, id).1 == Done
    ensures
      var s' := Monitor(s, id).0;
      && (exists i :: 0 <= i < |AllSpreads(s')| && AllSpreads(s')[i].id == id && AllSpreads(s')[i].status == Closed)
      && (CloseOrderWorks(s', id) <==> CloseOrderWorks(s, id))
  {
    MonitorCloses(s, id);
    hide AllSpreads, ShortExitId;
  }

  /** Such an order is the seeded one, in a scenario that starts with it working, or the recovery order. */
  lemma WorkingCloseOrderIs(s: State, id: string, i: nat)
    requires Reached(s) && i < |s.orders| && IsWorking(s.orders[i].status) && MeantToClose(s, id, s.orders[i].id)
    ensures id == SEED_SPREAD
    ensures if s.recoveries == [] then s.orders[i].id == SEED_CLOSE else s.orders[i].id == s.recoveries[0].order
  {
    ReachedIsOk(s);
    hide SpreadsOk, SeedSpreadOk, OrderId;
    if s.recoveries != [] {
      var k :| 0 <= k < |s.orders| && s.orders[k].id == SEED_CLOSE && IsFailed(s.orders[k].status);
      assert s.orders[i].id != SEED_CLOSE;
    }
  }

  /** It happens: recover, then monitor. */
  lemma ClosedWithAWorkingOrder(account: string, limit: string)
    ensures
      var s := Do(Do(Initial(account, Canceled, true, None), DoRecover(SEED_SPREAD, true, None, "paper", limit)), DoMonitor(SEED_SPREAD));
      CloseOrderWorks(s, SEED_SPREAD)
      && exists i :: 0 <= i < |AllSpreads(s)| && AllSpreads(s)[i].id == SEED_SPREAD && AllSpreads(s)[i].status == Closed
  {
    var s0 := Initial(account, Canceled, true, None);
    SeedRecovers(s0, limit);
    hide Initial, Recover, OrderId, Monitor;
    var s1 := Do(s0, DoRecover(SEED_SPREAD, true, None, "paper", limit));
    MonitorCloses(s1, SEED_SPREAD);
    assert AllSpreads(s1)[0].id == SEED_SPREAD;
    assert CloseOrderWorks(s1, SEED_SPREAD) by {
      assert IsWorking(s1.orders[0].status) && MeantToClose(s1, SEED_SPREAD, s1.orders[0].id);
    }
    ClosedWithAWorkingOrderExactly(s1, SEED_SPREAD);
  }

  lemma SeedRecovers(s: State, limit: string)
    requires exists account :: s == Initial(account, Canceled, true, None)
    ensures
      var s' := Do(s, DoRecover(SEED_SPREAD, true, None, "paper", limit));
      && s'.recoveries == [Recovery(SEED_SPREAD, OrderId(1001))]
      && |s'.orders| > 0 && s'.orders[0] == Order(OrderId(1001), RecoveryTerms(limit), Submitted)
      && |s'.spreads| == 1 && s'.spreads[0].id == SEED_SPREAD
  {
  }
}
