/**
  What single calls of the mock dashboard do, and exactly when: orders placed
  and replaced, spreads opened by the entry scan or by a bound execution, and
  the switches that stop the scan.
 */
module DashboardEffects {
  import opened Options
  import opened Decimals
  import opened MockDashboard
  import opened DashboardTheorems

  /** Nothing but the orders and their counter changes. */
  ghost predicate OnlyOrders(s: State, s': State) {
    s' == s.(orders := s'.orders, orderCounter := s'.orderCounter)
  }

  /** Nothing but the live spreads and their counter changes. */
  ghost predicate OnlySpreads(s: State, s': State) {
    s' == s.(spreads := s'.spreads, spreadCounter := s'.spreadCounter)
  }

  /** A submitted order works, under an id no order has had, in front of all others. */
  lemma SubmitPlacesOneOrder(s: State, terms: Terms)
    requires Reached(s)
    ensures
      var s' := Submit(s, terms);
      && OnlyOrders(s, s') && |s'.orders| == |s.orders| + 1 && s'.orders[1..] == s.orders
      && s'.orders[0].terms == terms && IsWorking(s'.orders[0].status)
      && forall i :: 0 <= i < |s.orders| ==> s.orders[i].id != s'.orders[0].id
  {
    hide Reached, OrderId;
    ReachedIsOk(s);
  }

  /** Replacing gives the one working order it names its new terms, and is refused for any other. */
  lemma ReplaceChangesOneOrder(s: State, id: string, terms: Terms)
    requires Reached(s)
    ensures
      var (s', outcome) := Replace(s, id, terms);
      && OnlyOrders(s, s') && s'.orderCounter == s.orderCounter && |s'.orders| == |s.orders|
      && (outcome == Done <==> exists i :: 0 <= i < |s.orders| && s.orders[i].id == id && IsWorking(s.orders[i].status))
      && (outcome == NoSuchId <==> forall i :: 0 <= i < |s.orders| ==> s.orders[i].id != id)
      && (outcome != Done ==> s' == s)
      && forall i :: 0 <= i < |s.orders| ==>
           && s'.orders[i].id == s.orders[i].id && s'.orders[i].status == s.orders[i].status
           && s'.orders[i].terms == if s.orders[i].id == id && outcome == Done then terms else s.orders[i].terms
  {
    hide Reached;
    ReachedIsOk(s);
    var i := FindOrder(s.orders, id);
    assert forall k :: 0 <= k < |s.orders| && s.orders[k].id == id ==> k == i;
  }

  /** Working is what is left when an order is neither filled nor has failed. */
  lemma WorkingExactly(st: OrderStatus)
    ensures IsWorking(st) <==> st != Filled && st != Canceled && st != Rejected && st != Expired
    ensures IsFailed(st) <==> !IsWorking(st) && st != Filled
    ensures forall sp: SpreadStatus :: IsActive(sp) <==> sp == Open || sp == ExitPendingShort || sp == ExitPendingLong
  {
  }

  /**
    The entry scan opens a spread exactly for the account itself, with the kill
    switch and the pause off and no live spread active; the new one is open,
    under a new id, in front of the others.
   */
  lemma ScanOpensExactly(s: State, account: string)
    requires Reached(s)
    ensures
      var (s', outcome) := EntryScan(s, account);
      && (outcome == NoSuchId <==> account != s.account)
      && (outcome == Done <==> account == s.account && !s.killed && !s.paused && forall i :: 0 <= i < |s.spreads| ==> s.spreads[i].status == Closed)
      && (outcome != Done ==> s' == s)
      && (outcome == Done ==>
            && OnlySpreads(s, s') && |s'.spreads| == |s.spreads| + 1 && s'.spreads[1..] == s.spreads
            && s'.spreads[0].status == Open && s'.spreads[0].account == s.account && s'.spreads[0].mode == "paper"
            && s'.spreads[0].shortExit.None? && !s'.spreads[0].monitorSays && !s'.spreads[0].latestSays
            && forall i :: 0 <= i < |AllSpreads(s)| ==> AllSpreads(s)[i].id != s'.spreads[0].id)
  {
    hide Reached, SpreadId;
    ReachedIsOk(s);
  }

  /** With either switch on no scan ever opens a spread, whatever else is called, until the switches are set again. */
  lemma {:induction false} SwitchedOffStaysShut(s: State, calls: seq<Call>, account: string, paused: bool, killed: bool)
    requires (paused || killed) && forall i :: 0 <= i < |calls| ==> !calls[i].DoSwitches?
    ensures
      var s1 := Do(s, DoSwitches(paused, killed));
      var s2 := Run(s1, calls);
      s2.paused == paused && s2.killed == killed && EntryScan(s2, account).1 != Done && EntryScan(s2, account).0 == s2
    decreases |calls|
  {
    if calls != [] {
      var init, last := calls[..|calls| - 1], calls[|calls| - 1];
      SwitchedOffStaysShut(s, init, account, paused, killed);
      assert calls == init + [last];
      RunLast(Do(s, DoSwitches(paused, killed)), init, last);
      SwitchesStay(Run(Do(s, DoSwitches(paused, killed)), init), last);
      hide Do;
    }
  }

  lemma {:induction false} RunLast(s: State, calls: seq<Call>, c: Call)
    ensures Run(s, calls + [c]) == Do(Run(s, calls), c)
    decreases |calls|
  {
    hide Do;
    if calls != [] {
      assert (calls + [c])[0] == calls[0] && (calls + [c])[1..] == calls[1..] + [c];
      RunLast(Do(s, calls[0]), calls[1..], c);
    }
  }

  lemma SwitchesStay(s: State, c: Call)
    requires !c.DoSwitches?
    ensures Do(s, c).paused == s.paused && Do(s, c).killed == s.killed
  {
    hide Reasons, OrderId, SpreadId, ShortExitId, IsBindable, AllSpreads;
  }

  /** A bound execution goes through exactly for a confirmed paper request on the readiness candidate, and opens one spread. */
  lemma BoundOpensExactly(s: State, r: BoundRequest)
    requires Reached(s)
    ensures
      var (s', outcome) := ExecuteBound(s, r);
      && (outcome == NoSuchId <==> r.account != s.account)
      && (outcome == Done <==>
            && r.account == s.account && r.mode == "paper" && r.confirm && r.symbol == "QQQ.US"
            && r.token == "mock-qqq-candidate-token" && r.credit == "0.52" && s.spreads != [])
      && (outcome != Done ==> s' == s)
      && (outcome == Done ==>
            var row := s'.spreads[|s.spreads|];
            && OnlySpreads(s, s') && |s'.spreads| == |s.spreads| + 1 && s'.spreads[..|s.spreads|] == s.spreads
            && row.status == Open && row.account == s.spreads[0].account && row.mode == s.spreads[0].mode
            && row.shortExit.None? && !row.monitorSays && !row.latestSays && row.latestClose.None?)
  {
    hide Reached, SpreadId;
    ReachedIsOk(s);
  }

  /** An active row is closed under a new exit id, a closed one told not to close. */
  ghost predicate Watched(row: Spread, row': Spread, counter: nat, counter': nat) {
    if row.status != Closed then
      && row' == row.(status := Closed, monitorSays := true, shortExit := row'.shortExit)
      && row'.shortExit == Some("mock-spread-short-exit-" + Numeral(counter')) && counter' == counter + 1
    else row' == row.(monitorSays := false) && counter' == counter
  }

  /** What the monitor writes into the row it finds. */
  lemma MonitorWrites(s: State, id: string)
    requires Monitor(s, id).1 == Done
    ensures
      var s' := Monitor(s, id).0;
      && |AllSpreads(s')| == |AllSpreads(s)|
      && exists i :: 0 <= i < |AllSpreads(s)| && AllSpreads(s)[i].id == id
                     && Watched(AllSpreads(s)[i], AllSpreads(s')[i], s.spreadCounter, s'.spreadCounter)
  {
    hide PutSpread, Numeral;
    var all := AllSpreads(s);
    var i := FindSpread(all, id);
    var row := all[i];
    PutSpreadIs(s, i, row.(status := Closed, shortExit := Some(ShortExitId(s.spreadCounter + 1)), monitorSays := true));
    PutSpreadIs(s, i, row.(monitorSays := false));
    PutKeepsCounter(s, i, row.(monitorSays := false));
    assert all[i].id == id;
  }

  lemma PutKeepsCounter(s: State, i: nat, row: Spread)
    requires i < |AllSpreads(s)|
    ensures PutSpread(s, i, row).spreadCounter == s.spreadCounter
  {
  }

  // --- a fresh dashboard ------------------------------------------------------------------

  /** In a fresh dashboard the seeded spread can be recovered exactly if its close order has failed and a close is asked for. */
  lemma FreshIsRecoverableExactly(account: string, closeStatus: OrderStatus, says: bool, latest: Option<OrderStatus>, limit: string)
    ensures
      Recover(Initial(account, closeStatus, says, latest), SEED_SPREAD, true, Some(account), "paper", limit).1 == Done
      <==> says && (closeStatus == Canceled || closeStatus == Rejected || closeStatus == Expired)
  {
    hide PutSpread, OrderId, Submit;
    var s := Initial(account, closeStatus, says, latest);
    assert FindSpread(AllSpreads(s), SEED_SPREAD) == 0 && FindOrder(s.orders, SEED_CLOSE) == 0;
    assert CloseOrder(s, s.spreads[0]) == Some(SeedClose(closeStatus));
  }

  /** The seeded spread keeps the entry scan out until the monitor has closed it; then the next scan opens one. */
  lemma FreshScanWaitsForTheMonitor(account: string, closeStatus: OrderStatus, says: bool, latest: Option<OrderStatus>)
    ensures
      var s := Initial(account, closeStatus, says, latest);
      EntryScan(s, account).1 == Refused && EntryScan(Do(s, DoMonitor(SEED_SPREAD)), account).1 == Done
  {
    hide SpreadId, ShortExitId;
    var s := Initial(account, closeStatus, says, latest);
    assert FindSpread(AllSpreads(s), SEED_SPREAD) == 0;
  }
}
