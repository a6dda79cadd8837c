/**
  MockDashboardState itself: lists, counters and rows changed in place, proved
  against the functions of MockDashboard.dfy.
 */
module DashboardStates {
  import opened Options
  import opened MockDashboard
  import DashboardTheorems

  class MockDashboardState {
    const account: string
    var orders: seq<Order>
    var spreads: seq<Spread>
    var closedSpreads: seq<Spread>
    var orderCounter: nat
    var spreadCounter: nat
    var manualPause: bool
    var killSwitch: bool
    ghost var recoveries: seq<Recovery>

    ghost function Abstract(): State
      reads this
    {
      State(account, orders, spreads, closedSpreads, orderCounter, spreadCounter, manualPause, killSwitch, recoveries)
    }

    constructor (account: string, closeStatus: OrderStatus, says: bool, latest: Option<OrderStatus>)
      ensures this.account == account && Abstract() == Initial(account, closeStatus, says, latest)
      ensures DashboardTheorems.Ok(Abstract())
    {
      this.account := account;
      orders := [SeedClose(closeStatus), SEED_FILL];
      spreads := [Spread(SEED_SPREAD, account, "paper", Open, Some(SEED_CLOSE), says, false, latest)];
      orderCounter, spreadCounter, manualPause, killSwitch, recoveries := 1000, 3000, false, false, [];
      closedSpreads := [];
      new;
      for index := 1 to 27
        invariant orderCounter == 1000 && spreadCounter == 3000 && !manualPause && !killSwitch && recoveries == []
        invariant orders == Initial(account, closeStatus, says, latest).orders && spreads == Initial(account, closeStatus, says, latest).spreads
        invariant |closedSpreads| == index - 1 && forall i :: 0 <= i < |closedSpreads| ==> closedSpreads[i] == ClosedSeed(account, i + 1)
      {
        closedSpreads := closedSpreads + [ClosedSeed(account, index)];
      }
      assert closedSpreads == Initial(account, closeStatus, says, latest).closed;
      DashboardTheorems.InitialIsOk(account, closeStatus, says, latest);
    }

    /** get_order: the index of the row, or None for the KeyError. */
    method GetOrder(id: string) returns (found: Option<nat>)
      ensures found == var i := FindOrder(orders, id); if i == |orders| then None else Some(i)
    {
      for i := 0 to |orders|
        invariant FindOrder(orders, id) == i + FindOrder(orders[i..], id)
      {
        if orders[i].id == id {
          return Some(i);
        }
        assert orders[i..][1..] == orders[i + 1..];
      }
      return None;
    }

    /** get_spread looks through the live rows, then the closed ones. */
    method GetSpread(id: string) returns (found: Option<nat>)
      ensures found == var rows := AllSpreads(Abstract()); var i := FindSpread(rows, id); if i == |rows| then None else Some(i)
    {
      var rows := spreads + closedSpreads;
      for i := 0 to |rows|
        invariant FindSpread(rows, id) == i + FindSpread(rows[i..], id)
      {
        if rows[i].id == id {
          return Some(i);
        }
        assert rows[i..][1..] == rows[i + 1..];
      }
      return None;
    }

    method SetSpread(i: nat, row: Spread)
      requires i < |spreads| + |closedSpreads|
      modifies this`spreads, this`closedSpreads
      ensures Abstract() == PutSpread(old(Abstract()), i, row)
    {
      if i < |spreads| {
        spreads := spreads[i := row];
      } else {
        closedSpreads := closedSpreads[i - |spreads| := row];
      }
    }

    method SubmitOrder(terms: Terms) returns (order: Order)
      modifies this`orderCounter, this`orders
      ensures Abstract() == Submit(old(Abstract()), terms)
      ensures order == Order(OrderId(orderCounter), terms, Submitted)
    {
      orderCounter := orderCounter + 1;
      order := Order(OrderId(orderCounter), terms, Submitted);
      orders := [order] + orders;
    }

    method ReplaceOrder(id: string, terms: Terms) returns (outcome: Outcome)
      modifies this`orders
      ensures (Abstract(), outcome) == Replace(old(Abstract()), id, terms)
    {
      var found := GetOrder(id);
      if found.None? {
        return NoSuchId;
      }
      var i := found.value;
      if !IsWorking(orders[i].status) {
        return Refused;
      }
      orders := orders[i := orders[i].(terms := terms)];
      return Done;
    }

    method CancelOrder(id: string) returns (outcome: Outcome)
      modifies this`orders
      ensures (Abstract(), outcome) == Cancel(old(Abstract()), id)
    {
      var found := GetOrder(id);
      if found.None? {
        return NoSuchId;
      }
      var i := found.value;
      if !IsWorking(orders[i].status) {
        return Refused;
      }
      orders := orders[i := orders[i].(status := Canceled)];
      return Done;
    }

    /** recover_close_eligibility: exactly the reasons that apply, each once, in order. */
    method RecoverEligibility(row: Spread, asker: Option<string>, mode: string) returns (reasons: seq<Reason>)
      ensures Explains(Abstract(), row, asker, mode, reasons)
    {
      hide ExplainsFirst, CloseOrder;
      ghost var s := Abstract();
      var order := FindCloseOrder(row);
      DashboardTheorems.NoReasons(s, row, asker, mode);
      DashboardTheorems.NextReason(s, row, asker, mode, [], ModeNotPaper);
      reasons := AddIf([], mode != "paper", ModeNotPaper);
      DashboardTheorems.NextReason(s, row, asker, mode, reasons, SpreadNotPaper);
      reasons := AddIf(reasons, row.mode != "paper", SpreadNotPaper);
      DashboardTheorems.NextReason(s, row, asker, mode, reasons, AccountMismatch);
      reasons := AddIf(reasons, asker.Some? && asker.value != row.account, AccountMismatch);
      DashboardTheorems.NextReason(s, row, asker, mode, reasons, SpreadNotOpen);
      reasons := AddIf(reasons, row.status != Open, SpreadNotOpen);
      DashboardTheorems.NextReason(s, row, asker, mode, reasons, CloseNotRequired);
      reasons := AddIf(reasons, !row.monitorSays && !row.latestSays, CloseNotRequired);
      DashboardTheorems.CloseReasons(s, row, asker, mode, reasons);
      if order.None? {
        reasons := reasons + [MissingShortClose];
      } else if IsWorking(order.value.status) {
        reasons := reasons + [WorkingReplacement];
      } else {
        reasons := AddIf(reasons, !IsFailed(order.value.status), ShortCloseNotFailed);
      }
    }

    method FindCloseOrder(row: Spread) returns (order: Option<Order>)
      ensures order == CloseOrder(Abstract(), row)
    {
      order := None;
      if row.shortExit.Some? && row.shortExit.value != "" {
        var found := GetOrder(row.shortExit.value);
        if found.Some? {
          order := Some(orders[found.value]);
        }
      }
    }

    method RecoverClose(id: string, confirm: bool, asker: Option<string>, mode: string, limit: string) returns (outcome: Outcome)
      requires DashboardTheorems.Ok(Abstract())
      modifies this
      ensures DashboardTheorems.Ok(Abstract()) && (Abstract(), outcome) == Recover(old(Abstract()), id, confirm, asker, mode, limit)
    {
      hide DashboardTheorems.Ok, Reasons, OrderId, ExplainsFirst;
      DashboardTheorems.RecoverKeeps(Abstract(), id, confirm, asker, mode, limit);
      if !confirm {
        return Refused;
      }
      var found := GetSpread(id);
      if found.None? {
        return NoSuchId;
      }
      var row := (spreads + closedSpreads)[found.value];
      var reasons := RecoverEligibility(row, asker, mode);
      DashboardTheorems.ReasonsExplain(Abstract(), row, asker, mode);
      DashboardTheorems.ExplanationIsUnique(Abstract(), row, asker, mode, reasons, Reasons(Abstract(), row, asker, mode), KINDS);
      if reasons != [] {
        return Refused;
      }
      var order := SubmitOrder(RecoveryTerms(limit));
      SetSpread(found.value, row.(status := ExitPendingShort, shortExit := Some(order.id), latestClose := Some(order.status)));
      recoveries := recoveries + [Recovery(id, order.id)];
      return Done;
    }

    method MonitorSpread(id: string) returns (outcome: Outcome)
      requires DashboardTheorems.Ok(Abstract())
      modifies this
      ensures DashboardTheorems.Ok(Abstract()) && (Abstract(), outcome) == Monitor(old(Abstract()), id)
    {
      hide DashboardTheorems.Ok, ShortExitId;
      DashboardTheorems.MonitorKeeps(Abstract(), id);
      var found := GetSpread(id);
      if found.None? {
        return NoSuchId;
      }
      var row := (spreads + closedSpreads)[found.value];
      var shouldClose := IsActive(row.status);
      row := row.(monitorSays := shouldClose);
      if shouldClose {
        spreadCounter := spreadCounter + 1;
        row := row.(status := Closed, shortExit := Some(ShortExitId(spreadCounter)));
      }
      SetSpread(found.value, row);
      return Done;
    }

    method RunEntryScan(asked: string) returns (outcome: Outcome)
      requires DashboardTheorems.Ok(Abstract())
      modifies this`spreads, this`spreadCounter
      ensures DashboardTheorems.Ok(Abstract()) && (Abstract(), outcome) == EntryScan(old(Abstract()), asked)
    {
      hide DashboardTheorems.Ok, SpreadId;
      DashboardTheorems.OpenKeeps(Abstract(), DoEntryScan(asked));
      if asked != account {
        return NoSuchId;
      }
      if killSwitch || manualPause || exists i :: 0 <= i < |spreads| && IsActive(spreads[i].status) {
        return Refused;
      }
      spreadCounter := spreadCounter + 1;
      spreads := [Spread(SpreadId(spreadCounter), account, "paper", Open, None, false, false, None)] + spreads;
      return Done;
    }

    method ExecuteBoundBullPut(r: BoundRequest) returns (outcome: Outcome)
      requires DashboardTheorems.Ok(Abstract())
      modifies this`spreads, this`spreadCounter
      ensures DashboardTheorems.Ok(Abstract()) && (Abstract(), outcome) == ExecuteBound(old(Abstract()), r)
    {
      hide DashboardTheorems.Ok, SpreadId;
      DashboardTheorems.OpenKeeps(Abstract(), DoExecuteBound(r));
      if r.account != account {
        return NoSuchId;
      }
      if r.mode != "paper" || !r.confirm {
        return Refused;
      }
      if r.symbol != "QQQ.US" || r.token != "mock-qqq-candidate-token" || r.credit != "0.52" || spreads == [] {
        return Refused;
      }
      spreadCounter := spreadCounter + 1;
      var row := spreads[0].(id := SpreadId(spreadCounter), status := Open, shortExit := None,
                             monitorSays := false, latestSays := false, latestClose := None);
      spreads := spreads + [row];
      return Done;
    }
  }
}
