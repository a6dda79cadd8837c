/**
  Orders, spreads and close recovery of MockDashboardState in
  scripts/mock_dashboard_server.py, as functions on a value.  The lists keep
  the source's order: new orders and scanned spreads go to the front, bound
  spreads to the end.
 */
module MockDashboard {
  import opened Options
  import opened Decimals

  datatype OrderStatus = Created | Submitted | PartiallyFilled | Filled | Canceled | Rejected | Expired

  /** What an order asks for; prices are kept as the formatted texts the rows hold. */
  datatype Terms = Terms(quantity: int, limit: Option<string>, stop: Option<string>)

  datatype Order = Order(id: string, terms: Terms, status: OrderStatus)

  datatype SpreadStatus = Open | ExitPendingShort | ExitPendingLong | Closed

  /** `monitorSays` is the stored monitor's should_close, `latestSays` the flat flag beside it. */
  datatype Spread = Spread(id: string, account: string, mode: string, status: SpreadStatus, shortExit: Option<string>,
                           monitorSays: bool, latestSays: bool, latestClose: Option<OrderStatus>)

  /** A recovery order that was placed, and the spread it was placed for. */
  datatype Recovery = Recovery(spread: string, order: string)

  /** `recoveries` records what happened; no operation reads it. */
  datatype State = State(account: string, orders: seq<Order>, spreads: seq<Spread>, closed: seq<Spread>,
                         orderCounter: nat, spreadCounter: nat, paused: bool, killed: bool, recoveries: seq<Recovery>)

  predicate IsWorking(st: OrderStatus) {
    st == Created || st == Submitted || st == PartiallyFilled
  }

  predicate IsFailed(st: OrderStatus) {
    st == Canceled || st == Rejected || st == Expired
  }

  predicate IsActive(st: SpreadStatus) {
    st != Closed
  }

  /** Every spread is for one contract. */
  const CONTRACTS := 1

  /** A recovery buys the short leg back at a limit: the debit asked for, else the monitor's hint, else 1.00. */
  function RecoveryTerms(limit: string): Terms { Terms(CONTRACTS, Some(limit), None) }

  const SEED_SPREAD := "mock-spread-0001"
  const SEED_CLOSE := "mock-order-0001"
  const SEED_FILLED := "mock-order-0002"

  const SEED_FILL := Order(SEED_FILLED, Terms(10, Some("389.2400"), None), Filled)

  function SeedClose(status: OrderStatus): Order { Order(SEED_CLOSE, Terms(1, Some("301.0000"), None), status) }

  function OrderId(n: nat): string { "mock-order-" + Numeral(n) }
  function SpreadId(n: nat): string { "mock-spread-" + Numeral(n) }
  function ShortExitId(n: nat): string { "mock-spread-short-exit-" + Numeral(n) }

  /** An index below 100 in four digits. */
  function Padded(n: nat): string {
    (if n < 10 then "000" else "00") + Numeral(n)
  }

  function ClosedSeed(account: string, n: nat): Spread {
    Spread("mock-spread-closed-" + Padded(n), account, "paper", Closed, Some("mock-order-closed-short-" + Padded(n)), true, false, None)
  }

  /** The seeded state; scenarios differ in the old close order's status and in whether a close is asked for. */
  function Initial(account: string, closeStatus: OrderStatus, says: bool, latest: Option<OrderStatus>): State {
    State(account, [SeedClose(closeStatus), SEED_FILL],
          [Spread(SEED_SPREAD, account, "paper", Open, Some(SEED_CLOSE), says, false, latest)],
          seq(26, (i: nat) => ClosedSeed(account, i + 1)), 1000, 3000, false, false, [])
  }

  // --- lookups ------------------------------------------------------------------

  /** get_order: the first row with the id, or the length. */
  function FindOrder(orders: seq<Order>, id: string): (i: nat)
    ensures i <= |orders| && (i < |orders| ==> orders[i].id == id) && forall j :: 0 <= j < i ==> orders[j].id != id
  {
    if orders == [] || orders[0].id == id then 0 else 1 + FindOrder(orders[1..], id)
  }

  function FindSpread(rows: seq<Spread>, id: string): (i: nat)
    ensures i <= |rows| && (i < |rows| ==> rows[i].id == id) && forall j :: 0 <= j < i ==> rows[j].id != id
  {
    if rows == [] || rows[0].id == id then 0 else 1 + FindSpread(rows[1..], id)
  }

  /** get_spread looks through the live list, then the closed one. */
  function AllSpreads(s: State): seq<Spread> {
    s.spreads + s.closed
  }

  function PutSpread(s: State, i: nat, row: Spread): State
    requires i < |AllSpreads(s)|
  {
    if i < |s.spreads| then s.(spreads := s.spreads[i := row]) else s.(closed := s.closed[i - |s.spreads| := row])
  }

  // --- operations -----------------------------------------------------------------

  datatype Outcome = Done | NoSuchId | Refused

  /** submit_order, and the order a Zero-DTE scan places: both take the next number. */
  function Submit(s: State, terms: Terms): State {
    s.(orderCounter := s.orderCounter + 1, orders := [Order(OrderId(s.orderCounter + 1), terms, Submitted)] + s.orders)
  }

  function Replace(s: State, id: string, terms: Terms): (State, Outcome) {
    var i := FindOrder(s.orders, id);
    if i == |s.orders| then (s, NoSuchId)
    else if !IsWorking(s.orders[i].status) then (s, Refused)
    else (s.(orders := s.orders[i := s.orders[i].(terms := terms)]), Done)
  }

  function Cancel(s: State, id: string): (State, Outcome) {
    var i := FindOrder(s.orders, id);
    if i == |s.orders| then (s, NoSuchId)
    else if !IsWorking(s.orders[i].status) then (s, Refused)
    else (s.(orders := s.orders[i := s.orders[i].(status := Canceled)]), Done)
  }

  datatype Reason = ModeNotPaper | SpreadNotPaper | AccountMismatch | SpreadNotOpen | CloseNotRequired
                  | MissingShortClose | WorkingReplacement | ShortCloseNotFailed

  /** The close order a spread points at, if it can be found. */
  function CloseOrder(s: State, row: Spread): Option<Order> {
    if row.shortExit.None? || row.shortExit.value == "" then None
    else
      var i := FindOrder(s.orders, row.shortExit.value);
      if i == |s.orders| then None else Some(s.orders[i])
  }

  function AddIf(reasons: seq<Reason>, bad: bool, r: Reason): seq<Reason> {
    if bad then reasons + [r] else reasons
  }

  /** recover_close_eligibility: every reason against, in the source's order; none means eligible. */
  function Reasons(s: State, row: Spread, account: Option<string>, mode: string): seq<Reason> {
    var order := CloseOrder(s, row);
    var r1 := AddIf([], mode != "paper", ModeNotPaper);
    var r2 := AddIf(r1, row.mode != "paper", SpreadNotPaper);
    var r3 := AddIf(r2, account.Some? && account.value != row.account, AccountMismatch);
    var r4 := AddIf(r3, row.status != Open, SpreadNotOpen);
    var r5 := AddIf(r4, !row.monitorSays && !row.latestSays, CloseNotRequired);
    if order.None? then r5 + [MissingShortClose]
    else if IsWorking(order.value.status) then r5 + [WorkingReplacement]
    else AddIf(r5, !IsFailed(order.value.status), ShortCloseNotFailed)
  }

  /** When a reason speaks against recovering a spread. */
  predicate Applies(s: State, row: Spread, account: Option<string>, mode: string, r: Reason) {
    match r
    case ModeNotPaper => mode != "paper"
    case SpreadNotPaper => row.mode != "paper"
    case AccountMismatch => account.Some? && account.value != row.account
    case SpreadNotOpen => row.status != Open
    case CloseNotRequired => !(row.monitorSays || row.latestSays)
    case MissingShortClose => forall i :: 0 <= i < |s.orders| ==> row.shortExit != Some(s.orders[i].id) || s.orders[i].id == ""
    case WorkingReplacement => CloseOrder(s, row).Some? && IsWorking(CloseOrder(s, row).value.status)
    case ShortCloseNotFailed =>
      CloseOrder(s, row).Some? && !IsWorking(CloseOrder(s, row).value.status) && !IsFailed(CloseOrder(s, row).value.status)
  }

  function Place(r: Reason): nat {
    match r
    case ModeNotPaper => 0
    case SpreadNotPaper => 1
    case AccountMismatch => 2
    case SpreadNotOpen => 3
    case CloseNotRequired => 4
    case MissingShortClose => 5
    case WorkingReplacement => 6
    case ShortCloseNotFailed => 7
  }

  /** Exactly those of the first `n` kinds of reason that apply, each once, in the source's order. */
  ghost predicate ExplainsFirst(s: State, row: Spread, account: Option<string>, mode: string, reasons: seq<Reason>, n: nat) {
    && (forall r: Reason :: r in reasons <==> Place(r) < n && Applies(s, row, account, mode, r))
    && (forall i, j :: 0 <= i < j < |reasons| ==> Place(reasons[i]) < Place(reasons[j]))
  }

  const KINDS := 8

  /** Exactly the reasons that apply, each once, in the source's order. */
  ghost predicate Explains(s: State, row: Spread, account: Option<string>, mode: string, reasons: seq<Reason>) {
    ExplainsFirst(s, row, account, mode, reasons, KINDS)
  }

  /** recover_close. */
  function Recover(s: State, id: string, confirm: bool, account: Option<string>, mode: string, limit: string): (State, Outcome) {
    var i := FindSpread(AllSpreads(s), id);
    if !confirm then (s, Refused)
    else if i == |AllSpreads(s)| then (s, NoSuchId)
    else
      var row := AllSpreads(s)[i];
      if Reasons(s, row, account, mode) != [] then (s, Refused)
      else
        var placed := Submit(s, RecoveryTerms(limit));
        var order := OrderId(s.orderCounter + 1);
        (PutSpread(placed, i, row.(status := ExitPendingShort, shortExit := Some(order), latestClose := Some(Submitted))).(
           recoveries := s.recoveries + [Recovery(id, order)]), Done)
  }

  /** monitor_spread closes whatever is not closed, and points the spread at an exit id of its own. */
  function Monitor(s: State, id: string): (State, Outcome) {
    var i := FindSpread(AllSpreads(s), id);
    if i == |AllSpreads(s)| then (s, NoSuchId)
    else
      var row := AllSpreads(s)[i];
      if IsActive(row.status) then
        (PutSpread(s, i, row.(status := Closed, shortExit := Some(ShortExitId(s.spreadCounter + 1)), monitorSays := true)).(
           spreadCounter := s.spreadCounter + 1), Done)
      else (PutSpread(s, i, row.(monitorSays := false)), Done)
  }

  /** run_entry_scan opens a spread only when none of the live ones is active. */
  function EntryScan(s: State, account: string): (State, Outcome) {
    if account != s.account then (s, NoSuchId)
    else if s.killed || s.paused || exists i :: 0 <= i < |s.spreads| && IsActive(s.spreads[i].status) then (s, Refused)
    else
      (s.(spreadCounter := s.spreadCounter + 1,
          spreads := [Spread(SpreadId(s.spreadCounter + 1), s.account, "paper", Open, None, false, false, None)] + s.spreads), Done)
  }

  /** The fields execute_bound_bull_put checks. */
  datatype BoundRequest = BoundRequest(account: string, mode: string, confirm: bool, symbol: string, token: string, credit: string)

  predicate IsBindable(r: BoundRequest) {
    r.mode == "paper" && r.confirm && r.symbol == "QQQ.US" && r.token == "mock-qqq-candidate-token" && r.credit == "0.52"
  }

  /** execute_bound_bull_put. */
  function ExecuteBound(s: State, r: BoundRequest): (State, Outcome) {
    if r.account != s.account then (s, NoSuchId)
    else if !IsBindable(r) || s.spreads == [] then (s, Refused)
    else
      var template := s.spreads[0];
      (s.(spreadCounter := s.spreadCounter + 1,
          spreads := s.spreads + [template.(id := SpreadId(s.spreadCounter + 1), status := Open, shortExit := None,
                                            monitorSays := false, latestSays := false, latestClose := None)]), Done)
  }

  datatype Call =
    | DoSubmit(terms: Terms)
    | DoReplace(id: string, terms: Terms)
    | DoCancel(id: string)
    | DoRecover(id: string, confirm: bool, asker: Option<string>, mode: string, limit: string)
    | DoMonitor(id: string)
    | DoEntryScan(account: string)
    | DoExecuteBound(request: BoundRequest)
    | DoSwitches(paused: bool, killed: bool)

  function Do(s: State, call: Call): State {
    match call
    case DoSubmit(q) => Submit(s, q)
    case DoReplace(id, q) => Replace(s, id, q).0
    case DoCancel(id) => Cancel(s, id).0
    case DoRecover(id, confirm, account, mode, limit) => Recover(s, id, confirm, account, mode, limit).0
    case DoMonitor(id) => Monitor(s, id).0
    case DoEntryScan(account) => EntryScan(s, account).0
    case DoExecuteBound(r) => ExecuteBound(s, r).0
    case DoSwitches(paused, killed) => s.(paused := paused, killed := killed)
  }

  function Run(s: State, calls: seq<Call>): State
    decreases |calls|
  {
    if calls == [] then s else Run(Do(s, calls[0]), calls[1..])
  }
}
