/**
  The idempotent order and intent ledger, FakeOrderService of
  scripts/run_bull_put_strategy_regression.py.  The ledger is a value; the
  class of OrderService.dfy updates its fields in place and is proved against it.

  A request hash stands for its payload (the hash is taken to be injective).
 */
module OrderLedger {
  import opened Options
  import opened Decimals

  datatype Side = Buy | Sell

  datatype Request = Request(account: string, mode: string, symbol: string, side: Side, quantity: int, limitPrice: Option<real>)

  datatype OrderStatus = Filled | Canceled

  datatype Order = Order(id: string, intent: string, request: Request, price: Option<real>, status: OrderStatus, replayed: bool)

  datatype IntentState = Prepared | Submitting | Acknowledged | Unknown | Persisted | Rejected

  datatype Key = Key(account: string, mode: string, name: string)

  datatype Intent = Intent(id: string, parent: string, key: Key, request: Request, state: IntentState, response: Option<Order>)

  datatype Action = Action(id: string, key: Key, hash: string, state: IntentState)

  /** The fields of the service; `intentOrder` is the insertion order of the intents dictionary. */
  datatype Ledger = Ledger(counter: nat, actionCounter: nat, childCounter: nat,
                           orders: map<string, Order>, actions: map<string, Action>,
                           intents: map<string, Intent>, intentOrder: seq<string>,
                           actionByKey: map<Key, string>, childByKey: map<Key, string>, exitPhase: bool)

  const EMPTY := Ledger(0, 0, 0, map[], map[], map[], [], map[], map[], false)

  const WINDOW := 100

  function OrderId(n: nat): string { "mock-order-" + Numeral(n) }
  function ChildId(n: nat): string { "child-intent-" + Numeral(n) }
  function ActionId(n: nat): string { "parent-action-" + Numeral(n) }
  function GeneratedKey(n: nat): string { "internal-" + Numeral(n) }

  /** A missing or empty string counts as absent. */
  function OrElse(s: Option<string>, default: string): string {
    if s.Some? && s.value != "" then s.value else default
  }

  // --- the operations as functions -------------------------------------------

  /** Both key indexes point at existing records. */
  predicate Linked(l: Ledger) {
    && (forall k :: k in l.childByKey ==> l.childByKey[k] in l.intents)
    && (forall k :: k in l.actionByKey ==> l.actionByKey[k] in l.actions)
    && (forall i :: 0 <= i < |l.intentOrder| ==> l.intentOrder[i] in l.intents)
  }

  datatype Reply =
    | Placed(order: Order)
    | Replayed(order: Order)
    | Conflict(intent: string)
    | RejectedBefore(intent: string)
    | OutcomeUnknown(intent: string)

  function SubmitKey(l: Ledger, request: Request, key: Option<string>): Key {
    Key(request.account, request.mode, OrElse(key, GeneratedKey(l.counter + 1)))
  }

  /** What a repeated key is answered. */
  function Answer(existing: Intent, request: Request): Reply {
    if existing.request != request then Conflict(existing.id)
    else if existing.state == Persisted && existing.response.Some? then Replayed(existing.response.value.(replayed := true))
    else if existing.state == Rejected then RejectedBefore(existing.id)
    else OutcomeUnknown(existing.id)
  }

  function FillPrice(exitPhase: bool, request: Request): Option<real> {
    if exitPhase && request.side == Sell && request.limitPrice.None? then Some(0.30) else request.limitPrice
  }

  function NewOrder(l: Ledger, request: Request): Order {
    Order(OrderId(l.counter + 1), ChildId(l.childCounter + 1), request, FillPrice(l.exitPhase, request), Filled, false)
  }

  function NewIntent(l: Ledger, request: Request, k: Key, parent: Option<string>, orderOk: bool): Intent {
    Intent(ChildId(l.childCounter + 1), OrElse(parent, "standalone-action"), k, request,
           if orderOk then Persisted else Unknown, if orderOk then Some(NewOrder(l, request)) else None)
  }

  /** Both counters move on even when no order comes of it. */
  function Record(l: Ledger, i: Intent): Ledger {
    l.(counter := l.counter + 1, childCounter := l.childCounter + 1,
       orders := if i.response.Some? then l.orders[i.response.value.id := i.response.value] else l.orders,
       intents := l.intents[i.id := i], intentOrder := l.intentOrder + [i.id], childByKey := l.childByKey[i.key := i.id])
  }

  /** `orderOk` is false when building the order raises. */
  function Submit(l: Ledger, request: Request, key: Option<string>, parent: Option<string>, orderOk: bool): (Ledger, Reply)
    requires Linked(l)
  {
    var k := SubmitKey(l, request, key);
    if k in l.childByKey then (l, Answer(l.intents[l.childByKey[k]], request))
    else
      var i := NewIntent(l, request, k, parent, orderOk);
      (Record(l, i), if orderOk then Placed(NewOrder(l, request)) else OutcomeUnknown(i.id))
  }

  /** None is the KeyError of an unknown id. */
  function Cancel(l: Ledger, id: string): (Ledger, Option<Order>) {
    if id !in l.orders then (l, None)
    else
      var order := l.orders[id].(status := Canceled);
      (l.(orders := l.orders[id := order]), Some(order))
  }

  datatype PrepareReply = PreparedAs(action: Action, created: bool) | ActionConflict(existing: string)

  function Prepare(l: Ledger, k: Key, hash: string): (Ledger, PrepareReply)
    requires Linked(l)
  {
    if k in l.actionByKey then
      var existing := l.actions[l.actionByKey[k]];
      (l, if existing.hash != hash then ActionConflict(existing.id) else PreparedAs(existing, false))
    else
      var action := Action(ActionId(l.actionCounter + 1), k, hash, Prepared);
      (l.(actionCounter := l.actionCounter + 1, actions := l.actions[action.id := action], actionByKey := l.actionByKey[k := action.id]),
       PreparedAs(action, true))
  }

  /** mark_trade_action_* and complete_trade_action: no state is guarded. */
  function Mark(l: Ledger, id: string, state: IntentState): (Ledger, Option<Action>) {
    if id !in l.actions then (l, None)
    else
      var action := l.actions[id].(state := state);
      (l.(actions := l.actions[id := action]), Some(action))
  }

  predicate IsUnresolved(st: IntentState) {
    st == Prepared || st == Submitting || st == Unknown || st == Acknowledged
  }

  predicate Belongs(i: Intent, account: string, mode: string) {
    i.key.account == account && i.key.mode == mode
  }

  /** The intents of one account and mode among the ids `order`, in that order. */
  function Rows(l: Ledger, order: seq<string>, account: string, mode: string): seq<Intent>
    requires forall i :: 0 <= i < |order| ==> order[i] in l.intents
  {
    if order == [] then []
    else
      var last := l.intents[order[|order| - 1]];
      Rows(l, order[..|order| - 1], account, mode) + if Belongs(last, account, mode) then [last] else []
  }

  /** list_trading_intents with its default limit. */
  function Listed(l: Ledger, account: string, mode: string): seq<Intent>
    requires Linked(l)
  {
    var rows := Rows(l, l.intentOrder, account, mode);
    if |rows| <= WINDOW then rows else rows[..WINDOW]
  }

  function CountUnresolved(rows: seq<Intent>): nat {
    if rows == [] then 0 else CountUnresolved(rows[..|rows| - 1]) + if IsUnresolved(rows[|rows| - 1].state) then 1 else 0
  }

  /** reconcile_unresolved_intents: the number it reports. */
  function Reconcile(l: Ledger, account: string, mode: string): nat
    requires Linked(l)
  {
    CountUnresolved(Listed(l, account, mode))
  }

  predicate HasUnresolved(l: Ledger, account: string, mode: string, exclude: Option<string>)
    requires Linked(l)
  {
    var rows := Listed(l, account, mode);
    exists i :: 0 <= i < |rows| && exclude != Some(rows[i].parent) && IsUnresolved(rows[i].state)
  }

  // --- any sequence of calls ----------------------------------------------------

  datatype Call =
    | DoPrepare(key: Key, hash: string)
    | DoMark(action: string, state: IntentState)
    | DoSubmit(request: Request, name: Option<string>, parent: Option<string>, orderOk: bool)
    | DoCancel(order: string)
    | DoSetExit(exit: bool)

  function Do(l: Ledger, call: Call): Ledger
    requires Linked(l)
  {
    match call
    case DoPrepare(k, hash) => Prepare(l, k, hash).0
    case DoMark(id, st) => Mark(l, id, st).0
    case DoSubmit(request, name, parent, orderOk) => Submit(l, request, name, parent, orderOk).0
    case DoCancel(id) => Cancel(l, id).0
    case DoSetExit(exit) => l.(exitPhase := exit)
  }

  // --- the invariant --------------------------------------------------------------

  /** The intents and their key index. */
  ghost predicate IntentsOk(count: nat, order: seq<string>, intents: map<string, Intent>, index: map<Key, string>) {
    && |order| == count
    && (forall i :: 0 <= i < count ==> order[i] == ChildId(i + 1))
    && (forall id :: id in intents <==> id in order)
    && (forall id :: id in intents ==> intents[id].id == id && intents[id].key in index && index[intents[id].key] == id)
    && (forall k :: k in index ==> index[k] in intents && intents[index[k]].key == k)
  }

  /** An intent ends up persisted with its order, or unknown without one. */
  ghost predicate IntentOk(orders: map<string, Order>, id: string, i: Intent) {
    && i.key.account == i.request.account && i.key.mode == i.request.mode
    && (i.state == Persisted || i.state == Unknown) && (i.state == Persisted <==> i.response.Some?)
    && (i.response.Some? ==> i.response.value.id in orders && orders[i.response.value.id].intent == id)
  }

  /** An order belongs to the intent that recorded it; only a cancel changes it afterwards. */
  ghost predicate OrderOk(intents: map<string, Intent>, id: string, order: Order) {
    && order.id == id && order.intent in intents
    && intents[order.intent].response == Some(order.(status := Filled))
    && intents[order.intent].request == order.request
  }

  ghost predicate OrdersOk(counter: nat, orders: map<string, Order>, intents: map<string, Intent>) {
    && (forall n: nat :: n > counter ==> OrderId(n) !in orders)
    && (forall id :: id in intents ==> IntentOk(orders, id, intents[id]))
    && (forall o :: o in orders ==> OrderOk(intents, o, orders[o]))
  }

  ghost predicate ActionsOk(counter: nat, actions: map<string, Action>, index: map<Key, string>) {
    && (forall n: nat :: n > counter ==> ActionId(n) !in actions)
    && (forall id :: id in actions ==> actions[id].id == id && actions[id].key in index && index[actions[id].key] == id)
    && (forall k :: k in index ==> index[k] in actions && actions[index[k]].key == k)
  }

  ghost predicate Ok(l: Ledger) {
    && IntentsOk(l.childCounter, l.intentOrder, l.intents, l.childByKey)
    && OrdersOk(l.counter, l.orders, l.intents)
    && ActionsOk(l.actionCounter, l.actions, l.actionByKey)
  }

  lemma OkIsLinked(l: Ledger)
    requires Ok(l)
    ensures Linked(l)
  {
  }

  lemma FreshChildId(l: Ledger)
    requires Ok(l)
    ensures ChildId(l.childCounter + 1) !in l.intents
  {
    hide OrdersOk, ActionsOk;
    forall i | 0 <= i < l.childCounter ensures l.intentOrder[i] != ChildId(l.childCounter + 1) {
      PrefixedInjective("child-intent-", i + 1, l.childCounter + 1);
    }
  }

  lemma AddIntent(count: nat, order: seq<string>, intents: map<string, Intent>, index: map<Key, string>, i: Intent)
    requires IntentsOk(count, order, intents, index)
    requires i.id == ChildId(count + 1) && i.id !in intents && i.key !in index
    ensures IntentsOk(count + 1, order + [i.id], intents[i.id := i], index[i.key := i.id])
  {
  }

  /** A new intent without an order, or with the new order it records. */
  lemma AddOutcome(counter: nat, orders: map<string, Order>, intents: map<string, Intent>, i: Intent)
    requires OrdersOk(counter, orders, intents) && i.id !in intents
    requires i.key.account == i.request.account && i.key.mode == i.request.mode
    requires i.state == if i.response.Some? then Persisted else Unknown
    requires i.response.Some? ==>
      var o := i.response.value;
      o.id == OrderId(counter + 1) && o.intent == i.id && o.request == i.request && o.status == Filled
    ensures OrdersOk(counter + 1, if i.response.Some? then orders[i.response.value.id := i.response.value] else orders, intents[i.id := i])
  {
    forall n: nat | n > counter + 1 ensures OrderId(n) != OrderId(counter + 1) {
      PrefixedInjective("mock-order-", n, counter + 1);
    }
    hide OrderId;
  }

  lemma SubmitKeeps(l: Ledger, request: Request, key: Option<string>, parent: Option<string>, orderOk: bool)
    requires Ok(l) && Linked(l)
    ensures Ok(Submit(l, request, key, parent, orderOk).0)
  {
    var k := SubmitKey(l, request, key);
    var i := NewIntent(l, request, k, parent, orderOk);
    FreshChildId(l);
    hide SubmitKey, IntentsOk, OrdersOk, ActionsOk, ChildId, OrderId;
    if k !in l.childByKey {
      AddIntent(l.childCounter, l.intentOrder, l.intents, l.childByKey, i);
      AddOutcome(l.counter, l.orders, l.intents, i);
    }
  }

  lemma CancelKeeps(l: Ledger, id: string)
    requires Ok(l)
    ensures Ok(Cancel(l, id).0)
  {
    hide IntentsOk, ActionsOk;
  }

  lemma PrepareKeeps(l: Ledger, k: Key, hash: string)
    requires Ok(l) && Linked(l)
    ensures Ok(Prepare(l, k, hash).0)
  {
    hide IntentsOk, OrdersOk;
    var l' := Prepare(l, k, hash).0;
    forall n: nat | n > l'.actionCounter && l'.actionCounter == l.actionCounter + 1 ensures ActionId(n) !in l'.actions {
      PrefixedInjective("parent-action-", n, l.actionCounter + 1);
    }
    hide ActionId;
  }

  lemma DoKeeps(l: Ledger, call: Call)
    requires Ok(l) && Linked(l)
    ensures Ok(Do(l, call)) && Linked(Do(l, call))
  {
    match call {
      case DoPrepare(k, hash) => PrepareKeeps(l, k, hash);
      case DoMark(id, st) => MarkKeeps(l, id, st);
      case DoSubmit(request, name, parent, orderOk) =>
        SubmitKeeps(l, request, name, parent, orderOk);
      case DoCancel(id) => CancelKeeps(l, id);
      case DoSetExit(_) =>
    }
    hide Cancel, Prepare, Mark, IntentsOk, OrdersOk, ActionsOk;
    assert Ok(Do(l, call));
    OkIsLinked(Do(l, call));
  }

  lemma MarkKeeps(l: Ledger, id: string, st: IntentState)
    requires Ok(l)
    ensures Ok(Mark(l, id, st).0)
  {
  }

  /** A ledger reached by calls: it keeps its invariant. */
  function Run(l: Ledger, calls: seq<Call>): (l': Ledger)
    requires Ok(l) && Linked(l)
    ensures Ok(l') && Linked(l')
    decreases |calls|
  {
    if calls == [] then l
    else
      DoKeeps(l, calls[0]);
      Run(Do(l, calls[0]), calls[1..])
  }
}
