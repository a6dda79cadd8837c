/**
  FakeOrderService itself: the dictionaries and counters changed in place, one
  assignment at a time, proved against the functions of OrderLedger.dfy.
 */
module OrderServices {
  import opened Options
  import opened OrderLedger
  import LedgerTheorems

  class FakeOrderService {
    var counter: nat
    var actionCounter: nat
    var childCounter: nat
    var orders: map<string, Order>
    var actions: map<string, Action>
    var intents: map<string, Intent>
    var intentOrder: seq<string>
    var actionByKey: map<Key, string>
    var childByKey: map<Key, string>
    var exitPhase: bool

    ghost function State(): Ledger
      reads this
    {
      Ledger(counter, actionCounter, childCounter, orders, actions, intents, intentOrder, actionByKey, childByKey, exitPhase)
    }

    constructor ()
      ensures State() == EMPTY && Ok(State())
    {
      counter, actionCounter, childCounter := 0, 0, 0;
      orders, actions, intents, intentOrder := map[], map[], map[], [];
      actionByKey, childByKey, exitPhase := map[], map[], false;
      new;
      LedgerTheorems.EmptyIsOk();
    }

    /** Dictionary assignment: a new key goes to the end of the order. */
    method StoreIntent(i: Intent)
      modifies this`intents, this`intentOrder
      ensures intents == old(intents)[i.id := i]
      ensures intentOrder == if i.id in old(intents) then old(intentOrder) else old(intentOrder) + [i.id]
    {
      if i.id !in intents {
        intentOrder := intentOrder + [i.id];
      }
      intents := intents[i.id := i];
    }

    method SubmitOrder(request: Request, key: Option<string>, parent: Option<string>, orderOk: bool) returns (reply: Reply)
      requires Ok(State()) && Linked(State())
      modifies this
      ensures Ok(State()) && Linked(State())
      ensures (State(), reply) == Submit(old(State()), request, key, parent, orderOk)
    {
      hide Ok, Record, NewOrder, Answer, ChildId, OrderId;
      ghost var was := State();
      SubmitKeeps(was, request, key, parent, orderOk);
      OkIsLinked(Submit(was, request, key, parent, orderOk).0);
      LedgerTheorems.FreshIds(was);
      var k := Key(request.account, request.mode, OrElse(key, GeneratedKey(counter + 1)));
      if k in childByKey {
        reply := Answer(intents[childByKey[k]], request);
      } else {
        reply := PlaceOrder(k, request, parent, orderOk);
      }
    }

    /** The next order, filled at once; the counter has moved on even if building it then raises. */
    method BuildOrder(id: string, request: Request) returns (order: Order)
      modifies this`counter
      ensures counter == old(counter) + 1
      ensures order == Order(OrderId(counter), id, request, FillPrice(exitPhase, request), Filled, false)
    {
      hide OrderId;
      counter := counter + 1;
      var price := request.limitPrice;
      if exitPhase && request.side == Sell && price.None? {
        price := Some(0.30);
      }
      order := Order(OrderId(counter), id, request, price, Filled, false);
    }

    /** Record a new intent under its key, first prepared, then submitting. */
    method OpenIntent(k: Key, request: Request, parent: Option<string>) returns (child: Intent)
      requires ChildId(childCounter + 1) !in intents
      modifies this`childCounter, this`intents, this`intentOrder, this`childByKey
      ensures child == Intent(ChildId(childCounter), OrElse(parent, "standalone-action"), k, request, Submitting, None)
      ensures childCounter == old(childCounter) + 1 && childByKey == old(childByKey)[k := child.id]
      ensures intents == old(intents)[child.id := child] && intentOrder == old(intentOrder) + [child.id]
    {
      hide ChildId, OrElse;
      childCounter := childCounter + 1;
      child := Intent(ChildId(childCounter), OrElse(parent, "standalone-action"), k, request, Prepared, None);
      StoreIntent(child);
      childByKey := childByKey[k := child.id];
      child := child.(state := Submitting);
      StoreIntent(child);
    }

    /** submit_order for a key not seen before: the intent is recorded before the order exists, and closed by its outcome. */
    method PlaceOrder(k: Key, request: Request, parent: Option<string>, orderOk: bool) returns (reply: Reply)
      requires ChildId(childCounter + 1) !in intents
      modifies this`counter, this`childCounter, this`orders, this`intents, this`intentOrder, this`childByKey
      ensures State() == Record(old(State()), NewIntent(old(State()), request, k, parent, orderOk))
      ensures reply == if orderOk then Placed(NewOrder(old(State()), request)) else OutcomeUnknown(ChildId(old(childCounter) + 1))
    {
      hide ChildId, OrderId, OrElse, FillPrice;
      var child := OpenIntent(k, request, parent);
      var order := BuildOrder(child.id, request);
      if orderOk {
        orders := orders[order.id := order];
        child := child.(state := Persisted, response := Some(order));
        reply := Placed(order);
      } else {
        child := child.(state := Unknown);
        reply := OutcomeUnknown(child.id);
      }
      StoreIntent(child);
      assert intents == old(intents)[child.id := child];
    }

    method CancelOrder(id: string) returns (order: Option<Order>)
      requires Ok(State())
      modifies this`orders
      ensures Ok(State()) && (State(), order) == Cancel(old(State()), id)
      ensures if id in old(orders)
              then orders == old(orders)[id := old(orders)[id].(status := Canceled)] && order == Some(orders[id])
              else orders == old(orders) && order == None
    {
      hide Ok;
      CancelKeeps(State(), id);
      if id !in orders {
        return None;
      }
      order := Some(orders[id].(status := Canceled));
      orders := orders[id := order.value];
    }

    method PrepareTradeAction(k: Key, hash: string) returns (reply: PrepareReply)
      requires Ok(State()) && Linked(State())
      modifies this`actionCounter, this`actions, this`actionByKey
      ensures Ok(State()) && (State(), reply) == Prepare(old(State()), k, hash)
    {
      hide Ok, ActionId;
      PrepareKeeps(State(), k, hash);
      if k in actionByKey {
        var existing := actions[actionByKey[k]];
        return if existing.hash != hash then ActionConflict(existing.id) else PreparedAs(existing, false);
      }
      actionCounter := actionCounter + 1;
      var action := Action(ActionId(actionCounter), k, hash, Prepared);
      actions := actions[action.id := action];
      actionByKey := actionByKey[k := action.id];
      return PreparedAs(action, true);
    }

    method MarkTradeAction(id: string, state: IntentState) returns (action: Option<Action>)
      requires Ok(State())
      modifies this`actions
      ensures Ok(State()) && (State(), action) == Mark(old(State()), id, state)
    {
      hide Ok;
      MarkKeeps(State(), id, state);
      if id !in actions {
        return None;
      }
      action := Some(actions[id].(state := state));
      actions := actions[id := action.value];
    }
  }
}
