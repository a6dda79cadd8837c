/**
  The exactly-once contract of the ledger, over every sequence of calls.
 */
module LedgerTheorems {
  import opened Options
  import opened Decimals
  import opened OrderLedger

  lemma EmptyIsOk()
    ensures Ok(EMPTY) && Linked(EMPTY)
  {
  }

  /** The ledger after any calls on a new service. */
  function After(calls: seq<Call>): (l: Ledger)
    ensures Ok(l) && Linked(l)
  {
    EmptyIsOk();
    Run(EMPTY, calls)
  }

  ghost predicate Kept<K, V>(m: map<K, V>, m': map<K, V>) {
    forall k :: k in m ==> k in m' && m'[k] == m[k]
  }

  /** An order can only be canceled. */
  ghost predicate OrdersKept(m: map<string, Order>, m': map<string, Order>) {
    forall o :: o in m ==> o in m' && (m'[o] == m[o] || m'[o] == m[o].(status := Canceled))
  }

  /** Only the state of an action can change. */
  ghost predicate ActionsKept(m: map<string, Action>, m': map<string, Action>) {
    forall a :: a in m ==> a in m' && m'[a].id == m[a].id && m'[a].hash == m[a].hash
  }

  /** What no call takes back. */
  ghost predicate Extends(l: Ledger, l': Ledger) {
    && l.counter <= l'.counter
    && Kept(l.intents, l'.intents) && Kept(l.childByKey, l'.childByKey) && Kept(l.actionByKey, l'.actionByKey)
    && OrdersKept(l.orders, l'.orders) && ActionsKept(l.actions, l'.actions)
  }

  /** The ids a call hands out are new. */
  lemma FreshIds(l: Ledger)
    requires Ok(l)
    ensures ChildId(l.childCounter + 1) !in l.intents
    ensures OrderId(l.counter + 1) !in l.orders
    ensures ActionId(l.actionCounter + 1) !in l.actions
  {
    FreshChildId(l);
  }

  lemma RecordExtends(l: Ledger, i: Intent)
    requires i.id !in l.intents && i.key !in l.childByKey && (i.response.Some? ==> i.response.value.id !in l.orders)
    ensures Extends(l, Record(l, i))
  {
  }

  lemma SubmitExtends(l: Ledger, request: Request, name: Option<string>, parent: Option<string>, ok: bool)
    requires Ok(l) && Linked(l)
    ensures Extends(l, Submit(l, request, name, parent, ok).0)
  {
    hide Ok, Linked, ChildId, OrderId, ActionId, SubmitKey, Record, Answer, OrElse, FillPrice, Kept, OrdersKept, ActionsKept;
    FreshIds(l);
    var k := SubmitKey(l, request, name);
    if k !in l.childByKey {
      RecordExtends(l, NewIntent(l, request, k, parent, ok));
    } else {
      ExtendsItself(l);
    }
  }

  lemma ExtendsItself(l: Ledger)
    ensures Extends(l, l)
  {
  }

  lemma PrepareExtends(l: Ledger, k: Key, hash: string)
    requires Ok(l) && Linked(l)
    ensures Extends(l, Prepare(l, k, hash).0)
  {
    hide Ok, Linked, ChildId, OrderId, ActionId;
    FreshIds(l);
  }

  lemma CancelExtends(l: Ledger, id: string)
    ensures Extends(l, Cancel(l, id).0)
  {
  }

  lemma MarkExtends(l: Ledger, id: string, st: IntentState)
    ensures Extends(l, Mark(l, id, st).0)
  {
    hide Kept, OrdersKept;
    ExtendsItself(l);
  }

  lemma DoExtends(l: Ledger, call: Call)
    requires Ok(l) && Linked(l)
    ensures Extends(l, Do(l, call))
  {
    hide Ok, Submit, Prepare, Cancel, Mark, Kept, OrdersKept, ActionsKept;
    match call {
      case DoSubmit(request, name, parent, ok) => SubmitExtends(l, request, name, parent, ok);
      case DoPrepare(k, hash) => PrepareExtends(l, k, hash);
      case DoCancel(id) => CancelExtends(l, id);
      case DoMark(id, st) => MarkExtends(l, id, st);
      case DoSetExit(_) => ExtendsItself(l);
    }
  }

  lemma ExtendsAgain(a: Ledger, b: Ledger, c: Ledger)
    requires Extends(a, b) && Extends(b, c)
    ensures Extends(a, c)
  {
  }

  lemma {:induction false} RunExtends(l: Ledger, calls: seq<Call>)
    requires Ok(l) && Linked(l)
    ensures Extends(l, Run(l, calls))
    decreases |calls|
  {
    if calls != [] {
      DoKeeps(l, calls[0]);
      DoExtends(l, calls[0]);
      RunExtends(Do(l, calls[0]), calls[1..]);
      ExtendsAgain(l, Do(l, calls[0]), Run(l, calls));
    } 
    hide Ok, Linked, Do;
  }

  lemma RunFirst(l: Ledger, call: Call, calls: seq<Call>)
    requires Ok(l) && Linked(l)
    ensures Ok(Do(l, call)) && Linked(Do(l, call)) && Run(l, [call] + calls) == Run(Do(l, call), calls)
  {
    DoKeeps(l, call);
    assert ([call] + calls)[0] == call && ([call] + calls)[1..] == calls;
    hide Ok, Linked, Do;
  }

  // --- at most one intent and one order per key ---------------------------------

  /** The key under which an order was placed. */
  function KeyOf(l: Ledger, o: string): Key
    requires Ok(l) && o in l.orders
  {
    assert OrderOk(l.intents, o, l.orders[o]);
    l.intents[l.orders[o].intent].key
  }

  lemma AtMostOnePerKey(calls: seq<Call>)
    ensures var l := After(calls);
      && (forall a, b :: a in l.intents && b in l.intents && l.intents[a].key == l.intents[b].key ==> a == b)
      && (forall a, b :: a in l.orders && b in l.orders && KeyOf(l, a) == KeyOf(l, b) ==> a == b)
      && (forall a, b :: a in l.actions && b in l.actions && l.actions[a].key == l.actions[b].key ==> a == b)
  {
  }

  /** Through order_intent_id, the orders and the persisted intents are the same in number, one to one. */
  lemma OrdersMatchPersistedIntents(calls: seq<Call>)
    ensures var l := After(calls);
      && (forall o :: o in l.orders ==> l.orders[o].intent in l.intents && l.intents[l.orders[o].intent].state == Persisted)
      && (forall a, b :: a in l.orders && b in l.orders && l.orders[a].intent == l.orders[b].intent ==> a == b)
      && (forall id :: id in l.intents && l.intents[id].state == Persisted ==> exists o :: o in l.orders && l.orders[o].intent == id)
      && (forall id :: id in l.intents && l.intents[id].state != Persisted ==> l.intents[id].state == Unknown)
  {
  }

  /** How many of the calls were answered with a new order. */
  function PlacedCount(l: Ledger, calls: seq<Call>): nat
    requires Ok(l) && Linked(l)
    decreases |calls|
  {
    if calls == [] then 0
    else
      DoKeeps(l, calls[0]);
      var c := calls[0];
      (if c.DoSubmit? && Submit(l, c.request, c.name, c.parent, c.orderOk).1.Placed? then 1 else 0)
      + PlacedCount(Do(l, c), calls[1..])
  }

  lemma DoCounts(l: Ledger, c: Call)
    requires Ok(l) && Linked(l)
    ensures |Do(l, c).orders| == |l.orders| + if c.DoSubmit? && Submit(l, c.request, c.name, c.parent, c.orderOk).1.Placed? then 1 else 0
  {
    hide Ok, Linked, OrderId, ChildId, ActionId, SubmitKey, OrElse, FillPrice;
    FreshIds(l);
  }

  /** No order appears or vanishes unseen: there are as many as answers that placed one. */
  lemma {:induction false} OrdersAreConserved(l: Ledger, calls: seq<Call>)
    requires Ok(l) && Linked(l)
    ensures |Run(l, calls).orders| == |l.orders| + PlacedCount(l, calls)
    decreases |calls|
  {
    if calls != [] {
      DoKeeps(l, calls[0]);
      DoCounts(l, calls[0]);
      OrdersAreConserved(Do(l, calls[0]), calls[1..]);
      hide Ok, Linked, Do, Submit;
    }
  }

  /**
    A submission places an order exactly when its key is new and the order can
    be built; the order is the request's, filled under an id never used before,
    and its intent holds it as the recorded response.
   */
  lemma PlacedExactly(l: Ledger, request: Request, name: Option<string>, parent: Option<string>, ok: bool)
    requires Ok(l) && Linked(l)
    ensures
      var (l', reply) := Submit(l, request, name, parent, ok);
      && (reply.Placed? <==> SubmitKey(l, request, name) !in l.childByKey && ok)
      && (reply.Placed? ==>
            var o := reply.order;
            && o.request == request && o.status == Filled && !o.replayed && o.id !in l.orders && o.intent !in l.intents
            && l'.orders == l.orders[o.id := o]
            && o.intent in l'.intents && l'.intents[o.intent].response == Some(o)
            && l'.intents[o.intent].key == SubmitKey(l, request, name)
            && (o.price != request.limitPrice ==> l.exitPhase && request.side == Sell && request.limitPrice.None? && o.price == Some(0.30)))
  {
    hide Ok, Linked, ChildId, OrderId, ActionId, SubmitKey, OrElse;
    FreshIds(l);
  }

  // --- replay -----------------------------------------------------------------------

  /** The intent behind a key that was just answered, and what it will answer. */
  lemma FirstAnswer(l: Ledger, request: Request, name: string, parent: Option<string>, ok: bool)
    requires Ok(l) && Linked(l) && name != ""
    ensures
      var (l1, first) := Submit(l, request, Some(name), parent, ok);
      var k := Key(request.account, request.mode, name);
      && k in l1.childByKey && l1.childByKey[k] in l1.intents
      && var i := l1.intents[l1.childByKey[k]];
         && (first.Placed? || first.Replayed? ==>
               i.state == Persisted && i.request == request && i.id == first.order.intent && i.response.Some?
               && i.response.value.(replayed := true) == first.order.(replayed := true))
         && (first.OutcomeUnknown? ==> i.state == Unknown && i.request == request && i.id == first.intent)
         && !first.RejectedBefore? && i.state != Rejected && (i.state == Persisted <==> i.response.Some?)
  {
    var k := Key(request.account, request.mode, name);
    assert SubmitKey(l, request, Some(name)) == k;
    if k in l.childByKey {
      var i := l.intents[l.childByKey[k]];
      assert IntentOk(l.orders, i.id, i);
      assert i.response.Some? ==> OrderOk(l.intents, i.response.value.id, l.orders[i.response.value.id]);
    }
    hide Ok, Linked, SubmitKey, OrElse, FillPrice, OrderId, ChildId, IntentOk, OrderOk;
  }

  /**
    Once a key has been answered, its answer is settled: whatever is called in
    between, the same payload gets the first order (or the same unknown
    outcome) again, any other payload a conflict, and nothing is created.
   */
  lemma ReplayIsStable(l: Ledger, request: Request, name: string, parent: Option<string>, ok: bool,
                       calls: seq<Call>, again: Request, parent': Option<string>, ok': bool)
    requires Ok(l) && Linked(l) && name != "" && again.account == request.account && again.mode == request.mode
    ensures
      var first := Submit(l, request, Some(name), parent, ok).1;
      var l2 := Run(l, [DoSubmit(request, Some(name), parent, ok)] + calls);
      var (l3, second) := Submit(l2, again, Some(name), parent', ok');
      && l3 == l2
      && (first.Placed? || first.Replayed? ==>
            second == if again == request then Replayed(first.order.(replayed := true)) else Conflict(first.order.intent))
      && (first.OutcomeUnknown? ==>
            second == if again == request then OutcomeUnknown(first.intent) else Conflict(first.intent))
      && !second.Placed? && !second.RejectedBefore?
  {
    hide Ok, Linked, Run, Extends, Submit;
    var call := DoSubmit(request, Some(name), parent, ok);
    var l1 := Do(l, call);
    FirstAnswer(l, request, name, parent, ok);
    RunFirst(l, call, calls);
    RunExtends(l1, calls);
    var l2 := Run(l1, calls);
    var k := Key(request.account, request.mode, name);
    KeyAnswered(l1, l2, k, again, parent', ok');
  }

  /** A key once in the index is answered from its intent for ever. */
  lemma KeyAnswered(l1: Ledger, l2: Ledger, k: Key, request: Request, parent: Option<string>, ok: bool)
    requires Extends(l1, l2) && Linked(l2) && k in l1.childByKey && l1.childByKey[k] in l1.intents
    requires k.name != "" && k.account == request.account && k.mode == request.mode
    ensures Submit(l2, request, Some(k.name), parent, ok) == (l2, Answer(l1.intents[l1.childByKey[k]], request))
  {
  }

  /** The same for parent actions, whatever state they have been marked with. */
  lemma PrepareIsStable(l: Ledger, k: Key, hash: string, calls: seq<Call>, hash': string)
    requires Ok(l) && Linked(l)
    ensures
      var first := Prepare(l, k, hash).1;
      var l2 := Run(l, [DoPrepare(k, hash)] + calls);
      var (l3, second) := Prepare(l2, k, hash');
      first.PreparedAs? ==>
        && l3 == l2
        && (second.PreparedAs? <==> hash' == hash)
        && (if second.PreparedAs? then !second.created && second.action.id == first.action.id else second.existing == first.action.id)
  {
    var l1 := Do(l, DoPrepare(k, hash));
    RunFirst(l, DoPrepare(k, hash), calls);
    RunExtends(l1, calls);
    assert l1.actions[l1.actionByKey[k]].id == l1.actionByKey[k];
    hide Run, ActionId, IntentsOk, OrdersOk;
  }

  // --- generated keys ----------------------------------------------------------------

  /** A client chose exactly this key. */
  predicate ClientUsed(call: Call, k: Key) {
    call.DoSubmit? && call.name == Some(k.name) && call.request.account == k.account && call.request.mode == k.mode
  }

  lemma SubmitIndexes(l: Ledger, call: Call, account: string, mode: string, n: nat)
    requires Linked(l) && call.DoSubmit? && n > Do(l, call).counter
    ensures
      var k := Key(account, mode, GeneratedKey(n));
      var key := SubmitKey(l, call.request, call.name);
      && (ClientUsed(call, k) ==> key == k)
      && (key !in l.childByKey && key == k ==> ClientUsed(call, k))
  {
    hide Linked, Numeral, NewIntent, Answer;
    PrefixedInjective("internal-", n, l.counter + 1);
    assert GeneratedKey(n)[0] == 'i';
  }

  lemma NewIntentHasKey(l: Ledger, call: Call)
    requires call.DoSubmit?
    ensures
      var k := SubmitKey(l, call.request, call.name);
      NewIntent(l, call.request, k, call.parent, call.orderOk).key == k
  {
  }

  lemma DoIndexes(l: Ledger, call: Call, account: string, mode: string, n: nat)
    requires Ok(l) && Linked(l) && n > Do(l, call).counter
    ensures
      var k := Key(account, mode, GeneratedKey(n));
      k in Do(l, call).childByKey <==> k in l.childByKey || ClientUsed(call, k)
  {
    hide Ok, Linked, GeneratedKey, SubmitKey, NewIntent, Answer, ActionId;
    if call.DoSubmit? {
      SubmitIndexes(l, call, account, mode, n);
      NewIntentHasKey(l, call);
    }
  }

  lemma {:induction false} RunIndexes(l: Ledger, calls: seq<Call>, account: string, mode: string, n: nat)
    requires Ok(l) && Linked(l) && n > Run(l, calls).counter
    ensures
      var k := Key(account, mode, GeneratedKey(n));
      k in Run(l, calls).childByKey <==> k in l.childByKey || exists i :: 0 <= i < |calls| && ClientUsed(calls[i], k)
    decreases |calls|
  {
    if calls != [] {
      var l1 := Do(l, calls[0]);
      DoKeeps(l, calls[0]);
      RunExtends(l1, calls[1..]);
      DoIndexes(l, calls[0], account, mode, n);
      RunIndexes(l1, calls[1..], account, mode, n);
      var k := Key(account, mode, GeneratedKey(n));
      hide Ok, Do, Linked, GeneratedKey, ClientUsed;
      assert forall i :: 0 < i < |calls| ==> calls[i] == calls[1..][i - 1];
      assert forall i :: 0 <= i < |calls| - 1 ==> calls[1..][i] == calls[i + 1];
    }
  }

  /**
    A submission without a key is answered from an older intent exactly when
    some client had chosen the very string the service generates next.
   */
  lemma KeylessCollidesExactly(calls: seq<Call>, request: Request)
    ensures
      var l := After(calls);
      var k := SubmitKey(l, request, None);
      k in l.childByKey <==> exists i :: 0 <= i < |calls| && ClientUsed(calls[i], k)
  {
    EmptyIsOk();
    RunIndexes(EMPTY, calls, request.account, request.mode, After(calls).counter + 1);
  }

  /** Generated keys never meet each other. */
  lemma GeneratedKeysDiffer(l: Ledger, request: Request, parent: Option<string>, ok: bool, calls: seq<Call>, later: Request)
    requires Ok(l) && Linked(l) && SubmitKey(l, request, None) !in l.childByKey
    ensures
      var l2 := Run(l, [DoSubmit(request, None, parent, ok)] + calls);
      SubmitKey(l2, later, None).name != SubmitKey(l, request, None).name
  {
    hide Ok, Linked, Run, Numeral, NewIntent, Kept, OrdersKept, ActionsKept;
    var call := DoSubmit(request, None, parent, ok);
    var l1 := Do(l, call);
    RunFirst(l, call, calls);
    RunExtends(l1, calls);
    PrefixedInjective("internal-", l.counter + 1, Run(l1, calls).counter + 1);
  }

  /**
    The collision is real: after a client used "internal-2", a second, keyless
    submission of the same payload is taken for a replay, and so is every
    keyless one after it: no order is placed and the counter stands still.
   */
  lemma ClientKeyShadowsGenerated(request: Request)
    ensures
      var (l1, first) := Submit(After([]), request, Some("internal-2"), None, true);
      && first.Placed? && Linked(l1)
      && Submit(l1, request, None, None, true) == (l1, Replayed(first.order.(replayed := true)))
  {
    EmptyIsOk();
    var (l1, first) := Submit(EMPTY, request, Some("internal-2"), None, true);
    assert GeneratedKey(2) == "internal-2" by {
      assert Numeral(2) == "2";
    }
  }
}
