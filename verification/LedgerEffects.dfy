/**
  What each call of the ledger does to the records, and what becomes of an
  order and of a parent action over any number of calls.
 */
module LedgerEffects {
  import opened Options
  import opened OrderLedger
  import opened LedgerTheorems

  /** A key, a name or a parent counts only when it is not empty. */
  predicate IsGiven(s: Option<string>) {
    s.Some? && s.value != ""
  }

  // --- submissions ----------------------------------------------------------------

  /**
    A submission under a new key records one intent, and nothing else but the
    order it may hold: under the client's key or the generated one, below the
    parent it was given, and closed as persisted or unknown.
   */
  lemma NewKeyIsRecorded(l: Ledger, request: Request, name: Option<string>, parent: Option<string>, ok: bool)
    requires Ok(l) && Linked(l)
    requires Key(request.account, request.mode, if IsGiven(name) then name.value else GeneratedKey(l.counter + 1)) !in l.childByKey
    ensures
      var (l', reply) := Submit(l, request, name, parent, ok);
      var id := l'.intentOrder[|l.intentOrder|];
      && |l'.intentOrder| == |l.intentOrder| + 1 && l'.intentOrder[..|l.intentOrder|] == l.intentOrder
      && id !in l.intents && id in l'.intents && l'.intents == l.intents[id := l'.intents[id]]
      && (var i := l'.intents[id];
         && i.id == id && i.request == request && i.key.account == request.account && i.key.mode == request.mode
         && i.key.name == (if IsGiven(name) then name.value else GeneratedKey(l.counter + 1))
         && i.parent == (if IsGiven(parent) then parent.value else "standalone-action")
         && i.state == (if ok then Persisted else Unknown)
         && (if ok then reply.Placed? && i.response == Some(reply.order) && l'.orders == l.orders[reply.order.id := reply.order]
             else reply == OutcomeUnknown(id) && i.response.None? && l'.orders == l.orders)
         && l'.childByKey == l.childByKey[i.key := id])
      && l'.counter == l.counter + 1 && l'.actions == l.actions && l'.actionByKey == l.actionByKey && l'.exitPhase == l.exitPhase
  {
    hide Linked, ChildId, OrderId, ActionId, GeneratedKey, FillPrice;
    FreshIds(l);
    hide Ok;
  }

  /** A new order costs what the request says, and 0.30 exactly for an unpriced sale in the exit phase. */
  lemma PricedExactly(l: Ledger, request: Request, name: Option<string>, parent: Option<string>, ok: bool)
    requires Linked(l) && Submit(l, request, name, parent, ok).1.Placed?
    ensures
      var price := Submit(l, request, name, parent, ok).1.order.price;
      var unpricedExit := l.exitPhase && request.side == Sell && request.limitPrice.None?;
      && (unpricedExit <==> price != request.limitPrice)
      && (unpricedExit ==> price == Some(0.30))
  {
    hide Linked, SubmitKey;
  }

  lemma PhaseStays(l: Ledger, c: Call)
    requires Linked(l) && !c.DoSetExit?
    ensures Do(l, c).exitPhase == l.exitPhase
  {
    hide Linked;
  }

  /** From the moment the exit phase is set, whatever is called but a change of phase, an unpriced sale is placed at 0.30, or at none outside it. */
  lemma {:induction false} PhaseDecidesThePrice(l: Ledger, exit: bool, calls: seq<Call>, sale: Request, name: Option<string>)
    requires Ok(l) && Linked(l) && sale.side == Sell && sale.limitPrice.None?
    requires forall i :: 0 <= i < |calls| ==> !calls[i].DoSetExit?
    ensures Ok(Do(l, DoSetExit(exit))) && Linked(Do(l, DoSetExit(exit)))
    ensures
      var reply := Submit(Run(Do(l, DoSetExit(exit)), calls), sale, name, None, true).1;
      reply.Placed? ==> reply.order.price == if exit then Some(0.30) else None
  {
    var l1 := Do(l, DoSetExit(exit));
    DoKeeps(l, DoSetExit(exit));
    PhaseOfRun(l1, calls);
    var l2 := Run(l1, calls);
    hide Ok, Linked, Run;
    if Submit(l2, sale, name, None, true).1.Placed? {
      PricedExactly(l2, sale, name, None, true);
    }
    hide Submit, Do;
  }

  lemma {:induction false} PhaseOfRun(l: Ledger, calls: seq<Call>)
    requires Ok(l) && Linked(l) && forall i :: 0 <= i < |calls| ==> !calls[i].DoSetExit?
    ensures Run(l, calls).exitPhase == l.exitPhase
    decreases |calls|
  {
    if calls != [] {
      DoKeeps(l, calls[0]);
      PhaseStays(l, calls[0]);
      PhaseOfRun(Do(l, calls[0]), calls[1..]);
      hide Ok, Linked, Do;
    }
  }

  // --- cancels ---------------------------------------------------------------------

  /** Canceling marks the one order it names and answers with it; an unknown id changes nothing. */
  lemma CancelMarksOne(l: Ledger, id: string)
    ensures
      var (l', reply) := Cancel(l, id);
      && l' == l.(orders := l'.orders) && l'.orders.Keys == l.orders.Keys
      && (reply.Some? <==> id in l.orders) && (reply.None? ==> l' == l)
      && (forall o :: o in l.orders && o != id ==> l'.orders[o] == l.orders[o])
      && (reply.Some? ==> reply.value == l'.orders[id] && reply.value.status == Canceled && reply.value.(status := l.orders[id].status) == l.orders[id])
  {
  }

  /** A cancel of this order comes at a moment when it exists. */
  ghost predicate CanceledAt(l: Ledger, calls: seq<Call>, o: string, j: nat)
    requires Ok(l) && Linked(l) && j < |calls|
  {
    calls[j] == DoCancel(o) && o in Run(l, calls[..j]).orders
  }

  lemma StatusStep(l: Ledger, c: Call, o: string)
    requires Ok(l) && Linked(l) && o in Do(l, c).orders
    ensures Do(l, c).orders[o].status == Canceled <==> (o in l.orders && (l.orders[o].status == Canceled || c == DoCancel(o)))
  {
    hide Ok, Linked, Submit, Prepare;
    match c {
      case DoSubmit(request, name, parent, ok) => NewOrdersAreFilled(l, request, name, parent, ok);
      case DoPrepare(k, hash) => PrepareLeavesOrders(l, k, hash);
      case _ =>
    }
  }

  lemma NewOrdersAreFilled(l: Ledger, request: Request, name: Option<string>, parent: Option<string>, ok: bool)
    requires Ok(l) && Linked(l)
    ensures
      var l' := Submit(l, request, name, parent, ok).0;
      && (forall o :: o in l.orders ==> o in l'.orders && l'.orders[o] == l.orders[o])
      && (forall o :: o in l'.orders && o !in l.orders ==> l'.orders[o].status == Filled)
  {
    hide Ok, Linked, ChildId, OrderId, ActionId, SubmitKey, OrElse, FillPrice, Answer, Record;
    FreshIds(l);
    RecordKeepsOrders(l, NewIntent(l, request, SubmitKey(l, request, name), parent, ok));
  }

  lemma RecordKeepsOrders(l: Ledger, i: Intent)
    requires i.response.Some? ==> i.response.value.id !in l.orders && i.response.value.status == Filled
    ensures
      var l' := Record(l, i);
      && (forall o :: o in l.orders ==> o in l'.orders && l'.orders[o] == l.orders[o])
      && (forall o :: o in l'.orders && o !in l.orders ==> l'.orders[o].status == Filled)
  {
  }

  lemma PrepareLeavesOrders(l: Ledger, k: Key, hash: string)
    requires Linked(l)
    ensures Prepare(l, k, hash).0.orders == l.orders
  {
  }

  lemma RunOne(l: Ledger, calls: seq<Call>, j: nat)
    requires Ok(l) && Linked(l) && calls != [] && j < |calls|
    ensures Ok(Do(l, calls[0])) && Linked(Do(l, calls[0])) && Run(l, calls) == Run(Do(l, calls[0]), calls[1..])
    ensures Run(l, calls[..j + 1]) == Run(Do(l, calls[0]), calls[1..][..j])
  {
    hide Ok, Linked, Do;
    DoKeeps(l, calls[0]);
    assert calls[..j + 1][0] == calls[0] && calls[..j + 1][1..] == calls[1..][..j];
  }

  /** An order is canceled in the end exactly if it was at the start, or a cancel of it came while it existed. */
  lemma {:induction false} CanceledInRun(l: Ledger, calls: seq<Call>, o: string)
    requires Ok(l) && Linked(l) && o in Run(l, calls).orders
    ensures Run(l, calls).orders[o].status == Canceled <==>
      (o in l.orders && l.orders[o].status == Canceled) || exists j :: 0 <= j < |calls| && CanceledAt(l, calls, o, j)
    decreases |calls|
  {
    hide Ok, Linked, Do, CanceledAt;
    if calls != [] {
      var l1 := Do(l, calls[0]);
      RunOne(l, calls, 0);
      CanceledInRun(l1, calls[1..], o);
      forall j: nat | j < |calls| - 1 ensures CanceledAt(l1, calls[1..], o, j) <==> CanceledAt(l, calls, o, j + 1) {
        LaterCancel(l, calls, o, j);
      }
      if o in l1.orders {
        StatusStep(l, calls[0], o);
      }
      FirstCancel(l, calls, o);
      assert forall j :: 0 < j < |calls| ==> (CanceledAt(l, calls, o, j) <==> CanceledAt(l1, calls[1..], o, j - 1));
      if o in l.orders {
        KeptOrder(l, calls[0], o);
      }
    }
  }

  lemma KeptOrder(l: Ledger, c: Call, o: string)
    requires Ok(l) && Linked(l) && o in l.orders
    ensures o in Do(l, c).orders
  {
    hide Ok, Linked, Do;
    DoExtends(l, c);
  }

  lemma FirstCancel(l: Ledger, calls: seq<Call>, o: string)
    requires Ok(l) && Linked(l) && calls != []
    ensures CanceledAt(l, calls, o, 0) <==> calls[0] == DoCancel(o) && o in l.orders
  {
    assert calls[..0] == [];
    hide Ok, Linked;
  }

  lemma LaterCancel(l: Ledger, calls: seq<Call>, o: string, j: nat)
    requires Ok(l) && Linked(l) && j + 1 < |calls| && Ok(Do(l, calls[0])) && Linked(Do(l, calls[0]))
    ensures CanceledAt(Do(l, calls[0]), calls[1..], o, j) <==> CanceledAt(l, calls, o, j + 1)
  {
    hide Ok, Linked, Do;
    RunOne(l, calls, j);
  }

  /** After any calls on a new service, an order is canceled if and only if some call canceled it while it existed. */
  lemma CanceledExactly(calls: seq<Call>, o: string)
    requires o in After(calls).orders
    ensures Ok(EMPTY) && Linked(EMPTY)
    ensures After(calls).orders[o].status == Canceled <==> exists j :: 0 <= j < |calls| && CanceledAt(EMPTY, calls, o, j)
  {
    EmptyIsOk();
    CanceledInRun(EMPTY, calls, o);
    hide Ok, Linked, CanceledAt, Run;
  }

  // --- parent actions -----------------------------------------------------------------

  /** An action is created exactly for a new key, prepared, under a new id; a known key changes nothing. */
  lemma PreparedExactly(l: Ledger, k: Key, hash: string)
    requires Ok(l) && Linked(l)
    ensures
      var (l', reply) := Prepare(l, k, hash);
      && (reply.PreparedAs? && reply.created <==> k !in l.actionByKey)
      && (k in l.actionByKey ==> l' == l && (reply.ActionConflict? <==> l.actions[l.actionByKey[k]].hash != hash))
      && (k !in l.actionByKey ==>
            var a := reply.action;
            && a.key == k && a.hash == hash && a.state == Prepared && a.id !in l.actions
            && l'.actions == l.actions[a.id := a] && l'.actionByKey == l.actionByKey[k := a.id]
            && l' == l.(actions := l'.actions, actionByKey := l'.actionByKey, actionCounter := l'.actionCounter))
  {
    hide Linked, ActionId;
    FreshIds(l);
    hide Ok;
  }

  /** A mark sets the state of the one action it names; an unknown id changes nothing. */
  lemma MarkSetsState(l: Ledger, id: string, st: IntentState)
    ensures
      var (l', reply) := Mark(l, id, st);
      && l' == l.(actions := l'.actions) && l'.actions.Keys == l.actions.Keys
      && (reply.Some? <==> id in l.actions) && (reply.None? ==> l' == l)
      && (forall a :: a in l.actions && a != id ==> l'.actions[a] == l.actions[a])
      && (reply.Some? ==> reply.value == l'.actions[id] && reply.value.state == st && reply.value.(state := l.actions[id].state) == l.actions[id])
  {
  }

  /** The state after the calls: that of the last mark, if there is one. */
  function LastMark(st: IntentState, calls: seq<Call>, a: string): IntentState
    decreases |calls|
  {
    if calls == [] then st
    else LastMark(if calls[0].DoMark? && calls[0].action == a then calls[0].state else st, calls[1..], a)
  }

  lemma MarkStep(l: Ledger, c: Call, a: string)
    requires Ok(l) && Linked(l) && a in l.actions
    ensures a in Do(l, c).actions
    ensures Do(l, c).actions[a].state == if c.DoMark? && c.action == a then c.state else l.actions[a].state
  {
    hide Linked, ActionId, Submit;
    FreshIds(l);
    if c.DoSubmit? {
      SubmitLeavesActions(l, c);
    }
    hide Ok;
  }

  lemma SubmitLeavesActions(l: Ledger, c: Call)
    requires Linked(l) && c.DoSubmit?
    ensures Submit(l, c.request, c.name, c.parent, c.orderOk).0.actions == l.actions
  {
  }

  /** Over any calls an action has the state it was last marked with. */
  lemma {:induction false} StateIsTheLastMark(l: Ledger, calls: seq<Call>, a: string)
    requires Ok(l) && Linked(l) && a in l.actions
    ensures a in Run(l, calls).actions && Run(l, calls).actions[a].state == LastMark(l.actions[a].state, calls, a)
    decreases |calls|
  {
    hide Ok, Linked, Do;
    if calls != [] {
      DoKeeps(l, calls[0]);
      MarkStep(l, calls[0], a);
      StateIsTheLastMark(Do(l, calls[0]), calls[1..], a);
    }
  }
}
