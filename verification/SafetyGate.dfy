/**
  scripts/run_p0_safety_gate.py: open the evidence directory, start the run,
  run the children one after the other, and finish.  The gate keeps the
  discipline the protocol asks of its callers: after an exception from a child
  nothing but finishing as failed.
 */
module SafetyGate {
  import opened Options
  import opened Processes
  import opened EvidenceState
  import opened EvidenceProtocol
  import opened ProtocolInvariant
  import opened StepEffects
  import opened ObservedRuns
  import opened ProtocolTheorems
  import opened AcquireRecords
  import ProtocolSteps
  import Descendants
  import ProcessTree

  // --- which processes a child's path can start ----------------------------------------

  /** No gap of the call starts a process under this PID. */
  predicate GapsAvoid(g: Gaps, pid: nat) {
    && AllAvoid(g.before.others, pid) && AllAvoid(g.launch.others, pid) && AllAvoid(g.spawn.others, pid)
    && AllAvoid(g.capture.others, pid) && AllAvoid(g.open.others, pid) && AllAvoid(g.wait.others, pid) && AllAvoid(g.settle.others, pid)
  }

  /** A call whose gaps and whose own child keep away from a PID does so all along. */
  lemma ChildPathAvoids(o: Process, spec: Spec, reusable: bool, env: Weather, pid: nat)
    requires GapsAvoid(env.gaps, pid) && (env.popen.Some? ==> env.popen.value.pid != pid)
    ensures AllAvoid(ChildPath(o, spec, reusable, env), pid)
  {
    hide LaunchPath;
    LaunchPathAvoids(o, env, pid);
  }

  lemma LaunchPathAvoids(o: Process, env: Weather, pid: nat)
    requires GapsAvoid(env.gaps, pid) && (env.popen.Some? ==> env.popen.value.pid != pid)
    ensures AllAvoid(LaunchPath(o, env), pid)
  {
    hide SpawnedPath;
    if env.popen.Some? {
      SpawnedPathAvoids(o, env.popen.value, env, pid);
    }
  }

  lemma SpawnedPathAvoids(o: Process, p: Process, env: Weather, pid: nat)
    requires GapsAvoid(env.gaps, pid)
    ensures AllAvoid(SpawnedPath(o, p, env), pid)
  {
    hide IdentityPath;
    IdentityPathAvoids(o, p, env, pid);
  }

  lemma IdentityPathAvoids(o: Process, p: Process, env: Weather, pid: nat)
    requires GapsAvoid(env.gaps, pid)
    ensures AllAvoid(IdentityPath(o, p, env), pid)
  {
    hide WaitPath;
    WaitPathAvoids(o, p, env, pid);
  }

  lemma WaitPathAvoids(o: Process, p: Process, env: Weather, pid: nat)
    requires GapsAvoid(env.gaps, pid)
    ensures AllAvoid(WaitPath(o, p, env), pid)
  {
  }

  // --- the loop ---------------------------------------------------------------------

  datatype Verdict = GatePassed | GateFailed | GateRaised

  /** A process a child is to get: new, and out of the way of all that happens before. */
  ghost predicate Awaits(w: World, envs: seq<Weather>, from: nat, j: nat, rows: seq<Descendants.Row>)
    requires from <= j < |envs|
  {
    envs[j].popen.Some? ==>
      var p := envs[j].popen.value;
      && Unused(w, p) && !Descendants.RootOnCycle(rows, p.pid)
      && AllAvoid(envs[j].gaps.before.others, p.pid) && AllAvoid(envs[j].gaps.launch.others, p.pid)
      && forall i :: from <= i < j ==> GapsAvoid(envs[i].gaps, p.pid) && (envs[i].popen.Some? ==> envs[i].popen.value.pid != p.pid)
  }

  ghost predicate Prepared(w: World, o: Process, envs: seq<Weather>, from: nat, rows: seq<Descendants.Row>)
    requires from <= |envs|
  {
    forall j :: from <= j < |envs| ==> Awaits(w, envs, from, j, rows) && GapsAreForeign(o, envs[j])
  }

  lemma StaysPrepared(w: World, o: Process, spec: Spec, reusable: bool, envs: seq<Weather>, from: nat, rows: seq<Descendants.Row>)
    requires Inv(w) && from < |envs| && Prepared(w, o, envs, from, rows)
    ensures Prepared(RunSteps(w, ChildPath(o, spec, reusable, envs[from])), o, envs, from + 1, rows)
  {
    hide Inv, Unused, AllAvoid, ChildPath, GapsAreForeign, GapsAvoid;
    var w' := RunSteps(w, ChildPath(o, spec, reusable, envs[from]));
    forall j | from < j < |envs| ensures Awaits(w', envs, from + 1, j, rows) && GapsAreForeign(o, envs[j]) {
      assert Awaits(w, envs, from, j, rows);
      if envs[j].popen.Some? {
        ChildPathAvoids(o, spec, reusable, envs[from], envs[j].popen.value.pid);
        PathKeepsUnused(w, ChildPath(o, spec, reusable, envs[from]), envs[j].popen.value);
      }
    }
  }

  /** What is known of a child that came back: the request's own record, passed exactly if its execution exited with 0. */
  predicate ToldTruly(spec: Spec, env: Weather, me: Self, child: Outcome) {
    && child.Returned?
    && child.child.command == CommandPrint(spec.command, spec.cwd, me.environment) && child.child.source == me.source
    && (if child.reused then spec.cacheable && child.child.status == Passed
        else env.popen.Some? && env.wait.Exits? && child.child.name == spec.name
             && child.child.identity == IdentityOf(env.popen.value) && (child.child.status == Passed <==> env.wait.code == 0))
  }

  predicate Clean(children: seq<Outcome>) {
    forall i :: 0 <= i < |children| ==> children[i].Returned? && children[i].child.status == Passed
  }

  /** The records after the results have been stored one after the other, each under its spec's name. */
  function Stored(records: map<string, Child>, specs: seq<Spec>, children: seq<Outcome>): map<string, Child>
    requires |children| <= |specs|
  {
    if children == [] then records
    else
      var last := |children| - 1;
      var before := Stored(records, specs, children[..last]);
      if children[last].Returned? then before[specs[last].name := children[last].child] else before
  }

  /** Each result is the stored record of its child, unless a later spec of the same name has replaced it. */
  lemma {:induction false} ResultsAreStored(records: map<string, Child>, specs: seq<Spec>, children: seq<Outcome>, i: nat)
    requires i < |children| <= |specs| && children[i].Returned?
    requires forall j :: i < j < |children| ==> specs[j].name != specs[i].name
    ensures specs[i].name in Stored(records, specs, children) && Stored(records, specs, children)[specs[i].name] == children[i].child
  {
    var last := |children| - 1;
    if i < last {
      ResultsAreStored(records, specs, children[..last], i);
    }
  }

  /** The first results, each that of its own request on the records as they stand by then. */
  ghost predicate FirstResults(records: map<string, Child>, specs: seq<Spec>, envs: seq<Weather>, me: Self, children: seq<Outcome>) {
    && |children| <= |specs| == |envs|
    && forall i :: 0 <= i < |children| ==>
         children[i].Returned? && children[i] == ResultOf(Stored(records, specs, children[..i]), specs[i], me, envs[i])
  }

  /** All the results up to the first request that raises, or to the end. */
  ghost predicate AllResults(records: map<string, Child>, specs: seq<Spec>, envs: seq<Weather>, me: Self, children: seq<Outcome>) {
    && FirstResults(records, specs, envs, me, children)
    && (|children| < |specs| ==> ResultOf(Stored(records, specs, children), specs[|children|], me, envs[|children|]).RaisedError?)
  }

  lemma OneMoreResult(records: map<string, Child>, specs: seq<Spec>, envs: seq<Weather>, me: Self, children: seq<Outcome>, child: Outcome)
    requires FirstResults(records, specs, envs, me, children) && |children| < |specs| && child.Returned?
    requires child == ResultOf(Stored(records, specs, children), specs[|children|], me, envs[|children|])
    ensures FirstResults(records, specs, envs, me, children + [child])
    ensures Clean(children + [child]) <==> Clean(children) && child.child.status == Passed
    ensures Stored(records, specs, children + [child]) == Stored(records, specs, children)[specs[|children|].name := child.child]
  {
    hide ResultOf, Stored;
    var more := children + [child];
    assert more[..|children|] == children;
    forall i | 0 <= i < |more|
      ensures more[i].Returned? && more[i] == ResultOf(Stored(records, specs, more[..i]), specs[i], me, envs[i])
    {
      assert i < |children| ==> more[..i] == children[..i];
    }
    StoreOneMore(records, specs, children, child);
    assert Clean(more) ==> more[|children|].child.status == Passed && forall i :: 0 <= i < |children| ==> more[i] == children[i];
  }

  lemma ResultsAreTrue(records: map<string, Child>, specs: seq<Spec>, envs: seq<Weather>, me: Self, children: seq<Outcome>)
    requires AllResults(records, specs, envs, me, children)
    ensures forall i :: 0 <= i < |children| ==> ToldTruly(specs[i], envs[i], me, children[i])
  {
    hide Stored;
  }

  lemma NoResults(records: map<string, Child>, specs: seq<Spec>, envs: seq<Weather>, me: Self)
    requires |envs| == |specs|
    ensures Stored(records, specs, []) == records && FirstResults(records, specs, envs, me, []) && Clean([])
  {
  }

  /** The loop is over: there is no further request, or it raises. */
  lemma StopsHere(records: map<string, Child>, specs: seq<Spec>, envs: seq<Weather>, me: Self, children: seq<Outcome>)
    requires FirstResults(records, specs, envs, me, children)
    requires |children| < |specs| == |envs| ==> ResultOf(Stored(records, specs, children), specs[|children|], me, envs[|children|]).RaisedError?
    ensures AllResults(records, specs, envs, me, children)
  {
  }

  lemma StoreOneMore(records: map<string, Child>, specs: seq<Spec>, children: seq<Outcome>, child: Outcome)
    requires |children| < |specs| && child.Returned?
    ensures Stored(records, specs, children + [child]) == Stored(records, specs, children)[specs[|children|].name := child.child]
  {
    assert (children + [child])[..|children|] == children;
  }

  /** The requests and what they meet decide all the results of a run of the gate. */
  lemma {:induction false} ResultsAreDetermined(records: map<string, Child>, specs: seq<Spec>, envs: seq<Weather>, me: Self,
                                                a: seq<Outcome>, b: seq<Outcome>, n: nat)
    requires AllResults(records, specs, envs, me, a) && AllResults(records, specs, envs, me, b)
    requires n <= |a| && n <= |b| && a[..n] == b[..n]
    ensures a == b
    decreases |specs| - n
  {
    hide ResultOf, Stored;
    assert a[..|a|] == a && b[..|b|] == b;
    if n < |a| && n < |b| {
      assert a[n] == b[n];
      assert a[..n + 1] == a[..n] + [a[n]] && b[..n + 1] == b[..n] + [b[n]];
      ResultsAreDetermined(records, specs, envs, me, a, b, n + 1);
    }
  }

  lemma ReadyIsIdle(w: World, o: Process)
    requires Inv(w) && o in w.owners && w.owners[o].phase.Ready?
    ensures w.owners[o].memory.active.None?
  {
    assert HolderOk(w, w.owners[o]);
  }

  /** One turn of the loop. */
  method RunOne(run: ObservedRun, specs: seq<Spec>, envs: seq<Weather>, i: nat, m: ProcessTree.Machine, rows: seq<Descendants.Row>,
                polls: nat, ghost w: World)
    returns (child: Outcome, ghost w': World)
    requires Inv(w) && run.Mirrors(w, Ready) && run.state.owner == IdentityOf(run.me.process) && run.activeProcess == None
    requires i < |envs| == |specs| && Prepared(w, run.me.process, envs, i, rows)
    requires ProcessTree.Lawful(m.outside) && ProcessTree.TrueTable(m.outside, rows, m.now + 1)
    modifies run`state, run`activeProcess, run.file, m
    ensures Inv(w') && m.signals == old(m.signals) && run.Mirrors(w', if child.Returned? then Ready else Raised)
    ensures child.Returned? ==>
      && Prepared(w', run.me.process, envs, i + 1, rows) && m.now == old(m.now)
      && run.state.owner == IdentityOf(run.me.process) && run.activeProcess == None
      && run.state.children == old(run.state).children[specs[i].name := child.child]
    ensures child == ResultOf(old(run.state).children, specs[i], run.me, envs[i])
  {
    hide Inv, Unused, Enabled, Prepared, ChildPath, RunSteps, AllAvoid, AllByOthers;
    NextIsPrepared(w, run.me.process, envs, i, rows);
    StaysPrepared(w, run.me.process, specs[i], Reusable(run.state, specs[i], run.me, envs[i].logsExist), envs, i, rows);
    child, w' := run.RunChild(specs[i], envs[i], m, rows, polls, w);
  }

  /** The loop of main: one child after the other, until one raises. */
  method RunChildren(run: ObservedRun, specs: seq<Spec>, envs: seq<Weather>, m: ProcessTree.Machine, rows: seq<Descendants.Row>,
                     polls: nat, ghost w: World)
    returns (children: seq<Outcome>, failed: bool, raised: bool, ghost w': World)
    requires run.lockHeld && Inv(w) && run.Mirrors(w, Ready) && run.state.owner == IdentityOf(run.me.process) && run.activeProcess == None
    requires |envs| == |specs| && Prepared(w, run.me.process, envs, 0, rows)
    requires ProcessTree.Lawful(m.outside) && ProcessTree.TrueTable(m.outside, rows, m.now + 1)
    modifies run`state, run`activeProcess, run.file, m
    ensures Inv(w') && m.signals == old(m.signals) && run.Mirrors(w', if raised then Raised else Ready)
    ensures AllResults(old(run.state).children, specs, envs, run.me, children)
    ensures |children| <= |specs| && (raised <==> |children| < |specs|) && (!raised ==> run.activeProcess == None)
    ensures !raised ==> run.state.children == Stored(old(run.state).children, specs, children) && (failed <==> !Clean(children))
  {
    ghost var records := run.state.children;
    NoResults(records, specs, envs, run.me);
    hide Inv, Prepared, ToldTruly, ResultOf, Stored, FirstResults, AllResults, Clean, ProcessTree.Lawful, ProcessTree.TrueTable;
    children, failed, raised, w' := [], false, false, w;
    for i := 0 to |specs|
      invariant |children| == i && Inv(w') && run.Mirrors(w', Ready)
      invariant run.state.owner == IdentityOf(run.me.process) && run.activeProcess == None
      invariant Prepared(w', run.me.process, envs, i, rows)
      invariant m.signals == old(m.signals) && m.now == old(m.now)
      invariant FirstResults(records, specs, envs, run.me, children) && run.state.children == Stored(records, specs, children)
      invariant failed <==> !Clean(children)
    {
      var child;
      child, w' := RunOne(run, specs, envs, i, m, rows, polls, w');
      if child.RaisedError? {
        raised := true;
        StopsHere(records, specs, envs, run.me, children);
        return;
      }
      OneMoreResult(records, specs, envs, run.me, children, child);
      children := children + [child];
      if child.child.status != Passed {
        failed := true;
      }
    }
    StopsHere(records, specs, envs, run.me, children);
  }

  /**
    main, from the started run on.  The gate passes exactly if every child came
    back clean, every stored record is passed and the last write lands; an
    exception from a child ends the loop, and is followed by a failed finish
    and nothing else.
   */
  method RunGate(run: ObservedRun, specs: seq<Spec>, envs: seq<Weather>, m: ProcessTree.Machine, rows: seq<Descendants.Row>,
                 polls: nat, running: bool, probe: Probe, finishOk: bool, ghost w: World)
    returns (verdict: Verdict, children: seq<Outcome>, ghost w': World)
    requires run.lockHeld && Inv(w) && run.Mirrors(w, Ready) && run.state.owner == IdentityOf(run.me.process) && run.activeProcess == None
    requires |envs| == |specs| && Prepared(w, run.me.process, envs, 0, rows)
    requires ProcessTree.Lawful(m.outside) && ProcessTree.TrueTable(m.outside, rows, m.now + 1)
    modifies run, run.file, m
    ensures Inv(w') && m.signals == old(m.signals)
    ensures AllResults(old(run.state).children, specs, envs, run.me, children)
    ensures forall i :: 0 <= i < |children| ==> ToldTruly(specs[i], envs[i], run.me, children[i])
    ensures verdict == GatePassed <==> |children| == |specs| && Clean(children) && AllPassed(run.state) && finishOk
    ensures verdict == GateFailed <==> |children| == |specs| && !Clean(children) && finishOk
    ensures |children| == |specs| ==> run.state.children == Stored(old(run.state).children, specs, children)
    ensures verdict != GateRaised || (|children| < |specs| && finishOk) ==>
      && run.Mirrors(w', Done) && run.file.content == Some(run.state)
      && run.state.status == if verdict == GatePassed then Passed else Failed
    ensures run.lockHeld ==> verdict == GateRaised
  {
    hide Inv, Next, Prepared, ToldTruly, AllResults, Stored, ProcessTree.Lawful, ProcessTree.TrueTable;
    var failed, broken;
    children, failed, broken, w' := RunChildren(run, specs, envs, m, rows, polls, w);
    ResultsAreTrue(old(run.state).children, specs, envs, run.me, children);
    if !broken {
      ReadyIsIdle(w', run.me.process);
    }
    var status := if broken || failed then Failed else Passed;
    ghost var refused := status == Passed && !AllPassed(run.state);
    var raised := run.FinishRun(status, running, probe, finishOk, w');
    FinishKeeps(w', run.me.process, status, finishOk);
    w' := if refused then w' else Next(w', Finish(run.me.process, status, finishOk));
    verdict := if broken || raised then GateRaised else if failed then GateFailed else GatePassed;
  }

  lemma NextIsPrepared(w: World, o: Process, envs: seq<Weather>, i: nat, rows: seq<Descendants.Row>)
    requires i < |envs| && Prepared(w, o, envs, i, rows)
    ensures Awaits(w, envs, i, i, rows) && GapsAreForeign(o, envs[i])
  {
  }

  lemma FinishKeeps(w: World, o: Process, status: Status, ok: bool)
    requires Inv(w)
    ensures Inv(Next(w, Finish(o, status, ok)))
  {
    hide Inv, Next;
    ProtocolSteps.StepKeeps(w, Finish(o, status, ok));
  }

  // --- main -------------------------------------------------------------------------------

  /** The steps by which a gate becomes the started owner of the run. */
  function StartPath(me: Self, runId: string, order: seq<string>, pr: Probes, writeOk: bool, lockWriteOk: bool, startOk: bool): seq<Step> {
    [Construct(me, runId)] + ([TryAcquire(me.process, order, pr, writeOk, lockWriteOk)] + [StartRun(me.process, startOk)])
  }

  function RefusedPath(me: Self, runId: string, order: seq<string>, pr: Probes, writeOk: bool, lockWriteOk: bool): seq<Step> {
    [Construct(me, runId)] + [TryAcquire(me.process, order, pr, writeOk, lockWriteOk)]
  }

  /** Whether the gate gets the run, and with which records, in terms of what it finds. */
  lemma StartsExactly(w: World, me: Self, runId: string, order: seq<string>, pr: Probes, writeOk: bool, lockWriteOk: bool)
    requires Inv(w) && Unused(w, me.process)
    requires Enabled(Next(w, Construct(me, runId)), TryAcquire(me.process, order, pr, writeOk, lockWriteOk))
    ensures
      var stored := if w.disk.Some? then w.disk.value else InitialSnapshot(runId, me);
      var r := EvidenceState.Acquire(stored, w.disk, order, pr, me, writeOk, lockWriteOk);
      && (r.Acquired? <==> MayResume(stored, w.disk, pr, writeOk, lockWriteOk))
      && (r.Acquired? ==> r.state.children == AllInterrupted(stored.children))
  {
    hide HistoryOk, OwnersOk, BlockOk, ProcessesOk, RecordOk, ActiveOk, MayResume, EvidenceState.Acquire, TruthfulProbes;
    var stored := if w.disk.Some? then w.disk.value else InitialSnapshot(runId, me);
    assert SnapshotOk(w.past, stored) by {
      EmptyIsOk(w.past, runId, me);
    }
    assert Enumerates(order, stored);
    AcquireSucceedsExactly(w.past, stored, w.disk, order, pr, me, writeOk, lockWriteOk);
    AcquireRecordsExactly(w.past, stored, w.disk, order, pr, me, writeOk, lockWriteOk);
  }

  lemma EmptyIsOk(h: History, runId: string, me: Self)
    ensures h.spawned == map[] ==> SnapshotOk(h, InitialSnapshot(runId, me))
  {
  }

  lemma StartKeepsPrepared(w: World, me: Self, runId: string, order: seq<string>, pr: Probes, writeOk: bool, lockWriteOk: bool, startOk: bool,
                           envs: seq<Weather>, rows: seq<Descendants.Row>)
    requires Inv(w) && Prepared(w, me.process, envs, 0, rows)
    requires forall j :: 0 <= j < |envs| && envs[j].popen.Some? ==> envs[j].popen.value.pid != me.process.pid
    ensures Prepared(RunSteps(w, StartPath(me, runId, order, pr, writeOk, lockWriteOk, startOk)), me.process, envs, 0, rows)
  {
    hide Inv, Unused, GapsAreForeign, GapsAvoid;
    var path := StartPath(me, runId, order, pr, writeOk, lockWriteOk, startOk);
    forall j | 0 <= j < |envs| ensures Awaits(RunSteps(w, path), envs, 0, j, rows) && GapsAreForeign(me.process, envs[j]) {
      assert Awaits(w, envs, 0, j, rows);
      if envs[j].popen.Some? {
        assert AllAvoid(path, envs[j].popen.value.pid);
        PathKeepsUnused(w, path, envs[j].popen.value);
      }
    }
  }

  /**
    main, from its first line: a refused acquire or a failed start raises before
    any child runs; otherwise it is the loop that decides.
   */
  method RunFromTheStart(file: StateFile, me: Self, runId: string, order: seq<string>, pr: Probes, writeOk: bool, lockWriteOk: bool, startOk: bool,
                         specs: seq<Spec>, envs: seq<Weather>, m: ProcessTree.Machine, rows: seq<Descendants.Row>,
                         polls: nat, running: bool, probe: Probe, finishOk: bool, ghost w: World)
    returns (verdict: Verdict, children: seq<Outcome>, run: ObservedRun, ghost w': World)
    requires Inv(w) && w.disk == file.content && Unused(w, me.process)
    requires Enabled(Next(w, Construct(me, runId)), TryAcquire(me.process, order, pr, writeOk, lockWriteOk))
    requires |envs| == |specs| && Prepared(w, me.process, envs, 0, rows)
    requires forall j :: 0 <= j < |envs| && envs[j].popen.Some? ==> envs[j].popen.value.pid != me.process.pid
    requires ProcessTree.Lawful(m.outside) && ProcessTree.TrueTable(m.outside, rows, m.now + 1)
    modifies file, m
    ensures fresh(run) && run.me == me && run.file == file && Inv(w') && m.signals == old(m.signals)
    ensures
      var stored := if old(file.content).Some? then old(file.content).value else InitialSnapshot(runId, me);
      var started := startOk && MayResume(stored, old(file.content), pr, writeOk, lockWriteOk);
      var records := AllInterrupted(stored.children);
      && (!started ==>
            && children == [] && verdict == GateRaised
            && (w' == RunSteps(w, StartPath(me, runId, order, pr, writeOk, lockWriteOk, startOk))
                || w' == RunSteps(w, RefusedPath(me, runId, order, pr, writeOk, lockWriteOk))))
      && (started ==> AllResults(records, specs, envs, me, children))
      && (verdict == GatePassed <==> started && |children| == |specs| && Clean(children) && AllPassed(run.state) && finishOk)
      && (verdict == GateFailed <==> started && |children| == |specs| && !Clean(children) && finishOk)
      && (started && |children| == |specs| ==> run.state.children == Stored(records, specs, children))
    ensures forall i :: 0 <= i < |children| ==> ToldTruly(specs[i], envs[i], me, children[i])
    ensures verdict != GateRaised ==>
      && run.Mirrors(w', Done) && file.content == Some(run.state)
      && run.state.status == if verdict == GatePassed then Passed else Failed
    ensures run.lockHeld ==> verdict == GateRaised
  {
    hide Inv, Next, Unused, Enabled, Prepared, RunSteps, ToldTruly, Stored, AllResults, MayResume, EvidenceState.Acquire;
    ghost var stored := if file.content.Some? then file.content.value else InitialSnapshot(runId, me);
    run := new ObservedRun(file, me, runId, w);
    verdict, children, w' := GateRaised, [], Next(w, Construct(me, runId));
    ghost var acquire, begin := TryAcquire(me.process, order, pr, writeOk, lockWriteOk), StartRun(me.process, startOk);
    Take(w, Construct(me, runId), [acquire] + [begin]);
    Take(w, Construct(me, runId), [acquire]);
    Take(w', acquire, []);
    StartsExactly(w, me, runId, order, pr, writeOk, lockWriteOk);
    StartKeepsPrepared(w, me, runId, order, pr, writeOk, lockWriteOk, startOk, envs, rows);
    var refusal, raised;
    refusal, raised, w' := run.Start(order, pr, writeOk, lockWriteOk, startOk, w');
    if refusal.None? && !raised {
      verdict, children, w' := RunGate(run, specs, envs, m, rows, polls, running, probe, finishOk, w');
    }
  }
}
