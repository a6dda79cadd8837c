/**
  Reuse is complete as well as sound: the passed result of a cacheable child is
  found again by every later owner that asks for the same, for as long as the
  child is not launched anew.
 */
module ReuseTheorems {
  import opened Options
  import opened Processes
  import opened EvidenceState
  import opened EvidenceProtocol
  import opened ProtocolInvariant
  import opened ProtocolSteps
  import opened AcquireRecords

  ghost predicate Has(s: Snapshot, n: string, c: Child) {
    n in s.children && s.children[n] == c
  }

  /** Owners that may still write: the lock holder, and one that has left a child in review behind. */
  ghost predicate MayWrite(own: Owner) {
    Holding(own.phase) || (own.phase.Done? && ChildBlocked(own.memory))
  }

  /** The record is on disk, and in every memory that may still be written there. */
  ghost predicate Kept(w: World, n: string, c: Child) {
    && w.disk.Some? && Has(w.disk.value, n, c)
    && forall o :: o in w.owners && MayWrite(w.owners[o]) ==> Has(w.owners[o].memory, n, c)
  }

  /** The step puts a new record for `n` in place of the old one. */
  predicate Launches(w: World, step: Step, n: string) {
    step.BeginChild? && step.spec.name == n && Enabled(w, step) && InProgress(Next(w, step), step.o)
  }

  predicate NeverLaunched(w: World, steps: seq<Step>, n: string)
    decreases |steps|
  {
    steps != [] ==> !Launches(w, steps[0], n) && NeverLaunched(Next(w, steps[0]), steps[1..], n)
  }

  // --- one step --------------------------------------------------------------------

  /** No acquire, refused or not, touches a passed record. */
  lemma AcquireKeepsPassed(h: History, memory: Snapshot, s: Snapshot, order: seq<string>, pr: Probes, self: Self, writeOk: bool, lockWriteOk: bool,
                           n: string, c: Child)
    requires SnapshotOk(h, s) && Enumerates(order, s)
    requires Has(s, n, c) && c.status == Passed
    ensures
      var r := Acquire(memory, Some(s), order, pr, self, writeOk, lockWriteOk);
      r.disk.Some? && Has(r.disk.value, n, c) && (r.Acquired? ==> Has(r.state, n, c))
  {
    hide Acquire, SnapshotOk, Blocked, Unidentified, SomeRunning, ChildProbed;
    AcquireRecordsExactly(h, memory, Some(s), order, pr, self, writeOk, lockWriteOk);
  }

  lemma KeptByAcquire(w: World, step: Step, n: string, c: Child)
    requires Inv(w) && Kept(w, n, c) && c.status == Passed && step.TryAcquire? && Enabled(w, step)
    ensures Kept(Apply(w, step), n, c)
  {
    hide Acquire, Has, ChildBlocked, HistoryOk, OwnersOk, ProcessesOk, BlockOk, SnapshotOk, CoverOk, TruthfulProbes;
    var own := w.owners[step.o];
    assert Enumerates(step.order, w.disk.value) && SnapshotOk(w.past, w.disk.value);
    hide Inv, Enumerates;
    AcquireKeepsPassed(w.past, own.memory, w.disk.value, step.order, step.probes, own.self, step.writeOk, step.lockWriteOk, n, c);
  }

  /** A write by an owner that may write: memory, and the disk if it succeeds, have the record still. */
  lemma KeptByWrite(w: World, o: Process, next: Phase, m: Snapshot, ok: bool, n: string, c: Child)
    requires Kept(w, n, c) && o in w.owners && Has(m, n, c)
    ensures Kept(PutAndWrite(w, o, next, m, ok), n, c) && Kept(Put(w, o, next, m), n, c)
  {
    hide ChildBlocked;
  }

  /** Only the active child's record is ever edited, and that has not passed. */
  lemma ActiveIsAnother(w: World, o: Process, n: string, c: Child)
    requires Inv(w) && Kept(w, n, c) && c.status == Passed && o in w.owners && MayWrite(w.owners[o])
    ensures Has(w.owners[o].memory, n, c)
    ensures w.owners[o].memory.active.Some? ==> w.owners[o].memory.active.value.name != n
  {
    if Holding(w.owners[o].phase) {
      assert HolderOk(w, w.owners[o]);
    } else {
      assert DoneOk(w, w.owners[o]);
    }
    assert ActiveOk(w.owners[o].memory);
  }

  lemma KeptByChildStep(w: World, step: Step, n: string, c: Child)
    requires Inv(w) && Kept(w, n, c) && c.status == Passed && IsChildStep(step) && Enabled(w, step)
    ensures Kept(Apply(w, step), n, c)
  {
    hide Inv, ChildBlocked, Has, Kept, Apply;
    ChildStepIsTheirs(w, step);
    ActiveIsAnother(w, step.o, n, c);
    KeptByEdit(w, step, n, c);
  }

  /** A step inside run_child is taken by the lock holder, who has an active record. */
  lemma ChildStepIsTheirs(w: World, step: Step)
    requires IsChildStep(step) && Enabled(w, step)
    ensures step.o in w.owners && Holding(w.owners[step.o].phase) && w.owners[step.o].memory.active.Some?
  {
  }

  lemma KeptByEdit(w: World, step: Step, n: string, c: Child)
    requires Kept(w, n, c) && IsChildStep(step) && Enabled(w, step) && Has(w.owners[step.o].memory, n, c)
    requires w.owners[step.o].memory.active.value.name != n
    ensures Kept(Apply(w, step), n, c)
  {
    hide ChildBlocked;
    var own := w.owners[step.o];
    var m, active, ph := own.memory, own.memory.active.value, own.phase;
    match step
    case Popen(o, p) => KeptByWrite(w, o, Spawned(ph.name, p), m, true, n, c);
    case PopenFails(o) => KeptByWrite(w, o, LaunchFailing(ph.name), WithActive(m, active.(status := Failed)), true, n, c);
    case ReapUnidentified(o) => KeptByWrite(w, o, LaunchFailing(ph.name), WithActive(m, active.(status := Failed)), true, n, c);
    case SettleLaunchFailure(o, ok) => KeptByWrite(w, o, Raised, m.(active := None), ok, n, c);
    case CaptureIdentity(o) => {
      var named := active.(status := Running, identity := IdentityOf(ph.child));
      KeptByWrite(w, o, Identified(ph.name, ph.child), WithActive(m, named), true, n, c);
    }
    case WriteIdentity(o, ok) => KeptByWrite(w, o, Waiting(ph.name, ph.child, false), m, ok, n, c);
    case OpenLogs(o) => KeptByWrite(w, o, Waiting(ph.name, ph.child, true), m, true, n, c);
    case CompleteChild(o, ok) => KeptByWrite(w, o, Ready, WithSettled(m, FinalRecord(active, w.past.exits[ph.child], false)), ok, n, c);
    case TimeOut(o) => KeptByWrite(w, o, ReviewPending(ph.name, ph.child), WithActive(m, active.(status := NeedsReview)), true, n, c);
    case WriteReview(o, ok) => KeptByWrite(w, o, Raised, WithActive(m, active).(status := NeedsReview), ok, n, c);
  }

  lemma KeptByOwner(w: World, step: Step, n: string, c: Child)
    requires Inv(w) && Kept(w, n, c) && c.status == Passed && Enabled(w, step) && !Launches(w, step, n)
    requires !IsEnvironmentStep(step) && !IsChildStep(step) && !step.TryAcquire?
    ensures Kept(Apply(w, step), n, c)
  {
    hide Inv;
    var own := w.owners[step.o];
    var m := own.memory;
    ActiveIsAnother(w, step.o, n, c);
    match step
    case StartRun(o, ok) => KeptByWrite(w, o, Ready, m.(status := Running), ok, n, c);
    case BeginChild(o, spec, logs, ok) => {
      KeptByWrite(w, o, Ready, m, ok, n, c);
      if spec.name != n {
        KeptByWrite(w, o, LaunchWritten(spec.name), WithActive(m, LaunchRecord(m, spec, own.self)), ok, n, c);
      }
    }
    case Raise(o) => KeptByWrite(w, o, Raised, m, true, n, c);
    case Finish(o, status, ok) => KeptByWrite(w, o, Done, m.(status := status), ok, n, c);
    case Flush(o) => KeptByWrite(w, o, own.phase, m, true, n, c);
    case LateFlush(o) => KeptByWrite(w, o, Done, m, true, n, c);
  }

  lemma KeptByEnvironment(w: World, step: Step, n: string, c: Child)
    requires Kept(w, n, c) && Enabled(w, step) && IsEnvironmentStep(step)
    ensures Kept(Apply(w, step), n, c)
  {
    hide ChildBlocked;
  }

  lemma KeptByStep(w: World, step: Step, n: string, c: Child)
    requires Inv(w) && Kept(w, n, c) && c.status == Passed && !Launches(w, step, n)
    ensures Kept(Next(w, step), n, c)
  {
    hide Inv, Kept, Launches;
    if Enabled(w, step) {
      if step.TryAcquire? {
        KeptByAcquire(w, step, n, c);
      } else if IsChildStep(step) {
        KeptByChildStep(w, step, n, c);
      } else if IsEnvironmentStep(step) {
        KeptByEnvironment(w, step, n, c);
      } else {
        KeptByOwner(w, step, n, c);
      }
    }
  }

  lemma {:induction false} KeptByRun(w: World, steps: seq<Step>, n: string, c: Child)
    requires Inv(w) && Kept(w, n, c) && c.status == Passed && NeverLaunched(w, steps, n)
    ensures Inv(RunSteps(w, steps)) && Kept(RunSteps(w, steps), n, c)
    decreases |steps|
  {
    hide Inv, Kept, Launches;
    if steps != [] {
      KeptByStep(w, steps[0], n, c);
      StepKeeps(w, steps[0]);
      KeptByRun(Next(w, steps[0]), steps[1..], n, c);
    }
  }

  // --- from the result to the request -------------------------------------------------

  /** A child that exits with 0 leaves a passed record of its execution, on disk and in the only memory that counts. */
  lemma CompletedIsKept(w: World, o: Process) returns (c: Child)
    requires Inv(w) && Enabled(w, CompleteChild(o, true)) && w.past.exits[w.owners[o].phase.child] == 0
    ensures
      var p := w.owners[o].phase.child;
      && p in w.past.spawned && c.status == Passed && c.identity == IdentityOf(p) && ExecOf(c) == w.past.spawned[p]
      && Kept(Next(w, CompleteChild(o, true)), c.name, c)
  {
    hide ChildBlocked, SnapshotOk, CoverOk, HistoryOk, DiskOk, BlockOk, ProcessesOk;
    c := FinalRecord(w.owners[o].memory.active.value, 0, false);
    OnlyHolderWrites(w, o);
    WaitedFor(w, o);
    hide Inv;
  }

  lemma WaitedFor(w: World, o: Process)
    requires Inv(w) && Enabled(w, CompleteChild(o, true))
    ensures
      var p, c := w.owners[o].phase.child, w.owners[o].memory.active.value;
      Holding(w.owners[o].phase) && p in w.past.spawned && c.identity == IdentityOf(p) && ExecOf(c) == w.past.spawned[p]
  {
    hide ChildBlocked, SnapshotOk, CoverOk, HistoryOk, DiskOk, BlockOk, ProcessesOk;
    assert HolderOk(w, w.owners[o]);
  }

  /** While a child is being waited for, no one but its owner may write. */
  lemma OnlyHolderWrites(w: World, o: Process)
    requires Inv(w) && o in w.owners && Holding(w.owners[o].phase)
    ensures forall q :: q in w.owners && q != o ==> !MayWrite(w.owners[q])
  {
    forall q | q in w.owners && q != o ensures !MayWrite(w.owners[q]) {
      assert DoneOk(w, w.owners[q]);
    }
  }

  /**
    Once a cacheable child has completed with code 0 and its record is written,
    a later request of the same name, command, working directory, environment
    and source, cacheable, with the logs there and the name not launched
    meanwhile, launches nothing and is answered by that very execution, over any
    number of crashes, resumes and other children.
   */
  lemma CompletedResultIsReused(before: seq<Step>, o1: Process, between: seq<Step>, o2: Process, spec: Spec, ok: bool)
    requires
      var w := RunSteps(START, before);
      && Enabled(w, CompleteChild(o1, true))
      && var p := w.owners[o1].phase.child;
         && w.past.exits[p] == 0 && p in w.past.spawned
         && var w1 := Next(w, CompleteChild(o1, true));
            && NeverLaunched(w1, between, spec.name)
            && var w2 := RunSteps(w1, between);
               && Enabled(w2, BeginChild(o2, spec, true, ok))
               && Answers(w.past.spawned[p], spec, w2.owners[o2].self)
    ensures
      var w := RunSteps(START, before);
      var p := w.owners[o1].phase.child;
      var w2 := RunSteps(Next(w, CompleteChild(o1, true)), between);
      var w3 := Next(w2, BeginChild(o2, spec, true, ok));
      && w3.past.reused == w2.past.reused + [Reuse(spec, w2.owners[o2].self, true, IdentityOf(p))]
      && w3.past.spawned == w2.past.spawned && !InProgress(w3, o2)
      && o2 in w3.owners && w3.owners[o2].phase == if ok then Ready else Raised
  {
    hide Inv, Kept, Enabled, NeverLaunched;
    StartIsOk();
    RunKeeps(START, before);
    var w := RunSteps(START, before);
    var c := CompletedIsKept(w, o1);
    StepKeeps(w, CompleteChild(o1, true));
    KeptByRun(Next(w, CompleteChild(o1, true)), between, spec.name, c);
    KeptIsReused(RunSteps(Next(w, CompleteChild(o1, true)), between), o2, spec, ok, c);
  }


  lemma KeptIsReused(w: World, o: Process, spec: Spec, ok: bool, c: Child)
    requires Inv(w) && Kept(w, spec.name, c) && c.status == Passed && Enabled(w, BeginChild(o, spec, true, ok))
    requires Answers(ExecOf(c), spec, w.owners[o].self)
    ensures
      var w' := Next(w, BeginChild(o, spec, true, ok));
      && w'.past.reused == w.past.reused + [Reuse(spec, w.owners[o].self, true, c.identity)]
      && w'.past.spawned == w.past.spawned && !InProgress(w', o)
      && o in w'.owners && w'.owners[o].phase == if ok then Ready else Raised
  {
    ActiveIsAnother(w, o, spec.name, c);
    assert HolderOk(w, w.owners[o]);
    hide Inv;
  }
}
