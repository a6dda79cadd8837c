/**
  What each step of run_child does to the world, read off its owner's memory:
  the bridge between the protocol and the statements of the class.
 */
module StepEffects {
  import opened Options
  import opened Processes
  import opened EvidenceState
  import opened EvidenceProtocol
  import opened ProtocolInvariant
  import opened ProtocolSteps

  /** The owner is in a new phase with new memory; the disk is as given; no process came or went. */
  ghost predicate Becomes(w: World, w': World, o: Process, ph: Phase, m: Snapshot, disk: Option<Snapshot>) {
    && o in w.owners
    && w'.owners == w.owners[o := Owner(w.owners[o].self, ph, m)] && w'.disk == disk
    && w'.alive == w.alive && w'.ever == w.ever && w'.past.exits == w.past.exits
  }

  /** One step first, the rest after. */
  lemma RunFirst(w: World, step: Step, rest: seq<Step>)
    ensures RunSteps(w, [step] + rest) == RunSteps(Next(w, step), rest)
    ensures RunSteps(w, [step]) == Next(w, step)
  {
  }

  lemma {:induction false} RunSplit(w: World, a: seq<Step>, b: seq<Step>)
    ensures RunSteps(w, a + b) == RunSteps(RunSteps(w, a), b)
    decreases |a|
  {
    hide Next;
    if a == [] {
      assert a + b == b;
    } else {
      assert (a + b)[0] == a[0] && (a + b)[1..] == a[1..] + b;
      RunSplit(Next(w, a[0]), a[1..], b);
    }
  }

  function After(disk: Option<Snapshot>, m: Snapshot, ok: bool): Option<Snapshot> {
    if ok then Some(m) else disk
  }

  lemma BeginEffect(w: World, o: Process, spec: Spec, logs: bool, ok: bool)
    requires o in w.owners && w.owners[o].phase.Ready?
    ensures
      var own := w.owners[o];
      var reusable := Reusable(own.memory, spec, own.self, logs);
      var m := Stamp(if reusable then own.memory else WithActive(own.memory, LaunchRecord(own.memory, spec, own.self)), own.self);
      var ph := if !ok then Raised else if reusable then Ready else LaunchWritten(spec.name);
      Becomes(w, Next(w, BeginChild(o, spec, logs, ok)), o, ph, m, After(w.disk, m, ok))
  {
  }

  lemma FailingEffect(w: World, w1: World, o: Process)
    requires InProgress(w, o)
    requires (w.owners[o].phase.LaunchWritten? && w1 == Next(w, PopenFails(o)))
          || (w.owners[o].phase.Spawned? && w.owners[o].phase.child !in w.alive && w1 == Next(w, ReapUnidentified(o)))
    ensures
      var own := w.owners[o];
      Becomes(w, w1, o, LaunchFailing(own.phase.name), WithActive(own.memory, own.memory.active.value.(status := Failed)), w.disk)
  {
  }

  lemma SettleEffect(w: World, o: Process, ok: bool)
    requires InProgress(w, o) && w.owners[o].phase.LaunchFailing?
    ensures
      var own := w.owners[o];
      var m := Stamp(own.memory.(active := None), own.self);
      Becomes(w, Next(w, SettleLaunchFailure(o, ok)), o, Raised, m, After(w.disk, m, ok))
  {
  }

  lemma PopenEffect(w: World, o: Process, p: Process)
    requires InProgress(w, o) && w.owners[o].phase.LaunchWritten? && Unused(w, p)
    ensures
      var w' := Next(w, Popen(o, p));
      && w'.owners == w.owners[o := Owner(w.owners[o].self, Spawned(w.owners[o].phase.name, p), w.owners[o].memory)]
      && w'.disk == w.disk && w'.alive == w.alive + {p} && w'.past.exits == w.past.exits
  {
  }

  lemma ExitEffect(w: World, p: Process, code: int)
    requires p in w.alive && p !in w.owners
    ensures
      var w' := Next(w, EnvExit(p, code));
      && w'.owners == w.owners && w'.disk == w.disk && p !in w'.alive
      && p in w'.past.exits && w'.past.exits[p] == code
  {
  }

  lemma CaptureEffect(w: World, o: Process)
    requires InProgress(w, o) && w.owners[o].phase.Spawned?
    ensures
      var own := w.owners[o];
      Becomes(w, Next(w, CaptureIdentity(o)), o, Identified(own.phase.name, own.phase.child),
              WithActive(own.memory, own.memory.active.value.(status := Running, identity := IdentityOf(own.phase.child))), w.disk)
  {
  }

  lemma WriteIdentityEffect(w: World, o: Process, ok: bool)
    requires InProgress(w, o) && w.owners[o].phase.Identified?
    ensures
      var own := w.owners[o];
      var m := Stamp(own.memory, own.self);
      Becomes(w, Next(w, WriteIdentity(o, ok)), o, if ok then Waiting(own.phase.name, own.phase.child, false) else Raised, m, After(w.disk, m, ok))
  {
  }

  lemma OpenLogsEffect(w: World, o: Process)
    requires InProgress(w, o) && w.owners[o].phase.Waiting? && !w.owners[o].phase.logsOpen
    ensures
      var own := w.owners[o];
      Becomes(w, Next(w, OpenLogs(o)), o, Waiting(own.phase.name, own.phase.child, true), own.memory, w.disk)
  {
  }

  lemma CompleteEffect(w: World, o: Process, ok: bool)
    requires InProgress(w, o) && w.owners[o].phase.Waiting? && w.owners[o].phase.child in w.past.exits
    ensures
      var own := w.owners[o];
      var m := Stamp(WithSettled(own.memory, FinalRecord(own.memory.active.value, w.past.exits[own.phase.child], false)), own.self);
      Becomes(w, Next(w, CompleteChild(o, ok)), o, if ok then Ready else Raised, m, After(w.disk, m, ok))
  {
  }

  lemma TimeOutEffect(w: World, o: Process)
    requires InProgress(w, o) && w.owners[o].phase.Waiting?
    ensures
      var own := w.owners[o];
      Becomes(w, Next(w, TimeOut(o)), o, ReviewPending(own.phase.name, own.phase.child),
              WithActive(own.memory, own.memory.active.value.(status := NeedsReview)), w.disk)
  {
  }

  lemma WriteReviewEffect(w: World, o: Process, ok: bool)
    requires InProgress(w, o) && w.owners[o].phase.ReviewPending?
    ensures
      var own := w.owners[o];
      var m := Stamp(WithActive(own.memory, own.memory.active.value).(status := NeedsReview), own.self);
      Becomes(w, Next(w, WriteReview(o, ok)), o, Raised, m, After(w.disk, m, ok))
  {
  }

  /** The exception path that leaves the record as it is: a last write, then the exception. */
  lemma RaiseEffect(w: World, o: Process)
    requires o in w.owners && (w.owners[o].phase.Waiting? || w.owners[o].phase.Spawned?)
    ensures Becomes(w, Next(w, Raise(o)), o, Raised, w.owners[o].memory, w.disk)
  {
  }

  lemma FinishEffect(w: World, o: Process, status: Status, ok: bool)
    requires Enabled(w, Finish(o, status, ok))
    ensures
      var own := w.owners[o];
      var m := Stamp(own.memory.(status := status), own.self);
      var w' := Next(w, Finish(o, status, ok));
      w'.owners == w.owners[o := Owner(own.self, if ok then Done else Raised, m)] && w'.disk == After(w.disk, m, ok)
  {
  }

  /** An acquire gives the owner what the decision says: the lock or not, and the memory and disk that go with it. */
  lemma AcquireEffect(w: World, o: Process, order: seq<string>, pr: Probes, writeOk: bool, lockWriteOk: bool)
    requires Enabled(w, TryAcquire(o, order, pr, writeOk, lockWriteOk))
    ensures
      var own := w.owners[o];
      var r := Acquire(own.memory, w.disk, order, pr, own.self, writeOk, lockWriteOk);
      var w' := Next(w, TryAcquire(o, order, pr, writeOk, lockWriteOk));
      w'.owners == w.owners[o := Owner(own.self, if r.Acquired? then Held else Fresh, r.state)] && w'.disk == r.disk
  {
    hide Acquire;
  }

  lemma StartEffect(w: World, o: Process, ok: bool)
    requires o in w.owners && w.owners[o].phase.Held?
    ensures
      var own := w.owners[o];
      var m := Stamp(own.memory.(status := Running), own.self);
      var w' := Next(w, StartRun(o, ok));
      w'.owners == w.owners[o := Owner(own.self, if ok then Ready else Raised, m)] && w'.disk == After(w.disk, m, ok)
  {
  }

  lemma FlushEffect(w: World, o: Process)
    requires o in w.owners && Flushing(w.owners[o].phase)
    ensures
      var m := Stamp(w.owners[o].memory, w.owners[o].self);
      Becomes(w, Next(w, Flush(o)), o, w.owners[o].phase, m, Some(m))
  {
  }

  // --- what others do meanwhile ------------------------------------------------------

  /** A step of another owner or of the environment that does not end `child`. */
  predicate ByOthers(step: Step, o: Process, child: Option<Process>) {
    Actor(step) != Some(o) && !(step.EnvExit? && child == Some(step.p))
  }

  /** The step starts no process under this PID. */
  predicate Avoids(step: Step, pid: nat) {
    match step
    case EnvStart(p) => p.pid != pid
    case Construct(self, _) => self.process.pid != pid
    case Popen(_, p) => p.pid != pid
    case _ => true
  }

  predicate AllAvoid(steps: seq<Step>, pid: nat) {
    forall i :: 0 <= i < |steps| ==> Avoids(steps[i], pid)
  }

  predicate AllByOthers(steps: seq<Step>, o: Process, child: Option<Process>) {
    forall i :: 0 <= i < |steps| ==> ByOthers(steps[i], o, child)
  }

  /** The owner, the disk and the owner's child are as they were. */
  ghost predicate MineStays(w: World, w': World, o: Process, child: Option<Process>) {
    && o in w.owners && o in w'.owners && w'.owners[o] == w.owners[o] && w'.disk == w.disk
    && (child.Some? && child.value in w.alive && child.value !in w.owners ==> child.value in w'.alive && child.value !in w'.owners)
  }

  /** While an owner holds the lock, nobody else can touch its memory, the disk or its child. */
  lemma OtherStepLeavesMine(w: World, step: Step, o: Process, child: Option<Process>)
    requires Inv(w) && o in w.owners && Holding(w.owners[o].phase) && ByOthers(step, o, child)
    ensures MineStays(w, Next(w, step), o, child)
  {
    OthersCannot(w, step, o, child);
    hide Inv, Acquire;
  }

  /** Of the steps of others only these four are possible. */
  lemma OthersCannot(w: World, step: Step, o: Process, child: Option<Process>)
    requires Inv(w) && o in w.owners && Holding(w.owners[o].phase) && ByOthers(step, o, child)
    ensures Enabled(w, step) ==> step.EnvStart? || step.EnvExit? || step.Construct? || step.Crash?
    ensures w.alive <= w.ever && o in w.alive
  {
    hide HistoryOk, DiskOk, BlockOk, HolderOk, FreshOk, TruthfulProbes, Enumerates;
    assert w.lock == Some(o);
    if step.LateFlush? && step.o in w.owners {
      assert DoneOk(w, w.owners[step.o]);
    }
  }

  lemma StepKeepsUnused(w: World, step: Step, q: Process)
    requires Inv(w) && Unused(w, q) && Avoids(step, q.pid)
    ensures Unused(Next(w, step), q)
  {
    hide Inv, Acquire;
  }

  lemma {:induction false} PathKeepsUnused(w: World, steps: seq<Step>, q: Process)
    requires Inv(w) && Unused(w, q) && AllAvoid(steps, q.pid)
    ensures Unused(RunSteps(w, steps), q)
    decreases |steps|
  {
    hide Inv, Next, Unused, Avoids;
    if steps != [] {
      assert Avoids(steps[0], q.pid);
      StepKeepsUnused(w, steps[0], q);
      StepKeeps(w, steps[0]);
      assert forall i :: 0 <= i < |steps[1..]| ==> steps[1..][i] == steps[i + 1];
      PathKeepsUnused(Next(w, steps[0]), steps[1..], q);
    }
  }

  lemma {:induction false} OthersLeaveMine(w: World, steps: seq<Step>, o: Process, child: Option<Process>)
    requires Inv(w) && o in w.owners && Holding(w.owners[o].phase) && AllByOthers(steps, o, child)
    ensures Inv(RunSteps(w, steps)) && MineStays(w, RunSteps(w, steps), o, child)
    decreases |steps|
  {
    hide Inv, Next, ByOthers;
    if steps != [] {
      assert ByOthers(steps[0], o, child);
      OtherStepLeavesMine(w, steps[0], o, child);
      StepKeeps(w, steps[0]);
      assert forall i :: 0 <= i < |steps[1..]| ==> steps[1..][i] == steps[i + 1];
      OthersLeaveMine(Next(w, steps[0]), steps[1..], o, child);
    }
  }
}
