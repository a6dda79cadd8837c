/**
  What the stored evidence is worth, over every run: review requests are never
  stepped over, a pass stands on executions that exited 0, and no attempt
  repeats.
 */
module EvidenceTheorems {
  import opened Options
  import opened Processes
  import opened EvidenceState
  import opened EvidenceProtocol
  import opened ProtocolInvariant
  import opened ProtocolSteps
  import AcquireFacts

  // --- needs_review is absorbing ---------------------------------------------

  /** What a blocked disk rules out: a started owner, a spawn, a reused result. */
  ghost predicate NothingBegins(w: World, w': World) {
    w'.past.started == w.past.started && w'.past.spawned == w.past.spawned && w'.past.reused == w.past.reused
  }

  /** The disk asks for review, of a child or of the run. */
  ghost predicate DiskBlocked(w: World) {
    w.disk.Some? && (w.disk.value.status == NeedsReview || DiskChildBlocked(w))
  }

  ghost predicate DiskChildBlocked(w: World) {
    w.disk.Some? && exists n :: n in w.disk.value.children && w.disk.value.children[n].status == NeedsReview
  }

  /** One step from a blocked disk. */
  ghost predicate StaysBlocked(w: World, w': World) {
    DiskBlocked(w') && NothingBegins(w, w') && (DiskChildBlocked(w) ==> DiskChildBlocked(w'))
  }

  lemma BlockedStep(w: World, step: Step)
    requires Inv(w) && DiskBlocked(w)
    ensures StaysBlocked(w, Next(w, step))
  {
    if Enabled(w, step) {
      if step.TryAcquire? {
        BlockedAcquire(w, step.o, step.order, step.probes, step.writeOk, step.lockWriteOk);
      } else if IsEnvironmentStep(step) {
        BlockedEnvironment(w, step);
      } else {
        BlockedOwner(w, step);
      }
    }
  }

  /** A forced write of a memory that asks for review, or a failed one, leaves the disk asking. */
  lemma BlockedWrite(w: World, o: Process, next: Phase, m: Snapshot, writeOk: bool)
    requires DiskBlocked(w) && o in w.owners && ChildBlocked(m)
    ensures StaysBlocked(w, PutAndWrite(w, o, next, m, writeOk))
    ensures StaysBlocked(w, PutAndWrite(w, o, next, m, writeOk).(lock := None))
  {
  }

  lemma BlockedAcquire(w: World, o: Process, order: seq<string>, pr: Probes, writeOk: bool, lockWriteOk: bool)
    requires Inv(w) && DiskBlocked(w) && Enabled(w, TryAcquire(o, order, pr, writeOk, lockWriteOk))
    ensures StaysBlocked(w, AcquireStep(w, o, order, pr, writeOk, lockWriteOk))
  {
    hide Inv, Acquire, Stamp;
    assert Blocked(w.disk.value);
    hide Blocked, ChildBlocked;
    var own := w.owners[o];
    var s := w.disk.value;
    RefusedWhenBlocked(own.memory, s, order, pr, own.self, writeOk, lockWriteOk);
    StampedBlock(s, own.self);
  }

  /** acquire on a blocked snapshot writes it back as it is, but for the owner. */
  lemma RefusedWhenBlocked(memory: Snapshot, s: Snapshot, order: seq<string>, pr: Probes, self: Self, writeOk: bool, lockWriteOk: bool)
    requires Blocked(s)
    ensures
      var r := Acquire(memory, Some(s), order, pr, self, writeOk, lockWriteOk);
      r.Refused? && (r.disk == Some(s) || r.disk == Some(Stamp(s, self)))
  {
  }

  lemma StampedBlock(s: Snapshot, self: Self)
    ensures Stamp(s, self).children == s.children && Stamp(s, self).status == s.status
  {
  }

  /** The lock holder of a blocked run is on its way out: it can write, which keeps the request, or finish, or die. */
  lemma BlockedOwner(w: World, step: Step)
    requires Inv(w) && DiskBlocked(w) && Enabled(w, step) && !IsEnvironmentStep(step) && !step.TryAcquire?
    ensures StaysBlocked(w, Apply(w, step))
  {
    hide ChildBlocked, Apply, SnapshotOk, CoverOk;
    ActorOfBlocked(w, step);
    hide Inv;
    if step.LateFlush? {
      BlockedWrite(w, step.o, Done, w.owners[step.o].memory, true);
      LateFlushWrites(w, step.o);
    } else {
      BlockedHolder(w, step);
    }
  }

  lemma LateFlushWrites(w: World, o: Process)
    requires Enabled(w, LateFlush(o))
    ensures Apply(w, LateFlush(o)) == PutAndWrite(w, o, Done, w.owners[o].memory, true)
  {
  }

  /** Who can still act on a blocked run: the holder on its way out, or an owner that has left a child in review. */
  lemma ActorOfBlocked(w: World, step: Step)
    requires Inv(w) && DiskBlocked(w) && Enabled(w, step) && !IsEnvironmentStep(step) && !step.TryAcquire?
    ensures step.o in w.owners && ChildBlocked(w.owners[step.o].memory)
    ensures !step.LateFlush? ==> ReviewPhase(w.owners[step.o].phase) && HolderOk(w, w.owners[step.o])
  {
    hide HistoryOk, DiskOk, ProcessesOk, SnapshotOk, CoverOk;
    assert Blocked(w.disk.value);
    if step.LateFlush? {
      assert DoneOk(w, w.owners[step.o]);
    } else {
      assert w.lock == Some(step.o);
    }
  }

  lemma BlockedHolder(w: World, step: Step)
    requires DiskBlocked(w) && Enabled(w, step) && !IsEnvironmentStep(step) && !step.TryAcquire? && !step.LateFlush?
    requires ReviewPhase(w.owners[step.o].phase) && ChildBlocked(w.owners[step.o].memory) && HolderOk(w, w.owners[step.o])
    ensures StaysBlocked(w, Apply(w, step))
  {
    var own := w.owners[step.o];
    var m := own.memory;
    match step
    case Flush(o) => BlockedWrite(w, o, own.phase, m, true);
    case Finish(o, status, ok) => {
      OtherStatusStaysBlocked(m, status);
      BlockedWrite(w, o, Done, m.(status := status), ok);
    }
    case WriteReview(o, ok) => {
      ReviewRefiles(w.past, m);
      OtherStatusStaysBlocked(m, NeedsReview);
      BlockedWrite(w, o, Raised, m.(status := NeedsReview), ok);
    }
  }

  lemma OtherStatusStaysBlocked(m: Snapshot, st: Status)
    requires ChildBlocked(m)
    ensures ChildBlocked(m.(status := st))
  {
  }

  lemma BlockedEnvironment(w: World, step: Step)
    requires DiskBlocked(w) && Enabled(w, step) && IsEnvironmentStep(step)
    ensures StaysBlocked(w, Apply(w, step))
  {
  }

  lemma {:induction false} BlockedRun(w: World, steps: seq<Step>)
    requires Inv(w) && DiskBlocked(w)
    ensures StaysBlocked(w, RunSteps(w, steps))
    decreases |steps|
  {
    if steps != [] {
      BlockedStep(w, steps[0]);
      StepKeeps(w, steps[0]);
      BlockedRun(Next(w, steps[0]), steps[1..]);
    }
  }

  /**
    Once disk asks for review - for a child, or for the run because an acquire
    was in doubt - no later owner starts, spawns or reuses anything, although
    finish("failed") may overwrite the run status meanwhile.
   */
  lemma NeedsReviewIsAbsorbing(before: seq<Step>, after: seq<Step>)
    requires DiskBlocked(RunSteps(START, before))
    ensures StaysBlocked(RunSteps(START, before), RunSteps(RunSteps(START, before), after))
  {
    StartIsOk();
    RunKeeps(START, before);
    BlockedRun(RunSteps(START, before), after);
  }

  // --- passed evidence is real -----------------------------------------------

  ghost predicate PassedMeansAll(s: Snapshot) {
    s.status == Passed ==> AllPassed(s)
  }

  /** Wherever a passed run status is held, in any memory or on disk, every record passed. */
  ghost predicate PassedOk(w: World) {
    && (w.disk.Some? ==> PassedMeansAll(w.disk.value))
    && forall o :: o in w.owners ==> PassedMeansAll(w.owners[o].memory)
  }

  lemma PassedStep(w: World, step: Step)
    requires Inv(w) && PassedOk(w)
    ensures PassedOk(Next(w, step))
  {
    if Enabled(w, step) {
      if step.TryAcquire? {
        PassedAcquire(w, step.o, step.order, step.probes, step.writeOk, step.lockWriteOk);
      } else if IsChildStep(step) {
        PassedChildStep(w, step);
      } else {
        PassedOther(w, step);
      }
    }
  }

  /** acquire changes records only together with a status that is not passed. */
  lemma PassedAcquire(w: World, o: Process, order: seq<string>, pr: Probes, writeOk: bool, lockWriteOk: bool)
    requires Inv(w) && PassedOk(w) && Enabled(w, TryAcquire(o, order, pr, writeOk, lockWriteOk))
    ensures PassedOk(AcquireStep(w, o, order, pr, writeOk, lockWriteOk))
  {
    var own := w.owners[o];
    PassedInput(w, own);
    hide Acquire, Inv, PassedMeansAll, Enabled;
    AcquireOnPassed(own.memory, w.disk, order, pr, own.self, writeOk, lockWriteOk);
  }

  lemma PassedInput(w: World, own: Owner)
    requires DiskOk(w) && PassedOk(w) && FreshOk(w, own) && own.phase.Fresh?
    ensures
      var s := if w.disk.Some? then w.disk.value else own.memory;
      PassedMeansAll(s) && (s.status == Passed && s.active.Some? ==> !IsLiveStatus(s.active.value.status))
  {
  }

  lemma AcquireOnPassed(memory: Snapshot, disk: Option<Snapshot>, order: seq<string>, pr: Probes, self: Self, writeOk: bool, lockWriteOk: bool)
    requires
      var s := if disk.Some? then disk.value else memory;
      PassedMeansAll(memory) && PassedMeansAll(s) && (s.status == Passed && s.active.Some? ==> !IsLiveStatus(s.active.value.status))
    ensures
      var r := Acquire(memory, disk, order, pr, self, writeOk, lockWriteOk);
      && PassedMeansAll(r.state)
      && (r.disk.Some? ==> PassedMeansAll(r.disk.value))
  {
    hide AcquireActive, AllPassed, Blocked;
    var s := if disk.Some? then disk.value else memory;
    StampedPass(s, self);
    if s.runId == memory.runId && !Blocked(s) {
      ActiveOnPassed(s, disk, order, pr, self, writeOk);
    }
  }

  lemma StampedPass(s: Snapshot, self: Self)
    requires PassedMeansAll(s)
    ensures PassedMeansAll(Stamp(s, self))
  {
  }

  lemma ActiveOnPassed(s: Snapshot, disk: Option<Snapshot>, order: seq<string>, pr: Probes, self: Self, writeOk: bool)
    requires PassedMeansAll(s) && (disk.Some? ==> PassedMeansAll(disk.value))
    requires s.status == Passed && s.active.Some? ==> !IsLiveStatus(s.active.value.status)
    ensures
      var r := AcquireActive(s, disk, order, pr, self, writeOk);
      && PassedMeansAll(r.state)
      && (r.disk.Some? ==> PassedMeansAll(r.disk.value))
  {
    hide TakeOver, AllPassed;
    if s.status == Running {
      TakeOverOnPassed(s, disk, order, pr, self, writeOk);
    }
  }

  lemma TakeOverOnPassed(s: Snapshot, disk: Option<Snapshot>, order: seq<string>, pr: Probes, self: Self, writeOk: bool)
    requires s.status == Running && (disk.Some? ==> PassedMeansAll(disk.value))
    ensures
      var r := TakeOver(s, disk, order, pr, self, writeOk);
      && PassedMeansAll(r.state)
      && (r.disk.Some? ==> PassedMeansAll(r.disk.value))
  {
    hide SweepChildren, InterruptActive, AllPassed;
  }

  /** Memory, and disk when the write succeeds, take the new snapshot. */
  lemma PassedWrite(w: World, o: Process, next: Phase, m: Snapshot, writeOk: bool)
    requires PassedOk(w) && o in w.owners && PassedMeansAll(m)
    ensures PassedOk(PutAndWrite(w, o, next, m, writeOk)) && PassedOk(Put(w, o, next, m))
  {
  }

  /** While a child is being run the status in memory is not passed. */
  lemma PassedChildStep(w: World, step: Step)
    requires Inv(w) && PassedOk(w) && Enabled(w, step) && IsChildStep(step)
    ensures PassedOk(Apply(w, step))
  {
    assert HolderOk(w, w.owners[step.o]);
    assert w.owners[step.o].memory.status == Running;
    PassedRunningChild(w, step);
  }

  lemma PassedRunningChild(w: World, step: Step)
    requires PassedOk(w) && Enabled(w, step) && IsChildStep(step) && w.owners[step.o].memory.status == Running
    ensures PassedOk(Apply(w, step))
  {
    hide AllPassed;
  }

  lemma PassedOther(w: World, step: Step)
    requires Inv(w) && PassedOk(w) && Enabled(w, step) && !IsChildStep(step) && !step.TryAcquire?
    ensures PassedOk(Apply(w, step))
  {
    if IsEnvironmentStep(step) {
      PassedEnvironment(w, step);
    } else {
      assert step.BeginChild? ==> HolderOk(w, w.owners[step.o]);
      PassedOwnerStep(w, step);
    }
  }

  lemma PassedEnvironment(w: World, step: Step)
    requires PassedOk(w) && Enabled(w, step) && IsEnvironmentStep(step)
    ensures PassedOk(Apply(w, step))
  {
  }

  lemma PassedOwnerStep(w: World, step: Step)
    requires PassedOk(w) && Enabled(w, step) && !IsEnvironmentStep(step) && !IsChildStep(step) && !step.TryAcquire?
    requires step.BeginChild? ==> w.owners[step.o].memory.status == Running
    ensures PassedOk(Apply(w, step))
  {
    var m := w.owners[step.o].memory;
    match step
    case StartRun(o, ok) => PassedWrite(w, o, Ready, m.(status := Running), ok);
    case BeginChild(o, spec, logs, ok) => {
      PassedWrite(w, o, Ready, m, ok);
      PassedWrite(w, o, LaunchWritten(spec.name), WithActive(m, LaunchRecord(m, spec, w.owners[o].self)), ok);
    }
    case Raise(o) => PassedWrite(w, o, Raised, m, true);
    case Finish(o, status, ok) => PassedWrite(w, o, Done, m.(status := status), ok);
    case Flush(o) => PassedWrite(w, o, w.owners[o].phase, m, true);
    case LateFlush(o) => PassedWrite(w, o, Done, m, true);
  }

  lemma {:induction false} PassedRun(w: World, steps: seq<Step>)
    requires Inv(w) && PassedOk(w)
    ensures PassedOk(RunSteps(w, steps)) && Inv(RunSteps(w, steps))
    decreases |steps|
  {
    if steps != [] {
      PassedStep(w, steps[0]);
      StepKeeps(w, steps[0]);
      PassedRun(Next(w, steps[0]), steps[1..]);
    }
  }

  /** The execution a stored pass stands on. */
  ghost predicate StandsOnExecution(h: History, c: Child) {
    && HasBoth(c.identity)
    && var p := Named(c.identity);
       && p in h.spawned && h.spawned[p] == ExecOf(c)
       && p in h.exits && h.exits[p] == 0
       && p !in h.timedOut
  }

  /** Whenever disk says the run passed, every child record has an execution that exited 0 and was not timed out. */
  lemma PassedEvidenceIsReal(steps: seq<Step>)
    ensures
      var w := RunSteps(START, steps);
      w.disk.Some? && w.disk.value.status == Passed ==>
        forall n :: n in w.disk.value.children ==>
          w.disk.value.children[n].name == n && StandsOnExecution(w.past, w.disk.value.children[n])
  {
    StartIsOk();
    PassedRun(START, steps);
    var w := RunSteps(START, steps);
    if w.disk.Some? {
      forall n | n in w.disk.value.children && w.disk.value.children[n].status == Passed
        ensures StandsOnExecution(w.past, w.disk.value.children[n])
      {
        assert RecordOk(w.past, n, w.disk.value.children[n]);
      }
    }
  }

  /**
    Every reused result, over any number of resumes, is of an execution of the
    same request that exited 0; both it and the request were declared
    cacheable, and its logs were there when it was handed out.
   */
  lemma ReusedResultsAreReal(steps: seq<Step>, i: nat)
    requires i < |RunSteps(START, steps).past.reused|
    ensures
      var h := RunSteps(START, steps).past;
      var r := h.reused[i];
      && HasBoth(r.execution) && r.logsExist
      && Named(r.execution) in h.spawned && Answers(h.spawned[Named(r.execution)], r.spec, r.self)
      && Named(r.execution) in h.exits && h.exits[Named(r.execution)] == 0
      && Named(r.execution) !in h.timedOut
  {
    StartIsOk();
    RunKeeps(START, steps);
    var h := RunSteps(START, steps).past;
    assert ReuseOk(h, h.reused[i]);
  }

  // --- attempts ---------------------------------------------------------------

  /** Successive spawns of one child carry strictly increasing attempt numbers, across crashes and resumes. */
  lemma AttemptsIncrease(steps: seq<Step>, i: nat, j: nat)
    requires i < j < |RunSteps(START, steps).past.order|
    ensures
      var h := RunSteps(START, steps).past;
      && h.order[i] in h.spawned && h.order[j] in h.spawned
      && (h.spawned[h.order[i]].name == h.spawned[h.order[j]].name ==>
            h.spawned[h.order[i]].attempt < h.spawned[h.order[j]].attempt)
  {
    StartIsOk();
    RunKeeps(START, steps);
  }

  /** The logs of one attempt of a child are opened for writing at most once. */
  lemma LogsAreOpenedOnce(steps: seq<Step>, i: nat, j: nat)
    requires i < j < |RunSteps(START, steps).past.logs|
    ensures RunSteps(START, steps).past.logs[i] != RunSteps(START, steps).past.logs[j]
  {
    StartIsOk();
    RunKeeps(START, steps);
  }

  /** Every attempt whose logs were ever opened is on disk, from that moment on, under its own or a later attempt number. */
  lemma LoggedAttemptIsOnDisk(steps: seq<Step>, i: nat)
    requires i < |RunSteps(START, steps).past.logs|
    ensures
      var w := RunSteps(START, steps);
      && w.disk.Some? && w.past.logs[i].0 in w.disk.value.children
      && w.past.logs[i].1 <= w.disk.value.children[w.past.logs[i].0].attempt
  {
    StartIsOk();
    RunKeeps(START, steps);
    var w := RunSteps(START, steps);
    assert Logged(w.past, w.past.logs[i]);
  }

  /** The moment itself: before a step opens logs, the attempt it opens them for is already on disk. */
  lemma AttemptIsOnDiskBeforeItsLogs(steps: seq<Step>, o: Process)
    requires Enabled(RunSteps(START, steps), OpenLogs(o))
    ensures
      var w := RunSteps(START, steps);
      var c := w.owners[o].memory.active.value;
      && Next(w, OpenLogs(o)).past.logs == w.past.logs + [(c.name, c.attempt)]
      && w.disk.Some? && c.name in w.disk.value.children && c.attempt <= w.disk.value.children[c.name].attempt
  {
    StartIsOk();
    RunKeeps(START, steps);
    var w := RunSteps(START, steps);
    assert HolderOk(w, w.owners[o]);
  }
}
