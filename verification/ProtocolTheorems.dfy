/**
  What holds of every run of the evidence protocol: any number of owners, in
  any interleaving, with a crash possible between any two steps, with every
  write allowed to fail and PIDs reused at will.
 */
module ProtocolTheorems {
  import opened Options
  import opened Processes
  import opened EvidenceState
  import opened EvidenceProtocol
  import opened ProtocolInvariant
  import opened ProtocolSteps
  import opened AcquireRecords
  import AcquireFacts

  lemma Reached(steps: seq<Step>)
    ensures Inv(RunSteps(START, steps))
  {
    StartIsOk();
    RunKeeps(START, steps);
  }

  // --- one child at a time -------------------------------------------------

  /** At most one directly spawned child is alive. */
  ghost predicate OneLiveChild(w: World) {
    forall p, q :: p in w.past.spawned && q in w.past.spawned && p in w.alive && q in w.alive ==> p == q
  }

  /** Only Popen adds a child, and only where none is alive. */
  lemma OneLiveChildStep(w: World, step: Step)
    requires Inv(w) && OneLiveChild(w)
    ensures OneLiveChild(Next(w, step))
  {
    if Enabled(w, step) {
      if step.Popen? {
        assert HolderOk(w, w.owners[step.o]);
        assert NoLiveChild(w.alive, w.past);
      } else if IsChildStep(step) {
        ChildStepSpawnsNothing(w, step);
      } else {
        OtherStepSpawnsNothing(w, step);
      }
    }
  }

  /** Every other step leaves the spawned children as they are, or fewer of them alive. */
  ghost predicate SpawnsNothing(w: World, w': World) {
    && w'.past.spawned == w.past.spawned
    && forall p :: p in w.past.spawned && p in w'.alive ==> p in w.alive
  }

  lemma ChildStepSpawnsNothing(w: World, step: Step)
    requires Enabled(w, step) && IsChildStep(step) && !step.Popen?
    ensures SpawnsNothing(w, Apply(w, step))
  {
  }

  lemma OtherStepSpawnsNothing(w: World, step: Step)
    requires ProcessesOk(w) && Enabled(w, step) && !IsChildStep(step)
    ensures SpawnsNothing(w, Apply(w, step))
  {
    hide Acquire;
  }

  lemma {:induction false} OneLiveChildRun(w: World, steps: seq<Step>)
    requires Inv(w) && OneLiveChild(w)
    ensures OneLiveChild(RunSteps(w, steps))
    decreases |steps|
  {
    if steps != [] {
      StepKeeps(w, steps[0]);
      OneLiveChildStep(w, steps[0]);
      OneLiveChildRun(Next(w, steps[0]), steps[1..]);
    }
  }

  /** In every run at most one spawned child of the evidence directory is alive at any time. */
  lemma AtMostOneLiveChild(steps: seq<Step>)
    ensures OneLiveChild(RunSteps(START, steps))
  {
    StartIsOk();
    OneLiveChildRun(START, steps);
  }

  // --- write-ahead ---------------------------------------------------------

  /** A live child is on disk, in a record that no later owner can step over. */
  lemma LiveChildIsOnRecord(steps: seq<Step>, p: Process)
    ensures
      var w := RunSteps(START, steps);
      p in w.past.spawned && p in w.alive ==>
        w.disk.Some? && Covers(w.disk.value, p, w.past.spawned[p])
  {
    Reached(steps);
  }

  /** On disk, launching and running records are the one active child. */
  lemma LiveRecordIsTheActiveOne(steps: seq<Step>, n: string)
    ensures
      var w := RunSteps(START, steps);
      w.disk.Some? && n in w.disk.value.children
      && (w.disk.value.children[n].status == Launching || w.disk.value.children[n].status == Running) ==>
        w.disk.value.active == Some(w.disk.value.children[n]) && w.disk.value.active.value.name == n
  {
    Reached(steps);
  }

  /** acquire never puts anything on disk but what it leaves in memory. */
  lemma AcquireWritesMemory(memory: Snapshot, disk: Option<Snapshot>, order: seq<string>, pr: Probes, self: Self, writeOk: bool, lockWriteOk: bool)
    ensures
      var r := Acquire(memory, disk, order, pr, self, writeOk, lockWriteOk);
      r.disk == disk || r.disk == Some(r.state)
  {
    hide AcquireActive;
    ActiveWritesMemory(if disk.Some? then disk.value else memory, disk, order, pr, self, writeOk);
  }

  lemma ActiveWritesMemory(s: Snapshot, disk: Option<Snapshot>, order: seq<string>, pr: Probes, self: Self, writeOk: bool)
    ensures
      var r := AcquireActive(s, disk, order, pr, self, writeOk);
      r.disk == disk || r.disk == Some(r.state)
  {
    hide TakeOver, StateOf;
    TakeOverWritesMemory(s, disk, order, pr, self, writeOk);
  }

  lemma TakeOverWritesMemory(s: Snapshot, disk: Option<Snapshot>, order: seq<string>, pr: Probes, self: Self, writeOk: bool)
    ensures
      var r := TakeOver(s, disk, order, pr, self, writeOk);
      r.disk == disk || r.disk == Some(r.state)
  {
    hide SweepChildren, InterruptActive, StateOf, Matches, Unspawned;
  }

  /** Whatever a step puts on disk is the whole memory of the acting owner, as it stands after the step. */
  lemma DiskFollowsMemory(w: World, step: Step)
    requires Enabled(w, step) && Next(w, step).disk != w.disk
    ensures
      var w' := Next(w, step);
      Actor(step).Some? && Actor(step).value in w'.owners && w'.disk == Some(w'.owners[Actor(step).value].memory)
  {
    hide Acquire, Stamp, WithActive, WithSettled, FinalRecord, LaunchRecord;
    if step.TryAcquire? {
      var own := w.owners[step.o];
      AcquireWritesMemory(own.memory, w.disk, step.order, step.probes, own.self, step.writeOk, step.lockWriteOk);
    } else {
      assert step.StartRun? || step.BeginChild? || IsChildStep(step) || step.Finish? || step.Flush? || step.LateFlush?;
    }
  }

  /** The memory of the acting owner after each step, in time order. */
  function Memories(w: World, steps: seq<Step>): seq<Snapshot>
    decreases |steps|
  {
    if steps == [] then []
    else
      var w' := Next(w, steps[0]);
      var a := Actor(steps[0]);
      (if a.Some? && a.value in w'.owners then [w'.owners[a.value].memory] else []) + Memories(w', steps[1..])
  }

  /** Every new content of the disk, in time order. */
  function Disks(w: World, steps: seq<Step>): seq<Option<Snapshot>>
    decreases |steps|
  {
    if steps == [] then []
    else
      var w' := Next(w, steps[0]);
      (if w'.disk != w.disk then [w'.disk] else []) + Disks(w', steps[1..])
  }

  /** `at` picks the elements of `part` out of `whole`, from left to right. */
  ghost predicate Picks(at: seq<nat>, part: seq<Option<Snapshot>>, whole: seq<Snapshot>) {
    && |at| == |part|
    && (forall i :: 0 <= i < |at| ==> at[i] < |whole| && part[i] == Some(whole[at[i]]))
    && (forall i, j :: 0 <= i < j < |at| ==> at[i] < at[j])
  }

  /** Over a whole run the contents of the disk are a subsequence of what owners held in memory. */
  lemma {:induction false} DisksAreASubsequence(w: World, steps: seq<Step>) returns (at: seq<nat>)
    ensures Picks(at, Disks(w, steps), Memories(w, steps))
    decreases |steps|
  {
    hide Next, Picks;
    if steps == [] {
      at := [];
      PicksNothing();
    } else {
      var step, w' := steps[0], Next(w, steps[0]);
      var later := DisksAreASubsequence(w', steps[1..]);
      var held := if Actor(step).Some? && Actor(step).value in w'.owners then [w'.owners[Actor(step).value].memory] else [];
      ChangeIsEnabled(w, step);
      at := PickOneMore(later, Disks(w', steps[1..]), Memories(w', steps[1..]), held, w'.disk != w.disk, w'.disk);
    }
  }

  lemma PicksNothing()
    ensures Picks([], [], [])
  {
  }

  lemma ChangeIsEnabled(w: World, step: Step)
    ensures
      var w' := Next(w, step);
      w'.disk != w.disk ==>
        Actor(step).Some? && Actor(step).value in w'.owners && w'.disk == Some(w'.owners[Actor(step).value].memory)
  {
    if Enabled(w, step) && Next(w, step).disk != w.disk {
      DiskFollowsMemory(w, step);
    }
    hide Apply;
  }

  lemma PickOneMore(later: seq<nat>, part: seq<Option<Snapshot>>, whole: seq<Snapshot>, held: seq<Snapshot>, changed: bool, disk: Option<Snapshot>)
    returns (at: seq<nat>)
    requires Picks(later, part, whole) && |held| <= 1 && (changed ==> |held| == 1 && disk == Some(held[0]))
    ensures Picks(at, (if changed then [disk] else []) + part, held + whole)
  {
    var shifted := seq(|later|, i requires 0 <= i < |later| => later[i] + |held|);
    at := (if changed then [0] else []) + shifted;
  }

  // --- acquire ---------------------------------------------------------------

  /** When an acquire that holds the lock succeeds, in terms a caller can look up beforehand. */
  ghost predicate MayResume(memory: Snapshot, disk: Option<Snapshot>, pr: Probes, writeOk: bool, lockWriteOk: bool) {
    var s := if disk.Some? then disk.value else memory;
    && s.runId == memory.runId && s.status != NeedsReview && lockWriteOk
    && (forall n :: n in s.children ==> IsSettled(s.children[n]))
    && (s.active.Some? && s.active.value.status == Running ==> SaysDead(s.active.value.identity, pr.active) && writeOk)
    && (s.status == Running ==>
          && writeOk && SaysDead(s.owner, pr.owner)
          && (s.active.Some? ==> StateOf(s.active.value.identity, pr.activeMatch) != IsLive)
          && (s.active.Some? && s.active.value.status == Running ==>
                && SaysDead(s.active.value.identity, pr.activeAgain)
                && s.active.value.name in pr.children && SaysDead(s.active.value.identity, pr.children[s.active.value.name])))
  }

  /** The record asks for no review, and is not of a child that may be alive without an identity to probe. */
  predicate IsSettled(c: Child) {
    c.status != NeedsReview && c.status != Launching && (c.status == Running ==> c.identity.pid.Some? && c.identity.token.Some?)
  }

  /** acquire succeeds on exactly these inputs. */
  lemma AcquireSucceedsExactly(h: History, memory: Snapshot, disk: Option<Snapshot>, order: seq<string>, pr: Probes, self: Self,
                               writeOk: bool, lockWriteOk: bool)
    requires SnapshotOk(h, if disk.Some? then disk.value else memory)
    requires forall n :: n in (if disk.Some? then disk.value else memory).children ==> n in order
    ensures Acquire(memory, disk, order, pr, self, writeOk, lockWriteOk).Acquired? <==> MayResume(memory, disk, pr, writeOk, lockWriteOk)
  {
    var s := if disk.Some? then disk.value else memory;
    if s.runId == memory.runId && !Blocked(s) && forall n :: n in s.children ==> !Unidentified(s.children[n]) {
      ActiveSucceedsExactly(h, s, disk, order, pr, self, writeOk);
    }
    assert ChildBlocked(s) ==> exists n :: n in s.children && s.children[n].status == NeedsReview;
    hide AcquireActive, SnapshotOk, ChildProbe;
    UnknownIsNotDead(s, pr);
  }

  /** A child nobody probed is not taken for dead. */
  lemma UnknownIsNotDead(s: Snapshot, pr: Probes)
    ensures s.active.Some? ==>
      var a := s.active.value;
      SaysDead(a.identity, ChildProbe(pr, a.name)) <==> a.name in pr.children && SaysDead(a.identity, pr.children[a.name])
  {
  }

  lemma ActiveSucceedsExactly(h: History, s: Snapshot, disk: Option<Snapshot>, order: seq<string>, pr: Probes, self: Self, writeOk: bool)
    requires SnapshotOk(h, s) && forall n :: n in s.children ==> n in order
    requires forall n :: n in s.children ==> !Unidentified(s.children[n])
    ensures AcquireActive(s, disk, order, pr, self, writeOk).Acquired? <==>
      && (s.active.Some? && s.active.value.status == Running ==> SaysDead(s.active.value.identity, pr.active) && writeOk)
      && (s.status == Running ==>
            && writeOk && SaysDead(s.owner, pr.owner)
            && (s.active.Some? ==> !Matches(s.active.value.identity, pr.activeMatch))
            && (s.active.Some? && s.active.value.status == Running ==>
                  SaysDead(s.active.value.identity, pr.activeAgain)
                  && SaysDead(s.active.value.identity, ChildProbe(pr, s.active.value.name))))
  {
    TakeOverSucceedsExactly(h, s, disk, order, pr, self, writeOk);
    assert s.active.Some? ==> !Unidentified(s.active.value);
    hide TakeOver, SnapshotOk;
  }

  lemma TakeOverSucceedsExactly(h: History, s: Snapshot, disk: Option<Snapshot>, order: seq<string>, pr: Probes, self: Self, writeOk: bool)
    requires SnapshotOk(h, s) && forall n :: n in s.children ==> n in order
    requires forall n :: n in s.children ==> !Unidentified(s.children[n])
    ensures TakeOver(s, disk, order, pr, self, writeOk).Acquired? <==>
      && writeOk
      && (s.active.Some? ==> !Matches(s.active.value.identity, pr.activeMatch))
      && (s.active.Some? && s.active.value.status == Running ==>
            SaysDead(s.active.value.identity, pr.activeAgain)
            && SaysDead(s.active.value.identity, ChildProbe(pr, s.active.value.name)))
  {
    hide Stamp, InterruptActive, SweepChildren, AttemptsOk;
    var a := if s.active.Some? then s.active.value.name else "";
    AcquireFacts.SweepOne(s.children, order, pr, a);
    assert forall n :: n in s.children ==> !Unspawned(s.children[n]);
    assert s.active.Some? ==> s.children[a] == s.active.value;
    hide SnapshotOk, Unspawned, Unidentified;
  }

  /** A live answer, or another run's state, refuses without touching the disk; a doubt is written down. */
  ghost predicate RecordedRefusal(disk: Option<Snapshot>, r: AcquireResult) {
    r.Refused? ==>
      && (r.why == ChildStillLive || r.why == OwnerStillLive || r.why == RunIdChanged ==> r.disk == disk)
      && (r.why == IdentityMissing || r.why == ProbeUnknown || r.why == OwnerProbeUnknown ==>
            r.disk.Some? && r.disk.value.status == NeedsReview)
      && (r.why == ReviewRequired ==> r.disk.Some? && Blocked(r.disk.value))
  }

  lemma RefusalOnDisk(memory: Snapshot, disk: Option<Snapshot>, order: seq<string>, pr: Probes, self: Self, writeOk: bool, lockWriteOk: bool)
    ensures RecordedRefusal(disk, Acquire(memory, disk, order, pr, self, writeOk, lockWriteOk))
  {
    var s := if disk.Some? then disk.value else memory;
    if ChildBlocked(s) {
      var n :| n in s.children && s.children[n].status == NeedsReview;
      assert Stamp(s, self).children[n].status == NeedsReview;
    }
    RefusalAfterChecks(s, disk, order, pr, self, writeOk);
    hide AcquireActive;
  }

  lemma RefusalAfterChecks(s: Snapshot, disk: Option<Snapshot>, order: seq<string>, pr: Probes, self: Self, writeOk: bool)
    ensures RecordedRefusal(disk, AcquireActive(s, disk, order, pr, self, writeOk))
    ensures AcquireActive(s, disk, order, pr, self, writeOk).Refused? ==> AcquireActive(s, disk, order, pr, self, writeOk).why != ReviewRequired
  {
    TakeOverRefusal(s, disk, order, pr, self, writeOk);
    hide TakeOver;
  }

  lemma TakeOverRefusal(s: Snapshot, disk: Option<Snapshot>, order: seq<string>, pr: Probes, self: Self, writeOk: bool)
    ensures RecordedRefusal(disk, TakeOver(s, disk, order, pr, self, writeOk))
    ensures TakeOver(s, disk, order, pr, self, writeOk).Refused? ==> TakeOver(s, disk, order, pr, self, writeOk).why != ReviewRequired
  {
  }

  /**
    A successful acquire keeps the run and its records but interrupts what was
    running; after it the run is at rest, and an interrupted record names a dead process.
   */
  lemma AcquiredRunIsAtRest(steps: seq<Step>, o: Process, order: seq<string>, pr: Probes, writeOk: bool, lockWriteOk: bool)
    requires
      var w := RunSteps(START, steps);
      && Enabled(w, TryAcquire(o, order, pr, writeOk, lockWriteOk))
      && Acquire(w.owners[o].memory, w.disk, order, pr, w.owners[o].self, writeOk, lockWriteOk).Acquired?
    ensures
      var w := RunSteps(START, steps);
      var r := Acquire(w.owners[o].memory, w.disk, order, pr, w.owners[o].self, writeOk, lockWriteOk);
      && Resumed(if w.disk.Some? then w.disk.value else w.owners[o].memory, w.disk, r.state, r.disk, w.owners[o].self)
      && r.state.status != NeedsReview && (r.disk.Some? ==> r.disk.value == r.state)
      && (forall n :: n in r.state.children ==>
            r.state.children[n].status != NeedsReview && r.state.children[n].status != Launching && r.state.children[n].status != Running)
      && (forall p :: p in w.past.spawned ==> p !in w.alive)
      && (forall n :: n in r.state.children && r.state.children[n].status == Interrupted ==>
            HasBoth(r.state.children[n].identity) && Named(r.state.children[n].identity) !in w.alive)
  {
    var w := RunSteps(START, steps);
    Reached(steps);
    var own := w.owners[o];
    assert FreshOk(w, own);
    AcquireFacts.AcquireIsSafe(w.past, w.alive, own.memory, w.disk, order, pr, own.self, writeOk, lockWriteOk);
    AcquireRecordsExactly(w.past, own.memory, w.disk, order, pr, own.self, writeOk, lockWriteOk);
    hide Acquire, Resumed;
    var s := Acquire(own.memory, w.disk, order, pr, own.self, writeOk, lockWriteOk).state;
    forall n | n in s.children && s.children[n].status == Interrupted
      ensures HasBoth(s.children[n].identity) && Named(s.children[n].identity) in w.past.spawned
    {
      assert RecordOk(w.past, n, s.children[n]);
    }
  }

  // --- probes ----------------------------------------------------------------

  /** What ended stays ended. */
  lemma DeadStaysDead(w: World, step: Step, p: Process)
    requires Inv(w) && p in w.ever && p !in w.alive
    ensures p in Next(w, step).ever && p !in Next(w, step).alive
  {
    hide HistoryOk, DiskOk, OwnersOk, BlockOk, Acquire;
  }

  /**
    A sound probe made at some moment is still a truthful answer at every later
    one, which is what `Enabled` asks of the probes an acquire collects on its way.
   */
  lemma {:induction false} TruthfulAnswersLast(w: World, steps: seq<Step>, id: Identity, probe: Probe)
    requires Inv(w)
    requires HasBoth(id) ==> Named(id) in w.ever && Sound(w.alive, id.pid.value, probe)
    ensures Truthful(RunSteps(w, steps).alive, id, probe)
  {
    if SaysDead(id, probe) {
      SoundProbeDecides(w.alive, id, probe);
      DeadForEver(w, steps, Named(id));
    }
  }

  lemma {:induction false} DeadForEver(w: World, steps: seq<Step>, p: Process)
    requires Inv(w) && p in w.ever && p !in w.alive
    ensures p !in RunSteps(w, steps).alive
    decreases |steps|
  {
    if steps != [] {
      StepKeeps(w, steps[0]);
      DeadStaysDead(w, steps[0], p);
      DeadForEver(Next(w, steps[0]), steps[1..], p);
    }
  }
}
