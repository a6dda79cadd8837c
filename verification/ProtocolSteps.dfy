/**
  Each step of the evidence protocol keeps the invariant: one lemma a step,
  on top of a few lemmas about what a step of the lock holder may change.
 */
module ProtocolSteps {
  import opened Options
  import opened Processes
  import opened EvidenceState
  import opened EvidenceProtocol
  import opened ProtocolInvariant
  import opened AcquireFacts

  // --- frames --------------------------------------------------------------

  /** Nothing a snapshot says is lost when history only gains completions. */
  lemma SnapshotStays(h: History, h': History, s: Snapshot)
    requires SnapshotOk(h, s)
    requires h'.spawned == h.spawned
    requires forall p :: p in h.completed ==> p in h'.completed && h'.completed[p] == h.completed[p]
    ensures SnapshotOk(h', s)
  {
  }

  /** A new spawn leaves a snapshot right if its child is on record with that attempt. */
  lemma SnapshotGrows(h: History, h': History, s: Snapshot, p: Process, e: Exec)
    requires SnapshotOk(h, s)
    requires p !in h.spawned && h'.spawned == h.spawned[p := e] && h'.completed == h.completed
    requires e.name in s.children && e.attempt <= s.children[e.name].attempt
    ensures SnapshotOk(h', s)
  {
  }

  /** Processes and their history do not depend on what owners hold in memory. */
  lemma SameProcesses(w: World, w': World)
    requires ProcessesOk(w) && w'.past == w.past && w'.alive == w.alive && w'.ever == w.ever && w'.owners.Keys == w.owners.Keys
    ensures ProcessesOk(w')
  {
  }

  /** A step that only touches the lock holder and perhaps the disk. */
  lemma HolderStep(w: World, w': World, o: Process)
    requires Inv(w) && o in w.owners && w.lock == Some(o)
    requires o in w'.owners && w'.owners == w.owners[o := w'.owners[o]]
    requires w'.owners[o].self == w.owners[o].self && Holding(w'.owners[o].phase)
    requires w'.lock == w.lock && (w'.disk.None? ==> w.disk.None?)
    requires ProcessesOk(w') && HistoryOk(w'.past) && DiskOk(w') && BlockOk(w') && HolderOk(w', w'.owners[o])
    ensures Inv(w')
  {
    forall q | q in w'.owners ensures DoneOk(w', w'.owners[q]) && FreshOk(w', w'.owners[q]) {
      if q != o {
        assert w'.owners[q] == w.owners[q];
        assert DoneOk(w, w.owners[q]) && FreshOk(w, w.owners[q]);
      }
    }
  }

  /** A change of the holder's memory and phase alone. */
  lemma PutKeeps(w: World, o: Process, ph: Phase, m: Snapshot)
    requires Inv(w) && o in w.owners && w.lock == Some(o) && Holding(ph)
    requires SnapshotOk(w.past, m) && CoverOk(w.alive, w.past, m) && PhaseOk(w, ph, m)
    requires w.disk.None? ==> (ph.Held? || ph.Raised?) && m.children == map[]
    requires w.disk.Some? && Blocked(w.disk.value) ==> ReviewPhase(ph) && ChildBlocked(m) && ChildBlocked(w.disk.value)
    ensures Inv(Put(w, o, ph, m))
  {
    var w' := Put(w, o, ph, m);
    assert PhaseOk(w', ph, m);
    HolderStep(w, w', o);
  }

  /** A forced write, whether or not it reaches the disk. */
  lemma WriteKeeps(w: World, o: Process, next: Phase, m: Snapshot, writeOk: bool)
    requires Inv(w) && o in w.owners && w.lock == Some(o) && Holding(next)
    requires SnapshotOk(w.past, m) && CoverOk(w.alive, w.past, m)
    requires writeOk ==> PhaseOk(w.(disk := Some(Stamp(m, w.owners[o].self))), next, Stamp(m, w.owners[o].self))
    requires m.active.Some? ==> m.active.value.status != Failed || writeOk
    requires !writeOk && w.disk.None? ==> m.children == map[]
    requires !writeOk && m.status == NeedsReview ==> ChildBlocked(m)
    requires writeOk && Blocked(m) ==> ReviewPhase(next) && ChildBlocked(m)
    requires !writeOk && w.disk.Some? && Blocked(w.disk.value) ==> ChildBlocked(m)
    ensures Inv(PutAndWrite(w, o, next, m, writeOk))
  {
    var stamped := Stamp(m, w.owners[o].self);
    var w' := PutAndWrite(w, o, next, m, writeOk);
    assert SnapshotOk(w'.past, stamped) && CoverOk(w'.alive, w'.past, stamped);
    if writeOk {
      assert PhaseOk(w', next, stamped);
      assert ChildBlocked(m) <==> ChildBlocked(stamped);
    } else {
      assert PhaseOk(w', Raised, stamped);
      assert ChildBlocked(m) <==> ChildBlocked(stamped);
    }
    HolderStep(w, w', o);
  }

  // --- the environment -----------------------------------------------------

  /** The parts of the invariant that owners, lock and disk take part in. */
  ghost predicate ControlOk(w: World) {
    DiskOk(w) && OwnersOk(w) && BlockOk(w)
  }

  /** A change no owner notices: processes come or go, other history grows. */
  lemma QuietStep(w: World, w': World)
    requires ControlOk(w)
    requires w'.owners == w.owners && w'.lock == w.lock && w'.disk == w.disk
    requires w'.past.spawned == w.past.spawned && w'.past.completed == w.past.completed
    requires w'.past.timedOut == w.past.timedOut && w'.past.logs == w.past.logs
    requires forall p :: p in w.past.spawned && p in w'.alive ==> p in w.alive
    ensures ControlOk(w')
  {
    forall s | SnapshotOk(w.past, s) ensures SnapshotOk(w'.past, s) {
      SnapshotStays(w.past, w'.past, s);
    }
    hide SnapshotOk;
    if w.lock.Some? {
      QuietHolder(w, w', w.owners[w.lock.value]);
    }
    forall o | o in w'.owners ensures DoneOk(w', w'.owners[o]) && FreshOk(w', w'.owners[o]) {
      assert DoneOk(w, w.owners[o]) && FreshOk(w, w.owners[o]);
    }
  }

  lemma QuietHolder(w: World, w': World, own: Owner)
    requires HolderOk(w, own) && SnapshotOk(w'.past, own.memory)
    requires w'.disk == w.disk && w'.past.spawned == w.past.spawned && w'.past.completed == w.past.completed
    requires w'.past.timedOut == w.past.timedOut && w'.past.logs == w.past.logs
    requires forall p :: p in w.past.spawned && p in w'.alive ==> p in w.alive
    ensures HolderOk(w', own)
  {
  }

  /** The log and reuse history is judged by the executions alone. */
  lemma LogsStay(h: History, h': History)
    requires HistoryOk(h)
    requires h'.order == h.order && h'.logs == h.logs && h'.reused == h.reused
    requires h'.spawned == h.spawned
    requires forall p :: p in h.completed ==> p in h'.completed && h'.completed[p] == h.completed[p]
    ensures HistoryOk(h')
  {
  }

  /** Any process may start: a new identity, under a PID nobody uses now. */
  lemma EnvStartKeeps(w: World, p: Process)
    requires Inv(w) && Unused(w, p)
    ensures Inv(Apply(w, EnvStart(p)))
  {
    QuietStep(w, Apply(w, EnvStart(p)));
    hide DiskOk, OwnersOk, BlockOk, HistoryOk;
  }

  lemma EnvExitKeeps(w: World, p: Process, code: int)
    requires Inv(w) && p in w.alive && p !in w.owners
    ensures Inv(Apply(w, EnvExit(p, code)))
  {
    var w' := Apply(w, EnvExit(p, code));
    QuietStep(w, w');
    LogsStay(w.past, w'.past);
    hide DiskOk, OwnersOk, BlockOk, HistoryOk;
  }

  lemma ConstructKeeps(w: World, self: Self, runId: string)
    requires Inv(w) && Unused(w, self.process)
    ensures Inv(Apply(w, Construct(self, runId)))
  {
    var o := self.process;
    var w1 := w.(alive := w.alive + {o}, ever := w.ever + {o});
    QuietStep(w, w1);
    var w' := Apply(w, Construct(self, runId));
    AddOwner(w1, w', o);
    hide DiskOk, OwnersOk, BlockOk, HistoryOk;
  }

  /** A new owner has read the disk and nothing else. */
  lemma AddOwner(w: World, w': World, o: Process)
    requires ControlOk(w) && o !in w.owners && o in w'.owners
    requires w' == w.(owners := w.owners[o := w'.owners[o]])
    requires w'.owners[o].phase.Fresh? && w'.owners[o].self.process == o && FreshOk(w, w'.owners[o])
    ensures ControlOk(w')
  {
    hide SnapshotOk, CoverOk, PhaseOk;
    if w.lock.Some? {
      SameHolder(w, w', w.owners[w.lock.value]);
    }
    forall q | q in w'.owners ensures DoneOk(w', w'.owners[q]) && FreshOk(w', w'.owners[q]) {
      assert q != o ==> DoneOk(w, w.owners[q]) && FreshOk(w, w.owners[q]);
    }
  }

  /** A holder is judged by disk, processes and history, not by the other owners. */
  lemma SameHolder(w: World, w': World, own: Owner)
    requires HolderOk(w, own) && w'.disk == w.disk && w'.past == w.past && w'.alive == w.alive
    ensures HolderOk(w', own)
  {
  }

  /** An owner may die at any moment; the operating system frees its lock. */
  lemma CrashKeeps(w: World, o: Process, code: int)
    requires Inv(w) && o in w.owners
    ensures Inv(Apply(w, Crash(o, code)))
  {
    var w' := Apply(w, Crash(o, code));
    var w1 := w.(alive := w'.alive, past := w'.past);
    QuietStep(w, w1);
    DropOwner(w1, w', o);
    LogsStay(w.past, w'.past);
    CrashProcesses(w, o, code);
    hide ControlOk, HistoryOk, ProcessesOk;
    ControlMakesInv(w');
  }

  lemma CrashProcesses(w: World, o: Process, code: int)
    requires ProcessesOk(w) && o in w.owners
    ensures ProcessesOk(CrashStep(w, o, code))
  {
  }

  lemma ControlMakesInv(w: World)
    requires ProcessesOk(w) && HistoryOk(w.past) && ControlOk(w)
    ensures Inv(w)
  {
  }

  lemma DropOwner(w: World, w': World, o: Process)
    requires ControlOk(w) && o in w.owners
    requires w' == w.(owners := w.owners - {o}, lock := if w.lock == Some(o) then None else w.lock)
    ensures ControlOk(w')
  {
    hide SnapshotOk, CoverOk, PhaseOk;
    if w'.lock.Some? {
      SameHolder(w, w', w.owners[w.lock.value]);
    }
    forall q | q in w'.owners ensures DoneOk(w', w'.owners[q]) && FreshOk(w', w'.owners[q]) {
      assert DoneOk(w, w.owners[q]) && FreshOk(w, w.owners[q]);
    }
  }

  // --- acquire, start, finish ----------------------------------------------

  lemma AcquireKeeps(w: World, o: Process, order: seq<string>, pr: Probes, writeOk: bool, lockWriteOk: bool)
    requires Inv(w) && Enabled(w, TryAcquire(o, order, pr, writeOk, lockWriteOk))
    ensures Inv(Apply(w, TryAcquire(o, order, pr, writeOk, lockWriteOk)))
  {
    var own := w.owners[o];
    assert FreshOk(w, own);
    AcquireIsSafe(w.past, w.alive, own.memory, w.disk, order, pr, own.self, writeOk, lockWriteOk);
    var r := Acquire(own.memory, w.disk, order, pr, own.self, writeOk, lockWriteOk);
    assert r.Acquired? && w.disk.Some? ==> !Blocked(w.disk.value);
    hide Acquire, SnapshotOk, HistoryOk;
    match r
    case Acquired(s, disk) => TakeLock(w, o, s, disk);
    case Refused(_, disk, s) => RefusedDisk(w, o, s, disk);
  }

  /** The lock goes to an owner whose memory is a run at rest. */
  lemma TakeLock(w: World, o: Process, s: Snapshot, disk: Option<Snapshot>)
    requires Inv(w) && o in w.owners && w.owners[o].phase.Fresh? && w.lock.None?
    requires SafeAcquire(w.past, w.alive, w.owners[o].memory, w.disk, s, disk)
    requires w.disk.Some? ==> !Blocked(w.disk.value)
    ensures Inv(Put(w, o, Held, s).(disk := disk, lock := Some(o)))
  {
    var w' := Put(w, o, Held, s).(disk := disk, lock := Some(o));
    assert FreshOk(w, w.owners[o]);
    assert CoverOk(w'.alive, w'.past, s);
    assert DiskOk(w');
    SameProcesses(w, w');
    hide SnapshotOk, HistoryOk, ProcessesOk, DiskOk, CoverOk;
    NewHolder(w, w', o);
  }

  lemma NewHolder(w: World, w': World, o: Process)
    requires OwnersOk(w) && o in w.owners && w.lock.None? && o in w'.owners && w'.lock == Some(o)
    requires w'.owners == w.owners[o := w'.owners[o]] && w'.owners[o].self == w.owners[o].self && w'.owners[o].phase.Held?
    requires HolderOk(w', w'.owners[o]) && (w'.disk.None? ==> w.disk.None?)
    requires w.disk.Some? ==> !ChildBlocked(w.disk.value)
    ensures OwnersOk(w')
  {
  }

  /** A refused owner stays without the lock, with whatever it has read or noted in its memory. */
  lemma RefusedDisk(w: World, o: Process, s: Snapshot, disk: Option<Snapshot>)
    requires Inv(w) && w.lock.None? && SafeRefusal(w.past, w.alive, w.disk, disk)
    requires o in w.owners && w.owners[o].phase.Fresh? && (w.disk.None? ==> s == w.owners[o].memory)
    ensures Inv(Put(w, o, Fresh, s).(disk := disk))
  {
    hide SnapshotOk, HistoryOk, ProcessesOk, CoverOk;
    var w' := Put(w, o, Fresh, s).(disk := disk);
    SameProcesses(w, w');
    assert FreshOk(w, w.owners[o]);
    forall q | q in w'.owners ensures DoneOk(w', w'.owners[q]) && FreshOk(w', w'.owners[q]) {
      assert DoneOk(w, w.owners[q]) && FreshOk(w, w.owners[q]);
    }
  }

  lemma StartRunKeeps(w: World, o: Process, writeOk: bool)
    requires Inv(w) && Enabled(w, StartRun(o, writeOk))
    ensures Inv(Apply(w, StartRun(o, writeOk)))
  {
    var m := w.owners[o].memory.(status := Running);
    assert HolderOk(w, w.owners[o]);
    WriteKeeps(w, o, Ready, m, writeOk);
    var w1 := PutAndWrite(w, o, Ready, m, writeOk);
    var w' := Apply(w, StartRun(o, writeOk));
    LogsStay(w1.past, w'.past);
    PastOnly(w1, w');
  }

  /** History fields that no predicate judges may change freely. */
  lemma PastOnly(w: World, w': World)
    requires Inv(w) && w' == w.(past := w'.past)
    requires w'.past.spawned == w.past.spawned && w'.past.exits == w.past.exits && w'.past.completed == w.past.completed
    requires w'.past.timedOut == w.past.timedOut && w'.past.logs == w.past.logs
    requires HistoryOk(w'.past)
    ensures Inv(w')
  {
    QuietStep(w, w');
    hide DiskOk, OwnersOk, BlockOk, HistoryOk;
  }

  lemma FlushKeeps(w: World, o: Process)
    requires Inv(w) && Enabled(w, Flush(o))
    ensures Inv(Apply(w, Flush(o)))
  {
    var own := w.owners[o];
    assert HolderOk(w, own);
    PhaseSurvivesFlush(w, own);
    WriteKeeps(w, o, own.phase, own.memory, true);
  }

  /** Between any two steps the disk may be brought up to date without disturbing the owner. */
  lemma PhaseSurvivesFlush(w: World, own: Owner)
    requires HolderOk(w, own) && Flushing(own.phase)
    ensures PhaseOk(w.(disk := Some(Stamp(own.memory, own.self))), own.phase, Stamp(own.memory, own.self))
    ensures Blocked(own.memory) ==> ReviewPhase(own.phase) && ChildBlocked(own.memory)
  {
  }

  /** Stamping the owner changes nothing that is judged. */
  lemma StampIsOk(w: World, own: Owner)
    requires SnapshotOk(w.past, own.memory) && CoverOk(w.alive, w.past, own.memory)
    ensures
      var t := Stamp(own.memory, own.self);
      SnapshotOk(w.past, t) && CoverOk(w.alive, w.past, t) && (ChildBlocked(own.memory) ==> ChildBlocked(t))
  {
  }

  lemma LateFlushKeeps(w: World, o: Process)
    requires Inv(w) && Enabled(w, LateFlush(o))
    ensures Inv(Apply(w, LateFlush(o)))
  {
    var own := w.owners[o];
    assert DoneOk(w, own);
    StampIsOk(w, own);
    LateWriteKeeps(w, o, Stamp(own.memory, own.self));
  }

  lemma LateWriteKeeps(w: World, o: Process, m: Snapshot)
    requires Inv(w) && o in w.owners && w.owners[o].phase.Done? && w.lock.None?
    requires SnapshotOk(w.past, m) && CoverOk(w.alive, w.past, m) && ChildBlocked(m)
    ensures Inv(Put(w, o, Done, m).(disk := Some(m)))
  {
    var w' := Put(w, o, Done, m).(disk := Some(m));
    SameProcesses(w, w');
    GoneOwner(w, w', o);
    hide SnapshotOk, CoverOk, HistoryOk, ChildBlocked, ProcessesOk, OwnersOk;
  }
  /** An owner that holds no lock any more has left its memory on disk; the others are as they were. */
  lemma GoneOwner(w: World, w': World, o: Process)
    requires OwnersOk(w) && o in w.owners && o in w'.owners && w'.owners[o].phase.Done?
    requires w'.owners == w.owners[o := w'.owners[o]] && w'.owners[o].self == w.owners[o].self
    requires w'.past == w.past && w'.alive == w.alive && DoneOk(w', w'.owners[o]) && w'.disk.Some?
    requires w'.lock.None? && (w.lock.None? ==> ChildBlocked(w'.disk.value)) && (w.lock.None? || w.lock == Some(o))
    ensures OwnersOk(w')
  {
    hide SnapshotOk, CoverOk, ChildBlocked, HolderOk;
    forall q | q in w'.owners ensures DoneOk(w', w'.owners[q]) && FreshOk(w', w'.owners[q]) {
      assert q != o ==> DoneOk(w, w.owners[q]) && FreshOk(w, w.owners[q]);
    }
  }

  lemma FinishKeeps(w: World, o: Process, status: Status, writeOk: bool)
    requires Inv(w) && Enabled(w, Finish(o, status, writeOk))
    ensures Inv(Apply(w, Finish(o, status, writeOk)))
  {
    var own := w.owners[o];
    assert HolderOk(w, own);
    var m := own.memory.(status := status);
    FinishMemory(w, own, status);
    if writeOk {
      ReleaseKeeps(w, o, Stamp(m, own.self));
    } else {
      hide SnapshotOk, CoverOk, HistoryOk;
      WriteKeeps(w, o, Raised, m, false);
    }
  }

  lemma FinishMemory(w: World, own: Owner, status: Status)
    requires HolderOk(w, own) && (own.phase.Ready? || own.phase.Raised?)
    requires status == Failed || status == Interrupted || status == Passed
    ensures
      var m := own.memory.(status := status);
      && SnapshotOk(w.past, m) && CoverOk(w.alive, w.past, m) && (ChildBlocked(m) <==> ChildBlocked(own.memory))
      && SnapshotOk(w.past, Stamp(m, own.self)) && CoverOk(w.alive, w.past, Stamp(m, own.self))
      && (ChildBlocked(Stamp(m, own.self)) <==> ChildBlocked(own.memory))
  {
  }

  /** The last write of a run, and the lock given back. */
  lemma ReleaseKeeps(w: World, o: Process, m: Snapshot)
    requires Inv(w) && o in w.owners && w.lock == Some(o)
    requires SnapshotOk(w.past, m) && CoverOk(w.alive, w.past, m)
    ensures Inv(Put(w, o, Done, m).(disk := Some(m), lock := None))
  {
    var w' := Put(w, o, Done, m).(disk := Some(m), lock := None);
    SameProcesses(w, w');
    GoneOwner(w, w', o);
    hide SnapshotOk, CoverOk, HistoryOk, ChildBlocked, ProcessesOk, OwnersOk;
  }

  lemma RaiseKeeps(w: World, o: Process)
    requires Inv(w) && Enabled(w, Raise(o))
    ensures Inv(Apply(w, Raise(o)))
  {
    assert HolderOk(w, w.owners[o]);
    PutKeeps(w, o, Raised, w.owners[o].memory);
  }

  // --- run_child -------------------------------------------------------------

  /** Replacing the active child's record (or making one active) keeps a snapshot good. */
  lemma EditIsOk(h: History, m: Snapshot, c: Child)
    requires SnapshotOk(h, m) && RecordOk(h, c.name, c) && m.status == Running
    requires m.active.Some? ==> m.active.value.name == c.name
    requires c.name in m.children ==> m.children[c.name].attempt <= c.attempt
    requires IsLiveStatus(c.status) || c.status == NeedsReview || c.status == Failed
    ensures SnapshotOk(h, WithActive(m, c))
    ensures ChildBlocked(WithActive(m, c)) ==> ChildBlocked(m) || c.status == NeedsReview
    ensures c.status == NeedsReview ==> ChildBlocked(WithActive(m, c))
  {
  }

  /** Filing the active child under a finished record keeps a snapshot good. */
  lemma SettleIsOk(h: History, m: Snapshot, c: Child)
    requires SnapshotOk(h, m) && RecordOk(h, c.name, c) && m.status == Running
    requires m.active.Some? && m.active.value.name == c.name && m.active.value.attempt == c.attempt
    requires !IsLiveStatus(c.status)
    ensures SnapshotOk(h, WithSettled(m, c))
    ensures ChildBlocked(WithSettled(m, c)) ==> ChildBlocked(m) || c.status == NeedsReview
  {
  }

  lemma BeginChildKeeps(w: World, o: Process, spec: Spec, logsExist: bool, writeOk: bool)
    requires Inv(w) && Enabled(w, BeginChild(o, spec, logsExist, writeOk))
    ensures Inv(Apply(w, BeginChild(o, spec, logsExist, writeOk)))
  {
    hide HistoryOk;
    var own := w.owners[o];
    assert HolderOk(w, own);
    if Reusable(own.memory, spec, own.self, logsExist) {
      WriteKeeps(w, o, Ready, own.memory, writeOk);
      var w1 := PutAndWrite(w, o, Ready, own.memory, writeOk);
      var w' := BeginStep(w, o, spec, logsExist, writeOk);
      ReuseIsReal(w, o, spec, logsExist, writeOk);
      PastOnly(w1, w');
    } else {
      var c := LaunchRecord(own.memory, spec, own.self);
      var m := WithActive(own.memory, c);
      EditIsOk(w.past, own.memory, c);
      assert NewAttempt(w.past, c);
      WriteKeeps(w, o, LaunchWritten(spec.name), m, writeOk);
    }
  }

  /** A reused result stands on an execution that exited 0. */
  lemma ReuseIsReal(w: World, o: Process, spec: Spec, logsExist: bool, writeOk: bool)
    requires Inv(w) && o in w.owners && w.owners[o].phase.Ready?
    requires Reusable(w.owners[o].memory, spec, w.owners[o].self, logsExist)
    ensures HistoryOk(BeginStep(w, o, spec, logsExist, writeOk).past)
  {
    hide ProcessesOk, DiskOk, BlockOk, AttemptsOk, ActiveOk;
    var h, h' := w.past, BeginStep(w, o, spec, logsExist, writeOk).past;
    var c := w.owners[o].memory.children[spec.name];
    assert RecordOk(h, spec.name, c);
    forall i | 0 <= i < |h'.reused| ensures ReuseOk(h', h'.reused[i]) {
      if i < |h.reused| {
        assert ReuseOk(h, h.reused[i]);
      }
    }
    forall i | 0 <= i < |h'.logs| ensures Logged(h', h'.logs[i]) {
      assert Logged(h, h.logs[i]);
    }
  }

  lemma PopenKeeps(w: World, o: Process, p: Process)
    requires Inv(w) && Enabled(w, Popen(o, p))
    ensures Inv(Apply(w, Popen(o, p)))
  {
    var c := w.owners[o].memory.active.value;
    assert HolderOk(w, w.owners[o]);
    var w' := PopenStep(w, o, p);
    PopenProcesses(w, o, p);
    PopenSnapshots(w, o, p);
    SpawnHistory(w.past, w'.past, p, c);
    HolderStep(w, w', o);
  }

  lemma PopenProcesses(w: World, o: Process, p: Process)
    requires Inv(w) && Enabled(w, Popen(o, p))
    ensures ProcessesOk(PopenStep(w, o, p))
  {
  }

  /** The launching record covers the process from the moment it exists. */
  lemma PopenSnapshots(w: World, o: Process, p: Process)
    requires Inv(w) && Enabled(w, Popen(o, p))
    ensures
      var w' := PopenStep(w, o, p);
      HolderOk(w', w'.owners[o]) && DiskOk(w') && BlockOk(w')
  {
    var own := w.owners[o];
    assert HolderOk(w, own);
    var c := own.memory.active.value;
    var w' := PopenStep(w, o, p);
    SnapshotGrows(w.past, w'.past, own.memory, p, ExecOf(c));
    SnapshotGrows(w.past, w'.past, w.disk.value, p, ExecOf(c));
    FreshAttemptHasNoLog(w.past, c);
    assert own.memory.children[c.name] == c && w.disk.value.children[c.name] == c;
    assert forall q :: q in w'.past.spawned && q in w'.alive ==> q == p;
    assert Covers(own.memory, p, ExecOf(c)) && Covers(w.disk.value, p, ExecOf(c));
    assert Owns(w', own.memory, p);
  }

  /** An attempt nobody reached has opened no log. */
  lemma FreshAttemptHasNoLog(h: History, c: Child)
    requires HistoryOk(h) && NewAttempt(h, c)
    ensures (c.name, c.attempt) !in h.logs
  {
  }

  /** A spawn of a new attempt keeps the attempts of every child increasing. */
  lemma SpawnHistory(h: History, h': History, p: Process, c: Child)
    requires HistoryOk(h) && NewAttempt(h, c) && p !in h.spawned
    requires h' == h.(spawned := h.spawned[p := ExecOf(c)], order := h.order + [p])
    requires p !in h.completed && forall q :: q in h.completed ==> q in h.spawned
    ensures HistoryOk(h')
  {
    forall i | 0 <= i < |h'.logs| ensures Logged(h', h'.logs[i]) {
      assert Logged(h, h.logs[i]);
      var q :| q in h.spawned && h.spawned[q].name == h.logs[i].0 && h.spawned[q].attempt == h.logs[i].1;
      assert q in h'.spawned && h'.spawned[q] == h.spawned[q];
    }
    forall i | 0 <= i < |h'.reused| ensures ReuseOk(h', h'.reused[i]) {
      assert ReuseOk(h, h.reused[i]);
    }
    forall i | 0 <= i < |h.order| ensures h'.order[i] == h.order[i] && h.order[i] in h.spawned {
    }
  }

  /** Popen raised, or the child could not be identified and was reaped: the record fails in memory. */
  lemma LaunchFailureKeeps(w: World, o: Process)
    requires Inv(w) && (Enabled(w, PopenFails(o)) || Enabled(w, ReapUnidentified(o)))
    ensures Inv(Edit(w, o, LaunchFailing(w.owners[o].phase.name), ActiveOf(w, o).(status := Failed)))
  {
    hide HistoryOk, ProcessesOk;
    var own := w.owners[o];
    assert HolderOk(w, own);
    var c := own.memory.active.value;
    assert RecordOk(w.past, c.name, own.memory.children[c.name]);
    EditIsOk(w.past, own.memory, c.(status := Failed));
    PutKeeps(w, o, LaunchFailing(own.phase.name), WithActive(own.memory, c.(status := Failed)));
  }

  lemma SettleLaunchFailureKeeps(w: World, o: Process, writeOk: bool)
    requires Inv(w) && Enabled(w, SettleLaunchFailure(o, writeOk))
    ensures Inv(Apply(w, SettleLaunchFailure(o, writeOk)))
  {
    hide HistoryOk, ProcessesOk;
    var own := w.owners[o];
    assert HolderOk(w, own);
    var m := own.memory.(active := None);
    assert ChildBlocked(m) <==> ChildBlocked(own.memory);
    WriteKeeps(w, o, Raised, m, writeOk);
  }

  lemma CaptureIdentityKeeps(w: World, o: Process)
    requires Inv(w) && Enabled(w, CaptureIdentity(o))
    ensures Inv(Apply(w, CaptureIdentity(o)))
  {
    var own := w.owners[o];
    assert HolderOk(w, own);
    CaptureMemory(w, own);
    hide SnapshotOk, CoverOk, PhaseOk, HistoryOk, ProcessesOk;
    PutKeeps(w, o, Identified(own.phase.name, own.phase.child),
             WithActive(own.memory, own.memory.active.value.(status := Running, identity := IdentityOf(own.phase.child))));
  }

  lemma CaptureMemory(w: World, own: Owner)
    requires HolderOk(w, own) && own.phase.Spawned?
    ensures
      var p := own.phase.child;
      var m := WithActive(own.memory, own.memory.active.value.(status := Running, identity := IdentityOf(p)));
      && SnapshotOk(w.past, m) && CoverOk(w.alive, w.past, m) && PhaseOk(w, Identified(own.phase.name, p), m)
      && w.disk.Some? && !ChildBlocked(own.memory)
  {
    var p := own.phase.child;
    var c := own.memory.active.value.(status := Running, identity := IdentityOf(p));
    assert Named(IdentityOf(p)) == p;
    EditIsOk(w.past, own.memory, c);
  }

  lemma WriteIdentityKeeps(w: World, o: Process, writeOk: bool)
    requires Inv(w) && Enabled(w, WriteIdentity(o, writeOk))
    ensures Inv(Apply(w, WriteIdentity(o, writeOk)))
  {
    hide HistoryOk, ProcessesOk;
    var own := w.owners[o];
    assert HolderOk(w, own);
    WriteKeeps(w, o, Waiting(own.phase.name, own.phase.child, false), own.memory, writeOk);
  }

  /** The log files of an attempt are opened once, by the owner that spawned it. */
  lemma OpenLogsKeeps(w: World, o: Process)
    requires Inv(w) && Enabled(w, OpenLogs(o))
    ensures Inv(Apply(w, OpenLogs(o)))
  {
    hide SnapshotOk, HistoryOk, CoverOk;
    var own := w.owners[o];
    assert HolderOk(w, own);
    var w' := Apply(w, OpenLogs(o));
    LogHistory(w.past, w'.past, own.phase.child, own.memory.active.value);
    StayThrough(w, w', own);
    HolderStep(w, w', o);
  }

  /** Snapshots of holder and disk survive a step that adds at most a completion to history. */
  lemma StayThrough(w: World, w': World, own: Owner)
    requires DiskOk(w) && SnapshotOk(w.past, own.memory) && CoverOk(w.alive, w.past, own.memory)
    requires w'.alive == w.alive && w'.disk == w.disk && w'.past.spawned == w.past.spawned
    requires forall p :: p in w.past.completed ==> p in w'.past.completed && w'.past.completed[p] == w.past.completed[p]
    ensures DiskOk(w') && SnapshotOk(w'.past, own.memory) && CoverOk(w'.alive, w'.past, own.memory)
  {
  }

  lemma LogHistory(h: History, h': History, p: Process, c: Child)
    requires HistoryOk(h) && p in h.spawned && h.spawned[p] == ExecOf(c) && (c.name, c.attempt) !in h.logs
    requires h' == h.(logs := h.logs + [(c.name, c.attempt)])
    ensures HistoryOk(h')
  {
    forall i | 0 <= i < |h'.logs| ensures Logged(h', h'.logs[i]) {
      if i < |h.logs| {
        assert Logged(h, h.logs[i]);
      } else {
        assert h'.spawned[p] == ExecOf(c);
      }
    }
    forall i | 0 <= i < |h'.reused| ensures ReuseOk(h', h'.reused[i]) {
      assert ReuseOk(h, h.reused[i]);
    }
  }

  /** A child that ended: its outcome is in history, nothing is alive, and its record says what the exit code says. */
  lemma CompleteKeeps(w: World, o: Process, writeOk: bool)
    requires Inv(w) && Enabled(w, CompleteChild(o, writeOk))
    ensures Inv(Apply(w, CompleteChild(o, writeOk)))
  {
    var own := w.owners[o];
    assert HolderOk(w, own);
    var p := own.phase.child;
    var h' := w.past.(completed := w.past.completed[p := w.past.exits[p]]);
    var m := Stamp(WithSettled(own.memory, FinalRecord(own.memory.active.value, w.past.exits[p], false)), own.self);
    CompleteMemory(w, own);
    CompleteProcesses(w, own, h');
    LogsStay(w.past, h');
    StayThrough(w, w.(past := h'), own);
    assert !Blocked(w.disk.value);
    SettledKeeps(w, o, h', m, writeOk);
  }

  /** Back between two children, or on the way out when the last write failed. */
  lemma SettledKeeps(w: World, o: Process, h': History, m: Snapshot, writeOk: bool)
    requires Inv(w) && o in w.owners && w.lock == Some(o) && w.disk.Some? && !Blocked(w.disk.value)
    requires ProcessesOk(w.(past := h')) && HistoryOk(h') && DiskOk(w.(past := h'))
    requires SnapshotOk(h', m) && NoLiveChild(w.alive, h') && !ChildBlocked(m) && m.status == Running && m.active.None?
    ensures
      var own := Owner(w.owners[o].self, if writeOk then Ready else Raised, m);
      Inv(w.(owners := w.owners[o := own], disk := if writeOk then Some(m) else w.disk, past := h'))
  {
    var own := Owner(w.owners[o].self, if writeOk then Ready else Raised, m);
    var w' := w.(owners := w.owners[o := own], disk := if writeOk then Some(m) else w.disk, past := h');
    SameProcesses(w.(past := h'), w');
    assert CoverOk(w'.alive, w'.past, m);
    hide SnapshotOk, ProcessesOk, HistoryOk, ChildBlocked, CoverOk;
    HolderStep(w, w', o);
  }

  lemma CompleteProcesses(w: World, own: Owner, h': History)
    requires ProcessesOk(w) && HolderOk(w, own) && own.phase.Waiting? && own.phase.child in w.past.exits
    requires h' == w.past.(completed := w.past.completed[own.phase.child := w.past.exits[own.phase.child]])
    ensures ProcessesOk(w.(past := h'))
  {
  }

  lemma CompleteMemory(w: World, own: Owner)
    requires Inv(w) && HolderOk(w, own) && own.phase.Waiting? && own.phase.child in w.past.exits
    ensures
      var code := w.past.exits[own.phase.child];
      var m := WithSettled(own.memory, FinalRecord(own.memory.active.value, code, false));
      && SnapshotOk(w.past.(completed := w.past.completed[own.phase.child := code]), Stamp(m, own.self))
      && !ChildBlocked(Stamp(m, own.self)) && NoLiveChild(w.alive, w.past)
  {
    hide DiskOk, BlockOk, HistoryOk;
    var p := own.phase.child;
    var c := own.memory.active.value;
    var h' := w.past.(completed := w.past.completed[p := w.past.exits[p]]);
    var final := FinalRecord(c, w.past.exits[p], false);
    SnapshotStays(w.past, h', own.memory);
    assert Named(c.identity) == p && RecordOk(w.past, c.name, own.memory.children[c.name]);
    SettleIsOk(h', own.memory, final);
    assert ChildBlocked(Stamp(WithSettled(own.memory, final), own.self)) <==> ChildBlocked(WithSettled(own.memory, final));
  }

  /** A timed-out child is never signalled, so its record asks for review while it may still live. */
  lemma TimeOutKeeps(w: World, o: Process)
    requires Inv(w) && Enabled(w, TimeOut(o))
    ensures Inv(Apply(w, TimeOut(o)))
  {
    var own := w.owners[o];
    assert HolderOk(w, own);
    var h' := w.past.(timedOut := w.past.timedOut + {own.phase.child});
    var m := WithActive(own.memory, own.memory.active.value.(status := NeedsReview));
    StayThrough(w, w.(past := h'), own);
    LogsStay(w.past, h');
    TimeOutProcesses(w, own, h');
    TimeOutMemory(w, own, h');
    ReviewingKeeps(w, o, h', m);
  }

  /** The owner's memory now asks for review, and so blocks every later owner once written. */
  lemma ReviewingKeeps(w: World, o: Process, h': History, m: Snapshot)
    requires Inv(w) && o in w.owners && w.lock == Some(o) && w.owners[o].phase.Waiting? && w.disk.Some? && !Blocked(w.disk.value)
    requires ProcessesOk(w.(past := h')) && HistoryOk(h') && DiskOk(w.(past := h'))
    requires SnapshotOk(h', m) && CoverOk(w.alive, h', m) && ChildBlocked(m) && m.status == Running
    requires Owns(w.(past := h'), m, w.owners[o].phase.child) && ActiveIs(m, w.owners[o].phase.name, NeedsReview)
    ensures
      var ph := w.owners[o].phase;
      Inv(w.(owners := w.owners[o := Owner(w.owners[o].self, ReviewPending(ph.name, ph.child), m)], past := h'))
  {
    var ph := w.owners[o].phase;
    var w' := w.(owners := w.owners[o := Owner(w.owners[o].self, ReviewPending(ph.name, ph.child), m)], past := h');
    SameProcesses(w.(past := h'), w');
    assert Owns(w', m, ph.child);
    hide SnapshotOk, ProcessesOk, HistoryOk, ChildBlocked, CoverOk;
    HolderStep(w, w', o);
  }

  lemma TimeOutProcesses(w: World, own: Owner, h': History)
    requires ProcessesOk(w) && HolderOk(w, own) && own.phase.Waiting?
    requires h' == w.past.(timedOut := w.past.timedOut + {own.phase.child})
    ensures ProcessesOk(w.(past := h'))
  {
  }

  lemma TimeOutMemory(w: World, own: Owner, h': History)
    requires HolderOk(w, own) && own.phase.Waiting? && SnapshotOk(h', own.memory) && h'.spawned == w.past.spawned
    ensures
      var m := WithActive(own.memory, own.memory.active.value.(status := NeedsReview));
      && SnapshotOk(h', m) && CoverOk(w.alive, h', m) && ChildBlocked(m)
      && Owns(w.(past := h'), m, own.phase.child)
  {
    var c := own.memory.active.value;
    assert RecordOk(h', c.name, own.memory.children[c.name]);
    EditIsOk(h', own.memory, c.(status := NeedsReview));
  }

  lemma WriteReviewKeeps(w: World, o: Process, writeOk: bool)
    requires Inv(w) && Enabled(w, WriteReview(o, writeOk))
    ensures Inv(Apply(w, WriteReview(o, writeOk)))
  {
    hide HistoryOk, ProcessesOk;
    var own := w.owners[o];
    assert HolderOk(w, own);
    ReviewMemory(w, own);
    ReviewRefiles(w.past, own.memory);
    WriteKeeps(w, o, Raised, own.memory.(status := NeedsReview), writeOk);
  }

  /** The record is already filed, so filing it again changes nothing. */
  lemma ReviewRefiles(h: History, m: Snapshot)
    requires ActiveOk(m) && m.active.Some?
    ensures WithActive(m, m.active.value) == m
  {
  }

  lemma ReviewMemory(w: World, own: Owner)
    requires HolderOk(w, own) && own.phase.ReviewPending?
    ensures
      var m := own.memory.(status := NeedsReview);
      SnapshotOk(w.past, m) && CoverOk(w.alive, w.past, m) && ChildBlocked(m)
  {
  }

  // --- every step, every run ---------------------------------------------------

  lemma ChildStepKeeps(w: World, step: Step)
    requires Inv(w) && Enabled(w, step) && IsChildStep(step)
    ensures Inv(Apply(w, step))
  {
    hide Inv;
    match step
    case Popen(o, p) => PopenKeeps(w, o, p);
    case PopenFails(o) => LaunchFailureKeeps(w, o);
    case ReapUnidentified(o) => LaunchFailureKeeps(w, o);
    case SettleLaunchFailure(o, ok) => SettleLaunchFailureKeeps(w, o, ok);
    case CaptureIdentity(o) => CaptureIdentityKeeps(w, o);
    case WriteIdentity(o, ok) => WriteIdentityKeeps(w, o, ok);
    case OpenLogs(o) => OpenLogsKeeps(w, o);
    case CompleteChild(o, ok) => CompleteKeeps(w, o, ok);
    case TimeOut(o) => TimeOutKeeps(w, o);
    case WriteReview(o, ok) => WriteReviewKeeps(w, o, ok);
  }

  predicate IsEnvironmentStep(step: Step) {
    step.EnvStart? || step.EnvExit? || step.Construct? || step.Crash?
  }

  lemma EnvironmentStepKeeps(w: World, step: Step)
    requires Inv(w) && Enabled(w, step) && IsEnvironmentStep(step)
    ensures Inv(Apply(w, step))
  {
    hide Inv;
    match step
    case EnvStart(p) => EnvStartKeeps(w, p);
    case EnvExit(p, code) => EnvExitKeeps(w, p, code);
    case Construct(self, runId) => ConstructKeeps(w, self, runId);
    case Crash(o, code) => CrashKeeps(w, o, code);
  }

  lemma OwnerStepKeeps(w: World, step: Step)
    requires Inv(w) && Enabled(w, step) && !IsEnvironmentStep(step) && !IsChildStep(step)
    ensures Inv(Apply(w, step))
  {
    hide Inv;
    match step
    case TryAcquire(o, order, pr, ok, lockOk) => AcquireKeeps(w, o, order, pr, ok, lockOk);
    case StartRun(o, ok) => StartRunKeeps(w, o, ok);
    case BeginChild(o, spec, logs, ok) => BeginChildKeeps(w, o, spec, logs, ok);
    case Raise(o) => RaiseKeeps(w, o);
    case Finish(o, status, ok) => FinishKeeps(w, o, status, ok);
    case Flush(o) => FlushKeeps(w, o);
    case LateFlush(o) => LateFlushKeeps(w, o);
  }

  /** Every step of every process keeps the invariant. */
  lemma StepKeeps(w: World, step: Step)
    requires Inv(w)
    ensures Inv(Next(w, step))
  {
    hide Inv;
    if Enabled(w, step) {
      if IsEnvironmentStep(step) {
        EnvironmentStepKeeps(w, step);
      } else if IsChildStep(step) {
        ChildStepKeeps(w, step);
      } else {
        OwnerStepKeeps(w, step);
      }
    }
  }

  /** Every run of any number of owners keeps the invariant. */
  lemma {:induction false} RunKeeps(w: World, steps: seq<Step>)
    requires Inv(w)
    ensures Inv(RunSteps(w, steps))
    decreases |steps|
  {
    hide Inv;
    if steps != [] {
      StepKeeps(w, steps[0]);
      RunKeeps(Next(w, steps[0]), steps[1..]);
    }
  }

  lemma StartIsOk()
    ensures Inv(START)
  {
  }
}
