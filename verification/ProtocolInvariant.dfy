/**
  What every reachable world of the evidence run satisfies.  ProtocolSteps.dfy
  proves that each step keeps it; ProtocolTheorems.dfy draws the theorems from it.
 */
module ProtocolInvariant {
  import opened Options
  import opened Processes
  import opened EvidenceState
  import opened EvidenceProtocol

  // --- one record, one snapshot ------------------------------------------

  /** A stored record tells the truth about the execution it names. */
  ghost predicate RecordOk(h: History, n: string, c: Child) {
    && c.name == n
    && (c.identity.pid.Some? <==> c.identity.token.Some?)
    && (c.status == Launching ==> c.identity == NO_IDENTITY)
    && (c.status == Running || c.status == NeedsReview || c.status == Interrupted || c.status == Passed ==> HasBoth(c.identity))
    && (HasBoth(c.identity) ==> Named(c.identity) in h.spawned && h.spawned[Named(c.identity)] == ExecOf(c))
    && (c.status == Passed ==> Named(c.identity) in h.completed && h.completed[Named(c.identity)] == 0)
  }

  /** Only the active child can be launching or running, and it is filed under its name. */
  ghost predicate ActiveOk(s: Snapshot) {
    && (forall n :: n in s.children && IsLiveStatus(s.children[n].status) ==> s.active == Some(s.children[n]))
    && (s.active.Some? ==> s.active.value.name in s.children && s.children[s.active.value.name] == s.active.value)
    && (s.active.Some? ==>
          var st := s.active.value.status;
          IsLiveStatus(st) || st == NeedsReview || (st == Failed && (s.status == Running || s.status == NeedsReview)))
  }

  /** The stored attempt of a child is never behind an attempt that was spawned. */
  ghost predicate AttemptsOk(h: History, s: Snapshot) {
    forall p :: p in h.spawned ==>
      h.spawned[p].name in s.children && h.spawned[p].attempt <= s.children[h.spawned[p].name].attempt
  }

  ghost predicate SnapshotOk(h: History, s: Snapshot) {
    && (forall n :: n in s.children ==> RecordOk(h, n, s.children[n]))
    && ActiveOk(s)
    && AttemptsOk(h, s)
  }

  /** The record of an execution is one that stops every later owner from spawning. */
  ghost predicate Covers(s: Snapshot, p: Process, e: Exec) {
    && e.name in s.children
    && var c := s.children[e.name];
       && c.attempt == e.attempt
       && (c.status == Launching || (c.status == Running && c.identity == IdentityOf(p)) || c.status == NeedsReview)
  }

  /** Write-ahead: every spawned child still alive is covered by the snapshot. */
  ghost predicate CoverOk(alive: set<Process>, h: History, s: Snapshot) {
    forall p :: p in h.spawned && p in alive ==> Covers(s, p, h.spawned[p])
  }

  ghost predicate NoLiveChild(alive: set<Process>, h: History) {
    forall p :: p in h.spawned ==> p !in alive
  }

  ghost predicate OnlyLiveChild(alive: set<Process>, h: History, p: Process) {
    forall q :: q in h.spawned && q in alive ==> q == p
  }

  /** No execution of this record's child has reached its attempt number yet. */
  ghost predicate NewAttempt(h: History, c: Child) {
    forall p :: p in h.spawned && h.spawned[p].name == c.name ==> h.spawned[p].attempt < c.attempt
  }

  ghost predicate Unhandled(h: History, p: Process) {
    p !in h.completed && p !in h.timedOut
  }

  // --- owners -------------------------------------------------------------

  /** `c` is the active record of the owner in the phase named by `n`, with the given status. */
  ghost predicate ActiveIs(m: Snapshot, n: string, st: Status) {
    m.active.Some? && m.active.value.name == n && m.active.value.status == st
  }

  /** The spawned process that an owner waits for is the one its record describes. */
  ghost predicate Owns(w: World, m: Snapshot, p: Process) {
    && m.active.Some?
    && p in w.past.spawned && w.past.spawned[p] == ExecOf(m.active.value)
    && OnlyLiveChild(w.alive, w.past, p)
  }

  ghost predicate LaunchDurable(disk: Option<Snapshot>, m: Snapshot) {
    && m.active.Some? && disk.Some?
    && m.active.value.name in disk.value.children
    && disk.value.children[m.active.value.name] == m.active.value
  }

  ghost predicate PhaseOk(w: World, ph: Phase, m: Snapshot) {
    match ph
    case Fresh => true
    case Done => true
    case Held => m.active.None? && !Blocked(m) && NoLiveChild(w.alive, w.past)
    case Ready => m.status == Running && m.active.None? && !ChildBlocked(m) && NoLiveChild(w.alive, w.past)
    case LaunchWritten(n) =>
      && m.status == Running && ActiveIs(m, n, Launching) && !ChildBlocked(m)
      && NoLiveChild(w.alive, w.past) && LaunchDurable(w.disk, m) && NewAttempt(w.past, m.active.value)
    case Spawned(n, p) =>
      && m.status == Running && ActiveIs(m, n, Launching) && !ChildBlocked(m) && LaunchDurable(w.disk, m)
      && Owns(w, m, p) && Unhandled(w.past, p) && (n, m.active.value.attempt) !in w.past.logs
    case LaunchFailing(n) =>
      m.status == Running && ActiveIs(m, n, Failed) && !ChildBlocked(m) && NoLiveChild(w.alive, w.past)
    case Identified(n, p) =>
      && m.status == Running && ActiveIs(m, n, Running) && !ChildBlocked(m)
      && Owns(w, m, p) && m.active.value.identity == IdentityOf(p)
      && Unhandled(w.past, p) && (n, m.active.value.attempt) !in w.past.logs
    case Waiting(n, p, open) =>
      && m.status == Running && ActiveIs(m, n, Running) && !ChildBlocked(m)
      && Owns(w, m, p) && m.active.value.identity == IdentityOf(p)
      && Unhandled(w.past, p) && (!open ==> (n, m.active.value.attempt) !in w.past.logs)
    case ReviewPending(n, p) =>
      && m.status == Running && ActiveIs(m, n, NeedsReview) && Owns(w, m, p) && ChildBlocked(m)
    case Raised => (m.active.Some? ==> m.active.value.status != Failed) && (m.status == NeedsReview ==> ChildBlocked(m))
  }

  /** The lock holder's memory is as good as the disk. */
  ghost predicate HolderOk(w: World, own: Owner) {
    && SnapshotOk(w.past, own.memory)
    && CoverOk(w.alive, w.past, own.memory)
    && PhaseOk(w, own.phase, own.memory)
    && (w.disk.None? ==> (own.phase.Held? || own.phase.Raised?) && own.memory.children == map[])
  }

  /** An owner that gave the lock back with a child in needs_review may still flush. */
  ghost predicate DoneOk(w: World, own: Owner) {
    own.phase.Done? && ChildBlocked(own.memory) ==>
      && w.lock.None? && w.disk.Some? && ChildBlocked(w.disk.value)
      && SnapshotOk(w.past, own.memory) && CoverOk(w.alive, w.past, own.memory)
  }

  ghost predicate FreshOk(w: World, own: Owner) {
    own.phase.Fresh? && w.disk.None? ==>
      own.memory.children == map[] && own.memory.active.None? && own.memory.status == Created
  }

  ghost predicate OwnersOk(w: World) {
    && (forall o :: o in w.owners ==> w.owners[o].self.process == o && (Holding(w.owners[o].phase) <==> w.lock == Some(o)))
    && (w.lock.Some? ==> w.lock.value in w.owners && HolderOk(w, w.owners[w.lock.value]))
    && (forall o :: o in w.owners ==> DoneOk(w, w.owners[o]))
    && (forall o :: o in w.owners ==> FreshOk(w, w.owners[o]))
  }

  ghost predicate DiskOk(w: World) {
    match w.disk
    case None => w.past.spawned == map[]
    case Some(s) => SnapshotOk(w.past, s) && CoverOk(w.alive, w.past, s)
  }

  ghost predicate ReviewPhase(ph: Phase) {
    ph.ReviewPending? || ph.Raised?
  }

  /** While the disk is blocked nobody but an owner on its way out holds the lock. */
  ghost predicate BlockOk(w: World) {
    w.disk.Some? && Blocked(w.disk.value) && w.lock.Some? && w.lock.value in w.owners ==>
      ReviewPhase(w.owners[w.lock.value].phase) && ChildBlocked(w.owners[w.lock.value].memory) && ChildBlocked(w.disk.value)
  }

  // --- processes and history ----------------------------------------------

  ghost predicate ProcessesOk(w: World) {
    && OnePerPid(w.alive)
    && w.alive <= w.ever
    && w.past.spawned.Keys <= w.ever
    && w.owners.Keys <= w.alive
    && w.owners.Keys !! w.past.spawned.Keys
    && w.past.exits.Keys <= w.ever - w.alive
    && (forall p :: p in w.past.completed ==> p in w.past.spawned && p in w.past.exits && w.past.completed[p] == w.past.exits[p])
    && w.past.timedOut <= w.past.spawned.Keys
    && w.past.timedOut !! w.past.completed.Keys
  }

  ghost predicate Logged(h: History, entry: (string, nat)) {
    exists p :: p in h.spawned && h.spawned[p].name == entry.0 && h.spawned[p].attempt == entry.1
  }

  /** The execution answers the request: one child, one command line, one place, one environment, one source. */
  ghost predicate Answers(e: Exec, spec: Spec, self: Self) {
    && e.name == spec.name && e.command == CommandPrint(spec.command, spec.cwd, self.environment) && e.source == self.source
    && e.cacheable && spec.cacheable
  }

  ghost predicate ReuseOk(h: History, r: Reuse) {
    && HasBoth(r.execution) && r.logsExist
    && Named(r.execution) in h.completed && h.completed[Named(r.execution)] == 0
    && Named(r.execution) in h.spawned && Answers(h.spawned[Named(r.execution)], r.spec, r.self)
  }

  ghost predicate HistoryOk(h: History) {
    && (forall p :: p in h.order <==> p in h.spawned)
    && (forall i, j :: 0 <= i < j < |h.order| && h.spawned[h.order[i]].name == h.spawned[h.order[j]].name ==>
          h.spawned[h.order[i]].attempt < h.spawned[h.order[j]].attempt)
    && (forall i, j :: 0 <= i < j < |h.logs| ==> h.logs[i] != h.logs[j])
    && (forall i :: 0 <= i < |h.logs| ==> Logged(h, h.logs[i]))
    && (forall i :: 0 <= i < |h.reused| ==> ReuseOk(h, h.reused[i]))
  }

  ghost predicate Inv(w: World) {
    ProcessesOk(w) && HistoryOk(w.past) && DiskOk(w) && OwnersOk(w) && BlockOk(w)
  }
}
