/**
  The evidence run of scripts/regression_common.py as a transition system:
  any number of owner processes, one OS lock, one state.json, the children
  they spawn, and an environment that starts and ends processes and may reuse
  a PID with a new start token.

  One `Step` is one stretch of source between two points where another thread
  or process can run, or where the owner can die.  Every forced write carries a
  flag saying whether it reached the disk; a failed one raises.

  Assumptions built into the steps:
  - the OS lock is exclusive and falls free when its holder dies;
  - a (pid, token) pair names one process ever, and no PID runs two at a time;
  - replacing state.json is atomic (AtomicWrite.dfy shows why);
  - threads of an owner stop writing once it has released the lock.  One
    exception is allowed: an owner whose memory holds a child in needs_review
    may go on flushing (`LateFlush`), as its reader threads cannot end while
    that child lives;
  - callers follow the loop of scripts/run_p0_safety_gate.py: after an
    exception from run_child they only finish as failed, or exit.
 */
module EvidenceProtocol {
  import opened Options
  import opened Processes
  import opened EvidenceState

  /** Where an owner process is between two steps. */
  datatype Phase =
    | Fresh                                                  // constructed, or refused by acquire
    | Held                                                   // acquire returned
    | Ready                                                  // run started, no child in progress
    | LaunchWritten(name: string)                            // launching record durable, nothing spawned yet
    | Spawned(name: string, child: Process)                  // Popen returned, record still launching
    | LaunchFailing(name: string)                            // record failed in memory, still the active child
    | Identified(name: string, child: Process)               // identity in memory, its forced write pending
    | Waiting(name: string, child: Process, logsOpen: bool)  // identity written, in process.wait
    | ReviewPending(name: string, child: Process)            // record needs_review in memory, forced write pending
    | Raised                                                 // an exception left run_child, start or finish
    | Done                                                   // lock released

  datatype Owner = Owner(self: Self, phase: Phase, memory: Snapshot)

  /** One spawn that really happened. */
  datatype Exec = Exec(name: string, attempt: nat, command: CommandPrint, source: string, cacheable: bool)

  /** One result handed out without running anything: the request, who made it, whether the logs were there, and the execution it stands on. */
  datatype Reuse = Reuse(spec: Spec, self: Self, logsExist: bool, execution: Identity)

  /** What really happened so far; no step reads it. */
  datatype History = History(
    spawned: map<Process, Exec>,
    order: seq<Process>,            // spawns in time order
    exits: map<Process, int>,       // every process that ended, with its exit code
    completed: map<Process, int>,   // children whose wait returned before the timeout, with the code it returned
    timedOut: set<Process>,         // children whose wait timed out or was interrupted
    started: seq<Process>,          // owners that passed start()
    logs: seq<(string, nat)>,       // (child name, attempt) whose log files were opened for writing
    reused: seq<Reuse>)

  datatype World = World(
    alive: set<Process>,
    ever: set<Process>,
    lock: Option<Process>,
    disk: Option<Snapshot>,
    owners: map<Process, Owner>,
    past: History)

  const START := World({}, {}, None, None, map[], History(map[], [], map[], map[], {}, [], [], []))

  datatype Step =
    | EnvStart(p: Process)
    | EnvExit(p: Process, code: int)
    | Construct(self: Self, runId: string)
    | TryAcquire(o: Process, order: seq<string>, probes: Probes, writeOk: bool, lockWriteOk: bool)
    | StartRun(o: Process, writeOk: bool)
    | BeginChild(o: Process, spec: Spec, logsExist: bool, writeOk: bool)
    | Popen(o: Process, p: Process)
    | PopenFails(o: Process)
    | ReapUnidentified(o: Process)
    | SettleLaunchFailure(o: Process, writeOk: bool)
    | CaptureIdentity(o: Process)
    | WriteIdentity(o: Process, writeOk: bool)
    | OpenLogs(o: Process)
    | CompleteChild(o: Process, writeOk: bool)
    | TimeOut(o: Process)
    | WriteReview(o: Process, writeOk: bool)
    | Raise(o: Process)
    | Finish(o: Process, status: Status, writeOk: bool)
    | Flush(o: Process)
    | LateFlush(o: Process)
    | Crash(o: Process, code: int)

  /** Who acts in a step; the environment is nobody. */
  function Actor(step: Step): Option<Process> {
    match step
    case EnvStart(_) => None
    case EnvExit(_, _) => None
    case Construct(self, _) => Some(self.process)
    case TryAcquire(o, _, _, _, _) => Some(o)
    case _ => Some(step.o)
  }

  predicate Holding(ph: Phase) {
    !ph.Fresh? && !ph.Done?
  }

  /** The heartbeat and reader threads may write in these phases. */
  predicate Flushing(ph: Phase) {
    Holding(ph) && !ph.Held?
  }

  function ExecOf(c: Child): Exec {
    Exec(c.name, c.attempt, c.command, c.source, c.cacheable)
  }

  predicate Unused(w: World, p: Process) {
    p !in w.ever && forall q :: q in w.alive ==> q.pid != p.pid
  }

  /**
    A probe answer a step may use.  Only "dead" answers must be true when the
    step happens: a live answer may be stale by then, an unknown one says nothing.
    `TruthfulAnswersLast` in ProtocolTheorems.dfy derives this from a sound probe.
   */
  predicate Truthful(alive: set<Process>, id: Identity, probe: Probe) {
    SaysDead(id, probe) ==> Named(id) !in alive
  }

  predicate TruthfulProbes(w: World, s: Snapshot, pr: Probes) {
    && Truthful(w.alive, s.owner, pr.owner)
    && (s.active.Some? ==> Truthful(w.alive, s.active.value.identity, pr.active))
    && (s.active.Some? ==> Truthful(w.alive, s.active.value.identity, pr.activeAgain))
    && forall n :: n in s.children ==> Truthful(w.alive, s.children[n].identity, ChildProbe(pr, n))
  }

  /** `order` walks the children of `s`, each once. */
  predicate Enumerates(order: seq<string>, s: Snapshot) {
    && (forall n :: n in order ==> n in s.children)
    && (forall n :: n in s.children ==> n in order)
    && (forall i, j :: 0 <= i < j < |order| ==> order[i] != order[j])
  }

  /** An owner with an active record; every owner inside run_child has one. */
  predicate InProgress(w: World, o: Process) {
    o in w.owners && w.owners[o].memory.active.Some?
  }

  predicate Enabled(w: World, step: Step) {
    match step
    case EnvStart(p) => Unused(w, p)
    case EnvExit(p, _) => p in w.alive && p !in w.owners
    case Construct(self, _) => Unused(w, self.process)
    case TryAcquire(o, order, pr, _, _) =>
      && o in w.owners && w.owners[o].phase.Fresh? && w.lock.None?
      && var s := if w.disk.Some? then w.disk.value else w.owners[o].memory;
         TruthfulProbes(w, s, pr) && Enumerates(order, s)
    case StartRun(o, _) => o in w.owners && w.owners[o].phase.Held?
    case BeginChild(o, _, _, _) => o in w.owners && w.owners[o].phase.Ready?
    case Popen(o, p) => InProgress(w, o) && w.owners[o].phase.LaunchWritten? && Unused(w, p)
    case PopenFails(o) => InProgress(w, o) && w.owners[o].phase.LaunchWritten?
    case ReapUnidentified(o) => InProgress(w, o) && w.owners[o].phase.Spawned? && w.owners[o].phase.child !in w.alive
    case SettleLaunchFailure(o, _) => InProgress(w, o) && w.owners[o].phase.LaunchFailing?
    case CaptureIdentity(o) => InProgress(w, o) && w.owners[o].phase.Spawned?
    case WriteIdentity(o, _) => InProgress(w, o) && w.owners[o].phase.Identified?
    case OpenLogs(o) => InProgress(w, o) && w.owners[o].phase.Waiting? && !w.owners[o].phase.logsOpen
    case CompleteChild(o, _) => InProgress(w, o) && w.owners[o].phase.Waiting? && w.owners[o].phase.child in w.past.exits
    case TimeOut(o) => InProgress(w, o) && w.owners[o].phase.Waiting?
    case WriteReview(o, _) => InProgress(w, o) && w.owners[o].phase.ReviewPending?
    case Raise(o) =>
      && o in w.owners
      && var ph := w.owners[o].phase;
         ph.Ready? || ph.LaunchWritten? || ph.Spawned? || ph.Identified? || ph.Waiting?
    case Finish(o, status, _) =>
      && o in w.owners
      && var own := w.owners[o];
         if status == Passed then own.phase.Ready? && AllPassed(own.memory)
         else (status == Failed || status == Interrupted) && (own.phase.Ready? || own.phase.Raised?)
    case Flush(o) => o in w.owners && Flushing(w.owners[o].phase)
    case LateFlush(o) => o in w.owners && w.owners[o].phase.Done? && ChildBlocked(w.owners[o].memory)
    case Crash(o, _) => o in w.owners
  }

  // --- how a step changes the world --------------------------------------

  function Put(w: World, o: Process, ph: Phase, memory: Snapshot): World
    requires o in w.owners
  {
    w.(owners := w.owners[o := Owner(w.owners[o].self, ph, memory)])
  }

  /** A forced write of `memory`: on success memory and disk agree and `next` is reached, else Raised. */
  function PutAndWrite(w: World, o: Process, next: Phase, memory: Snapshot, writeOk: bool): World
    requires o in w.owners
  {
    var stamped := Stamp(memory, w.owners[o].self);
    if writeOk then Put(w, o, next, stamped).(disk := Some(stamped)) else Put(w, o, Raised, stamped)
  }

  function AcquireStep(w: World, o: Process, order: seq<string>, pr: Probes, writeOk: bool, lockWriteOk: bool): World
    requires o in w.owners
  {
    match Acquire(w.owners[o].memory, w.disk, order, pr, w.owners[o].self, writeOk, lockWriteOk)
    case Acquired(s, disk) => Put(w, o, Held, s).(disk := disk, lock := Some(o))
    case Refused(_, disk, s) => Put(w, o, Fresh, s).(disk := disk)
  }

  function BeginStep(w: World, o: Process, spec: Spec, logsExist: bool, writeOk: bool): World
    requires o in w.owners
  {
    var own := w.owners[o];
    if Reusable(own.memory, spec, own.self, logsExist) then
      var event := Reuse(spec, own.self, logsExist, own.memory.children[spec.name].identity);
      PutAndWrite(w, o, Ready, own.memory, writeOk).(past := w.past.(reused := w.past.reused + [event]))
    else
      PutAndWrite(w, o, LaunchWritten(spec.name), WithActive(own.memory, LaunchRecord(own.memory, spec, own.self)), writeOk)
  }

  function ActiveOf(w: World, o: Process): Child
    requires o in w.owners && w.owners[o].memory.active.Some?
  {
    w.owners[o].memory.active.value
  }

  /** Change the active child's record in memory only. */
  function Edit(w: World, o: Process, next: Phase, c: Child): World
    requires o in w.owners
  {
    Put(w, o, next, WithActive(w.owners[o].memory, c))
  }

  function PopenStep(w: World, o: Process, p: Process): World
    requires o in w.owners && w.owners[o].phase.LaunchWritten? && w.owners[o].memory.active.Some?
  {
    Put(w, o, Spawned(w.owners[o].phase.name, p), w.owners[o].memory).(
      alive := w.alive + {p}, ever := w.ever + {p},
      past := w.past.(spawned := w.past.spawned[p := ExecOf(ActiveOf(w, o))], order := w.past.order + [p]))
  }

  function CompleteStep(w: World, o: Process, writeOk: bool): World
    requires o in w.owners && w.owners[o].phase.Waiting? && w.owners[o].memory.active.Some?
    requires w.owners[o].phase.child in w.past.exits
  {
    var p := w.owners[o].phase.child;
    var code := w.past.exits[p];
    PutAndWrite(w, o, Ready, WithSettled(w.owners[o].memory, FinalRecord(ActiveOf(w, o), code, false)), writeOk).(
      past := w.past.(completed := w.past.completed[p := code]))
  }

  function FinishStep(w: World, o: Process, status: Status, writeOk: bool): World
    requires o in w.owners
  {
    var w' := PutAndWrite(w, o, Done, w.owners[o].memory.(status := status), writeOk);
    if writeOk then w'.(lock := None) else w'
  }

  function CrashStep(w: World, o: Process, code: int): World
    requires o in w.owners
  {
    w.(alive := w.alive - {o}, owners := w.owners - {o}, lock := if w.lock == Some(o) then None else w.lock,
       past := w.past.(exits := w.past.exits[o := code]))
  }

  /** The world after a step. */
  function Apply(w: World, step: Step): World
    requires Enabled(w, step)
  {
    match step
    case EnvStart(p) => w.(alive := w.alive + {p}, ever := w.ever + {p})
    case EnvExit(p, code) => w.(alive := w.alive - {p}, past := w.past.(exits := w.past.exits[p := code]))
    case Construct(self, runId) =>
      w.(alive := w.alive + {self.process}, ever := w.ever + {self.process},
         owners := w.owners[self.process := Owner(self, Fresh, if w.disk.Some? then w.disk.value else InitialSnapshot(runId, self))])
    case TryAcquire(o, order, pr, writeOk, lockWriteOk) => AcquireStep(w, o, order, pr, writeOk, lockWriteOk)
    case StartRun(o, writeOk) =>
      var w' := PutAndWrite(w, o, Ready, w.owners[o].memory.(status := Running), writeOk);
      w'.(past := w.past.(started := w.past.started + [o]))
    case BeginChild(o, spec, logsExist, writeOk) => BeginStep(w, o, spec, logsExist, writeOk)
    case Raise(o) => Put(w, o, Raised, w.owners[o].memory)
    case Finish(o, status, writeOk) => FinishStep(w, o, status, writeOk)
    case Flush(o) => PutAndWrite(w, o, w.owners[o].phase, w.owners[o].memory, true)
    case LateFlush(o) => PutAndWrite(w, o, Done, w.owners[o].memory, true)
    case Crash(o, code) => CrashStep(w, o, code)
    case _ => ChildStep(w, step)
  }

  predicate IsChildStep(step: Step) {
    step.Popen? || step.PopenFails? || step.ReapUnidentified? || step.SettleLaunchFailure? || step.CaptureIdentity?
    || step.WriteIdentity? || step.OpenLogs? || step.CompleteChild? || step.TimeOut? || step.WriteReview?
  }

  /** The steps of run_child after the launching record is written. */
  function ChildStep(w: World, step: Step): World
    requires IsChildStep(step) && Enabled(w, step)
  {
    var o := step.o;
    var own := w.owners[o];
    var c := own.memory.active.value;
    match step
    case Popen(_, p) => PopenStep(w, o, p)
    case PopenFails(_) => Edit(w, o, LaunchFailing(own.phase.name), c.(status := Failed))
    case ReapUnidentified(_) => Edit(w, o, LaunchFailing(own.phase.name), c.(status := Failed))
    case SettleLaunchFailure(_, writeOk) =>
      var settled := own.memory.(active := None);
      PutAndWrite(w, o, Raised, settled, writeOk)
    case CaptureIdentity(_) =>
      Edit(w, o, Identified(own.phase.name, own.phase.child), c.(status := Running, identity := IdentityOf(own.phase.child)))
    case WriteIdentity(_, writeOk) => PutAndWrite(w, o, Waiting(own.phase.name, own.phase.child, false), own.memory, writeOk)
    case OpenLogs(_) =>
      Put(w, o, Waiting(own.phase.name, own.phase.child, true), own.memory).(
        past := w.past.(logs := w.past.logs + [(c.name, c.attempt)]))
    case CompleteChild(_, writeOk) => CompleteStep(w, o, writeOk)
    case TimeOut(_) =>
      Edit(w, o, ReviewPending(own.phase.name, own.phase.child), c.(status := NeedsReview)).(
        past := w.past.(timedOut := w.past.timedOut + {own.phase.child}))
    case WriteReview(_, writeOk) => PutAndWrite(w, o, Raised, WithActive(own.memory, c).(status := NeedsReview), writeOk)
  }

  /** The step when it is possible, and nothing otherwise. */
  function Next(w: World, step: Step): World {
    if Enabled(w, step) then Apply(w, step) else w
  }

  function RunSteps(w: World, steps: seq<Step>): World
    decreases |steps|
  {
    if steps == [] then w else RunSteps(Next(w, steps[0]), steps[1..])
  }
}
