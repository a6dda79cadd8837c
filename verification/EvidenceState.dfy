/**
  The durable state of an evidence run (state.json) and the decisions that
  `ObservedRun` of scripts/regression_common.py takes from it, as values.
  The class in ObservedRun.dfy is proved against these functions, and the
  protocol in EvidenceProtocol.dfy is built from them.
 */
module EvidenceState {
  import opened Options
  import opened Processes

  /** Run and child status strings; both fields draw on the same words. */
  datatype Status = Created | Launching | Running | NeedsReview | Interrupted | Failed | Passed

  /** The hashed {command, cwd, environment}; the hash is taken to be injective. */
  datatype CommandPrint = CommandPrint(command: seq<string>, cwd: string, environment: string)

  /** One entry of state["children"]. */
  datatype Child = Child(name: string, attempt: nat, status: Status, command: CommandPrint, source: string,
                         cacheable: bool, identity: Identity, returncode: Option<int>)

  /** The parts of state.json that any decision reads. */
  datatype Snapshot = Snapshot(runId: string, status: Status, owner: Identity,
                               children: map<string, Child>, active: Option<Child>)

  /** What one owner process knows about itself: identity and fingerprints. */
  datatype Self = Self(process: Process, source: string, environment: string)

  /** What a caller asks run_child to run. */
  datatype Spec = Spec(name: string, command: seq<string>, cwd: string, cacheable: bool)

  const NO_IDENTITY := Identity(None, None)

  function InitialSnapshot(runId: string, self: Self): Snapshot {
    Snapshot(runId, Created, IdentityOf(self.process), map[], None)
  }

  /** Every write stamps the writer as owner. */
  function Stamp(s: Snapshot, self: Self): Snapshot {
    s.(owner := IdentityOf(self.process))
  }

  /** Store a record that is also the active child (the two are one object in memory). */
  function WithActive(s: Snapshot, c: Child): Snapshot {
    s.(children := s.children[c.name := c], active := Some(c))
  }

  /** Store a finished record and clear the active child. */
  function WithSettled(s: Snapshot, c: Child): Snapshot {
    s.(children := s.children[c.name := c], active := None)
  }

  function PrintOf(spec: Spec, self: Self): CommandPrint {
    CommandPrint(spec.command, spec.cwd, self.environment)
  }

  function NextAttempt(s: Snapshot, name: string): nat {
    if name in s.children then s.children[name].attempt + 1 else 1
  }

  /** The record written before the process is spawned. */
  function LaunchRecord(s: Snapshot, spec: Spec, self: Self): Child {
    Child(spec.name, NextAttempt(s, spec.name), Launching, PrintOf(spec, self), self.source, spec.cacheable, NO_IDENTITY, None)
  }

  /** _reusable_child: may the stored result stand for this request? */
  predicate Reusable(s: Snapshot, spec: Spec, self: Self, logsExist: bool) {
    && spec.cacheable
    && spec.name in s.children
    && var previous := s.children[spec.name];
       && previous.status == Passed
       && previous.cacheable
       && previous.command == PrintOf(spec, self)
       && previous.source == self.source
       && logsExist
  }

  function FinalRecord(c: Child, returncode: int, timedOut: bool): Child {
    c.(status := if returncode == 0 && !timedOut then Passed else Failed, returncode := Some(returncode))
  }

  predicate IsLiveStatus(st: Status) {
    st == Launching || st == Running
  }

  predicate ChildBlocked(s: Snapshot) {
    exists n :: n in s.children && s.children[n].status == NeedsReview
  }

  /** Acquire refuses such a state until an operator edits it. */
  predicate Blocked(s: Snapshot) {
    s.status == NeedsReview || ChildBlocked(s)
  }

  /** A record caught in the spawn window: alive perhaps, but with no identity to probe. */
  predicate Unidentified(c: Child) {
    c.status == Launching || (c.status == Running && !HasBoth(c.identity))
  }

  /** The same test as _mark_previous_run_interrupted phrases it: only the PID is looked at. */
  predicate Unspawned(c: Child) {
    c.status == Launching || (c.status == Running && c.identity.pid.None?)
  }

  predicate AllPassed(s: Snapshot) {
    forall n :: n in s.children ==> s.children[n].status == Passed
  }

  // --- acquire -----------------------------------------------------------

  /** Why an acquire that got the OS lock gave it up again. */
  datatype Refusal =
    | RunIdChanged
    | ReviewRequired
    | IdentityMissing
    | ProbeUnknown
    | ChildStillLive
    | OwnerProbeUnknown
    | OwnerStillLive
    | WriteFailed

  /** The memory and disk an acquire leaves behind, and whether it kept the lock. */
  datatype AcquireResult =
    | Acquired(state: Snapshot, disk: Option<Snapshot>)
    | Refused(why: Refusal, disk: Option<Snapshot>, state: Snapshot)

  /**
    The probe answers one acquire can receive, in the order it asks: the active
    child, the previous owner, the active child again (twice), and each running
    child.  Separate probes of one process may disagree, because time passes.
   */
  datatype Probes = Probes(active: Probe, owner: Probe, activeAgain: Probe, activeMatch: Probe,
                           children: map<string, Probe>)

  function ChildProbe(pr: Probes, name: string): Probe {
    if name in pr.children then pr.children[name] else Unknown
  }

  /** A refusal that tries to record its reason; a failed write leaves the old snapshot. */
  function RefuseAndWrite(why: Refusal, disk: Option<Snapshot>, s: Snapshot, self: Self, writeOk: bool): AcquireResult {
    Refused(if writeOk then why else WriteFailed, if writeOk then Some(Stamp(s, self)) else disk, Stamp(s, self))
  }

  /** process_identity_matches: the boolean probe of _active_child_alive. */
  predicate Matches(id: Identity, probe: Probe) {
    StateOf(id, probe) == IsLive
  }

  /** How the walk over the recorded children ends. */
  datatype Sweep = Swept(children: map<string, Child>)
                 | SweepUnknown(children: map<string, Child>)
                 | SweepLive(children: map<string, Child>)

  /** The loop of _mark_previous_run_interrupted over the children in `order`. */
  function SweepChildren(children: map<string, Child>, order: seq<string>, pr: Probes): Sweep {
    if order == [] then Swept(children)
    else
      var n := order[0];
      if n !in children || children[n].status != Running then SweepChildren(children, order[1..], pr)
      else
        var c := children[n];
        match StateOf(c.identity, ChildProbe(pr, n))
        case IsUnknown => SweepUnknown(children)
        case IsLive => SweepLive(children)
        case _ => SweepChildren(children[n := c.(status := Interrupted)], order[1..], pr)
  }

  /** Close the active child as interrupted, filing it under its own name. */
  function InterruptActive(s: Snapshot): Snapshot {
    if s.active.Some? && s.active.value.status == Running
    then WithSettled(s, s.active.value.(status := Interrupted))
    else s.(active := None)
  }

  /** _mark_previous_run_interrupted, entered with the previous owner known to be gone. */
  function TakeOver(s: Snapshot, disk: Option<Snapshot>, order: seq<string>, pr: Probes, self: Self, writeOk: bool): AcquireResult {
    if (exists n :: n in s.children && Unspawned(s.children[n])) || (s.active.Some? && Unspawned(s.active.value)) then
      RefuseAndWrite(IdentityMissing, disk, s.(status := NeedsReview), self, writeOk)
    else if s.active.Some? && s.active.value.status == Running && StateOf(s.active.value.identity, pr.activeAgain) == IsUnknown then
      RefuseAndWrite(ProbeUnknown, disk, s.(status := NeedsReview), self, writeOk)
    else if s.active.Some? && s.active.value.status == Running && StateOf(s.active.value.identity, pr.activeAgain) == IsLive then
      Refused(ChildStillLive, disk, s)
    else if s.active.Some? && Matches(s.active.value.identity, pr.activeMatch) then
      Refused(ChildStillLive, disk, s)
    else
      match SweepChildren(s.children, order, pr)
      case SweepUnknown(cs) => RefuseAndWrite(ProbeUnknown, disk, s.(children := cs, status := NeedsReview), self, writeOk)
      case SweepLive(cs) => Refused(ChildStillLive, disk, s.(children := cs))
      case Swept(cs) =>
        var taken := Stamp(InterruptActive(s.(children := cs)).(status := Interrupted), self);
        if writeOk then Acquired(taken, Some(taken)) else Refused(WriteFailed, disk, taken)
  }

  /** The tail of acquire: the previous owner's fate, once the active child is settled or probed dead. */
  function AcquireOwner(s: Snapshot, disk: Option<Snapshot>, order: seq<string>, pr: Probes, self: Self, writeOk: bool): AcquireResult {
    if s.status != Running then Acquired(s, disk)
    else
      match StateOf(s.owner, pr.owner)
      case IsUnknown => RefuseAndWrite(OwnerProbeUnknown, disk, s.(status := NeedsReview), self, writeOk)
      case IsLive => Refused(OwnerStillLive, disk, s)
      case _ => TakeOver(s, disk, order, pr, self, writeOk)
  }

  /** acquire, from the point where the active child has to be settled. */
  function AcquireActive(s: Snapshot, disk: Option<Snapshot>, order: seq<string>, pr: Probes, self: Self, writeOk: bool): AcquireResult {
    if s.active.Some? && IsLiveStatus(s.active.value.status) then
      var a := s.active.value;
      if Unidentified(a) then RefuseAndWrite(IdentityMissing, disk, s.(status := NeedsReview), self, writeOk)
      else
        match StateOf(a.identity, pr.active)
        case IsUnknown => RefuseAndWrite(ProbeUnknown, disk, s.(status := NeedsReview), self, writeOk)
        case IsLive => Refused(ChildStillLive, disk, s)
        case _ =>
          if s.status == Running then AcquireOwner(s, disk, order, pr, self, writeOk)
          else
            var settled := Stamp(InterruptActive(s), self);
            if !writeOk then Refused(WriteFailed, disk, settled)
            else AcquireOwner(settled, Some(settled), order, pr, self, writeOk)
    else AcquireOwner(s, disk, order, pr, self, writeOk)
  }

  /**
    acquire, from the moment the OS lock is held.  `memory` is what the
    constructor left; the snapshot on disk replaces it.  `lockWriteOk` is the
    rewrite of run.lock (and the event append) at the end.
   */
  function Acquire(memory: Snapshot, disk: Option<Snapshot>, order: seq<string>, pr: Probes, self: Self,
                   writeOk: bool, lockWriteOk: bool): AcquireResult
  {
    var s := if disk.Some? then disk.value else memory;
    if s.runId != memory.runId then Refused(RunIdChanged, disk, memory)
    else if Blocked(s) then RefuseAndWrite(ReviewRequired, disk, s, self, writeOk)
    else if exists n :: n in s.children && Unidentified(s.children[n]) then
      RefuseAndWrite(IdentityMissing, disk, s.(status := NeedsReview), self, writeOk)
    else
      var r := AcquireActive(s, disk, order, pr, self, writeOk);
      if r.Acquired? && !lockWriteOk then Refused(WriteFailed, r.disk, r.state) else r
  }
}
