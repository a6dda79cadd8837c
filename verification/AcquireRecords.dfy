/**
  What an acquire does to the stored run, record by record, and what each of
  its refusals means: the other half of AcquireFacts.dfy, which says why the
  outcome is safe.
 */
module AcquireRecords {
  import opened Options
  import opened Processes
  import opened EvidenceState
  import opened EvidenceProtocol
  import opened ProtocolInvariant
  import opened AcquireFacts

  /** The running records, and no others, are interrupted; nothing else about any record changes. */
  function AllInterrupted(records: map<string, Child>): map<string, Child> {
    map n | n in records :: if records[n].status == Running then records[n].(status := Interrupted) else records[n]
  }

  ghost predicate SomeRunning(s: Snapshot) {
    exists n :: n in s.children && s.children[n].status == Running
  }

  /** `s` as a new owner takes it over, and the disk that goes with it. */
  ghost predicate Resumed(s: Snapshot, disk: Option<Snapshot>, state: Snapshot, disk': Option<Snapshot>, self: Self) {
    && state.children == AllInterrupted(s.children) && state.active.None? && state.runId == s.runId
    && state.status == (if s.status == Running then Interrupted else s.status)
    && if s.status == Running || SomeRunning(s)
       then state.owner == IdentityOf(self.process) && disk' == Some(state)
       else state.owner == s.owner && disk' == disk
  }

  /** The same run, with the writer as owner and a request for review. */
  function InDoubt(s: Snapshot, self: Self): Snapshot {
    s.(status := NeedsReview, owner := IdentityOf(self.process))
  }

  /** Some probe of the active child answered so. */
  ghost predicate ChildProbed(s: Snapshot, pr: Probes, answer: IdentityState) {
    && s.active.Some?
    && var id := s.active.value.identity;
       StateOf(id, pr.active) == answer || StateOf(id, pr.activeAgain) == answer || StateOf(id, pr.activeMatch) == answer
       || StateOf(id, ChildProbe(pr, s.active.value.name)) == answer
  }

  /** The refusal is for the reason it names, and leaves the disk as that reason asks. */
  ghost predicate RefusedFor(memory: Snapshot, s: Snapshot, disk: Option<Snapshot>, pr: Probes, self: Self, writeOk: bool, lockWriteOk: bool,
                             why: Refusal, disk': Option<Snapshot>, state: Snapshot)
  {
    && (why == RunIdChanged <==> s.runId != memory.runId)
    && (why != RunIdChanged && why != WriteFailed ==> (why == ReviewRequired <==> Blocked(s)))
    && (why != RunIdChanged && why != WriteFailed && !Blocked(s) ==>
          (why == IdentityMissing <==> exists n :: n in s.children && Unidentified(s.children[n])))
    && match why
    case RunIdChanged => disk' == disk
    case ReviewRequired => disk' == Some(s.(owner := IdentityOf(self.process)))
    case IdentityMissing => disk' == Some(InDoubt(s, self))
    case ProbeUnknown => ChildProbed(s, pr, IsUnknown) && disk' == Some(InDoubt(s, self))
    case ChildStillLive => ChildProbed(s, pr, IsLive) && disk' == disk
    case OwnerProbeUnknown => s.status == Running && StateOf(s.owner, pr.owner) == IsUnknown && disk' == Some(InDoubt(s, self))
    case OwnerStillLive => s.status == Running && StateOf(s.owner, pr.owner) == IsLive && disk' == disk
    case WriteFailed => (!writeOk && disk' == disk) || (!lockWriteOk && Resumed(s, disk, state, disk', self))
  }

  /** The outcome of the stretches of acquire that come after the checks on the stored state. */
  ghost predicate SettledWell(s: Snapshot, disk: Option<Snapshot>, pr: Probes, self: Self, writeOk: bool, r: AcquireResult) {
    match r
    case Acquired(state, disk') => Resumed(s, disk, state, disk', self)
    case Refused(why, disk', state) => why != RunIdChanged && RefusedFor(s, s, disk, pr, self, writeOk, true, why, disk', state)
  }

  /** A record without a PID, in the spawn window. */
  ghost predicate InSpawnWindow(c: Child) {
    (c.status == Launching || c.status == Running) && (c.status == Running ==> c.identity.pid.None?)
  }

  /** The later checks refuse a child in the spawn window on their own, whatever the earlier ones let pass. */
  lemma SpawnWindowIsRefusedAgain(s: Snapshot, disk: Option<Snapshot>, order: seq<string>, pr: Probes, self: Self)
    ensures (exists n :: n in s.children && InSpawnWindow(s.children[n])) || (s.active.Some? && InSpawnWindow(s.active.value)) ==>
      TakeOver(s, disk, order, pr, self, true) == Refused(IdentityMissing, Some(InDoubt(s, self)), InDoubt(s, self))
    ensures s.active.Some? && InSpawnWindow(s.active.value) ==>
      AcquireActive(s, disk, order, pr, self, true) == Refused(IdentityMissing, Some(InDoubt(s, self)), InDoubt(s, self))
  {
    hide SweepChildren, InterruptActive;
    assert forall n :: n in s.children && InSpawnWindow(s.children[n]) ==> Unspawned(s.children[n]);
  }

  /** Closing the active child interrupts every running record, as it is the only one. */
  lemma ClosingInterrupts(h: History, s: Snapshot, st: Status, self: Self)
    requires SnapshotOk(h, s) && forall n :: n in s.children ==> !Unidentified(s.children[n])
    ensures
      var t := Stamp(InterruptActive(s).(status := st), self);
      && t.children == AllInterrupted(s.children) && t.active.None? && t.runId == s.runId && t.status == st
      && t.owner == IdentityOf(self.process)
    ensures SomeRunning(s) <==> s.active.Some? && s.active.value.status == Running
  {
    hide RecordOk, AttemptsOk;
    assert ActiveOk(s);
    if s.active.Some? && s.active.value.status == Running {
      assert s.children[s.active.value.name] == s.active.value;
      assert forall n :: n in s.children && s.children[n].status == Running ==> s.children[n] == s.active.value;
      NamesAreKeys(h, s);
    }
  }

  lemma NamesAreKeys(h: History, s: Snapshot)
    requires SnapshotOk(h, s)
    ensures forall n :: n in s.children ==> s.children[n].name == n
  {
    assert forall n :: n in s.children ==> RecordOk(h, n, s.children[n]);
  }

  /** How the walk over the children ends, with the probe that made it end so. */
  lemma SweptRecords(h: History, s: Snapshot, order: seq<string>, pr: Probes, self: Self)
    requires SnapshotOk(h, s) && forall n :: n in s.children ==> n in order
    requires forall n :: n in s.children ==> !Unidentified(s.children[n])
    ensures
      match SweepChildren(s.children, order, pr)
      case SweepUnknown(cs) => cs == s.children && ChildProbed(s, pr, IsUnknown)
      case SweepLive(cs) => ChildProbed(s, pr, IsLive)
      case Swept(cs) =>
        var t := Stamp(InterruptActive(s.(children := cs)).(status := Interrupted), self);
        && t.children == AllInterrupted(s.children) && t.active.None? && t.runId == s.runId && t.status == Interrupted
        && t.owner == IdentityOf(self.process)
  {
    var a := if s.active.Some? then s.active.value.name else "";
    NamesAreKeys(h, s);
    ClosingInterrupts(h, s, Interrupted, self);
    assert s.active.Some? ==> s.children[a] == s.active.value;
    assert forall n :: n in s.children && s.children[n].status == Running ==> n == a;
    SweepOne(s.children, order, pr, a);
    if s.active.Some? && s.active.value.status == Running {
      var marked := s.active.value.(status := Interrupted);
      assert s.(children := s.children[a := marked]).children[a := marked] == s.children[a := marked];
    }
    hide SnapshotOk, SweepChildren, AllInterrupted;
  }

  lemma TakeOverRecords(h: History, s: Snapshot, disk: Option<Snapshot>, order: seq<string>, pr: Probes, self: Self, writeOk: bool)
    requires SnapshotOk(h, s) && s.status == Running && !Blocked(s) && forall n :: n in s.children ==> n in order
    requires forall n :: n in s.children ==> !Unidentified(s.children[n])
    ensures SettledWell(s, disk, pr, self, writeOk, TakeOver(s, disk, order, pr, self, writeOk))
  {
    hide RecordOk, AttemptsOk, Blocked, SweepChildren, AllInterrupted, InterruptActive, SomeRunning, ChildProbe;
    SweptRecords(h, s, order, pr, self);
    assert s.active.Some? ==> s.children[s.active.value.name] == s.active.value;
    NoneUnspawned(s);
    hide SnapshotOk;
  }

  lemma NoneUnspawned(s: Snapshot)
    requires forall n :: n in s.children ==> !Unidentified(s.children[n])
    requires s.active.Some? ==> s.active.value.name in s.children && s.children[s.active.value.name] == s.active.value
    ensures (forall n :: n in s.children ==> !Unspawned(s.children[n])) && (s.active.Some? ==> !Unspawned(s.active.value))
  {
  }

  lemma ActiveRecords(h: History, s: Snapshot, disk: Option<Snapshot>, order: seq<string>, pr: Probes, self: Self, writeOk: bool)
    requires SnapshotOk(h, s) && !Blocked(s) && forall n :: n in s.children ==> n in order
    requires forall n :: n in s.children ==> !Unidentified(s.children[n])
    ensures SettledWell(s, disk, pr, self, writeOk, AcquireActive(s, disk, order, pr, self, writeOk))
  {
    hide RecordOk, AttemptsOk, Blocked, TakeOver, InterruptActive;
    ClosingInterrupts(h, s, s.status, self);
    assert s.active.Some? ==> s.children[s.active.value.name] == s.active.value;
    if s.status == Running {
      TakeOverRecords(h, s, disk, order, pr, self, writeOk);
    } else {
      SettleRecords(h, s, disk, order, pr, self, writeOk);
    }
    hide SnapshotOk, SettledWell, SomeRunning, AllInterrupted;
  }

  /** A run that is not running: at most the active child has to be closed. */
  lemma SettleRecords(h: History, s: Snapshot, disk: Option<Snapshot>, order: seq<string>, pr: Probes, self: Self, writeOk: bool)
    requires SnapshotOk(h, s) && !Blocked(s) && s.status != Running
    requires forall n :: n in s.children ==> !Unidentified(s.children[n])
    ensures SettledWell(s, disk, pr, self, writeOk, AcquireActive(s, disk, order, pr, self, writeOk))
  {
    hide RecordOk, AttemptsOk;
    ClosingInterrupts(h, s, s.status, self);
    assert s.active.Some? ==> s.children[s.active.value.name] == s.active.value;
    assert InterruptActive(s).(status := s.status) == InterruptActive(s);
    hide SnapshotOk, InterruptActive;
  }

  /**
    A successful acquire keeps the run and all its records, and interrupts those
    that were running and no others; every refusal is for the reason it names.
   */
  lemma AcquireRecordsExactly(h: History, memory: Snapshot, disk: Option<Snapshot>, order: seq<string>, pr: Probes, self: Self,
                              writeOk: bool, lockWriteOk: bool)
    requires SnapshotOk(h, if disk.Some? then disk.value else memory)
    requires forall n :: n in (if disk.Some? then disk.value else memory).children ==> n in order
    ensures
      var s := if disk.Some? then disk.value else memory;
      match Acquire(memory, disk, order, pr, self, writeOk, lockWriteOk)
      case Acquired(state, disk') => Resumed(s, disk, state, disk', self)
      case Refused(why, disk', state) => RefusedFor(memory, s, disk, pr, self, writeOk, lockWriteOk, why, disk', state)
  {
    hide AcquireActive, SnapshotOk, Blocked, Unidentified, Resumed, ChildProbed;
    var s := if disk.Some? then disk.value else memory;
    var fit := s.runId == memory.runId && !Blocked(s) && forall n :: n in s.children ==> !Unidentified(s.children[n]);
    if fit {
      ActiveRecords(h, s, disk, order, pr, self, writeOk);
      FitRecords(memory, disk, order, pr, self, writeOk, lockWriteOk);
    }
  }

  /** Past the checks on the stored state, only the last write can still turn the outcome. */
  lemma FitRecords(memory: Snapshot, disk: Option<Snapshot>, order: seq<string>, pr: Probes, self: Self, writeOk: bool, lockWriteOk: bool)
    requires
      var s := if disk.Some? then disk.value else memory;
      && s.runId == memory.runId && !Blocked(s) && (forall n :: n in s.children ==> !Unidentified(s.children[n]))
      && SettledWell(s, disk, pr, self, writeOk, AcquireActive(s, disk, order, pr, self, writeOk))
    ensures
      var s := if disk.Some? then disk.value else memory;
      match Acquire(memory, disk, order, pr, self, writeOk, lockWriteOk)
      case Acquired(state, disk') => Resumed(s, disk, state, disk', self)
      case Refused(why, disk', state) => RefusedFor(memory, s, disk, pr, self, writeOk, lockWriteOk, why, disk', state)
  {
    hide AcquireActive, Blocked, Unidentified, Resumed, ChildProbed;
  }
}
