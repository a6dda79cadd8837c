/**
  What acquire does to a well-formed snapshot: the facts that make it safe to
  hand the run to a new owner, whichever way the probes answer.
 */
module AcquireFacts {
  import opened Options
  import opened Processes
  import opened EvidenceState
  import opened EvidenceProtocol
  import opened ProtocolInvariant

  ghost predicate NoRunning(children: map<string, Child>) {
    forall n :: n in children ==> children[n].status != Running
  }

  /** Nothing to mark, whatever the order. */
  lemma {:induction false} SweepIdle(children: map<string, Child>, order: seq<string>, pr: Probes)
    requires NoRunning(children)
    ensures SweepChildren(children, order, pr) == Swept(children)
  {
    if order != [] {
      SweepIdle(children, order[1..], pr);
    }
  }

  /** With one running record at most, the walk either stops at it unchanged or marks exactly it. */
  lemma {:induction false} SweepOne(children: map<string, Child>, order: seq<string>, pr: Probes, a: string)
    requires forall n :: n in children && children[n].status == Running ==> n == a
    ensures
      var r := SweepChildren(children, order, pr);
      if a in order && a in children && children[a].status == Running then
        var st := StateOf(children[a].identity, ChildProbe(pr, a));
        r == if st == IsUnknown then SweepUnknown(children)
             else if st == IsLive then SweepLive(children)
             else Swept(children[a := children[a].(status := Interrupted)])
      else r == Swept(children)
  {
    if order != [] {
      var n := order[0];
      if n == a && a in children && children[a].status == Running {
        SweepIdle(children[a := children[a].(status := Interrupted)], order[1..], pr);
      } else {
        SweepOne(children, order[1..], pr, a);
      }
    }
  }

  /** The state of a run nobody is running: nothing live on record, nothing alive. */
  ghost predicate AtRest(h: History, alive: set<Process>, s: Snapshot) {
    && SnapshotOk(h, s) && s.active.None? && !Blocked(s)
    && NoLiveChild(alive, h)
    && forall n :: n in s.children ==> !IsLiveStatus(s.children[n].status)
  }

  /** Once its probed process is dead, the active child can be filed as interrupted. */
  lemma InterruptActiveRests(h: History, alive: set<Process>, s: Snapshot, st: Status, self: Self)
    requires SnapshotOk(h, s) && CoverOk(alive, h, s) && !ChildBlocked(s)
    requires forall n :: n in s.children ==> !Unidentified(s.children[n])
    requires s.active.Some? && s.active.value.status == Running ==> Named(s.active.value.identity) !in alive
    requires st != NeedsReview
    ensures AtRest(h, alive, Stamp(InterruptActive(s).(status := st), self))
  {
    var t := InterruptActive(s);
    assert forall p :: p in h.spawned && p in alive ==> Covers(s, p, h.spawned[p]);
    forall n | n in t.children ensures RecordOk(h, n, t.children[n]) && !IsLiveStatus(t.children[n].status) && t.children[n].status != NeedsReview {
      assert n in s.children && RecordOk(h, n, s.children[n]);
      assert !Unidentified(s.children[n]);
    }
  }

  /** A refusal leaves the disk as it was, or writes a snapshot just as good and no less blocked. */
  ghost predicate SafeRefusal(h: History, alive: set<Process>, disk: Option<Snapshot>, disk': Option<Snapshot>) {
    disk' == disk ||
    (&& disk.Some? && disk'.Some?
     && SnapshotOk(h, disk'.value) && CoverOk(alive, h, disk'.value)
     && (Blocked(disk.value) ==> Blocked(disk'.value))
     && (ChildBlocked(disk.value) ==> ChildBlocked(disk'.value)))
  }

  /** A success leaves a run at rest, in memory and on disk alike. */
  ghost predicate SafeAcquire(h: History, alive: set<Process>, memory: Snapshot, disk: Option<Snapshot>, s: Snapshot, disk': Option<Snapshot>) {
    && AtRest(h, alive, s)
    && (disk'.Some? ==> disk'.value == s)
    && (disk'.None? ==> disk.None? && s == memory)
  }

  ghost predicate SafeResult(h: History, alive: set<Process>, memory: Snapshot, disk: Option<Snapshot>, r: AcquireResult) {
    match r
    case Acquired(s, disk') => SafeAcquire(h, alive, memory, disk, s, disk')
    case Refused(_, disk', s) => SafeRefusal(h, alive, disk, disk') && (disk.None? ==> s == memory)
  }

  /** What acquire is given: a good snapshot, or the empty one of the first owner. */
  ghost predicate AcquireInput(h: History, alive: set<Process>, memory: Snapshot, disk: Option<Snapshot>) {
    match disk
    case Some(s) => SnapshotOk(h, s) && CoverOk(alive, h, s)
    case None => h.spawned == map[] && memory.children == map[] && memory.active.None? && memory.status == Created
  }

  /** Writing a refusal keeps a snapshot good. */
  lemma RefusalIsSafe(h: History, alive: set<Process>, memory: Snapshot, disk: Option<Snapshot>, why: Refusal, s: Snapshot, self: Self, writeOk: bool)
    requires disk.Some? && SnapshotOk(h, disk.value) && CoverOk(alive, h, disk.value)
    requires s == disk.value || s == disk.value.(status := NeedsReview)
    ensures SafeResult(h, alive, memory, disk, RefuseAndWrite(why, disk, s, self, writeOk))
  {
  }

  /** The walk over the children of a dead owner, once the active child is probed dead. */
  lemma TakenRests(h: History, alive: set<Process>, s: Snapshot, order: seq<string>, pr: Probes, self: Self)
    requires SnapshotOk(h, s) && CoverOk(alive, h, s) && !Blocked(s)
    requires forall n :: n in s.children ==> !Unidentified(s.children[n])
    requires forall n :: n in s.children ==> n in order
    requires s.active.Some? && s.active.value.status == Running ==> Named(s.active.value.identity) !in alive
    ensures
      match SweepChildren(s.children, order, pr)
      case SweepUnknown(cs) => cs == s.children
      case SweepLive(cs) => true
      case Swept(cs) => AtRest(h, alive, Stamp(InterruptActive(s.(children := cs)).(status := Interrupted), self))
  {
    var a := if s.active.Some? then s.active.value.name else "";
    SweepOne(s.children, order, pr, a);
    InterruptActiveRests(h, alive, s, Interrupted, self);
    if s.active.Some? && s.active.value.status == Running {
      var marked := s.active.value.(status := Interrupted);
      assert s.(children := s.children[a := marked]).children[a := marked] == s.children[a := marked];
    }
    hide AtRest, CoverOk, Blocked;
  }

  /** The takeover from a dead owner. */
  lemma TakeOverIsSafe(h: History, alive: set<Process>, memory: Snapshot, s: Snapshot, order: seq<string>, pr: Probes, self: Self, writeOk: bool)
    requires SnapshotOk(h, s) && CoverOk(alive, h, s) && !Blocked(s)
    requires forall n :: n in s.children ==> !Unidentified(s.children[n])
    requires forall n :: n in s.children ==> n in order
    requires s.active.Some? && s.active.value.status == Running ==> Truthful(alive, s.active.value.identity, pr.activeAgain)
    ensures SafeResult(h, alive, memory, Some(s), TakeOver(s, Some(s), order, pr, self, writeOk))
  {
    hide SnapshotOk, CoverOk, Blocked, ChildBlocked, SweepChildren, RefuseAndWrite, Stamp, InterruptActive;
    RefusalIsSafe(h, alive, memory, Some(s), IdentityMissing, s.(status := NeedsReview), self, writeOk);
    RefusalIsSafe(h, alive, memory, Some(s), ProbeUnknown, s.(status := NeedsReview), self, writeOk);
    if s.active.Some? && s.active.value.status == Running ==> SaysDead(s.active.value.identity, pr.activeAgain) {
      TakenRests(h, alive, s, order, pr, self);
    }
  }

  /** The active child's probe, and the settling that a dead answer allows. */
  lemma AcquireActiveIsSafe(h: History, alive: set<Process>, memory: Snapshot, s: Snapshot, order: seq<string>, pr: Probes, self: Self, writeOk: bool)
    requires SnapshotOk(h, s) && CoverOk(alive, h, s) && !Blocked(s)
    requires forall n :: n in s.children ==> !Unidentified(s.children[n])
    requires forall n :: n in s.children ==> n in order
    requires s.active.Some? ==> Truthful(alive, s.active.value.identity, pr.active) && Truthful(alive, s.active.value.identity, pr.activeAgain)
    ensures SafeResult(h, alive, memory, Some(s), AcquireActive(s, Some(s), order, pr, self, writeOk))
  {
    if s.status == Running {
      TakeOverIsSafe(h, alive, memory, s, order, pr, self, writeOk);
      RefusalIsSafe(h, alive, memory, Some(s), OwnerProbeUnknown, s.(status := NeedsReview), self, writeOk);
      RefusalIsSafe(h, alive, memory, Some(s), ProbeUnknown, s.(status := NeedsReview), self, writeOk);
    } else if s.active.Some? {
      RefusalIsSafe(h, alive, memory, Some(s), ProbeUnknown, s.(status := NeedsReview), self, writeOk);
      if SaysDead(s.active.value.identity, pr.active) {
        InterruptActiveRests(h, alive, s, s.status, self);
      }
    } else {
      RestingSnapshot(h, alive, s);
    }
  }

  /** A good snapshot with no active child and nothing in review is at rest already. */
  lemma RestingSnapshot(h: History, alive: set<Process>, s: Snapshot)
    requires SnapshotOk(h, s) && CoverOk(alive, h, s) && !Blocked(s) && s.active.None?
    ensures AtRest(h, alive, s)
  {
  }

  /** acquire, on any input a reachable world can give it. */
  lemma AcquireIsSafe(h: History, alive: set<Process>, memory: Snapshot, disk: Option<Snapshot>, order: seq<string>, pr: Probes, self: Self,
                      writeOk: bool, lockWriteOk: bool)
    requires AcquireInput(h, alive, memory, disk)
    requires disk.Some? ==> forall n :: n in disk.value.children ==> n in order
    requires disk.Some? && disk.value.active.Some? ==>
               Truthful(alive, disk.value.active.value.identity, pr.active) && Truthful(alive, disk.value.active.value.identity, pr.activeAgain)
    ensures SafeResult(h, alive, memory, disk, Acquire(memory, disk, order, pr, self, writeOk, lockWriteOk))
  {
    if disk.Some? {
      var s := disk.value;
      RefusalIsSafe(h, alive, memory, disk, ReviewRequired, s, self, writeOk);
      RefusalIsSafe(h, alive, memory, disk, IdentityMissing, s.(status := NeedsReview), self, writeOk);
      if s.runId == memory.runId && !Blocked(s) && forall n :: n in s.children ==> !Unidentified(s.children[n]) {
        AcquireActiveIsSafe(h, alive, memory, s, order, pr, self, writeOk);
      }
    }
  }
}
