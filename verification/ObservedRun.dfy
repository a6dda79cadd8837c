/**
  The class ObservedRun of scripts/regression_common.py, method by method.
  `Acquire` is proved against the decision of EvidenceState.dfy.  `RunChild` is
  proved to walk a path of the protocol of EvidenceProtocol.dfy, so that every
  theorem about runs of the protocol is a theorem about it.
 */
module ObservedRuns {
  import opened Options
  import opened Processes
  import opened EvidenceState
  import opened EvidenceProtocol
  import opened ProtocolInvariant
  import opened StepEffects
  import ProtocolSteps
  import Descendants
  import ProcessTree

  /** state.json; None while the file does not exist. */
  class StateFile {
    var content: Option<Snapshot>

    constructor ()
      ensures content == None
    {
      content := None;
    }
  }

  /** How process.wait ends. */
  datatype Wait = Exits(code: int) | TimesOut | BreaksOff

  /** What happens between two stretches of run_child: steps of others, and perhaps a heartbeat or reader flush. */
  datatype Gap = Gap(others: seq<Step>, beat: bool)

  /** The gaps before the call, after the launching write, after Popen, around the identity write, during the wait, and before a last write. */
  datatype Gaps = Gaps(before: Gap, launch: Gap, spawn: Gap, capture: Gap, open: Gap, wait: Gap, settle: Gap)

  /** What run_child meets: whether writes reach the disk, what Popen gives, how the child ends. */
  datatype Weather = Weather(
    logsExist: bool,
    launchWriteOk: bool,
    popen: Option<Process>,     // None: Popen raises
    identified: bool,           // the child's start token could be read
    reaped: Option<int>,        // an unidentified child ended within the wait, with this code
    identityWriteOk: bool,
    wait: Wait,
    lastWriteOk: bool,
    gaps: Gaps)

  datatype Outcome = Returned(child: Child, reused: bool) | RaisedError

  /** The others are others, and leave the end of the child to the path itself. */
  predicate GapsAreForeign(o: Process, env: Weather) {
    && AllByOthers(env.gaps.before.others, o, env.popen)
    && AllByOthers(env.gaps.launch.others, o, env.popen) && AllByOthers(env.gaps.spawn.others, o, env.popen)
    && AllByOthers(env.gaps.capture.others, o, env.popen) && AllByOthers(env.gaps.open.others, o, env.popen)
    && AllByOthers(env.gaps.wait.others, o, env.popen) && AllByOthers(env.gaps.settle.others, o, env.popen)
  }

  function GapSteps(o: Process, g: Gap): seq<Step> {
    g.others + if g.beat then [Flush(o)] else []
  }

  /** The protocol steps of one run_child call, with whatever others do and whenever its own threads flush meanwhile. */
  function ChildPath(o: Process, spec: Spec, reusable: bool, env: Weather): seq<Step> {
    GapSteps(o, env.gaps.before) + BeginPath(o, spec, reusable, env)
  }

  function BeginPath(o: Process, spec: Spec, reusable: bool, env: Weather): seq<Step> {
    [BeginChild(o, spec, env.logsExist, env.launchWriteOk)]
    + if reusable || !env.launchWriteOk then [] else GapSteps(o, env.gaps.launch) + LaunchPath(o, env)
  }

  function LaunchPath(o: Process, env: Weather): seq<Step> {
    match env.popen
    case None => [PopenFails(o)] + SettlePath(o, env)
    case Some(p) => [Popen(o, p)] + (GapSteps(o, env.gaps.spawn) + SpawnedPath(o, p, env))
  }

  function SettlePath(o: Process, env: Weather): seq<Step> {
    GapSteps(o, env.gaps.settle) + [SettleLaunchFailure(o, env.lastWriteOk)]
  }

  function SpawnedPath(o: Process, p: Process, env: Weather): seq<Step> {
    if !env.identified then
      match env.reaped
      case None => [Raise(o)]
      case Some(code) => [EnvExit(p, code)] + ([ReapUnidentified(o)] + SettlePath(o, env))
    else [CaptureIdentity(o)] + (GapSteps(o, env.gaps.capture) + IdentityPath(o, p, env))
  }

  function IdentityPath(o: Process, p: Process, env: Weather): seq<Step> {
    [WriteIdentity(o, env.identityWriteOk)]
    + if !env.identityWriteOk then []
      else GapSteps(o, env.gaps.open) + ([OpenLogs(o)] + (GapSteps(o, env.gaps.wait) + WaitPath(o, p, env)))
  }

  function WaitPath(o: Process, p: Process, env: Weather): seq<Step> {
    match env.wait
    case Exits(code) => [EnvExit(p, code)] + [CompleteChild(o, env.lastWriteOk)]
    case TimesOut => [TimeOut(o)] + (GapSteps(o, env.gaps.settle) + [WriteReview(o, env.lastWriteOk)])
    case BreaksOff => if env.lastWriteOk then [Flush(o)] + [Raise(o)] else [Raise(o)]
  }

  function Ended(launched: Child, p: Process, code: int): Child {
    FinalRecord(launched.(status := Running, identity := IdentityOf(p)), code, false)
  }

  /** The stored record is the passed one of an execution of this very request, and its logs are there. */
  predicate Answered(records: map<string, Child>, spec: Spec, me: Self, logsExist: bool) {
    && spec.cacheable && logsExist && spec.name in records
    && records[spec.name].status == Passed && records[spec.name].cacheable && records[spec.name].source == me.source
    && records[spec.name].command == CommandPrint(spec.command, spec.cwd, me.environment)
  }

  /** A new child is launched, identified, waited for to its end, and every write on the way lands. */
  predicate RunsThrough(env: Weather) {
    env.launchWriteOk && env.popen.Some? && env.identified && env.identityWriteOk && env.wait.Exits? && env.lastWriteOk
  }

  /** The record of a child that was launched and ran to its end. */
  function NewRecord(records: map<string, Child>, spec: Spec, me: Self, p: Process, code: int): Child {
    Child(spec.name, if spec.name in records then records[spec.name].attempt + 1 else 1, if code == 0 then Passed else Failed,
          CommandPrint(spec.command, spec.cwd, me.environment), me.source, spec.cacheable, IdentityOf(p), Some(code))
  }

  /** What a call of run_child comes to: the stored result, a new one, or an exception. */
  function ResultOf(records: map<string, Child>, spec: Spec, me: Self, env: Weather): Outcome {
    if Answered(records, spec, me, env.logsExist) then
      if env.launchWriteOk then Returned(records[spec.name], true) else RaisedError
    else if RunsThrough(env) then Returned(NewRecord(records, spec, me, env.popen.value, env.wait.code), false)
    else RaisedError
  }

  // --- what a call leaves behind ------------------------------------------------------

  /** The record after the wait: ended, in review, or as it was. */
  function Waited(c: Child, env: Weather): Child {
    match env.wait
    case Exits(code) => FinalRecord(c, code, false)
    case TimesOut => c.(status := NeedsReview)
    case BreaksOff => c
  }

  /** The record of a spawned child, however far it got. */
  function Supervised(c: Child, p: Process, env: Weather): Child {
    if !env.identified then (if env.reaped.Some? then c.(status := Failed) else c)
    else
      var running := c.(status := Running, identity := IdentityOf(p));
      if env.identityWriteOk then Waited(running, env) else running
  }

  function Launched(c: Child, env: Weather): Child {
    if env.popen.None? then c.(status := Failed) else Supervised(c, env.popen.value, env)
  }

  /** A launched child was waited for, and the wait did not see its end. */
  predicate TimesOutLate(env: Weather) {
    env.popen.Some? && env.identified && env.identityWriteOk && env.wait.TimesOut?
  }

  /** There is a last write, and it lands. */
  predicate LastWriteLands(env: Weather) {
    env.lastWriteOk && (env.popen.Some? ==> if env.identified then env.identityWriteOk else env.reaped.Some?)
  }

  /** How far a launched child gets. */
  datatype Stage = Starting | NotStarted | Unnamed | Named | Ran(code: int) | TimedOut | Abandoned

  function StageOf(env: Weather): Stage {
    if !env.launchWriteOk then Starting
    else if env.popen.None? then NotStarted
    else if !env.identified then (if env.reaped.Some? then NotStarted else Unnamed)
    else if !env.identityWriteOk then Named
    else match env.wait case Exits(code) => Ran(code) case TimesOut => TimedOut case BreaksOff => Abandoned
  }

  /** The record of a request that was launched, as memory has it when the call is over. */
  function LeftRecord(records: map<string, Child>, spec: Spec, me: Self, env: Weather): Child {
    var stage := StageOf(env);
    var known := stage.Named? || stage.Ran? || stage.TimedOut? || stage.Abandoned?;
    Child(spec.name, if spec.name in records then records[spec.name].attempt + 1 else 1,
          match stage
          case Starting => Launching
          case Unnamed => Launching
          case NotStarted => Failed
          case Named => Running
          case Abandoned => Running
          case TimedOut => NeedsReview
          case Ran(code) => if code == 0 then Passed else Failed,
          CommandPrint(spec.command, spec.cwd, me.environment), me.source, spec.cacheable,
          if known && env.popen.Some? then IdentityOf(env.popen.value) else NO_IDENTITY,
          if stage.Ran? then Some(stage.code) else None)
  }

  /** The stages of the methods come to the same record. */
  lemma LaunchedIs(before: Snapshot, spec: Spec, me: Self, env: Weather)
    ensures
      var c := LaunchRecord(before, spec, me);
      if !env.launchWriteOk then c == LeftRecord(before.children, spec, me, env) && !StageOf(env).TimedOut?
      else
        && Launched(c, env) == LeftRecord(before.children, spec, me, env) && (TimesOutLate(env) <==> StageOf(env).TimedOut?)
        && (RunsThrough(env) ==>
              Ended(c, env.popen.value, env.wait.code) == NewRecord(before.children, spec, me, env.popen.value, env.wait.code))
  {
  }

  /** The active record is filed under its name, so filing it again changes nothing. */
  lemma FiledAlready(w: World, o: Process)
    requires Inv(w) && o in w.owners && Holding(w.owners[o].phase) && w.owners[o].memory.active.Some?
    ensures
      var m := w.owners[o].memory;
      m.children[m.active.value.name := m.active.value] == m.children
  {
    hide HistoryOk, DiskOk, BlockOk, ProcessesOk;
    assert HolderOk(w, w.owners[o]);
  }

  /** One step of a path: the rest follows from the next world, which is as good. */
  lemma Take(w: World, step: Step, rest: seq<Step>)
    requires Inv(w)
    ensures RunSteps(w, [step] + rest) == RunSteps(Next(w, step), rest) && Inv(Next(w, step))
    ensures RunSteps(w, [step]) == Next(w, step)
  {
    hide Inv, Next;
    RunFirst(w, step, rest);
    ProtocolSteps.StepKeeps(w, step);
  }

  class ObservedRun {
    const me: Self
    const file: StateFile
    var state: Snapshot
    var lockHeld: bool
    var activeProcess: Option<Process>

    /** __init__: the stored state if there is one, else a new one.  In the protocol this is where the owner appears. */
    constructor (file: StateFile, me: Self, runId: string, ghost w: World)
      ensures this.file == file && this.me == me && !lockHeld && activeProcess == None
      ensures state == if file.content.Some? then file.content.value else InitialSnapshot(runId, me)
      ensures w.disk == file.content && Unused(w, me.process) ==> Mirrors(Next(w, Construct(me, runId)), Fresh)
    {
      this.file := file;
      this.me := me;
      state := if file.content.Some? then file.content.value else InitialSnapshot(runId, me);
      lockHeld := false;
      activeProcess := None;
    }

    /** This object is the owner `me` of world `w`, in phase `ph`. */
    ghost predicate Mirrors(w: World, ph: Phase)
      reads this, file
    {
      && me.process in w.owners && w.owners[me.process] == Owner(me, ph, state)
      && w.disk == file.content
    }

    /** _write_state_locked: an unforced write is skipped until the flush interval has passed. */
    method WriteState(force: bool, due: bool, ok: bool) returns (raised: bool)
      modifies this`state, file
      ensures raised <==> (force || due) && !ok
      ensures state == if force || due then Stamp(old(state), me) else old(state)
      ensures file.content == if (force || due) && ok then Some(state) else old(file.content)
    {
      if !force && !due {
        return false;
      }
      state := Stamp(state, me);
      if ok {
        file.content := Some(state);
      }
      return !ok;
    }

    /** A forced write; after it memory and disk agree, unless it raised. */
    method ForceWrite(ok: bool)
      modifies this`state, file
      ensures state == Stamp(old(state), me)
      ensures file.content == if ok then Some(state) else old(file.content)
    {
      var _ := WriteState(true, false, ok);
    }

    // --- acquire ----------------------------------------------------------------

    /** Give the lock back and report why. */
    method Refuse(why: Refusal) returns (r: Option<Refusal>)
      modifies this`lockHeld
      ensures !lockHeld && r == Some(why)
    {
      lockHeld := false;
      r := Some(why);
    }

    /** Write the current state as the reason to refuse. */
    method RefuseInWriting(why: Refusal, ok: bool) returns (r: Option<Refusal>)
      modifies this`state, this`lockHeld, file
      ensures !lockHeld
      ensures r.Some? && Refused(r.value, file.content, state) == RefuseAndWrite(why, old(file.content), old(state), me, ok)
    {
      ForceWrite(ok);
      r := Refuse(if ok then why else WriteFailed);
    }

    /** acquire, once the OS lock is held.  `order` is the order in which the children dictionary is walked. */
    method AcquireRun(order: seq<string>, pr: Probes, writeOk: bool, lockWriteOk: bool) returns (refusal: Option<Refusal>)
      requires !lockHeld
      modifies this, file
      ensures activeProcess == old(activeProcess)
      ensures match EvidenceState.Acquire(old(state), old(file.content), order, pr, me, writeOk, lockWriteOk)
              case Acquired(s, disk) => refusal.None? && lockHeld && state == s && file.content == disk
              case Refused(why, disk, s) => refusal == Some(why) && !lockHeld && state == s && file.content == disk
    {
      lockHeld := true;
      var stored := if file.content.Some? then file.content.value else state;
      if stored.runId != state.runId {
        refusal := Refuse(RunIdChanged);
        return;
      }
      state := stored;
      if Blocked(state) {
        refusal := RefuseInWriting(ReviewRequired, writeOk);
        return;
      }
      if exists n :: n in state.children && Unidentified(state.children[n]) {
        state := state.(status := NeedsReview);
        refusal := RefuseInWriting(IdentityMissing, writeOk);
        return;
      }
      refusal := SettleActive(order, pr, writeOk);
      if refusal.None? && !lockWriteOk {
        refusal := Refuse(WriteFailed);
      }
    }

    /** The active child's probe, then the previous owner's. */
    method SettleActive(order: seq<string>, pr: Probes, writeOk: bool) returns (refusal: Option<Refusal>)
      requires lockHeld
      modifies this`state, this`lockHeld, file
      ensures match AcquireActive(old(state), old(file.content), order, pr, me, writeOk)
              case Acquired(s, disk) => refusal.None? && lockHeld && state == s && file.content == disk
              case Refused(why, disk, s) => refusal == Some(why) && !lockHeld && state == s && file.content == disk
    {
      if state.active.Some? && IsLiveStatus(state.active.value.status) {
        var a := state.active.value;
        if Unidentified(a) {
          state := state.(status := NeedsReview);
          refusal := RefuseInWriting(IdentityMissing, writeOk);
          return;
        }
        var fate := StateOf(a.identity, pr.active);
        if fate == IsUnknown {
          state := state.(status := NeedsReview);
          refusal := RefuseInWriting(ProbeUnknown, writeOk);
          return;
        }
        if fate == IsLive {
          refusal := Refuse(ChildStillLive);
          return;
        }
        if state.status != Running {
          state := WithSettled(state, a.(status := Interrupted));
          ForceWrite(writeOk);
          if !writeOk {
            refusal := Refuse(WriteFailed);
            return;
          }
        }
      }
      refusal := None;
      if state.status == Running {
        var fate := StateOf(state.owner, pr.owner);
        if fate == IsUnknown {
          state := state.(status := NeedsReview);
          refusal := RefuseInWriting(OwnerProbeUnknown, writeOk);
        } else if fate == IsLive {
          refusal := Refuse(OwnerStillLive);
        } else {
          refusal := MarkInterrupted(order, pr, writeOk);
        }
      }
    }

    /** _mark_previous_run_interrupted. */
    method MarkInterrupted(order: seq<string>, pr: Probes, writeOk: bool) returns (refusal: Option<Refusal>)
      requires lockHeld
      modifies this`state, this`lockHeld, file
      ensures match TakeOver(old(state), old(file.content), order, pr, me, writeOk)
              case Acquired(s, disk) => refusal.None? && lockHeld && state == s && file.content == disk
              case Refused(why, disk, s) => refusal == Some(why) && !lockHeld && state == s && file.content == disk
    {
      if (exists n :: n in state.children && Unspawned(state.children[n])) || (state.active.Some? && Unspawned(state.active.value)) {
        state := state.(status := NeedsReview);
        refusal := RefuseInWriting(IdentityMissing, writeOk);
        return;
      }
      if state.active.Some? && state.active.value.status == Running {
        var fate := StateOf(state.active.value.identity, pr.activeAgain);
        if fate == IsUnknown {
          state := state.(status := NeedsReview);
          refusal := RefuseInWriting(ProbeUnknown, writeOk);
          return;
        }
        if fate == IsLive {
          refusal := Refuse(ChildStillLive);
          return;
        }
      }
      if state.active.Some? && Matches(state.active.value.identity, pr.activeMatch) {
        refusal := Refuse(ChildStillLive);
        return;
      }
      for i := 0 to |order|
        invariant lockHeld && file.content == old(file.content)
        invariant state == old(state).(children := state.children)
        invariant SweepChildren(old(state).children, order, pr) == SweepChildren(state.children, order[i..], pr)
      {
        var n := order[i];
        assert order[i..] == [n] + order[i + 1..];
        if n in state.children && state.children[n].status == Running {
          var c := state.children[n];
          var fate := StateOf(c.identity, ChildProbe(pr, n));
          if fate == IsUnknown {
            state := state.(status := NeedsReview);
            refusal := RefuseInWriting(ProbeUnknown, writeOk);
            return;
          }
          if fate == IsLive {
            refusal := Refuse(ChildStillLive);
            return;
          }
          state := state.(children := state.children[n := c.(status := Interrupted)]);
        }
      }
      if state.active.Some? && state.active.value.status == Running {
        state := WithSettled(state, state.active.value.(status := Interrupted));
      }
      state := state.(active := None, status := Interrupted);
      ForceWrite(writeOk);
      refusal := None;
      if !writeOk {
        refusal := Refuse(WriteFailed);
      }
    }

    // --- start, run_child, finish --------------------------------------------------

    /** start: acquire, then mark the run as running. */
    method Start(order: seq<string>, pr: Probes, writeOk: bool, lockWriteOk: bool, startOk: bool, ghost w: World)
      returns (refusal: Option<Refusal>, raised: bool, ghost w': World)
      requires !lockHeld && Inv(w) && Mirrors(w, Fresh)
      requires Enabled(w, TryAcquire(me.process, order, pr, writeOk, lockWriteOk))
      modifies this, file
      ensures Inv(w') && activeProcess == old(activeProcess)
      ensures refusal.Some? ==>
        !lockHeld && raised && w' == Next(w, TryAcquire(me.process, order, pr, writeOk, lockWriteOk)) && Mirrors(w', Fresh)
      ensures refusal.None? ==>
        && lockHeld && (raised <==> !startOk)
        && w' == RunSteps(w, [TryAcquire(me.process, order, pr, writeOk, lockWriteOk)] + [StartRun(me.process, startOk)])
        && Mirrors(w', if raised then Raised else Ready) && state.owner == IdentityOf(me.process)
      ensures
        var r := EvidenceState.Acquire(old(state), old(file.content), order, pr, me, writeOk, lockWriteOk);
        && refusal == (if r.Acquired? then None else Some(r.why))
        && state.children == r.state.children
    {
      hide Next, Inv, Enabled, EvidenceState.Acquire;
      ghost var acquire, start := TryAcquire(me.process, order, pr, writeOk, lockWriteOk), StartRun(me.process, startOk);
      Take(w, acquire, [start]);
      AcquireEffect(w, me.process, order, pr, writeOk, lockWriteOk);
      refusal := AcquireRun(order, pr, writeOk, lockWriteOk);
      w' := Next(w, acquire);
      if refusal.Some? {
        return refusal, true, w';
      }
      Take(w', start, []);
      StartEffect(w', me.process, startOk);
      state := state.(status := Running);
      ForceWrite(startOk);
      return None, !startOk, Next(w', start);
    }

    /** Something still runs, as far as finish can tell: the process it spawned, or the active record's. */
    predicate StillActive(running: bool, probe: Probe)
      reads this
    {
      (activeProcess.Some? && running) || (state.active.Some? && Matches(state.active.value.identity, probe))
    }

    /** finish; a pass is refused while anything runs or any record is not passed. */
    method FinishRun(status: Status, running: bool, probe: Probe, ok: bool, ghost w: World) returns (raised: bool)
      requires lockHeld && (status == Passed || status == Failed || status == Interrupted)
      requires Mirrors(w, Ready) || (status != Passed && Mirrors(w, Raised))
      modifies this, file
      ensures
        var active := old(activeProcess).Some? && running;
        var alive := old(state).active.Some? && StateOf(old(state).active.value.identity, probe) == IsLive;
        var unfinished := exists n :: n in old(state).children && old(state).children[n].status != Passed;
        raised <==> (status == Passed && (active || alive || unfinished)) || !ok
      ensures lockHeld <==> raised
      ensures state.children == old(state).children && (!raised ==> state.status == status && file.content == Some(state))
      ensures if status == Passed && (old(StillActive(running, probe)) || !AllPassed(old(state)))
              then state == old(state) && file.content == old(file.content)
              else Mirrors(Next(w, Finish(me.process, status, ok)), if ok then Done else Raised)
    {
      hide Next;
      if status == Passed && StillActive(running, probe) {
        return true;
      }
      if status == Passed && !AllPassed(state) {
        return true;
      }
      FinishEffect(w, me.process, status, ok);
      state := state.(status := status);
      ForceWrite(ok);
      if ok {
        lockHeld := false;
      }
      return !ok;
    }

    /** Replace the active child's record in memory. */
    method EditActive(c: Child)
      modifies this`state
      ensures state == WithActive(old(state), c)
    {
      state := WithActive(state, c);
    }

    /** Between two stretches of run_child others act, and a thread of this owner may write the state once more. */
    method Pause(g: Gap, child: Option<Process>, ghost ph: Phase, ghost w: World) returns (ghost w': World)
      requires Inv(w) && Mirrors(w, ph) && Flushing(ph) && state.owner == IdentityOf(me.process)
      requires AllByOthers(g.others, me.process, child)
      modifies this`state, file
      ensures w' == RunSteps(w, GapSteps(me.process, g)) && Inv(w') && Mirrors(w', ph) && state == old(state)
      ensures child.Some? && child.value in w.alive && child.value !in w.owners ==> child.value in w'.alive && child.value !in w'.owners
    {
      hide Inv, Next, AllByOthers;
      ghost var o := me.process;
      OthersLeaveMine(w, g.others, o, child);
      RunSplit(w, g.others, if g.beat then [Flush(o)] else []);
      w' := RunSteps(w, g.others);
      if g.beat {
        FlushEffect(w', o);
        Take(w', Flush(o), []);
        w' := Next(w', Flush(o));
        ForceWrite(true);
      }
    }

    /** A launch that failed: the record is failed, and after a last write the exception goes on. */
    method SettleFailure(env: Weather, name: string, ghost w: World) returns (ghost w': World)
      requires Inv(w) && Mirrors(w, LaunchFailing(name)) && state.active.Some? && state.owner == IdentityOf(me.process)
      requires GapsAreForeign(me.process, env)
      modifies this`state, file
      ensures w' == RunSteps(w, SettlePath(me.process, env)) && Inv(w') && Mirrors(w', Raised)
      ensures state == old(state).(active := None) && (env.lastWriteOk ==> file.content == Some(state))
    {
      hide Inv, Next, AllByOthers;
      ghost var o, last := me.process, SettleLaunchFailure(me.process, env.lastWriteOk);
      ghost var w1 := Pause(env.gaps.settle, env.popen, LaunchFailing(name), w);
      RunSplit(w, GapSteps(o, env.gaps.settle), [last]);
      Take(w1, last, []);
      SettleEffect(w1, o, env.lastWriteOk);
      state := state.(active := None);
      ForceWrite(env.lastWriteOk);
      w' := Next(w1, last);
    }

    /** process.wait has begun: what each of its ends leaves behind. */
    method AwaitChild(name: string, p: Process, env: Weather, m: ProcessTree.Machine, rows: seq<Descendants.Row>, polls: nat, ghost w: World)
      returns (r: Outcome, ghost w': World)
      requires Inv(w) && Mirrors(w, Waiting(name, p, true)) && p in w.alive && p !in w.owners && env.popen == Some(p)
      requires ActiveIs(state, name, Running) && state.owner == IdentityOf(me.process) && GapsAreForeign(me.process, env)
      requires ProcessTree.Lawful(m.outside) && ProcessTree.TrueTable(m.outside, rows, m.now + 1) && !Descendants.RootOnCycle(rows, p.pid)
      modifies this`state, this`activeProcess, file, m
      ensures w' == RunSteps(w, WaitPath(me.process, p, env)) && Inv(w') && Mirrors(w', if r.Returned? then Ready else Raised)
      ensures m.signals == old(m.signals) && (r.Returned? ==> m.now == old(m.now) && activeProcess == None)
      ensures r.Returned? <==> env.wait.Exits? && env.lastWriteOk
      ensures r.Returned? ==>
        && !r.reused && r.child == FinalRecord(old(state).active.value, env.wait.code, false)
        && file.content == Some(state) && state.owner == IdentityOf(me.process)
        && state.children == old(state).children[name := r.child]
      ensures state.children == old(state).children[name := Waited(old(state).active.value, env)]
      ensures state.status == (if env.wait.TimesOut? then NeedsReview else old(state).status)
      ensures env.lastWriteOk ==> file.content == Some(state)
    {
      hide Next, Inv, AllByOthers;
      ghost var o := me.process;
      var c := state.active.value;
      match env.wait {
        case Exits(code) =>
          activeProcess := None;
          var final := FinalRecord(c, code, false);
          state := WithSettled(state, final);
          ForceWrite(env.lastWriteOk);
          ExitEffect(w, p, code);
          Take(w, EnvExit(p, code), [CompleteChild(o, env.lastWriteOk)]);
          ghost var w1 := Next(w, EnvExit(p, code));
          CompleteEffect(w1, o, env.lastWriteOk);
          Take(w1, CompleteChild(o, env.lastWriteOk), []);
          w' := Next(w1, CompleteChild(o, env.lastWriteOk));
          r := if env.lastWriteOk then Returned(final, false) else RaisedError;
        case TimesOut =>
          // The process was started without its identity attached, so cleanup never touches it.
          var cleanup, _ := ProcessTree.TerminateOwned(m, p.pid, None, rows, polls, polls);
          assert cleanup == ProcessTree.NotAttempted;
          w' := AskForReview(name, p, env, w);
          r := RaisedError;
        case BreaksOff =>
          FiledAlready(w, o);
          ForceWrite(env.lastWriteOk);
          w' := w;
          if env.lastWriteOk {
            FlushEffect(w, o);
            Take(w, Flush(o), [Raise(o)]);
            w' := Next(w, Flush(o));
          }
          RaiseEffect(w', o);
          Take(w', Raise(o), []);
          w' := Next(w', Raise(o));
          r := RaisedError;
      }
    }

    /** The cleanup was not attempted: the child's record and the run ask for review. */
    method AskForReview(name: string, p: Process, env: Weather, ghost w: World) returns (ghost w': World)
      requires Inv(w) && Mirrors(w, Waiting(name, p, true)) && env.wait.TimesOut?
      requires state.active.Some? && state.owner == IdentityOf(me.process) && GapsAreForeign(me.process, env)
      modifies this`state, file
      ensures w' == RunSteps(w, WaitPath(me.process, p, env)) && Inv(w') && Mirrors(w', Raised)
      ensures
        var c := old(state).active.value.(status := NeedsReview);
        state.children == old(state).children[c.name := c] && state.status == NeedsReview && (env.lastWriteOk ==> file.content == Some(state))
    {
      hide Next, Inv, AllByOthers;
      ghost var o, last := me.process, WriteReview(me.process, env.lastWriteOk);
      TimeOutEffect(w, o);
      Take(w, TimeOut(o), GapSteps(o, env.gaps.settle) + [last]);
      ghost var w1 := Next(w, TimeOut(o));
      EditActive(state.active.value.(status := NeedsReview));
      ghost var w2 := Pause(env.gaps.settle, env.popen, ReviewPending(name, p), w1);
      RunSplit(w1, GapSteps(o, env.gaps.settle), [last]);
      WriteReviewEffect(w2, o, env.lastWriteOk);
      Take(w2, last, []);
      EditActive(state.active.value);
      state := state.(status := NeedsReview);
      ForceWrite(env.lastWriteOk);
      w' := Next(w2, last);
    }

    /** The identity is known: write it down, open the logs, wait. */
    method Identify(name: string, p: Process, env: Weather, m: ProcessTree.Machine, rows: seq<Descendants.Row>, polls: nat, ghost w: World)
      returns (r: Outcome, ghost w': World)
      requires Inv(w) && Mirrors(w, Identified(name, p)) && p in w.alive && p !in w.owners && env.popen == Some(p)
      requires ActiveIs(state, name, Running) && state.owner == IdentityOf(me.process) && GapsAreForeign(me.process, env)
      requires ProcessTree.Lawful(m.outside) && ProcessTree.TrueTable(m.outside, rows, m.now + 1) && !Descendants.RootOnCycle(rows, p.pid)
      modifies this`state, this`activeProcess, file, m
      ensures w' == RunSteps(w, IdentityPath(me.process, p, env)) && Inv(w') && Mirrors(w', if r.Returned? then Ready else Raised)
      ensures m.signals == old(m.signals) && (r.Returned? ==> m.now == old(m.now) && activeProcess == None)
      ensures r.Returned? <==> env.identityWriteOk && env.wait.Exits? && env.lastWriteOk
      ensures r.Returned? ==>
        && !r.reused && r.child == FinalRecord(old(state).active.value, env.wait.code, false)
        && file.content == Some(state) && state.owner == IdentityOf(me.process)
        && state.children == old(state).children[name := r.child]
      ensures state.children == old(state).children[name := if env.identityWriteOk then Waited(old(state).active.value, env) else old(state).active.value]
      ensures state.status == (if env.identityWriteOk && env.wait.TimesOut? then NeedsReview else old(state).status)
      ensures env.identityWriteOk && env.lastWriteOk ==> file.content == Some(state)
    {
      hide Next, Inv, AllByOthers, WaitPath;
      ghost var o, write := me.process, WriteIdentity(me.process, env.identityWriteOk);
      ghost var waiting := GapSteps(o, env.gaps.wait) + WaitPath(o, p, env);
      WriteIdentityEffect(w, o, env.identityWriteOk);
      Take(w, write, if env.identityWriteOk then GapSteps(o, env.gaps.open) + ([OpenLogs(o)] + waiting) else []);
      ForceWrite(env.identityWriteOk);
      ghost var w1 := Next(w, write);
      FiledAlready(w, o);
      if !env.identityWriteOk {
        return RaisedError, w1;
      }
      activeProcess := Some(p);
      ghost var w2 := Pause(env.gaps.open, Some(p), Waiting(name, p, false), w1);
      RunSplit(w1, GapSteps(o, env.gaps.open), [OpenLogs(o)] + waiting);
      OpenLogsEffect(w2, o);
      Take(w2, OpenLogs(o), waiting);
      ghost var w3 := Next(w2, OpenLogs(o));
      ghost var w4 := Pause(env.gaps.wait, Some(p), Waiting(name, p, true), w3);
      RunSplit(w3, GapSteps(o, env.gaps.wait), WaitPath(o, p, env));
      r, w' := AwaitChild(name, p, env, m, rows, polls, w4);
    }

    /** A child without an identity: it is reaped and filed as failed, or left behind as launching. */
    method GiveUpOn(name: string, p: Process, env: Weather, ghost w: World) returns (ghost w': World)
      requires Inv(w) && Mirrors(w, Spawned(name, p)) && p in w.alive && p !in w.owners && env.popen == Some(p) && !env.identified
      requires ActiveIs(state, name, Launching) && state.owner == IdentityOf(me.process) && GapsAreForeign(me.process, env)
      modifies this`state, file
      ensures w' == RunSteps(w, SpawnedPath(me.process, p, env)) && Inv(w') && Mirrors(w', Raised)
      ensures state.children == old(state).children[name := Supervised(old(state).active.value, p, env)] && state.status == old(state).status
      ensures env.reaped.Some? && env.lastWriteOk ==> file.content == Some(state)
    {
      hide Next, Inv, AllByOthers, SettlePath;
      ghost var o := me.process;
      match env.reaped {
        case None =>
          FiledAlready(w, o);
          RaiseEffect(w, o);
          Take(w, Raise(o), []);
          w' := Next(w, Raise(o));
        case Some(code) =>
          ExitEffect(w, p, code);
          Take(w, EnvExit(p, code), [ReapUnidentified(o)] + SettlePath(o, env));
          ghost var w1 := Next(w, EnvExit(p, code));
          ghost var w2 := Next(w1, ReapUnidentified(o));
          FailingEffect(w1, w2, o);
          Take(w1, ReapUnidentified(o), SettlePath(o, env));
          EditActive(state.active.value.(status := Failed));
          w' := SettleFailure(env, name, w2);
      }
    }

    /** The child exists: read its identity, or give up on it. */
    method Supervise(name: string, p: Process, env: Weather, m: ProcessTree.Machine, rows: seq<Descendants.Row>, polls: nat, ghost w: World)
      returns (r: Outcome, ghost w': World)
      requires Inv(w) && Mirrors(w, Spawned(name, p)) && p in w.alive && p !in w.owners && env.popen == Some(p)
      requires ActiveIs(state, name, Launching) && state.owner == IdentityOf(me.process) && GapsAreForeign(me.process, env)
      requires ProcessTree.Lawful(m.outside) && ProcessTree.TrueTable(m.outside, rows, m.now + 1) && !Descendants.RootOnCycle(rows, p.pid)
      modifies this`state, this`activeProcess, file, m
      ensures w' == RunSteps(w, SpawnedPath(me.process, p, env)) && Inv(w') && Mirrors(w', if r.Returned? then Ready else Raised)
      ensures m.signals == old(m.signals) && (r.Returned? ==> m.now == old(m.now) && activeProcess == None)
      ensures r.Returned? <==> env.identified && env.identityWriteOk && env.wait.Exits? && env.lastWriteOk
      ensures r.Returned? ==>
        && !r.reused && r.child == Ended(old(state).active.value, p, env.wait.code)
        && file.content == Some(state) && state.owner == IdentityOf(me.process)
        && state.children == old(state).children[name := r.child]
      ensures state.children == old(state).children[name := Supervised(old(state).active.value, p, env)]
      ensures state.status == (if TimesOutLate(env) then NeedsReview else old(state).status)
      ensures LastWriteLands(env) ==> file.content == Some(state)
    {
      hide Next, Inv, AllByOthers, IdentityPath, SettlePath;
      ghost var o := me.process;
      var c := state.active.value;
      if !env.identified {
        r := RaisedError;
        w' := GiveUpOn(name, p, env, w);
        return;
      }
      CaptureEffect(w, o);
      Take(w, CaptureIdentity(o), GapSteps(o, env.gaps.capture) + IdentityPath(o, p, env));
      ghost var w1 := Next(w, CaptureIdentity(o));
      EditActive(c.(status := Running, identity := IdentityOf(p)));
      ghost var w2 := Pause(env.gaps.capture, Some(p), Identified(name, p), w1);
      RunSplit(w1, GapSteps(o, env.gaps.capture), IdentityPath(o, p, env));
      r, w' := Identify(name, p, env, m, rows, polls, w2);
    }

    /** run_child, from Popen on. */
    method Launch(spec: Spec, env: Weather, m: ProcessTree.Machine, rows: seq<Descendants.Row>, polls: nat, ghost w: World)
      returns (r: Outcome, ghost w': World)
      requires Inv(w) && Mirrors(w, LaunchWritten(spec.name)) && GapsAreForeign(me.process, env)
      requires ActiveIs(state, spec.name, Launching) && state.owner == IdentityOf(me.process)
      requires env.popen.Some? ==> Unused(w, env.popen.value) && !Descendants.RootOnCycle(rows, env.popen.value.pid)
      requires ProcessTree.Lawful(m.outside) && ProcessTree.TrueTable(m.outside, rows, m.now + 1)
      modifies this`state, this`activeProcess, file, m
      ensures w' == RunSteps(w, LaunchPath(me.process, env)) && Inv(w') && Mirrors(w', if r.Returned? then Ready else Raised)
      ensures m.signals == old(m.signals) && (r.Returned? ==> m.now == old(m.now) && activeProcess == None)
      ensures r.Returned? <==> env.popen.Some? && env.identified && env.identityWriteOk && env.wait.Exits? && env.lastWriteOk
      ensures r.Returned? ==>
        && !r.reused && r.child == Ended(old(state).active.value, env.popen.value, env.wait.code)
        && file.content == Some(state) && state.owner == IdentityOf(me.process)
        && state.children == old(state).children[spec.name := r.child]
      ensures state.children == old(state).children[spec.name := Launched(old(state).active.value, env)]
      ensures state.status == (if TimesOutLate(env) then NeedsReview else old(state).status)
      ensures LastWriteLands(env) ==> file.content == Some(state)
    {
      hide Next, Inv, AllByOthers, SpawnedPath, SettlePath;
      ghost var o := me.process;
      match env.popen {
        case None =>
          ghost var w1 := Next(w, PopenFails(o));
          FailingEffect(w, w1, o);
          Take(w, PopenFails(o), SettlePath(o, env));
          EditActive(state.active.value.(status := Failed));
          w' := SettleFailure(env, spec.name, w1);
          r := RaisedError;
        case Some(p) =>
          OwnersHaveLived(w);
          PopenEffect(w, o, p);
          Take(w, Popen(o, p), GapSteps(o, env.gaps.spawn) + SpawnedPath(o, p, env));
          ghost var w1 := Next(w, Popen(o, p));
          ghost var w2 := Pause(env.gaps.spawn, Some(p), Spawned(spec.name, p), w1);
          RunSplit(w1, GapSteps(o, env.gaps.spawn), SpawnedPath(o, p, env));
          r, w' := Supervise(spec.name, p, env, m, rows, polls, w2);
      }
    }

    /**
      run_child.  Whatever others do and whenever the owner's own threads flush
      meanwhile, the world walks `ChildPath`; a new result is the record of the
      child that ran, and passes exactly if that exited with 0; a child that was
      not waited for to the end never yields a result, and is never signalled.
     */
    method RunChild(spec: Spec, env: Weather, m: ProcessTree.Machine, rows: seq<Descendants.Row>, polls: nat, ghost w: World)
      returns (r: Outcome, ghost w': World)
      requires Inv(w) && Mirrors(w, Ready) && state.owner == IdentityOf(me.process) && GapsAreForeign(me.process, env)
      requires env.popen.Some? ==>
        && Unused(w, env.popen.value)
        && AllAvoid(env.gaps.before.others, env.popen.value.pid) && AllAvoid(env.gaps.launch.others, env.popen.value.pid)
        && !Descendants.RootOnCycle(rows, env.popen.value.pid)
      requires ProcessTree.Lawful(m.outside) && ProcessTree.TrueTable(m.outside, rows, m.now + 1)
      modifies this`state, this`activeProcess, file, m
      ensures Mirrors(w', if r.Returned? then Ready else Raised)
      ensures w' == RunSteps(w, ChildPath(me.process, spec, Reusable(old(state), spec, me, env.logsExist), env)) && Inv(w')
      ensures m.signals == old(m.signals) && (r.Returned? ==> m.now == old(m.now))
      ensures r == ResultOf(old(state).children, spec, me, env)
      ensures if Answered(old(state).children, spec, me, env.logsExist)
              then state.children == old(state).children && state.status == old(state).status && activeProcess == old(activeProcess)
              else LeavesBehind(old(state), spec, env) && (r.Returned? ==> activeProcess == None)
      ensures r.Returned? ==>
        state.children == if r.reused then old(state).children else old(state).children[spec.name := r.child]
      ensures r.Returned? ==> file.content == Some(state) && state.owner == IdentityOf(me.process)
    {
      hide Next, Inv, Enabled, AllByOthers, Unused, AllAvoid, BeginPath;
      ghost var o, reusable := me.process, Reusable(state, spec, me, env.logsExist);
      ghost var w1 := Pause(env.gaps.before, env.popen, Ready, w);
      if env.popen.Some? {
        GapKeepsUnused(w, o, env.gaps.before, env.popen.value);
      }
      RunSplit(w, GapSteps(o, env.gaps.before), BeginPath(o, spec, reusable, env));
      r, w' := BeginOne(spec, env, m, rows, polls, w1);
    }

    /** run_child itself: the stored result if it answers the request, else a new child. */
    method BeginOne(spec: Spec, env: Weather, m: ProcessTree.Machine, rows: seq<Descendants.Row>, polls: nat, ghost w: World)
      returns (r: Outcome, ghost w': World)
      requires Inv(w) && Mirrors(w, Ready) && GapsAreForeign(me.process, env)
      requires env.popen.Some? ==>
        && Unused(w, env.popen.value) && AllAvoid(env.gaps.launch.others, env.popen.value.pid)
        && !Descendants.RootOnCycle(rows, env.popen.value.pid)
      requires ProcessTree.Lawful(m.outside) && ProcessTree.TrueTable(m.outside, rows, m.now + 1)
      modifies this`state, this`activeProcess, file, m
      ensures Mirrors(w', if r.Returned? then Ready else Raised)
      ensures w' == RunSteps(w, BeginPath(me.process, spec, Reusable(old(state), spec, me, env.logsExist), env)) && Inv(w')
      ensures m.signals == old(m.signals) && (r.Returned? ==> m.now == old(m.now))
      ensures r == ResultOf(old(state).children, spec, me, env)
      ensures if Reusable(old(state), spec, me, env.logsExist)
              then state == Stamp(old(state), me) && activeProcess == old(activeProcess)
              else LeavesBehind(old(state), spec, env) && (r.Returned? ==> activeProcess == None)
      ensures r.Returned? ==> file.content == Some(state) && state.owner == IdentityOf(me.process)
    {
      hide Next, Inv, Enabled, AllByOthers, Unused, AllAvoid, LaunchPath;
      ghost var o := me.process;
      var reusable := Reusable(state, spec, me, env.logsExist);
      if !reusable {
        r, w' := LaunchNew(spec, env, m, rows, polls, w);
        return;
      }
      ghost var begin := BeginChild(o, spec, env.logsExist, env.launchWriteOk);
      BeginEffect(w, o, spec, env.logsExist, env.launchWriteOk);
      Take(w, begin, []);
      w' := Next(w, begin);
      r := if env.launchWriteOk then Returned(state.children[spec.name], true) else RaisedError;
      ForceWrite(env.launchWriteOk);
    }

    /** The record, run status and disk after a launch, however it ended. */
    ghost predicate LeavesBehind(before: Snapshot, spec: Spec, env: Weather)
      reads this, file
    {
      && state.children == before.children[spec.name := LeftRecord(before.children, spec, me, env)]
      && state.status == (if StageOf(env).TimedOut? then NeedsReview else before.status)
      && (env.launchWriteOk && LastWriteLands(env) ==> file.content == Some(state))
    }

    /** run_child for a request that no stored result answers. */
    method LaunchNew(spec: Spec, env: Weather, m: ProcessTree.Machine, rows: seq<Descendants.Row>, polls: nat, ghost w: World)
      returns (r: Outcome, ghost w': World)
      requires Inv(w) && Mirrors(w, Ready) && GapsAreForeign(me.process, env) && !Reusable(state, spec, me, env.logsExist)
      requires env.popen.Some? ==>
        && Unused(w, env.popen.value) && AllAvoid(env.gaps.launch.others, env.popen.value.pid)
        && !Descendants.RootOnCycle(rows, env.popen.value.pid)
      requires ProcessTree.Lawful(m.outside) && ProcessTree.TrueTable(m.outside, rows, m.now + 1)
      modifies this`state, this`activeProcess, file, m
      ensures Mirrors(w', if r.Returned? then Ready else Raised)
      ensures w' == RunSteps(w, BeginPath(me.process, spec, false, env)) && Inv(w')
      ensures m.signals == old(m.signals) && (r.Returned? ==> m.now == old(m.now) && activeProcess == None)
      ensures r == if RunsThrough(env) then Returned(NewRecord(old(state).children, spec, me, env.popen.value, env.wait.code), false)
                   else RaisedError
      ensures LeavesBehind(old(state), spec, env)
      ensures r.Returned? ==> file.content == Some(state) && state.owner == IdentityOf(me.process)
    {
      hide Next, Inv, Enabled, AllByOthers, Unused, AllAvoid, LaunchPath, Reusable, Launched, LeftRecord, NewRecord, LastWriteLands, StageOf;
      ghost var o, before := me.process, state;
      ghost var begin := BeginChild(o, spec, env.logsExist, env.launchWriteOk);
      BeginEffect(w, o, spec, env.logsExist, env.launchWriteOk);
      Take(w, begin, if !env.launchWriteOk then [] else GapSteps(o, env.gaps.launch) + LaunchPath(o, env));
      LaunchedIs(before, spec, me, env);
      w' := Next(w, begin);
      EditActive(LaunchRecord(state, spec, me));
      ForceWrite(env.launchWriteOk);
      if !env.launchWriteOk {
        r := RaisedError;
        return;
      }
      ghost var w1 := Pause(env.gaps.launch, env.popen, LaunchWritten(spec.name), w');
      if env.popen.Some? {
        BeginStartsNothing(w, o, spec, env.logsExist, env.launchWriteOk, env.popen.value);
        GapKeepsUnused(w', o, env.gaps.launch, env.popen.value);
      }
      RunSplit(w', GapSteps(o, env.gaps.launch), LaunchPath(o, env));
      r, w' := Launch(spec, env, m, rows, polls, w1);
      assert state.children == before.children[spec.name := Launched(LaunchRecord(before, spec, me), env)];
    }
  }

  lemma BeginStartsNothing(w: World, o: Process, spec: Spec, logs: bool, ok: bool, q: Process)
    requires Inv(w) && Unused(w, q)
    ensures Unused(Next(w, BeginChild(o, spec, logs, ok)), q)
  {
    StepKeepsUnused(w, BeginChild(o, spec, logs, ok), q);
  }

  lemma GapKeepsUnused(w: World, o: Process, g: Gap, q: Process)
    requires Inv(w) && Unused(w, q) && AllAvoid(g.others, q.pid)
    ensures Unused(RunSteps(w, GapSteps(o, g)), q)
  {
    hide Inv, Unused, Next;
    PathKeepsUnused(w, GapSteps(o, g), q);
  }

  lemma OwnersHaveLived(w: World)
    requires Inv(w)
    ensures w.owners.Keys <= w.ever
  {
  }

  /**
    Open an evidence directory: a requested run id that differs from the stored
    one is an error; without a request the stored id is used, or `generated`.
   */
  method OpenRun(file: StateFile, me: Self, requested: Option<string>, generated: string, ghost w: World)
    returns (run: Option<ObservedRun>, ghost runId: string)
    requires w.disk == file.content && Unused(w, me.process)
    ensures run.None? <==> requested.Some? && requested.value != "" && file.content.Some? && file.content.value.runId != requested.value
    ensures run.Some? ==>
      && fresh(run.value) && run.value.file == file && run.value.me == me && !run.value.lockHeld && run.value.activeProcess == None
      && run.value.Mirrors(Next(w, Construct(me, runId)), Fresh)
      && (requested.Some? && requested.value != "" ==> run.value.state.runId == requested.value)
  {
    hide Next;
    var id := if requested.Some? && requested.value != "" then requested.value else generated;
    runId := id;
    var owner := new ObservedRun(file, me, id, w);
    if requested.Some? && requested.value != "" && owner.state.runId != requested.value {
      return None, id;
    }
    return Some(owner), id;
  }
}
