/**
  Why the protocol needs its one assumption about threads: finish joins the
  heartbeat and reader threads for a bounded time only, so a thread of an owner
  that has already released the lock could still write.  If such an owner's
  memory holds no needs_review child, one late write is enough to put two
  children of one evidence directory side by side.
 */
module StaleFlush {
  import opened Options
  import opened Processes
  import opened EvidenceState
  import opened EvidenceProtocol

  /** A thread of an owner that released the lock writes its old memory once more. */
  function WriteStale(w: World, o: Process): World
    requires o in w.owners
  {
    PutAndWrite(w, o, Done, w.owners[o].memory, true)
  }

  const A := Process(1, "a")
  const B := Process(2, "b")
  const C := Process(3, "c")
  const FIRST := Process(11, "p")
  const SECOND := Process(12, "q")
  const CHILD := Spec("c", ["run"], "/", false)
  const NO_PROBES := Probes(Unknown, Unknown, Unknown, Unknown, map[])

  function SelfOf(p: Process): Self {
    Self(p, "source", "environment")
  }

  function Stored(owner: Process, st: Status): Snapshot {
    Snapshot("r", st, IdentityOf(owner), map[], None)
  }

  /** The launching record either spawner writes. */
  const LAUNCH := Child("c", 1, Launching, CommandPrint(["run"], "/", "environment"), "source", false, NO_IDENTITY, None)

  function InLaunch(owner: Process): Snapshot {
    Snapshot("r", Running, IdentityOf(owner), map["c" := LAUNCH], Some(LAUNCH))
  }

  /** Owner A runs nothing and finishes: its lock is free, its memory stays. */
  function AfterA(): World {
    Next(Next(Next(Next(START, Construct(SelfOf(A), "r")), TryAcquire(A, [], NO_PROBES, true, true)),
         StartRun(A, true)), Finish(A, Failed, true))
  }

  /** The steps by which an owner resumes a run without children. */
  function Restart(w: World, o: Process): World {
    Next(Next(Next(w, Construct(SelfOf(o), "r")), TryAcquire(o, [], NO_PROBES, true, true)), StartRun(o, true))
  }

  /** Restart, then spawn the one child. */
  function Resume(w: World, o: Process, p: Process): World {
    Next(Next(Restart(w, o), BeginChild(o, CHILD, false, true)), Popen(o, p))
  }

  lemma FirstAcquire()
    ensures Next(Next(START, Construct(SelfOf(A), "r")), TryAcquire(A, [], NO_PROBES, true, true))
         == World({A}, {A}, Some(A), None, map[A := Owner(SelfOf(A), Held, Stored(A, Created))], START.past)
  {
  }

  lemma AfterAIs()
    ensures AfterA() == World({A}, {A}, None, Some(Stored(A, Failed)), map[A := Owner(SelfOf(A), Done, Stored(A, Failed))],
                              START.past.(started := [A]))
  {
    FirstAcquire();
    var w2 := World({A}, {A}, Some(A), None, map[A := Owner(SelfOf(A), Held, Stored(A, Created))], START.past);
    FirstStart(w2);
    hide Apply;
    FirstFinish(Next(w2, StartRun(A, true)));
  }

  lemma FirstStart(w: World)
    requires w == World({A}, {A}, Some(A), None, map[A := Owner(SelfOf(A), Held, Stored(A, Created))], START.past)
    ensures Next(w, StartRun(A, true)) == World({A}, {A}, Some(A), Some(Stored(A, Running)),
              map[A := Owner(SelfOf(A), Ready, Stored(A, Running))], START.past.(started := [A]))
  {
  }

  lemma FirstFinish(w: World)
    requires w == World({A}, {A}, Some(A), Some(Stored(A, Running)),
               map[A := Owner(SelfOf(A), Ready, Stored(A, Running))], START.past.(started := [A]))
    ensures Next(w, Finish(A, Failed, true)) == World({A}, {A}, None, Some(Stored(A, Failed)),
              map[A := Owner(SelfOf(A), Done, Stored(A, Failed))], START.past.(started := [A]))
  {
  }

  lemma RestartsFromEmpty(w: World, o: Process, writer: Process)
    requires w.lock.None? && w.disk == Some(Stored(writer, Failed)) && Unused(w, o)
    ensures
      Restart(w, o) == w.(alive := w.alive + {o}, ever := w.ever + {o}, lock := Some(o), disk := Some(Stored(o, Running)),
                          owners := w.owners[o := Owner(SelfOf(o), Ready, Stored(o, Running))],
                          past := w.past.(started := w.past.started + [o]))
  {
    var w1 := Next(w, Construct(SelfOf(o), "r"));
    assert w1.owners == w.owners[o := Owner(SelfOf(o), Fresh, Stored(writer, Failed))];
    var w2 := Next(w1, TryAcquire(o, [], NO_PROBES, true, true));
    assert w2.owners == w.owners[o := Owner(SelfOf(o), Held, Stored(writer, Failed))] && w2.lock == Some(o);
  }

  lemma Launches(w: World, o: Process)
    requires o in w.owners && w.owners[o] == Owner(SelfOf(o), Ready, Stored(o, Running))
    ensures Next(w, BeginChild(o, CHILD, false, true)) ==
            w.(disk := Some(InLaunch(o)), owners := w.owners[o := Owner(SelfOf(o), LaunchWritten("c"), InLaunch(o))])
  {
  }

  lemma Spawns(w: World, o: Process, p: Process)
    requires o in w.owners && w.owners[o] == Owner(SelfOf(o), LaunchWritten("c"), InLaunch(o)) && Unused(w, p)
    ensures Next(w, Popen(o, p)) ==
            w.(alive := w.alive + {p}, ever := w.ever + {p}, owners := w.owners[o := Owner(SelfOf(o), Spawned("c", p), InLaunch(o))],
               past := w.past.(spawned := w.past.spawned[p := ExecOf(LAUNCH)], order := w.past.order + [p]))
  {
  }

  /** Resuming from a finished, childless run on disk ends with one more child alive. */
  lemma ResumeSpawns(w: World, o: Process, p: Process, writer: Process)
    requires w.lock.None? && w.disk == Some(Stored(writer, Failed))
    requires Unused(w, o) && Unused(w, p) && o.pid != p.pid
    ensures
      var w' := Resume(w, o, p);
      && w'.alive == w.alive + {o, p} && w'.ever == w.ever + {o, p} && w'.lock == Some(o)
      && w'.owners == w.owners[o := Owner(SelfOf(o), Spawned("c", p), InLaunch(o))]
      && w'.past.spawned == w.past.spawned[p := ExecOf(LAUNCH)]
  {
    RestartsFromEmpty(w, o, writer);
    Launches(Restart(w, o), o);
    hide Restart, Next;
    Spawns(Next(Restart(w, o), BeginChild(o, CHILD, false, true)), o, p);
  }

  /** The late write puts the childless snapshot back; B's death frees the lock. */
  lemma LateWriteHidesTheChild(w: World)
    requires A in w.owners && B in w.owners && w.lock == Some(B) && w.owners[A] == Owner(SelfOf(A), Done, Stored(A, Failed))
    ensures
      var freed := Next(WriteStale(w, A), Crash(B, 1));
      && freed.lock.None? && freed.disk == Some(Stored(A, Failed))
      && freed.alive == w.alive - {B} && freed.ever == w.ever && freed.past.spawned == w.past.spawned
  {
  }

  /**
    A releases the lock, B resumes and spawns, A's late write hides B's
    launching record, B dies, and C resumes and spawns: two children live.
   */
  lemma OneStaleWriteGivesTwoChildren()
    ensures
      var spawnedByB := Resume(AfterA(), B, FIRST);
      && A in spawnedByB.owners && spawnedByB.owners[A].phase.Done? && !ChildBlocked(spawnedByB.owners[A].memory)
      && var both := Resume(Next(WriteStale(spawnedByB, A), Crash(B, 1)), C, SECOND);
         && FIRST != SECOND
         && FIRST in both.past.spawned && FIRST in both.alive
         && SECOND in both.past.spawned && SECOND in both.alive
  {
    hide Resume, AfterA, Next;
    AfterAIs();
    ResumeSpawns(AfterA(), B, FIRST, A);
    var w := Resume(AfterA(), B, FIRST);
    LateWriteHidesTheChild(w);
    var freed := Next(WriteStale(w, A), Crash(B, 1));
    hide WriteStale;
    ResumeSpawns(freed, C, SECOND, A);
  }
}
