/**
  terminate_owned_process_tree of scripts/regression_common.py (the path for
  systems with /proc).  Time passes at every probe and signal: processes may
  end, PIDs may be reused, a probe may learn nothing.  What happens outside is
  an arbitrary history that obeys the laws of `Lawful`.
 */
module ProcessTree {
  import opened Options
  import opened Processes
  import opened Descendants

  /** What kill answers: delivered, no such process, or another error. */
  datatype Delivery = Delivered | NoSuchProcess | Refused

  /** Who is alive at each instant, and what a probe or signal made then is answered. */
  datatype Outside = Outside(alive: nat -> set<Process>, answer: (nat, nat) -> Probe, delivery: (nat, nat) -> Delivery)

  ghost predicate Lawful(o: Outside) {
    && (forall t: nat :: OnePerPid(o.alive(t)))
    && (forall t: nat, pid: nat :: Sound(o.alive(t), pid, o.answer(t, pid)))
    && (forall p, s: nat, t: nat, u: nat :: s <= t <= u && p in o.alive(s) && p !in o.alive(t) ==> p !in o.alive(u))
  }

  ghost predicate WasAlive(o: Outside, p: Process, now: nat) {
    exists s: nat :: s <= now && p in o.alive(s)
  }

  lemma DeadLater(o: Outside, p: Process, t: nat, u: nat)
    requires Lawful(o) && WasAlive(o, p, t) && p !in o.alive(t) && t <= u
    ensures p !in o.alive(u)
  {
  }

  /** One signal sent, at which instant, and the process it was meant for. */
  datatype Signal = Signal(time: nat, target: Process, hard: bool)

  /** The identity of a signal's target was confirmed at the instant before. */
  ghost predicate Justified(o: Outside, s: Signal) {
    s.time > 0 && s.target in o.alive(s.time - 1)
  }

  /** The running system as this process sees it. */
  class Machine {
    const outside: Outside
    var now: nat
    var signals: seq<Signal>

    constructor (outside: Outside)
      ensures this.outside == outside && now == 0 && signals == []
    {
      this.outside := outside;
      now, signals := 0, [];
    }

    /** process_identity_probe. */
    method Ask(pid: nat) returns (a: Probe)
      modifies this`now
      ensures now == old(now) + 1 && a == outside.answer(old(now), pid)
    {
      a := outside.answer(now, pid);
      now := now + 1;
    }

    /** _identity_is_current: the last look before a signal. */
    method IsCurrent(p: Process) returns (current: bool)
      requires Lawful(outside)
      modifies this`now
      ensures now == old(now) + 1 && (current ==> p in outside.alive(old(now)))
      ensures current <==> outside.answer(old(now), p.pid) == Live(p.token)
    {
      var a := Ask(p.pid);
      current := a.Live? && a.token == p.token;
    }

    method Send(p: Process, hard: bool) returns (d: Delivery)
      modifies this
      ensures now == old(now) + 1 && signals == old(signals) + [Signal(old(now), p, hard)]
      ensures d == outside.delivery(old(now), p.pid)
    {
      signals := signals + [Signal(now, p, hard)];
      d := outside.delivery(now, p.pid);
      now := now + 1;
    }
  }

  /** The result record: "attempted": False, "terminated": True or False, or an exception from kill. */
  datatype Cleanup = NotAttempted | EndedByTerm | EndedByKill | StillAlive | KillRaised

  /** Every signal sent since `from` was justified and meant for one of `ours`. */
  ghost predicate OnlyOurs(o: Outside, signals: seq<Signal>, from: nat, ours: seq<Process>) {
    from <= |signals| && forall i :: from <= i < |signals| ==> Justified(o, signals[i]) && signals[i].target in ours
  }

  /** `p` was sent the signal since `from`, unless a probe between the two instants did not confirm it. */
  ghost predicate Tried(o: Outside, signals: seq<Signal>, from: nat, t: nat, u: nat, hard: bool, p: Process) {
    || (exists i :: from <= i < |signals| && signals[i].target == p && signals[i].hard == hard)
    || (exists k: nat :: t <= k < u && o.answer(k, p.pid) != Live(p.token))
  }

  lemma TriedLater(o: Outside, signals: seq<Signal>, signals': seq<Signal>, from: nat, t: nat, u: nat, v: nat, hard: bool, p: Process)
    requires Tried(o, signals, from, t, u, hard, p) && signals <= signals' && u <= v
    ensures Tried(o, signals', from, t, v, hard, p)
  {
    if i :| from <= i < |signals| && signals[i].target == p && signals[i].hard == hard {
      assert signals'[i] == signals[i];
    } else {
      var k: nat :| t <= k < u && o.answer(k, p.pid) != Live(p.token);
      assert k < v;
    }
  }

  lemma EarlierStart(o: Outside, signals: seq<Signal>, from: nat, s: nat, t: nat, u: nat, hard: bool, p: Process)
    requires s <= t && Tried(o, signals, from, t, u, hard, p)
    ensures Tried(o, signals, from, s, u, hard, p)
  {
  }

  // --- what a result is owed to ---------------------------------------------------------

  /** A probe of one of these learned nothing. */
  ghost predicate Blank(o: Outside, ps: iset<Process>, t: nat, u: nat) {
    exists p, k: nat :: p in ps && t <= k < u && o.answer(k, p.pid).Unknown?
  }

  predicate UnderAnother(a: Probe, p: Process) {
    a.Live? && a.token != p.token
  }

  /** A probe found the PID of one of these under another token. */
  ghost predicate Reused(o: Outside, ps: iset<Process>, t: nat, u: nat) {
    exists p, k: nat :: p in ps && t <= k < u && UnderAnother(o.answer(k, p.pid), p)
  }

  /** A signal to one of these was sent, and refused with an error other than "no such process". */
  ghost predicate KillRefused(o: Outside, signals: seq<Signal>, from: nat, ps: iset<Process>, hard: bool) {
    exists i :: from <= i < |signals| && signals[i].target in ps && signals[i].hard == hard
                && o.delivery(signals[i].time, signals[i].target.pid).Refused?
  }

  /** A probe of one of these, made after all the signals of that kind, found it alive. */
  ghost predicate Survived(o: Outside, signals: seq<Signal>, from: nat, ps: iset<Process>, t: nat, u: nat, hard: bool) {
    exists p, k: nat :: p in ps && t <= k < u && o.answer(k, p.pid) == Live(p.token) && SentBefore(signals, from, k, hard)
  }

  ghost predicate SentBefore(signals: seq<Signal>, from: nat, k: nat, hard: bool) {
    forall i :: from <= i < |signals| && signals[i].hard == hard ==> signals[i].time < k
  }

  /** Two probes of one of these in a row, made after all the signals of that kind, did not let it pass for gone. */
  ghost predicate Lingered(o: Outside, signals: seq<Signal>, from: nat, ps: iset<Process>, u: nat, hard: bool) {
    exists p, k: nat :: p in ps && k < u - 1 && Lingers(o.answer(k, p.pid), o.answer(k + 1, p.pid), p) && SentBefore(signals, from, k, hard)
  }

  predicate Lingers(first: Probe, second: Probe, p: Process) {
    first.Live? && (second == Live(p.token) || second == Gone(Some(p.token)))
  }

  /** The new signals were sent in this stretch of time, and are of one kind. */
  ghost predicate SentIn(signals: seq<Signal>, from: nat, t: nat, u: nat, hard: bool) {
    forall i :: from <= i < |signals| ==> t <= signals[i].time < u && signals[i].hard == hard
  }

  /** The answer at this instant let the check of a descendant pass, and any signal came later. */
  ghost predicate ClearedAt(o: Outside, signals: seq<Signal>, from: nat, p: Process, k: nat) {
    !TargetDoubtful(o.answer(k, p.pid), p) && forall i :: from <= i < |signals| ==> k < signals[i].time
  }

  ghost function Those(ps: seq<Process>): iset<Process> {
    iset p | p in ps
  }

  ghost predicate AllSeen(o: Outside, ps: seq<Process>, now: nat) {
    forall p :: p in ps ==> WasAlive(o, p, now)
  }

  ghost predicate AllDead(o: Outside, ps: seq<Process>, now: nat) {
    forall p :: p in ps ==> p !in o.alive(now)
  }

  lemma SeenLater(o: Outside, ps: seq<Process>, t: nat, u: nat)
    requires AllSeen(o, ps, t) && t <= u
    ensures AllSeen(o, ps, u)
  {
  }

  /** One round over the targets: which still live, unless some probe learns nothing. */
  method LiveTargets(m: Machine, ps: seq<Process>) returns (live: seq<Process>, unknown: bool)
    requires Lawful(m.outside) && AllSeen(m.outside, ps, m.now)
    modifies m`now
    ensures m.now >= old(m.now)
    ensures forall p :: p in live ==> p in ps
    ensures !unknown ==> forall p :: p in ps ==> p in live || p !in m.outside.alive(m.now)
    ensures unknown ==> Blank(m.outside, Those(ps), old(m.now), m.now)
    ensures forall p :: p in live ==> exists k: nat :: old(m.now) <= k < m.now && m.outside.answer(k, p.pid) == Live(p.token)
  {
    live, unknown := [], false;
    for i := 0 to |ps|
      invariant m.now >= old(m.now)
      invariant forall p :: p in live ==> p in ps
      invariant forall p :: p in live ==> exists k: nat :: old(m.now) <= k < m.now && m.outside.answer(k, p.pid) == Live(p.token)
      invariant forall j :: 0 <= j < i ==> ps[j] in live || ps[j] !in m.outside.alive(m.now)
    {
      var t := m.now;
      var a := m.Ask(ps[i].pid);
      if a.Unknown? {
        assert ps[i] in Those(ps) && m.outside.answer(t, ps[i].pid).Unknown?;
        return [], true;
      }
      assert Sound(m.outside.alive(t), ps[i].pid, a) && OnePerPid(m.outside.alive(t));
      SoundProbeDecides(m.outside.alive(t), IdentityOf(ps[i]), a);
      assert Named(IdentityOf(ps[i])) == ps[i];
      SeenLater(m.outside, ps, old(m.now), t);
      forall j | 0 <= j <= i && ps[j] !in m.outside.alive(t) ensures ps[j] !in m.outside.alive(m.now) {
        assert ps[j] in ps;
        DeadLater(m.outside, ps[j], t, m.now);
      }
      if a.Live? && a.token == ps[i].token {
        live := live + [ps[i]];
      }
    }
  }

  /** One target: a last look, and the signal if its identity is still current. */
  method SignalOne(m: Machine, p: Process, hard: bool) returns (refused: bool)
    requires Lawful(m.outside)
    modifies m
    ensures old(m.now) < m.now
    ensures
      var t := old(m.now);
      if m.outside.answer(t, p.pid) == Live(p.token) then
        && m.signals == old(m.signals) + [Signal(t + 1, p, hard)] && m.now == t + 2 && p in m.outside.alive(t)
        && (refused <==> m.outside.delivery(t + 1, p.pid).Refused?)
      else m.signals == old(m.signals) && !refused
  {
    refused := false;
    var current := m.IsCurrent(p);
    if current {
      var d := m.Send(p, hard);
      refused := d.Refused?;
    }
  }

  /** Signal, last first, each target whose identity is still current; unless kill is refused none is passed over. */
  method SignalAll(m: Machine, ps: seq<Process>, hard: bool) returns (refused: bool)
    requires Lawful(m.outside)
    modifies m
    ensures m.now >= old(m.now)
    ensures |m.signals| >= |old(m.signals)| && m.signals[..|old(m.signals)|] == old(m.signals)
    ensures OnlyOurs(m.outside, m.signals, |old(m.signals)|, ps)
    ensures !refused ==> forall p :: p in ps ==> Tried(m.outside, m.signals, |old(m.signals)|, old(m.now), m.now, hard, p)
    ensures SentIn(m.signals, |old(m.signals)|, old(m.now), m.now, hard)
    ensures refused ==> KillRefused(m.outside, m.signals, |old(m.signals)|, Those(ps), hard)
  {
    hide Lawful;
    refused := false;
    ghost var from, start := |m.signals|, m.now;
    var i := |ps|;
    while i > 0
      invariant 0 <= i <= |ps| && m.now >= start
      invariant |m.signals| >= from && m.signals[..from] == old(m.signals)
      invariant OnlyOurs(m.outside, m.signals, from, ps) && SentIn(m.signals, from, start, m.now, hard)
      invariant forall j :: i <= j < |ps| ==> Tried(m.outside, m.signals, from, start, m.now, hard, ps[j])
    {
      i := i - 1;
      ghost var before, t := m.signals, m.now;
      refused := SignalOne(m, ps[i], hard);
      OneMoreSignal(m.outside, before, m.signals, from, start, t, m.now, ps, i, hard);
      if refused {
        assert m.signals[|before|].target in Those(ps);
        return;
      }
    }
  }

  /** What is known of the signals so far, after one more turn. */
  lemma OneMoreSignal(o: Outside, before: seq<Signal>, signals: seq<Signal>, from: nat, start: nat, t: nat, now: nat, ps: seq<Process>, i: nat,
                      hard: bool)
    requires from <= |before| && start <= t < now && i < |ps|
    requires OnlyOurs(o, before, from, ps) && SentIn(before, from, start, t, hard)
    requires forall j :: i < j < |ps| ==> Tried(o, before, from, start, t, hard, ps[j])
    requires if o.answer(t, ps[i].pid) == Live(ps[i].token)
             then signals == before + [Signal(t + 1, ps[i], hard)] && now == t + 2 && ps[i] in o.alive(t)
             else signals == before
    ensures OnlyOurs(o, signals, from, ps) && SentIn(signals, from, start, now, hard)
    ensures forall j :: i <= j < |ps| ==> Tried(o, signals, from, start, now, hard, ps[j])
  {
    forall j | i <= j < |ps| ensures Tried(o, signals, from, start, now, hard, ps[j]) {
      if i < j {
        TriedLater(o, before, signals, from, start, t, now, hard, ps[j]);
      } else if signals != before {
        assert signals[|before|] == Signal(t + 1, ps[i], hard);
      }
    }
  }

  /** The verdict of the last wait on one process: two separate probes, the second only after a live first. */
  predicate LooksGone(first: Probe, second: Probe, token: string) {
    !first.Live? || !(match second
                      case Live(t) => t == token
                      case Gone(last) => last == Some(token)
                      case Unknown => false)
  }

  /** Whether that verdict rested on a probe that learned nothing. */
  predicate Guessed(first: Probe, second: Probe, token: string) {
    first.Unknown? || (first == Live(token) && second.Unknown?)
  }

  /** `any(...)` of the last wait: stops at the first target that still looks alive. */
  method AnyStillLive(m: Machine, ps: seq<Process>) returns (any: bool, ghost guessed: bool)
    requires Lawful(m.outside) && AllSeen(m.outside, ps, m.now)
    modifies m`now
    ensures m.now >= old(m.now)
    ensures !any && !guessed ==> AllDead(m.outside, ps, m.now)
    ensures any ==> exists p, k: nat ::
      p in ps && old(m.now) <= k < m.now - 1 && Lingers(m.outside.answer(k, p.pid), m.outside.answer(k + 1, p.pid), p)
    ensures guessed ==> Blank(m.outside, Those(ps), old(m.now), m.now)
  {
    hide Blank, Those, OnePerPid, Sound;
    any, guessed := false, false;
    for i := 0 to |ps|
      invariant m.now >= old(m.now)
      invariant !guessed ==> forall j :: 0 <= j < i ==> ps[j] !in m.outside.alive(m.now)
      invariant guessed ==> Blank(m.outside, Those(ps), old(m.now), m.now)
    {
      ghost var t := m.now;
      SeenLater(m.outside, ps, old(m.now), t);
      var first := m.Ask(ps[i].pid);
      ghost var u := m.now;
      var second := first;
      if first.Live? {
        second := m.Ask(ps[i].pid);
      }
      if guessed {
        BlankLater(m.outside, ps, old(m.now), old(m.now), t, m.now);
      }
      if !LooksGone(first, second, ps[i].token) {
        assert ps[i] in ps && Lingers(m.outside.answer(t, ps[i].pid), m.outside.answer(t + 1, ps[i].pid), ps[i]);
        return true, guessed;
      }
      if Guessed(first, second, ps[i].token) {
        guessed := true;
        BlankHere(m.outside, ps, i, old(m.now), if first.Unknown? then t else u, m.now);
      } else {
        assert ps[i] in ps && WasAlive(m.outside, ps[i], t);
        VerdictIsTrue(m.outside, ps[i], t, first, second, m.now);
      }
      forall j | 0 <= j < i && ps[j] !in m.outside.alive(t) ensures ps[j] !in m.outside.alive(m.now) {
        assert ps[j] in ps;
        DeadLater(m.outside, ps[j], t, m.now);
      }
    }
  }

  lemma VerdictIsTrue(o: Outside, p: Process, t: nat, first: Probe, second: Probe, now: nat)
    requires Lawful(o) && WasAlive(o, p, t)
    requires first == o.answer(t, p.pid) && (first.Live? ==> second == o.answer(t + 1, p.pid))
    requires now == if first.Live? then t + 2 else t + 1
    requires LooksGone(first, second, p.token) && !Guessed(first, second, p.token)
    ensures p !in o.alive(now)
  {
  }

  /**
    The last wait is trustworthy on exactly the answers that are not guesses: any
    guess also fits a system in which the process is alive all along.
   */
  lemma LastWaitIsTrueExactly(p: Process, first: Probe, second: Probe)
    ensures
      LooksGone(first, second, p.token) ==>
        (Guessed(first, second, p.token) <==>
         exists alive: set<Process> :: OnePerPid(alive) && p in alive && Sound(alive, p.pid, first) && (first.Live? ==> Sound(alive, p.pid, second)))
  {
    if LooksGone(first, second, p.token) {
      if Guessed(first, second, p.token) {
        var alive := {p};
        assert OnePerPid(alive) && Sound(alive, p.pid, first);
      } else {
        forall alive: set<Process> | OnePerPid(alive) && Sound(alive, p.pid, first) && (first.Live? ==> Sound(alive, p.pid, second))
          ensures p !in alive
        {
          assert Named(IdentityOf(p)) == p;
          SoundProbeDecides(alive, IdentityOf(p), first);
          if first.Live? {
            SoundProbeDecides(alive, IdentityOf(p), second);
          }
        }
      }
    }
  }

  function ProcessOf(r: Row): Process {
    Process(r.pid, r.token)
  }

  /** The live rows among the descendants, as processes. */
  function Targets(rows: seq<Row>): (ps: seq<Process>)
    ensures forall p :: p in ps <==> exists r :: r in rows && !r.zombie && ProcessOf(r) == p
  {
    if rows == [] then []
    else
      var head := rows[0];
      var rest := Targets(rows[1..]);
      assert rows == [head] + rows[1..];
      if head.zombie then rest else [ProcessOf(head)] + rest
  }

  /** Why the call gives up before doing anything. */
  predicate RootDoubtful(expected: Option<string>, a: Probe) {
    || expected.None?
    || a.Unknown?
    || (a.Live? && a.token != expected.value)
    || (a.Gone? && a.last.Some? && a.last != expected)
  }

  /** A read of the process table at or before `now`: what it shows as running was running. */
  ghost predicate TrueTable(o: Outside, rows: seq<Row>, now: nat) {
    DistinctPids(rows) && forall r :: r in rows && !r.zombie ==> WasAlive(o, ProcessOf(r), now)
  }

  /** Who may be signalled: the root under its expected token, and its recorded live descendants. */
  ghost predicate Ours(rows: seq<Row>, root: Process, p: Process) {
    p == root || IsBranch(rows, root, p)
  }

  ghost predicate IsBranch(rows: seq<Row>, root: Process, p: Process) {
    exists r :: r in rows && !r.zombie && Descendant(rows, root.pid, r) && ProcessOf(r) == p
  }

  ghost function Tree(rows: seq<Row>, root: Process): iset<Process> {
    iset p | Ours(rows, root, p)
  }

  ghost function Branches(rows: seq<Row>, root: Process): iset<Process> {
    iset p | IsBranch(rows, root, p)
  }

  /** The first answer fits the process the caller means: alive under its token, or gone with no other token to be seen. */
  predicate FitsRoot(root: Process, a: Probe) {
    a == Live(root.token) || a == Gone(Some(root.token)) || a == Gone(None)
  }

  /** Why a call with an expected token may attempt nothing: what it was told, or was refused, on the way. */
  ghost predicate GivesUp(m: Outside, signals: seq<Signal>, from: nat, rows: seq<Row>, root: Process, t: nat, u: nat) {
    || !FitsRoot(root, m.answer(t, root.pid))
    || Blank(m, Tree(rows, root), t, u)
    || (Reused(m, Branches(rows, root), t, u) && |signals| == from)
    || KillRefused(m, signals, from, Branches(rows, root), false)
  }

  /**
    Terminate a process tree.  `rows` is read after the first probe.  `polls` and `hardPolls` count the turns the two
    waits get before their deadlines.
   */
  method TerminateOwned(m: Machine, pid: nat, expected: Option<string>, rows: seq<Row>, polls: nat, hardPolls: nat)
    returns (r: Cleanup, ghost guessed: bool)
    requires Lawful(m.outside)
    requires TrueTable(m.outside, rows, m.now + 1) && !RootOnCycle(rows, pid)
    requires expected.Some? ==> WasAlive(m.outside, Process(pid, expected.value), m.now)
    modifies m
    ensures expected.None? ==> r == NotAttempted && m.signals == old(m.signals)
    ensures |m.signals| >= |old(m.signals)| && m.signals[..|old(m.signals)|] == old(m.signals)
    ensures expected.Some? ==> forall i :: |old(m.signals)| <= i < |m.signals| ==>
      Justified(m.outside, m.signals[i]) && Ours(rows, Process(pid, expected.value), m.signals[i].target)
    ensures r == EndedByTerm || (r == EndedByKill && !guessed) ==>
      && expected.Some?
      && forall p :: Ours(rows, Process(pid, expected.value), p) ==> p !in m.outside.alive(m.now)
    ensures r == EndedByTerm || r == EndedByKill || r == StillAlive ==>
      && expected.Some?
      && forall p :: Ours(rows, Process(pid, expected.value), p) ==> Tried(m.outside, m.signals, |old(m.signals)|, old(m.now), m.now, false, p)
    ensures guessed ==> expected.Some? && Blank(m.outside, Tree(rows, Process(pid, expected.value)), old(m.now), m.now)
    ensures r == NotAttempted ==>
      expected.None? || GivesUp(m.outside, m.signals, |old(m.signals)|, rows, Process(pid, expected.value), old(m.now), m.now)
    ensures r == KillRaised ==>
      && expected.Some?
      && (KillRefused(m.outside, m.signals, |old(m.signals)|, iset{Process(pid, expected.value)}, false)
          || KillRefused(m.outside, m.signals, |old(m.signals)|, Tree(rows, Process(pid, expected.value)), true))
    ensures expected.Some? && !FitsRoot(Process(pid, expected.value), m.outside.answer(old(m.now), pid)) ==>
      r == NotAttempted && m.signals == old(m.signals)
    ensures m.signals != old(m.signals) ==>
      && expected.Some?
      && forall p :: p in Branches(rows, Process(pid, expected.value)) ==> exists k: nat ::
           old(m.now) <= k < m.now && ClearedAt(m.outside, m.signals, |old(m.signals)|, p, k)
    ensures (r == EndedByKill || r == StillAlive) && polls > 0 ==>
      && expected.Some?
      && Survived(m.outside, m.signals, |old(m.signals)|, Tree(rows, Process(pid, expected.value)), old(m.now), m.now, false)
    ensures r == StillAlive && hardPolls > 0 ==>
      && expected.Some?
      && Lingered(m.outside, m.signals, |old(m.signals)|, Tree(rows, Process(pid, expected.value)), m.now, true)
  {
    guessed := false;
    ghost var start := m.now;
    var a := m.Ask(pid);
    if RootDoubtful(expected, a) {
      return NotAttempted, false;
    }
    var root := Process(pid, expected.value);
    var found := OwnedDescendants(rows, pid);
    var targets := Targets(found);
    OursAre(m.outside, rows, root, found, m.now);
    assert Those(targets + [root]) == Tree(rows, root) && Those(targets) == Branches(rows, root) && Those([root]) == iset{root};
    hide Ours, IsBranch, TrueTable, Lawful, Tried, RootOnCycle, Targets, Those, Tree, Branches, RootDoubtful;
    hide Blank, Reused, KillRefused, Survived, Lingered, ClearedAt;
    r, guessed := TerminateAll(m, targets, root, polls, hardPolls, start);
    EarlierToo(m.outside, m.signals, |old(m.signals)|, Tree(rows, root), Branches(rows, root), start, m.now);
  }

  /** The same for a list of targets and a root that have all lived; `start` is the instant the call began. */
  method TerminateAll(m: Machine, targets: seq<Process>, root: Process, polls: nat, hardPolls: nat, ghost start: nat)
    returns (r: Cleanup, ghost guessed: bool)
    requires Lawful(m.outside) && AllSeen(m.outside, targets + [root], m.now) && start <= m.now
    modifies m
    ensures m.now >= old(m.now)
    ensures |m.signals| >= |old(m.signals)| && m.signals[..|old(m.signals)|] == old(m.signals)
    ensures OnlyOurs(m.outside, m.signals, |old(m.signals)|, targets + [root])
    ensures r == EndedByTerm || (r == EndedByKill && !guessed) ==> AllDead(m.outside, targets + [root], m.now)
    ensures guessed ==> Blank(m.outside, Those(targets + [root]), old(m.now), m.now)
    ensures r == EndedByTerm || r == EndedByKill || r == StillAlive ==>
      forall p :: p in targets + [root] ==> Tried(m.outside, m.signals, |old(m.signals)|, start, m.now, false, p)
    ensures r == NotAttempted ==>
      || Blank(m.outside, Those(targets + [root]), old(m.now), m.now)
      || (Reused(m.outside, Those(targets), old(m.now), m.now) && m.signals == old(m.signals))
      || KillRefused(m.outside, m.signals, |old(m.signals)|, Those(targets), false)
    ensures r == KillRaised ==>
      || KillRefused(m.outside, m.signals, |old(m.signals)|, Those([root]), false)
      || KillRefused(m.outside, m.signals, |old(m.signals)|, Those(targets + [root]), true)
    ensures m.signals != old(m.signals) ==> forall p :: p in targets ==> exists k: nat ::
      old(m.now) <= k < m.now && ClearedAt(m.outside, m.signals, |old(m.signals)|, p, k)
    ensures (r == EndedByKill || r == StillAlive) && polls > 0 ==>
      Survived(m.outside, m.signals, |old(m.signals)|, Those(targets + [root]), old(m.now), m.now, false)
    ensures r == StillAlive && hardPolls > 0 ==>
      Lingered(m.outside, m.signals, |old(m.signals)|, Those(targets + [root]), m.now, true)
  {
    hide Tried, Lawful, Blank, Reused, KillRefused, Survived, Lingered, OnlyOurs, ClearedAt;
    guessed := false;
    ghost var all, entry, from := targets + [root], m.now, |m.signals|;
    var doubtful := AnyTargetDoubtful(m, targets);
    if Blank(m.outside, Those(targets), entry, m.now) {
      BlankWider(m.outside, targets, all, entry, entry, m.now);
    }
    if doubtful {
      NothingSent(m.outside, m.signals, all);
      return NotAttempted, false;
    }
    ghost var first := m.now;
    SeenLater(m.outside, all, entry, first);
    r, guessed := TermThenKill(m, targets, root, polls, hardPolls);
    if Blank(m.outside, Those(all), first, m.now) {
      BlankLater(m.outside, all, entry, first, m.now, m.now);
    }
    if Survived(m.outside, m.signals, from, Those(all), first, m.now, false) {
      SurvivedEarlier(m.outside, m.signals, from, Those(all), entry, first, m.now, false);
    }
    AllCleared(m.outside, m.signals, from, targets, entry, first);
    if r == EndedByTerm || r == EndedByKill || r == StillAlive {
      TriedSinceStart(m.outside, m.signals, m.signals, from, start, first, m.now, m.now, all);
    }
  }

  /** From the first signal on: SIGTERM, a wait, SIGKILL to what is left, and a last wait. */
  method TermThenKill(m: Machine, targets: seq<Process>, root: Process, polls: nat, hardPolls: nat) returns (r: Cleanup, ghost guessed: bool)
    requires Lawful(m.outside) && AllSeen(m.outside, targets + [root], m.now)
    modifies m
    ensures m.now >= old(m.now)
    ensures |m.signals| >= |old(m.signals)| && m.signals[..|old(m.signals)|] == old(m.signals)
    ensures OnlyOurs(m.outside, m.signals, |old(m.signals)|, targets + [root])
    ensures forall i :: |old(m.signals)| <= i < |m.signals| ==> old(m.now) <= m.signals[i].time
    ensures r == EndedByTerm || (r == EndedByKill && !guessed) ==> AllDead(m.outside, targets + [root], m.now)
    ensures guessed ==> Blank(m.outside, Those(targets + [root]), old(m.now), m.now)
    ensures r == EndedByTerm || r == EndedByKill || r == StillAlive ==>
      forall p :: p in targets + [root] ==> Tried(m.outside, m.signals, |old(m.signals)|, old(m.now), m.now, false, p)
    ensures r == NotAttempted ==>
      || Blank(m.outside, Those(targets + [root]), old(m.now), m.now)
      || KillRefused(m.outside, m.signals, |old(m.signals)|, Those(targets), false)
    ensures r == KillRaised ==>
      || KillRefused(m.outside, m.signals, |old(m.signals)|, Those([root]), false)
      || KillRefused(m.outside, m.signals, |old(m.signals)|, Those(targets + [root]), true)
    ensures (r == EndedByKill || r == StillAlive) && polls > 0 ==>
      Survived(m.outside, m.signals, |old(m.signals)|, Those(targets + [root]), old(m.now), m.now, false)
    ensures r == StillAlive && hardPolls > 0 ==>
      Lingered(m.outside, m.signals, |old(m.signals)|, Those(targets + [root]), m.now, true)
  {
    hide Tried, Lawful, Blank, KillRefused, Survived, Lingered;
    guessed := false;
    ghost var all, first, from := targets + [root], m.now, |m.signals|;
    var done, live;
    r, done, live := TermAndWait(m, targets, root, polls);
    ghost var sent, told := m.signals, m.now;
    if !done {
      SeenLater(m.outside, all, first, m.now);
      r, guessed := KillAndWait(m, targets + [root], live, hardPolls);
      BothOurs(m.outside, sent, m.signals, from, all);
      BothHalves(m.outside, sent, m.signals, from, first, told, m.now, all, live);
      if guessed {
        BlankWider(m.outside, live, all, first, told, m.now);
      }
    }
    if r == EndedByTerm || r == EndedByKill || r == StillAlive {
      TriedSinceStart(m.outside, sent, m.signals, from, first, first, told, m.now, all);
    }
  }

  /** What was seen since the second instant was seen since the first. */
  lemma EarlierToo(o: Outside, signals: seq<Signal>, from: nat, tree: iset<Process>, branches: iset<Process>, t: nat, u: nat)
    ensures Blank(o, tree, t + 1, u) ==> Blank(o, tree, t, u)
    ensures Reused(o, branches, t + 1, u) ==> Reused(o, branches, t, u)
    ensures Survived(o, signals, from, tree, t + 1, u, false) ==> Survived(o, signals, from, tree, t, u, false)
  {
    if Blank(o, tree, t + 1, u) {
      var p: Process, k: nat :| p in tree && t + 1 <= k < u && o.answer(k, p.pid).Unknown?;
      assert t <= k;
    }
    if Reused(o, branches, t + 1, u) {
      var p: Process, k: nat :| p in branches && t + 1 <= k < u && UnderAnother(o.answer(k, p.pid), p);
      assert t <= k;
    }
    if Survived(o, signals, from, tree, t + 1, u, false) {
      SurvivedEarlier(o, signals, from, tree, t, t + 1, u, false);
    }
  }

  lemma NothingSent(o: Outside, signals: seq<Signal>, all: seq<Process>)
    ensures OnlyOurs(o, signals, |signals|, all)
  {
  }

  lemma SurvivedEarlier(o: Outside, signals: seq<Signal>, from: nat, ps: iset<Process>, s: nat, t: nat, u: nat, hard: bool)
    requires Survived(o, signals, from, ps, t, u, hard) && s <= t
    ensures Survived(o, signals, from, ps, s, u, hard)
  {
    hide SentBefore;
    var p: Process, k: nat :| p in ps && t <= k < u && o.answer(k, p.pid) == Live(p.token) && SentBefore(signals, from, k, hard);
    assert s <= k;
  }

  /** The signals of both halves were meant for the same processes. */
  lemma BothOurs(o: Outside, sent: seq<Signal>, signals: seq<Signal>, from: nat, all: seq<Process>)
    requires sent <= signals && OnlyOurs(o, sent, from, all) && OnlyOurs(o, signals, |sent|, all)
    ensures OnlyOurs(o, signals, from, all)
  {
    forall i | from <= i < |signals| ensures Justified(o, signals[i]) && signals[i].target in all {
      assert i < |sent| ==> signals[i] == sent[i];
    }
  }

  /** What is known of the second half's signals, and of those of the first, is known of all. */
  lemma BothHalves(o: Outside, sent: seq<Signal>, signals: seq<Signal>, from: nat, first: nat, told: nat, now: nat, all: seq<Process>,
                   live: seq<Process>)
    requires from <= |sent| && sent <= signals && first <= told <= now && forall p :: p in live ==> p in all
    requires SentIn(sent, from, first, told, false) && SentIn(signals, |sent|, told, now, true)
    ensures KillRefused(o, signals, |sent|, Those(live), true) ==> KillRefused(o, signals, from, Those(all), true)
    ensures Survived(o, sent, from, Those(all), first, told, false) ==> Survived(o, signals, from, Those(all), first, now, false)
    ensures Lingered(o, signals, |sent|, Those(live), now, true) ==> Lingered(o, signals, from, Those(all), now, true)
    ensures forall i :: from <= i < |signals| ==> first <= signals[i].time
  {
    hide KillRefused, Survived, Lingered, Those;
    assert forall i :: from <= i < |sent| ==> signals[i] == sent[i];
    if KillRefused(o, signals, |sent|, Those(live), true) {
      RefusedInAll(o, signals, from, |sent|, live, all);
    }
    if Survived(o, sent, from, Those(all), first, told, false) {
      SurvivedThrough(o, sent, signals, from, all, first, told, now);
    }
    if Lingered(o, signals, |sent|, Those(live), now, true) {
      LingeredInAll(o, sent, signals, from, live, all, now);
    }
  }

  lemma RefusedInAll(o: Outside, signals: seq<Signal>, from: nat, mid: nat, live: seq<Process>, all: seq<Process>)
    requires from <= mid && KillRefused(o, signals, mid, Those(live), true) && forall p :: p in live ==> p in all
    ensures KillRefused(o, signals, from, Those(all), true)
  {
    var i :| mid <= i < |signals| && signals[i].target in Those(live) && signals[i].hard && o.delivery(signals[i].time, signals[i].target.pid).Refused?;
    assert signals[i].target in Those(all);
  }

  lemma SurvivedThrough(o: Outside, sent: seq<Signal>, signals: seq<Signal>, from: nat, all: seq<Process>, first: nat, told: nat, now: nat)
    requires from <= |sent| && sent <= signals && told <= now && Survived(o, sent, from, Those(all), first, told, false)
    requires forall i :: |sent| <= i < |signals| ==> signals[i].hard
    ensures Survived(o, signals, from, Those(all), first, now, false)
  {
    var p: Process, k: nat :| p in Those(all) && first <= k < told && o.answer(k, p.pid) == Live(p.token) && SentBefore(sent, from, k, false);
    assert first <= k < now && SentBefore(signals, from, k, false);
  }

  lemma LingeredInAll(o: Outside, sent: seq<Signal>, signals: seq<Signal>, from: nat, live: seq<Process>, all: seq<Process>, now: nat)
    requires from <= |sent| && sent <= signals && Lingered(o, signals, |sent|, Those(live), now, true) && forall p :: p in live ==> p in all
    requires forall i :: from <= i < |sent| ==> !sent[i].hard
    ensures Lingered(o, signals, from, Those(all), now, true)
  {
    var p: Process, k: nat :| p in Those(live) && k < now - 1 && Lingers(o.answer(k, p.pid), o.answer(k + 1, p.pid), p)
                              && SentBefore(signals, |sent|, k, true);
    assert p in Those(all) && SentBefore(signals, from, k, true);
  }

  lemma BlankHere(o: Outside, ps: seq<Process>, i: nat, t: nat, k: nat, u: nat)
    requires i < |ps| && t <= k < u && o.answer(k, ps[i].pid).Unknown?
    ensures Blank(o, Those(ps), t, u)
  {
    assert ps[i] in Those(ps);
  }

  lemma BlankWider(o: Outside, some: seq<Process>, all: seq<Process>, s: nat, t: nat, u: nat)
    requires Blank(o, Those(some), t, u) && s <= t && forall p :: p in some ==> p in all
    ensures Blank(o, Those(all), s, u)
  {
    var p: Process, k: nat :| p in Those(some) && t <= k < u && o.answer(k, p.pid).Unknown?;
    assert p in Those(all) && s <= k;
  }

  /** The check before the first signal passed for each descendant in its turn. */
  lemma AllCleared(o: Outside, signals: seq<Signal>, from: nat, targets: seq<Process>, entry: nat, first: nat)
    requires first == entry + |targets| && forall i :: from <= i < |signals| ==> first <= signals[i].time
    requires forall i :: 0 <= i < |targets| ==> !TargetDoubtful(o.answer(entry + i, targets[i].pid), targets[i])
    ensures forall p :: p in targets ==> exists k: nat :: entry <= k < first && ClearedAt(o, signals, from, p, k)
  {
    forall p | p in targets ensures exists k: nat :: entry <= k < first && ClearedAt(o, signals, from, p, k) {
      var i :| 0 <= i < |targets| && targets[i] == p;
      assert ClearedAt(o, signals, from, p, entry + i);
    }
  }

  lemma TriedSinceStart(o: Outside, sent: seq<Signal>, signals: seq<Signal>, from: nat, start: nat, first: nat, told: nat, now: nat,
                        all: seq<Process>)
    requires sent <= signals && start <= first && told <= now
    requires forall p :: p in all ==> Tried(o, sent, from, first, told, false, p)
    ensures forall p :: p in all ==> Tried(o, signals, from, start, now, false, p)
  {
    hide Tried;
    forall p | p in all ensures Tried(o, signals, from, start, now, false, p) {
      TriedLater(o, sent, signals, from, first, told, now, false, p);
      EarlierStart(o, signals, from, start, first, now, false, p);
    }
  }

  /** The targets and the root are exactly the processes this call may touch, and all of them have lived. */
  lemma OursAre(o: Outside, rows: seq<Row>, root: Process, found: seq<Row>, now: nat)
    requires TrueTable(o, rows, now) && WasAlive(o, root, now)
    requires forall r :: r in found <==> Descendant(rows, root.pid, r)
    requires forall r :: r in found ==> r in rows
    ensures forall p :: p in Targets(found) + [root] <==> Ours(rows, root, p)
    ensures forall p :: p in Targets(found) <==> IsBranch(rows, root, p)
    ensures AllSeen(o, Targets(found) + [root], now)
  {
  }

  /** SIGTERM to the targets and then the root; None unless a signal is refused. */
  method TermRound(m: Machine, targets: seq<Process>, root: Process) returns (stop: Option<Cleanup>)
    requires Lawful(m.outside)
    modifies m
    ensures m.now >= old(m.now)
    ensures |m.signals| >= |old(m.signals)| && m.signals[..|old(m.signals)|] == old(m.signals)
    ensures OnlyOurs(m.outside, m.signals, |old(m.signals)|, targets + [root])
    ensures SentIn(m.signals, |old(m.signals)|, old(m.now), m.now, false)
    ensures stop == None ==>
      forall p :: p in targets + [root] ==> Tried(m.outside, m.signals, |old(m.signals)|, old(m.now), m.now, false, p)
    ensures stop == None || stop == Some(NotAttempted) || stop == Some(KillRaised)
    ensures stop == Some(NotAttempted) ==> KillRefused(m.outside, m.signals, |old(m.signals)|, Those(targets), false)
    ensures stop == Some(KillRaised) ==> KillRefused(m.outside, m.signals, |old(m.signals)|, Those([root]), false)
  {
    hide Lawful, Tried;
    ghost var start := m.now;
    var refused := SignalAll(m, targets, false);
    if refused {
      return Some(NotAttempted);
    }
    ghost var mid, before, t := |m.signals|, m.signals, m.now;
    var raised := SignalAll(m, [root], false);
    OursGrow(m.outside, m.signals, |old(m.signals)|, mid, targets, root);
    if raised {
      return Some(KillRaised);
    }
    AllTried(m.outside, before, m.signals, |old(m.signals)|, mid, start, t, m.now, targets, root);
    return None;
  }

  /** The first half: SIGTERM to targets and root, and a wait; `done` unless something is left to kill. */
  method TermAndWait(m: Machine, targets: seq<Process>, root: Process, polls: nat) returns (r: Cleanup, done: bool, live: seq<Process>)
    requires Lawful(m.outside) && AllSeen(m.outside, targets + [root], m.now)
    modifies m
    ensures m.now >= old(m.now)
    ensures |m.signals| >= |old(m.signals)| && m.signals[..|old(m.signals)|] == old(m.signals)
    ensures OnlyOurs(m.outside, m.signals, |old(m.signals)|, targets + [root])
    ensures r != EndedByKill && r != StillAlive && (!done ==> r == NotAttempted)
    ensures r == EndedByTerm || !done ==>
      forall p :: p in targets + [root] ==> Tried(m.outside, m.signals, |old(m.signals)|, old(m.now), m.now, false, p)
    ensures done && r == EndedByTerm ==> AllDead(m.outside, targets + [root], m.now)
    ensures !done ==> forall p :: p in live ==> p in targets + [root]
    ensures !done ==> forall p :: p in targets + [root] ==> p in live || p !in m.outside.alive(m.now)
    ensures SentIn(m.signals, |old(m.signals)|, old(m.now), m.now, false)
    ensures done && r == NotAttempted ==>
      || Blank(m.outside, Those(targets + [root]), old(m.now), m.now)
      || KillRefused(m.outside, m.signals, |old(m.signals)|, Those(targets), false)
    ensures r == KillRaised ==> KillRefused(m.outside, m.signals, |old(m.signals)|, Those([root]), false)
    ensures !done && polls > 0 ==> Survived(m.outside, m.signals, |old(m.signals)|, Those(targets + [root]), old(m.now), m.now, false)
  {
    hide Lawful, Tried, OnlyOurs, KillRefused, Blank, Survived;
    ghost var start := m.now;
    var all := targets + [root];
    r, done, live := NotAttempted, true, [];
    var stop := TermRound(m, targets, root);
    if stop.Some? {
      r := stop.value;
      return;
    }
    ghost var sent, told := m.signals, m.now;
    var unknown;
    for n := 0 to polls
      invariant m.now >= start
      invariant |m.signals| >= |old(m.signals)| && m.signals[..|old(m.signals)|] == old(m.signals)
      invariant m.signals == sent && m.now >= told
      invariant n > 0 ==> Survived(m.outside, sent, |old(m.signals)|, Those(all), start, m.now, false)
    {
      ghost var round := m.now;
      SeenLater(m.outside, all, start, m.now);
      live, unknown := LiveTargets(m, all);
      StillTried(m.outside, sent, |old(m.signals)|, start, told, m.now, false, all);
      if unknown {
        BlankLater(m.outside, all, start, round, m.now, m.now);
        return;
      }
      if live == [] {
        r := EndedByTerm;
        return;
      }
      StillThere(m.outside, sent, |old(m.signals)|, all, live[0], start, round, m.now);
    }
    ghost var round := m.now;
    SeenLater(m.outside, all, start, m.now);
    live, unknown := LiveTargets(m, all);
    StillTried(m.outside, sent, |old(m.signals)|, start, told, m.now, false, all);
    if unknown {
      BlankLater(m.outside, all, start, round, m.now, m.now);
    }
    if polls > 0 {
      SurvivedLater(m.outside, sent, |old(m.signals)|, Those(all), start, round, m.now, false);
    }
    done := unknown;
  }

  /** A target that answered in this round did so after the signals. */
  lemma StillThere(o: Outside, sent: seq<Signal>, from: nat, all: seq<Process>, p: Process, start: nat, round: nat, now: nat)
    requires p in all && start <= round && SentIn(sent, from, start, round, false)
    requires exists k: nat :: round <= k < now && o.answer(k, p.pid) == Live(p.token)
    ensures Survived(o, sent, from, Those(all), start, now, false)
  {
    var k: nat :| round <= k < now && o.answer(k, p.pid) == Live(p.token);
    assert p in Those(all) && SentBefore(sent, from, k, false);
  }

  lemma SurvivedLater(o: Outside, signals: seq<Signal>, from: nat, ps: iset<Process>, t: nat, u: nat, v: nat, hard: bool)
    requires Survived(o, signals, from, ps, t, u, hard) && u <= v
    ensures Survived(o, signals, from, ps, t, v, hard)
  {
    hide SentBefore;
    var p, k: nat :| p in ps && t <= k < u && o.answer(k, p.pid) == Live(p.token) && SentBefore(signals, from, k, hard);
    assert k < v;
  }

  lemma BlankLater(o: Outside, ps: seq<Process>, s: nat, t: nat, u: nat, v: nat)
    requires Blank(o, Those(ps), t, u) && s <= t && u <= v
    ensures Blank(o, Those(ps), s, v)
  {
    var p, k: nat :| p in Those(ps) && t <= k < u && o.answer(k, p.pid).Unknown?;
    assert s <= k < v;
  }

  /** Both rounds together passed nobody over. */
  lemma AllTried(o: Outside, before: seq<Signal>, sent: seq<Signal>, from: nat, mid: nat, start: nat, t: nat, told: nat,
                 targets: seq<Process>, root: Process)
    requires from <= mid == |before| && before <= sent && start <= t <= told
    requires forall p :: p in targets ==> Tried(o, before, from, start, t, false, p)
    requires Tried(o, sent, mid, t, told, false, root)
    ensures forall p :: p in targets + [root] ==> Tried(o, sent, from, start, told, false, p)
  {
    forall p | p in targets ensures Tried(o, sent, from, start, told, false, p) {
      TriedLater(o, before, sent, from, start, t, told, false, p);
    }
  }

  lemma StillTried(o: Outside, signals: seq<Signal>, from: nat, t: nat, u: nat, v: nat, hard: bool, ps: seq<Process>)
    requires u <= v && forall p :: p in ps ==> Tried(o, signals, from, t, u, hard, p)
    ensures forall p :: p in ps ==> Tried(o, signals, from, t, v, hard, p)
  {
    forall p | p in ps ensures Tried(o, signals, from, t, v, hard, p) {
      TriedLater(o, signals, signals, from, t, u, v, hard, p);
    }
  }

  /** The signals of both rounds were meant for targets or root. */
  lemma OursGrow(o: Outside, signals: seq<Signal>, from: nat, mid: nat, targets: seq<Process>, root: Process)
    requires from <= mid <= |signals|
    requires OnlyOurs(o, signals[..mid], from, targets) && OnlyOurs(o, signals, mid, [root])
    ensures OnlyOurs(o, signals, from, targets + [root])
  {
  }

  /** What the check of a descendant before the first signal must not find. */
  predicate TargetDoubtful(a: Probe, p: Process) {
    a.Unknown? || UnderAnother(a, p)
  }

  /** That check, one descendant after the other. */
  method AnyTargetDoubtful(m: Machine, ps: seq<Process>) returns (doubtful: bool)
    modifies m`now
    ensures m.now >= old(m.now)
    ensures doubtful <==> exists i :: 0 <= i < |ps| && TargetDoubtful(m.outside.answer(old(m.now) + i, ps[i].pid), ps[i])
    ensures doubtful ==> Blank(m.outside, Those(ps), old(m.now), m.now) || Reused(m.outside, Those(ps), old(m.now), m.now)
    ensures !doubtful ==> m.now == old(m.now) + |ps|
  {
    for i := 0 to |ps|
      invariant m.now == old(m.now) + i
      invariant forall j :: 0 <= j < i ==> !TargetDoubtful(m.outside.answer(old(m.now) + j, ps[j].pid), ps[j])
    {
      var a := m.Ask(ps[i].pid);
      if a.Unknown? || (a.Live? && a.token != ps[i].token) {
        assert ps[i] in Those(ps) && TargetDoubtful(m.outside.answer(old(m.now) + i, ps[i].pid), ps[i]);
        return true;
      }
    }
    return false;
  }

  /** The second half: SIGKILL to what is left, and a last wait. */
  method KillAndWait(m: Machine, all: seq<Process>, live: seq<Process>, hardPolls: nat) returns (r: Cleanup, ghost guessed: bool)
    requires Lawful(m.outside) && AllSeen(m.outside, all, m.now)
    requires forall p :: p in live ==> p in all
    requires forall p :: p in all ==> p in live || p !in m.outside.alive(m.now)
    modifies m
    ensures |m.signals| >= |old(m.signals)| && m.signals[..|old(m.signals)|] == old(m.signals)
    ensures OnlyOurs(m.outside, m.signals, |old(m.signals)|, all)
    ensures r == EndedByKill || r == StillAlive || r == KillRaised
    ensures m.now >= old(m.now)
    ensures r != KillRaised ==> forall p :: p in live ==> Tried(m.outside, m.signals, |old(m.signals)|, old(m.now), m.now, true, p)
    ensures r == EndedByKill && !guessed ==> AllDead(m.outside, all, m.now)
    ensures guessed ==> Blank(m.outside, Those(live), old(m.now), m.now)
    ensures SentIn(m.signals, |old(m.signals)|, old(m.now), m.now, true)
    ensures r == KillRaised ==> KillRefused(m.outside, m.signals, |old(m.signals)|, Those(live), true)
    ensures r == StillAlive && hardPolls > 0 ==> Lingered(m.outside, m.signals, |old(m.signals)|, Those(live), m.now, true)
  {
    hide Lawful;
    guessed := false;
    ghost var start := m.now;
    var raised := SignalAll(m, live, true);
    if raised {
      return KillRaised, false;
    }
    ghost var sent, told := m.signals, m.now;
    for n := 0 to hardPolls
      invariant m.now >= start
      invariant m.signals == sent && m.now >= told
      invariant n > 0 ==> Lingered(m.outside, sent, |old(m.signals)|, Those(live), m.now, true)
    {
      ghost var round := m.now;
      SeenLater(m.outside, all, start, m.now);
      var any;
      any, guessed := AnyStillLive(m, live);
      if guessed {
        BlankLater(m.outside, live, start, round, m.now, m.now);
      }
      StillTried(m.outside, sent, |old(m.signals)|, start, told, m.now, true, live);
      if !any {
        forall p | p in all && p !in live ensures p !in m.outside.alive(m.now) {
          DeadLater(m.outside, p, start, m.now);
        }
        return EndedByKill, guessed;
      }
      StillLingers(m.outside, sent, |old(m.signals)|, live, start, round, m.now);
    }
    StillTried(m.outside, sent, |old(m.signals)|, start, told, m.now, true, live);
    return StillAlive, false;
  }

  /** What a round of the last wait saw, it saw after the signals. */
  lemma StillLingers(o: Outside, sent: seq<Signal>, from: nat, live: seq<Process>, start: nat, round: nat, now: nat)
    requires SentIn(sent, from, start, round, true)
    requires exists p, k: nat :: p in live && round <= k < now - 1 && Lingers(o.answer(k, p.pid), o.answer(k + 1, p.pid), p)
    ensures Lingered(o, sent, from, Those(live), now, true)
  {
    var p: Process, k: nat :| p in live && round <= k < now - 1 && Lingers(o.answer(k, p.pid), o.answer(k + 1, p.pid), p);
    assert p in Those(live) && SentBefore(sent, from, k, true);
  }
}
