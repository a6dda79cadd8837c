/**
  _atomic_write_json of scripts/regression_common.py: write a temporary file,
  flush it, rename it over the target, and retry the rename twice when another
  program holds the target for a moment.  The process may die before or after
  any single file operation, and any operation may fail; `WriteAll` is any
  number of such calls, by one process after another.
 */
module AtomicWrite {
  import opened Options

  /** What a file holds: some prefix of a document, or all of it. */
  datatype Content<T> = Torn(chunks: nat) | Whole(value: T)

  /** The answer of one os.replace. */
  datatype ReplaceAnswer = Replaced | SharingConflict | OtherFailure

  const ATTEMPTS := 3

  function Lookup<T>(files: map<string, Content<T>>, name: string): Option<Content<T>> {
    if name in files then Some(files[name]) else None
  }

  /** The rename lands within three tries, every earlier try having met a sharing conflict. */
  predicate Lands(answers: seq<ReplaceAnswer>) {
    exists k :: 0 <= k < |answers| && k < ATTEMPTS && answers[k] == Replaced && forall j :: 0 <= j < k ==> answers[j] == SharingConflict
  }

  /** A directory, and every state it has been in. */
  class Directory<T(0)> {
    var files: map<string, Content<T>>
    ghost var past: seq<map<string, Content<T>>>

    constructor (files: map<string, Content<T>>)
      ensures this.files == files && past == [files]
    {
      this.files := files;
      past := [files];
    }

    method Put(name: string, c: Content<T>)
      modifies this
      ensures files == old(files)[name := c] && past == old(past) + [files]
    {
      files := files[name := c];
      past := past + [files];
    }

    /** os.replace: one step for every observer. */
    method Rename(source: string, target: string)
      requires source in files && source != target
      modifies this
      ensures files == (old(files) - {source})[target := old(files)[source]] && past == old(past) + [files]
    {
      var c := files[source];
      files := (files - {source})[target := c];
      past := past + [files];
    }

    method Unlink(name: string)
      modifies this
      ensures files == old(files) - {name} && past == old(past) + [files]
    {
      files := files - {name};
      past := past + [files];
    }
  }

  /** How a call ends; a process that dies leaves its temporary file behind. */
  datatype Ending = Returned | Raised | Died

  /**
    What a call meets: `chunks` partial writes; `failAt` the operation that raises,
    if any (0 is opening the file, `chunks` + 1 the flush to disk); the answers
    of os.replace; and how many file operations the process lives to do.
   */
  datatype Job<T> = Job(payload: T, temp: string, chunks: nat, failAt: Option<nat>, answers: seq<ReplaceAnswer>, lives: Option<nat>)

  /** The process lives to do `n` operations. */
  predicate Lives<T>(job: Job<T>, n: nat) {
    job.lives.Some? ==> n <= job.lives.value
  }

  /** Open, write, flush and rename all happen. */
  predicate JobLands<T>(job: Job<T>) {
    (job.failAt.None? || job.failAt.value > job.chunks + 1) && Lands(job.answers) && Lives(job, job.chunks + 3)
  }

  /** Every file but the temporary one and the target stayed as it was. */
  ghost predicate OthersKept<T>(before: map<string, Content<T>>, after: map<string, Content<T>>, target: string, temp: string) {
    forall n :: n != target && n != temp ==> Lookup(after, n) == Lookup(before, n)
  }

  /** In each of these states the target holds the same. */
  ghost predicate Holds<T>(states: seq<map<string, Content<T>>>, target: string, held: Option<Content<T>>) {
    forall i :: 0 <= i < |states| ==> Lookup(states[i], target) == held
  }

  /** One write: the old document in every state but, if the write lands, the last, which has the whole new one. */
  ghost predicate OldThenNew<T>(states: seq<map<string, Content<T>>>, target: string, before: Option<Content<T>>, job: Job<T>) {
    if JobLands(job) then
      && states != [] && Lookup(states[|states| - 1], target) == Some(Whole(job.payload))
      && Holds(states[..|states| - 1], target, before)
    else Holds(states, target, before)
  }

  /** Give up a write: unlink the temporary file, unless the process dies first. */
  method GiveUp<T(0)>(d: Directory<T>, temp: string, alive: bool) returns (e: Ending)
    modifies d
    ensures e == if alive then Raised else Died
    ensures if alive then d.files == old(d.files) - {temp} && d.past == old(d.past) + [d.files]
            else d.files == old(d.files) && d.past == old(d.past)
  {
    if !alive {
      return Died;
    }
    d.Unlink(temp);
    return Raised;
  }

  /** Open, write and flush the temporary file; None if all of it happened, and how the call ends otherwise. */
  method WriteTemp<T(0)>(d: Directory<T>, target: string, job: Job<T>) returns (e: Option<Ending>)
    requires job.temp != target && job.temp !in d.files
    modifies d
    ensures |d.past| >= |old(d.past)| && d.past[..|old(d.past)|] == old(d.past)
    ensures Holds(d.past[|old(d.past)|..], target, Lookup(old(d.files), target)) && Lookup(d.files, target) == Lookup(old(d.files), target)
    ensures OthersKept(old(d.files), d.files, target, job.temp)
    ensures e == None <==> (job.failAt.None? || job.failAt.value > job.chunks + 1) && Lives(job, job.chunks + 2)
    ensures e == None ==> job.temp in d.files && d.files[job.temp] == Whole(job.payload) && |d.past| == |old(d.past)| + job.chunks + 2
    ensures e == Some(Raised) ==> job.temp !in d.files
    ensures e == Some(Died) ==> job.lives.Some? && |d.past| == |old(d.past)| + job.lives.value
    ensures e != Some(Returned)
  {
    ghost var before, from, held := d.files, |d.past|, Lookup(d.files, target);
    var temp, chunks := job.temp, job.chunks;
    if !Lives(job, 1) {
      return Some(Died);
    }
    if job.failAt == Some(0) {
      return Some(Raised);
    }
    d.Put(temp, Torn(0));
    for n := 1 to chunks + 2
      invariant temp in d.files && OthersKept(before, d.files, target, temp) && Lookup(d.files, target) == held
      invariant |d.past| == from + n && d.past[..from] == old(d.past) && Holds(d.past[from..], target, held)
      invariant (job.failAt.Some? ==> job.failAt.value >= n) && Lives(job, n)
      invariant n == chunks + 2 ==> d.files[temp] == Whole(job.payload)
    {
      ghost var past := d.past;
      if job.failAt == Some(n) {
        var ending := GiveUp(d, temp, Lives(job, n + 1));
        return Some(ending);
      }
      if !Lives(job, n + 1) {
        return Some(Died);
      }
      d.Put(temp, if n <= chunks then Torn(n) else Whole(job.payload));
      assert d.past[from..] == past[from..] + [d.files];
    }
    return None;
  }

  /** _atomic_write_json. */
  method AtomicWriteJson<T(0)>(d: Directory<T>, target: string, job: Job<T>) returns (e: Ending)
    requires job.temp != target && job.temp !in d.files && |job.answers| >= ATTEMPTS
    modifies d
    ensures |d.past| >= |old(d.past)| && d.past[..|old(d.past)|] == old(d.past)
    ensures OldThenNew(d.past[|old(d.past)|..], target, Lookup(old(d.files), target), job)
    ensures OthersKept(old(d.files), d.files, target, job.temp) && (e != Died ==> job.temp !in d.files)
    ensures e == Returned <==> JobLands(job)
    ensures e == Died ==> job.lives.Some? && |d.past| == |old(d.past)| + job.lives.value
    ensures Lookup(d.files, target) == if e == Returned then Some(Whole(job.payload)) else Lookup(old(d.files), target)
  {
    ghost var before, from, held := d.files, |d.past|, Lookup(d.files, target);
    var temp := job.temp;
    var failed := WriteTemp(d, target, job);
    if failed.Some? {
      return failed.value;
    }
    ghost var written := d.past;
    assert d.past[from..] == written[from..];
    for attempt := 0 to ATTEMPTS
      invariant d.past == written && temp in d.files && d.files[temp] == Whole(job.payload)
      invariant OthersKept(before, d.files, target, temp) && Lookup(d.files, target) == held
      invariant attempt < ATTEMPTS && forall j :: 0 <= j < attempt ==> job.answers[j] == SharingConflict
    {
      if job.answers[attempt] == Replaced && Lives(job, job.chunks + 3) {
        d.Rename(temp, target);
        assert d.past[from..] == written[from..] + [d.files];
        return Returned;
      }
      if job.answers[attempt] == Replaced {
        return Died;
      }
      if job.answers[attempt] == OtherFailure || attempt == ATTEMPTS - 1 {
        e := GiveUp(d, temp, Lives(job, job.chunks + 3));
        assert e == Raised ==> d.past[from..] == written[from..] + [d.files];
        return;
      }
    }
    assert false;
  }

  // --- any number of writes, each of which may be cut short ---------------------------

  /** The documents of the jobs that land, in order. */
  function Landed<T>(jobs: seq<Job<T>>): seq<T> {
    if jobs == [] then []
    else
      var init := Landed(jobs[..|jobs| - 1]);
      var last := jobs[|jobs| - 1];
      if JobLands(last) then init + [last.payload] else init
  }

  /** Through these states the target holds `before` and then, from one state on each, exactly the documents `docs`, in order. */
  ghost predicate Follows<T>(states: seq<map<string, Content<T>>>, target: string, before: Option<Content<T>>, docs: seq<T>)
    decreases |docs|
  {
    if docs == [] then Holds(states, target, before)
    else exists k: nat :: ArrivesAt(states, target, before, docs, k)
  }

  ghost predicate ArrivesAt<T>(states: seq<map<string, Content<T>>>, target: string, before: Option<Content<T>>, docs: seq<T>, k: nat)
    requires docs != []
    decreases |docs|, 0
  {
    && k < |states| && Holds(states[..k], target, before) && Lookup(states[k], target) == Some(Whole(docs[0]))
    && Follows(states[k + 1..], target, Some(Whole(docs[0])), docs[1..])
  }

  /** What the target holds after the documents. */
  function Latest<T>(before: Option<Content<T>>, docs: seq<T>): Option<Content<T>> {
    if docs == [] then before else Some(Whole(docs[|docs| - 1]))
  }

  /** One more write after the states of the earlier ones. */
  lemma {:induction false} FollowsOn<T>(states: seq<map<string, Content<T>>>, more: seq<map<string, Content<T>>>, target: string,
                                        before: Option<Content<T>>, docs: seq<T>, job: Job<T>)
    requires Follows(states, target, before, docs) && OldThenNew(more, target, Latest(before, docs), job)
    ensures Follows(states + more, target, before, docs + if JobLands(job) then [job.payload] else [])
    decreases |docs|
  {
    hide JobLands;
    if docs == [] {
      assert docs + [job.payload] == [job.payload] && docs + [] == docs && [job.payload][1..] == [];
      if JobLands(job) {
        var k := |states| + |more| - 1;
        assert (states + more)[..k] == states + more[..|more| - 1] && (states + more)[k + 1..] == [];
        assert ArrivesAt(states + more, target, before, [job.payload], k);
      }
    } else {
      var docs' := docs + if JobLands(job) then [job.payload] else [];
      var k: nat :| ArrivesAt(states, target, before, docs, k);
      FollowsOn(states[k + 1..], more, target, Some(Whole(docs[0])), docs[1..], job);
      assert (states + more)[..k] == states[..k] && (states + more)[k + 1..] == states[k + 1..] + more;
      assert docs'[1..] == docs[1..] + if JobLands(job) then [job.payload] else [];
      assert ArrivesAt(states + more, target, before, docs', k);
    }
  }

  /** Temporary names are never used twice and were not there before. */
  ghost predicate FreshNames<T>(jobs: seq<Job<T>>, files: map<string, Content<T>>, target: string, from: nat) {
    && (forall i :: from <= i < |jobs| ==> jobs[i].temp != target && jobs[i].temp !in files && |jobs[i].answers| >= ATTEMPTS)
    && (forall i, j :: from <= i < j < |jobs| ==> jobs[i].temp != jobs[j].temp)
  }

  /**
    Any number of writes, whichever of them fail and at whatever operation their
    processes die: the target passes through exactly the documents that landed,
    each whole, in order, and ends with the last of them.
   */
  method WriteAll<T(0)>(d: Directory<T>, target: string, jobs: seq<Job<T>>)
    requires FreshNames(jobs, d.files, target, 0)
    modifies d
    ensures |d.past| >= |old(d.past)| && d.past[..|old(d.past)|] == old(d.past)
    ensures Follows(d.past[|old(d.past)|..], target, Lookup(old(d.files), target), Landed(jobs))
    ensures Lookup(d.files, target) == Latest(Lookup(old(d.files), target), Landed(jobs))
  {
    hide JobLands;
    ghost var before, from := Lookup(d.files, target), |d.past|;
    for n := 0 to |jobs|
      invariant FreshNames(jobs, d.files, target, n)
      invariant |d.past| >= from && d.past[..from] == old(d.past)
      invariant Follows(d.past[from..], target, before, Landed(jobs[..n]))
      invariant Lookup(d.files, target) == Latest(before, Landed(jobs[..n]))
    {
      ghost var files, past := d.files, d.past;
      var _ := AtomicWriteJson(d, target, jobs[n]);
      StayFresh(jobs, files, d.files, target, n);
      assert d.past[from..] == past[from..] + d.past[|past|..];
      FollowsOn(past[from..], d.past[|past|..], target, before, Landed(jobs[..n]), jobs[n]);
      OneMoreLanded(jobs, n);
    }
    assert jobs[..|jobs|] == jobs;
  }

  lemma OneMoreLanded<T>(jobs: seq<Job<T>>, n: nat)
    requires n < |jobs|
    ensures Landed(jobs[..n + 1]) == Landed(jobs[..n]) + if JobLands(jobs[n]) then [jobs[n].payload] else []
  {
    hide JobLands;
    assert jobs[..n + 1][..n] == jobs[..n];
  }

  lemma StayFresh<T>(jobs: seq<Job<T>>, files: map<string, Content<T>>, files': map<string, Content<T>>, target: string, n: nat)
    requires n < |jobs| && FreshNames(jobs, files, target, n) && OthersKept(files, files', target, jobs[n].temp)
    ensures FreshNames(jobs, files', target, n + 1)
  {
    forall i | n < i < |jobs| ensures jobs[i].temp !in files' {
      assert Lookup(files', jobs[i].temp) == Lookup(files, jobs[i].temp);
    }
  }

  /** _load_state finds no file, or a whole document. */
  predicate Loadable<T>(files: map<string, Content<T>>, target: string) {
    target in files ==> files[target].Whole?
  }

  /** In whatever state the processes died, the next one can load what it finds: the oldest document or one that landed. */
  lemma {:induction false} EveryCrashPointLoads<T>(states: seq<map<string, Content<T>>>, target: string, before: Option<Content<T>>,
                                                  docs: seq<T>, i: nat)
    requires Follows(states, target, before, docs) && (before.Some? ==> before.value.Whole?) && i < |states|
    ensures Loadable(states[i], target)
    ensures Lookup(states[i], target) == before || exists j :: 0 <= j < |docs| && Lookup(states[i], target) == Some(Whole(docs[j]))
    decreases |docs|
  {
    if docs != [] {
      var k: nat :| ArrivesAt(states, target, before, docs, k);
      if i < k {
        assert states[..k][i] == states[i];
      } else if i > k {
        EveryCrashPointLoads(states[k + 1..], target, Some(Whole(docs[0])), docs[1..], i - k - 1);
        assert forall j :: 0 <= j < |docs[1..]| ==> docs[1..][j] == docs[j + 1];
      }
    }
  }
}
