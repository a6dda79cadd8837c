/**
  The rotating notification file of scripts/run_unattended_paper.py.  A file is
  the list of its lines; each line takes one byte more than its text, which the
  JSON encoder keeps to ASCII.
 */
module NotificationLog {
  import opened Options
  import opened Decimals

  datatype Level = Info | Warning | Critical

  datatype Channel = Silent | DryRun | Console | File | Unsupported

  /** One call: what to send, where, and the clock reading the rotation would use. */
  datatype Dispatch = Dispatch(level: Level, minLevel: Level, channel: Channel, line: string, limit: Option<int>, stamp: string)

  /** The directory; `rotations` is the history of rotated names, which nothing reads. */
  datatype Log = Log(files: map<string, seq<string>>, rotations: seq<string>)

  function Rank(l: Level): nat {
    match l case Info => 0 case Warning => 1 case Critical => 2
  }

  /** A level passes its own minimum; a critical one passes any, and information asks for no more than itself. */
  predicate Passes(d: Dispatch) {
    d.level == d.minLevel || d.level == Critical || d.minLevel == Info
  }

  function Size(lines: seq<string>): nat {
    if lines == [] then 0 else Size(lines[..|lines| - 1]) + |lines[|lines| - 1]| + 1
  }

  /** What the file holds, byte for byte. */
  function Text(lines: seq<string>): string {
    if lines == [] then "" else lines[0] + "\n" + Text(lines[1..])
  }

  lemma {:induction false} TextOfAppend(lines: seq<string>, last: string)
    ensures Text(lines + [last]) == Text(lines) + last + "\n"
  {
    if lines == [] {
      assert [] + [last] == [last] && [last][1..] == [];
    } else {
      assert (lines + [last])[0] == lines[0] && (lines + [last])[1..] == lines[1..] + [last];
      TextOfAppend(lines[1..], last);
    }
  }

  /** The size looked at is that of the text. */
  lemma {:induction false} SizeIsOfTheText(lines: seq<string>)
    ensures Size(lines) == |Text(lines)|
  {
    if lines != [] {
      var init, last := lines[..|lines| - 1], lines[|lines| - 1];
      SizeIsOfTheText(init);
      TextOfAppend(init, last);
      assert lines == init + [last];
    }
  }

  // --- the fresh name -------------------------------------------------------------

  /** The names tried in turn: without a number, then 1, 2, and so on. */
  function Candidate(base: string, n: nat): string {
    if n == 0 then base + ".rotated" else base + "." + Numeral(n) + ".rotated"
  }

  lemma CandidateInjective(base: string, m: nat, n: nat)
    ensures Candidate(base, m) == Candidate(base, n) ==> m == n
  {
    RoundTrip(m);
    RoundTrip(n);
    var a, b := Candidate(base, m), Candidate(base, n);
    if a == b && m != 0 && n != 0 {
      assert a[|base| + 1..|a| - 8] == Numeral(m) && b[|base| + 1..|b| - 8] == Numeral(n);
    }
  }

  /** Names taken from number `n` on. */
  ghost function Taken(names: set<string>, base: string, n: nat): set<string> {
    set f | f in names && exists k: nat :: k >= n && f == Candidate(base, k)
  }

  lemma FewerTaken(names: set<string>, base: string, n: nat)
    requires Candidate(base, n) in names
    ensures Taken(names, base, n + 1) < Taken(names, base, n)
  {
    forall k: nat | k > n ensures Candidate(base, k) != Candidate(base, n) {
      CandidateInjective(base, k, n);
    }
    hide Candidate;
    assert Candidate(base, n) in Taken(names, base, n);
    assert Candidate(base, n) !in Taken(names, base, n + 1);
  }

  /** The first free name; the search ends because every name tried is another one. */
  function FreshName(names: set<string>, base: string, n: nat): (c: string)
    ensures c !in names
    ensures exists k: nat :: k >= n && c == Candidate(base, k) && forall j :: n <= j < k ==> Candidate(base, j) in names
    decreases Taken(names, base, n)
  {
    var c := Candidate(base, n);
    if c !in names then c
    else
      FewerTaken(names, base, n);
      FreshName(names, base, n + 1)
  }

  // --- one dispatch ------------------------------------------------------------------

  predicate NeedsRotation(log: Log, name: string, limit: Option<int>) {
    limit.Some? && limit.value > 0 && name in log.files && Size(log.files[name]) >= limit.value
  }

  function RotatedName(log: Log, name: string, stamp: string): string {
    FreshName(log.files.Keys, name + "." + stamp, 0)
  }

  function Rotate(log: Log, name: string, limit: Option<int>, stamp: string): Log {
    if !NeedsRotation(log, name, limit) then log
    else
      var to := RotatedName(log, name, stamp);
      Log((log.files - {name})[to := log.files[name]], log.rotations + [to])
  }

  function Append(log: Log, name: string, line: string): Log {
    log.(files := log.files[name := (if name in log.files then log.files[name] else []) + [line]])
  }

  /** The file channel, for a level that is high enough, is the only one that touches the directory. */
  predicate Writes(d: Dispatch) {
    Rank(d.level) >= Rank(d.minLevel) && d.channel == File
  }

  function Send(log: Log, name: string, d: Dispatch): Log {
    if Writes(d) then Append(Rotate(log, name, d.limit, d.stamp), name, d.line) else log
  }

  function SendAll(log: Log, name: string, ds: seq<Dispatch>): Log
    decreases |ds|
  {
    if ds == [] then log else SendAll(Send(log, name, ds[0]), name, ds[1..])
  }

  // --- the directory changed in place --------------------------------------------------

  class Folder {
    var files: map<string, seq<string>>
    ghost var rotations: seq<string>

    constructor (files: map<string, seq<string>>)
      ensures Contents() == Log(files, [])
    {
      this.files := files;
      rotations := [];
    }

    ghost function Contents(): Log
      reads this
    {
      Log(files, rotations)
    }

    /** rotate_notification_file_if_needed. */
    method RotateIfNeeded(name: string, limit: Option<int>, stamp: string) returns (to: Option<string>)
      modifies this
      ensures Contents() == Rotate(old(Contents()), name, limit, stamp)
      ensures to == if NeedsRotation(old(Contents()), name, limit) then Some(RotatedName(old(Contents()), name, stamp)) else None
    {
      hide Candidate;
      if limit.None? || limit.value <= 0 {
        return None;
      }
      if name !in files || Size(files[name]) < limit.value {
        return None;
      }
      var base := name + "." + stamp;
      var candidate := Candidate(base, 0);
      var suffix := 1;
      while candidate in files
        invariant files == old(files) && rotations == old(rotations)
        invariant suffix >= 1 && candidate == Candidate(base, suffix - 1)
        invariant FreshName(files.Keys, base, 0) == FreshName(files.Keys, base, suffix - 1)
        decreases Taken(files.Keys, base, suffix - 1)
      {
        FewerTaken(files.Keys, base, suffix - 1);
        candidate := Candidate(base, suffix);
        suffix := suffix + 1;
      }
      files := (files - {name})[candidate := files[name]];
      rotations := rotations + [candidate];
      return Some(candidate);
    }

    /** dispatch_unattended_notification; `emitted` is None for the unsupported channel's error. */
    method DispatchNotification(name: string, d: Dispatch) returns (emitted: Option<bool>, rotatedTo: Option<string>)
      modifies this
      ensures Contents() == Send(old(Contents()), name, d)
      ensures emitted == if Rank(d.level) < Rank(d.minLevel) then Some(false)
                         else if d.channel == Unsupported then None
                         else Some(d.channel == File || d.channel == Console)
      ensures rotatedTo.Some? <==> Writes(d) && NeedsRotation(old(Contents()), name, d.limit)
      ensures rotatedTo.Some? ==> rotatedTo.value !in old(files)
      ensures emitted == Some(true) <==> Passes(d) && (d.channel == File || d.channel == Console)
      ensures emitted == None <==> Passes(d) && d.channel == Unsupported
      ensures if emitted == Some(true) && d.channel == File
              then name in files && files[name] != [] && files[name][|files[name]| - 1] == d.line
              else files == old(files)
    {
      rotatedTo := None;
      if Rank(d.level) < Rank(d.minLevel) {
        return Some(false), None;
      }
      if d.channel == Silent || d.channel == DryRun {
        return Some(false), None;
      }
      if d.channel == Console {
        return Some(true), None;
      }
      if d.channel == File {
        rotatedTo := RotateIfNeeded(name, d.limit, d.stamp);
        files := files[name := (if name in files then files[name] else []) + [d.line]];
        return Some(true), rotatedTo;
      }
      return None, None;
    }
  }

  /** What a dispatch does to the directory: its line is appended if it passes and goes to the file, else nothing changes. */
  lemma SendsExactly(log: Log, name: string, d: Dispatch)
    ensures
      var log' := Send(log, name, d);
      if Passes(d) && d.channel == File then
        && name in log'.files && log'.files[name] != [] && log'.files[name][|log'.files[name]| - 1] == d.line
        && (!(name in log.files && d.limit.Some? && 0 < d.limit.value <= Size(log.files[name])) ==>
              log' == log.(files := log.files[name := log'.files[name]])
              && log'.files[name][..|log'.files[name]| - 1] == if name in log.files then log.files[name] else [])
        && (name in log.files && d.limit.Some? && 0 < d.limit.value <= Size(log.files[name]) ==>
              |log'.rotations| == |log.rotations| + 1 && log'.files[name] == [d.line])
      else log' == log
  {
    hide RotatedName;
    RotatedNameIsNew(log, name, d.stamp);
  }

  // --- conservation ---------------------------------------------------------------------

  /** Rotated names are distinct files, none of them the current one. */
  ghost predicate Ok(log: Log, name: string) {
    && (forall i :: 0 <= i < |log.rotations| ==> log.rotations[i] in log.files && log.rotations[i] != name)
    && (forall i, j :: 0 <= i < j < |log.rotations| ==> log.rotations[i] != log.rotations[j])
  }

  function Current(log: Log, name: string): seq<string> {
    if name in log.files then log.files[name] else []
  }

  /** The lines of the rotated files, oldest rotation first. */
  function Archived(log: Log, rotations: seq<string>): seq<string> {
    if rotations == [] then []
    else Archived(log, rotations[..|rotations| - 1]) + Current(log, rotations[|rotations| - 1])
  }

  function Everything(log: Log, name: string): seq<string> {
    Archived(log, log.rotations) + Current(log, name)
  }

  /** The lines the dispatches mean to write. */
  function Emitted(ds: seq<Dispatch>): seq<string> {
    if ds == [] then [] else (if Writes(ds[0]) then [ds[0].line] else []) + Emitted(ds[1..])
  }

  lemma RotatedNameIsNew(log: Log, name: string, stamp: string)
    ensures RotatedName(log, name, stamp) !in log.files && RotatedName(log, name, stamp) != name
  {
  }

  lemma {:induction false} SameArchive(a: Log, b: Log, rotations: seq<string>)
    requires forall i :: 0 <= i < |rotations| ==> Current(a, rotations[i]) == Current(b, rotations[i])
    ensures Archived(a, rotations) == Archived(b, rotations)
  {
    if rotations != [] {
      SameArchive(a, b, rotations[..|rotations| - 1]);
    }
  }

  lemma RotateConserves(log: Log, name: string, limit: Option<int>, stamp: string)
    requires Ok(log, name)
    ensures Ok(Rotate(log, name, limit, stamp), name)
    ensures Everything(Rotate(log, name, limit, stamp), name) == Everything(log, name)
    ensures forall f :: f in log.files && f != name ==> Current(Rotate(log, name, limit, stamp), f) == log.files[f]
  {
    hide RotatedName;
    RotatedNameIsNew(log, name, stamp);
    var log' := Rotate(log, name, limit, stamp);
    if NeedsRotation(log, name, limit) {
      SameArchive(log, log', log.rotations);
      assert log'.rotations[..|log'.rotations| - 1] == log.rotations;
    }
  }

  lemma AppendConserves(log: Log, name: string, line: string)
    requires Ok(log, name)
    ensures Ok(Append(log, name, line), name)
    ensures Everything(Append(log, name, line), name) == Everything(log, name) + [line]
    ensures forall f :: f in log.files && f != name ==> Current(Append(log, name, line), f) == log.files[f]
  {
    SameArchive(log, Append(log, name, line), log.rotations);
  }

  /**
    Whatever is dispatched, with whatever limits and clock readings: the rotated
    files in rotation order and then the current file hold what they held before,
    followed by exactly the lines emitted, in order; and no other file, rotated
    earlier or foreign, is touched.
   */
  lemma {:induction false} LogIsConserved(log: Log, name: string, ds: seq<Dispatch>)
    requires Ok(log, name)
    ensures Ok(SendAll(log, name, ds), name)
    ensures Everything(SendAll(log, name, ds), name) == Everything(log, name) + Emitted(ds)
    ensures forall f :: f in log.files && f != name ==> Current(SendAll(log, name, ds), f) == log.files[f]
    decreases |ds|
  {
    hide Ok, Send, Everything, Writes;
    if ds != [] {
      var next := Send(log, name, ds[0]);
      SendConserves(log, name, ds[0]);
      LogIsConserved(next, name, ds[1..]);
      var first := if Writes(ds[0]) then [ds[0].line] else [];
      assert Everything(log, name) + first + Emitted(ds[1..]) == Everything(log, name) + (first + Emitted(ds[1..]));
    }
  }

  lemma SendConserves(log: Log, name: string, d: Dispatch)
    requires Ok(log, name)
    ensures Ok(Send(log, name, d), name)
    ensures Everything(Send(log, name, d), name) == Everything(log, name) + if Writes(d) then [d.line] else []
    ensures forall f :: f in log.files && f != name ==> f in Send(log, name, d).files && Send(log, name, d).files[f] == log.files[f]
  {
    hide Ok, Everything, Archived, RotatedName;
    if Writes(d) {
      RotateConserves(log, name, d.limit, d.stamp);
      AppendConserves(Rotate(log, name, d.limit, d.stamp), name, d.line);
      RotatedNameIsNew(log, name, d.stamp);
    }
  }

  // --- sizes -------------------------------------------------------------------------------

  /** Before its last line the file was under the limit. */
  predicate Bounded(lines: seq<string>, limit: int) {
    lines != [] ==> Size(lines[..|lines| - 1]) < limit
  }

  /** Files rotated from number `from` on were full, and all of them and the current file are bounded. */
  ghost predicate SizesOk(log: Log, name: string, limit: int, from: nat) {
    && Bounded(Current(log, name), limit)
    && forall i :: from <= i < |log.rotations| ==>
         Bounded(Current(log, log.rotations[i]), limit) && Size(Current(log, log.rotations[i])) >= limit
  }

  lemma SendKeepsSizes(log: Log, name: string, d: Dispatch, limit: int, from: nat)
    requires Ok(log, name) && SizesOk(log, name, limit, from) && d.limit == Some(limit) && limit > 0
    ensures SizesOk(Send(log, name, d), name, limit, from)
  {
    hide RotatedName;
    RotatedNameIsNew(log, name, d.stamp);
    if Writes(d) {
      var rotated := Rotate(log, name, d.limit, d.stamp);
      var lines := Current(rotated, name);
      assert (lines + [d.line])[..|lines|] == lines;
      assert Size(lines) < limit;
    }
  }

  /**
    With one positive limit, every file rotated on the way holds at least the
    limit and, its last line aside, less; the current file never exceeds that.
   */
  lemma {:induction false} SizesStayBounded(log: Log, name: string, ds: seq<Dispatch>, limit: int, from: nat)
    requires Ok(log, name) && SizesOk(log, name, limit, from) && limit > 0
    requires forall i :: 0 <= i < |ds| ==> ds[i].limit == Some(limit)
    ensures SizesOk(SendAll(log, name, ds), name, limit, from)
    decreases |ds|
  {
    if ds != [] {
      SendKeepsSizes(log, name, ds[0], limit, from);
      SendConserves(log, name, ds[0]);
      SizesStayBounded(Send(log, name, ds[0]), name, ds[1..], limit, from);
    }
  }
}
