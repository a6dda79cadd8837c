/**
  Retention of generated evidence in scripts/run_data_hygiene_audit.py: which
  files are stale, how many the report counts, and where archiving moves them.
  A path is its list of parts from the file system's root.  A link names a
  plain path; directories exist as far as files in them need them.
 */
module RetentionArchive {

  type Path = seq<string>

  datatype Entry = Plain(bytes: string, modified: real) | Link(target: Path)

  type Files = map<Path, Entry>

  // --- names -----------------------------------------------------------------------

  function LastDot(name: string): int
    ensures -1 <= LastDot(name) < |name|
  {
    if name == "" then -1
    else if name[|name| - 1] == '.' then |name| - 1
    else LastDot(name[..|name| - 1])
  }

  /** The suffix of a file name: from its last dot, unless that is its first or last character. */
  function Suffix(name: string): string {
    var i := LastDot(name);
    if 0 < i < |name| - 1 then name[i..] else ""
  }

  function Lower(s: string): string {
    seq(|s|, i requires 0 <= i < |s| => if 'A' <= s[i] <= 'Z' then (s[i] as int + 32) as char else s[i])
  }

  function SuffixOf(p: Path): string {
    if p == [] then "" else Lower(Suffix(p[|p| - 1]))
  }

  predicate IsImage(p: Path) {
    SuffixOf(p) in {".png", ".jpg", ".jpeg", ".webp"}
  }

  predicate IsJsonl(p: Path) {
    SuffixOf(p) == ".jsonl"
  }

  /** Strictly inside a directory. */
  predicate Inside(dir: Path, p: Path) {
    dir < p
  }

  function Artifacts(root: Path): Path { root + ["artifacts"] }
  function Screenshots(root: Path): Path { root + ["output", "playwright"] }

  /** The same letters, capitals or not. */
  predicate SameLetters(s: string, t: string) {
    |s| == |t| && forall i :: 0 <= i < |s| ==> s[i] == t[i] || ('A' <= s[i] <= 'Z' && s[i] as int + 32 == t[i] as int)
  }

  /** `ext` is a dot and then small letters. */
  predicate IsExtension(ext: string) {
    |ext| >= 2 && ext[0] == '.' && forall i :: 1 <= i < |ext| ==> 'a' <= ext[i] <= 'z'
  }

  lemma {:induction false} LastDotIs(name: string, i: nat)
    requires i < |name| && name[i] == '.' && forall j :: i < j < |name| ==> name[j] != '.'
    ensures LastDot(name) == i
  {
    if i < |name| - 1 {
      LastDotIs(name[..|name| - 1], i);
    }
  }

  /** A file is of a kind exactly if its name ends in that extension, capitals or not, with something before it. */
  lemma ExtensionExactly(p: Path, ext: string)
    requires IsExtension(ext)
    ensures SuffixOf(p) == ext <==>
      p != [] && var name := p[|p| - 1]; |name| > |ext| && SameLetters(name[|name| - |ext|..], ext)
  {
    hide Suffix, Lower, SameLetters;
    if p != [] {
      var name := p[|p| - 1];
      if |name| > |ext| && SameLetters(name[|name| - |ext|..], ext) {
        ExtensionIsRead(name, ext);
      }
      if Lower(Suffix(name)) == ext {
        ExtensionIsThere(name, ext);
      }
    }
  }

  lemma ExtensionIsRead(name: string, ext: string)
    requires IsExtension(ext) && |name| > |ext| && SameLetters(name[|name| - |ext|..], ext)
    ensures Lower(Suffix(name)) == ext
  {
    var at := |name| - |ext|;
    assert forall j :: at <= j < |name| ==> name[j] == name[at..][j - at];
    LastDotIs(name, at);
  }

  lemma ExtensionIsThere(name: string, ext: string)
    requires IsExtension(ext) && Lower(Suffix(name)) == ext
    ensures |name| > |ext| && SameLetters(name[|name| - |ext|..], ext)
  {
    var suffix := Suffix(name);
    assert |suffix| == |ext| && suffix == name[|name| - |ext|..];
    assert forall i :: 0 <= i < |suffix| ==> Lower(suffix)[i] == ext[i];
  }

  // --- staleness ---------------------------------------------------------------------

  /** Path.resolve on a file path. */
  function Resolve(files: Files, p: Path): Path {
    if p in files && files[p].Link? then files[p].target else p
  }

  /** Path.is_file follows a link. */
  predicate IsFile(files: Files, p: Path) {
    p in files && Resolve(files, p) in files && files[Resolve(files, p)].Plain?
  }

  /** file_age_days, never below zero; a link is as old as its target. */
  function AgeDays(files: Files, p: Path, now: real): real
    requires IsFile(files, p)
  {
    var modified := files[Resolve(files, p)].modified;
    if now < modified then 0.0 else (now - modified) / 86400.0
  }

  predicate IsOld(files: Files, p: Path, days: int, now: real) {
    IsFile(files, p) && AgeDays(files, p, now) >= days as real
  }

  /** A file is old from the moment its age reaches the given days of 24 hours; with no days to wait every file is. */
  lemma OldExactly(files: Files, p: Path, days: int, now: real)
    ensures IsOld(files, p, days, now) <==>
      IsFile(files, p) && (days <= 0 || files[Resolve(files, p)].modified + 24.0 * 60.0 * 60.0 * days as real <= now)
  {
  }

  datatype Category = OldArtifacts | OldScreenshots | StaleNotifications

  predicate InCategory(root: Path, c: Category, p: Path) {
    match c
    case OldArtifacts => Inside(Artifacts(root), p)
    case OldScreenshots => Inside(Screenshots(root), p) && IsImage(p)
    case StaleNotifications => Inside(Artifacts(root), p) && IsJsonl(p)
  }

  predicate IsStale(files: Files, root: Path, c: Category, days: int, now: real, p: Path) {
    InCategory(root, c, p) && IsOld(files, p, days, now)
  }

  function Stale(files: Files, root: Path, c: Category, days: int, now: real): set<Path> {
    set p | p in files.Keys && IsStale(files, root, c, days, now, p)
  }

  /** A stale notification file: an old one in `artifacts` whose name ends in .jsonl, capitals or not, with something before it. */
  lemma NotificationsExactly(files: Files, root: Path, days: int, now: real, p: Path)
    ensures p in Stale(files, root, StaleNotifications, days, now) <==>
      && p in files && IsOld(files, p, days, now)
      && root <= p && |p| > |root| + 1 && p[|root|] == "artifacts"
      && var name := p[|p| - 1]; |name| > 6 && SameLetters(name[|name| - 6..], ".jsonl")
  {
    hide IsOld, SuffixOf, SameLetters;
    ExtensionExactly(p, ".jsonl");
    if root <= p {
      assert p == root + p[|root|..];
    }
  }

  /** What retention_candidate_paths collects, each path once. */
  function Candidates(files: Files, root: Path, days: int, now: real): set<Path> {
    Stale(files, root, OldArtifacts, days, now) + Stale(files, root, OldScreenshots, days, now)
    + Stale(files, root, StaleNotifications, days, now)
  }

  /** `order` lists the paths of `paths`, each once. */
  ghost predicate Lists<T>(order: seq<T>, paths: set<T>) {
    && (forall i :: 0 <= i < |order| ==> order[i] in paths)
    && (forall p :: p in paths ==> p in order)
    && (forall i, j :: 0 <= i < j < |order| ==> order[i] != order[j])
  }

  /** One category of the report: a walk over the directory, counting what is old. */
  method CountCategory(files: Files, root: Path, c: Category, days: int, now: real, walk: seq<Path>) returns (n: nat)
    requires Lists(walk, files.Keys)
    ensures n == |Stale(files, root, c, days, now)|
  {
    hide IsStale;
    n := 0;
    ghost var seen: set<Path> := {};
    for i := 0 to |walk|
      invariant n == |seen|
      invariant forall p :: p in seen ==> IsStale(files, root, c, days, now, p) && exists j :: 0 <= j < i && walk[j] == p
      invariant forall j :: 0 <= j < i && IsStale(files, root, c, days, now, walk[j]) ==> walk[j] in seen
    {
      if IsStale(files, root, c, days, now, walk[i]) {
        n := n + 1;
        seen := seen + {walk[i]};
      }
    }
    assert seen == Stale(files, root, c, days, now);
  }

  /** retention_report: its total counts every candidate once, and every stale notification file once more. */
  method RetentionReport(files: Files, root: Path, days: int, now: real, walk: seq<Path>) returns (total: nat)
    requires Lists(walk, files.Keys)
    ensures total == |Candidates(files, root, days, now)| + |Stale(files, root, StaleNotifications, days, now)|
  {
    var a := CountCategory(files, root, OldArtifacts, days, now, walk);
    var s := CountCategory(files, root, OldScreenshots, days, now, walk);
    var j := CountCategory(files, root, StaleNotifications, days, now, walk);
    total := a + s + j;
    CandidatesCounted(files, root, days, now);
  }

  lemma ApartDirectories(root: Path, p: Path)
    ensures !(Inside(Artifacts(root), p) && Inside(Screenshots(root), p))
  {
    if Inside(Artifacts(root), p) {
      assert p[|root|] == Artifacts(root)[|root|] == "artifacts";
      assert Screenshots(root)[|root|] == "output";
    }
  }

  lemma CandidatesCounted(files: Files, root: Path, days: int, now: real)
    ensures |Candidates(files, root, days, now)|
         == |Stale(files, root, OldArtifacts, days, now)| + |Stale(files, root, OldScreenshots, days, now)|
  {
    var a := Stale(files, root, OldArtifacts, days, now);
    var s := Stale(files, root, OldScreenshots, days, now);
    forall p | p in a ensures p !in s {
      ApartDirectories(root, p);
    }
    hide IsOld, IsJsonl, IsImage, Artifacts, Screenshots, Inside;
    assert Candidates(files, root, days, now) == a + s;
  }

  // --- archiving ----------------------------------------------------------------------

  datatype Verdict = Archived | OutsideRepo | Missing

  const MANIFEST := "cleanup-manifest.json"

  function Target(root: Path, dir: Path, source: Path): Path
    requires root <= source
  {
    dir + source[|root|..]
  }

  /** Path.replace. */
  function MoveFile(files: Files, p: Path, to: Path): Files
    requires p in files
  {
    (files - {p})[to := files[p]]
  }

  /** The moves, in order; an error leaves the earlier ones done. */
  function Move(files: Files, root: Path, dir: Path, order: seq<Path>): (Files, Verdict)
    decreases |order|
  {
    if order == [] then (files, Archived)
    else
      var source := Resolve(files, order[0]);
      if !(root <= source) then (files, OutsideRepo)
      else if source !in files then (files, Missing)
      else Move(MoveFile(files, source, Target(root, dir, source)), root, dir, order[1..])
  }

  /** archive_stale_generated_files: the candidates in `order`, then the manifest. */
  function Archive(files: Files, root: Path, dir: Path, order: seq<Path>, manifest: string, now: real): (Files, Verdict) {
    var (moved, verdict) := Move(files, root, dir, order);
    (if verdict == Archived then moved[dir + [MANIFEST] := Plain(manifest, now)] else moved, verdict)
  }

  class Disk {
    var files: Files

    constructor (files: Files)
      ensures this.files == files
    {
      this.files := files;
    }

    method ArchiveStaleGeneratedFiles(root: Path, dir: Path, order: seq<Path>, manifest: string, now: real) returns (verdict: Verdict)
      modifies this
      ensures (files, verdict) == Archive(old(files), root, dir, order, manifest, now)
    {
      for i := 0 to |order|
        invariant Move(old(files), root, dir, order) == Move(files, root, dir, order[i..])
      {
        assert order[i..][0] == order[i] && order[i..][1..] == order[i + 1..];
        var source := Resolve(files, order[i]);
        if !(root <= source) {
          return OutsideRepo;
        }
        if source !in files {
          return Missing;
        }
        files := (files - {source})[Target(root, dir, source) := files[source]];
      }
      files := files[dir + [MANIFEST] := Plain(manifest, now)];
      return Archived;
    }
  }

  /** Nothing is at or below the archive directory yet, and no link leads there. */
  ghost predicate IsFresh(files: Files, dir: Path) {
    forall p :: p in files ==> !(dir <= p) && !(dir <= Resolve(files, p))
  }

  /** The keys of `to` were renamed, their values kept; every other key is where it was; there is nothing else. */
  ghost predicate Renamed<K, V>(before: map<K, V>, after: map<K, V>, to: map<K, K>) {
    && (forall p :: p in to ==> p in before && p !in after && to[p] in after && after[to[p]] == before[p])
    && (forall p :: p in before && p !in to ==> p in after && after[p] == before[p])
    && (forall p :: p in after ==> p in before || p in to.Values)
  }

  /** Where archiving puts each of the paths. */
  function Targets(root: Path, dir: Path, paths: set<Path>): map<Path, Path> {
    map p | p in paths && root <= p :: Target(root, dir, p)
  }

  /** The files in `paths` are at their targets, byte for byte, every other file is where it was, and there is nothing else. */
  ghost predicate MovedExactly(before: Files, after: Files, root: Path, dir: Path, paths: set<Path>) {
    && (forall p :: p in paths ==> root <= p)
    && Renamed(before, after, Targets(root, dir, paths))
  }

  lemma TargetIsNew(root: Path, dir: Path, p: Path, q: Path)
    requires root <= p && root <= q
    ensures dir <= Target(root, dir, p)
    ensures Target(root, dir, p) == Target(root, dir, q) ==> p == q
  {
    assert Target(root, dir, q)[|dir|..] == q[|root|..] && Target(root, dir, p)[|dir|..] == p[|root|..];
    assert q == root + q[|root|..] && p == root + p[|root|..];
  }

  lemma RenameOneMore<K, V>(before: map<K, V>, now: map<K, V>, to: map<K, K>, p: K, t: K)
    requires Renamed(before, now, to) && p in before && p !in to && t !in before && t !in to.Values
    requires forall q :: q in to ==> to[q] !in before
    ensures Renamed(before, (now - {p})[t := now[p]], to[p := t])
  {
    assert forall v :: v in to.Values ==> v in to[p := t].Values by {
      forall v | v in to.Values ensures v in to[p := t].Values {
        var q :| q in to && to[q] == v;
        assert to[p := t][q] == v;
      }
    }
    assert p in to[p := t] && to[p := t][p] == t;
    assert t in to[p := t].Values;
  }

  lemma MoveOne(files: Files, root: Path, dir: Path, done: set<Path>, now: Files, p: Path)
    requires IsFresh(files, dir) && MovedExactly(files, now, root, dir, done)
    requires p in files && p !in done && root <= p && p in now
    ensures MovedExactly(files, MoveFile(now, p, Target(root, dir, p)), root, dir, done + {p})
  {
    hide Renamed;
    var t := Target(root, dir, p);
    TargetIsNew(root, dir, p, p);
    assert t !in files;
    forall q | q in done ensures Target(root, dir, q) != t && Target(root, dir, q) !in files {
      TargetIsNew(root, dir, q, p);
    }
    hide Target, IsFresh;
    var to := Targets(root, dir, done);
    RenameOneMore(files, now, to, p, t);
    assert Targets(root, dir, done + {p}) == to[p := t];
  }

  lemma ListsRest<T>(order: seq<T>, all: set<T>, done: set<T>)
    requires order != [] && Lists(order, all - done)
    ensures order[0] in all && order[0] !in done && Lists(order[1..], all - (done + {order[0]}))
  {
    forall i, j | 0 <= i < j < |order[1..]| ensures order[1..][i] != order[1..][j] && order[1..][i] != order[0] {
      assert order[1..][i] == order[i + 1] && order[1..][j] == order[j + 1];
    }
    forall x | x in all - (done + {order[0]}) ensures x in order[1..] {
      assert x in all - done;
      var i :| 0 <= i < |order| && order[i] == x;
      assert order[1..][i - 1] == x;
    }
    forall i | 0 <= i < |order[1..]| ensures order[1..][i] in all - (done + {order[0]}) {
      assert order[1..][i] == order[i + 1];
    }
  }

  lemma NotYetMoved(files: Files, now: Files, root: Path, dir: Path, done: set<Path>, p: Path)
    requires MovedExactly(files, now, root, dir, done) && p in files && p !in done
    ensures p in now && now[p] == files[p]
  {
  }

  /** From the moment `done` has been moved, the rest of `paths` follows. */
  lemma {:induction false} MoveAll(files: Files, root: Path, dir: Path, paths: set<Path>, done: set<Path>, now: Files, order: seq<Path>)
    requires IsFresh(files, dir) && MovedExactly(files, now, root, dir, done)
    requires done <= paths && Lists(order, paths - done)
    requires forall p :: p in paths ==> p in files && files[p].Plain? && root <= p
    ensures Move(now, root, dir, order).1 == Archived
    ensures MovedExactly(files, Move(now, root, dir, order).0, root, dir, paths)
    decreases |order|
  {
    hide MovedExactly, Target, IsFresh;
    if order == [] {
      assert forall p :: p in paths - done ==> p in order;
      assert paths - done == {};
      assert done == paths;
    } else {
      var p := order[0];
      ListsRest(order, paths, done);
      hide Lists;
      NotYetMoved(files, now, root, dir, done, p);
      MoveOne(files, root, dir, done, now, p);
      MoveAll(files, root, dir, paths, done + {p}, MoveFile(now, p, Target(root, dir, p)), order[1..]);
    }
  }

  // --- exactly when it is right ----------------------------------------------------------

  /** A link names a plain path, present or not. */
  ghost predicate WellLinked(files: Files) {
    forall p :: p in files && files[p].Link? && files[p].target in files ==> files[files[p].target].Plain?
  }

  lemma MoveKeepsLinks(files: Files, p: Path, to: Path)
    requires WellLinked(files) && p in files && files[p].Plain?
    ensures WellLinked(MoveFile(files, p, to))
  {
  }

  /** Moving never takes a link away: it resolves each one first. */
  lemma {:induction false} LinksStay(files: Files, root: Path, dir: Path, order: seq<Path>, p: Path)
    requires WellLinked(files) && p in files && files[p].Link? && !(dir <= p)
    ensures p in Move(files, root, dir, order).0 && Move(files, root, dir, order).0[p].Link?
    decreases |order|
  {
    if order != [] {
      var source := Resolve(files, order[0]);
      if root <= source && source in files {
        assert files[source].Plain? && dir <= Target(root, dir, source);
        MoveKeepsLinks(files, source, Target(root, dir, source));
        LinksStay(MoveFile(files, source, Target(root, dir, source)), root, dir, order[1..], p);
      }
    }
  }

  lemma CandidatesAreScanned(files: Files, root: Path, days: int, now: real, p: Path)
    requires p in Candidates(files, root, days, now)
    ensures p in files && root <= p && |p| > |root| + 1 && (p[|root|] == "artifacts" || p[|root|] == "output")
  {
    hide IsOld, IsImage, IsJsonl;
    if Inside(Artifacts(root), p) {
      assert p[|root|] == Artifacts(root)[|root|];
    } else {
      assert p[|root|] == Screenshots(root)[|root|];
    }
  }

  lemma ManifestIsNoCopy(files: Files, root: Path, dir: Path, days: int, now: real, p: Path)
    requires p in Candidates(files, root, days, now)
    ensures root <= p && Target(root, dir, p) != dir + [MANIFEST]
  {
    CandidatesAreScanned(files, root, days, now, p);
    hide Candidates;
    assert |Target(root, dir, p)| > |dir| + 1;
  }

  /** Archiving did its job: the candidates moved, the manifest is there, and nothing else changed. */
  ghost predicate WellArchived(files: Files, result: (Files, Verdict), root: Path, dir: Path, days: int, now: real, manifest: string) {
    && result.1 == Archived
    && dir + [MANIFEST] in result.0 && result.0[dir + [MANIFEST]] == Plain(manifest, now)
    && MovedExactly(files, result.0 - {dir + [MANIFEST]}, root, dir, Candidates(files, root, days, now))
  }

  /**
    archive_stale_generated_files moves exactly the stale files, in whatever
    order, if and only if none of them is a symbolic link: of a link it moves
    the target and leaves the link behind, or fails.
   */
  lemma ArchivesExactly(files: Files, root: Path, dir: Path, days: int, now: real, order: seq<Path>, manifest: string)
    requires WellLinked(files) && IsFresh(files, dir) && Lists(order, Candidates(files, root, days, now))
    ensures WellArchived(files, Archive(files, root, dir, order, manifest, now), root, dir, days, now, manifest)
       <==> forall p :: p in Candidates(files, root, days, now) ==> files[p].Plain?
  {
    var paths := Candidates(files, root, days, now);
    forall p | p in paths ensures p in files && root <= p && Target(root, dir, p) != dir + [MANIFEST] {
      CandidatesAreScanned(files, root, days, now, p);
      ManifestIsNoCopy(files, root, dir, days, now, p);
    }
    hide Candidates, Target, Lists;
    if p :| p in paths && files[p].Link? {
      LinkSpoils(files, root, dir, paths, order, manifest, now, p);
    } else {
      PlainArchive(files, root, dir, paths, order, manifest, now);
    }
    hide MovedExactly, Archive, IsFresh, WellLinked;
  }

  lemma LinkSpoils(files: Files, root: Path, dir: Path, paths: set<Path>, order: seq<Path>, manifest: string, now: real, p: Path)
    requires WellLinked(files) && IsFresh(files, dir) && p in paths && p in files && files[p].Link?
    ensures
      var (after, verdict) := Archive(files, root, dir, order, manifest, now);
      !(verdict == Archived && MovedExactly(files, after - {dir + [MANIFEST]}, root, dir, paths))
  {
    hide Target, Move;
    LinksStay(files, root, dir, order, p);
    assert dir <= dir + [MANIFEST];
    var after := Archive(files, root, dir, order, manifest, now).0;
    assert p in after - {dir + [MANIFEST]};
    assert MovedExactly(files, after - {dir + [MANIFEST]}, root, dir, paths) ==> p in Targets(root, dir, paths);
  }

  lemma PlainArchive(files: Files, root: Path, dir: Path, paths: set<Path>, order: seq<Path>, manifest: string, now: real)
    requires IsFresh(files, dir) && Lists(order, paths)
    requires forall p :: p in paths ==> p in files && files[p].Plain? && root <= p && Target(root, dir, p) != dir + [MANIFEST]
    ensures
      var (after, verdict) := Archive(files, root, dir, order, manifest, now);
      && verdict == Archived && dir + [MANIFEST] in after && after[dir + [MANIFEST]] == Plain(manifest, now)
      && MovedExactly(files, after - {dir + [MANIFEST]}, root, dir, paths)
  {
    var m := dir + [MANIFEST];
    assert dir <= m;
    assert m !in files;
    hide Target, Move, IsFresh, Lists;
    assert paths - {} == paths && Targets(root, dir, {}) == map[];
    MoveAll(files, root, dir, paths, {}, files, order);
    var moved := Move(files, root, dir, order).0;
    NoSuchCopy(files, moved, root, dir, paths, m);
    assert moved[m := Plain(manifest, now)] - {m} == moved;
  }

  lemma NoSuchCopy(files: Files, moved: Files, root: Path, dir: Path, paths: set<Path>, m: Path)
    requires MovedExactly(files, moved, root, dir, paths) && m !in files
    requires forall p :: p in paths && root <= p ==> Target(root, dir, p) != m
    ensures m !in moved
  {
  }

  /** Once moved, a file from outside the archive does not come back. */
  lemma {:induction false} StaysAway(files: Files, root: Path, dir: Path, order: seq<Path>, t: Path)
    requires t !in files && !(dir <= t)
    ensures t !in Move(files, root, dir, order).0
    decreases |order|
  {
    if order != [] {
      var source := Resolve(files, order[0]);
      if root <= source && source in files {
        assert dir <= Target(root, dir, source);
        StaysAway(MoveFile(files, source, Target(root, dir, source)), root, dir, order[1..], t);
      }
    }
  }

  /** A link that is met on the way takes its target along, when the moves come to their end. */
  lemma {:induction false} LinksTakeTheirTargets(files: Files, root: Path, dir: Path, order: seq<Path>, i: nat)
    requires WellLinked(files) && i < |order| && Move(files, root, dir, order).1 == Archived
    requires order[i] in files && files[order[i]].Link? && !(dir <= order[i]) && !(dir <= files[order[i]].target)
    ensures root <= files[order[i]].target && files[order[i]].target !in Move(files, root, dir, order).0
    decreases |order|
  {
    var p := order[i];
    var source := Resolve(files, order[0]);
    var next := MoveFile(files, source, Target(root, dir, source));
    assert dir <= Target(root, dir, source);
    if i == 0 {
      StaysAway(next, root, dir, order[1..], files[p].target);
    } else {
      MoveKeepsLinks(files, source, Target(root, dir, source));
      assert p in next && next[p] == files[p];
      LinksTakeTheirTargets(next, root, dir, order[1..], i - 1);
    }
  }

  /**
    What becomes of a stale link when archiving comes to its end, whatever else
    was stale: the link's target, evidence or not, is gone from its place, and
    the link stays behind.
   */
  lemma LinkedFilesAreMoved(files: Files, root: Path, dir: Path, days: int, now: real, order: seq<Path>, manifest: string, p: Path)
    requires WellLinked(files) && IsFresh(files, dir) && Lists(order, Candidates(files, root, days, now))
    requires p in Candidates(files, root, days, now) && files[p].Link?
    requires Archive(files, root, dir, order, manifest, now).1 == Archived
    ensures
      var after := Archive(files, root, dir, order, manifest, now).0;
      && files[p].target in files && files[p].target !in after
      && p in after && after[p].Link?
  {
    CandidatesAreOld(files, root, days, now, p);
    var i :| 0 <= i < |order| && order[i] == p;
    assert Resolve(files, p) == files[p].target;
    hide Candidates, Lists, Move, Target, IsOld;
    LinksTakeTheirTargets(files, root, dir, order, i);
    LinksStay(files, root, dir, order, p);
    assert dir <= dir + [MANIFEST];
  }

  // --- the second pass -------------------------------------------------------------------

  lemma SameFile(files: Files, after: Files, root: Path, dir: Path, paths: set<Path>, m: Path, p: Path)
    requires IsFresh(files, dir) && m == dir + [MANIFEST] && MovedExactly(files, after - {m}, root, dir, paths)
    requires p in files && p !in paths
    ensures p in after && after[p] == files[p]
    ensures IsFile(after, p) ==> IsFile(files, p) && after[Resolve(after, p)] == files[Resolve(files, p)]
  {
  }

  /** A file that was not stale and not moved is not stale afterwards, links included. */
  lemma StillNotStale(files: Files, after: Files, root: Path, dir: Path, days: int, now: real, m: Path, p: Path)
    requires IsFresh(files, dir) && m == dir + [MANIFEST]
    requires MovedExactly(files, after - {m}, root, dir, Candidates(files, root, days, now))
    requires p in files && p !in Candidates(files, root, days, now)
    ensures p !in Candidates(after, root, days, now)
  {
    hide MovedExactly, IsFresh, InCategory;
    SameFile(files, after, root, dir, Candidates(files, root, days, now), m, p);
    hide Resolve;
    assert forall c :: IsStale(after, root, c, days, now, p) ==> IsStale(files, root, c, days, now, p);
    hide IsStale;
  }

  /** Neither directory contains the other. */
  predicate IsApart(a: Path, b: Path) {
    !(a <= b) && !(b <= a)
  }

  ghost predicate NoLinks(files: Files, paths: set<Path>) {
    forall p :: p in paths ==> p in files && files[p].Plain?
  }

  /** Whether the audit ever looks at a path. */
  predicate IsScanned(root: Path, p: Path) {
    Inside(Artifacts(root), p) || (Inside(Screenshots(root), p) && IsImage(p))
  }

  /** That is: in `artifacts`, or an image in `output/playwright`. */
  lemma ScannedExactly(root: Path, p: Path)
    ensures IsScanned(root, p) <==>
      && root <= p && |p| > |root| + 1
      && (p[|root|] == "artifacts"
          || (p[|root|] == "output" && p[|root| + 1] == "playwright" && |p| > |root| + 2
              && SuffixOf(p) in {".png", ".jpg", ".jpeg", ".webp"}))
  {
    hide SuffixOf;
    if root <= p {
      assert p == root + p[|root|..];
    }
  }

  lemma CandidateExactly(files: Files, root: Path, days: int, now: real, p: Path)
    ensures p in Candidates(files, root, days, now) <==> p in files && IsScanned(root, p) && IsOld(files, p, days, now)
  {
    hide IsOld, IsImage, IsJsonl, Inside, Artifacts, Screenshots;
  }

  /** `q` is where archiving has put one of the candidates. */
  ghost predicate IsArchived(files: Files, root: Path, dir: Path, days: int, now: real, q: Path) {
    exists p :: p in Candidates(files, root, days, now) && root <= p && q == Target(root, dir, p)
  }

  /**
    What a second pass at the same time finds, link-free candidates given: the
    archived copies that lie in a scanned directory, and the manifest if it does
    and files count as stale at once.
   */
  lemma SecondPassExactly(files: Files, root: Path, dir: Path, days: int, now: real, order: seq<Path>, manifest: string, q: Path)
    requires WellLinked(files) && IsFresh(files, dir) && Lists(order, Candidates(files, root, days, now))
    requires NoLinks(files, Candidates(files, root, days, now))
    ensures
      var after := Archive(files, root, dir, order, manifest, now).0;
      (q in Candidates(after, root, days, now))
      <==> IsScanned(root, q) && (IsArchived(files, root, dir, days, now, q) || (q == dir + [MANIFEST] && days <= 0))
  {
    var after := Archive(files, root, dir, order, manifest, now).0;
    var paths := Candidates(files, root, days, now);
    var m := dir + [MANIFEST];
    ArchivesExactly(files, root, dir, days, now, order, manifest);
    hide Archive, WellLinked, Lists, IsScanned, Candidates;
    CandidateExactly(after, root, days, now, q);
    assert dir <= m;
    if q == m {
      ManifestIsNew(files, root, dir, days, now);
      assert AgeDays(after, m, now) == 0.0;
    } else if q in files && q !in paths {
      StillNotStale(files, after, root, dir, days, now, m, q);
      CopiesAreNew(files, root, dir, days, now);
    } else {
      forall p | p in paths ensures IsOld(files, p, days, now) {
        CandidatesAreOld(files, root, days, now, p);
      }
      CopiesAreNew(files, root, dir, days, now);
      OnlyCopiesAreNew(files, after, root, dir, days, now, paths, m, q);
    }
    hide IsOld;
  }

  /** The manifest is no copy of anything. */
  lemma ManifestIsNew(files: Files, root: Path, dir: Path, days: int, now: real)
    ensures !IsArchived(files, root, dir, days, now, dir + [MANIFEST])
  {
    forall p | p in Candidates(files, root, days, now) ensures Target(root, dir, p) != dir + [MANIFEST] || !(root <= p) {
      ManifestIsNoCopy(files, root, dir, days, now, p);
    }
  }

  lemma CopiesAreNew(files: Files, root: Path, dir: Path, days: int, now: real)
    requires IsFresh(files, dir)
    ensures forall q :: IsArchived(files, root, dir, days, now, q) ==> q !in files
  {
    hide Candidates;
    forall q | IsArchived(files, root, dir, days, now, q) ensures q !in files {
      var p :| p in Candidates(files, root, days, now) && root <= p && q == Target(root, dir, p);
      assert dir <= q;
    }
  }

  /** Of the paths that are new or were moved, exactly the copies are there afterwards, and they are old. */
  lemma OnlyCopiesAreNew(files: Files, after: Files, root: Path, dir: Path, days: int, now: real, paths: set<Path>, m: Path, q: Path)
    requires m == dir + [MANIFEST] && q != m && (q in files ==> q in paths)
    requires MovedExactly(files, after - {m}, root, dir, paths) && NoLinks(files, paths)
    requires forall p :: p in paths ==> IsOld(files, p, days, now)
    ensures (q in after && IsOld(after, q, days, now)) <==> exists p :: p in paths && root <= p && q == Target(root, dir, p)
  {
    if p :| p in paths && root <= p && q == Target(root, dir, p) {
      CopyIsThere(files, after - {m}, root, dir, paths, p);
      hide MovedExactly, Target;
      assert q in after && after[q] == files[p];
      assert IsOld(files, p, days, now);
    } else {
      NotThere(files, after - {m}, root, dir, paths, q);
      hide MovedExactly, Target;
      assert q in after ==> q in after - {m};
    }
  }

  lemma NotThere(files: Files, moved: Files, root: Path, dir: Path, paths: set<Path>, q: Path)
    requires MovedExactly(files, moved, root, dir, paths) && (q in files ==> q in paths)
    requires forall p :: p in paths && root <= p ==> q != Target(root, dir, p)
    ensures q !in moved
  {
    assert q in paths ==> q in Targets(root, dir, paths);
    assert q !in Targets(root, dir, paths).Values;
  }

  /** The second pass is empty exactly if no copy is scanned, and the manifest is not or is young enough. */
  lemma SecondPassIsEmptyExactly(files: Files, root: Path, dir: Path, days: int, now: real, order: seq<Path>, manifest: string)
    requires WellLinked(files) && IsFresh(files, dir) && Lists(order, Candidates(files, root, days, now))
    requires NoLinks(files, Candidates(files, root, days, now))
    ensures Candidates(Archive(files, root, dir, order, manifest, now).0, root, days, now) == {}
       <==> && (forall p :: p in Candidates(files, root, days, now) && root <= p ==> !IsScanned(root, Target(root, dir, p)))
            && (days > 0 || !IsScanned(root, dir + [MANIFEST]))
  {
    hide Archive, WellLinked, IsFresh, Lists, IsScanned, Candidates, Target;
    var again := Candidates(Archive(files, root, dir, order, manifest, now).0, root, days, now);
    forall q ensures q in again <==>
      IsScanned(root, q) && (IsArchived(files, root, dir, days, now, q) || (q == dir + [MANIFEST] && days <= 0))
    {
      SecondPassExactly(files, root, dir, days, now, order, manifest, q);
    }
    forall p | p in Candidates(files, root, days, now) && root <= p ensures IsArchived(files, root, dir, days, now, Target(root, dir, p)) {
    }
    assert IsScanned(root, dir + [MANIFEST]) && days <= 0 ==> dir + [MANIFEST] in again;
    assert forall p :: p in Candidates(files, root, days, now) && root <= p && IsScanned(root, Target(root, dir, p)) ==> Target(root, dir, p) in again;
  }

  lemma ApartIsNotScanned(root: Path, dir: Path, q: Path)
    requires IsApart(dir, Artifacts(root)) && IsApart(dir, Screenshots(root)) && dir <= q
    ensures !IsScanned(root, q)
  {
    hide IsImage, Artifacts, Screenshots;
  }

  /** So it is whenever the archive is apart from both scanned directories. */
  lemma SecondPassFindsNothing(files: Files, root: Path, dir: Path, days: int, now: real, order: seq<Path>, manifest: string)
    requires WellLinked(files) && IsFresh(files, dir) && Lists(order, Candidates(files, root, days, now))
    requires NoLinks(files, Candidates(files, root, days, now))
    requires IsApart(dir, Artifacts(root)) && IsApart(dir, Screenshots(root))
    ensures Candidates(Archive(files, root, dir, order, manifest, now).0, root, days, now) == {}
  {
    hide Archive, WellLinked, IsFresh, Lists, IsScanned, IsApart, Candidates;
    SecondPassIsEmptyExactly(files, root, dir, days, now, order, manifest);
    forall q | dir <= q ensures !IsScanned(root, q) {
      ApartIsNotScanned(root, dir, q);
    }
    assert dir <= dir + [MANIFEST];
    assert forall p :: root <= p ==> dir <= Target(root, dir, p);
  }

  /** And never when the archive is inside the artifacts directory and there was anything to move. */
  lemma ArchiveInsideIsFoundAgain(files: Files, root: Path, dir: Path, days: int, now: real, order: seq<Path>, manifest: string, p: Path)
    requires WellLinked(files) && IsFresh(files, dir) && Lists(order, Candidates(files, root, days, now))
    requires NoLinks(files, Candidates(files, root, days, now))
    requires Artifacts(root) <= dir && p in Candidates(files, root, days, now)
    ensures root <= p && Target(root, dir, p) in Candidates(Archive(files, root, dir, order, manifest, now).0, root, days, now)
  {
    hide Archive, IsFresh, WellLinked, Lists, Candidates, Artifacts;
    CandidatesAreScanned(files, root, days, now, p);
    InsideTarget(root, dir, p);
    SecondPassExactly(files, root, dir, days, now, order, manifest, Target(root, dir, p));
  }

  lemma InsideTarget(root: Path, dir: Path, p: Path)
    requires root < p && Artifacts(root) <= dir
    ensures Inside(Artifacts(root), Target(root, dir, p))
  {
  }

  lemma CopyIsThere(files: Files, moved: Files, root: Path, dir: Path, paths: set<Path>, p: Path)
    requires MovedExactly(files, moved, root, dir, paths) && p in paths
    ensures p in files && root <= p && Target(root, dir, p) in moved && moved[Target(root, dir, p)] == files[p]
  {
  }

  lemma CandidatesAreOld(files: Files, root: Path, days: int, now: real, p: Path)
    requires p in Candidates(files, root, days, now)
    ensures p in files && IsOld(files, p, days, now)
  {
    hide InCategory, IsOld;
  }
}
