/**
  Log file names of children, _safe_child_name and _child_log_paths of
  scripts/regression_common.py, and when two openings of logs in a run meet in
  one file.
 */
module ChildLogs {
  import opened Decimals
  import EvidenceProtocol
  import EvidenceTheorems

  const LONGEST := 96

  predicate Allowed(c: char) {
    'A' <= c <= 'Z' || 'a' <= c <= 'z' || IsDigit(c) || c == '_' || c == '.' || c == '-'
  }

  /** Every run of other characters becomes one dash; `dashed` says that the run's dash is already out. */
  function Squash(s: string, dashed: bool): (r: string)
    ensures forall i :: 0 <= i < |r| ==> Allowed(r[i])
  {
    if s == "" then ""
    else if Allowed(s[0]) then [s[0]] + Squash(s[1..], false)
    else (if dashed then "" else "-") + Squash(s[1..], true)
  }

  predicate Trimmed(c: char) {
    c == '.' || c == '-'
  }

  function Strip(s: string): (r: string)
    ensures r != "" ==> !Trimmed(r[0]) && !Trimmed(r[|r| - 1])
    ensures (forall i :: 0 <= i < |s| ==> Allowed(s[i])) ==> forall i :: 0 <= i < |r| ==> Allowed(r[i])
  {
    if s == "" then ""
    else if Trimmed(s[0]) then Strip(s[1..])
    else if Trimmed(s[|s| - 1]) then Strip(s[..|s| - 1])
    else s
  }

  /** A name fit for a file: never empty, never long, no separator, no leading dot. */
  function SafeName(name: string): (r: string)
    ensures 0 < |r| <= LONGEST && !Trimmed(r[0]) && forall i :: 0 <= i < |r| ==> Allowed(r[i])
  {
    var rendered := Strip(Squash(name, false));
    if rendered == "" then "child" else if |rendered| <= LONGEST then rendered else rendered[..LONGEST]
  }

  function StdoutLog(name: string, attempt: nat): string {
    SafeName(name) + ".attempt-" + Numeral(attempt) + ".stdout.log"
  }

  function StderrLog(name: string, attempt: nat): string {
    SafeName(name) + ".attempt-" + Numeral(attempt) + ".stderr.log"
  }

  /** What stands before the last dash and the digits after it is determined. */
  lemma LastNumberIsRead(a: string, m: string, b: string, n: string)
    requires AllDigits(m) && AllDigits(n) && a + "-" + m == b + "-" + n
    ensures a == b && m == n
  {
    var x, y := a + "-" + m, b + "-" + n;
    assert x[|a|] == '-' && y[|b|] == '-';
    assert forall i :: |a| < i < |x| ==> x[i] == m[i - |a| - 1];
    assert forall i :: |b| < i < |y| ==> y[i] == n[i - |b| - 1];
    assert |a| == |b|;
    assert x[..|a|] == a && y[..|b|] == b && x[|a| + 1..] == m && y[|b| + 1..] == n;
  }

  /** Two logs are one file exactly when safe names and attempts agree; output and errors never share one. */
  lemma LogsMeetExactly(name: string, attempt: nat, name': string, attempt': nat)
    ensures StdoutLog(name, attempt) == StdoutLog(name', attempt') <==> SafeName(name) == SafeName(name') && attempt == attempt'
    ensures StderrLog(name, attempt) == StderrLog(name', attempt') <==> SafeName(name) == SafeName(name') && attempt == attempt'
    ensures StdoutLog(name, attempt) != StderrLog(name', attempt')
  {
    hide SafeName, Numeral;
    RoundTrip(attempt);
    RoundTrip(attempt');
    SameEnding(SafeName(name), Numeral(attempt), SafeName(name'), Numeral(attempt'), ".stdout.log");
    SameEnding(SafeName(name), Numeral(attempt), SafeName(name'), Numeral(attempt'), ".stderr.log");
    var out, err := StdoutLog(name, attempt), StderrLog(name', attempt');
    assert out[|out| - 7] == 'o' && err[|err| - 7] == 'e';
  }

  lemma SameEnding(a: string, m: string, b: string, n: string, ending: string)
    requires AllDigits(m) && AllDigits(n)
    ensures a + ".attempt-" + m + ending == b + ".attempt-" + n + ending <==> a == b && m == n
  {
    var x, y := a + ".attempt-" + m + ending, b + ".attempt-" + n + ending;
    if x == y {
      assert x[..|x| - |ending|] == (a + ".attempt") + "-" + m;
      assert y[..|y| - |ending|] == (b + ".attempt") + "-" + n;
      LastNumberIsRead(a + ".attempt", m, b + ".attempt", n);
      assert (a + ".attempt")[..|a|] == a && (b + ".attempt")[..|b|] == b;
    }
  }

  /**
    In any run of the protocol, two openings of logs are for the same file only
    for two children of different names that render to the same safe name.
   */
  lemma OverwritesExactly(steps: seq<EvidenceProtocol.Step>, i: nat, j: nat)
    requires i < j < |EvidenceProtocol.RunSteps(EvidenceProtocol.START, steps).past.logs|
    ensures
      var logs := EvidenceProtocol.RunSteps(EvidenceProtocol.START, steps).past.logs;
      (StdoutLog(logs[i].0, logs[i].1) == StdoutLog(logs[j].0, logs[j].1))
      <==> logs[i].0 != logs[j].0 && SafeName(logs[i].0) == SafeName(logs[j].0) && logs[i].1 == logs[j].1
  {
    hide SafeName, StdoutLog, StderrLog, EvidenceProtocol.RunSteps;
    var logs := EvidenceProtocol.RunSteps(EvidenceProtocol.START, steps).past.logs;
    EvidenceTheorems.LogsAreOpenedOnce(steps, i, j);
    LogsMeetExactly(logs[i].0, logs[i].1, logs[j].0, logs[j].1);
  }

  /** Such names exist. */
  lemma TwoNamesOneLog()
    ensures SafeName("a b") == SafeName("a-b") && StdoutLog("a b", 1) == StdoutLog("a-b", 1)
  {
  }

  // --- which names stay as they are -----------------------------------------------------

  /** A name that can be a file name as it is. */
  predicate IsSafe(name: string) {
    && 0 < |name| <= 96 && (forall i :: 0 <= i < |name| ==> Allowed(name[i]))
    && !Trimmed(name[0]) && !Trimmed(name[|name| - 1])
  }

  lemma {:induction false} SquashKeepsAllowed(s: string, rest: string, dashed: bool)
    requires forall i :: 0 <= i < |s| ==> Allowed(s[i])
    ensures Squash(s + rest, dashed) == s + Squash(rest, dashed && s == "")
    decreases |s|
  {
    if s == "" {
      assert s + rest == rest;
    } else {
      assert (s + rest)[0] == s[0] && (s + rest)[1..] == s[1..] + rest;
      SquashKeepsAllowed(s[1..], rest, false);
      assert s == [s[0]] + s[1..];
    }
  }

  lemma {:induction false} SquashDropsTheRest(bad: string, rest: string)
    requires forall i :: 0 <= i < |bad| ==> !Allowed(bad[i])
    ensures Squash(bad + rest, true) == Squash(rest, true)
    decreases |bad|
  {
    if bad == "" {
      assert bad + rest == rest;
    } else {
      assert (bad + rest)[0] == bad[0] && (bad + rest)[1..] == bad[1..] + rest;
      SquashDropsTheRest(bad[1..], rest);
    }
  }

  /** A name is its own safe name exactly if it is safe already. */
  lemma SafeNamesStay(name: string)
    ensures SafeName(name) == name <==> IsSafe(name)
  {
    if forall i :: 0 <= i < |name| ==> Allowed(name[i]) {
      SquashKeepsAllowed(name, "", false);
      assert name + "" == name;
      assert Squash(name, false) == name;
      StripIsShorter(name);
    }
  }

  lemma {:induction false} StripIsShorter(s: string)
    ensures |Strip(s)| <= |s|
    decreases |s|
  {
    if s != "" && Trimmed(s[0]) {
      StripIsShorter(s[1..]);
    } else if s != "" && Trimmed(s[|s| - 1]) {
      StripIsShorter(s[..|s| - 1]);
    }
  }

  /** Any run of other characters inside a name becomes one dash. */
  lemma RunsBecomeDashes(a: string, bad: string, b: string)
    requires IsSafe(a) && IsSafe(b) && |a| + 1 + |b| <= 96
    requires bad != "" && forall i :: 0 <= i < |bad| ==> !Allowed(bad[i])
    ensures SafeName(a + bad + b) == a + "-" + b
  {
    var rest := bad + b;
    assert a + bad + b == a + rest;
    SquashKeepsAllowed(a, rest, false);
    assert rest[0] == bad[0] && rest[1..] == bad[1..] + b;
    SquashDropsTheRest(bad[1..], b);
    SquashKeepsAllowed(b, "", true);
    assert b + "" == b;
    assert a + ("-" + b) == a + "-" + b;
  }
}
