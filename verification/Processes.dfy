/**
  Process identities and the three-valued probe of scripts/regression_common.py.

  A PID can be reused, so a process is named by its PID and its start token
  together.  A probe of a PID answers live, gone or unknown; `StateOf` is the
  four-way classification that every recovery decision rests on.
 */
module Processes {
  import opened Options

  /** One process, named for ever by its PID and start token. */
  datatype Process = Process(pid: nat, token: string)

  /** A stored pid / start_identity pair; either half may be missing. */
  datatype Identity = Identity(pid: Option<nat>, token: Option<string>)

  /** The answer of process_identity_probe for one PID. A zombie answers Gone with its token. */
  datatype Probe = Live(token: string) | Gone(last: Option<string>) | Unknown

  datatype IdentityState = IsLive | IsGone | IsMismatch | IsUnknown

  function IdentityOf(p: Process): Identity {
    Identity(Some(p.pid), Some(p.token))
  }

  predicate HasBoth(id: Identity) {
    id.pid.Some? && id.token.Some?
  }

  /** The process a complete identity names. */
  function Named(id: Identity): Process
    requires HasBoth(id)
  {
    Process(id.pid.value, id.token.value)
  }

  /** process_identity_state: what a probe of its PID says about a stored identity. */
  function StateOf(id: Identity, probe: Probe): IdentityState {
    if !HasBoth(id) then IsUnknown
    else match probe
      case Unknown => IsUnknown
      case Gone(_) => IsGone
      case Live(token) => if token == id.token.value then IsLive else IsMismatch
  }

  /** The two answers that let recovery go on. */
  predicate SaysDead(id: Identity, probe: Probe) {
    StateOf(id, probe) == IsGone || StateOf(id, probe) == IsMismatch
  }

  /** The operating system never runs two processes under one PID at a time. */
  ghost predicate OnePerPid(alive: set<Process>) {
    forall p, q :: p in alive && q in alive && p.pid == q.pid ==> p == q
  }

  /** A probe that does not answer Unknown tells the truth about the table it looks at. */
  ghost predicate Sound(alive: set<Process>, pid: nat, probe: Probe) {
    match probe
    case Live(token) => Process(pid, token) in alive
    case Gone(_) => forall p :: p in alive ==> p.pid != pid
    case Unknown => true
  }

  /** What a sound probe proves, whoever now owns the PID. */
  lemma SoundProbeDecides(alive: set<Process>, id: Identity, probe: Probe)
    requires HasBoth(id) && OnePerPid(alive) && Sound(alive, id.pid.value, probe)
    ensures SaysDead(id, probe) ==> Named(id) !in alive
    ensures StateOf(id, probe) == IsLive ==> Named(id) in alive
  {
  }

  /** A process table that the probe could have come from. */
  ghost predicate Fits(alive: set<Process>, pid: nat, probe: Probe) {
    OnePerPid(alive) && Sound(alive, pid, probe)
  }

  /**
    The classification says as much as the probe proves and no more: it says
    dead, or alive, exactly if the process is so in every table that fits.
   */
  lemma StateIsWhatIsProved(id: Identity, probe: Probe)
    requires HasBoth(id)
    ensures SaysDead(id, probe) <==> forall alive: set<Process> :: Fits(alive, id.pid.value, probe) ==> Named(id) !in alive
    ensures StateOf(id, probe) == IsLive <==> forall alive: set<Process> :: Fits(alive, id.pid.value, probe) ==> Named(id) in alive
  {
    var p, pid := Named(id), id.pid.value;
    forall alive: set<Process> | Fits(alive, pid, probe) ensures SaysDead(id, probe) ==> p !in alive
      ensures StateOf(id, probe) == IsLive ==> p in alive
    {
      SoundProbeDecides(alive, id, probe);
    }
    var with, without: set<Process> := {p}, if probe.Live? && probe.token != p.token then {Process(pid, probe.token)} else {};
    assert !SaysDead(id, probe) ==> Fits(with, pid, probe);
    assert StateOf(id, probe) != IsLive ==> Fits(without, pid, probe) && p !in without;
  }

  /** An incomplete identity proves nothing. */
  lemma IncompleteIsUnknown(id: Identity, probe: Probe)
    requires !HasBoth(id)
    ensures !SaysDead(id, probe) && StateOf(id, probe) != IsLive
  {
  }
}
