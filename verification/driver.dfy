/**
 * The script's top level: load the saved memory, stop at once if the agent
 * already finished, otherwise invoke the graph until the role is `end`,
 * saving after every invocation, and stop quietly when an invocation hits
 * the ceiling.
 */
module Driver {
  import opened Wrappers
  import opened AgentModel
  import opened Nodes
  import opened Graph

  /** What `agent_memory.json` holds: nothing, a saved state, or text that
      is not valid JSON. */
  datatype StoredFile = Missing | Stored(state: AgentState) | Corrupt

  /** The one failure of `load_state` the script does not catch. */
  datatype LoadError = JSONDecodeError

  /** `load_state`: a missing file gives the fresh default; a corrupt file
      raises, since only `FileNotFoundError` is caught. */
  function LoadState(file: StoredFile): (r: Result<AgentState, LoadError>)
    ensures file.Missing? ==> r == Ok(DefaultState())
    ensures file.Stored? ==> r == Ok(file.state)
    ensures file.Corrupt? <==> r.Err?
  {
    match file
    case Missing => Ok(DefaultState())
    case Stored(s) => Ok(s)
    case Corrupt => Err(JSONDecodeError)
  }

  /** The memory file, which `save_state` overwrites in place. */
  class Memory {
    var file: StoredFile

    constructor(file: StoredFile)
      ensures this.file == file
    {
      this.file := file;
    }

    /** `load_state()` */
    method Load() returns (r: Result<AgentState, LoadError>)
      ensures r == LoadState(file)
    {
      r := LoadState(file);
    }

    /** `save_state(state)`: what was there before is replaced. */
    method Save(s: AgentState)
      modifies this
      ensures file == Stored(s)
    {
      file := Stored(s);
    }
  }

  /** How a run of the script ends. */
  datatype RunOutcome =
    | AlreadyComplete           // the saved role was `end`
    | Completed(state: AgentState)  // the loop left with role `end`
    | StoppedAtLimit            // `GraphRecursionError` was caught
    | LoadFailed(error: LoadError)  // `load_state` raised

  /** What one run of the script amounts to, and the memory file it leaves.
      The loop needs a single invocation: one that succeeds always ends with
      role `end` (see `RunAgent`). */
  function Drive(file: StoredFile, env: Env): (RunOutcome, StoredFile) {
    match LoadState(file)
    case Err(e) => (LoadFailed(e), file)
    case Ok(s) =>
      if s.role == Some(End) then (AlreadyComplete, file)
      else
        match Invoke(s, env)
        case Err(_) => (StoppedAtLimit, file)
        case Ok(r) => (Completed(r), Stored(r))
  }

  /** The script's main block. The n-th invocation sees environment
      `envs(n)`; the loop runs while the role is not `end`. It invokes the
      graph at most once, and the run is the one `Drive` describes. */
  method RunAgent(mem: Memory, envs: nat -> Env) returns (outcome: RunOutcome, invocations: nat)
    modifies mem
    ensures (outcome, mem.file) == Drive(old(mem.file), envs(0))
    ensures invocations <= 1
    ensures invocations == 1 <==> LoadState(old(mem.file)).Ok? && LoadState(old(mem.file)).value.role != Some(End)
  {
    invocations := 0;
    var loaded := mem.Load();
    if loaded.Err? {
      return LoadFailed(loaded.error), invocations;
    }
    var state := loaded.value;
    if state.role == Some(End) {
      return AlreadyComplete, invocations;
    }
    while state.role != Some(End)
      invariant invocations <= 1
      invariant invocations == 0 ==> state == loaded.value && mem.file == old(mem.file)
      invariant invocations == 1 ==>
        Invoke(loaded.value, envs(0)) == Ok(state) && mem.file == Stored(state) && state.role == Some(End)
      decreases if state.role == Some(End) then 0 else 1
    {
      var next := Invoke(state, envs(invocations));
      invocations := invocations + 1;
      if next.Err? {
        return StoppedAtLimit, invocations;
      }
      ghost var k := InvokeOk(state, envs(invocations - 1), next.value);
      state := next.value;
      mem.Save(state);
    }
    outcome := Completed(state);
  }

  // ------------------------------------------------------------ properties

  /** The script writes the memory file only when the agent completed, and
      then the saved state has role `end`. A run stopped by the ceiling, a
      run that had nothing to do and a failed load leave the file as it was. */
  lemma DriveSavesOnlyCompleted(file: StoredFile, env: Env)
    ensures var (outcome, after) := Drive(file, env);
      && (outcome.Completed? ==> after == Stored(outcome.state) && outcome.state.role == Some(End))
      && (!outcome.Completed? ==> after == file)
  {
    var loaded := LoadState(file);
    if loaded.Ok? && loaded.value.role != Some(End) && Invoke(loaded.value, env).Ok? {
      var k := InvokeOk(loaded.value, env, Invoke(loaded.value, env).value);
    }
  }

  /** Running the script again after it completed does nothing, whatever the
      outside world would answer. */
  lemma RerunAfterCompletion(file: StoredFile, env: Env, env': Env)
    requires Drive(file, env).0.Completed?
    ensures Drive(Drive(file, env).1, env') == (AlreadyComplete, Drive(file, env).1)
  {
    DriveSavesOnlyCompleted(file, env);
  }

  /** With a loadable state that has not finished, the script completes
      exactly when one of the first `MaxTurns()` planner replies signals
      completion, and otherwise stops at the ceiling. */
  lemma DriveCompletesIff(file: StoredFile, env: Env)
    requires LoadState(file).Ok? && LoadState(file).value.role != Some(End)
    ensures Drive(file, env).0.Completed? <==> !NoneCompletes(env, 0, MaxTurns())
    ensures !Drive(file, env).0.Completed? ==> Drive(file, env).0 == StoppedAtLimit
  {
    InvokeOkIff(LoadState(file).value, env);
  }

  /** A first run, with no memory file, starts from the default state: when
      it completes, after `k` rounds, the agent is on day `1 + k` with `k`
      subtasks filed and `3k + 1` log lines. */
  lemma FreshRun(env: Env) returns (k: nat)
    requires Drive(Missing, env).0.Completed?
    ensures var r := Drive(Missing, env).0.state;
      && k < MaxTurns()
      && Round(r) == 1 + k && |Progress(r)| == k && |Log(r)| == 3 * k + 1
      && r.userGoal == Some(env.goalVar.GetOr(DefaultGoal))
  {
    k := InvokeOk(DefaultState(), env, Drive(Missing, env).0.state);
  }
}
