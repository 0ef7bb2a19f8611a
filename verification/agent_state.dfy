/**
 * The agent's state record: the dictionary threaded through every node and
 * persisted between runs. A key that may be missing from the dictionary is an
 * `Option`; the accessors below read it with the same default the nodes use.
 */
module AgentModel {
  import opened Wrappers
  import opened Text

  /** The `role` value, with an `Other` case for any string that is not one
      of the four the nodes write. */
  datatype Role = Planner | Executor | Reviewer | End | Other(name: string)

  /** The string stored under `role`. */
  function RoleName(r: Role): string {
    match r
    case Planner => "planner"
    case Executor => "executor"
    case Reviewer => "reviewer"
    case End => "end"
    case Other(name) => name
  }

  /** Reads a stored role string; every string is read back as itself. */
  function ParseRole(name: string): (r: RoleValue)
    ensures RoleName(r) == name
    ensures r.Other? <==> name !in {"planner", "executor", "reviewer", "end"}
  {
    if name == "planner" then Planner
    else if name == "executor" then Executor
    else if name == "reviewer" then Reviewer
    else if name == "end" then End
    else Other(name)
  }

  /** A role whose `Other` name does not spell one of the four known roles. */
  predicate Canonical(r: Role) {
    r.Other? ==> r.name !in {"planner", "executor", "reviewer", "end"}
  }

  /** The roles a stored string can stand for: one spelling, one value. */
  type RoleValue = r: Role | Canonical(r) witness Planner

  /** Storing a canonical role and reading it back gives the same role. */
  lemma ParseRoleName(r: RoleValue)
    ensures ParseRole(RoleName(r)) == r
  {
  }

  /** One line of the run log, held as the values it is written from. */
  datatype LogEntry =
    | Planned(day: int, task: string)         // written by planner_node
    | Executed(task: string, result: string)  // written by executor_node
    | Reviewed(day: int)                      // written by reviewer_node

  /** The line itself, as the node's f-string writes it. */
  function EntryText(e: LogEntry): string {
    match e
    case Planned(day, task) => "Planned task " + IntToDecimal(day) + ": " + task
    case Executed(task, result) => "Executed: " + task + " -> " + result
    case Reviewed(day) => "Reviewed result of Day " + IntToDecimal(day)
  }

  /** The log as the list of strings it is stored as. */
  function LogLines(log: seq<LogEntry>): (lines: seq<string>)
    ensures |lines| == |log|
    ensures forall i :: 0 <= i < |log| ==> lines[i] == EntryText(log[i])
  {
    seq(|log|, i requires 0 <= i < |log| => EntryText(log[i]))
  }

  /** The stored lines of a log extended by some entries are the old lines
      followed by the lines of the new entries. */
  lemma LogLinesAppend(a: seq<LogEntry>, b: seq<LogEntry>)
    ensures LogLines(a + b) == LogLines(a) + LogLines(b)
  {
    forall i | 0 <= i < |a + b|
      ensures LogLines(a + b)[i] == (LogLines(a) + LogLines(b))[i]
    {
      if i < |a| {
        assert (a + b)[i] == a[i];
      } else {
        assert (a + b)[i] == b[i - |a|];
      }
    }
  }

  /** Two review lines are equal exactly when they name the same day, so the
      day can be read back from the line. */
  lemma ReviewedLineNamesDay(d: int, e: int)
    ensures EntryText(Reviewed(d)) == EntryText(Reviewed(e)) <==> d == e
  {
    var p := "Reviewed result of Day ";
    if EntryText(Reviewed(d)) == EntryText(Reviewed(e)) {
      assert (p + IntToDecimal(d))[|p|..] == IntToDecimal(d);
      assert (p + IntToDecimal(e))[|p|..] == IntToDecimal(e);
      IntToDecimalInjective(d, e);
    }
  }

  /** The state dictionary. `user_goal`, `role`, `round`, `max_rounds`,
      `task`, `result`, `subtask_progress` and `log` may each be absent. */
  datatype AgentState = AgentState(
    userGoal: Option<string>,
    role: Option<RoleValue>,
    round: Option<int>,
    maxRounds: Option<int>,
    task: Option<string>,
    result: Option<string>,
    subtaskProgress: Option<seq<string>>,
    log: Option<seq<LogEntry>>)

  /** `state.get("round", 1)` */
  function Round(s: AgentState): int { s.round.GetOr(1) }

  /** `state.get("task", "")` */
  function Task(s: AgentState): string { s.task.GetOr("") }

  /** `state.get("log", [])` */
  function Log(s: AgentState): seq<LogEntry> { s.log.GetOr([]) }

  /** `state.get("subtask_progress", [])` */
  function Progress(s: AgentState): seq<string> { s.subtaskProgress.GetOr([]) }

  /** The record a fresh agent starts from when nothing is saved: role
      planner, round 1, three days estimated, and no other key. */
  function DefaultState(): (s: AgentState)
    ensures s.role == Some(Planner) && s.round == Some(1) && s.maxRounds == Some(3)
    ensures s.userGoal.None? && s.task.None? && s.result.None?
    ensures s.log.None? && s.subtaskProgress.None?
    ensures Log(s) == [] && Progress(s) == []
  {
    AgentState(None, Some(Planner), Some(1), Some(3), None, None, None, None)
  }
}
