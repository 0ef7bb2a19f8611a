/**
 * The agent's nodes. Each takes the state dictionary (and, where the node
 * calls the language model or `eval`, what that call produced) and returns
 * the dictionary with a few keys replaced, as `{**state, ...}` does.
 */
module Nodes {
  import opened Wrappers
  import opened Text
  import opened AgentModel

  /** What a chat-completion call produced: the message content, or the text
      of the exception it raised (a missing content counts as raising too). */
  datatype Reply = Answer(content: string) | Failed(message: string)

  /** What `eval(task)` produced: the rendered value, or the exception text. */
  datatype Outcome = Value(text: string) | Raised(message: string)

  /** The goal used when the `USER_GOAL` variable is not set. */
  const DefaultGoal: string := "Default Goal"

  /** The planner's completion signal, matched after lowering the reply. */
  const CompletionMarker: string := "goal complete"

  /** The day estimate used when the estimator's reply cannot be read. */
  const FallbackDays: nat := 3

  // ------------------------------------------------------------- user goal

  /** `user_goal_node`: records the goal from the environment and hands over to the planner. */
  function UserGoalNode(s: AgentState, goalVar: Option<string>): (r: AgentState)
    ensures r.userGoal == Some(goalVar.GetOr(DefaultGoal)) && r.role == Some(Planner)
    ensures r.(userGoal := s.userGoal, role := s.role) == s
  {
    s.(userGoal := Some(goalVar.GetOr(DefaultGoal)), role := Some(Planner))
  }

  // --------------------------------------------------------------- planner

  /** `"goal complete" in task.lower()` */
  predicate IsGoalComplete(task: string) {
    exists i: nat | i <= |task| :: OccursAt(Lower(task), CompletionMarker, i)
  }

  /** The marker is recognised wherever it stands and however it is cased. */
  lemma MarkerCompletes(before: string, marker: string, after: string)
    requires Lower(marker) == CompletionMarker
    ensures IsGoalComplete(before + marker + after)
  {
    var t := before + marker + after;
    LowerAppend(before + marker, after);
    LowerAppend(before, marker);
    assert Lower(t)[|before|..|before| + |CompletionMarker|] == CompletionMarker;
    assert OccursAt(Lower(t), CompletionMarker, |before|);
  }

  /** The check lowers the task first, so lowering it beforehand changes nothing. */
  lemma CompletionIgnoresCase(task: string)
    ensures IsGoalComplete(Lower(task)) <==> IsGoalComplete(task)
  {
    LowerIdempotent(task);
  }

  /** A text shorter than the marker never signals completion. */
  lemma ShortTextNeverCompletes(task: string)
    requires |task| < |CompletionMarker|
    ensures !IsGoalComplete(task)
  {
  }

  /** The task the planner adopts: the stripped reply, or the error text. */
  function PlannerTask(reply: Reply): (task: string)
    ensures reply.Answer? ==> task == Strip(reply.content)
    ensures reply.Failed? ==> task == "Error generating task: " + reply.message
  {
    match reply
    case Answer(content) => Strip(content)
    case Failed(message) => "Error generating task: " + message
  }

  /** `planner_node`: logs the planned task; a task carrying the completion
      marker ends the run and leaves `task` alone, any other task (including
      an error text) becomes the task and hands over to the executor. */
  function PlannerNode(s: AgentState, reply: Reply): (r: AgentState)
    ensures r.role == Some(End) <==> IsGoalComplete(PlannerTask(reply))
    ensures r.role == Some(Executor) <==> !IsGoalComplete(PlannerTask(reply))
    ensures r.role == Some(End) ==> r.task == s.task
    ensures r.role == Some(Executor) ==> r.task == Some(PlannerTask(reply))
    ensures Log(r) == Log(s) + [Planned(Round(s), PlannerTask(reply))]
    ensures r.userGoal == s.userGoal && r.round == s.round && r.maxRounds == s.maxRounds
    ensures r.result == s.result && r.subtaskProgress == s.subtaskProgress
  {
    var task := PlannerTask(reply);
    var logs := Log(s) + [Planned(Round(s), task)];
    if IsGoalComplete(task) then
      s.(role := Some(End), log := Some(logs))
    else
      s.(task := Some(task), role := Some(Executor), log := Some(logs))
  }

  // ------------------------------------------------------------- estimator

  /** The day estimate read from the estimator's reply: its digit characters,
      in order, read as one decimal number; 3 when the call failed or the
      reply holds no digit (`int("")` raises). */
  function ParseEstimate(reply: Reply): (days: nat)
    ensures reply.Failed? ==> days == FallbackDays
    ensures reply.Answer? && Digits(reply.content) == [] ==> days == FallbackDays
    ensures reply.Answer? && Digits(reply.content) != [] ==> days == DecimalValue(Digits(reply.content))
  {
    match reply
    case Failed(_) => FallbackDays
    case Answer(content) =>
      DigitsOfStrip(content);
      var ds := Digits(Strip(content));
      if ds == [] then FallbackDays else DecimalValue(ds)
  }

  /** A number written among non-digit text is read back exactly. */
  lemma EstimateOfWrittenNumber(before: string, n: nat, after: string)
    requires forall i :: 0 <= i < |before| ==> !IsDigit(before[i])
    requires forall i :: 0 <= i < |after| ==> !IsDigit(after[i])
    ensures ParseEstimate(Answer(before + NatToDecimal(n) + after)) == n
  {
    DigitsAmongNonDigits(before, NatToDecimal(n), after);
    DecimalValueOfNatToDecimal(n);
  }

  /** Two numbers in one reply are run together: "3-5" reads as 35 days. */
  lemma EstimateJoinsAllDigits()
    ensures ParseEstimate(Answer("3-5")) == 35
  {
    var reply := "3-5";
    assert Digits(reply) == "35" by {
      assert Digits("5") == "5" by { assert "5"[1..] == ""; }
      assert Digits("-5") == "5" by { assert "-5"[1..] == "5"; }
      assert reply[1..] == "-5";
    }
    assert DecimalValue("3") == 3 by { assert "3"[..0] == ""; }
    assert "35"[..1] == "3";
  }

  /** `estimate_difficulty_node`: stores the parsed estimate as `max_rounds`
      and hands over to the planner. */
  function EstimateDifficultyNode(s: AgentState, reply: Reply): (r: AgentState)
    ensures r.maxRounds == Some(ParseEstimate(reply)) && r.role == Some(Planner)
    ensures r.(maxRounds := s.maxRounds, role := s.role) == s
  {
    s.(maxRounds := Some(ParseEstimate(reply)), role := Some(Planner))
  }

  // -------------------------------------------------------------- executor

  /** What is stored as `result`: the value, or `Error: ` and the exception text. */
  function ResultText(outcome: Outcome): (text: string)
    ensures outcome.Raised? ==> text == "Error: " + outcome.message
    ensures outcome.Value? ==> text == outcome.text
  {
    match outcome
    case Value(t) => t
    case Raised(m) => "Error: " + m
  }

  /** `executor_node`: records the outcome of running the task, logs it, and
      hands over to the reviewer whatever the outcome was. */
  function ExecutorNode(s: AgentState, outcome: Outcome): (r: AgentState)
    ensures r.role == Some(Reviewer)
    ensures r.result == Some(ResultText(outcome))
    ensures Log(r) == Log(s) + [Executed(Task(s), ResultText(outcome))]
    ensures r.(result := s.result, role := s.role, log := s.log) == s
  {
    var result := ResultText(outcome);
    s.(result := Some(result), role := Some(Reviewer),
       log := Some(Log(s) + [Executed(Task(s), result)]))
  }

  // -------------------------------------------------------------- reviewer

  /** `reviewer_node`: advances the day, files the task as completed, logs
      the review and hands back to the planner. */
  function ReviewerNode(s: AgentState): (r: AgentState)
    ensures r.round == Some(Round(s) + 1)
    ensures Progress(r) == Progress(s) + [Task(s)]
    ensures r.role == Some(Planner)
    ensures Log(r) == Log(s) + [Reviewed(Round(s))]
    ensures r.userGoal == s.userGoal && r.maxRounds == s.maxRounds
    ensures r.task == s.task && r.result == s.result
  {
    var roundNum := Round(s);
    s.(round := Some(roundNum + 1), role := Some(Planner),
       subtaskProgress := Some(Progress(s) + [Task(s)]),
       log := Some(Log(s) + [Reviewed(roundNum)]))
  }

  // -------------------------------------------------------------- log text

  /** The planner adds the line `Planned task {round}: {task}` to the stored log. */
  lemma PlannerLogText(s: AgentState, reply: Reply)
    ensures LogLines(Log(PlannerNode(s, reply)))
      == LogLines(Log(s)) + ["Planned task " + IntToDecimal(Round(s)) + ": " + PlannerTask(reply)]
  {
    LogLinesAppend(Log(s), [Planned(Round(s), PlannerTask(reply))]);
  }

  /** The executor adds the line `Executed: {task} -> {result}` to the stored log. */
  lemma ExecutorLogText(s: AgentState, outcome: Outcome)
    ensures LogLines(Log(ExecutorNode(s, outcome)))
      == LogLines(Log(s)) + ["Executed: " + Task(s) + " -> " + ResultText(outcome)]
  {
    LogLinesAppend(Log(s), [Executed(Task(s), ResultText(outcome))]);
  }

  /** The reviewer adds the line `Reviewed result of Day {round}` to the stored log. */
  lemma ReviewerLogText(s: AgentState)
    ensures LogLines(Log(ReviewerNode(s)))
      == LogLines(Log(s)) + ["Reviewed result of Day " + IntToDecimal(Round(s))]
  {
    LogLinesAppend(Log(s), [Reviewed(Round(s))]);
  }

  // --------------------------------------------------------------- routing

  /** The nodes of the compiled graph, by the names they are registered under. */
  datatype NodeId =
    | UserGoalId    // "user_goal_node"
    | EstimateId    // "estimate_difficulty"
    | PlannerId     // "planner_node"
    | ExecutorId    // "executor_node"
    | ReviewerId    // "reviewer_node"
    | RoleSwitchId  // "role_switch"
    | EndId         // "end"

  /** `state.get("role", "")` */
  function RoleKey(s: AgentState): string {
    match s.role
    case None => ""
    case Some(r) => RoleName(r)
  }

  /** The dictionary `route_by_role` looks the role up in. */
  const RouteTable: map<string, NodeId> :=
    map["planner" := PlannerId, "executor" := ExecutorId, "reviewer" := ReviewerId]

  /** `route_by_role`: each active role goes to its own node; any other role,
      a missing one included, goes to the end node. */
  function RouteByRole(s: AgentState): (n: NodeId)
    ensures n in {PlannerId, ExecutorId, ReviewerId, EndId}
    ensures n == RouteByName(RoleKey(s))
  {
    match s.role
    case Some(Planner) => PlannerId
    case Some(Executor) => ExecutorId
    case Some(Reviewer) => ReviewerId
    case _ => EndId
  }

  /** The source's lookup itself: `{...}.get(name, "end")`. */
  function RouteByName(name: string): NodeId {
    if name in RouteTable then RouteTable[name] else EndId
  }

  /** Routing is total: the three active roles reach their own nodes, and
      every other role, including a missing one, reaches the end node. */
  lemma RouteByRoleTotal(s: AgentState)
    ensures RouteByName(RoleKey(s)) == PlannerId <==> s.role == Some(Planner)
    ensures RouteByName(RoleKey(s)) == ExecutorId <==> s.role == Some(Executor)
    ensures RouteByName(RoleKey(s)) == ReviewerId <==> s.role == Some(Reviewer)
    ensures RouteByName(RoleKey(s)) == EndId <==> s.role !in {Some(Planner), Some(Executor), Some(Reviewer)}
  {
  }
}
