/**
 * One `graph.invoke`: the compiled graph's edges, run node by node from the
 * entry point under the step ceiling, and the plan/execute/review rounds that
 * this amounts to.
 */
module Graph {
  import opened Wrappers
  import opened Text
  import opened AgentModel
  import opened Nodes

  /** The `recursion_limit` the driver passes to every invocation. */
  const RecursionLimit: nat := 25

  /** What the outside world supplies to one invocation: the `USER_GOAL`
      variable, the estimator's reply, and the reply to the i-th planner call
      and the outcome of the i-th `eval` (counted from 0 in the invocation). */
  datatype Env = Env(
    goalVar: Option<string>,
    estimateReply: Reply,
    planReply: nat -> Reply,
    evalOutcome: nat -> Outcome)

  /** `GraphRecursionError`: the ceiling was reached before the end node. */
  datatype Halt = GraphRecursionError

  /** Runs one node on the state; the planner consumes the reply to planner
      call number `plans` and the executor the outcome of `eval` call number
      `execs`. `role_switch` and `end` only print. */
  function Execute(n: NodeId, s: AgentState, plans: nat, execs: nat, env: Env): AgentState {
    match n
    case UserGoalId => UserGoalNode(s, env.goalVar)
    case EstimateId => EstimateDifficultyNode(s, env.estimateReply)
    case PlannerId => PlannerNode(s, env.planReply(plans))
    case ExecutorId => ExecutorNode(s, env.evalOutcome(execs))
    case ReviewerId => ReviewerNode(s)
    case RoleSwitchId => s
    case EndId => s
  }

  /** The edges added to the builder: fixed edges, the conditional edge out
      of `role_switch`, and nothing after `end` (the run is over). */
  function Successor(n: NodeId, s: AgentState): (next: Option<NodeId>)
    ensures next.None? <==> n == EndId
    ensures n == RoleSwitchId ==> next == Some(RouteByRole(s))
  {
    match n
    case UserGoalId => Some(EstimateId)
    case EstimateId => Some(PlannerId)
    case PlannerId => Some(RoleSwitchId)
    case ExecutorId => Some(RoleSwitchId)
    case ReviewerId => Some(RoleSwitchId)
    case RoleSwitchId => Some(RouteByRole(s))
    case EndId => None
  }

  /** Runs the graph from node `n` with `budget` node executions left; a run
      that needs one more fails with `GraphRecursionError`. `plans` and
      `execs` count the planner and `eval` calls made so far. */
  function RunFrom(n: NodeId, s: AgentState, plans: nat, execs: nat, env: Env, budget: nat): Result<AgentState, Halt>
    decreases budget
  {
    if budget == 0 then Err(GraphRecursionError)
    else
      var s' := Execute(n, s, plans, execs, env);
      match Successor(n, s')
      case None => Ok(s')
      case Some(m) =>
        RunFrom(m, s', if n == PlannerId then plans + 1 else plans,
                if n == ExecutorId then execs + 1 else execs, env, budget - 1)
  }

  /** `graph.invoke(state, config={"recursion_limit": 25})` */
  function Invoke(s: AgentState, env: Env): Result<AgentState, Halt> {
    RunFrom(UserGoalId, s, 0, 0, env, RecursionLimit)
  }

  // ------------------------------------------------- the round-robin view

  /** The two nodes every invocation starts with: goal, then estimate. */
  function Prelude(s: AgentState, env: Env): (p: AgentState)
    ensures p.role == Some(Planner)
    ensures p.userGoal == Some(env.goalVar.GetOr(DefaultGoal))
    ensures p.maxRounds == Some(ParseEstimate(env.estimateReply))
    ensures Round(p) == Round(s) && Log(p) == Log(s) && Progress(p) == Progress(s)
  {
    EstimateDifficultyNode(UserGoalNode(s, env.goalVar), env.estimateReply)
  }

  /** A loop of rounds, whatever the state and the rounds are: at index `i`
      it stops with `finish` if `done` accepts `i`, and otherwise runs
      `round` and moves on to `i + 1`, giving up after `turns` tries. */
  function Loop<S>(s: S, i: nat, turns: nat, done: nat -> bool, finish: (S, nat) -> S, round: (S, nat) -> S): Result<S, Halt>
    decreases turns
  {
    if turns == 0 then Err(GraphRecursionError)
    else if done(i) then Ok(finish(s, i))
    else Loop(round(s, i), i + 1, turns - 1, done, finish, round)
  }

  /** `k` rounds in a row, from index `i` on. */
  function Repeat<S>(s: S, i: nat, k: nat, round: (S, nat) -> S): S
    decreases k
  {
    if k == 0 then s else Repeat(round(s, i), i + 1, k - 1, round)
  }

  /** No index from `i` to `i + k - 1` is accepted. */
  predicate NoneAccepted(done: nat -> bool, i: nat, k: nat) {
    forall j: nat :: i <= j < i + k ==> !done(j)
  }

  /** The first accepted index in a window that holds one. */
  lemma {:induction false} FirstAccepted(done: nat -> bool, i: nat, n: nat) returns (k: nat)
    requires !NoneAccepted(done, i, n)
    ensures k < n && NoneAccepted(done, i, k) && done(i + k)
    decreases n
  {
    if done(i) {
      k := 0;
    } else {
      var j: nat :| i <= j < i + n && done(j);
      assert i + 1 <= j < i + 1 + (n - 1);
      var k' := FirstAccepted(done, i + 1, n - 1);
      k := k' + 1;
      forall j: nat | i <= j < i + k
        ensures !done(j)
      {
        if j != i {
          assert i + 1 <= j < i + 1 + k';
        }
      }
    }
  }

  /** The loop stops at the first accepted index within reach, after the
      rounds before it. */
  lemma {:induction false} LoopCompleting<S>(s: S, i: nat, turns: nat, done: nat -> bool,
                                             finish: (S, nat) -> S, round: (S, nat) -> S, k: nat)
    requires k < turns && NoneAccepted(done, i, k) && done(i + k)
    ensures Loop(s, i, turns, done, finish, round) == Ok(finish(Repeat(s, i, k, round), i + k))
    decreases k
  {
    if k > 0 {
      assert !done(i);
      LoopCompleting(round(s, i), i + 1, turns - 1, done, finish, round, k - 1);
    }
  }

  /** The loop gives up when no index within reach is accepted. */
  lemma {:induction false} LoopNoneCompleting<S>(s: S, i: nat, turns: nat, done: nat -> bool,
                                                 finish: (S, nat) -> S, round: (S, nat) -> S)
    requires NoneAccepted(done, i, turns)
    ensures Loop(s, i, turns, done, finish, round) == Err(GraphRecursionError)
    decreases turns
  {
    if turns > 0 {
      assert !done(i);
      LoopNoneCompleting(round(s, i), i + 1, turns - 1, done, finish, round);
    }
  }

  /** The agent loop as rounds, independent of the graph: plan with reply
      `i`; stop if the planner signalled completion; otherwise execute with
      outcome `i`, review, and plan again, with at most `turns` planning turns. */
  function Turns(s: AgentState, i: nat, env: Env, turns: nat): Result<AgentState, Halt>
    decreases turns
  {
    if turns == 0 then Err(GraphRecursionError)
    else
      var p := PlannerNode(s, env.planReply(i));
      if p.role == Some(End) then Ok(p)
      else Turns(ExecuteAndReview(p, i, env), i + 1, env, turns - 1)
  }

  /** The executor and reviewer steps of round `i`, after a planner turn that did not complete. */
  function ExecuteAndReview(p: AgentState, i: nat, env: Env): AgentState {
    ReviewerNode(ExecutorNode(p, env.evalOutcome(i)))
  }

  /** The planner's verdict on its i-th reply. */
  predicate CompletesAt(env: Env, i: nat) {
    IsGoalComplete(PlannerTask(env.planReply(i)))
  }

  /** The rounds' three ingredients as values: the verdicts, the completing
      planner turn, and a full round (plan, execute, review). */
  function Verdicts(env: Env): nat -> bool {
    (j: nat) => CompletesAt(env, j)
  }

  function FinalTurn(env: Env): (AgentState, nat) -> AgentState {
    (t: AgentState, j: nat) => PlannerNode(t, env.planReply(j))
  }

  function FullRound(env: Env): (AgentState, nat) -> AgentState {
    (t: AgentState, j: nat) => ExecuteAndReview(PlannerNode(t, env.planReply(j)), j, env)
  }

  /** The state after `k` full rounds from reply `i` on, whatever the planner said. */
  function Rounds(s: AgentState, i: nat, env: Env, k: nat): AgentState {
    Repeat(s, i, k, FullRound(env))
  }

  /** The rounds are the generic loop over the agent's own rounds. */
  lemma {:induction false} TurnsIsLoop(s: AgentState, i: nat, env: Env, turns: nat)
    ensures Turns(s, i, env, turns) == Loop(s, i, turns, Verdicts(env), FinalTurn(env), FullRound(env))
    decreases turns
  {
    if turns > 0 {
      TurnsIsLoop(ExecuteAndReview(PlannerNode(s, env.planReply(i)), i, env), i + 1, env, turns - 1);
    }
  }

  /** Each round adds one day, one filed subtask and three log lines, and
      keeps the goal, the estimate and all earlier history. */
  lemma {:induction false} RoundsGrowth(s: AgentState, i: nat, env: Env, k: nat)
    ensures var q := Rounds(s, i, env, k);
      && q.userGoal == s.userGoal && q.maxRounds == s.maxRounds
      && Round(q) == Round(s) + k
      && |Progress(q)| == |Progress(s)| + k && Progress(s) <= Progress(q)
      && |Log(q)| == |Log(s)| + 3 * k && Log(s) <= Log(q)
    decreases k
  {
    if k > 0 {
      var next := ExecuteAndReview(PlannerNode(s, env.planReply(i)), i, env);
      assert Rounds(s, i, env, k) == Rounds(next, i + 1, env, k - 1);
      RoundsGrowth(next, i + 1, env, k - 1);
    }
  }

  /** A round that does not complete, run through the graph: planner,
      switch, executor, switch, reviewer, switch, and back at the planner
      six node executions later. */
  lemma RoundRun(s: AgentState, i: nat, env: Env, budget: nat)
    requires budget > 5 && PlannerNode(s, env.planReply(i)).role != Some(End)
    ensures RunFrom(PlannerId, s, i, i, env, budget)
         == RunFrom(PlannerId, ExecuteAndReview(PlannerNode(s, env.planReply(i)), i, env), i + 1, i + 1, env, budget - 6)
  {
    var p := PlannerNode(s, env.planReply(i));
    var e := ExecutorNode(p, env.evalOutcome(i));
    RunFromStep(PlannerId, s, i, i, env, budget, RoleSwitchId);
    RunFromStep(RoleSwitchId, p, i + 1, i, env, budget - 1, ExecutorId);
    RunFromStep(ExecutorId, p, i + 1, i, env, budget - 2, RoleSwitchId);
    RunFromStep(RoleSwitchId, e, i + 1, i + 1, env, budget - 3, ReviewerId);
    RunFromStep(ReviewerId, e, i + 1, i + 1, env, budget - 4, RoleSwitchId);
    RunFromStep(RoleSwitchId, ReviewerNode(e), i + 1, i + 1, env, budget - 5, PlannerId);
  }

  /** A round that does not complete and has fewer than six node executions
      left hits the ceiling. */
  lemma RoundCutShort(s: AgentState, i: nat, env: Env, budget: nat)
    requires budget <= 5 && PlannerNode(s, env.planReply(i)).role != Some(End)
    ensures RunFrom(PlannerId, s, i, i, env, budget) == Err(GraphRecursionError)
  {
    var p := PlannerNode(s, env.planReply(i));
    var e := ExecutorNode(p, env.evalOutcome(i));
    if budget > 0 {
      RunFromStep(PlannerId, s, i, i, env, budget, RoleSwitchId);
      if budget > 1 {
        RunFromStep(RoleSwitchId, p, i + 1, i, env, budget - 1, ExecutorId);
        if budget > 2 {
          RunFromStep(ExecutorId, p, i + 1, i, env, budget - 2, RoleSwitchId);
          if budget > 3 {
            RunFromStep(RoleSwitchId, e, i + 1, i + 1, env, budget - 3, ReviewerId);
            if budget > 4 {
              RunFromStep(ReviewerId, e, i + 1, i + 1, env, budget - 4, RoleSwitchId);
            }
          }
        }
      }
    }
  }

  /** A completing planner turn: planner, switch, end, three node executions. */
  lemma FinalRun(s: AgentState, i: nat, env: Env, budget: nat)
    requires PlannerNode(s, env.planReply(i)).role == Some(End)
    ensures budget >= 3 ==> RunFrom(PlannerId, s, i, i, env, budget) == Ok(PlannerNode(s, env.planReply(i)))
    ensures budget < 3 ==> RunFrom(PlannerId, s, i, i, env, budget) == Err(GraphRecursionError)
  {
    var p := PlannerNode(s, env.planReply(i));
    if budget > 0 {
      RunFromStep(PlannerId, s, i, i, env, budget, RoleSwitchId);
      if budget > 1 {
        RunFromStep(RoleSwitchId, p, i + 1, i, env, budget - 1, EndId);
      }
    }
  }

  /** Running the graph from the planner with `budget` steps, after `i` full
      rounds, is the same as `(budget + 3) / 6` planning turns: a round takes
      six node executions (planner, switch, executor, switch, reviewer,
      switch) and the final turn three (planner, switch, end). */
  lemma {:induction false} RunFromPlannerIsTurns(s: AgentState, i: nat, env: Env, budget: nat)
    ensures RunFrom(PlannerId, s, i, i, env, budget) == Turns(s, i, env, (budget + 3) / 6)
    decreases budget
  {
    var p := PlannerNode(s, env.planReply(i));
    if p.role == Some(End) {
      FinalRun(s, i, env, budget);
    } else if budget <= 5 {
      RoundCutShort(s, i, env, budget);
    } else {
      RoundRun(s, i, env, budget);
      RunFromPlannerIsTurns(ExecuteAndReview(p, i, env), i + 1, env, budget - 6);
      assert (budget - 6 + 3) / 6 == (budget + 3) / 6 - 1;
    }
  }

  /** One step of the run: execute `n`, then continue at its successor `m`. */
  lemma RunFromStep(n: NodeId, s: AgentState, plans: nat, execs: nat, env: Env, budget: nat, m: NodeId)
    requires budget > 0 && Successor(n, Execute(n, s, plans, execs, env)) == Some(m)
    ensures RunFrom(n, s, plans, execs, env, budget)
         == RunFrom(m, Execute(n, s, plans, execs, env), if n == PlannerId then plans + 1 else plans,
                    if n == ExecutorId then execs + 1 else execs, env, budget - 1)
  {
  }

  /** The node executions left for planning turns once the prelude has run. */
  function PlannerBudget(): nat {
    RecursionLimit - 2
  }

  /** The most planning turns one invocation can hold: each round but the
      last takes six node executions and the last one three. */
  function MaxTurns(): nat {
    (PlannerBudget() + 3) / 6
  }

  /** Under the ceiling of 25 that is four planning turns, so three completed rounds at most. */
  lemma MaxTurnsIsFour()
    ensures MaxTurns() == 4 && PlannerBudget() == 23
  {
  }

  /** Under the ceiling, one invocation is the prelude followed by at most
      `MaxTurns()` planning turns. */
  lemma InvokeIsTurns(s: AgentState, env: Env)
    ensures Invoke(s, env) == Turns(Prelude(s, env), 0, env, MaxTurns())
  {
    RunFromStep(UserGoalId, s, 0, 0, env, RecursionLimit, EstimateId);
    RunFromStep(EstimateId, UserGoalNode(s, env.goalVar), 0, 0, env, RecursionLimit - 1, PlannerId);
    RunFromPlannerIsTurns(Prelude(s, env), 0, env, PlannerBudget());
  }

  /** None of the replies `i` to `i + k - 1` signals completion. */
  predicate NoneCompletes(env: Env, i: nat, k: nat) {
    NoneAccepted(Verdicts(env), i, k)
  }

  /** When reply `i + k` is the first to signal completion and the turns
      reach it, the rounds end there: `k` full rounds, then the completing
      planner turn. */
  lemma TurnsCompleting(s: AgentState, i: nat, env: Env, turns: nat, k: nat)
    requires k < turns && NoneCompletes(env, i, k) && CompletesAt(env, i + k)
    ensures Turns(s, i, env, turns) == Ok(PlannerNode(Rounds(s, i, env, k), env.planReply(i + k)))
  {
    TurnsIsLoop(s, i, env, turns);
    LoopCompleting(s, i, turns, Verdicts(env), FinalTurn(env), FullRound(env), k);
  }

  /** When no reply within reach signals completion, the turns run out. */
  lemma TurnsNoneCompleting(s: AgentState, i: nat, env: Env, turns: nat)
    requires NoneCompletes(env, i, turns)
    ensures Turns(s, i, env, turns) == Err(GraphRecursionError)
  {
    TurnsIsLoop(s, i, env, turns);
    LoopNoneCompleting(s, i, turns, Verdicts(env), FinalTurn(env), FullRound(env));
  }

  /** The first completing reply in a window that holds one. */
  lemma FirstCompletion(env: Env, i: nat, n: nat) returns (k: nat)
    requires !NoneCompletes(env, i, n)
    ensures k < n && NoneCompletes(env, i, k) && CompletesAt(env, i + k)
  {
    k := FirstAccepted(Verdicts(env), i, n);
  }

  /** The rounds finish exactly when one of the replies they may consume
      signals completion. */
  lemma TurnsOkIff(s: AgentState, i: nat, env: Env, turns: nat)
    ensures Turns(s, i, env, turns).Ok? <==> !NoneCompletes(env, i, turns)
    ensures Turns(s, i, env, turns).Err? ==> Turns(s, i, env, turns) == Err(GraphRecursionError)
  {
    if NoneCompletes(env, i, turns) {
      TurnsNoneCompleting(s, i, env, turns);
    } else {
      var k := FirstCompletion(env, i, turns);
      TurnsCompleting(s, i, env, turns, k);
    }
  }

  /** One invocation whose planner replies first signal completion at reply
      `k`, within the ceiling, returns that planner turn after `k` rounds. */
  lemma InvokeCompletes(s: AgentState, env: Env, k: nat)
    requires k < MaxTurns() && NoneCompletes(env, 0, k) && CompletesAt(env, k)
    ensures Invoke(s, env) == Ok(PlannerNode(Rounds(Prelude(s, env), 0, env, k), env.planReply(k)))
  {
    InvokeIsTurns(s, env);
    TurnsCompleting(Prelude(s, env), 0, env, MaxTurns(), k);
  }

  /** One invocation whose first `MaxTurns()` planner replies never signal
      completion stops at the ceiling. */
  lemma InvokeHalts(s: AgentState, env: Env)
    requires NoneCompletes(env, 0, MaxTurns())
    ensures Invoke(s, env) == Err(GraphRecursionError)
  {
    InvokeIsTurns(s, env);
    TurnsNoneCompleting(Prelude(s, env), 0, env, MaxTurns());
  }

  /** One invocation succeeds exactly when one of the first `MaxTurns()`
      planner replies signals completion; otherwise it stops at the ceiling. */
  lemma InvokeOkIff(s: AgentState, env: Env)
    ensures Invoke(s, env).Ok? <==> !NoneCompletes(env, 0, MaxTurns())
    ensures Invoke(s, env).Err? ==> Invoke(s, env) == Err(GraphRecursionError)
  {
    InvokeIsTurns(s, env);
    TurnsOkIff(Prelude(s, env), 0, env, MaxTurns());
  }

  /** The state after the prelude, `k` full rounds and a completing planner
      turn: role `end`, the goal from the environment, the fresh estimate as
      `max_rounds`, and `k` days, `k` filed subtasks and `3k + 1` log lines
      added to the history it started with, the last of them the completing
      plan for day `round + k`. */
  lemma CompletedRun(s: AgentState, env: Env, k: nat)
    requires CompletesAt(env, k)
    ensures var r := PlannerNode(Rounds(Prelude(s, env), 0, env, k), env.planReply(k));
      && r.role == Some(End)
      && r.userGoal == Some(env.goalVar.GetOr(DefaultGoal))
      && r.maxRounds == Some(ParseEstimate(env.estimateReply))
      && Round(r) == Round(s) + k
      && |Progress(r)| == |Progress(s)| + k && Progress(s) <= Progress(r)
      && |Log(r)| == |Log(s)| + 3 * k + 1 && Log(s) <= Log(r)
      && Log(r)[|Log(r)| - 1] == Planned(Round(s) + k, PlannerTask(env.planReply(k)))
  {
    RoundsGrowth(Prelude(s, env), 0, env, k);
  }

  /** What a successful invocation returns: `k` is the first planner reply
      that signalled completion, and the state is the prelude, `k` full
      rounds and the completing planner turn, as `CompletedRun` describes. */
  lemma InvokeOk(s: AgentState, env: Env, r: AgentState) returns (k: nat)
    requires Invoke(s, env) == Ok(r)
    ensures k < MaxTurns() && NoneCompletes(env, 0, k) && CompletesAt(env, k)
    ensures r == PlannerNode(Rounds(Prelude(s, env), 0, env, k), env.planReply(k))
    ensures r.role == Some(End)
    ensures r.userGoal == Some(env.goalVar.GetOr(DefaultGoal))
    ensures r.maxRounds == Some(ParseEstimate(env.estimateReply))
    ensures Round(r) == Round(s) + k
    ensures |Progress(r)| == |Progress(s)| + k && Progress(s) <= Progress(r)
    ensures |Log(r)| == |Log(s)| + 3 * k + 1 && Log(s) <= Log(r)
    ensures Log(r)[|Log(r)| - 1] == Planned(Round(s) + k, PlannerTask(env.planReply(k)))
  {
    InvokeIsTurns(s, env);
    TurnsOkIff(Prelude(s, env), 0, env, MaxTurns());
    k := FirstCompletion(env, 0, MaxTurns());
    InvokeCompletes(s, env, k);
    CompletedRun(s, env, k);
  }
}
