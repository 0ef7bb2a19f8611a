# Role-driven agent loop

A Dafny model of the task loop in `week_3_day_6.py`. The agent holds one
state dictionary. A `role` key says which node acts next:

- the **planner** asks the language model for the next subtask, or for the
  marker "goal complete";
- the **executor** runs the task with `eval`;
- the **reviewer** files the task as done and advances the day.

Each invocation of the compiled graph starts at the goal node and then
runs the difficulty estimator. After that it is a planner/executor/reviewer
round-robin through a `role_switch` node, until the role is `end` or the
`recursion_limit` of 25 steps is reached.

The script loads the state from `agent_memory.json`, or uses a default
record when the file is missing. It invokes the graph while the role is not
`end`, and saves after each invocation.

Modules:

- `Wrappers`: `Option` and `Result`.
- `Text`: Python's `str.strip`, `str.isdigit` filtering, `int(...)` on
  digit strings, `str(int)`, `str.lower` and substring search, with the
  round-trip facts the nodes need.
- `AgentModel`: the state dictionary. Missing keys are `None`, and the
  accessors apply the nodes' `.get` defaults. Also the role strings and the
  log lines.
- `Nodes`: the node functions and `route_by_role`. A language-model call
  is represented by its outcome, a `Reply`; an `eval` call by an `Outcome`.
- `Graph`: `graph.invoke` as a step-counted run over the builder's edges,
  and the proof that one invocation is the prelude followed by at most four
  planner turns. It also states when an invocation succeeds and what it
  returns.
- `Driver`: the memory file, `load_state` / `save_state` as a `Memory`
  class, and the main `while` loop as a method proved against `Drive`.

Inputs from outside the program are parameters of type `Graph.Env`:

- the `USER_GOAL` variable;
- the estimator's reply;
- the reply to the i-th planner call;
- the outcome of the i-th `eval`.

Behaviour of the code that is easy to misread, kept as written:

- The entry point is `user_goal_node`, so every invocation re-reads the goal
  and re-runs the estimator, not only the first one (`Graph.Prelude`).
- `load_state` catches only `FileNotFoundError`. A present but corrupt file
  raises out of the script instead of falling back to the default
  (`Driver.LoadState`).
- The planner adopts the stripped reply even when it is empty; nothing
  forces a non-empty task (`Nodes.PlannerNode`).
- The state is saved after each invocation, not after each node.
- A successful invocation always ends with role `end`, so the driver's
  `while` loop never runs a second time (`Driver.RunAgent`).
- `max_rounds` is written by the estimator but nothing reads it. The number
  of rounds is bounded only by the replies and the step ceiling.

## Model

| member | source | states |
|---|---|---|
| AgentModel.ParseRole | week_3_day_6.py:280-284 | reading a stored role string gives a role whose name is that string; it is `Other` exactly when the string is none of "planner", "executor", "reviewer", "end" |
| AgentModel.ParseRoleName | week_3_day_6.py:229-234 | a known role stored as its string and read back is the same role |
| AgentModel.EntryText | week_3_day_6.py:155 | definition: the text of each log line, as the f-strings at lines 155, 203 and 214 write it; properties in `Nodes.PlannerLogText`, `Nodes.ExecutorLogText`, `Nodes.ReviewerLogText` |
| AgentModel.LogLines | week_3_day_6.py:155 | definition: the log as the list of strings it is stored as; properties in `AgentModel.LogLinesAppend` and the node log-text lemmas |
| AgentModel.LogLinesAppend | week_3_day_6.py:155 | appending entries to the log appends their lines to the stored list, after the old lines |
| AgentModel.ReviewedLineNamesDay | week_3_day_6.py:214 | documents the log text: two "Reviewed result of Day …" lines are equal exactly when they name the same day (the program never reads a line back) |
| AgentModel.DefaultState | week_3_day_6.py:275 | the fresh record has role planner, round 1, max_rounds 3 and no other key (empty log and progress) |
| Nodes.UserGoalNode | week_3_day_6.py:122-125 | the goal is the `USER_GOAL` value or "Default Goal", the role becomes planner, and no other key changes |
| Nodes.IsGoalComplete | week_3_day_6.py:157 | definition: "goal complete" occurs in the lowered task; properties in `Nodes.MarkerCompletes`, `Nodes.CompletionIgnoresCase`, `Nodes.ShortTextNeverCompletes` |
| Nodes.CompletionIgnoresCase | week_3_day_6.py:157 | lowering a task beforehand never changes whether it signals completion |
| Nodes.MarkerCompletes | week_3_day_6.py:157 | any text holding "goal complete" in any letter case, at any position, signals completion |
| Nodes.ShortTextNeverCompletes | week_3_day_6.py:157 | a text shorter than the marker never signals completion |
| Nodes.PlannerTask | week_3_day_6.py:150-152 | the task is the stripped reply, or "Error generating task: " and the exception text when the call failed |
| Nodes.PlannerNode | week_3_day_6.py:129-165 | the role becomes end exactly when the task signals completion, with `task` untouched; otherwise it becomes executor with the task stored; in both branches exactly one `Planned task {round}: {task}` entry is appended and every other key is kept |
| Nodes.ParseEstimate | week_3_day_6.py:183-187 | the estimate is the decimal value of the reply's digits, in order; it is 3 when the call failed or the reply has no digit |
| Nodes.EstimateOfWrittenNumber | week_3_day_6.py:183 | a number written among non-digit text is read back exactly |
| Nodes.EstimateJoinsAllDigits | week_3_day_6.py:183 | separate numbers in one reply are joined: "3-5" reads as 35 |
| Nodes.EstimateDifficultyNode | week_3_day_6.py:167-193 | `max_rounds` becomes the parsed estimate, the role becomes planner, and no other key changes |
| Nodes.ResultText | week_3_day_6.py:198-201 | the result is the evaluated value, or "Error: " and the exception text |
| Nodes.ExecutorNode | week_3_day_6.py:195-209 | the role becomes reviewer, `result` is always set, exactly one `Executed: {task} -> {result}` entry is appended, and no other key changes |
| Nodes.ReviewerNode | week_3_day_6.py:211-223 | the `round` key is always written, as the old round (default 1) plus one; the task (default "") is appended to `subtask_progress`; one `Reviewed result of Day {round}` entry is appended; the role becomes planner; goal, estimate, task and result are kept |
| Nodes.PlannerLogText | week_3_day_6.py:154-155 | the planner adds exactly the line `Planned task {round}: {task}` to the stored log, after the old lines |
| Nodes.ExecutorLogText | week_3_day_6.py:202-203 | the executor adds exactly the line `Executed: {task} -> {result}` to the stored log, after the old lines |
| Nodes.ReviewerLogText | week_3_day_6.py:213-214 | the reviewer adds exactly the line `Reviewed result of Day {round}` to the stored log, after the old lines |
| Nodes.RouteByName | week_3_day_6.py:230-234 | definition: the dictionary lookup with default "end"; `Nodes.RouteByRole` is proved equal to it and `Nodes.RouteByRoleTotal` states its cases |
| Nodes.RouteByRole | week_3_day_6.py:229-234 | routing always reaches planner, executor, reviewer or end, and agrees with the dictionary lookup on the role string |
| Nodes.RouteByRoleTotal | week_3_day_6.py:229-234 | planner, executor and reviewer reach their own nodes, each exactly when the role is that one; every other role, a missing one included, reaches end |
| Graph.Execute | week_3_day_6.py:243-249 | definition: the node function each registered name runs; properties through `Graph.RunFromStep` |
| Graph.RunFrom | week_3_day_6.py:251-259 | definition: the compiled graph run node by node along the edges, one step each, failing with `GraphRecursionError` when the steps run out; properties in `Graph.RunFromStep`, `Graph.RunFromPlannerIsTurns` |
| Graph.Invoke | week_3_day_6.py:285 | definition: `graph.invoke` from the entry point under the limit of 25; properties in `Graph.InvokeIsTurns`, `Graph.InvokeOkIff`, `Graph.InvokeOk`, `Graph.InvokeHalts` |
| Graph.Turns | week_3_day_6.py:253-257 | definition: the planner/executor/reviewer round-robin with a bounded number of planner turns; properties in `Graph.TurnsOkIff`, `Graph.TurnsCompleting`, `Graph.TurnsNoneCompleting` |
| Graph.Successor | week_3_day_6.py:251-257 | only the end node has no successor; `role_switch` continues where `route_by_role` says |
| Graph.Prelude | week_3_day_6.py:251-252 | after the goal and estimator nodes the role is planner, with the goal and fresh estimate stored and the round, log and progress unchanged |
| Graph.RoundsGrowth | week_3_day_6.py:211-223 | `k` full rounds add exactly `k` days, `k` progress entries and `3k` log entries, extending the old lists, and keep the goal and estimate |
| Graph.RoundRun | week_3_day_6.py:253-257 | with more than five steps left, a non-completing planner turn is followed by executor, reviewer and three `role_switch` steps, costing six steps |
| Graph.RoundCutShort | week_3_day_6.py:253-257 | a round that does not complete with five steps or fewer left hits the ceiling |
| Graph.FinalRun | week_3_day_6.py:236-239 | a completing planner turn needs three steps (planner, `role_switch`, end) and otherwise hits the ceiling |
| Graph.RunFromPlannerIsTurns | week_3_day_6.py:242-259 | a run from the planner with `b` steps left is the round-robin with `(b + 3) / 6` planner turns |
| Graph.RunFromStep | week_3_day_6.py:242-259 | one node execution costs one step and moves to the node the edges name |
| Graph.MaxTurnsIsFour | week_3_day_6.py:285 | under `recursion_limit` 25, one invocation has at most four planner turns |
| Graph.InvokeIsTurns | week_3_day_6.py:242-259 | one invocation is the prelude followed by at most `MaxTurns()` planner turns |
| Graph.TurnsIsLoop | week_3_day_6.py:253-257 | the round-robin is an instance of a generic stop-or-continue loop |
| Graph.TurnsCompleting | week_3_day_6.py:157-158 | when reply `i + k` is the first to signal completion and is within reach, the run ends there after `k` full rounds |
| Graph.TurnsNoneCompleting | week_3_day_6.py:285-287 | when no reply within reach signals completion, the run fails with `GraphRecursionError` |
| Graph.FirstCompletion | week_3_day_6.py:157 | a window holding a completing reply has a first one |
| Graph.TurnsOkIff | week_3_day_6.py:157-158 | the rounds finish exactly when a reply they consume signals completion; any failure is `GraphRecursionError` |
| Graph.InvokeCompletes | week_3_day_6.py:285 | an invocation whose first completing reply is `k` returns the completing planner turn after `k` rounds |
| Graph.InvokeHalts | week_3_day_6.py:285-287 | an invocation whose first four replies never signal completion stops at the ceiling |
| Graph.InvokeOkIff | week_3_day_6.py:285-287 | an invocation succeeds exactly when one of the first four replies signals completion; otherwise it fails with `GraphRecursionError` |
| Graph.CompletedRun | week_3_day_6.py:157-158 | after `k` rounds and a completing turn: role end, goal and estimate stored, `k` more days and progress entries, `3k + 1` more log entries, the last one the completing plan |
| Graph.InvokeOk | week_3_day_6.py:285 | a successful invocation returns role end after `k` rounds, where `k` is the first completing reply: `k` days, `k` filed subtasks and `3k + 1` log entries added, the old lists kept as prefixes |
| Driver.LoadState | week_3_day_6.py:267-275 | a missing file gives the default record, a saved state is read back as saved, and exactly a corrupt file fails |
| Driver.Memory.constructor | week_3_day_6.py:262-275 | the memory starts with the given file |
| Driver.Memory.Load | week_3_day_6.py:267-275 | loading gives the stored state, the default, or the decode failure |
| Driver.Memory.Save | week_3_day_6.py:262-265 | saving replaces the file with the state |
| Driver.Drive | week_3_day_6.py:278-288 | definition: one run of the script and the file it leaves; `Driver.RunAgent` is proved equal to it, properties in `Driver.DriveSavesOnlyCompleted`, `Driver.RerunAfterCompletion`, `Driver.DriveCompletesIff` |
| Driver.RunAgent | week_3_day_6.py:278-288 | the loaded role `end` stops at once; otherwise the loop invokes and saves until the role is end, catching `GraphRecursionError`; it makes at most one invocation, and exactly one when the loaded state has not ended; outcome and file are as `Drive` says |
| Driver.DriveSavesOnlyCompleted | week_3_day_6.py:280-288 | the file is written only when the run completed, and then it holds a state with role end; every other outcome leaves the file as it was |
| Driver.RerunAfterCompletion | week_3_day_6.py:280-281 | running the script again after it completed does nothing, whatever the replies |
| Driver.DriveCompletesIff | week_3_day_6.py:283-288 | a loadable unfinished state completes exactly when one of the first four planner replies signals completion, and otherwise stops at the ceiling |
| Driver.FreshRun | week_3_day_6.py:273-288 | with no memory file, a completed run after `k < 4` rounds ends on day `1 + k` with `k` subtasks and `3k + 1` log lines, under the environment's goal |
| Text.Strip | week_3_day_6.py:150 | definition: `str.strip()`; properties in `Text.StripIsSlice`, `Text.StripIdempotent` |
| Text.StripIsSlice | week_3_day_6.py:150 | `strip()` gives a contiguous slice with no whitespace at either end, and only whitespace is removed |
| Text.StripIdempotent | week_3_day_6.py:150 | stripping twice is stripping once |
| Text.Digits | week_3_day_6.py:183 | the filtered text holds only digits and is no longer than the reply |
| Text.DigitsAppend | week_3_day_6.py:183 | the digit filter keeps digits in order: filtering a concatenation concatenates the filtered parts |
| Text.DigitsOfDigitString | week_3_day_6.py:183 | a string of digits passes the filter unchanged |
| Text.DigitsOfDigitless | week_3_day_6.py:183 | a string without digits filters to the empty string |
| Text.DigitsAmongNonDigits | week_3_day_6.py:183 | a digit string written among text without digits is exactly what the filter keeps |
| Text.DigitsOfStrip | week_3_day_6.py:183 | stripping before filtering digits changes nothing |
| Text.DecimalValue | week_3_day_6.py:183 | definition: `int(...)` on a digit string; properties in `Text.DecimalValueOfNatToDecimal`, `Text.NatToDecimalOfDecimalValue`, `Nodes.EstimateOfWrittenNumber` |
| Text.NatToDecimal | week_3_day_6.py:155 | definition: `str(n)` for a natural number, as `{round_num}` is written in the log lines at 155 and 214; properties in `Text.DecimalValueOfNatToDecimal`, `Text.NatToDecimalOfDecimalValue` |
| Text.IntToDecimal | week_3_day_6.py:214 | definition: `str(i)` for any integer round, a minus sign before the magnitude when negative; properties in `Text.IntToDecimalInjective` |
| Text.DecimalValueOfNatToDecimal | week_3_day_6.py:183 | `int(str(n)) == n` for every natural `n` |
| Text.NatToDecimalOfDecimalValue | week_3_day_6.py:183 | a digit string without a leading zero is `str` of its value |
| Text.IntToDecimalInjective | week_3_day_6.py:155 | documents the log text: different round numbers are written differently |
| Text.Lower | week_3_day_6.py:157 | definition: `str.lower()` on ASCII letters; properties in `Text.LowerAppend`, `Text.LowerIdempotent`, `Nodes.CompletionIgnoresCase` |
| Text.LowerAppend | week_3_day_6.py:157 | lowering works character by character, so it distributes over concatenation |
| Text.LowerIdempotent | week_3_day_6.py:157 | lowering a lowered text changes nothing |

## Left out

- The language-model calls are network I/O. Each call is an input: the
  reply text, or the text of the exception it raised. A missing message
  content counts as a raised exception.
- `eval(task)` is arbitrary code execution. Its outcome is an input: the
  rendered value, or the exception text.
- Unicode: `str.strip`, `str.isdigit` and `str.lower` are modelled on ASCII
  digits and letters and on Python's whitespace characters. Python's
  `isdigit` also accepts other digit characters (which `int` can then
  reject), and `lower` also lowers non-ASCII letters.
- The node functions append to the input state's `log` and
  `subtask_progress` lists in place. The model builds new lists. The
  aliasing cannot be seen in this script, because a state whose lists were
  extended is either returned or dropped after `GraphRecursionError`
  without being saved.
- The log is held as entries (`AgentModel.LogEntry`). `AgentModel.EntryText`
  gives each entry's line exactly as the node's f-string writes it, and
  `AgentModel.LogLines` gives the stored list. So a loaded `log` can hold
  only lines of the three kinds the nodes write, not arbitrary strings.
- `result` holds the rendered text of `eval`'s value. The source stores the
  raw value, so an integer result stays an integer in the saved JSON. This
  changes no control flow.
- JSON files: `save_state` stores the record and `load_state` reads it
  back. Not modelled:
  - a saved file whose values have other types than the nodes write;
  - a result value `json.dump` cannot serialise;
  - the `indent` layout.
- LangGraph's internals are a library that is not part of this model. The
  graph is the builder's edges, run one node per step, with a budget of 25
  node executions; running out is `GraphRecursionError`. LangGraph's exact
  counting convention at the boundary is not modelled.
- Output only: `print` and the `role_switch` and `end` nodes' messages.
- Out of scope: the FastAPI health routes, the uvicorn thread, and the
  generated deployment files.
- The second copy of the loop inside a string literal (lines 533-732) is
  text, not running code.
