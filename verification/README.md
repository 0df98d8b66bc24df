# A verified model of the runtime

This project models four parts of the repository and proves what they promise.

**The run.** A workflow is a list of entries: a step, a parallel group, a consensus group, or a consensus
over an earlier group's outputs. `Schedulers.dfy` follows `aircore/scheduler.py` as a class: it hands out step
ids, checks capabilities and approvals, retries, fans out worker threads and waits for them, reduces votes,
runs fallbacks, binds names, writes and replays checkpoints, and stops on failure, time or budget.
`Plans.dfy` says as a function what a run does and ends in. The scheduler's `Run` is proved to perform that
plan under *every* schedule of its worker threads: a schedule is any merge of the threads' own action lists
(`Merges.dfy`, `Blocks.dfy`). The laws of a run are then proved about the plan and about every merge of it:
ids, statuses, costs, gates, retries, journal, metrics, execution graph, crash and resume, reuse.

**AirLang.** `Lexers.dfy` and `Tokenizers.dfy` follow the ordered token patterns, `Parsers.dfy` is the parser
class, `Compilers.dfy` is `build_workflow`. The other side of each is independent: a pattern's language against
its scanner; everything a file may be written as and what it means (`Syntax.dfy`), and a printer, against the parser;
a static condition, the entry each statement stands for, and a direct interpreter of the parsed representation
against the compiler and the scheduler.

**MindGraph.** `MindGraphs.dfy` is the mutable graph, `Graphs.dfy` its operations on values, `GraphLaws.dfy`
and `Neighborhoods.dfy` what they keep over any run of operations.

**The tool-calling loop.** `ToolAgents.dfy` is the model agent's loop over a shared graph, `ToolLoops.dfy` what
its messages, log and cache mean.

Code outside the runtime is a function held in a value. A tool is a function of its step, the bindings it can
read and the number of the attempt; a strategy is a function of its step and the votes; the approval callback,
the clock before each entry and the model provider are functions too. Everything is proved for all of them.

## How to read it

| topic | files |
|---|---|
| values, actions, interleavings | Values, Runtime, Merges, Blocks, Measures, Wrappers, Numerals |
| one step, one group, one entry | Workers, WorkerLaws, GroupLaws, EntryLaws, Strategies, Plans, StepLaws, Jobs |
| the scheduler, the builder, the stores | Schedulers, Workflows, Checkpoints |
| what a run leaves behind | Journals, JournalLaws, MetricsModel, MetricsLaws, StepRecords, EntryTraces, GroupRecords, ExecutionGraphs, GroupTags, RunGraphs |
| laws of every run | RunLaws, Outcomes, Confluence, GateLaws, Resume, Crashes, ReuseLaws |
| AirLang text | Lexers, Tokenizers, Decimals, Quoting, Grammars, Parsers, ErrorPlaces, Syntax, Programs, Printers, Renderings, LexedTokens, RoundTrips, Parsing |
| AirLang meaning | Compilers, CompilerLaws, CompileErrors, Interpreters, Executions |
| the graph | Graphs, Neighborhoods, MindGraphs, GraphLaws, StaleKeys |
| the agent | ToolLoops, ToolAgents |

Every file holds the module of its own name. A method that follows a loop or an update of the source is proved
equal to a function, and the laws are proved about that function; such a method has a row of its own below only where
code and function are organised differently. What the function itself must be is pinned by laws that do not mention
it: `EntryTraces`, `GroupRecords` and `StepRecords` for the plan of a run, `Programs` for the grammar, `CompilerLaws`
and `CompileErrors` for the compiler, `GraphLaws` for the graph, `GivenBy` and `Permitted` for the agent's calls.
`Realizes(trace, blocks)` means that the trace is one of the schedules of those blocks, and `Linearizes` is the same
relation by its recursive name. `Starts(cfg, i, st)` means that the run reaches entry i in state st, in time and
within budget, with no record to replay.

The interpreter that `Interpreters.BuildingPreservesMeaning` compares with knows no entries, groups, caches or
scheduler, and shares no reading of the file with the compiler: it has its own account of what a name stands for
(`CompilerLaws.Named`), of what a strategy word makes of the votes (`CompilerLaws.Reduced`), of names given by artifacts
and lets, of when a fallback is due and of the approvals the file asks for.

## Where the code and its documentation part

The model follows the code. Each of these has a lemma with an input that shows it and a lemma that says exactly when.

- An automatic node id is not checked against explicit ids (`aircore/mindgraph.py:157-160`), so a node added as "n1"
  can be overwritten: `GraphLaws.AutoIdClash`. An automatic add loses a node exactly when its id is taken
  (`GraphLaws.AddSize`), and numbering stays safe exactly when no explicit id is one still to be handed out
  (`GraphLaws.AddKeepsAutoFresh`).
- The same clash makes `collapse` delete the node it has just made: `GraphLaws.CollapseLosesFold`. It keeps it exactly
  when its automatic id is not among the ids folded: `GraphLaws.CollapseKeepsFold`.
- A dedup key whose node was removed is documented to answer None. It does so exactly as long as no change makes a
  node under the old id again: `StaleKeys.StaleKeyFindsAnother`, `StaleKeys.StaleKeyAnswersNoneIff`.
- Compacting every cycle is documented to keep the size bounded. It stays bounded exactly when batches have at least
  two nodes, and within the caller's threshold T exactly when 2 <= n <= T: `GraphLaws.BoundedIff`,
  `GraphLaws.KeepsToThresholdIff`; the failing runs are those of `GraphLaws.SmallBatchesGrow` and
  `GraphLaws.LargeBatchesWait`.
- Syntax errors are documented to point at the offending token (`airlang/parser.py:36-39`). An unknown field, strategy,
  mode, confidence value or memory scope is reported at the token *after* the word, and a block that lacks members or
  a strategy at the token after its brace, because the parser has already moved past it. The files:
  `ErrorPlaces.UnknownScopeIsLate`, `UnknownFieldIsLate`, `UnknownStrategyIsLate`, `UnknownValueIsLate`. The exact
  tokens, production by production: the `...Iff` lemmas of `ErrorPlaces`.
- The file store turns tuples into lists, so a resumed run can bind another value than the first:
  `Checkpoints.TupleBecomesList`. It gives a value back exactly when there is no tuple inside:
  `Checkpoints.ReloadIsIdentity`, `Crashes.OneStepResumes`.

## Model

| member | source | states |
|---|---|---|
| Schedulers.Scheduler.RunThreads | aircore/scheduler.py:350-357 | a group's threads perform some interleaving of their own lists, chosen freely at each turn, and the shared dict ends as the writes of that interleaving |
| Schedulers.Scheduler.RunGroup | aircore/scheduler.py:334-371 | whatever the interleaving, a parallel group succeeds exactly when every member did, hands out one id per member, and caches the outputs in assignment order only on success |
| Schedulers.Scheduler.Run | aircore/scheduler.py:64-173 | whatever the schedule of the worker threads, the run ends as planned, with the planned bindings, cost, next id and checkpoint, and its trace is one of the plan's schedules |
| Workers.CallWithRetries | aircore/scheduler.py:284-304 | the retry loop performs the attempts one after another and ends with the last of them |
| WorkerLaws.AttemptsAre | aircore/scheduler.py:293-304 | in closed form: call, RetryAttempted numbered 1, call, ... up to the first success or the last allowed attempt, whose outcome is the result |
| WorkerLaws.ToolRunAbout | aircore/scheduler.py:195-282 | a step's thread does nothing in any other step's name |
| WorkerLaws.ToolRunSinks | aircore/scheduler.py:258-259 | a successful step leaves its output in the shared dict under its own id and nothing else |
| StepLaws.ToolRunWhole | aircore/scheduler.py:217-282 | a step starts once and first, finishes once and last with the status it had, and pays at most once, right after reporting |
| StepLaws.WholeMeasures | aircore/observability.py:89-109 | such a step counts as one step, succeeded or failed, and is charged what it reported |
| StepLaws.DecideSteps | aircore/scheduler.py:481-552 | reducing the votes is one whole step, and the fallback it may trigger is the next |
| GroupLaws.GroupProjects | aircore/scheduler.py:345-357 | in every interleaving of a group, step first + k does exactly what the k-th member's own thread does |
| GroupLaws.GroupSink | aircore/scheduler.py:357-367 | after fan-in the shared dict holds every successful member's output under its own id, whatever the interleaving |
| RunLaws.EntryMoves | aircore/scheduler.py:137-169 | an entry's steps are whole and have the consecutive ids from its first to its next, and it succeeds exactly when none of them failed |
| RunLaws.RunSteps | aircore/scheduler.py:81-169 | on every schedule of every run the steps are exactly 1..n, each whole, and nothing else happens in a step's name |
| Blocks.LinearizationProjects | aircore/scheduler.py:350-357 | what happens to one step, one group or the store is the same in every schedule |
| Measures.LinearizationMeasure | aircore/scheduler.py:350-357 | no count, usage total or cost depends on the schedule |
| Jobs.EntryStaffed | aircore/scheduler.py:137-153 | the k-th step of an entry is the thread of its k-th tool (single tool, member, voter or fallback) under the entry's agent and tag; the step that reduces votes calls nothing |
| Jobs.OneJob | aircore/scheduler.py:93-169 | a run determines for each step id the entry, the state it was reached in and the tool: no other could be meant |
| Jobs.StepOrigin | aircore/scheduler.py:93-169 | on every schedule of every run a step is the thread of its own job, or enters no tool |
| GateLaws.GateSafety | aircore/scheduler.py:223-257 | wherever a trace of any schedule enters a tool, that step's own tool was started by it before, its agent holds every capability the tool demands, an approval was given for this very step if policy asks for one for that tool, and the attempt is within that tool's retries |
| GateLaws.CallsAreDistinct | aircore/scheduler.py:293-304 | no call (step and attempt number) is made twice on any schedule |
| GateLaws.CallsWithinRetries | aircore/scheduler.py:293-304 | a step makes as many calls as its own tool is tried, none if a gate refuses, and at most 1 + its retries (once if it is not idempotent) |
| GateLaws.JournalRetriesAddUp | aircore/journal.py:156-159 | on every schedule a record has one error per retry, and a record with retries has one fewer than the calls of the step's own tool, within what that tool allows |
| StepRecords.ToolRunRecorded | aircore/journal.py:124-168 | the record of a step that ran a tool: tool, group, status, output or error, approval if asked, usage if reported, retries with their errors |
| EntryTraces.StepIsRecorded | aircore/scheduler.py:195-282 | on every schedule of every run, each tool a started entry runs leaves exactly that record: a refusal with its text, or the last attempt's value or error, and the retries before it |
| EntryTraces.DecisionIsRecorded | aircore/scheduler.py:481-552 | on every schedule the step that reduces the votes is recorded with what the strategy said of exactly the voters' values in order, or of the reused block's: the agreed value and metadata, or the exception |
| EntryTraces.FallbackStartsIff | aircore/scheduler.py:529-536 | on every schedule, after a strategy agreed, the next step starts the fallback tool in that group exactly when the reported metadata has the watched field with a number below the threshold, or a truth value whose 1 or 0 is below it |
| EntryTraces.NothingIsRecorded | aircore/scheduler.py:459-471 | a consensus over a block that left no outputs is one failed step with that error |
| EntryTraces.ReplayIsRecorded | aircore/scheduler.py:112-135 | a replayed step is recorded as replayed and successful with its recorded output, no retry and no usage |
| GroupRecords.GroupIsRecorded | aircore/scheduler.py:334-479 | on every schedule a started group is recorded with its members' names in order, its kind, success exactly when every member ended with a value, the strategy agreed and a fallback that was due ended with a value, and its own steps in the order they started, each once |
| GroupRecords.EntryLeaves | aircore/scheduler.py:137-169 | a run goes past a started entry exactly when it succeeded and the store, if any, takes its output; then its name is bound to the tool's or the agreed value, and only a parallel block leaves its members' values in order for later |
| Journals.RecordIsView | aircore/journal.py:124-168 | whatever the trace, a step's record is the fold of that step's own events in their order |
| Journals.GroupRecordIsView | aircore/journal.py:132-142 | a group's record, but for the order its steps started in, is the fold of that group's own events |
| JournalLaws.RunAnnounces | aircore/scheduler.py:340-341 | on every schedule of every run a group is started before anything that names it |
| JournalLaws.JournalNeverBreaks | aircore/journal.py:124-168 | at every moment of every schedule of every run each lookup a journal handler made has found its record: none raises KeyError |
| MetricsModel.CountsStep | aircore/observability.py:82-109 | each handler keeps steps, groups, retries, usage and the per-tool statistics the totals of the trace |
| MetricsModel.CountsDetermine | aircore/observability.py:56-109 | the trace determines every one of these totals |
| MetricsLaws.MetricsAreTheJournals | aircore/observability.py:56-109 | at the end of every run, on every schedule, metrics and journal agree: steps, successes, failures, retries, groups and every usage total are the sums of what the journal's records say |
| MetricsLaws.ToolsShare | aircore/observability.py:82-109 | a tool's calls, successes, failures, retries and usage are the totals over the events that name the tool |
| Confluence.SameRecords | aircore/scheduler.py:345-371 | any two schedules of a run leave the same journal record for every step and, but for start order, every group |
| Confluence.SameTotals | aircore/scheduler.py:345-371 | any two schedules of a run leave the same metrics and the same cost |
| Confluence.CostConserved | aircore/scheduler.py:263-268 | after every action of every schedule, cost in Metrics equals cost charged plus what the threads in flight have reported and not charged yet |
| Confluence.CostsAgreeAtFanIn | aircore/scheduler.py:263-268 | whenever the loop arrives at an entry, Metrics, the scheduler's counter and the journal's sum agree on what was spent |
| Confluence.CostsAgree | aircore/scheduler.py:263-268 | and they agree when the run is over |
| Outcomes.StatusIs | aircore/scheduler.py:80-173 | a run reports success exactly when every entry was run or replayed, exactly when nothing cut it and no step failed; CheckpointError escapes exactly for a checkpoint of another workflow or an output the store refuses |
| Outcomes.StopReasons | aircore/scheduler.py:97-169 | an entry stops the run for one reason only: a cut, a failed step or a checkpoint error |
| Outcomes.OverspendIsOneEntry | aircore/scheduler.py:101-109 | under a cost budget a run spends nothing, or what it had spent within the budget when it started its last entry plus that entry's cost |
| Outcomes.TraceStatus | aircore/scheduler.py:171-173 | the status in the trace is the run's, on every schedule, and a step failed in the trace exactly when one failed in the plan |
| GroupTags.RunIsTagged | aircore/scheduler.py:345-346 | in every run of a workflow with distinct groups each group's steps have consecutive ids, and each tag is a group that was started |
| ExecutionGraphs.BuildExecutionGraph | aircore/graph.py:36-66 | grouping in one pass and walking the sorted steps with a set of seen groups gives the tree in which each group stands where its first member does, over its members by id |
| ExecutionGraphs.LeavesInOrder | aircore/graph.py:36-66 | where groups are contiguous, the leaves of the execution graph read left to right are the steps in the order of their ids |
| ExecutionGraphs.TreeShows | aircore/graph.py:36-66 | every node under the root is a step of no group with its tool and status, or a group with its kind, number and status over its own steps by id |
| ExecutionGraphs.MembersSorted | aircore/graph.py:40-54 | a group's members are exactly the steps tagged with it, in the order of their ids |
| RunGraphs.LeavesAreTheSteps | aircore/graph.py:36-66 | whatever the schedule, the journal holds exactly the steps 1..n, each finished, each group's contiguous, and the graph's leaves are those steps in that order with their tool and status |
| Checkpoints.MemoryStore.Record | aircore/checkpoint.py:148-150 | a storable output is recorded under its position as it is, any other is refused and changes nothing, and no other run id is touched |
| Checkpoints.FileStore.Record | aircore/checkpoint.py:182-188 | the same on the whole rewritten file, except that what is loaded back is the value after JSON |
| Checkpoints.DecodeAt | aircore/checkpoint.py:175-180 | position i is loaded exactly when the file has the key str(i), with that entry |
| Checkpoints.StorableIff | aircore/checkpoint.py:121-131 | the store accepts a value exactly when nothing json refuses is anywhere inside it |
| Checkpoints.ReloadParts | aircore/checkpoint.py:182-188 | what the file gives back, part by part: a tuple as a list of the same length, a dict with its keys in order, everything else as it was |
| Checkpoints.ReloadIsIdentity | aircore/checkpoint.py:121-131 | the file gives back the very value recorded exactly when it holds no tuple |
| Checkpoints.TupleBecomesList | aircore/checkpoint.py:182-188 | a tuple comes back as a list |
| Resume.Lockstep | aircore/scheduler.py:111-135 | wherever an attempt with a faithful checkpoint arrives, the uninterrupted run arrives in the same state |
| Resume.UncutRunEndsAlike | aircore/scheduler.py:93-173 | an attempt that nothing cuts ends like the uninterrupted run |
| Resume.BudgetedResume | aircore/scheduler.py:101-135 | under the same cost budget the resumed run gets at least as far, and ends alike where the other was not cut |
| Crashes.CrashStaysSound | aircore/scheduler.py:154-165 | a crash after any action of any schedule leaves a checkpoint whose records are the uninterrupted run's and whose positions are a prefix of the sequential positions |
| Crashes.HistoryStaysSound | aircore/scheduler.py:111-165 | so does any history of crashed attempts; no group position is ever recorded |
| Crashes.CrashResume | aircore/scheduler.py:89-173 | after any number of attempts, each stopped after any action of any schedule, a last attempt that nothing stops ends with the status, bindings and outputs per entry of one uninterrupted run |
| Crashes.CrashResumeWithinBudget | aircore/scheduler.py:101-135 | with a cost budget the last attempt is never cut earlier than a run from the start would be |
| Crashes.RecordedStepsAreReplayed | aircore/scheduler.py:112-135 | on no schedule does a resumed run do anything for a recorded step but replay it: its tool is not entered |
| Crashes.OneStepResumes | aircore/checkpoint.py:182-188 | resuming a one-step workflow from the file store binds the same value exactly when the value holds no tuple |
| Workflows.Workflow.AddParallel | aircore/workflow.py:142-157 | two tools or more append one unbound parallel entry with a new group id, fewer append nothing; what was built stays well built |
| Workflows.Workflow.AddConsensus | aircore/workflow.py:211-217 | voters append one consensus entry; fewer than two voters, or a fallback without a threshold or the other way round, are refused and append nothing |
| Workflows.Workflow.AddConsensusOver | aircore/workflow.py:198-209 | results of another workflow are refused; otherwise the entry reuses exactly that earlier block and its tools |
| Workflows.Workflow.Validate | aircore/workflow.py:219-255 | a run is let through exactly when it is admissible; each of the first two violations is reported exactly when its check fails first, the others name the first entry that violates, by which check |
| Workflows.Workflow.Run | aircore/workflow.py:257-306 | a refused run changes no binding; any other starts from cleared bindings and, on any schedule, leaves the planned bindings and ending, the checkpoint of its trace and, if it finished, the journal and metrics of its trace |
| ReuseLaws.ReuseFindsOutputs | aircore/scheduler.py:459-474 | in every workflow the builder can make, a reusing consensus is only reached with its block's outputs cached: the branch without outputs is unreachable |
| ReuseLaws.ReuseRefinesRerunning | aircore/scheduler.py:444-479 | a block and a consensus over it have the success, agreed value, next id and tool calls of the consensus that runs its own voters, each voter once |
| ReuseLaws.ReuseKeepsTheRun | aircore/workflow.py:153-217 | replacing the one by the other anywhere in a workflow changes neither how it ends nor any binding nor the number of steps |
| Strategies.MajorityIffWinner | aircore/consensus.py:60-71 | majority agrees exactly when one kind of output has strictly the most votes, and on the first output of that kind |
| Strategies.UnanimousIff | aircore/consensus.py:74-79 | unanimous agrees exactly when there is an output and all are equal to it |
| Strategies.UnanimousIsMajority | aircore/consensus.py:60-79 | where unanimous agrees, majority agrees on the same value |
| Strategies.OrderDoesNotDecide | aircore/consensus.py:60-71 | the order of the votes decides at most which of equal values stands for the winner |
| Strategies.SameIff | aircore/consensus.py:60-79 | two outputs count as the same exactly when Python calls them equal: truth values as numbers, tuples part by part |
| Strategies.RefusalsAre | aircore/consensus.py:60-79 | both refuse with TypeError exactly for an output that cannot be hashed, else with IndexError for no outputs, else with ConsensusFailed |
| Lexers.PatternsScanRight | airlang/lexer.py:43-58 | every pattern's scanner finds the longest text of the pattern's language at every position, if there is any |
| Tokenizers.Tokenize | airlang/lexer.py:61-90 | the loop with its running line and line start gives exactly the tokens cut at the longest first match, with lines and columns counted from the start of the text, or the error at the place where that fails |
| Tokenizers.LosslessAndLocated | airlang/lexer.py:61-90 | the tokens and the skipped parts concatenate to the source; each is the longest text of the first pattern that matches where it stands; its line and column are those of the newlines before it |
| Tokenizers.NoMatchMeansNone | airlang/lexer.py:68-71 | an unexpected character is reported only where no pattern matches anything |
| Tokenizers.TokensAre | airlang/lexer.py:61-90 | the tokens are all parts of the text but blanks and comments, then the end of the file; no token is a string over several lines |
| Tokenizers.LexErrorIs | airlang/lexer.py:68-78 | a lexical error stands where the text before it was cut into parts and either no pattern matches or the first longest match is a string with a newline |
| Tokenizers.PlacesMove | airlang/lexer.py:64-88 | places start at line 1, column 1; a newline starts the next line at column 1 and any other character moves one column on |
| Decimals.DecimalRoundTrip | airlang/parser.py:367-369 | a number printed and read back is the same number |
| Decimals.IntegerRoundTrip | airlang/parser.py:199 | a whole number printed, read and truncated is itself |
| Decimals.NormalizeKeepsNumber | airlang/parser.py:367-369 | the one form a number is kept in names the same number |
| Decimals.LiteralNames | airlang/parser.py:367-373 | a literal names its digits over ten to the number of digits behind the point |
| Decimals.TruncateIs | airlang/parser.py:199 | a number of parallel tools is the whole number at or just below the one written |
| Decimals.DurationNames | airlang/parser.py:376-381 | a duration counts thousandths of seconds, seconds, minutes of sixty or hours of 3600, by its unit, and "ms" is not read as "s" |
| Decimals.DurationRoundTrip | airlang/parser.py:376-381 | a duration printed and read back is the same number of seconds |
| Quoting.TwoPassesAreOne | airlang/parser.py:361-364 | on every string the lexer accepts, the two replacements undo exactly one escape at a time |
| Quoting.QuoteRoundTrip | airlang/parser.py:361-364 | a one-line string written with escapes is a string token and reads back as itself |
| Renderings.LexRendered | airlang/lexer.py:61-90 | lexing rendered tokens gives those tokens and the end of the file, through the ordered patterns |
| LexedTokens.LexedStream | airlang/lexer.py:43-90 | every token has a text of its kind, and the end of the file is last and only there |
| Grammars.Declarations | airlang/parser.py:98-154 | parsing ends having consumed every token but the last, with a well-formed representation that has a workflow, or with an error at a token that is to blame for it |
| Parsers.Parse | airlang/parser.py:36-41 | the parser object, moving one position over the tokens, returns for every source what `Programs.ParseIff` says it means, or the grammar's error at that token's line and column |
| Programs.ParseIff | airlang/parser.py:36-358 | a source parses to a representation exactly when its tokens spell a legal file that means it: bare and block forms, fields in any order and repeated (the last value counts, approvals collect), declarations interleaved, exactly one workflow |
| Programs.FileReads | airlang/parser.py:98-358 | whatever legal file tokens spell, in whatever form, they are read as what it means |
| Parsing.ErrorsAreLocated | airlang/parser.py:65-67 | every grammatical error is at the line and column of a token that is to blame for it, or of the one after it for the words listed in `Blames` |
| Parsing.PrintThenParse | airlang/parser.py:39-358 | every representation that could come out of a parse, printed and parsed, is itself |
| Parsing.RoundTrip | airlang/parser.py:39-358 | whatever source parses, its representation printed and parsed again is identical |
| ErrorPlaces.AgentFieldIff | airlang/parser.py:167-184 | a word in an agent block is reported as unknown, one token late, exactly when it is none of an agent's fields |
| ErrorPlaces.PolicyFieldIff | airlang/parser.py:194-205 | the same for a policy block |
| ErrorPlaces.ArtifactFieldIff | airlang/parser.py:310-317 | the same for an artifact block |
| ErrorPlaces.ApprovalFieldIff | airlang/parser.py:351-356 | the same for an approval block |
| ErrorPlaces.ConsensusFieldIff | airlang/parser.py:271-292 | the same for a consensus block, and for the values of its strategy, mode and confidence |
| ErrorPlaces.BareConsensusIff | airlang/parser.py:298-302 | a bare consensus reports its word late exactly when it is no strategy |
| ErrorPlaces.NoStrategyIff | airlang/parser.py:293-296 | a block of good fields is refused, at the token after its brace, exactly when none of its pairs sets the strategy |
| ErrorPlaces.ScopeIff | airlang/parser.py:132-137 | a memory scope is reported late exactly when it is none of the three |
| ErrorPlaces.TooFewMembersIff | airlang/parser.py:229-236 | a parallel block is refused, at the token after its brace, exactly when it has no member or one |
| ErrorPlaces.UnknownScopeIsLate | airlang/parser.py:132-137 | `memory wrong`: the error is at the end of the file |
| ErrorPlaces.UnknownFieldIsLate | airlang/parser.py:190-205 | `policy { wrong }`: the error is at the brace |
| ErrorPlaces.UnknownStrategyIsLate | airlang/parser.py:298-302 | `workflow w { consensus wrong }`: the error is at the brace |
| ErrorPlaces.UnknownValueIsLate | airlang/parser.py:281-290 | a wrong mode or confidence value in a block: the error is at the token after it |
| Compilers.BuildWorkflow | airlang/executor.py:152-358 | the walk with its pending handle, calling the workflow's own builder methods, makes exactly the entries and policy that `CompilerLaws` describes, or fails with the error that `CompileErrors` describes, and what it made is well built |
| CompilerLaws.BuildsIff | airlang/executor.py:152-414 | building succeeds exactly when every agent can be built, every name resolves, every consensus stands right after a parallel block, every `if` right after a consensus with `<`, one bare reference and, for confidence, a judge that reports it, every let has its artifact, and there is no approval or memory statement |
| CompilerLaws.OneEntryPerNode | airlang/executor.py:279-354 | the built workflow has exactly one entry per step, reference, parallel and consensus statement, in order, and each is what its statement says: the tools its names stand for, the name the artifact after it gives, the block just before it reused, the strategy and the fallback; every group has its own number |
| CompilerLaws.StrategyIs | airlang/executor.py:399-414 | "majority" agrees exactly where one kind of output has strictly the most votes, "unanimous" exactly where all are equal, each on the first such output, and "judge" where the judge of the file's provider does, in the stated mode or synthesizing, with the stated confidence |
| CompilerLaws.AgentsAreLast | airlang/executor.py:240-268 | a name stands for the last agent declared under it, built with its own provider or else the file's |
| CompilerLaws.PolicyIs | airlang/executor.py:196-201 | the policy has exactly the written limits as numbers and asks approval for exactly the written tools |
| CompileErrors.CompileErrorIs | airlang/executor.py:158-414 | a file that cannot be built is refused with the first thing wrong: a let of no artifact, else the first agent that cannot be built by its first failing check, else the first statement that cannot |
| Interpreters.BuildingPreservesMeaning | airlang/executor.py:214-358 | for every file that builds and sets no budget, running the built workflow gives the status, bindings and per-node outputs of a left-to-right interpreter of its body with its own reading of names, strategies, artifacts, lets, approvals and fallbacks |
| Executions.ExecuteIR | airlang/executor.py:417-430 | execute_ir fails to build exactly where building fails, is turned away exactly where the workflow is not admissible, and otherwise leaves the meaning's bindings and outputs and, on any schedule, a journal of its trace with the meaning's status |
| Graphs.ByAgeLists | aircore/mindgraph.py:213-217 | all_nodes lists each node once, strictly oldest first |
| MindGraphs.MindGraph.Neighborhood | aircore/mindgraph.py:303-334 | exactly the live nodes at undirected distance at most `hops`, each once, oldest first; an unknown node is refused |
| Neighborhoods.BallSize | aircore/mindgraph.py:303-334 | with at most d neighbours a node, at most 1 + d + ... + d^h nodes are within h hops, whatever the size of the graph |
| GraphLaws.AddIsLocal | aircore/mindgraph.py:303-334 | a new node with no edge into the h - 1 hop neighbourhood of u leaves the h hop neighbourhood of u as it was |
| GraphLaws.AddIs | aircore/mindgraph.py:124-168 | adding succeeds exactly when all edges are to live nodes and an explicit id is free, else names the first missing edge or the id; it adds that one node, uses a number up only for an automatic id and registers only a key given |
| GraphLaws.LinkIs | aircore/mindgraph.py:194-202 | linking succeeds exactly when both nodes are live; then the target is among the source's edges, behind the old ones if it was not there; nothing else changes |
| GraphLaws.RemoveIs | aircore/mindgraph.py:204-211 | removing takes one node away and changes nothing else, whoever points at it |
| GraphLaws.AddKeepsAutoFresh | aircore/mindgraph.py:157-160 | numbering stays free of clashes exactly when an explicit id is none still to be handed out |
| GraphLaws.AddSize | aircore/mindgraph.py:157-165 | an automatic add grows the graph exactly when its id is free; otherwise it overwrites a node |
| GraphLaws.AutoIdClash | aircore/mindgraph.py:157-165 | a first node named "n1" is lost to the first automatic add |
| MindGraphs.MindGraph.Collapse | aircore/mindgraph.py:219-277 | adding, removing and relinking node by node in any order gives the graph with every edge list redirected at once; a call on an unknown id changes nothing |
| GraphLaws.CollapseIsQuotient | aircore/mindgraph.py:219-277 | where the new id is free: collapse fails exactly on an unknown id; else survivors stay as they are but for edges: those between survivors are kept, one to the new node exactly where one pointed at a folded node, none repeated, in the order in which the old ones first became them; the new node has none, and keys stay as they were |
| GraphLaws.CollapseKeepsFold | aircore/mindgraph.py:254-257 | the new node survives its own collapse exactly when its automatic id is not among the ids folded |
| GraphLaws.CollapseLosesFold | aircore/mindgraph.py:254-257 | folding the explicitly named "n1" first thing leaves an empty graph |
| GraphLaws.CompactFolds | aircore/mindgraph.py:279-301 | compaction is the collapse of the n oldest nodes, which are n distinct live ones |
| GraphLaws.RunsStaySound | aircore/mindgraph.py:124-301 | in every state of every run of add, link, collapse and compact, which do what the rows above say, with no clashing explicit id, no edge dangles and ids and ages are consistent |
| GraphLaws.RunsAcyclic | aircore/mindgraph.py:150-168 | without link, no state of any such run has a cycle |
| GraphLaws.LongRunCounts | aircore/mindgraph.py:279-301 | over any number of cycles of add and compact, for every threshold and batch, every node ever added is stood for by exactly one live node, and the size is exactly the one counted |
| GraphLaws.KeepsToThresholdIff | aircore/mindgraph.py:279-301 | every run keeps at most T nodes exactly when 2 <= n <= T |
| GraphLaws.BoundedIff | aircore/mindgraph.py:279-301 | the size is bounded at all exactly when n >= 2 |
| GraphLaws.SmallBatchesGrow | aircore/mindgraph.py:297-301 | with n <= 1 there are i nodes after i cycles |
| GraphLaws.LargeBatchesWait | aircore/mindgraph.py:297-298 | a batch of n waits: there are i nodes after each of the first n cycles, whatever the threshold |
| GraphLaws.BetweenAddAndCompact | aircore/mindgraph.py:279-301 | between a cycle's add and its compaction there are at most T + 1 nodes |
| StaleKeys.KeyFindsItsId | aircore/mindgraph.py:170-179 | until it is registered again a key finds whatever node has the id it was registered with, if any |
| StaleKeys.RemoveLeavesKey | aircore/mindgraph.py:204-211 | removing a node leaves its key in the index, answering None |
| StaleKeys.StaleKeyAnswersNoneIff | aircore/mindgraph.py:170-179 | over any stretch of changes, removals included, a key whose node is gone answers None exactly when no change makes a node under the old id |
| StaleKeys.StaleKeyFindsAnother | aircore/mindgraph.py:170-179 | "a" removed and added again without a key is found under the old one's key |
| ToolAgents.ModelAgent.GenerateWithRetry | airpy/model_agent.py:518-531 | at least one and at most 1 + retries model calls; all but the last failed; failure only after all of them |
| ToolAgents.ModelAgent.RememberTurn | airpy/model_agent.py:488-498 | history grows by exactly the prompt and the final answer |
| ToolAgents.ModelAgent.InvokeTool | airpy/model_agent.py:626-651 | a tool is run only if the agent has it and its identity was granted all it requires; the text and error are the refusal's, or show the value, or the exception's type and text |
| ToolAgents.ModelAgent.Run | airpy/model_agent.py:533-624 | for any provider: messages are history, prompt and complete exchanges, each what the model answered to all that was said before it, one answer per call in order under its id; every requested call is logged in order and explained: run with its value or exception, refused, recalled or expanded; exactly the explained calls were run, all of them permitted; where no node stands for a result the logged text is shown; at most max_turns exchanges with 1 + retries model calls each; the final answer is the last response; history grows by one pair or not at all; with pure tools and an agreeing graph, answers show a node that holds the call's result |
| ToolAgents.RunWithAndWithoutReuse | airpy/model_agent.py:573-619 | two agents with the same pure tools, one reusing results and one not, leave identical logs for the same requested calls, and the reusing one enters no tool twice for a call nor for one cached before |
| ToolLoops.DedupKeepsLog | airpy/model_agent.py:581-614 | logs in agreement with the same pure tools are record for record the same for the same calls |
| ToolLoops.AddingAgrees | airpy/model_agent.py:682-722 | keeping a call's result as a node leaves every other node and cached call as it was and the cache in agreement with the tools |
| ToolLoops.TranscriptSplits | airpy/model_agent.py:567-619 | the messages of earlier exchanges come before those of later ones |
| ToolLoops.CallsSplit | airpy/model_agent.py:573-619 | so do the calls requested and the answers given |
| ToolLoops.OnlyPermittedRun | airpy/model_agent.py:641-646 | no tool is ever run that the agent does not have or its identity lacks a capability for |
| ToolLoops.ShownRefusal | airpy/model_agent.py:636-646 | a call the agent has no right to make is shown as its refusal |
| ToolLoops.ExpandRefuses | airpy/model_agent.py:724-743 | expand_node of an unknown id is an answer that says so; anything but one id is an error |
| ToolLoops.ShownIs | airpy/model_agent.py:668-743 | a value is shown as its summary under its node's own id, and expand_node with the id in the text gives the whole value; an exception is shown as its type and text |

## Left out

- Wall-clock time: durations, timestamps and the moment `max_runtime` is exceeded; the clock before each entry is an arbitrary answer of the outside world.
- `Tool.timeout` (`aircore/scheduler.py:306-332`): a timed-out call is one more way an attempt can fail; how long the wait is, and the thread left running, are not modelled.
- Threads: the list of actions of each worker is computed before it is interleaved, so a tool reads the bindings of the group's start, which no worker changes; memory shared between tools is not modelled.
- An approval callback that raises, and `usage()` or `describe_last_call()` that raise, are not modelled; each is a total answer.
- Groups have distinct numbers where the source draws short random ids; a collision of two random ids is not modelled.
- JSON: checkpoint outputs are values with string keys; keys of other types, partial writes and a corrupt file are not modelled.
- Numbers: costs, confidences, AirLang numbers and durations are exact; floating-point rounding is not modelled.
- Text: source files are ASCII.
- Strategies: the wording of exceptions, which quotes the votes, is cut to its fixed part, and their types are proved; `JudgeConsensus` is an arbitrary strategy.
- Compilers: a top-level `memory` declaration is parsed and round-trips, but what it attaches to the workflow is left out, since the run would clear a scope object that has no `temporary` part (`airlang/executor.py:203-205`, `aircore/workflow.py:302-303`); the provider catalog, agents and prompt templates are answers of the environment.
- Interpreters.BuildingPreservesMeaning: files with a cost or time budget are left out of it; what a budget does to a run is `Outcomes.StatusIs` and `Outcomes.OverspendIsOneEntry`.
- Crashes.CrashResume: for the file store it asks that no output the run records holds a tuple, the condition of `Checkpoints.ReloadIsIdentity`.
- ErrorPlaces.ApprovalFieldIff: speaks of the field at the position given; a later field of the same block is the same lemma at the later position.
- MindGraphs: nodes are values in the dictionary rather than shared objects, so a caller that keeps a node and changes it by hand is not modelled; prompt rendering, summaries and token estimates are left out.
- GraphLaws.RunsStaySound: bare `remove` may leave edges dangling by design and is not one of its operations; it is among those of `StaleKeys`.
- ToolLoops: the dedup key is the pair of name and arguments; the JSON text it is encoded in, structured output, streaming and `mindgraph_savings` are left out; wrong arguments to `expand_node` give one fixed error text.
- The execution graph's text rendering, the journal's `pretty()` and `to_dict()`, and Metrics' summary are left out: they only format what is modelled.
- Providers, the MCP client, the sandbox and the command line are outside the model.
