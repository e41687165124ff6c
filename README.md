# Bonsai simulator scaling on Azure Batch — a Dafny model

This project models the Python toolkit that scales Bonsai simulators on Azure Batch and edits
Inkling teaching programs. Four source files are modelled:

- **batch_containers.py** (modules `PoolPlanning`, `BatchBackend`, `BatchContainers`).
  - `run_tasks` and its pool sizing: tasks per node, the five-step VM size ladder with its
    confirm-or-replace reply, default pool and job names, and platform and image settings.
  - The `AzureBatchContainers` orchestrator as a class whose methods update `use_fileshare`,
    `mount_path`, `pool_id`, `job_id` and `task_id`.
  - The orchestrator sends its requests to a Batch service held as a value: existing pools and
    jobs, plus the log of every request sent.
- **batch_creation.py** (module `BatchCreation`).
  - `str_check` and the resource-group auto-conversion.
  - Default resource names, and the strings `write_azure_config` writes.
  - The `AcrBuild` platform detection, the `build_image_acr` command line, and the file-share,
    registry and insights URLs.
  - The three-way result classification of `azure_cli_run`.
- **ink_parser.py** (module `InkParser`).
  - Splitting an Inkling file on `##` headers.
  - Rewriting the goal weights, the training block or the algorithm block of the last
    matching chunk.
  - Each loop of the source is a method proved equal to a specification function. The
    properties are proved about that function.
- **reconnect.py** (module `Reconnect`).
  - `parse_sim_status` over an in-memory listing.
  - The `connect_sim` retry loop as a method proved against a recursive specification of its
    rounds.
  - The argument validation and the periodic outer loop of the entry point, bounded by a
    number of rounds.

Supporting modules:

- `Wrappers` holds `Option` and `Result`.
- `Strings` models the Python `str` operations the code relies on, over ASCII: `lower`,
  `strip`, `in`, `split()`, `str(int)` and zero-padded formatting.
- `Seqs` holds sequence-concatenation helper lemmas.

How effects are modelled:

- **Prompts** (`input()`) are parameters holding the reply.
- **The clock** is a `DateTime` parameter or a sequence of clock readings.
- **Subprocess and Azure CLI results**, and the service replies of the reconnect loop, are
  abstract outcomes passed in: `CliOutcome`, `World` and `Poll`.
- **Exceptions** are `Err` values of a `Result`.

## Where the code and its documentation differ

The model follows the code in each of these cases:

- **Price lookup.** A failed price lookup in `batch_main` is not caught. It aborts the run
  after the job is added and before any task is submitted (`BatchContainers.BatchMainOutcome`).
- **Resource-name length.** The resource-group prompt says names may have "no more than 25"
  characters. `str_check` rejects every name of 25 characters or more, so the longest
  accepted name has 24 (`BatchCreation.StrCheck`).
- **Goal weights.** Each goal's weighting is applied to the original chunk and replaces the
  previous result. Only the last `(goal, weight)` pair therefore reaches the output
  (`InkParser.OnlyLastWeightCounts`).
  - A goal chunk with no weights at all reads an unassigned `ink_c`.
- **Reweighting.** Reweighting a line that already names a weight replaces only its last two
  characters. A two-digit weight keeps its first digit (`InkParser.ReweightTwoDigits`).
- **Platform argument.** The log message of `run_tasks` says an explicit `platform` is written
  into the configuration, but the configured platform overwrites the argument first. The run
  model keeps the configured platform (`PoolPlanning.Plan`, `BatchContainers.RunTasks`); the
  intended plan is `PoolPlanning.PlanIntended` (see "## Findings").
- **Waiting for tasks.** `wait_for_tasks_to_complete` starts with a `logger.info` call that
  passes `print`'s keyword `end`. `Logger.info` hands it on to `Logger._log`, which takes no such
  keyword. INFO is enabled by the logging set-up at import time (batch_creation.py:21-26 and
  batch_containers.py:33-35), so the call raises TypeError before the job's tasks are listed.
  A `batch_main` that waits therefore submits every task and then always raises; it never
  polls, never reports success and never reaches its timeout error
  (`BatchContainers.AzureBatchContainers.WaitForTasksToComplete`,
  `BatchContainers.WaitingBatchMainRaises`). The intended polling loop is
  `BatchContainers.AzureBatchContainers.WaitForTasksToCompleteIntended` (see "## Findings").
- **Negative `--interval`.** The entry point accepts a negative `--interval`. Its first
  `time.sleep` then raises, which ends the loop (`Reconnect.Periodic`, `NegativeSleep`).

## Model

| member | source | states |
|---|---|---|
| Strings.Lower | batch_containers.py:613 | `str.lower` keeps the length, maps each character independently and leaves no upper-case letter |
| Strings.LStripSpec | ink_parser.py:46 | the left strip is a suffix of its input; everything dropped before it is white space, and it does not start with white space |
| Strings.RStripSpec | ink_parser.py:46 | the right strip is a prefix of its input; everything dropped after it is white space, and it does not end with white space |
| Strings.StripSpec | ink_parser.py:106 | `str.strip` is a slice of its input with only white space before and after it, and the slice neither starts nor ends with white space |
| Strings.Words | reconnect.py:51 | every word `str.split()` yields is a non-empty run of non-space characters |
| Strings.WordsSpaceConcat | batch_creation.py:54 | splitting `a + " " + b` yields the words of `a` followed by the words of `b` |
| Strings.WordsJoinSpaced | batch_creation.py:54 | splitting tokens joined by single spaces gives back exactly those tokens |
| Strings.IntToStringInjective | batch_containers.py:649-656 | distinct integers have distinct decimal renderings |
| Strings.PadNatValue | batch_containers.py:263 | reading back a zero-padded rendering gives the number, so padding to one width is injective |
| PoolPlanning.CeilDiv | batch_containers.py:595 | `ceil(n / d)` is the least multiple count covering `n`, for either sign of `d` |
| PoolPlanning.TasksPerNode | batch_containers.py:594-595 | tasks per node is at least 1 and covers all tasks on a positive node count, and it is minimal unless forced up to 1; a zero node count raises |
| PoolPlanning.TasksPerNodeMonotone | batch_containers.py:594-595 | more nodes never need more tasks per node |
| PoolPlanning.SkuTier | batch_containers.py:613-623 | the tier is the first ladder step whose capacity holds the number of tasks per node |
| PoolPlanning.SkuTierMonotone | batch_containers.py:613-623 | the VM size ladder is a monotone step function |
| PoolPlanning.AutoSku | batch_containers.py:613-623 | the automatic size is on the ladder; it is the smallest size iff tasks per node is at most 8, and the largest iff more than 75 |
| PoolPlanning.ChooseVmSize | batch_containers.py:609-642 | a size the user gave is kept unchanged; an automatic size is kept when it needs no confirmation or the reply is "yes" in any case, and any other reply becomes the size |
| PoolPlanning.ConfirmationOnlyForCostlyAutoSku | batch_containers.py:632-640 | the confirmation reply matters only for an automatic size with more than 8 tasks per node |
| PoolPlanning.DefaultPoolIdsDistinguishNodeCounts | batch_containers.py:649-652 | default pool ids of one image differ for different node totals |
| PoolPlanning.DefaultJobNamesDistinguishTaskCounts | batch_containers.py:653-656 | default job names of one image differ for different task counts |
| PoolPlanning.PlatformAsWritten | batch_containers.py:586 | as written, the platform is always the configured one |
| PoolPlanning.PlatformArgumentIgnored | batch_containers.py:586-599 | an explicit "windows" argument is discarded when the configuration says "linux" |
| PoolPlanning.EffectivePlatform | batch_containers.py:597-599 | an explicit platform argument wins, otherwise the configured platform stays |
| PoolPlanning.Plan | batch_containers.py:581-667 | a missing configuration raises first, and a zero node total raises; otherwise the command and task count come from the argument or the prompt, tasks per node is `TasksPerNode` (at least 1 and covering every task), node counts are kept, the VM size is the ladder choice, image name and version fall back to the configuration, the pool id and job name are the given or default ones, and the platform is the configured one, with the Windows image iff it is "windows" in any case |
| PoolPlanning.PlanIntended | batch_containers.py:597-599 | the corrected plan: an explicit platform argument is written and decides the Windows image; otherwise the configured platform stays |
| PoolPlanning.PlanIntendedDiffersOnlyInPlatform | batch_containers.py:586-599 | the corrected plan fails exactly when the written one does and differs from it only in the platform and the Windows-image choice |
| PoolPlanning.PlanIgnoresWindowsArgument | batch_containers.py:586-658 | with a "windows" argument and a "linux" configuration, the written plan keeps the Linux image and the corrected plan takes the Windows one |
| PoolPlanning.PoolIdIgnoresTaskCount | batch_containers.py:649-652 | two plans that differ only in task count get the same default pool id |
| BatchContainers.CreatePoolAddsIff | batch_containers.py:236-251 | `create_pool` sends exactly one pool addition iff `skip_if_exists` is false or the pool is absent; only a forced re-addition is refused; the pool exists afterwards otherwise, and jobs are untouched |
| BatchContainers.CreatePoolTwiceAddsAtMostOnce | batch_containers.py:236-251 | two skip-if-exists calls add the pool at most once, and the second call changes nothing and raises nothing |
| BatchContainers.JobIdFor | batch_containers.py:253-264 | an explicit job name is used verbatim; otherwise the id is `Job-`, the unquoted configured name and a dash, followed by exactly the timestamp of the current time |
| BatchContainers.TimestampInjective | batch_containers.py:263 | two times `datetime.now()` can return that give the same `%Y-%m-%d-%H-%M-%S` stamp are the same time |
| BatchContainers.DefaultJobIdsDistinct | batch_containers.py:259-263 | default job ids made at distinct times are distinct |
| BatchContainers.RunOptionsWords | batch_containers.py:365-377 | the container run options split into the working-directory flag and directory for the platform, followed by `--volume` and the log mount only when the file share is used |
| BatchContainers.TaskNamesDistinct | batch_containers.py:477-492 | task names `job_number{i}_{JOB_NAME}` are pairwise distinct |
| BatchContainers.SubmittedTasksFacts | batch_containers.py:359-403 | the submitted tasks number `NUM_TASKS`, with distinct names `job_number{i}_{JOB_NAME}`, the given command or "python main.py", exactly SIM_WORKSPACE and SIM_ACCESS_KEY in their environment, and an elevated task-scoped user |
| BatchContainers.NextTaskNameFresh | batch_containers.py:477-492 | the next task's name differs from every task already submitted |
| BatchContainers.AddNextTask | batch_containers.py:400-405 | adding a task with a fresh name to the job appends it and raises nothing |
| BatchContainers.WaitCompletesAtFirstCompletePass | batch_containers.py:418-430 | the wait reports completion exactly at the first pass before the deadline whose listing has no incomplete task |
| BatchContainers.WaitTimesOutAfterIncompletePasses | batch_containers.py:418-436 | the wait fails exactly when the deadline passes after listings that all showed an incomplete task |
| BatchContainers.BatchMainOutcomeWithFacts | batch_containers.py:438-498 | whatever the wait raises, a job id already in use is the only service fault and a failed price lookup stops the run; once the job is added and priced, the pool exists, the job holds exactly `NUM_TASKS` tasks with distinct names, and only the wait can still fail |
| BatchContainers.BatchMainOutcomeFacts | batch_containers.py:407-504 | `batch_main` as written fails on a job id already in use, on a failed price lookup and on every run that waits (the TypeError of the wait's log call, after all tasks are submitted), and on nothing else |
| BatchContainers.BatchMainIntendedFacts | batch_containers.py:418-504 | `batch_main` with the intended wait fails on a job id already in use, on a failed price lookup and on a timed-out wait, and on nothing else |
| BatchContainers.WaitingBatchMainRaises | batch_containers.py:411-496 | on a waiting run whose tasks are all complete at the first pass, the code as written raises the log call's TypeError while the intended wait succeeds |
| BatchContainers.AzureBatchContainers.constructor | batch_containers.py:41-91 | the workspace and access key are the given pair only when both are given, otherwise the `.env` pair; no pool, job or task is set |
| BatchContainers.AzureBatchContainers.CreatePool | batch_containers.py:176-251 | records the file-share flag and the platform's mount path, sets the pool id, and leaves the service as `create_pool` does |
| BatchContainers.AzureBatchContainers.AddJob | batch_containers.py:253-270 | sets the job id from the given name or from the configuration and time, and sends one job addition on the current pool |
| BatchContainers.AzureBatchContainers.DeleteJob | batch_containers.py:272-274 | without a job id nothing is sent and the call is refused; otherwise one deletion is sent and its fault returned |
| BatchContainers.AzureBatchContainers.AddTask | batch_containers.py:348-405 | sets its task id and sends one task addition holding the modelled Batch task |
| BatchContainers.AzureBatchContainers.WaitForTasksToComplete | batch_containers.py:407-416 | as written: raises the TypeError of its first `logger.info` call, having listed the tasks zero times |
| BatchContainers.AzureBatchContainers.WaitForTasksToCompleteIntended | batch_containers.py:418-436 | the intended loop: returns True after the first complete listing before the deadline, otherwise raises the timeout error, agreeing with the poll specification |
| BatchContainers.AzureBatchContainers.BatchMain | batch_containers.py:438-504 | the result and the new service are those of the as-written `batch_main` specification, so a waiting run ends in the wait's TypeError; the pool and job ids and the platform's mount path are set, and `task_id` names the last task once all are submitted, otherwise it is unchanged |
| BatchContainers.AzureBatchContainers.SubmitTasks | batch_containers.py:477-492 | the job ends up holding exactly the submitted tasks, and `task_id` names the last one submitted (unchanged when there are none) |
| BatchContainers.AzureBatchContainers.DeletePool | batch_containers.py:290-305 | with `delete_all`, every existing pool is deleted once and jobs are untouched; otherwise one deletion of the named or configured pool is sent |
| BatchContainers.AzureBatchContainers.DeleteAllTasks | batch_containers.py:276-288 | every job is deleted once, each job id is tried exactly once, pools are untouched; the result is the list of ids tried, whereas the source collects the deletions' return values, which are all `None` |
| BatchContainers.AzureBatchContainers.ResizePool | batch_containers.py:307-323 | one resize of the named or configured pool is sent with the given node targets |
| BatchContainers.RunTasks | batch_containers.py:542-695 | planning errors and an invalid `log_iterations` text raise before anything is sent; otherwise the result is `batch_main` on the written plan, without waiting |
| BatchContainers.WrittenConfigKeepsPlatform | batch_containers.py:586-667 | the configuration `run_tasks` writes keeps the configured platform and takes the Windows image entries exactly when that platform is "windows" |
| BatchContainers.PlannedRunHoldsAllTasks | batch_containers.py:594-695 | a successful planned run leaves a job with the planned number of tasks, and on a fresh pool the pool's task slots hold them all |
| BatchCreation.AzureCliRun | batch_creation.py:57-67 | a truthy result is returned; an error with a known message gives True; an unknown error is raised; with neither, True |
| BatchCreation.AzureCliRunMoreKnown | batch_creation.py:61 | recognising more messages never changes a non-raising outcome |
| BatchCreation.StrCheck | batch_creation.py:361-372 | rejects exactly the names that are not alphanumeric, hold an upper-case letter, or have fewer than 3 or at least 25 characters |
| BatchCreation.KeepAlnum | batch_creation.py:422 | the result holds only letters and digits, each character of the input that is one of them, and an all-alphanumeric string unchanged |
| BatchCreation.KeepAlnumAppend | batch_creation.py:422 | the kept characters of a concatenation are those of its parts, in order |
| BatchCreation.KeepAlnumChar | batch_creation.py:422 | a single character is kept exactly when it is a letter or a digit |
| BatchCreation.AutoConvert | batch_creation.py:420-422 | the conversion is lower-case alphanumeric and no longer than its input |
| BatchCreation.AutoConvertAppend | batch_creation.py:420-422 | converting a concatenation converts each part, so the letters and digits keep their order |
| BatchCreation.AutoConvertChar | batch_creation.py:420-422 | a single character converts to its lower-case form when it is a letter or a digit, and to nothing otherwise |
| BatchCreation.AutoConvertKeepsValidNames | batch_creation.py:420-422 | a name `str_check` accepts is left unchanged |
| BatchCreation.AutoConvertIdempotent | batch_creation.py:422 | converting twice is converting once |
| BatchCreation.AutoConvertCanStillBeRejected | batch_creation.py:420-425 | a converted name shorter than 3 still fails `str_check` |
| BatchCreation.ResourceGroup | batch_creation.py:412-425 | an invalid prompted name raises iff auto-conversion is off; a given name is kept; a valid prompted name is kept; an invalid one becomes its auto-conversion, which is lower-case alphanumeric |
| BatchCreation.DerivedNames | batch_creation.py:427-447 | given names are kept, `always_ask` takes the acr name from the prompt, and the group location defaults to the location |
| BatchCreation.ResolveNames | batch_creation.py:412-447 | the variable reassignments compute the derived names |
| BatchCreation.DefaultNamesDistinct | batch_creation.py:427-436 | the four default suffixes give four distinct names |
| BatchCreation.DerivedDefaultNames | batch_creation.py:427-436 | with no names given, they are `rg` plus "acr", "store", "batch" and "insights", pairwise distinct and lower-case alphanumeric |
| BatchCreation.WriteAzureConfig | batch_creation.py:306-358 | a missing template raises; otherwise group, batch, storage and registry entries are as given, the account URL is built from batch and location, a missing store gives "no-storage" and "no-storage-key", and the server is the registry name plus ".azurecr.io" |
| BatchCreation.RegistryServerInjective | batch_creation.py:351 | distinct registries have distinct servers |
| BatchCreation.FileshareUrlInjective | batch_creation.py:489-491 | distinct storage accounts have distinct file-share URLs |
| BatchCreation.InsightsUrl | batch_creation.py:459-468 | the linux and windows platforms get their download URL (the Windows one ends in ".exe"); any other platform raises |
| BatchCreation.CreateResources | batch_creation.py:375-493 | fails exactly on a rejected name, a missing template, insights on an unknown platform, or a `storage share create` call that `azure_cli_run` raises on, and each with its own error (`NameNotLowercaseAlnum`, `NoConfigFile` of the template path, `UnknownPlatform` of the template's platform, the CLI error); otherwise the names are the derived ones, the config is what `write_azure_config` writes for them, insights are present exactly when asked and a file share exactly when asked |
| BatchCreation.ChoosePlatform | batch_creation.py:246-254 | an explicit platform wins; otherwise "windows" iff the first Dockerfile line contains "windows", else "linux"; an empty Dockerfile raises |
| BatchCreation.DetectedPlatformHasInsights | batch_creation.py:246-254 | a detected platform always has an insights download URL |
| BatchCreation.AcrBuild.constructor | batch_creation.py:243-256 | the build keeps image, version, registry, platform, path and timeout |
| BatchCreation.AcrBuild.BuildImageAcr | batch_creation.py:260-290 | a non-zero timeout replaces the stored one; the command uses the stored fields; it raises exactly when `azure_cli_run` raises, and returns nothing otherwise, as the CLI value is discarded |
| BatchCreation.NewAcrBuild | batch_creation.py:218-258 | construction fails exactly when the platform must be read from an empty Dockerfile, otherwise takes the chosen platform |
| BatchCreation.BuildArgsWords | batch_creation.py:273-276 | the build-args fragment adds `--build-arg` and the extra words iff extra arguments are given |
| BatchCreation.BuildCommandArguments | batch_creation.py:278-287 | the build command splits into the fixed layout of image, registry, file, context, platform, optional build args and timeout |
| BatchCreation.ShareCreateArguments | batch_creation.py:482-488 | the share-creation command splits into account, key, the "azfileshare" name and quota 1024 |
| InkParser.FlattenAppend | ink_parser.py:88 | flattening distributes over concatenation of chunk lists |
| InkParser.Chunks | ink_parser.py:41-54 | there is always at least one chunk |
| InkParser.ChunksStep | ink_parser.py:45-52 | adding a line to the input is one step of the split loop |
| InkParser.SplitOnDhash | ink_parser.py:41-54 | the loop computes the chunk specification |
| InkParser.ChunksFlatten | ink_parser.py:41-54 | concatenating the chunks gives back exactly the input lines |
| InkParser.ChunksShape | ink_parser.py:46-50 | every chunk after the first begins with a `##` line, and no other line of a chunk is one |
| InkParser.ChunksNonEmpty | ink_parser.py:47-53 | non-empty input gives only non-empty chunks |
| InkParser.WeightedChunk | ink_parser.py:57-69 | a reweighted chunk has as many lines as the original |
| InkParser.AddWeightObjective | ink_parser.py:57-69 | the loop rewrites each line independently, as the line rule says |
| InkParser.FirstWeighting | ink_parser.py:66-67 | a goal line without a weight gets " weight w:" in place of its final colon |
| InkParser.ReweightOneDigit | ink_parser.py:63-64 | a goal line with a one-digit weight gets the new weight in its place |
| InkParser.ReweightTwoDigits | ink_parser.py:63-64 | a goal line with a two-digit weight keeps the first digit of the old weight before the new one |
| InkParser.LastMatch | ink_parser.py:76-79 | the match index is -1 or a chunk index |
| InkParser.LastMatchIsLast | ink_parser.py:77-79 | the match index names a matching chunk, and no later chunk matches |
| InkParser.GoalMatches | ink_parser.py:78 | a chunk matches the goal search iff one of its lines contains "goal (" |
| InkParser.AdjustWeightObjectives | ink_parser.py:72-88 | the loops compute the weight-adjustment specification |
| InkParser.NoGoalLeavesLines | ink_parser.py:83-88 | without a goal chunk the lines come back unchanged |
| InkParser.AdjustedWeightsFails | ink_parser.py:80-84 | the rewrite fails iff some chunk contains "goal (" and no weights were given |
| InkParser.OnlyLastWeightCounts | ink_parser.py:80-84 | only the last `(goal, weight)` pair affects the output |
| InkParser.WeightsChangeOnlyLastGoalChunk | ink_parser.py:76-88 | with a goal chunk and weights, the output has the input's length; lines of the last goal chunk are reweighted with the last pair, and every other line is unchanged in place |
| InkParser.ParamLines | ink_parser.py:107-112 | one line per parameter |
| InkParser.ParamLinesCommas | ink_parser.py:107-112 | with distinct keys, each parameter line is `k: v` at the given indent, with a comma on every line but the last |
| InkParser.BlockIndentOfLastMatch | ink_parser.py:106 | the indent used is the leading and trailing white space of the last matching chunk's first line, or 0 |
| InkParser.Padded | ink_parser.py:114-115 | the padded header has as many lines as the unpadded one |
| InkParser.ScanBlocks | ink_parser.py:101-112 | the loop leaves the last match index, the last match's indent plus 4, and the parameter lines of every matching chunk after the headers |
| InkParser.AdjustBlock | ink_parser.py:95-120 | the method computes the block-rewrite specification |
| InkParser.AdjustTrainingParams | ink_parser.py:91-120 | the training rewrite is the block rewrite with the section and `training {` as headers and needles |
| InkParser.AdjustAlgorithmParams | ink_parser.py:132-158 | the algorithm rewrite is the block rewrite with `algorithm {` as header and needle |
| InkParser.NoBlockLeavesLines | ink_parser.py:118-120 | without a matching chunk the lines come back unchanged |
| InkParser.BlockRewrite | ink_parser.py:118-120 | with a match, the output is the chunks before it, the new block, then the chunks after it |
| InkParser.SingleBlock | ink_parser.py:106-119 | with exactly one matching chunk the new block is the padded headers, one parameter line per key at 4 more spaces, and the padded closing brace |
| Reconnect.ParseSimStatus | reconnect.py:14-27 | the loop computes the listing filter, and fails on a missing or malformed listing |
| Reconnect.UnsetSessionsOk | reconnect.py:22-24 | parsing succeeds iff every entry has an action and each "Unset" entry has a session id |
| Reconnect.UnsetSessionsMembers | reconnect.py:22-24 | a session id is returned iff some entry with action "Unset" carries it |
| Reconnect.UnsetSessionsAppend | reconnect.py:22-27 | the filter of a concatenation is the concatenation of the filters, so list order is kept |
| Reconnect.ListArgv | reconnect.py:43-51 | the list command splits into `bonsai simulator unmanaged list --simulator-name NAME -o json` |
| Reconnect.ConnectArgv | reconnect.py:65-73 | the connect command, despite its continuation-line spacing, splits into the five flags and their values |
| Reconnect.ConnectEach | reconnect.py:64-87 | the connect loop agrees with the attempt specification |
| Reconnect.TryAttempt | reconnect.py:48-91 | one pass of the while body agrees with the attempt specification |
| Reconnect.RoundsStep | reconnect.py:47-91 | after one pass of the retry loop, either the call is over with that attempt's ending, or the events so far followed by the remaining rounds still make up the whole call |
| Reconnect.ConnectSim | reconnect.py:30-91 | the retry loop's events, retry count and ending agree with the round specification |
| Reconnect.RoundsAttempts | reconnect.py:41-47 | between 1 and 10 attempts are made; all but the last ended in a retry; the session ends as its last attempt, and a retry ending means 10 attempts |
| Reconnect.RoundsEnd | reconnect.py:41-47 | a call makes between 1 and 10 attempts and ends as its last attempt; it ends retrying only after 10 attempts |
| Reconnect.RoundsRetryBeforeLast | reconnect.py:74-91 | every attempt before the last one asked for a retry |
| Reconnect.RoundsLog | reconnect.py:47-91 | the events of a call are those of its attempts, one after the other |
| Reconnect.GivesUpAfterMaxRetries | reconnect.py:47 | a session that ends retrying made exactly 10 attempts, all failed |
| Reconnect.StopsAtFirstSuccess | reconnect.py:88-89 | the first successful attempt ends the loop |
| Reconnect.OneListingPerAttempt | reconnect.py:49-53 | each attempt starts with the list command and lists exactly once |
| Reconnect.RetryCountIsListings | reconnect.py:47-91 | the retry count equals the number of listings, including attempts whose parse failed |
| Reconnect.ParseFailureRetries | reconnect.py:54-63 | a failed parse sleeps one minute and retries |
| Reconnect.FirstFailure | reconnect.py:64-73 | the first failing connect lies within the session list |
| Reconnect.FirstFailureSpec | reconnect.py:64-73 | connects before the first failure all complete, and the one at it does not |
| Reconnect.ConnectsInOrder | reconnect.py:64-87 | connects go out in list order up to the first failure, which abandons the rest; a launch failure propagates, other failures sleep and retry |
| Reconnect.ValidateArgs | reconnect.py:142-152 | missing connection arguments are reported first, then a missing interval; otherwise the configuration with the action, by default "Train" |
| Reconnect.Reconnect | reconnect.py:141-167 | invalid arguments stop before any command; otherwise the runs follow the periodic specification |
| Reconnect.PeriodicRuns | reconnect.py:154-167 | with a non-negative interval and no raised round, all rounds run, with an `interval*60` sleep after each |
| Reconnect.NegativeIntervalStops | reconnect.py:167 | a negative interval ends the loop after the first round |

## Left out

- Pricing (get_azure_data.py): HTTP scraping, pandas tables and floating-point sums. Only its
  failure is modelled, as the `priceLookupFails` parameter of `batch_main`.
- xfer_utils.py, connect-unmanaged-sims.py and test_run_tasks.py are not part of this model.
  They are a wrapper over blobxfer, CLI wrappers and a driver script.
- `authenticate_batch`, `get_container_registry`, `get_image_ref` and `load_bonsai_env`:
  credentials and SDK objects.
  - The registry and image reference are plain values in the configuration.
  - The `.env` pair is a parameter of the constructor.
- `copy_logfiles`, `list_pools`, `list_tasks`, `run_bakeoff`, `upload_files`,
  `list_pool_nodes`, `pool_statistics` and the module-level wrappers (`stop_job`,
  `delete_pool`, `resize_pool`, `kill_tasks`): output streams, external polling and thin
  configuration wrappers around the modelled methods.
- configparser reads and writes, logging output, `print` and `time.sleep`. The one log call
  that raises, in `wait_for_tasks_to_complete`, is modelled.
  - Configuration sections are datatypes.
  - Sleeps are modelled only in the reconnect loop, as `Slept` events.
- The Batch service has no concurrency, paging or eventual consistency. Each client call is
  one atomic step on a value.
- `AzCreateBatch` and `AzExtract` CLI calls (resource creation, key retrieval) are not
  modelled. Their results are the `AccountKeys` and `InsightsInfo` parameters.
- `build_image` (batch_creation.py:496-588): a driver over the modelled `AcrBuild` and
  `build_image_acr`. Its prompts when no configuration exists and its write of the image
  entries to the configuration file are not modelled.
- The Windows `PYTHON_EXEC` path settings of `run_tasks`: copied configuration values.
  - The Windows image entries are a parameter.
- The constructor's check for a missing configuration file: the configuration is given as a
  value.
- `BatchCreation.ChoosePlatform`: the missing-Dockerfile `OSError` is not modelled. Only the
  empty Dockerfile's `IndexError` is, as `EmptyDockerfile`.
- `BatchCreation.CreateResources`: the reply of `create_app_insight` is taken to hold both
  keys. A reply without them would raise `KeyError`.
- Strings are ASCII: `lower`, `isalnum`, `isupper` and `strip` are modelled on ASCII
  characters only.
- `PoolPlanning.TasksPerNode`: `ceil` of a float quotient is modelled as an exact integer
  ceiling. Float rounding of very large task counts is not captured.
- `PoolPlanning.Plan`: the number of tasks is an integer. The `input()` text that `float`
  converts is not modelled.
- Parameter values in the Inkling rewrites are pre-rendered strings, since `f"{v}"` of
  arbitrary values is Python formatting.
  - Dictionaries are sequences of pairs in insertion order.
- `read_ink` and `write_ink`: file I/O.
- `Reconnect.ParseSimStatus`: reading `sim_list.json` is not modelled. Every failure to open
  or decode it is the `None` listing.
- `Reconnect.ValidateArgs`: argparse's own type conversion and usage errors are not modelled.
- `Reconnect.Reconnect`: the infinite loop runs for a given number of rounds.
- The subprocess outcomes, timestamps and printed messages of the reconnect commands are
  inputs (`World`) or are not modelled.
- `InkParser.OnlyLastWeightCounts` and `Reconnect.ParseFailureRetries` need no proof beyond
  unfolding the definitions.
- `PoolPlanning.PoolIdIgnoresTaskCount` also needs no proof beyond unfolding.

## Findings

| source | as written | input that shows it | evidently intended | confidence | as-written member | corrected member |
|---|---|---|---|---|---|---|
| batch_containers.py:586 | `platform` is reassigned from the configuration before line 597 tests it, so the `platform` argument is never used | `run_tasks(platform="windows")` with a configuration whose platform is "linux" keeps "linux" | an explicit platform is written into the configuration, as the log message at line 598 says | high; not executed | PoolPlanning.PlatformArgumentIgnored | PoolPlanning.PlanIntended |
| batch_containers.py:411-416 | `logger.info` is given `end=""`, a keyword of `print` that `Logger._log` rejects with TypeError while INFO is enabled, as it is from import time on | `batch_main(wait_for_tasks=True)` with any task states: all tasks are submitted, then the wait raises before its first listing | the message is logged and the tasks are polled until all complete or two hours pass | high; not executed | BatchContainers.WaitingBatchMainRaises | BatchContainers.AzureBatchContainers.WaitForTasksToCompleteIntended |
