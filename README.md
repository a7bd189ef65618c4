# WatchMySix job engine, modelled in Dafny

WatchMySix runs reconnaissance jobs against a list of target domains. A job
request names the targets, optionally which tools to run or exclude, two
optional DNS bruteforce phases (static with `puredns`, dynamic with
`shuffledns`), and extra environment variables. The engine then:

- fills in the bruteforce defaults;
- selects tools from a fixed catalogue;
- runs each tool into its own `<tool>.txt` in the job's data directory;
- runs the enabled bruteforce phases, one command per target;
- merges every `*.txt` into `subs.txt`, with duplicates and blanks removed;
- appends the new entries to `subs_history.txt`, in the manner of `anew`;
- probes the merged list with `httpx`.

Every step logs to the job's `job.log`, to a bounded in-memory buffer and to
every live log stream. The job's status moves from queued to running to
completed or failed. A job manager keeps the jobs by id and serves their
artifacts, an archive of them, and log streams.

The model has five modules:

| file | module | models |
|---|---|---|
| `wrappers.dfy` | `Wrappers` | `Option` and `Result` |
| `text.dfy` | `Text` | the parts of Python's `str` the engine relies on: `strip`/`rstrip`, `split("\n")`/`join`, string order and `sorted`, `str(int)`, and the order-preserving de-duplication loop with a `seen` set |
| `models.dfy` | `Models` | the request, configuration, status and result records, with their validators |
| `tools.dfy` | `Tools` | the tool catalogue, availability, `run_command` and the crt.sh runner |
| `job_runner.dfy` | `JobRunner` | the rest of the engine (below) |

In `JobRunner`:

- The pure steps are functions with lemmas: request normalisation, tool selection, bruteforce commands, step classification, and the sweep over targets.
- A job is the class `Job`. Its status, request, result list, data directory, log and log hub are fields, updated in place by its methods.
- The manager is the class `JobManager`, over a map from id to `Job`.

The data directory is a map from file name to the file's lines; `job.log` is
the separate field `logFile`. These outside effects are fields of one
`Oracles` value:

- the PATH lookup (`shutil.which`);
- the subprocesses, which report their output lines and exit code, or that they could not be started;
- the crt.sh lookup per target;
- the inherited process environment (`os.environ`);
- the clock.

Where the code and the written design disagree, the model follows the code:

- A job becomes RUNNING before it waits for a concurrency slot (`job_runner.py:70` comes before `:74`). So the number of running jobs is not bounded by `max_concurrency`, and the model keeps no such invariant.
- A job ends FAILED only when `_run_job` raises. Within the model the one exception that reaches it is an `httpx` probe that cannot be started, because the model takes every output line to decode (see Left out). A job whose every tool and phase failed still ends COMPLETED (`Job.Execute`, `JobFailure`).
- There is no cancel operation. CANCELLED is a status value that nothing ever sets (`AdvancesForward`, `ForwardStages`).
- `create_job` starts `_execute` once per job. The model records each job's statuses in a ghost history, and only a queued job can be run.
- A log stream replays the buffer by iterating the live deque, which raises when a line is logged before the replay ends. `Job.Subscribe` takes a copy instead; the difference is under Findings.

## Model

| member | source | states |
|---|---|---|
| Models.ParseJobStatus | backend/app/models.py:11-16 | a string parses to the status whose value it is, and to nothing when no status has that value |
| Models.JobStatusRoundTrip | backend/app/models.py:11-16 | each of the five statuses parses back from its value |
| Models.DefaultBruteforceConfig | backend/app/models.py:19-24 | the default phase configuration is disabled, with no wordlist, resolvers or threads and no extra arguments, and is valid |
| Models.NewBruteforceConfig | backend/app/models.py:19-24 | a configuration is accepted exactly when threads is absent or at least 1; otherwise the error carries the offending count |
| Models.NewJobRequest | backend/app/models.py:27-40 | a request is accepted exactly when it has at least one target and both phase configurations are valid; an empty target list is refused with `NoTargets` |
| Models.RequestDefaults | backend/app/models.py:27-40 | a request naming only targets is accepted exactly when there is a target, and has no tool list, no exclusions, an empty environment and both phases disabled |
| Tools.Build | backend/app/tools.py:120-124 | a built command is the tool name, then its fixed arguments, then every target in order; its length is 1 + arguments + targets |
| Tools.SimpleCommand | backend/app/tools.py:119-126 | the definition is named after the tool, has a builder for the tool and its arguments, no custom runner, and a non-empty output file: the given one, else `<tool>.txt` |
| Tools.CommandDefinitions | backend/app/tools.py:135-149 | the fifteen command tools, each keyed by its own name, building its own command and writing `<name>.txt` |
| Tools.BuildToolDefinitions | backend/app/tools.py:118-151 | the catalogue's keys are the command tools plus `crtsh`; every key is its definition's name; every entry writes `<name>.txt`; only `crtsh` has a custom runner; every other entry runs its own name |
| Tools.IsAvailable | backend/app/tools.py:29-38 | a custom runner is available; a definition with no builder is not; otherwise availability is whether the first word of the built command is on PATH |
| Tools.TableAvailability | backend/app/tools.py:29-38 | in the catalogue a tool is available exactly when it is `crtsh` or its own name is on PATH |
| Tools.ChildEnvironment | backend/app/tools.py:49-52 | the child's environment is the inherited one overridden by the given variables, and is the inherited one unchanged when none are given |
| Tools.RunCommand | backend/app/tools.py:41-70 | a process that cannot start raises; otherwise each output line is right-stripped, written and logged in order, then the exit message is logged; the path comes back exactly when the exit code is 0 |
| Tools.LookupMessages | backend/app/tools.py:97-99 | exactly one message per target, whether its lookup succeeded or failed |
| Tools.LineEntriesSpec | backend/app/tools.py:93-96 | a name is among the entries of some lines exactly when it is the non-blank stripped form of one of them |
| Tools.NameValueNamesSpec | backend/app/tools.py:90-96 | a `name_value` contributes exactly the non-blank stripped pieces of its newline split, and nothing when it is absent or empty |
| Tools.CertificateNamesSpec | backend/app/tools.py:89-96 | a name comes from a list of certificate records exactly when one of the records contributes it |
| Tools.ReportedNamesSpec | backend/app/tools.py:83-99 | a name is reported exactly when the lookup of some target yielded it; a lookup that failed part-way keeps the names read before its error, and takes nothing from the other targets |
| Tools.CollectCertificates | backend/app/tools.py:89-96 | adding one response's certificates adds exactly their names to the entry set |
| Tools.RunCrtSh | backend/app/tools.py:73-105 | the file written is strictly sorted, so duplicate-free, and holds exactly the reported names, including those read before a lookup failed; the log is one line per target, then a note when nothing was found; the path always comes back |
| Text.LStripSpec | backend/app/job_runner.py:208 | `lstrip` removes exactly the leading run of whitespace |
| Text.RStripSpec | backend/app/tools.py:63 | `rstrip` removes exactly the trailing run of whitespace |
| Text.StripSpec | backend/app/job_runner.py:294-296 | a stripped line has no whitespace at either end, and is blank exactly when the line was all whitespace |
| Text.Split | backend/app/tools.py:93 | splitting gives at least one piece and no piece holds the separator |
| Text.JoinSplit | backend/app/tools.py:93 | joining the pieces of a split with the separator gives the string back |
| Text.CleanAppend | backend/app/job_runner.py:199 | the stripped, non-blank lines of two lists concatenated are those of the first followed by those of the second |
| Text.CleanMember | backend/app/job_runner.py:199 | every line that is not blank after stripping survives, stripped |
| Text.CleanSource | backend/app/job_runner.py:199 | every surviving line is the stripped form of some input line |
| Text.CleanEntries | backend/app/job_runner.py:199 | every surviving line is a stripped, non-blank entry |
| Text.KeepFirst | backend/app/job_runner.py:204-211 | keeping first occurrences gives a duplicate-free list with the same members |
| Text.KeepFirstOfDistinct | backend/app/job_runner.py:204-211 | a duplicate-free list is its own first-occurrence list |
| Text.AddNew | backend/app/job_runner.py:250-254 | the `seen`-set loop keeps the accumulated entries as a prefix, adds exactly the stripped non-blank new lines, and keeps the list duplicate-free |
| Text.AddNewAppend | backend/app/job_runner.py:224-254 | accumulating two batches one after the other is accumulating their concatenation |
| Text.AddNewIsKeepFirst | backend/app/job_runner.py:204-211 | the loop's result is the first occurrences of the old entries followed by the stripped, non-blank new lines |
| Text.AddNewIdempotent | backend/app/job_runner.py:250-254 | feeding the same lines twice adds nothing the second time |
| Text.AddNewCovered | backend/app/job_runner.py:250-254 | lines already seen add nothing |
| Text.LessIrreflexive | backend/app/tools.py:103 | no string sorts before itself |
| Text.LessTransitive | backend/app/tools.py:103 | string order is transitive |
| Text.LessTotal | backend/app/tools.py:103 | of two different strings, one sorts before the other |
| Text.Insert | backend/app/tools.py:103 | inserting into a sorted list keeps it strictly sorted and adds exactly the new element |
| Text.SortedUnique | backend/app/tools.py:103 | two strictly sorted lists with the same members are equal, so `sorted` of a set is determined by the set |
| Text.SortStrings | backend/app/tools.py:103 | sorting a set gives a strictly sorted list of exactly its members |
| Text.Enumerate | backend/app/job_runner.py:391 | iterating a set visits every member exactly once |
| Text.DigitChar | backend/app/job_runner.py:234 | a digit below ten is written as its decimal character |
| Text.NatToString | backend/app/job_runner.py:234 | a natural number is written as decimal digits with no leading zero |
| Text.IntToString | backend/app/tools.py:67 | an integer's decimal form is non-empty and starts with `-` exactly when it is negative |
| Text.ParseNatToString | backend/app/job_runner.py:234 | reading back the digits of a natural number gives the number |
| Text.IntToStringRoundTrip | backend/app/tools.py:67 | reading back the decimal form of an exit code gives the code |
| JobRunner.WithPhaseDefaults | backend/app/job_runner.py:107-117 | in an enabled phase a missing or empty wordlist or resolvers becomes the default; a set one, a disabled phase and every other field stay unchanged |
| JobRunner.DefaultsFilled | backend/app/job_runner.py:107-117 | after the defaults every enabled phase has a wordlist and resolvers, and disabled phases, targets, tool lists and environment are unchanged |
| JobRunner.DefaultsIdempotent | backend/app/job_runner.py:107-117 | filling in the defaults twice is filling them in once |
| JobRunner.SetDefault | backend/app/job_runner.py:329-334 | `setdefault` of a truthy value adds the key only when it is missing and never changes an existing value |
| JobRunner.BuildEnvironment | backend/app/job_runner.py:327-335 | the request's variables win; each configured provider key is added exactly when the request lacks it; nothing else is added |
| JobRunner.ResolveTools | backend/app/job_runner.py:119-130 | the selected tools are exactly the catalogue entries that have an output file, were requested when a non-empty list was given, and are not excluded; unknown names are dropped |
| JobRunner.BruteforceCommandShape | backend/app/job_runner.py:224-236 | the static command is `puredns bruteforce <wordlist> <target> -r <resolvers>` and the dynamic one `shuffledns -d <target> -w <wordlist> -r <resolvers>`; then `-t <threads>` only when threads is set, then the extra arguments in order |
| JobRunner.DefaultsReachCommands | backend/tests/test_bruteforce_defaults.py:88-99 | with both phases enabled and nothing configured, the commands carry the default wordlists and the default resolvers |
| JobRunner.Window | backend/app/job_runner.py:38 | the buffer is the most recent lines of the log, at most the limit of them |
| JobRunner.WindowSnoc | backend/app/job_runner.py:340 | appending a line to a full buffer drops the oldest line; otherwise the buffer grows by the line |
| JobRunner.PrefixedIndex | backend/app/job_runner.py:147 | each message a tool logs is its own message under the tool's `[name] ` prefix |
| JobRunner.AdvancesForward | backend/app/job_runner.py:69-83 | status changes only move forward: never back to queued, never out of a finished state, never to cancelled |
| JobRunner.ForwardStages | backend/app/job_runner.py:66-83 | a status history that starts queued and makes only forward moves has at most three entries, the i-th at stage i: no status repeats, queued never comes back, cancelled never appears |
| JobRunner.ToolStatus | backend/app/job_runner.py:132-179 | a tool step never stays running |
| JobRunner.ToolStatusClassification | backend/app/job_runner.py:145-174 | skipped exactly when there is no runner or the executable is not on PATH; error exactly when the command cannot start, every output line being taken to decode; completed exactly for crt.sh or an exit code of 0; a return code exactly when the process ran; an error message exactly on error |
| JobRunner.AppendNew | backend/app/job_runner.py:249-254 | the loop with its `seen` set computes the order-preserving de-duplication and keeps the set equal to the entries |
| JobRunner.RunAppend | backend/app/job_runner.py:224-266 | sweeping two lists of targets one after the other is sweeping their concatenation |
| JobRunner.RunRaised | backend/app/job_runner.py:276-279 | once a command raised, the remaining targets change nothing |
| JobRunner.MessagesRaised | backend/app/job_runner.py:276-279 | once a command raised, the remaining targets log nothing |
| JobRunner.SweepSuccess | backend/app/job_runner.py:246-248 | a sweep that did not raise is successful exactly when some target's command exited with 0 |
| JobRunner.SweepFinalCode | backend/app/job_runner.py:259-275 | a successful sweep reports code 0; an unsuccessful one reports the first failing command's code |
| JobRunner.SweepEntries | backend/app/job_runner.py:249-254 | the entries of a sweep that did not raise are the starting entries extended, in first-seen order, by the output of every successful command |
| JobRunner.PhaseFileContents | backend/app/job_runner.py:204-254 | the phase file's new contents are the first occurrences of its old stripped non-blank lines followed by the successful outputs, so the old entries stay a prefix |
| JobRunner.MergeInputEntries | backend/app/job_runner.py:289-299 | an entry reaches the merge exactly when some text file other than `subs.txt` holds it |
| JobRunner.MergedContents | backend/app/job_runner.py:283-301 | `subs.txt` is duplicate-free, in first-seen order, and holds exactly the stripped non-blank lines of the other text files |
| JobRunner.Unrecorded | backend/app/job_runner.py:391 | the new values are exactly the entries not already in the history, and are duplicate-free |
| JobRunner.AnewHistory | backend/app/job_runner.py:386-399 | after appending, the history's entries are the old entries united with the batch, and as many lines were appended as there were new entries |
| JobRunner.AnewCount | backend/app/job_runner.py:392-399 | the message reports no new entries exactly when nothing is appended, and otherwise the number of lines appended |
| JobRunner.SelectNew | backend/app/job_runner.py:388-391 | the values chosen are exactly the batch's entries missing from the history, each once, and the message counts them |
| JobRunner.MergeTextArtifacts | backend/app/job_runner.py:285-299 | the merge visits every text file exactly once and writes the de-duplicated lines of those files, with as many entries as its `seen` set |
| JobRunner.MergeLines | backend/app/job_runner.py:288-299 | the loop over files with a `seen` set writes the de-duplicated lines of the files in order and keeps the set equal to them |
| JobRunner.MergeFile | backend/app/job_runner.py:292-299 | one more file read extends the merged lines by that file's new entries, and skips `subs.txt` itself |
| JobRunner.ProbeOutcomes | backend/app/job_runner.py:305-325 | the probe returns its output path exactly when httpx ran and exited with 0; it raises exactly when httpx could not be started; it changes only its own output file |
| JobRunner.ProbeFailure | backend/app/job_runner.py:303-320 | the run fails exactly when the probe raises, and with the probe's error |
| JobRunner.ToolRecords | backend/app/job_runner.py:96-98 | one result record per selected tool |
| JobRunner.ToolRecordsIndex | backend/app/job_runner.py:96-98 | the k-th record is that of the k-th selected tool |
| JobRunner.Without | backend/app/job_runner.py:425-428 | filtering out a name keeps every other name, in order, and keeps the list duplicate-free |
| JobRunner.Job.constructor | backend/app/job_runner.py:25-40 | a new job is queued, with no message, results, files, merged or probe file, log or subscribers |
| JobRunner.Job.Log | backend/app/job_runner.py:337-347 | a logged line is appended to the log, the bounded buffer keeps the most recent lines, and every current subscriber's queue receives the line |
| JobRunner.Job.PushBuffer | backend/app/job_runner.py:340 | the buffer after the append is the window of the extended log |
| JobRunner.Job.Broadcast | backend/app/job_runner.py:343-347 | every subscriber's queue gets the line at its end, and no other queue changes |
| JobRunner.Job.LogAll | backend/app/job_runner.py:147 | a tool's messages are logged in order under its prefix |
| JobRunner.Job.Subscribe | backend/app/job_runner.py:353-357 | a new stream gets a fresh queue and a copy of the buffer as its replay; the copy is the tail of the log and the queue starts right after it |
| JobRunner.Job.Receive | backend/app/job_runner.py:358-360 | a stream receives the next line of the log after the last one it saw and moves past it, or nothing when none is waiting; no other stream's queue or position changes |
| JobRunner.Job.Unsubscribe | backend/app/job_runner.py:361-362 | a closed stream is removed from the subscribers, the others keeping their order, and its queue is dropped while every other queue stays as it was |
| JobRunner.Job.ApplyBruteforceDefaults | backend/app/job_runner.py:107-117 | the job's request becomes the request with its defaults filled in |
| JobRunner.Job.BeginExecute | backend/app/job_runner.py:69-72 | a queued job becomes running, a forward move appended to its status history, and logs that it started |
| JobRunner.Job.FinishExecute | backend/app/job_runner.py:73-83 | without an error the job is completed; with one it is failed with the error as its message; either way a forward move from running appended to its status history, and the outcome is logged |
| JobRunner.Job.RunTool | backend/app/job_runner.py:132-179 | exactly one record is appended for the tool, with its final status, code, error and output path; the log is the start line then the tool's messages; the files change exactly as the tool writes them |
| JobRunner.Job.ExecuteTool | backend/app/job_runner.py:144-174 | the tool step dispatches to crt.sh, a missing runner, a missing executable or a command, with the status, code and error its classification gives |
| JobRunner.Job.ExecuteCommand | backend/app/job_runner.py:148-166 | a command tool is skipped when its executable is not on PATH, and is otherwise run |
| JobRunner.Job.SpawnTool | backend/app/job_runner.py:154-162 | a command that runs writes its right-stripped output to the tool's file and is completed on exit code 0, failed otherwise; one that cannot start is an error |
| JobRunner.Job.SweepTarget | backend/app/job_runner.py:225-266 | one target announces itself, runs its command and moves the sweep state by exactly one step |
| JobRunner.Job.TakeOutput | backend/app/job_runner.py:246-262 | a successful command adds its new output lines and sets the code to 0; a failed one keeps the first failing code and logs the failure |
| JobRunner.Job.SweepTargets | backend/app/job_runner.py:221-266 | the loop over targets ends in the state and with the log that the sweep over those targets defines |
| JobRunner.Job.StartSweep | backend/app/job_runner.py:204-211 | the sweep starts from the distinct stripped entries already in the phase file, with a `seen` set equal to them |
| JobRunner.Job.ClosePhase | backend/app/job_runner.py:267-281 | the phase file is rewritten with the entries only when a command succeeded and none raised, and the running record is completed |
| JobRunner.Job.CompletePhaseRecord | backend/app/job_runner.py:267-281 | the completed phase record is error when a command raised, completed when one succeeded, and failed otherwise |
| JobRunner.Job.RunPhase | backend/app/job_runner.py:203-281 | a phase that runs appends exactly one record, logs its sweep, and rewrites its file only on success |
| JobRunner.Job.RunBruteforce | backend/app/job_runner.py:181-281 | with no wordlist, no executable or no non-blank target the phase logs why, appends no record and writes nothing; otherwise it appends exactly one record with the sweep's outcome |
| JobRunner.Job.RenewWithAnew | backend/app/job_runner.py:386-399 | the history is appended exactly the entries it lacks, and is unchanged when there are none; the count is logged |
| JobRunner.Job.ProbeWithHttpx | backend/app/job_runner.py:305-325 | the probe returns, writes and logs what its outcome defines |
| JobRunner.Job.RunProbe | backend/app/job_runner.py:309-325 | once started, httpx's output is written and logged, and the path comes back exactly on exit code 0 |
| JobRunner.Job.MergeInto | backend/app/job_runner.py:283-301 | `subs.txt` is written with the de-duplicated entries of every other text file, recorded as the merged file, and its size is logged |
| JobRunner.Job.RenewAndProbe | backend/app/job_runner.py:302-303 | after the merge the history is renewed, then the probe runs on the renewed directory, and the run fails exactly when the probe raises |
| JobRunner.Job.MergeArtifacts | backend/app/job_runner.py:283-303 | merge, renew the history, and probe; the merged file is always recorded; the probe file is set unless the probe raised |
| JobRunner.Job.RunTools | backend/app/job_runner.py:96-104 | one record per selected tool, in order, and their logs in the same order |
| JobRunner.Job.RunEnabledPhase | backend/app/job_runner.py:99-102 | a phase adds one record when it runs and none otherwise; a disabled phase logs and writes nothing |
| JobRunner.Job.RunPhases | backend/app/job_runner.py:99-102 | the static phase then the dynamic phase, each adding a record exactly when it runs |
| JobRunner.Job.RunSelectedTools | backend/app/job_runner.py:87-98 | the tools run are exactly the selected ones, each once, and the resolved list is logged first |
| JobRunner.Job.RunPhasesAndMerge | backend/app/job_runner.py:99-105 | the phases' records come after the tools', the merged file is recorded, and the failure is the probe's |
| JobRunner.Job.RunSteps | backend/app/job_runner.py:86-105 | the results are the tool records followed by one record per phase that ran; the log starts with the resolved tools and the tools' logs; the merged file is recorded |
| JobRunner.Job.RunJob | backend/app/job_runner.py:85-105 | the request gets its defaults, the log only grows, the merged file is recorded, and the run fails exactly when the probe raises |
| JobRunner.Job.Execute | backend/app/job_runner.py:69-83 | only a queued job executes; its history gains running and then its final status; it ends completed, or failed with the probe's error as its message, and logs its start and its end around the run |
| JobRunner.JobManager.constructor | backend/app/job_runner.py:48-51 | a manager starts with no jobs, and its concurrency is at least 1 |
| JobRunner.JobManager.CreateJob | backend/app/job_runner.py:53-67 | a new queued job is filed under its id and appended to the creation order, in its own directory under the data root, with no results, files or log |
| JobRunner.JobManager.GetJob | backend/app/job_runner.py:401-405 | the job of a known id, and `JobNotFound` for an unknown one |
| JobRunner.JobManager.ListJobs | backend/app/job_runner.py:407-408 | every job of the table is listed once, in the order the jobs were created |
| JobRunner.JobManager.Run | backend/app/job_runner.py:66-83 | only a queued job runs; the table stays as it was, and the job moves from queued to running to completed or failed, with its defaults applied and its merged file recorded |
| JobRunner.JobManager.GetArtifacts | backend/app/job_runner.py:410-412 | an unknown id is `JobNotFound`; otherwise the paths of exactly the job's files, in sorted order |
| JobRunner.JobManager.GetArtifact | backend/app/job_runner.py:414-419 | an unknown id is `JobNotFound`; a file that is not there is `FileNotFound`; otherwise the file's path |
| JobRunner.JobManager.BuildArchive | backend/app/job_runner.py:421-429 | an unknown id is `JobNotFound`; otherwise the archive holds every file of the directory except itself, each once |
| JobRunner.SnapshotStreamInOrder | backend/app/job_runner.py:349-362 | a stream that replays a copy of the buffer never ends with an error, and what it has yielded is the buffer then the lines logged since, in order with none missed or repeated, the rest still pending |
| JobRunner.LiveStops | backend/app/job_runner.py:356-357 | as written, once the live buffer changed under a replay the stream yields nothing more, and its reader's next request raises |
| JobRunner.LiveReplayBreaks | backend/app/job_runner.py:337-357 | as written, a line logged just after a stream yields its first buffered line ends the stream with only that line delivered |
| JobRunner.JobManager.OpenLogStream | backend/app/job_runner.py:349-357 | an unknown id is `JobNotFound`; otherwise a fresh subscriber with an empty queue joins, and its replay is a copy of the buffer, which is the tail of the log up to now |

## Left out

- Concurrency is not modelled. This covers the job task (`create_task`), the semaphore and `asyncio.gather`. The model runs one job's steps in sequence: the selected tools, then the static phase, the dynamic phase, and the merge. The interleaving of tool records and log lines with those of the phases is therefore not modelled.
- The order of the selected tools follows the source's dictionary order. The model leaves it arbitrary (`Enumerate`): the tools' records and logs follow whatever order was chosen, and the "Resolved tools" line lists them in that order.
- `attach_websocket` is left out. It pumps the same log stream that `OpenLogStream`, `Receive` and `Unsubscribe` model into a websocket, with the same walk over the live buffer (`job_runner.py:373`); there the error is swallowed and the socket closed.
- JobRunner.Job.Subscribe: takes the replay as a copy of the buffer, the intended behaviour. The code iterates the live deque across yields (`job_runner.py:356-357`), so a line logged during the replay (`job_runner.py:340`) raises and ends the stream; `StreamStep` models that walk and Findings shows the input.
- Timestamps are an opaque value from the clock oracle. The ISO timestamp prefix `"<time> | "` of each log line is dropped, so log lines are the messages themselves. `updated_at` is not kept.
- The bruteforce temporary file `<phase>_bruteforce_<uuid>.txt` is not a file of the model. Each command's output is folded into the sweep directly, so creating and deleting the temporary file are not modelled.
- Process output is modelled as the lines it decodes to. The difference between reading a file with `splitlines()` and line iteration is left out.
- Byte decoding is left out: `line.decode()` (`tools.py:63`) raises on output that is not UTF-8. The model takes every line to decode, so a started tool is never an error for that reason, a bruteforce sweep never stops on it, and the httpx probe raises only when it cannot start.
- The model does not capture that httpx writes its own `-o` file while `run_command` writes the same path. The probe's file holds the lines `run_command` wrote.
- `get_artifact` joins the file name to the data directory without checking for `..` or `/`. The model only looks up names of the job's own directory, so path traversal is not captured.
- `get_artifacts`, `get_artifact` and `build_archive` list the directory. In the model it holds the files the engine writes plus `job.log`. Every command runs with the data directory as its working directory (`tools.py:55`), so a tool may leave other files there, and the merge would read any `*.txt` among them; such files are not modelled. The archive is represented by its member names, not by gzip bytes.
- The crt.sh HTTP client and JSON decoding are an oracle. For each target it gives the `name_value`s of the records read, or, when an error was raised, those read before it and the error. A body such as `{}` or `""` is zero records and logs that 0 certificates were retrieved. The `httpx` ImportError guard is not modelled.
- The `aiofiles` ImportError guards at module load (`tools.py:108-115`, `job_runner.py:432-439`) are not modelled. Nor is settings loading, beyond `max_concurrency >= 1` as the manager constructor's precondition. Since the semaphore is not modelled, `maxConcurrency` is only stored and checked there.
- `JobRequest.options` (`models.py:34`) is not a field of the model: the engine never reads it.
- A full subscriber queue (`QueueFull`) is not modelled: the queues are unbounded, as `asyncio.Queue()` is.
- `bufferLimit` is a `nat`, so a negative `log_buffer_lines` setting is not modelled.
- Tool selection and the job run take the catalogue as a parameter. `JobManager.Run` passes the fixed catalogue `BuildToolDefinitions()`.
- Lines appended to a file are separate elements of the file's line list. The model therefore ignores a history file whose last line lacks its newline, which the source would join with the first appended entry.
- JobRunner.Job.RunTools: its contract states the records and the log, but not the files each tool writes. `RunTool` states those per tool.
- JobRunner.Job.RunJob: its contract gives the log after "Resolved tools" only as a remainder. The detailed log and results are stated by `RunSteps`, which it calls.
- JobRunner.Job.Execute: its contract gives the log between "Job started" and the final line only as a remainder. The detail is stated by `RunSteps`.
- JobRunner.JobManager.Run: it restates only the job's status, history, request and merged file. The job's log and results are stated by `Job.Execute` and `RunSteps`.

## Findings

| source | as written | input that shows it | evidently intended | confidence | as-written member | corrected member |
|---|---|---|---|---|---|---|
| backend/app/job_runner.py:356-357 | the replay iterates the live `log_buffer` deque across `yield`s, and `_log` appends to it (`:340`) | a job logs a line while a stream is suspended after replaying the first of two buffered lines: the next step raises "deque mutated during iteration", so the stream delivers one line and ends | the stream replays the buffer as it was, then every later line from its queue | high, not executed | JobRunner.LiveReplayBreaks | JobRunner.SnapshotStreamInOrder |
