/**
 * The job engine: request normalisation, tool selection, the per-step runners
 * and their result records, artifact merging, the log hub, and the job
 * manager's table of jobs.
 *
 * A job's data directory is a map from file name to the lines of that file;
 * `job.log` is kept apart as the job's `logFile`. The PATH lookup, the
 * subprocesses, the crt.sh lookup, the inherited process environment and the
 * clock are the fields of an `Oracles` value.
 */
module JobRunner {
  import opened Wrappers
  import opened Text
  import opened Models
  import opened Tools

  const DefaultStaticWordlist := "/opt/watchmysix/wordlists/static-dns/best-dns-wordlist.txt"
  const DefaultDynamicWordlist := "/opt/watchmysix/wordlists/dynamic-dns/words-merged.txt"
  const DefaultResolvers := "/opt/watchmysix/resolvers/resolvers.txt"

  const LogName := "job.log"
  const MergedName := "subs.txt"
  const HistoryName := "subs_history.txt"
  const ProbeName := "httpx_probed.txt"

  /** Everything outside the engine that it consults. */
  datatype Oracles = Oracles(
    onPath: string -> bool,
    spawn: (seq<string>, map<string, string>) -> ProcessOutcome,
    lookup: string -> CrtShResponse,
    inherited: map<string, string>,
    now: Timestamp)

  /** The provider keys of the settings. */
  datatype ApiSettings = ApiSettings(chaosKey: Option<string>, githubToken: Option<string>, gitlabToken: Option<string>)

  /** `directory / name`. */
  function PathIn(directory: string, name: string): string {
    directory + "/" + name
  }

  /** The lines of a file of the data directory; a missing file reads as no lines. */
  function Lines(files: map<string, seq<string>>, name: string): seq<string> {
    if name in files then files[name] else []
  }

  // ---------------------------------------------------------------------------
  // Request normalisation
  // ---------------------------------------------------------------------------

  /** One phase with its defaults filled in, when it is enabled. */
  function WithPhaseDefaults(config: BruteforceConfig, defaultWordlist: string): (c: BruteforceConfig)
    ensures c.enabled == config.enabled && c.threads == config.threads && c.tools == config.tools
    ensures !config.enabled ==> c == config
    ensures Truthy(config.wordlist) ==> c.wordlist == config.wordlist
    ensures Truthy(config.resolvers) ==> c.resolvers == config.resolvers
    ensures config.enabled && !Truthy(config.wordlist) ==> c.wordlist == Some(defaultWordlist)
    ensures config.enabled && !Truthy(config.resolvers) ==> c.resolvers == Some(DefaultResolvers)
  {
    if !config.enabled then config
    else
      config.(
        wordlist := if Truthy(config.wordlist) then config.wordlist else Some(defaultWordlist),
        resolvers := if Truthy(config.resolvers) then config.resolvers else Some(DefaultResolvers))
  }

  /** The request after both phases have had their defaults filled in. */
  function WithDefaults(request: JobRequest): JobRequest {
    request.(
      staticBruteforce := WithPhaseDefaults(request.staticBruteforce, DefaultStaticWordlist),
      dynamicBruteforce := WithPhaseDefaults(request.dynamicBruteforce, DefaultDynamicWordlist))
  }

  /**
   * After the defaults, an enabled phase has a wordlist and resolvers; a
   * disabled phase and every other field of the request are as they were.
   */
  lemma DefaultsFilled(request: JobRequest)
    ensures var r := WithDefaults(request);
      && (r.staticBruteforce.enabled ==> Truthy(r.staticBruteforce.wordlist) && Truthy(r.staticBruteforce.resolvers))
      && (r.dynamicBruteforce.enabled ==> Truthy(r.dynamicBruteforce.wordlist) && Truthy(r.dynamicBruteforce.resolvers))
      && (!request.staticBruteforce.enabled ==> r.staticBruteforce == request.staticBruteforce)
      && (!request.dynamicBruteforce.enabled ==> r.dynamicBruteforce == request.dynamicBruteforce)
      && r.targets == request.targets && r.tools == request.tools && r.excludeTools == request.excludeTools
      && r.environment == request.environment
  {
  }

  /** Filling in the defaults twice is filling them in once. */
  lemma DefaultsIdempotent(request: JobRequest)
    ensures WithDefaults(WithDefaults(request)) == WithDefaults(request)
  {
  }

  /** `dict.setdefault`, applied only when the value is truthy. */
  function SetDefault(env: map<string, string>, key: string, value: Option<string>): (r: map<string, string>)
    ensures forall k :: k in env ==> k in r && r[k] == env[k]
    ensures r.Keys == if Truthy(value) then env.Keys + {key} else env.Keys
    ensures key !in env && Truthy(value) ==> r[key] == value.value
  {
    if Truthy(value) && key !in env then env[key := value.value] else env
  }

  /**
   * The tool environment: the request's variables, plus each configured
   * provider key the request does not set itself.
   */
  function BuildEnvironment(requested: map<string, string>, api: ApiSettings): (env: map<string, string>)
    ensures forall k :: k in requested ==> k in env && env[k] == requested[k]
    ensures env.Keys <= requested.Keys + {"CHAOS_KEY", "GITHUB_TOKEN", "GITLAB_TOKEN"}
    ensures "CHAOS_KEY" !in requested ==>
      ("CHAOS_KEY" in env <==> Truthy(api.chaosKey)) && (Truthy(api.chaosKey) ==> env["CHAOS_KEY"] == api.chaosKey.value)
    ensures "GITHUB_TOKEN" !in requested ==>
      ("GITHUB_TOKEN" in env <==> Truthy(api.githubToken)) && (Truthy(api.githubToken) ==> env["GITHUB_TOKEN"] == api.githubToken.value)
    ensures "GITLAB_TOKEN" !in requested ==>
      ("GITLAB_TOKEN" in env <==> Truthy(api.gitlabToken)) && (Truthy(api.gitlabToken) ==> env["GITLAB_TOKEN"] == api.gitlabToken.value)
  {
    var chaos := SetDefault(requested, "CHAOS_KEY", api.chaosKey);
    var github := SetDefault(chaos, "GITHUB_TOKEN", api.githubToken);
    var gitlab := SetDefault(github, "GITLAB_TOKEN", api.gitlabToken);
    assert "CHAOS_KEY" != "GITHUB_TOKEN" && "CHAOS_KEY" != "GITLAB_TOKEN" && "GITHUB_TOKEN" != "GITLAB_TOKEN" by {
      assert "CHAOS_KEY"[0] == 'C' && "GITHUB_TOKEN"[0] == 'G';
      assert "GITHUB_TOKEN"[3] == 'H' && "GITLAB_TOKEN"[3] == 'L';
    }
    gitlab
  }

  /**
   * Whether tool selection keeps a catalogue entry: it has an output file, it
   * was requested when a non-empty list was requested, and it is not excluded.
   */
  predicate Selected(catalogue: map<string, ToolDefinition>, request: JobRequest, name: string) {
    && name in catalogue && Truthy(catalogue[name].outputFile)
    && (request.tools.Some? && request.tools.value != [] ==> name in request.tools.value)
    && name !in request.excludeTools
  }

  /**
   * Tool selection over a catalogue: the entries with an output file, cut down
   * to the requested names when a non-empty list was requested, minus the
   * excluded names. A requested name the catalogue does not know is ignored.
   */
  method ResolveTools(catalogue: map<string, ToolDefinition>, request: JobRequest)
    returns (tools: map<string, ToolDefinition>)
    ensures forall name :: name in tools <==> Selected(catalogue, request, name)
    ensures forall name :: name in tools ==> name in catalogue && tools[name] == catalogue[name]
  {
    tools := map name | name in catalogue && Truthy(catalogue[name].outputFile) :: catalogue[name];
    if request.tools.Some? && request.tools.value != [] {
      var requested := set name | name in request.tools.value;
      tools := map name | name in requested && name in tools :: tools[name];
    }
    var i := 0;
    while i < |request.excludeTools|
      invariant 0 <= i <= |request.excludeTools|
      invariant forall name :: name in tools <==>
        && name in catalogue && Truthy(catalogue[name].outputFile)
        && (request.tools.Some? && request.tools.value != [] ==> name in request.tools.value)
        && name !in request.excludeTools[..i]
      invariant forall name :: name in tools ==> tools[name] == catalogue[name]
    {
      assert request.excludeTools[..i + 1] == request.excludeTools[..i] + [request.excludeTools[i]];
      tools := tools - {request.excludeTools[i]};
      i := i + 1;
    }
    assert request.excludeTools[..i] == request.excludeTools;
  }

  // ---------------------------------------------------------------------------
  // Bruteforce commands
  // ---------------------------------------------------------------------------

  datatype Phase = Static | Dynamic {
    function Name(): string {
      if this == Static then "static" else "dynamic"
    }

    /** The phase name capitalised, followed by " bruteforce". */
    function Description(): string {
      if this == Static then "Static bruteforce" else "Dynamic bruteforce"
    }

    function Executable(): string {
      if this == Static then "puredns" else "shuffledns"
    }

    /** The result record's tool name, which is also the phase's output file stem. */
    function StepName(): string {
      Name() + "_bruteforce"
    }
  }

  /** The resolvers argument: the configured path, or `resolvers.txt`. */
  function ResolverPath(config: BruteforceConfig): string {
    if Truthy(config.resolvers) then config.resolvers.value else "resolvers.txt"
  }

  /** Python truthiness of the optional thread count. */
  predicate HasThreads(config: BruteforceConfig) {
    config.threads.Some? && config.threads.value != 0
  }

  /** The number of arguments before the optional thread flag. */
  function BaseLength(phase: Phase): nat {
    if phase == Static then 6 else 7
  }

  /**
   * The command run against one target: puredns takes the wordlist then the
   * domain, shuffledns the domain then the wordlist; both take `-r` with the
   * resolvers, then `-t <threads>` when a thread count is set, then the extra
   * arguments in order.
   */
  function BruteforceCommand(phase: Phase, config: BruteforceConfig, wordlist: string, target: string): seq<string> {
    var base :=
      if phase == Static then ["puredns", "bruteforce", wordlist, target] + ["-r", ResolverPath(config)]
      else ["shuffledns", "-d", target, "-w", wordlist] + ["-r", ResolverPath(config)];
    var withThreads := if HasThreads(config) then base + ["-t", IntToString(config.threads.value)] else base;
    if config.tools != [] then withThreads + config.tools else withThreads
  }

  /** The layout of a phase's command, argument by argument. */
  lemma BruteforceCommandShape(phase: Phase, config: BruteforceConfig, wordlist: string, target: string)
    ensures var cmd := BruteforceCommand(phase, config, wordlist, target);
      && |cmd| == BaseLength(phase) + (if HasThreads(config) then 2 else 0) + |config.tools|
      && (phase == Static ==> cmd[..6] == ["puredns", "bruteforce", wordlist, target, "-r", ResolverPath(config)])
      && (phase == Dynamic ==> cmd[..7] == ["shuffledns", "-d", target, "-w", wordlist, "-r", ResolverPath(config)])
      && (HasThreads(config) ==>
            cmd[BaseLength(phase)..BaseLength(phase) + 2] == ["-t", IntToString(config.threads.value)])
      && cmd[|cmd| - |config.tools|..] == config.tools
  {
  }

  /**
   * A request that enables both phases and names no wordlist or resolvers
   * gets commands that use the default wordlists and the default resolvers.
   */
  lemma DefaultsReachCommands(request: JobRequest, target: string)
    requires request.staticBruteforce.enabled && request.dynamicBruteforce.enabled
    requires !Truthy(request.staticBruteforce.wordlist) && !Truthy(request.staticBruteforce.resolvers)
    requires !Truthy(request.dynamicBruteforce.wordlist) && !Truthy(request.dynamicBruteforce.resolvers)
    ensures var r := WithDefaults(request);
      var s := BruteforceCommand(Static, r.staticBruteforce, r.staticBruteforce.wordlist.value, target);
      var d := BruteforceCommand(Dynamic, r.dynamicBruteforce, r.dynamicBruteforce.wordlist.value, target);
      DefaultStaticWordlist in s && DefaultResolvers in s && DefaultDynamicWordlist in d && DefaultResolvers in d
  {
    var r := WithDefaults(request);
    var s := BruteforceCommand(Static, r.staticBruteforce, r.staticBruteforce.wordlist.value, target);
    var d := BruteforceCommand(Dynamic, r.dynamicBruteforce, r.dynamicBruteforce.wordlist.value, target);
    BruteforceCommandShape(Static, r.staticBruteforce, r.staticBruteforce.wordlist.value, target);
    BruteforceCommandShape(Dynamic, r.dynamicBruteforce, r.dynamicBruteforce.wordlist.value, target);
    assert s[2] == s[..6][2] == DefaultStaticWordlist;
    assert s[5] == s[..6][5] == DefaultResolvers;
    assert d[4] == d[..7][4] == DefaultDynamicWordlist;
    assert d[6] == d[..7][6] == DefaultResolvers;
  }

  // ---------------------------------------------------------------------------
  // The log buffer
  // ---------------------------------------------------------------------------

  /** The last `limit` lines of `log`: what a deque with that maximum length holds. */
  function Window(log: seq<string>, limit: nat): (w: seq<string>)
    ensures |w| <= limit && |w| <= |log|
    ensures w == log[|log| - |w|..]
  {
    if |log| <= limit then log else log[|log| - limit..]
  }

  /** Appending to a full deque drops its oldest line; a deque of length 0 keeps nothing. */
  lemma WindowSnoc(log: seq<string>, line: string, limit: nat)
    ensures Window(log + [line], limit) ==
      var w := Window(log, limit);
      if limit == 0 then [] else if |w| == limit then w[1..] + [line] else w + [line]
  {
    var w := Window(log, limit);
    var l := log + [line];
    if limit > 0 && |log| >= limit {
      assert |w| == limit;
      assert l[|l| - limit..] == log[|log| - limit..][1..] + [line];
    }
  }

  /** Appending in two steps is appending the concatenation. */
  lemma AppendAssoc<T>(a: seq<T>, b: seq<T>, c: seq<T>)
    ensures a + b + c == a + (b + c)
  {
  }

  /** Appending in three steps is appending the concatenation. */
  lemma AppendThree<T>(a: seq<T>, b: seq<T>, c: seq<T>, d: seq<T>)
    ensures a + b + c + d == a + (b + c + d)
  {
  }

  /** Two lines appended one after the other. */
  lemma AppendTwo<T>(a: seq<T>, x: T, y: T)
    ensures a + [x] + [y] == a + [x, y]
  {
  }

  /** Replacing the last element of a sequence. */
  lemma ReplaceLast<T>(a: seq<T>, x: T, y: T)
    ensures (a + [x])[|a| := y] == a + [y]
  {
  }

  /** A suffix of a sequence grows with the sequence. */
  lemma SuffixSnoc(a: seq<string>, x: string, c: nat)
    requires c <= |a|
    ensures (a + [x])[c..] == a[c..] + [x]
  {
  }

  /** Queues that held the log from their cursors on still do after one line is appended to both. */
  lemma QueuesFollowLog(log: seq<string>, line: string, subscribers: seq<nat>,
                        cursors: map<nat, nat>, before: map<nat, seq<string>>, after: map<nat, seq<string>>)
    requires forall q :: q in subscribers ==>
      q in cursors && cursors[q] <= |log| && q in before && before[q] == log[cursors[q]..]
    requires forall q :: q in subscribers ==> q in after && after[q] == before[q] + [line]
    ensures forall q :: q in subscribers ==> after[q] == (log + [line])[cursors[q]..]
  {
    forall q | q in subscribers
      ensures after[q] == (log + [line])[cursors[q]..]
    {
      SuffixSnoc(log, line, cursors[q]);
    }
  }

  /** Each message with the same prefix in front, in order. */
  function Prefixed(prefix: string, messages: seq<string>): (r: seq<string>)
    ensures |r| == |messages|
    decreases |messages|
  {
    if messages == [] then []
    else Prefixed(prefix, messages[..|messages| - 1]) + [prefix + messages[|messages| - 1]]
  }

  /** Each prefixed line is the original line behind the prefix, at the same position. */
  lemma {:induction false} PrefixedIndex(prefix: string, messages: seq<string>, i: nat)
    requires i < |messages|
    ensures Prefixed(prefix, messages)[i] == prefix + messages[i]
    decreases |messages|
  {
    if i < |messages| - 1 {
      PrefixedIndex(prefix, messages[..|messages| - 1], i);
    }
  }

  // ---------------------------------------------------------------------------
  // Job status
  // ---------------------------------------------------------------------------

  /** The moves the engine makes: queued to running, running to completed or failed. */
  predicate Advances(from: JobStatus, to: JobStatus) {
    (from == Queued && to == Running) || (from == Running && (to == Completed || to == Failed))
  }

  /** How far along the lifecycle a status is. */
  function Stage(s: JobStatus): nat {
    match s
    case Queued => 0
    case Running => 1
    case Completed => 2
    case Failed => 2
    case Cancelled => 2
  }

  /**
   * The lifecycle only moves forward, never returns to queued, never leaves a
   * finished state, and never reaches cancelled.
   */
  lemma AdvancesForward(from: JobStatus, to: JobStatus)
    ensures Advances(from, to) ==> Stage(from) < Stage(to)
    ensures !Advances(from, Queued) && !Advances(from, Cancelled)
    ensures Stage(from) == 2 ==> !Advances(from, to)
  {
  }

  /** A history of statuses that starts queued and makes only the engine's moves. */
  predicate Forward(history: seq<JobStatus>) {
    && history != [] && history[0] == Queued
    && forall i :: 0 <= i < |history| - 1 ==> Advances(history[i], history[i + 1])
  }

  /**
   * Along such a history the i-th status is at stage i: a job passes through
   * at most three statuses, never repeats one, never returns to queued and
   * never becomes cancelled.
   */
  lemma {:induction false} ForwardStages(history: seq<JobStatus>)
    requires Forward(history)
    ensures forall i :: 0 <= i < |history| ==> Stage(history[i]) == i
    ensures |history| <= 3
    ensures Cancelled !in history
    ensures forall i :: 0 < i < |history| ==> history[i] != Queued
    ensures forall i, j :: 0 <= i < j < |history| ==> history[i] != history[j]
    decreases |history|
  {
    var n := |history| - 1;
    if n > 0 {
      var init := history[..n];
      assert Forward(init) by {
        forall i | 0 <= i < |init| - 1
          ensures Advances(init[i], init[i + 1])
        {
          assert Advances(history[i], history[i + 1]);
        }
      }
      ForwardStages(init);
      assert Advances(history[n - 1], history[n]);
      assert Stage(history[n - 1]) == n - 1 by { assert init[n - 1] == history[n - 1]; }
      forall i | 0 <= i < n
        ensures Stage(history[i]) == i
      {
        assert init[i] == history[i];
      }
    }
    assert forall i :: 0 <= i < |history| ==> Stage(history[i]) == i;
    assert Stage(history[|history| - 1]) == |history| - 1;
    forall i | 0 <= i < |history|
      ensures history[i] != Cancelled
    {
      if i == 2 {
        assert Advances(history[1], history[2]);
      }
    }
  }

  // ---------------------------------------------------------------------------
  // Tool steps
  // ---------------------------------------------------------------------------

  /** The file a tool writes inside the job's directory. */
  function OutputName(tool: ToolDefinition): string {
    if Truthy(tool.outputFile) then tool.outputFile.value else tool.name + ".txt"
  }

  /** What the subprocess oracle reports for a command tool. */
  function ToolProcess(tool: ToolDefinition, context: ToolContext, o: Oracles): ProcessOutcome
    requires tool.commandBuilder.Some?
  {
    o.spawn(Build(tool.commandBuilder.value, context), ChildEnvironment(o.inherited, context.environment))
  }

  /** Whether a command tool gets as far as spawning its process. */
  predicate Spawns(tool: ToolDefinition, o: Oracles) {
    tool.customRunner.None? && tool.commandBuilder.Some? && o.onPath(tool.commandBuilder.value.tool)
  }

  /**
   * How a tool step ends: crt.sh always completes; a tool without a runner or
   * whose executable is not on PATH is skipped; a command that cannot be
   * started is an error; otherwise the exit code decides between completed
   * and failed.
   */
  function ToolStatus(tool: ToolDefinition, context: ToolContext, o: Oracles): (s: StepStatus)
    ensures s != StepRunning
  {
    if tool.customRunner.Some? then StepCompleted
    else if !Spawns(tool, o) then StepSkipped
    else match ToolProcess(tool, context, o)
      case SpawnFailed(_) => StepError
      case Exited(_, code) => if code == 0 then StepCompleted else StepFailed
  }

  /** The finished record of a tool step. */
  function ToolRecord(tool: ToolDefinition, context: ToolContext, o: Oracles, dataPath: string): ToolResult {
    ToolResult(
      tool.name,
      ToolReturnCode(tool, context, o),
      Some(if tool.customRunner.Some? then PathIn(context.workdir, CrtShOutput) else PathIn(dataPath, OutputName(tool))),
      ToolStatus(tool, context, o),
      o.now,
      Some(o.now),
      ToolError(tool, context, o))
  }

  /** The exit code of a tool step: present exactly when its process ran. */
  function ToolReturnCode(tool: ToolDefinition, context: ToolContext, o: Oracles): Option<int> {
    if Spawns(tool, o) && ToolProcess(tool, context, o).Exited? then Some(ToolProcess(tool, context, o).code) else None
  }

  /** The error of a tool step: present exactly when its process could not be started. */
  function ToolError(tool: ToolDefinition, context: ToolContext, o: Oracles): Option<string> {
    if Spawns(tool, o) && ToolProcess(tool, context, o).SpawnFailed? then Some(ToolProcess(tool, context, o).reason) else None
  }

  /** What a tool step logs, in order. */
  function ToolMessages(tool: ToolDefinition, context: ToolContext, o: Oracles): seq<string> {
    ["Starting tool " + tool.name] + ToolReport(tool, context, o)
  }

  /** What a tool step logs after announcing the tool. */
  function ToolReport(tool: ToolDefinition, context: ToolContext, o: Oracles): seq<string> {
    var prefix := "[" + tool.name + "] ";
    if tool.customRunner.Some? then Prefixed(prefix, CrtShMessages(context.targets, o.lookup))
    else if tool.commandBuilder.None? then ["Tool " + tool.name + " has no runner configured"]
    else if !Spawns(tool, o) then ["Tool " + tool.name + " not found on PATH. Skipping."]
    else match ToolProcess(tool, context, o)
      case SpawnFailed(reason) => ["Tool " + tool.name + " failed: " + reason]
      case Exited(lines, code) =>
        Prefixed(prefix, RStripAll(lines) + [FinishedMessage(Build(tool.commandBuilder.value, context), code)])
  }

  /**
   * The files a tool step leaves behind: crt.sh writes its sorted, distinct
   * names; a command that ran writes its right-stripped output lines; any
   * other outcome writes nothing.
   */
  ghost predicate ToolFiles(before: map<string, seq<string>>, after: map<string, seq<string>>,
                            tool: ToolDefinition, context: ToolContext, o: Oracles) {
    if tool.customRunner.Some? then
      && CrtShOutput in after && after == before[CrtShOutput := after[CrtShOutput]]
      && StrictlySorted(after[CrtShOutput])
      && (forall x :: x in after[CrtShOutput] <==> x in ReportedNames(context.targets, o.lookup))
    else if Spawns(tool, o) && ToolProcess(tool, context, o).Exited? then
      after == before[OutputName(tool) := RStripAll(ToolProcess(tool, context, o).lines)]
    else
      after == before
  }

  /** A step's status is completed exactly when an output path came back. */
  lemma ToolStatusClassification(tool: ToolDefinition, context: ToolContext, o: Oracles)
    ensures var r := ToolRecord(tool, context, o, context.workdir);
      && (r.status == StepSkipped <==> tool.customRunner.None? && !Spawns(tool, o))
      && (r.status == StepError <==> Spawns(tool, o) && ToolProcess(tool, context, o).SpawnFailed?)
      && (r.status == StepCompleted <==>
            tool.customRunner.Some? || (Spawns(tool, o) && ToolProcess(tool, context, o).Exited? && ToolProcess(tool, context, o).code == 0))
      && (r.returnCode.Some? <==> Spawns(tool, o) && ToolProcess(tool, context, o).Exited?)
      && (r.error.Some? <==> r.status == StepError)
  {
  }

  // ---------------------------------------------------------------------------
  // Bruteforce phases
  // ---------------------------------------------------------------------------

  /**
   * Accumulate lines into `entries` the way the engine does with its `seen`
   * set: each stripped, non-blank line not seen before is appended.
   */
  method AppendNew(entries: seq<string>, seen: set<string>, lines: seq<string>)
    returns (entries': seq<string>, seen': set<string>)
    requires forall x :: x in seen <==> x in entries
    ensures entries' == AddNew(entries, lines)
    ensures forall x :: x in seen' <==> x in entries'
  {
    entries', seen' := entries, seen;
    var k := 0;
    assert lines[..0] == [];
    assert AddNew(entries, []) == entries;
    while k < |lines|
      invariant 0 <= k <= |lines|
      invariant entries' == AddNew(entries, lines[..k])
      invariant forall x :: x in seen' <==> x in entries'
    {
      entries', seen' := AppendLine(entries, lines, k, entries', seen');
      k := k + 1;
    }
    assert lines[..k] == lines;
  }

  /** The accumulation over one more line of the input. */
  lemma AddNewPrefix(start: seq<string>, lines: seq<string>, k: nat)
    requires k < |lines|
    ensures AddNew(start, lines[..k + 1]) ==
      var xs := AddNew(start, lines[..k]); var c := Strip(lines[k]);
      if c != [] && c !in xs then xs + [c] else xs
  {
    assert lines[..k + 1] == lines[..k] + [lines[k]];
    AddNewLast(start, lines[..k], lines[k]);
  }

  /** One line of `AppendNew`: kept, stripped, when it is non-blank and not seen yet. */
  method AppendLine(start: seq<string>, lines: seq<string>, k: nat, entries: seq<string>, seen: set<string>)
    returns (entries': seq<string>, seen': set<string>)
    requires k < |lines| && entries == AddNew(start, lines[..k])
    requires forall x :: x in seen <==> x in entries
    ensures entries' == AddNew(start, lines[..k + 1])
    ensures forall x :: x in seen' <==> x in entries'
  {
    AddNewPrefix(start, lines, k);
    var clean := Strip(lines[k]);
    if clean != [] && clean !in seen {
      return entries + [clean], seen + {clean};
    }
    return entries, seen;
  }

  /** Where a phase stands after some of its targets: the loop variables of the sweep. */
  datatype Sweep = Sweep(
    entries: seq<string>,
    successful: bool,
    finalCode: Option<int>,
    raised: Option<string>)

  /** Everything a phase's sweep over its targets depends on. */
  datatype Sweeper = Sweeper(phase: Phase, config: BruteforceConfig, wordlist: string, context: ToolContext, o: Oracles)
  {
    function Command(target: string): seq<string> {
      BruteforceCommand(phase, config, wordlist, target)
    }

    function Process(target: string): ProcessOutcome {
      o.spawn(Command(target), ChildEnvironment(o.inherited, context.environment))
    }

    /** Whether the command for `target` ran and exited with 0. */
    predicate Succeeds(target: string) {
      Process(target).Exited? && Process(target).code == 0
    }

    /** What running against one target logs. */
    function Report(target: string): seq<string> {
      [phase.Description() + ": running against " + target] + Outcome(target)
    }

    /** What a target's command logs once it has been started, or has failed to start. */
    function Outcome(target: string): seq<string> {
      var description := phase.Description();
      match Process(target)
      case SpawnFailed(reason) => [description + " failed: " + reason]
      case Exited(lines, code) =>
        Prefixed("[" + phase.StepName() + "] ", RStripAll(lines) + [FinishedMessage(Command(target), code)])
        + (if code == 0 then [] else [description + ": command failed for " + target + " with code " + IntToString(code)])
    }

    /**
     * One target: a command that cannot be started stops the sweep; a command
     * that exits with 0 contributes its output and sets the final code to 0;
     * a failing one leaves the final code at the first failure's code.
     */
    function Step(s: Sweep, target: string): Sweep {
      if s.raised.Some? then s
      else
        match Process(target)
        case SpawnFailed(reason) => s.(raised := Some(reason))
        case Exited(lines, code) =>
          if code == 0 then Sweep(AddNew(s.entries, RStripAll(lines)), true, Some(0), None)
          else s.(finalCode := if s.finalCode.None? then Some(code) else s.finalCode)
    }

    /** The sweep over `targets`, in order, from `s`. */
    function Run(targets: seq<string>, s: Sweep): Sweep
      decreases |targets|
    {
      if targets == [] then s else Step(Run(targets[..|targets| - 1], s), targets[|targets| - 1])
    }

    /** What the sweep over `targets` from `s` logs: each target's report until one raises. */
    function Messages(targets: seq<string>, s: Sweep): seq<string>
      decreases |targets|
    {
      if targets == [] then []
      else
        var init := targets[..|targets| - 1];
        Messages(init, s) + (if Run(init, s).raised.Some? then [] else Report(targets[|targets| - 1]))
    }

    /** The output lines of the targets whose command succeeded, in order. */
    function Outputs(targets: seq<string>): seq<string>
      decreases |targets|
    {
      if targets == [] then []
      else
        var last := targets[|targets| - 1];
        Outputs(targets[..|targets| - 1]) + (if Succeeds(last) then RStripAll(Process(last).lines) else [])
    }
  }

  /** Why a phase does nothing beyond announcing itself, if it does nothing. */
  function BruteforceSkip(phase: Phase, config: BruteforceConfig, context: ToolContext, o: Oracles): Option<string> {
    var description := phase.Description();
    if !Truthy(config.wordlist) then Some(description + ": no wordlist provided, skipping")
    else if !o.onPath(phase.Executable()) then Some(description + ": command " + phase.Executable() + " not found, skipping")
    else if Clean(context.targets) == [] then Some(description + ": no valid targets provided, skipping")
    else None
  }

  /** The phase's own output file. */
  function PhaseFile(phase: Phase): string {
    phase.StepName() + ".txt"
  }

  /** The state a sweep starts from: the distinct entries already in the phase's file. */
  function SweepStart(phase: Phase, files: map<string, seq<string>>): Sweep {
    Sweep(AddNew([], Lines(files, PhaseFile(phase))), false, None, None)
  }

  /** The result record of a phase that ran its sweep. */
  function BruteforceRecord(phase: Phase, r: Sweep, dataPath: string, now: Timestamp): ToolResult {
    ToolResult(
      phase.StepName(),
      if r.raised.Some? then None else r.finalCode,
      Some(PathIn(dataPath, PhaseFile(phase))),
      if r.raised.Some? then StepError else if r.successful then StepCompleted else StepFailed,
      now,
      Some(now),
      r.raised)
  }

  /** One more target, in the terms the sweep loop keeps: its variables and its log. */
  lemma RunNext(w: Sweeper, targets: seq<string>, i: nat, start: Sweep)
    requires i < |targets| && w.Run(targets[..i], start).raised.None?
    ensures w.Run(targets[..i + 1], start) == w.Step(w.Run(targets[..i], start), targets[i])
    ensures w.Messages(targets[..i + 1], start) == w.Messages(targets[..i], start) + w.Report(targets[i])
  {
    assert targets[..i + 1][..i] == targets[..i];
  }

  /** A sweep that stopped early has the outcome, and the log, of the whole sweep. */
  lemma RunStopped(w: Sweeper, targets: seq<string>, i: nat, start: Sweep)
    requires i <= |targets| && (i < |targets| ==> w.Run(targets[..i], start).raised.Some?)
    ensures w.Run(targets, start) == w.Run(targets[..i], start)
    ensures w.Messages(targets, start) == w.Messages(targets[..i], start)
  {
    var a, b := targets[..i], targets[i..];
    assert a + b == targets;
    if i < |targets| {
      RunAppend(w, a, b, start);
      RunRaised(w, b, w.Run(a, start));
      MessagesRaised(w, a, b, start);
    } else {
      assert a == targets;
    }
  }

  /** After a raise, further targets add nothing to the log. */
  lemma {:induction false} MessagesRaised(w: Sweeper, a: seq<string>, b: seq<string>, s: Sweep)
    requires w.Run(a, s).raised.Some?
    ensures w.Messages(a + b, s) == w.Messages(a, s)
    decreases |b|
  {
    if b == [] {
      assert a + b == a;
    } else {
      var b' := b[..|b| - 1];
      assert (a + b)[..|a + b| - 1] == a + b';
      MessagesRaised(w, a, b', s);
      RunAppend(w, a, b', s);
      RunRaised(w, b', w.Run(a, s));
    }
  }

  /** Sweeping two batches one after the other is sweeping their concatenation. */
  lemma {:induction false} RunAppend(w: Sweeper, a: seq<string>, b: seq<string>, s: Sweep)
    ensures w.Run(a + b, s) == w.Run(b, w.Run(a, s))
    decreases |b|
  {
    if b == [] {
      assert a + b == a;
    } else {
      var b' := b[..|b| - 1];
      assert (a + b)[..|a + b| - 1] == a + b';
      RunAppend(w, a, b', s);
    }
  }

  /** Once a command could not be started, the remaining targets change nothing. */
  lemma {:induction false} RunRaised(w: Sweeper, targets: seq<string>, s: Sweep)
    requires s.raised.Some?
    ensures w.Run(targets, s) == s
    decreases |targets|
  {
    if targets != [] {
      RunRaised(w, targets[..|targets| - 1], s);
    }
  }

  /** A sweep that was never stopped succeeded exactly when some target's command exited with 0. */
  lemma {:induction false} SweepSuccess(w: Sweeper, targets: seq<string>, s: Sweep)
    requires s.raised.None?
    ensures var r := w.Run(targets, s);
      r.raised.None? ==> (r.successful <==> s.successful || exists j :: 0 <= j < |targets| && w.Succeeds(targets[j]))
    decreases |targets|
  {
    if targets != [] {
      var init := targets[..|targets| - 1];
      var last := targets[|targets| - 1];
      SweepSuccess(w, init, s);
      var r := w.Run(targets, s);
      assert r == w.Step(w.Run(init, s), last);
      if r.raised.None? && !s.successful {
        if r.successful && !w.Succeeds(targets[|targets| - 1]) {
          var j :| 0 <= j < |init| && w.Succeeds(init[j]);
          assert targets[j] == init[j];
        }
        if exists j :: 0 <= j < |targets| && w.Succeeds(targets[j]) {
          var j :| 0 <= j < |targets| && w.Succeeds(targets[j]);
          if j < |init| {
            assert init[j] == targets[j];
          }
        }
      }
    }
  }

  /**
   * The final code of a sweep that was never stopped: 0 when some command
   * succeeded, otherwise the code of the first target's command.
   */
  lemma {:induction false} SweepFinalCode(w: Sweeper, targets: seq<string>, s: Sweep)
    requires s.raised.None? && (s.successful ==> s.finalCode == Some(0))
    ensures var r := w.Run(targets, s);
      r.raised.None? ==>
        && (r.successful ==> r.finalCode == Some(0))
        && (!r.successful ==> r.finalCode == FirstCode(w, targets, s))
    decreases |targets|
  {
    if targets != [] {
      var init := targets[..|targets| - 1];
      var last := targets[|targets| - 1];
      var r0 := w.Run(init, s);
      assert w.Run(targets, s) == w.Step(r0, last);
      SweepFinalCode(w, init, s);
      if init != [] {
        assert init[0] == targets[0];
      }
    }
  }

  /** The final code a sweep keeps when nothing succeeds: the one it started with, else the first target's. */
  function FirstCode(w: Sweeper, targets: seq<string>, s: Sweep): Option<int> {
    if s.finalCode.Some? then s.finalCode
    else if targets == [] || !w.Process(targets[0]).Exited? then None
    else Some(w.Process(targets[0]).code)
  }

  /**
   * The entries of a sweep that was never stopped: the starting entries
   * extended, in first-seen order, by the output of every successful command.
   */
  lemma {:induction false} SweepEntries(w: Sweeper, targets: seq<string>, s: Sweep)
    requires s.raised.None?
    ensures var r := w.Run(targets, s); r.raised.None? ==> r.entries == AddNew(s.entries, w.Outputs(targets))
    decreases |targets|
  {
    if targets != [] {
      var init := targets[..|targets| - 1];
      var last := targets[|targets| - 1];
      var r0 := w.Run(init, s);
      assert w.Run(targets, s) == w.Step(r0, last);
      assert w.Outputs(targets) == w.Outputs(init) + (if w.Succeeds(last) then RStripAll(w.Process(last).lines) else []);
      SweepEntries(w, init, s);
      if w.Run(targets, s).raised.None? {
        if w.Succeeds(last) {
          AddNewAppend(s.entries, w.Outputs(init), RStripAll(w.Process(last).lines));
        } else {
          assert w.Outputs(init) + [] == w.Outputs(init);
        }
      }
    }
  }

  /**
   * What a completed phase writes back: the distinct stripped lines of the
   * file it found followed by those of every successful command, each kept
   * at its first occurrence.
   */
  lemma PhaseFileContents(w: Sweeper, files: map<string, seq<string>>, targets: seq<string>)
    ensures var r := w.Run(targets, SweepStart(w.phase, files));
      r.raised.None? ==> r.entries == KeepFirst(Clean(Lines(files, PhaseFile(w.phase)) + w.Outputs(targets)))
  {
    var existing := Lines(files, PhaseFile(w.phase));
    SweepEntries(w, targets, SweepStart(w.phase, files));
    AddNewAppend([], existing, w.Outputs(targets));
    AddNewIsKeepFirst([], existing + w.Outputs(targets));
    assert [] + Clean(existing + w.Outputs(targets)) == Clean(existing + w.Outputs(targets));
  }


  // ---------------------------------------------------------------------------
  // Artifact merging, the history file and the httpx probe
  // ---------------------------------------------------------------------------

  /** The names the merge globs for: every file whose name ends in `.txt`. */
  predicate IsTextArtifact(name: string) {
    |name| >= 4 && name[|name| - 4..] == ".txt"
  }

  /** The text artifacts of a data directory. */
  function TextArtifacts(files: map<string, seq<string>>): set<string> {
    set name | name in files && IsTextArtifact(name)
  }

  /** The lines the merge reads, file after file in the given order, passing over the merged file itself. */
  function MergeInput(files: map<string, seq<string>>, names: seq<string>): seq<string>
    decreases |names|
  {
    if names == [] then []
    else
      var last := names[|names| - 1];
      MergeInput(files, names[..|names| - 1]) + (if last == MergedName then [] else Lines(files, last))
  }

  /** The cleaned lines of a file are exactly its entries. */
  lemma CleanIsLineEntries(lines: seq<string>, x: string)
    ensures x in Clean(lines) <==> x in LineEntries(lines)
  {
    LineEntriesSpec(lines, x);
    if x in Clean(lines) {
      CleanSource(lines, x);
      CleanEntries(lines);
    }
    if x in LineEntries(lines) {
      var i :| 0 <= i < |lines| && Strip(lines[i]) == x;
      CleanMember(lines, i);
    }
  }

  /** Some text file other than `subs.txt`, among `names`, holds the entry `x`. */
  predicate HeldBy(files: map<string, seq<string>>, names: seq<string>, x: string) {
    exists k :: 0 <= k < |names| && names[k] != MergedName && x in LineEntries(Lines(files, names[k]))
  }

  /** The files holding `x` among `names` are those among all but the last, and possibly the last. */
  lemma HeldBySnoc(files: map<string, seq<string>>, names: seq<string>, x: string)
    requires names != []
    ensures var n := |names| - 1;
      HeldBy(files, names, x) <==>
        HeldBy(files, names[..n], x) || (names[n] != MergedName && x in LineEntries(Lines(files, names[n])))
  {
    var n := |names| - 1;
    var init := names[..n];
    if HeldBy(files, init, x) {
      var k :| 0 <= k < |init| && init[k] != MergedName && x in LineEntries(Lines(files, init[k]));
      assert names[k] == init[k];
    }
    if HeldBy(files, names, x) {
      var k :| 0 <= k < |names| && names[k] != MergedName && x in LineEntries(Lines(files, names[k]));
      if k < n {
        assert init[k] == names[k];
      }
    }
  }

  /** An entry reaches the merge input exactly when some merged file other than `subs.txt` holds it. */
  lemma {:induction false} MergeInputEntries(files: map<string, seq<string>>, names: seq<string>, x: string)
    ensures x in Clean(MergeInput(files, names)) <==> HeldBy(files, names, x)
    decreases |names|
  {
    if names != [] {
      var n := |names| - 1;
      var init := names[..n];
      var tail := if names[n] == MergedName then [] else Lines(files, names[n]);
      assert MergeInput(files, names) == MergeInput(files, init) + tail;
      MergeInputEntries(files, init, x);
      CleanAppend(MergeInput(files, init), tail);
      CleanIsLineEntries(tail, x);
      HeldBySnoc(files, names, x);
    }
  }

  /**
   * What the merge writes to `subs.txt`: the entries of the other text files,
   * each once, at its first occurrence in the order the files were read; every
   * line of it is a stripped, non-blank entry.
   */
  lemma MergedContents(files: map<string, seq<string>>, names: seq<string>, x: string)
    ensures var merged := AddNew([], MergeInput(files, names));
      && Distinct(merged)
      && merged == KeepFirst(Clean(MergeInput(files, names)))
      && (forall y :: y in merged ==> IsEntry(y))
      && (x in merged <==> HeldBy(files, names, x))
  {
    var input := MergeInput(files, names);
    MergeInputEntries(files, names, x);
    AddNewIsKeepFirst([], input);
    assert [] + Clean(input) == Clean(input);
    CleanEntries(input);
  }

  /** `[entry for entry in entries if entry not in existing]`, over one order of the entries. */
  function Unrecorded(entries: seq<string>, existing: set<string>): (r: seq<string>)
    ensures forall x :: x in r <==> x in entries && x !in existing
    ensures Distinct(entries) ==> Distinct(r)
    decreases |entries|
  {
    if entries == [] then []
    else
      var last := entries[|entries| - 1];
      var init := entries[..|entries| - 1];
      assert Distinct(entries) ==> last !in init;
      Unrecorded(init, existing) + (if last in existing then [] else [last])
  }

  /** The entries of two files read one after the other. */
  lemma {:induction false} LineEntriesAppend(a: seq<string>, b: seq<string>)
    ensures LineEntries(a + b) == LineEntries(a) + LineEntries(b)
    decreases |b|
  {
    if b == [] {
      assert a + b == a;
    } else {
      var n := |b| - 1;
      assert (a + b)[..|a + b| - 1] == a + b[..n];
      LineEntriesAppend(a, b[..n]);
    }
  }

  /** Lines that are all entries already are their own entries. */
  lemma {:induction false} LineEntriesOfEntries(xs: seq<string>)
    requires forall x :: x in xs ==> IsEntry(x)
    ensures LineEntries(xs) == set x | x in xs
    decreases |xs|
  {
    if xs != [] {
      var n := |xs| - 1;
      LineEntriesOfEntries(xs[..n]);
      StripEntry(xs[n]);
      assert xs == xs[..n] + [xs[n]];
    }
  }

  /** A sequence without repetitions has as many elements as the set of them. */
  lemma {:induction false} DistinctCount(xs: seq<string>)
    requires Distinct(xs)
    ensures |set x | x in xs| == |xs|
    decreases |xs|
  {
    if xs != [] {
      var n := |xs| - 1;
      DistinctCount(xs[..n]);
      assert (set x | x in xs) == (set x | x in xs[..n]) + {xs[n]};
      assert xs[n] !in xs[..n];
    }
  }

  /** The line `anew` logs for a batch of entries against the history it finds. */
  function AnewMessage(history: seq<string>, entries: set<string>): string {
    var count := |entries - LineEntries(history)|;
    if count == 0 then "anew: no new entries to append"
    else "anew: appended " + IntToString(count) + " new entries to " + HistoryName
  }

  /**
   * After appending the unrecorded entries, the history holds what it held
   * before and every entry of the batch, and the count logged is the number
   * of lines appended.
   */
  lemma AnewHistory(history: seq<string>, entries: set<string>, added: seq<string>)
    requires Distinct(added)
    requires forall x :: x in added <==> x in entries && x !in LineEntries(history)
    requires forall x :: x in entries ==> IsEntry(x)
    ensures LineEntries(history + added) == LineEntries(history) + entries
    ensures |added| == |entries - LineEntries(history)|
  {
    LineEntriesAppend(history, added);
    LineEntriesOfEntries(added);
    AnewCount(history, entries, added);
  }

  /** The line logged for a batch counts the lines it appends to the history. */
  lemma AnewCount(history: seq<string>, entries: set<string>, added: seq<string>)
    requires Distinct(added)
    requires forall x :: x in added <==> x in entries && x !in LineEntries(history)
    ensures |added| == |entries - LineEntries(history)|
    ensures AnewMessage(history, entries) ==
      if added == [] then "anew: no new entries to append"
      else "anew: appended " + IntToString(|added|) + " new entries to " + HistoryName
  {
    DistinctCount(added);
    assert (set x | x in added) == entries - LineEntries(history);
  }

  /** The entries of a batch the history does not hold yet, in whatever order the set gives them. */
  method SelectNew(history: seq<string>, entries: set<string>) returns (added: seq<string>)
    ensures Distinct(added)
    ensures forall x :: x in added <==> x in entries && x !in LineEntries(history)
    ensures AnewMessage(history, entries) ==
      if added == [] then "anew: no new entries to append"
      else "anew: appended " + IntToString(|added|) + " new entries to " + HistoryName
  {
    var ordered := Enumerate(entries);
    added := Unrecorded(ordered, LineEntries(history));
    AnewCount(history, entries, added);
  }

  /** The probe command: httpx over `subs.txt`, writing `httpx_probed.txt`. */
  function ProbeCommand(dataPath: string): seq<string> {
    ["httpx", "-silent", "-l", PathIn(dataPath, MergedName), "-o", PathIn(dataPath, ProbeName)]
  }

  /** The probe process; it runs with the engine's own environment. */
  function ProbeProcess(dataPath: string, o: Oracles): ProcessOutcome {
    o.spawn(ProbeCommand(dataPath), ChildEnvironment(o.inherited, map[]))
  }

  /** The probe starts httpx when the merged file exists and httpx is on PATH. */
  predicate ProbeStarts(files: map<string, seq<string>>, o: Oracles) {
    MergedName in files && o.onPath("httpx")
  }

  /** What the probe returns: the output path, nothing, or the error it raises. */
  function ProbeResult(files: map<string, seq<string>>, dataPath: string, o: Oracles): Result<Option<string>, string> {
    if !ProbeStarts(files, o) then Ok(None)
    else
      match ProbeProcess(dataPath, o)
      case SpawnFailed(reason) => Err(reason)
      case Exited(_, code) => Ok(if code == 0 then Some(PathIn(dataPath, ProbeName)) else None)
  }

  /** The lines the probe logs. */
  function ProbeReport(files: map<string, seq<string>>, dataPath: string, o: Oracles): seq<string> {
    if MergedName !in files then ["Merged file does not exist; skipping httpx probe"]
    else if !o.onPath("httpx") then ["httpx command not found; skipping probe"]
    else
      match ProbeProcess(dataPath, o)
      case SpawnFailed(_) => []
      case Exited(lines, code) =>
        Prefixed("[httpx] ", RStripAll(lines) + [FinishedMessage(ProbeCommand(dataPath), code)])
        + [if code == 0 then "httpx probe completed: " + PathIn(dataPath, ProbeName) else "httpx probe failed"]
  }

  /** The data directory after the probe: httpx's output is written when it ran to the end. */
  function ProbedFiles(files: map<string, seq<string>>, dataPath: string, o: Oracles): map<string, seq<string>> {
    if ProbeStarts(files, o) && ProbeProcess(dataPath, o).Exited? then files[ProbeName := RStripAll(ProbeProcess(dataPath, o).lines)]
    else files
  }

  /**
   * The probe returns a path exactly when httpx ran and exited with 0, raises
   * exactly when httpx could not be started, and changes the data directory
   * only by the output of a run that exited.
   */
  lemma ProbeOutcomes(files: map<string, seq<string>>, dataPath: string, o: Oracles)
    ensures var r := ProbeResult(files, dataPath, o); var p := ProbeProcess(dataPath, o);
      && (r.Ok? && r.value.Some? <==> ProbeStarts(files, o) && p.Exited? && p.code == 0)
      && (r.Ok? && r.value.Some? ==> r.value.value == PathIn(dataPath, ProbeName))
      && (r.Err? <==> ProbeStarts(files, o) && p.SpawnFailed?)
      && (ProbedFiles(files, dataPath, o) != files ==> ProbeStarts(files, o) && p.Exited?)
      && ProbedFiles(files, dataPath, o).Keys <= files.Keys + {ProbeName}
  {
  }
  /** One more file read by the merge. */
  lemma MergeNext(files: map<string, seq<string>>, names: seq<string>, i: nat)
    requires i < |names|
    ensures AddNew([], MergeInput(files, names[..i + 1])) ==
      AddNew(AddNew([], MergeInput(files, names[..i])), if names[i] == MergedName then [] else Lines(files, names[i]))
  {
    assert names[..i + 1][..i] == names[..i];
    var tail := if names[i] == MergedName then [] else Lines(files, names[i]);
    assert MergeInput(files, names[..i + 1]) == MergeInput(files, names[..i]) + tail;
    AddNewAppend([], MergeInput(files, names[..i]), tail);
  }

  /** Merge the text artifacts, taken in whatever order the directory listing gives them. */
  method MergeTextArtifacts(files: map<string, seq<string>>) returns (order: seq<string>, merged: seq<string>, seen: set<string>)
    ensures Distinct(order) && (forall name :: name in order <==> name in TextArtifacts(files))
    ensures merged == AddNew([], MergeInput(files, order))
    ensures seen == (set x | x in merged) && |seen| == |merged|
  {
    order := Enumerate(TextArtifacts(files));
    merged, seen := MergeLines(files, order);
  }

  /** The merge loop: read each named file in turn, except `subs.txt`, keeping each entry once. */
  method MergeLines(files: map<string, seq<string>>, names: seq<string>) returns (merged: seq<string>, seen: set<string>)
    ensures merged == AddNew([], MergeInput(files, names))
    ensures seen == (set x | x in merged) && |seen| == |merged|
  {
    merged, seen := [], {};
    var i := 0;
    assert names[..0] == [];
    while i < |names|
      invariant 0 <= i <= |names|
      invariant merged == AddNew([], MergeInput(files, names[..i]))
      invariant forall x :: x in seen <==> x in merged
    {
      merged, seen := MergeFile(files, names, i, merged, seen);
      i := i + 1;
    }
    assert names[..i] == names;
    DistinctCount(merged);
    assert seen == set x | x in merged;
  }

  /** One pass of the merge loop: the `i`-th file's lines are added, unless it is `subs.txt`. */
  method MergeFile(files: map<string, seq<string>>, names: seq<string>, i: nat, merged: seq<string>, seen: set<string>)
    returns (merged': seq<string>, seen': set<string>)
    requires i < |names|
    requires merged == AddNew([], MergeInput(files, names[..i]))
    requires forall x :: x in seen <==> x in merged
    ensures merged' == AddNew([], MergeInput(files, names[..i + 1]))
    ensures forall x :: x in seen' <==> x in merged'
  {
    MergeNext(files, names, i);
    if names[i] != MergedName {
      merged', seen' := AppendNew(merged, seen, Lines(files, names[i]));
    } else {
      merged', seen' := merged, seen;
    }
  }

  /** The data directory after `anew` appended `added` to the history file, when there was anything to append. */
  function Appended(files: map<string, seq<string>>, added: seq<string>): map<string, seq<string>> {
    if added == [] then files else files[HistoryName := Lines(files, HistoryName) + added]
  }

  /** The data directory after the merge wrote `subs.txt` and `anew` appended to the history. */
  function Renewed(files: map<string, seq<string>>, merged: seq<string>, added: seq<string>): map<string, seq<string>> {
    Appended(files[MergedName := merged], added)
  }

  /**
   * Once `subs.txt` exists, the probe raises exactly when the job fails, with
   * the same error.
   */
  lemma ProbeFailure(files: map<string, seq<string>>, dataPath: string, o: Oracles)
    requires MergedName in files
    ensures ProbeResult(files, dataPath, o).Err? <==> JobFailure(dataPath, o).Some?
    ensures ProbeResult(files, dataPath, o).Err? ==> JobFailure(dataPath, o).value == ProbeResult(files, dataPath, o).error
  {
  }

  /** The lines the merge logs: its announcement, the count of entries merged, `anew`'s line and the probe's. */
  function MergeReport(count: nat, anewLine: string, probe: seq<string>): seq<string> {
    ["Merging artifacts", "Merged " + IntToString(count) + " unique entries into " + MergedName, anewLine] + probe
  }

  /** The merge's lines, logged one call after the other. */
  lemma MergeLog(start: seq<string>, count: nat, anewLine: string, probe: seq<string>)
    ensures start + ["Merging artifacts", "Merged " + IntToString(count) + " unique entries into " + MergedName] + ([anewLine] + probe)
      == start + MergeReport(count, anewLine, probe)
  {
  }

  /** The error a job fails with: only the httpx probe failing to start makes a run raise. */
  function JobFailure(dataPath: string, o: Oracles): Option<string> {
    if o.onPath("httpx") && ProbeProcess(dataPath, o).SpawnFailed? then Some(ProbeProcess(dataPath, o).reason) else None
  }

  // ---------------------------------------------------------------------------
  // The run of a job
  // ---------------------------------------------------------------------------

  /** The result records of the tool steps, one per name, in the order they ran. */
  function ToolRecords(names: seq<string>, catalogue: map<string, ToolDefinition>, context: ToolContext, o: Oracles, dataPath: string): (r: seq<ToolResult>)
    requires forall name :: name in names ==> name in catalogue
    ensures |r| == |names|
    decreases |names|
  {
    if names == [] then []
    else
      var n := |names| - 1;
      ToolRecords(names[..n], catalogue, context, o, dataPath) + [ToolRecord(catalogue[names[n]], context, o, dataPath)]
  }

  /** Each tool step's record is the record of the tool of that name. */
  lemma {:induction false} ToolRecordsIndex(names: seq<string>, catalogue: map<string, ToolDefinition>, context: ToolContext, o: Oracles, dataPath: string, k: nat)
    requires forall name :: name in names ==> name in catalogue
    requires k < |names|
    ensures ToolRecords(names, catalogue, context, o, dataPath)[k] == ToolRecord(catalogue[names[k]], context, o, dataPath)
    decreases |names|
  {
    var n := |names| - 1;
    var init := names[..n];
    assert forall name :: name in init ==> name in names;
    var rest := ToolRecords(init, catalogue, context, o, dataPath);
    assert ToolRecords(names, catalogue, context, o, dataPath) == rest + [ToolRecord(catalogue[names[n]], context, o, dataPath)];
    if k < n {
      ToolRecordsIndex(init, catalogue, context, o, dataPath, k);
      assert init[k] == names[k];
    }
  }

  /** The lines the tool steps log, one step after the other. */
  function ToolsLog(names: seq<string>, catalogue: map<string, ToolDefinition>, context: ToolContext, o: Oracles): seq<string>
    requires forall name :: name in names ==> name in catalogue
    decreases |names|
  {
    if names == [] then []
    else
      var n := |names| - 1;
      ToolsLog(names[..n], catalogue, context, o) + ToolMessages(catalogue[names[n]], context, o)
  }

  /** One more tool step, in the terms of the loop that runs them. */
  lemma ToolStepsNext(catalogue: map<string, ToolDefinition>, context: ToolContext, o: Oracles, dataPath: string, names: seq<string>, i: nat)
    requires forall name :: name in names ==> name in catalogue
    requires i < |names|
    ensures ToolRecords(names[..i + 1], catalogue, context, o, dataPath)
      == ToolRecords(names[..i], catalogue, context, o, dataPath) + [ToolRecord(catalogue[names[i]], context, o, dataPath)]
    ensures ToolsLog(names[..i + 1], catalogue, context, o)
      == ToolsLog(names[..i], catalogue, context, o) + ToolMessages(catalogue[names[i]], context, o)
  {
    assert names[..i + 1][..i] == names[..i];
  }

  /** The context the tools of a job run in: its targets, its data directory and its environment. */
  function JobContext(id: string, dataPath: string, request: JobRequest, api: ApiSettings): ToolContext {
    ToolContext(id, request.targets, dataPath, BuildEnvironment(request.environment, api))
  }

  /** Whether a bruteforce phase of a request gets as far as recording a step. */
  predicate PhaseRuns(phase: Phase, config: BruteforceConfig, context: ToolContext, o: Oracles) {
    config.enabled && BruteforceSkip(phase, config, context, o).None?
  }

  // ---------------------------------------------------------------------------
  // Replaying the buffer to a log stream
  // ---------------------------------------------------------------------------

  /** What happens while a log stream is open: its reader asks for a line, or the job logs one. */
  datatype StreamEvent = Take | Logged(line: string)

  /**
   * A log stream's progress: the index of the next buffered line its replay
   * yields while `replaying`, whether the buffer changed under the replay,
   * the lines waiting in its queue, the lines it yielded, and whether it
   * ended with an error.
   */
  datatype StreamState = StreamState(
    next: nat, replaying: bool, mutated: bool, queue: seq<string>, delivered: seq<string>, broken: bool)

  /**
   * A stream that has just opened on `buffer`: its queue is registered and,
   * when the buffer has a line, the replay has yielded the first one.
   */
  function Opened(buffer: seq<string>): StreamState {
    if buffer == [] then StreamState(0, false, false, [], [], false)
    else StreamState(1, true, false, [], buffer[..1], false)
  }

  /**
   * One event of a stream that replays `buffer`. With `snapshot` false this
   * is the replay as the code walks it: over the live buffer, so a line
   * logged while the walk is suspended makes its next step raise, even after
   * the last buffered line. With `snapshot` true the walk goes over a copy
   * taken when the stream opened, and a logged line only joins the queue.
   */
  function StreamStep(buffer: seq<string>, snapshot: bool, s: StreamState, e: StreamEvent): StreamState {
    if s.broken then s
    else match e
      case Logged(line) =>
        s.(queue := s.queue + [line], mutated := s.mutated || (s.replaying && !snapshot))
      case Take =>
        if s.replaying && s.mutated then s.(broken := true)
        else if s.replaying && s.next < |buffer| then s.(next := s.next + 1, delivered := s.delivered + [buffer[s.next]])
        else if s.queue != [] then s.(replaying := false, queue := s.queue[1..], delivered := s.delivered + [s.queue[0]])
        else s.(replaying := false)
  }

  /** A stream after a sequence of events. */
  function StreamRun(buffer: seq<string>, snapshot: bool, s: StreamState, events: seq<StreamEvent>): StreamState
    decreases |events|
  {
    if events == [] then s else StreamRun(buffer, snapshot, StreamStep(buffer, snapshot, s, events[0]), events[1..])
  }

  /** The lines logged by a sequence of events, in order. */
  function LoggedLines(events: seq<StreamEvent>): seq<string>
    decreases |events|
  {
    if events == [] then []
    else (if events[0].Logged? then [events[0].line] else []) + LoggedLines(events[1..])
  }

  /** What a stream has still to yield: the rest of its replay, then its queue. */
  function Pending(buffer: seq<string>, s: StreamState): seq<string>
    requires s.next <= |buffer|
  {
    (if s.replaying then buffer[s.next..] else []) + s.queue
  }

  /** A stream over a snapshot that has yielded a prefix of `all` and holds the rest. */
  predicate InOrder(buffer: seq<string>, s: StreamState, all: seq<string>) {
    && !s.broken && !s.mutated && s.next <= |buffer|
    && s.delivered + Pending(buffer, s) == all
  }

  /** One event keeps a snapshot stream in order, with a logged line added at the end. */
  lemma SnapshotStep(buffer: seq<string>, s: StreamState, e: StreamEvent, all: seq<string>)
    requires InOrder(buffer, s, all)
    ensures InOrder(buffer, StreamStep(buffer, true, s, e), all + (if e.Logged? then [e.line] else []))
  {
    var t := StreamStep(buffer, true, s, e);
    match e
    case Logged(line) =>
      assert Pending(buffer, t) == Pending(buffer, s) + [line];
    case Take =>
      if s.replaying && s.next < |buffer| {
        assert buffer[s.next..] == [buffer[s.next]] + buffer[s.next + 1..];
      } else if s.queue != [] {
        assert s.queue == [s.queue[0]] + s.queue[1..];
      }
  }

  /** A snapshot stream stays in order whatever happens, and never breaks. */
  lemma {:induction false} SnapshotRun(buffer: seq<string>, s: StreamState, events: seq<StreamEvent>, all: seq<string>)
    requires InOrder(buffer, s, all)
    ensures InOrder(buffer, StreamRun(buffer, true, s, events), all + LoggedLines(events))
    decreases |events|
  {
    if events != [] {
      var e := events[0];
      SnapshotStep(buffer, s, e, all);
      var more := if e.Logged? then [e.line] else [];
      SnapshotRun(buffer, StreamStep(buffer, true, s, e), events[1..], all + more);
      assert all + more + LoggedLines(events[1..]) == all + LoggedLines(events);
    }
  }

  /**
   * With the replay taken as a snapshot, a stream never ends with an error:
   * what it has yielded is the buffer followed by the lines logged since it
   * opened, in order with none missed or repeated, and the rest of them is
   * still pending.
   */
  lemma SnapshotStreamInOrder(buffer: seq<string>, events: seq<StreamEvent>)
    ensures var s := StreamRun(buffer, true, Opened(buffer), events);
      && !s.broken && s.next <= |buffer|
      && s.delivered <= buffer + LoggedLines(events)
      && s.delivered + Pending(buffer, s) == buffer + LoggedLines(events)
  {
    var s := Opened(buffer);
    if buffer != [] {
      assert buffer == buffer[..1] + buffer[1..];
    }
    assert InOrder(buffer, s, buffer);
    SnapshotRun(buffer, s, events, buffer);
  }

  /** A stream that broke, or whose live replay was changed under it, yields nothing more. */
  lemma {:induction false} LiveStops(buffer: seq<string>, s: StreamState, events: seq<StreamEvent>)
    requires s.broken || (s.replaying && s.mutated)
    ensures StreamRun(buffer, false, s, events).delivered == s.delivered
    ensures s.broken || Take in events ==> StreamRun(buffer, false, s, events).broken
    decreases |events|
  {
    if events != [] {
      var t := StreamStep(buffer, false, s, events[0]);
      LiveStops(buffer, t, events[1..]);
      assert events == [events[0]] + events[1..];
    }
  }

  /**
   * As written, a line logged just after a stream yields its first buffered
   * line ends that stream: it yields nothing more, missing the rest of the
   * buffer and every later line, and its reader's next request raises.
   */
  lemma LiveReplayBreaks(buffer: seq<string>, line: string, events: seq<StreamEvent>)
    requires buffer != []
    ensures var s := StreamRun(buffer, false, Opened(buffer), [Logged(line)] + events);
      && s.delivered == buffer[..1]
      && (Take in events ==> s.broken)
  {
    var e := [Logged(line)] + events;
    assert e[0] == Logged(line) && e[1..] == events;
    LiveStops(buffer, StreamStep(buffer, false, Opened(buffer), Logged(line)), events);
  }

  // ---------------------------------------------------------------------------
  // The job
  // ---------------------------------------------------------------------------

  /**
   * A job: its request, status and result records, the files of its data
   * directory, its log file, and the log hub (the bounded buffer of recent
   * lines and one queue of pending lines per live subscriber).
   */
  class Job {
    const id: string
    const dataPath: string
    const bufferLimit: nat
    var request: JobRequest
    var status: JobStatus
    var message: Option<string>
    var files: map<string, seq<string>>
    var results: seq<ToolResult>
    var mergedFile: Option<string>
    var probeFile: Option<string>
    var logFile: seq<string>
    var logBuffer: seq<string>
    var subscribers: seq<nat>
    var queues: map<nat, seq<string>>
    var nextQueue: nat
    /** For each subscriber, the position in the log of its first pending line. */
    ghost var cursors: map<nat, nat>
    /** Every status the job has had, oldest first. */
    ghost var history: seq<JobStatus>

    /** The job's statuses so far follow the engine's moves and end in its current status. */
    ghost predicate Lifecycle()
      reads this`status, this`history
    {
      Forward(history) && history[|history| - 1] == status
    }

    /**
     * The buffer is the last `bufferLimit` lines of the log, and each
     * subscriber's queue holds exactly the lines logged since it last read.
     */
    ghost predicate Valid()
      reads this`logFile, this`logBuffer, this`subscribers, this`queues, this`nextQueue, this`cursors
    {
      && logBuffer == Window(logFile, bufferLimit)
      && Distinct(subscribers)
      && (forall q :: q in subscribers ==>
            q < nextQueue && q in queues && q in cursors && cursors[q] <= |logFile| && queues[q] == logFile[cursors[q]..])
    }

    constructor (id: string, request: JobRequest, dataPath: string, bufferLimit: nat)
      ensures Valid()
      ensures this.id == id && this.request == request && this.dataPath == dataPath && this.bufferLimit == bufferLimit
      ensures status == Queued && message.None? && files == map[] && results == []
      ensures mergedFile.None? && probeFile.None? && logFile == [] && subscribers == []
      ensures Lifecycle() && history == [Queued]
    {
      this.id := id;
      this.request := request;
      this.dataPath := dataPath;
      this.bufferLimit := bufferLimit;
      status := Queued;
      message := None;
      files := map[];
      results := [];
      mergedFile := None;
      probeFile := None;
      logFile := [];
      logBuffer := [];
      subscribers := [];
      queues := map[];
      nextQueue := 0;
      cursors := map[];
      history := [Queued];
    }

    /**
     * Log one line: append it to the log file and to the bounded buffer, and
     * push it onto the queue of every current subscriber.
     */
    method Log(line: string)
      requires Valid()
      modifies this`logFile, this`logBuffer, this`queues
      ensures Valid()
      ensures logFile == old(logFile) + [line]
      ensures forall q :: q in subscribers ==> queues[q] == old(queues[q]) + [line]
    {
      ghost var log, before := logFile, queues;
      PushBuffer(line);
      logFile := logFile + [line];
      Broadcast(line);
      QueuesFollowLog(log, line, subscribers, cursors, before, queues);
      assert forall q :: q in subscribers ==> q in queues && queues[q] == logFile[cursors[q]..];
    }

    /** Append one line to the bounded buffer, dropping the oldest line when it is full. */
    method PushBuffer(line: string)
      requires logBuffer == Window(logFile, bufferLimit)
      modifies this`logBuffer
      ensures logBuffer == Window(logFile + [line], bufferLimit)
    {
      WindowSnoc(logFile, line, bufferLimit);
      if bufferLimit > 0 {
        if |logBuffer| == bufferLimit {
          logBuffer := logBuffer[1..] + [line];
        } else {
          logBuffer := logBuffer + [line];
        }
      }
    }

    /** Push one line onto the queue of every subscriber, one after the other. */
    method Broadcast(line: string)
      requires Distinct(subscribers)
      requires forall q :: q in subscribers ==> q in queues
      modifies this`queues
      ensures queues.Keys == old(queues).Keys
      ensures forall q :: q in queues ==>
        queues[q] == if q in subscribers then old(queues[q]) + [line] else old(queues[q])
    {
      var i := 0;
      while i < |subscribers|
        invariant 0 <= i <= |subscribers|
        invariant queues.Keys == old(queues).Keys
        invariant forall q :: q in queues ==>
          queues[q] == if q in subscribers[..i] then old(queues[q]) + [line] else old(queues[q])
      {
        var q := subscribers[i];
        assert q !in subscribers[..i];
        assert subscribers[..i + 1] == subscribers[..i] + [q];
        queues := queues[q := queues[q] + [line]];
        i := i + 1;
      }
      assert subscribers[..i] == subscribers;
    }

    /** Log several lines with a common prefix, in order. */
    method LogAll(prefix: string, messages: seq<string>)
      requires Valid()
      modifies this`logFile, this`logBuffer, this`queues
      ensures Valid()
      ensures logFile == old(logFile) + Prefixed(prefix, messages)
    {
      var i := 0;
      while i < |messages|
        invariant 0 <= i <= |messages|
        invariant Valid()
        invariant logFile == old(logFile) + Prefixed(prefix, messages[..i])
      {
        assert messages[..i + 1][..i] == messages[..i];
        Log(prefix + messages[i]);
        i := i + 1;
      }
      assert messages[..i] == messages;
    }

    /**
     * A new log stream: register a fresh queue and take a copy of the buffer
     * as the replay. The replay is the tail of the log up to now and the
     * queue starts right after it, so the stream misses no line and repeats
     * none (`SnapshotStreamInOrder`); the code's walk over the live buffer
     * does not have this property (`LiveReplayBreaks`).
     */
    method Subscribe() returns (q: nat, replay: seq<string>)
      requires Valid()
      modifies this`subscribers, this`queues, this`cursors, this`nextQueue
      ensures Valid()
      ensures q !in old(subscribers) && subscribers == old(subscribers) + [q]
      ensures replay == logBuffer && replay == logFile[|logFile| - |replay|..]
      ensures queues[q] == [] && cursors[q] == |logFile|
    {
      q := nextQueue;
      assert q !in subscribers;
      nextQueue := nextQueue + 1;
      subscribers := subscribers + [q];
      queues := queues[q := []];
      cursors := cursors[q := |logFile|];
      replay := logBuffer;
    }

    /** The next pending line of a subscriber's queue, if one is waiting. */
    method Receive(q: nat) returns (line: Option<string>)
      requires Valid() && q in subscribers
      modifies this`queues, this`cursors
      ensures Valid()
      ensures old(queues[q]) == [] ==> line.None? && queues == old(queues)
      ensures old(queues[q]) != [] ==>
        && old(cursors[q]) < |logFile| && line == Some(logFile[old(cursors[q])]) && cursors[q] == old(cursors[q]) + 1
        && queues[q] == old(queues[q])[1..]
      ensures queues.Keys == old(queues).Keys && cursors.Keys == old(cursors).Keys
      ensures forall p :: p in queues && p != q ==> queues[p] == old(queues[p])
      ensures forall p :: p in cursors && p != q ==> cursors[p] == old(cursors[p])
    {
      if queues[q] == [] {
        return None;
      }
      line := Some(queues[q][0]);
      queues := queues[q := queues[q][1..]];
      cursors := cursors[q := cursors[q] + 1];
    }

    /**
     * Closing a stream: its queue is removed from the subscribers, the others
     * keeping their order, and their queues are untouched.
     */
    method Unsubscribe(q: nat)
      requires Valid() && q in subscribers
      modifies this`subscribers, this`queues
      ensures Valid()
      ensures q !in subscribers
      ensures forall p :: p in subscribers <==> p in old(subscribers) && p != q
      ensures exists i :: (0 <= i < |old(subscribers)| && old(subscribers)[i] == q
                             && subscribers == old(subscribers)[..i] + old(subscribers)[i + 1..])
      ensures forall p :: p in queues <==> p in old(queues) && p != q
      ensures forall p :: p in queues ==> queues[p] == old(queues[p])
    {
      var i :| 0 <= i < |subscribers| && subscribers[i] == q;
      subscribers := subscribers[..i] + subscribers[i + 1..];
      queues := map p | p in queues && p != q :: queues[p];
    }

    /** Fill in the bruteforce defaults of the job's own request, in place. */
    method ApplyBruteforceDefaults()
      modifies this`request
      ensures request == WithDefaults(old(request))
    {
      if request.staticBruteforce.enabled {
        if !Truthy(request.staticBruteforce.wordlist) {
          request := request.(staticBruteforce := request.staticBruteforce.(wordlist := Some(DefaultStaticWordlist)));
        }
        if !Truthy(request.staticBruteforce.resolvers) {
          request := request.(staticBruteforce := request.staticBruteforce.(resolvers := Some(DefaultResolvers)));
        }
      }
      if request.dynamicBruteforce.enabled {
        if !Truthy(request.dynamicBruteforce.wordlist) {
          request := request.(dynamicBruteforce := request.dynamicBruteforce.(wordlist := Some(DefaultDynamicWordlist)));
        }
        if !Truthy(request.dynamicBruteforce.resolvers) {
          request := request.(dynamicBruteforce := request.dynamicBruteforce.(resolvers := Some(DefaultResolvers)));
        }
      }
    }

    /** The start of a job's execution: it becomes running, before any concurrency slot is taken. */
    method BeginExecute()
      requires Valid() && Lifecycle() && status == Queued
      modifies this`status, this`history, this`logFile, this`logBuffer, this`queues
      ensures Valid() && Lifecycle()
      ensures status == Running && Advances(old(status), status) && history == old(history) + [Running]
      ensures logFile == old(logFile) + ["Job started"]
    {
      status := Running;
      history := history + [Running];
      Log("Job started");
    }

    /**
     * The end of a job's execution: completed when the run raised nothing,
     * otherwise failed with the error as its message.
     */
    method FinishExecute(failure: Option<string>)
      requires Valid() && Lifecycle() && status == Running
      modifies this`status, this`history, this`message, this`logFile, this`logBuffer, this`queues
      ensures Valid() && Lifecycle()
      ensures Advances(old(status), status) && history == old(history) + [status]
      ensures failure.None? ==>
        status == Completed && message == old(message) && logFile == old(logFile) + ["Job completed successfully"]
      ensures failure.Some? ==>
        status == Failed && message == failure && logFile == old(logFile) + ["Job failed: " + failure.value]
    {
      if failure.None? {
        status := Completed;
        history := history + [Completed];
        Log("Job completed successfully");
      } else {
        status := Failed;
        history := history + [Failed];
        message := failure;
        Log("Job failed: " + failure.value);
      }
    }

    /**
     * One tool step: a record with status running is appended first, then the
     * tool runs and the record is completed with its status, return code,
     * error and finishing time.
     */
    method RunTool(context: ToolContext, tool: ToolDefinition, o: Oracles)
      requires Valid() && context.workdir == dataPath
      modifies this`results, this`files, this`logFile, this`logBuffer, this`queues
      ensures Valid()
      ensures results == old(results) + [ToolRecord(tool, context, o, dataPath)]
      ensures logFile == old(logFile) + ToolMessages(tool, context, o)
      ensures ToolFiles(old(files), files, tool, context, o)
    {
      var n := |results|;
      var record := ToolResult(tool.name, None, Some(PathIn(dataPath, OutputName(tool))), StepRunning, o.now, None, None);
      results := results + [record];
      Log("Starting tool " + tool.name);
      var status, code, error := ExecuteTool(context, tool, o);
      record := record.(returnCode := code, status := status, error := error, finishedAt := Some(o.now));
      if tool.customRunner.Some? {
        record := record.(outputFile := Some(PathIn(context.workdir, CrtShOutput)));
      }
      assert record == ToolRecord(tool, context, o, dataPath);
      ReplaceLast(old(results), results[n], record);
      AppendAssoc(old(logFile), ["Starting tool " + tool.name], ToolReport(tool, context, o));
      results := results[n := record];
    }

    /** The body of a tool step: run the tool and report how it ended. */
    method ExecuteTool(context: ToolContext, tool: ToolDefinition, o: Oracles)
      returns (status: StepStatus, code: Option<int>, error: Option<string>)
      requires Valid()
      modifies this`files, this`logFile, this`logBuffer, this`queues
      ensures Valid()
      ensures status == ToolStatus(tool, context, o)
      ensures code == ToolReturnCode(tool, context, o) && error == ToolError(tool, context, o)
      ensures logFile == old(logFile) + ToolReport(tool, context, o)
      ensures ToolFiles(old(files), files, tool, context, o)
    {
      code, error := None, None;
      if tool.customRunner.Some? {
        var written, messages, path := RunCrtSh(context, o.lookup);
        LogAll("[" + tool.name + "] ", messages);
        files := files[CrtShOutput := written];
        status := StepCompleted;
      } else if tool.commandBuilder.None? {
        Log("Tool " + tool.name + " has no runner configured");
        status := StepSkipped;
      } else {
        status, code, error := ExecuteCommand(context, tool, o);
      }
    }

    /** A command tool: skipped when its executable is not on PATH, otherwise run. */
    method ExecuteCommand(context: ToolContext, tool: ToolDefinition, o: Oracles)
      returns (status: StepStatus, code: Option<int>, error: Option<string>)
      requires Valid() && tool.customRunner.None? && tool.commandBuilder.Some?
      modifies this`files, this`logFile, this`logBuffer, this`queues
      ensures Valid()
      ensures status == ToolStatus(tool, context, o)
      ensures code == ToolReturnCode(tool, context, o) && error == ToolError(tool, context, o)
      ensures logFile == old(logFile) + ToolReport(tool, context, o)
      ensures ToolFiles(old(files), files, tool, context, o)
    {
      var command := Build(tool.commandBuilder.value, context);
      if !o.onPath(command[0]) {
        Log("Tool " + tool.name + " not found on PATH. Skipping.");
        status, code, error := StepSkipped, None, None;
        return;
      }
      status, code, error := SpawnTool(context, tool, command, o);
    }

    /** A command tool whose executable is on PATH: run it, log its output and keep its file. */
    method SpawnTool(context: ToolContext, tool: ToolDefinition, command: seq<string>, o: Oracles)
      returns (status: StepStatus, code: Option<int>, error: Option<string>)
      requires Valid() && Spawns(tool, o) && command == Build(tool.commandBuilder.value, context)
      modifies this`files, this`logFile, this`logBuffer, this`queues
      ensures Valid()
      ensures status == ToolStatus(tool, context, o)
      ensures code == ToolReturnCode(tool, context, o) && error == ToolError(tool, context, o)
      ensures logFile == old(logFile) + ToolReport(tool, context, o)
      ensures ToolFiles(old(files), files, tool, context, o)
    {
      code, error := None, None;
      var outcome := RunCommand(command, PathIn(dataPath, OutputName(tool)), context.environment, o.inherited, o.spawn);
      match outcome {
        case Raised(reason) =>
          status, error := StepError, Some(reason);
          Log("Tool " + tool.name + " failed: " + reason);
        case Finished(path, c, written, messages) =>
          LogAll("[" + tool.name + "] ", messages);
          files := files[OutputName(tool) := written];
          status, code := if path.Some? then StepCompleted else StepFailed, Some(c);
      }
    }

    /**
     * Run a phase's command against one target, log what it reports, and
     * fold its output into the entries.
     */
    method SweepTarget(w: Sweeper, target: string, entries: seq<string>, seen: set<string>,
                       successful: bool, finalCode: Option<int>)
      returns (entries': seq<string>, seen': set<string>, successful': bool, finalCode': Option<int>, raised: Option<string>)
      requires Valid() && (forall x :: x in seen <==> x in entries)
      modifies this`logFile, this`logBuffer, this`queues
      ensures Valid()
      ensures w.Step(Sweep(entries, successful, finalCode, None), target) == Sweep(entries', successful', finalCode', raised)
      ensures logFile == old(logFile) + w.Report(target)
      ensures forall x :: x in seen' <==> x in entries'
    {
      Log(w.phase.Description() + ": running against " + target);
      ghost var running := logFile;
      var command := w.Command(target);
      var temp := PathIn(dataPath, w.phase.StepName() + "_" + target + ".txt");
      var outcome := RunCommand(command, temp, w.context.environment, w.o.inherited, w.o.spawn);
      assert w.Process(target) == w.o.spawn(command, ChildEnvironment(w.o.inherited, w.context.environment));
      if outcome.Raised? {
        entries', seen', successful', finalCode', raised := entries, seen, successful, finalCode, Some(outcome.reason);
        Log(w.phase.Description() + " failed: " + outcome.reason);
        assert logFile == running + w.Outcome(target);
      } else {
        entries', seen', successful', finalCode' := TakeOutput(w, target, outcome, entries, seen, successful, finalCode);
        raised := None;
      }
      AppendAssoc(old(logFile), [w.phase.Description() + ": running against " + target], w.Outcome(target));
    }

    /** Log a finished command's output and fold it into the sweep's variables. */
    method TakeOutput(w: Sweeper, target: string, outcome: CommandOutcome, entries: seq<string>, seen: set<string>,
                      successful: bool, finalCode: Option<int>)
      returns (entries': seq<string>, seen': set<string>, successful': bool, finalCode': Option<int>)
      requires Valid() && (forall x :: x in seen <==> x in entries)
      requires w.Process(target).Exited? && outcome.Finished?
      requires outcome.code == w.Process(target).code && (outcome.path.None? <==> outcome.code != 0)
      requires outcome.written == RStripAll(w.Process(target).lines)
      requires outcome.messages == outcome.written + [FinishedMessage(w.Command(target), outcome.code)]
      modifies this`logFile, this`logBuffer, this`queues
      ensures Valid()
      ensures w.Step(Sweep(entries, successful, finalCode, None), target) == Sweep(entries', successful', finalCode', None)
      ensures logFile == old(logFile) + w.Outcome(target)
      ensures forall x :: x in seen' <==> x in entries'
    {
      entries', seen', successful', finalCode' := entries, seen, successful, finalCode;
      LogAll("[" + w.phase.StepName() + "] ", outcome.messages);
      if outcome.path.Some? {
        successful', finalCode' := true, Some(0);
        entries', seen' := AppendNew(entries', seen', outcome.written);
      } else {
        if finalCode'.None? {
          finalCode' := Some(outcome.code);
        }
        Log(w.phase.Description() + ": command failed for " + target + " with code " + IntToString(outcome.code));
      }
    }

    /**
     * A bruteforce phase. After announcing itself it is skipped, with a
     * reason and without a result record, when there is no wordlist, when
     * its executable is not on PATH, or when no target is left after
     * stripping. Otherwise it records a step, runs its command against each
     * target in order until one cannot be started, and rewrites its file with
     * the accumulated entries when some command succeeded and none raised.
     */
    method RunBruteforce(context: ToolContext, config: BruteforceConfig, phase: Phase, o: Oracles)
      requires Valid()
      modifies this`results, this`files, this`logFile, this`logBuffer, this`queues
      ensures Valid()
      ensures BruteforceSkip(phase, config, context, o).Some? ==>
        && results == old(results) && files == old(files)
        && logFile == old(logFile) + ["Starting " + phase.Description(), BruteforceSkip(phase, config, context, o).value]
      ensures BruteforceSkip(phase, config, context, o).None? ==>
        var w := Sweeper(phase, config, config.wordlist.value, context, o);
        var r := w.Run(Clean(context.targets), SweepStart(phase, old(files)));
        && results == old(results) + [BruteforceRecord(phase, r, dataPath, o.now)]
        && logFile == old(logFile) + ["Starting " + phase.Description()] + w.Messages(Clean(context.targets), SweepStart(phase, old(files)))
        && files == if r.raised.None? && r.successful then old(files)[PhaseFile(phase) := r.entries] else old(files)
    {
      var description := phase.Description();
      Log("Starting " + description);
      if !Truthy(config.wordlist) {
        Log(description + ": no wordlist provided, skipping");
        AppendTwo(old(logFile), "Starting " + description, description + ": no wordlist provided, skipping");
        return;
      }
      if !o.onPath(phase.Executable()) {
        Log(description + ": command " + phase.Executable() + " not found, skipping");
        AppendTwo(old(logFile), "Starting " + description, description + ": command " + phase.Executable() + " not found, skipping");
        return;
      }
      var targets := Clean(context.targets);
      if targets == [] {
        Log(description + ": no valid targets provided, skipping");
        AppendTwo(old(logFile), "Starting " + description, description + ": no valid targets provided, skipping");
        return;
      }
      var w := Sweeper(phase, config, config.wordlist.value, context, o);
      RunPhase(w, targets);
    }

    /**
     * The recorded part of a phase: read the entries already in its file,
     * sweep the targets, rewrite the file when some command succeeded and none
     * raised, and complete the result record.
     */
    method RunPhase(w: Sweeper, targets: seq<string>)
      requires Valid()
      modifies this`results, this`files, this`logFile, this`logBuffer, this`queues
      ensures Valid()
      ensures var r := w.Run(targets, SweepStart(w.phase, old(files)));
        && results == old(results) + [BruteforceRecord(w.phase, r, dataPath, w.o.now)]
        && logFile == old(logFile) + w.Messages(targets, SweepStart(w.phase, old(files)))
        && files == if r.raised.None? && r.successful then old(files)[PhaseFile(w.phase) := r.entries] else old(files)
    {
      var entries, seen := StartSweep(w.phase);
      assert SweepStart(w.phase, old(files)) == Sweep(entries, false, None, None);
      var record := ToolResult(w.phase.StepName(), None, Some(PathIn(dataPath, PhaseFile(w.phase))), StepRunning, w.o.now, None, None);
      results := results + [record];
      var found, successful, finalCode, raised := SweepTargets(w, targets, entries, seen);
      ClosePhase(w.phase, old(results), record, Sweep(found, successful, finalCode, raised), w.o.now);
    }

    /**
     * Close a phase: rewrite its file with the entries when some command
     * succeeded and none raised, and complete its running record.
     */
    method ClosePhase(phase: Phase, ghost before: seq<ToolResult>, record: ToolResult, r: Sweep, now: Timestamp)
      requires record == ToolResult(phase.StepName(), None, Some(PathIn(dataPath, PhaseFile(phase))), StepRunning, now, None, None)
      requires results == before + [record]
      requires Valid()
      modifies this`results, this`files
      ensures Valid()
      ensures results == before + [BruteforceRecord(phase, r, dataPath, now)]
      ensures files == if r.raised.None? && r.successful then old(files)[PhaseFile(phase) := r.entries] else old(files)
    {
      if r.raised.None? && r.successful {
        files := files[PhaseFile(phase) := r.entries];
      }
      var done := CompletePhaseRecord(phase, record, r, now);
      ReplaceLast(before, record, done);
      results := results[|results| - 1 := done];
    }

    /** The entries a phase's file already holds, first occurrences in order, and the set of them. */
    method StartSweep(phase: Phase) returns (entries: seq<string>, seen: set<string>)
      ensures SweepStart(phase, files) == Sweep(entries, false, None, None)
      ensures forall x :: x in seen <==> x in entries
    {
      entries, seen := AppendNew([], {}, Lines(files, PhaseFile(phase)));
    }

    /** The phase's running record, completed with the outcome of its sweep. */
    method CompletePhaseRecord(phase: Phase, record: ToolResult, r: Sweep, now: Timestamp) returns (done: ToolResult)
      requires record == ToolResult(phase.StepName(), None, Some(PathIn(dataPath, PhaseFile(phase))), StepRunning, now, None, None)
      ensures done == BruteforceRecord(phase, r, dataPath, now)
    {
      done := record;
      if r.raised.Some? {
        done := done.(status := StepError, error := r.raised);
      } else {
        done := done.(status := if r.successful then StepCompleted else StepFailed, returnCode := r.finalCode);
      }
      done := done.(finishedAt := Some(now));
    }

    /**
     * Run a phase's command against each target in order, stopping at the
     * first one that cannot be started.
     */
    method SweepTargets(w: Sweeper, targets: seq<string>, entries: seq<string>, seen: set<string>)
      returns (entries': seq<string>, successful: bool, finalCode: Option<int>, raised: Option<string>)
      requires Valid() && (forall x :: x in seen <==> x in entries)
      modifies this`logFile, this`logBuffer, this`queues
      ensures Valid()
      ensures w.Run(targets, Sweep(entries, false, None, None)) == Sweep(entries', successful, finalCode, raised)
      ensures logFile == old(logFile) + w.Messages(targets, Sweep(entries, false, None, None))
    {
      ghost var start := Sweep(entries, false, None, None);
      var seen' := seen;
      entries', successful, finalCode, raised := entries, false, None, None;
      var i := 0;
      assert targets[..0] == [];
      while i < |targets| && raised.None?
        invariant 0 <= i <= |targets|
        invariant Valid()
        invariant forall x :: x in seen' <==> x in entries'
        invariant w.Run(targets[..i], start) == Sweep(entries', successful, finalCode, raised)
        invariant logFile == old(logFile) + w.Messages(targets[..i], start)
      {
        RunNext(w, targets, i, start);
        AppendAssoc(old(logFile), w.Messages(targets[..i], start), w.Report(targets[i]));
        entries', seen', successful, finalCode, raised := SweepTarget(w, targets[i], entries', seen', successful, finalCode);
        i := i + 1;
      }
      RunStopped(w, targets, i, start);
    }

    /**
     * Append to the history file the entries it does not hold yet, in
     * whatever order the set gives them, and log how many were appended.
     */
    method RenewWithAnew(entries: set<string>) returns (added: seq<string>)
      requires Valid()
      modifies this`files, this`logFile, this`logBuffer, this`queues
      ensures Valid()
      ensures Distinct(added)
      ensures forall x :: x in added <==> x in entries && x !in LineEntries(Lines(old(files), HistoryName))
      ensures files == if added == [] then old(files) else old(files)[HistoryName := Lines(old(files), HistoryName) + added]
      ensures logFile == old(logFile) + [AnewMessage(Lines(old(files), HistoryName), entries)]
    {
      var history := Lines(files, HistoryName);
      added := SelectNew(history, entries);
      if added == [] {
        Log("anew: no new entries to append");
        return;
      }
      files := files[HistoryName := history + added];
      Log("anew: appended " + IntToString(|added|) + " new entries to " + HistoryName);
    }

    /**
     * Probe the merged hosts with httpx: skipped when `subs.txt` is missing or
     * httpx is not on PATH; otherwise its output is logged and written to
     * `httpx_probed.txt`, and the path is returned when it exited with 0.
     */
    method ProbeWithHttpx(o: Oracles) returns (r: Result<Option<string>, string>)
      requires Valid()
      modifies this`files, this`logFile, this`logBuffer, this`queues
      ensures Valid()
      ensures r == ProbeResult(old(files), dataPath, o)
      ensures files == ProbedFiles(old(files), dataPath, o)
      ensures logFile == old(logFile) + ProbeReport(old(files), dataPath, o)
    {
      if MergedName !in files {
        Log("Merged file does not exist; skipping httpx probe");
        return Ok(None);
      }
      if !o.onPath(ProbeCommand(dataPath)[0]) {
        Log("httpx command not found; skipping probe");
        return Ok(None);
      }
      r := RunProbe(o);
    }

    /** The probe once httpx is known to be there: run it and take its output. */
    method RunProbe(o: Oracles) returns (r: Result<Option<string>, string>)
      requires Valid() && ProbeStarts(files, o)
      modifies this`files, this`logFile, this`logBuffer, this`queues
      ensures Valid()
      ensures r == ProbeResult(old(files), dataPath, o)
      ensures files == ProbedFiles(old(files), dataPath, o)
      ensures logFile == old(logFile) + ProbeReport(old(files), dataPath, o)
    {
      var command := ProbeCommand(dataPath);
      var outcome := RunCommand(command, PathIn(dataPath, ProbeName), map[], o.inherited, o.spawn);
      assert ProbeProcess(dataPath, o) == o.spawn(command, ChildEnvironment(o.inherited, map[]));
      if outcome.Raised? {
        return Err(outcome.reason);
      }
      LogAll("[httpx] ", outcome.messages);
      files := files[ProbeName := outcome.written];
      var line := if outcome.path.Some? then "httpx probe completed: " + PathIn(dataPath, ProbeName) else "httpx probe failed";
      Log(line);
      AppendAssoc(old(logFile), Prefixed("[httpx] ", outcome.messages), [line]);
      r := Ok(outcome.path);
    }

    /**
     * The merge proper: list the text artifacts, write every entry of them
     * other than `subs.txt`'s own once to `subs.txt`, and log the count.
     */
    method MergeInto() returns (order: seq<string>, merged: seq<string>, seen: set<string>)
      requires Valid()
      modifies this`files, this`mergedFile, this`logFile, this`logBuffer, this`queues
      ensures Valid()
      ensures Distinct(order) && (forall name :: name in order <==> name in TextArtifacts(old(files)))
      ensures merged == AddNew([], MergeInput(old(files), order))
      ensures seen == set x | x in merged
      ensures files == old(files)[MergedName := merged] && mergedFile == Some(PathIn(dataPath, MergedName))
      ensures logFile == old(logFile) + ["Merging artifacts", "Merged " + IntToString(|merged|) + " unique entries into " + MergedName]
    {
      Log("Merging artifacts");
      order, merged, seen := MergeTextArtifacts(files);
      files := files[MergedName := merged];
      mergedFile := Some(PathIn(dataPath, MergedName));
      var line := "Merged " + IntToString(|seen|) + " unique entries into " + MergedName;
      Log(line);
      AppendTwo(old(logFile), "Merging artifacts", line);
    }

    /**
     * The merge step of a job: merge the text artifacts into `subs.txt`, renew
     * the history file with the merged entries and probe the merged hosts. A
     * probe that cannot start httpx raises, which is the failure returned.
     */
    method MergeArtifacts(o: Oracles) returns (failure: Option<string>, order: seq<string>, merged: seq<string>, added: seq<string>)
      requires Valid()
      modifies this`files, this`mergedFile, this`probeFile, this`logFile, this`logBuffer, this`queues
      ensures Valid()
      ensures Distinct(order) && (forall name :: name in order <==> name in TextArtifacts(old(files)))
      ensures merged == AddNew([], MergeInput(old(files), order))
      ensures Distinct(added) && (forall x :: x in added <==> x in merged && x !in LineEntries(Lines(old(files), HistoryName)))
      ensures files == ProbedFiles(Renewed(old(files), merged, added), dataPath, o)
      ensures logFile == old(logFile) + MergeReport(|merged|, AnewMessage(Lines(old(files), HistoryName), set x | x in merged),
        ProbeReport(Renewed(old(files), merged, added), dataPath, o))
      ensures mergedFile == Some(PathIn(dataPath, MergedName))
      ensures failure == JobFailure(dataPath, o)
      ensures failure.None? ==> probeFile == ProbeResult(Renewed(old(files), merged, added), dataPath, o).value
      ensures failure.Some? ==> probeFile == old(probeFile)
    {
      var seen;
      order, merged, seen := MergeInto();
      assert Lines(files, HistoryName) == Lines(old(files), HistoryName);
      failure, added := RenewAndProbe(seen, o);
      MergeLog(old(logFile), |merged|, AnewMessage(Lines(old(files), HistoryName), seen),
        ProbeReport(Renewed(old(files), merged, added), dataPath, o));
    }

    /** After the merge: renew the history file with the merged entries, then probe the merged hosts. */
    method RenewAndProbe(seen: set<string>, o: Oracles) returns (failure: Option<string>, added: seq<string>)
      requires Valid() && MergedName in files
      modifies this`files, this`probeFile, this`logFile, this`logBuffer, this`queues
      ensures Valid()
      ensures Distinct(added) && (forall x :: x in added <==> x in seen && x !in LineEntries(Lines(old(files), HistoryName)))
      ensures files == ProbedFiles(Appended(old(files), added), dataPath, o)
      ensures logFile == old(logFile) + ([AnewMessage(Lines(old(files), HistoryName), seen)] + ProbeReport(Appended(old(files), added), dataPath, o))
      ensures failure == JobFailure(dataPath, o)
      ensures failure.None? ==> probeFile == ProbeResult(Appended(old(files), added), dataPath, o).value
      ensures failure.Some? ==> probeFile == old(probeFile)
    {
      added := RenewWithAnew(seen);
      ghost var renewed := files;
      assert renewed == Appended(old(files), added);
      ProbeFailure(renewed, dataPath, o);
      var probe := ProbeWithHttpx(o);
      if probe.Err? {
        failure := Some(probe.error);
      } else {
        failure := None;
        probeFile := probe.value;
      }
      AppendAssoc(old(logFile), [AnewMessage(Lines(old(files), HistoryName), seen)], ProbeReport(renewed, dataPath, o));
    }

    /** Run the tool steps one after the other, in the given order. */
    method RunTools(context: ToolContext, catalogue: map<string, ToolDefinition>, names: seq<string>, o: Oracles)
      requires Valid() && context.workdir == dataPath
      requires forall name :: name in names ==> name in catalogue
      modifies this`results, this`files, this`logFile, this`logBuffer, this`queues
      ensures Valid()
      ensures results == old(results) + ToolRecords(names, catalogue, context, o, dataPath)
      ensures logFile == old(logFile) + ToolsLog(names, catalogue, context, o)
    {
      var i := 0;
      assert names[..0] == [];
      while i < |names|
        invariant 0 <= i <= |names|
        invariant Valid()
        invariant results == old(results) + ToolRecords(names[..i], catalogue, context, o, dataPath)
        invariant logFile == old(logFile) + ToolsLog(names[..i], catalogue, context, o)
      {
        RunToolAt(context, catalogue, names, i, o, old(results), old(logFile));
        i := i + 1;
      }
      assert names[..i] == names;
    }

    /** The loop step of `RunTools`: run the tool at position `i`. */
    method RunToolAt(context: ToolContext, catalogue: map<string, ToolDefinition>, names: seq<string>, i: nat, o: Oracles,
                     ghost results0: seq<ToolResult>, ghost log0: seq<string>)
      requires Valid() && context.workdir == dataPath
      requires forall name :: name in names ==> name in catalogue
      requires i < |names|
      requires results == results0 + ToolRecords(names[..i], catalogue, context, o, dataPath)
      requires logFile == log0 + ToolsLog(names[..i], catalogue, context, o)
      modifies this`results, this`files, this`logFile, this`logBuffer, this`queues
      ensures Valid()
      ensures results == results0 + ToolRecords(names[..i + 1], catalogue, context, o, dataPath)
      ensures logFile == log0 + ToolsLog(names[..i + 1], catalogue, context, o)
    {
      var tool := catalogue[names[i]];
      ToolStepsNext(catalogue, context, o, dataPath, names, i);
      AppendAssoc(results0, ToolRecords(names[..i], catalogue, context, o, dataPath), [ToolRecord(tool, context, o, dataPath)]);
      AppendAssoc(log0, ToolsLog(names[..i], catalogue, context, o), ToolMessages(tool, context, o));
      RunTool(context, tool, o);
    }

    /**
     * The bruteforce phases of a run: the static phase and then the dynamic
     * one, each when the request enables it. A phase that runs adds one
     * result record; a skipped one adds none.
     */
    method RunPhases(context: ToolContext, staticConfig: BruteforceConfig, dynamicConfig: BruteforceConfig, o: Oracles)
      returns (ghost phases: seq<ToolResult>, ghost lines: seq<string>)
      requires Valid()
      modifies this`results, this`files, this`logFile, this`logBuffer, this`queues
      ensures Valid()
      ensures results == old(results) + phases
      ensures logFile == old(logFile) + lines
      ensures var runsStatic := PhaseRuns(Static, staticConfig, context, o);
        var runsDynamic := PhaseRuns(Dynamic, dynamicConfig, context, o);
        && |phases| == (if runsStatic then 1 else 0) + (if runsDynamic then 1 else 0)
        && (runsStatic ==> phases[0].tool == Static.StepName())
        && (runsDynamic ==> phases[|phases| - 1].tool == Dynamic.StepName())
    {
      var first, firstLines := RunEnabledPhase(context, staticConfig, Static, o);
      var second, secondLines := RunEnabledPhase(context, dynamicConfig, Dynamic, o);
      AppendAssoc(old(results), first, second);
      AppendAssoc(old(logFile), firstLines, secondLines);
      phases, lines := first + second, firstLines + secondLines;
    }

    /** One bruteforce phase when it is enabled; nothing at all when it is not. */
    method RunEnabledPhase(context: ToolContext, config: BruteforceConfig, phase: Phase, o: Oracles)
      returns (ghost record: seq<ToolResult>, ghost lines: seq<string>)
      requires Valid()
      modifies this`results, this`files, this`logFile, this`logBuffer, this`queues
      ensures Valid()
      ensures results == old(results) + record
      ensures logFile == old(logFile) + lines
      ensures |record| == if PhaseRuns(phase, config, context, o) then 1 else 0
      ensures PhaseRuns(phase, config, context, o) ==> record[0].tool == phase.StepName()
      ensures !config.enabled ==> lines == [] && files == old(files)
    {
      record, lines := [], [];
      if config.enabled {
        RunBruteforce(context, config, phase, o);
        if BruteforceSkip(phase, config, context, o).None? {
          record := [results[|results| - 1]];
        }
        lines := logFile[|old(logFile)|..];
        assert logFile == old(logFile) + lines;
      }
    }

    /**
     * The run of a job: fill in the bruteforce defaults, select the tools of
     * the catalogue and log their names, run each selected tool, then the
     * enabled bruteforce phases, then the merge. It raises only when the
     * probe cannot start httpx.
     */
    method RunJob(catalogue: map<string, ToolDefinition>, api: ApiSettings, o: Oracles)
      returns (failure: Option<string>, ghost lines: seq<string>)
      requires Valid()
      modifies this`request, this`results, this`files, this`mergedFile, this`probeFile, this`logFile, this`logBuffer, this`queues
      ensures Valid()
      ensures request == WithDefaults(old(request))
      ensures logFile == old(logFile) + lines
      ensures mergedFile == Some(PathIn(dataPath, MergedName))
      ensures failure == JobFailure(dataPath, o)
    {
      ApplyBruteforceDefaults();
      var names;
      ghost var phases, rest;
      failure, names, phases, rest := RunSteps(catalogue, request, api, o);
      ghost var resolved := ["Resolved tools: " + Join(names, ", ")];
      ghost var tools := ToolsLog(names, catalogue, JobContext(id, dataPath, request, api), o);
      AppendThree(old(logFile), resolved, tools, rest);
      lines := resolved + tools + rest;
    }

    /** The steps of a run, for the request once it has its defaults. */
    method RunSteps(catalogue: map<string, ToolDefinition>, req: JobRequest, api: ApiSettings, o: Oracles)
      returns (failure: Option<string>, names: seq<string>, ghost phases: seq<ToolResult>, ghost rest: seq<string>)
      requires Valid()
      modifies this`results, this`files, this`mergedFile, this`probeFile, this`logFile, this`logBuffer, this`queues
      ensures Valid()
      ensures Distinct(names) && (forall name :: name in names <==> Selected(catalogue, req, name))
      ensures forall name :: name in names ==> name in catalogue
      ensures var context := JobContext(id, dataPath, req, api);
        && results == old(results) + ToolRecords(names, catalogue, context, o, dataPath) + phases
        && logFile == old(logFile) + ["Resolved tools: " + Join(names, ", ")] + ToolsLog(names, catalogue, context, o) + rest
        && |phases| == (if PhaseRuns(Static, req.staticBruteforce, context, o) then 1 else 0)
                     + (if PhaseRuns(Dynamic, req.dynamicBruteforce, context, o) then 1 else 0)
      ensures mergedFile == Some(PathIn(dataPath, MergedName))
      ensures failure == JobFailure(dataPath, o)
    {
      var context := JobContext(id, dataPath, req, api);
      names := RunSelectedTools(catalogue, req, context, o);
      failure, phases, rest := RunPhasesAndMerge(context, req, o);
    }

    /** The part of a run after the tool steps: the bruteforce phases, then the merge. */
    method RunPhasesAndMerge(context: ToolContext, req: JobRequest, o: Oracles)
      returns (failure: Option<string>, ghost phases: seq<ToolResult>, ghost lines: seq<string>)
      requires Valid()
      modifies this`results, this`files, this`mergedFile, this`probeFile, this`logFile, this`logBuffer, this`queues
      ensures Valid()
      ensures results == old(results) + phases
      ensures logFile == old(logFile) + lines
      ensures |phases| == (if PhaseRuns(Static, req.staticBruteforce, context, o) then 1 else 0)
                        + (if PhaseRuns(Dynamic, req.dynamicBruteforce, context, o) then 1 else 0)
      ensures mergedFile == Some(PathIn(dataPath, MergedName))
      ensures failure == JobFailure(dataPath, o)
    {
      ghost var phaseLines;
      phases, phaseLines := RunPhases(context, req.staticBruteforce, req.dynamicBruteforce, o);
      ghost var before, recorded := files, results;
      var order, merged, added;
      failure, order, merged, added := MergeArtifacts(o);
      assert results == recorded;
      ghost var merging := MergeReport(|merged|, AnewMessage(Lines(before, HistoryName), set x | x in merged),
        ProbeReport(Renewed(before, merged, added), dataPath, o));
      lines := phaseLines + merging;
      AppendAssoc(old(logFile), phaseLines, merging);
    }

    /** Select the tools of the catalogue for a request, log their names, and run each of them. */
    method RunSelectedTools(catalogue: map<string, ToolDefinition>, req: JobRequest, context: ToolContext, o: Oracles)
      returns (names: seq<string>)
      requires Valid() && context.workdir == dataPath
      modifies this`results, this`files, this`logFile, this`logBuffer, this`queues
      ensures Valid()
      ensures Distinct(names) && (forall name :: name in names <==> Selected(catalogue, req, name))
      ensures forall name :: name in names ==> name in catalogue
      ensures results == old(results) + ToolRecords(names, catalogue, context, o, dataPath)
      ensures logFile == old(logFile) + ["Resolved tools: " + Join(names, ", ")] + ToolsLog(names, catalogue, context, o)
    {
      var tools := ResolveTools(catalogue, req);
      names := Enumerate(tools.Keys);
      Log("Resolved tools: " + Join(names, ", "));
      RunTools(context, catalogue, names, o);
    }

    /**
     * A job's execution: it becomes running and logs so, runs, and ends
     * completed, or failed with the error as its message when the run raised.
     */
    method Execute(catalogue: map<string, ToolDefinition>, api: ApiSettings, o: Oracles) returns (ghost body: seq<string>)
      requires Valid() && Lifecycle() && status == Queued
      modifies this`status, this`history, this`message, this`request, this`results, this`files, this`mergedFile, this`probeFile
      modifies this`logFile, this`logBuffer, this`queues
      ensures Valid() && Lifecycle()
      ensures history == old(history) + [Running, status]
      ensures Advances(old(status), Running) && Advances(Running, status)
      ensures request == WithDefaults(old(request))
      ensures status == (if JobFailure(dataPath, o).None? then Completed else Failed)
      ensures message == (if JobFailure(dataPath, o).None? then old(message) else JobFailure(dataPath, o))
      ensures mergedFile == Some(PathIn(dataPath, MergedName))
      ensures logFile == old(logFile) + ["Job started"] + body
        + [if JobFailure(dataPath, o).None? then "Job completed successfully" else "Job failed: " + JobFailure(dataPath, o).value]
    {
      BeginExecute();
      var failure;
      failure, body := RunJob(catalogue, api, o);
      FinishExecute(failure);
    }
  }

  // ---------------------------------------------------------------------------
  // The job manager
  // ---------------------------------------------------------------------------

  /** Why a lookup by job id or by artifact name fails. */
  datatype LookupError = JobNotFound(jobId: string) | FileNotFound(filename: string)

  /** A log stream just opened: its queue and the lines it replays first. */
  datatype LogStream = LogStream(queue: nat, replay: seq<string>)

  /** The names of the files in a job's data directory: its artifacts, and `job.log` once a line was logged. */
  function ArtifactNames(files: map<string, seq<string>>, logFile: seq<string>): set<string> {
    files.Keys + (if logFile != [] then {LogName} else {})
  }

  /** The name of a job's archive. */
  function ArchiveName(jobId: string): string {
    jobId + ".tar.gz"
  }

  /** The names in `names` other than `name`, in order. */
  function Without(names: seq<string>, name: string): (r: seq<string>)
    ensures forall x :: x in r <==> x in names && x != name
    ensures Distinct(names) ==> Distinct(r)
    decreases |names|
  {
    if names == [] then []
    else
      var last := names[|names| - 1];
      var init := names[..|names| - 1];
      assert Distinct(names) ==> last !in init;
      Without(init, name) + (if last == name then [] else [last])
  }

  /**
   * The table of jobs, each under its own id, with its data directory under
   * the data root; the settings it was made with.
   */
  class JobManager {
    const dataDir: string
    const maxConcurrency: nat
    const bufferLimit: nat
    const api: ApiSettings
    var jobs: map<string, Job>
    /** The ids of the jobs in the order they were created: the order of the table. */
    var ids: seq<string>

    /**
     * Every job is filed under its own id, in its own directory, keeps its log
     * hub consistent and has moved only forward; each id is listed once.
     */
    ghost predicate Valid()
      reads this`jobs, this`ids, jobs.Values`logFile, jobs.Values`logBuffer, jobs.Values`subscribers
      reads jobs.Values`queues, jobs.Values`nextQueue, jobs.Values`cursors, jobs.Values`status, jobs.Values`history
    {
      && maxConcurrency >= 1
      && Distinct(ids)
      && (forall jobId :: jobId in ids <==> jobId in jobs)
      && forall jobId :: jobId in jobs ==>
           && jobs[jobId].id == jobId
           && jobs[jobId].dataPath == PathIn(dataDir, jobId)
           && jobs[jobId].bufferLimit == bufferLimit
           && jobs[jobId].Valid()
           && jobs[jobId].Lifecycle()
    }

    /** A manager with no jobs; the settings require a concurrency of at least one. */
    constructor (dataDir: string, maxConcurrency: nat, bufferLimit: nat, api: ApiSettings)
      requires maxConcurrency >= 1
      ensures Valid() && jobs == map[] && ids == []
      ensures this.dataDir == dataDir && this.maxConcurrency == maxConcurrency
      ensures this.bufferLimit == bufferLimit && this.api == api
    {
      this.dataDir := dataDir;
      this.maxConcurrency := maxConcurrency;
      this.bufferLimit := bufferLimit;
      this.api := api;
      jobs := map[];
      ids := [];
    }

    /** A job under a new id, queued, with an empty data directory and log. */
    method CreateJob(jobId: string, request: JobRequest) returns (job: Job)
      requires Valid() && jobId !in jobs
      modifies this`jobs, this`ids
      ensures Valid() && fresh(job)
      ensures jobs == old(jobs)[jobId := job] && ids == old(ids) + [jobId]
      ensures job.id == jobId && job.request == request && job.dataPath == PathIn(dataDir, jobId)
      ensures job.status == Queued && job.results == [] && job.files == map[] && job.logFile == []
      ensures GetJob(jobId) == Ok(job)
    {
      job := new Job(jobId, request, PathIn(dataDir, jobId), bufferLimit);
      jobs := jobs[jobId := job];
      ids := ids + [jobId];
    }

    /** The job of an id, or the error for an unknown id. */
    function GetJob(jobId: string): (r: Result<Job, LookupError>)
      reads this
      ensures r.Ok? <==> jobId in jobs
      ensures r.Ok? ==> r.value == jobs[jobId]
      ensures r.Err? ==> r.error == JobNotFound(jobId)
    {
      if jobId in jobs then Ok(jobs[jobId]) else Err(JobNotFound(jobId))
    }

    /** Every job of the table, one entry per id, in the order the jobs were created. */
    method ListJobs() returns (r: seq<Job>)
      requires Valid()
      ensures |r| == |ids| && forall i :: 0 <= i < |r| ==> r[i] == jobs[ids[i]]
      ensures forall i :: 0 <= i < |r| ==> r[i] in jobs.Values
      ensures forall jobId :: jobId in jobs ==> jobs[jobId] in r
    {
      var table, order := jobs, ids;
      r := seq(|order|, i requires 0 <= i < |order| && order[i] in table => table[order[i]]);
      forall jobId | jobId in table
        ensures table[jobId] in r
      {
        var i :| 0 <= i < |order| && order[i] == jobId;
        assert r[i] == table[jobId];
      }
    }

    /**
     * Run a job to its end: it becomes running, runs over the tool catalogue,
     * and ends completed, or failed when the run raised. The other jobs are
     * untouched.
     */
    method Run(jobId: string, o: Oracles) returns (ghost body: seq<string>)
      requires Valid() && jobId in jobs && jobs[jobId].status == Queued
      modifies jobs[jobId]
      ensures Valid() && jobs == old(jobs)
      ensures var job := jobs[jobId];
        && job.history == old(job.history) + [Running, job.status]
        && job.status == (if JobFailure(job.dataPath, o).None? then Completed else Failed)
        && job.request == WithDefaults(old(job.request))
        && job.mergedFile == Some(PathIn(job.dataPath, MergedName))
    {
      var job := jobs[jobId];
      body := job.Execute(BuildToolDefinitions(), api, o);
    }

    /** A job's artifacts: the paths of the files of its data directory, in sorted order. */
    method GetArtifacts(jobId: string) returns (r: Result<seq<string>, LookupError>, names: seq<string>)
      ensures jobId !in jobs ==> r == Err(JobNotFound(jobId))
      ensures jobId in jobs ==>
        var job := jobs[jobId];
        && StrictlySorted(names)
        && (forall name :: name in names <==> name in ArtifactNames(job.files, job.logFile))
        && r.Ok? && |r.value| == |names|
        && (forall i :: 0 <= i < |names| ==> r.value[i] == PathIn(job.dataPath, names[i]))
    {
      names := [];
      if jobId !in jobs {
        return Err(JobNotFound(jobId)), names;
      }
      var job := jobs[jobId];
      names := SortStrings(ArtifactNames(job.files, job.logFile));
      var dataPath := job.dataPath;
      r := Ok(seq(|names|, i requires 0 <= i < |names| => PathIn(dataPath, names[i])));
    }

    /** One artifact of a job, by file name: its path when the file exists. */
    function GetArtifact(jobId: string, filename: string): (r: Result<string, LookupError>)
      reads this, jobs.Values
      ensures jobId !in jobs ==> r == Err(JobNotFound(jobId))
      ensures jobId in jobs ==>
        && (r.Ok? <==> filename in ArtifactNames(jobs[jobId].files, jobs[jobId].logFile))
        && (r.Ok? ==> r.value == PathIn(jobs[jobId].dataPath, filename))
        && (r.Err? ==> r.error == FileNotFound(filename))
    {
      if jobId !in jobs then Err(JobNotFound(jobId))
      else
        var job := jobs[jobId];
        if filename in ArtifactNames(job.files, job.logFile) then Ok(PathIn(job.dataPath, filename))
        else Err(FileNotFound(filename))
    }

    /**
     * Pack a job's data directory into `<id>.tar.gz` in that directory: every
     * file other than the archive itself, under its own name. The archive is
     * represented by the names of its members.
     */
    method BuildArchive(jobId: string) returns (r: Result<string, LookupError>, members: seq<string>)
      requires Valid()
      modifies if jobId in jobs then {jobs[jobId]} else {}
      ensures Valid() && jobs == old(jobs)
      ensures jobId !in jobs ==> r == Err(JobNotFound(jobId))
      ensures jobId in jobs ==>
        var job := jobs[jobId];
        && r == Ok(PathIn(job.dataPath, ArchiveName(jobId)))
        && Distinct(members)
        && (forall name :: name in members <==> name in ArtifactNames(old(job.files), job.logFile) && name != ArchiveName(jobId))
        && job.files == old(job.files)[ArchiveName(jobId) := members]
    {
      members := [];
      if jobId !in jobs {
        return Err(JobNotFound(jobId)), members;
      }
      var job := jobs[jobId];
      var archive := ArchiveName(jobId);
      var listed := Enumerate(ArtifactNames(job.files, job.logFile));
      members := Without(listed, archive);
      job.files := job.files[archive := members];
      r := Ok(PathIn(job.dataPath, archive));
    }

    /**
     * Open a log stream on a job: a fresh queue joins its subscribers, and the
     * lines in its buffer are replayed first.
     */
    method OpenLogStream(jobId: string) returns (r: Result<LogStream, LookupError>)
      requires Valid()
      modifies if jobId in jobs then {jobs[jobId]} else {}
      ensures Valid() && jobs == old(jobs)
      ensures jobId !in jobs ==> r == Err(JobNotFound(jobId))
      ensures jobId in jobs ==>
        var job := jobs[jobId];
        && r.Ok?
        && r.value.queue !in old(job.subscribers) && job.subscribers == old(job.subscribers) + [r.value.queue]
        && r.value.replay == job.logBuffer
        && r.value.replay == job.logFile[|job.logFile| - |r.value.replay|..]
        && job.queues[r.value.queue] == []
    {
      if jobId !in jobs {
        return Err(JobNotFound(jobId));
      }
      var job := jobs[jobId];
      var q, replay := job.Subscribe();
      r := Ok(LogStream(q, replay));
    }
  }
}
