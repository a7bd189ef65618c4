/**
 * The records the job engine works on: the job status enumeration, the
 * bruteforce phase configuration, the job request with its validator, and the
 * per-step result record.
 */
module Models {
  import opened Wrappers

  /** The lifecycle states of a job, with the string each one is sent as. */
  datatype JobStatus = Queued | Running | Completed | Failed | Cancelled {
    function Value(): string {
      match this
      case Queued => "queued"
      case Running => "running"
      case Completed => "completed"
      case Failed => "failed"
      case Cancelled => "cancelled"
    }
  }

  /** Reading a status back from its string value, as the `str` enum does. */
  function ParseJobStatus(s: string): (r: Option<JobStatus>)
    ensures r.Some? ==> r.value.Value() == s
    ensures r.None? ==> forall st: JobStatus :: st.Value() != s
  {
    if s == "queued" then Some(Queued)
    else if s == "running" then Some(Running)
    else if s == "completed" then Some(Completed)
    else if s == "failed" then Some(Failed)
    else if s == "cancelled" then Some(Cancelled)
    else None
  }

  /** The five values are pairwise distinct, so each one reads back as itself. */
  lemma JobStatusRoundTrip(st: JobStatus)
    ensures ParseJobStatus(st.Value()) == Some(st)
  {
  }

  /** Why a request or a configuration is refused at construction. */
  datatype ValidationError =
    | NoTargets            // "At least one target must be provided"
    | ThreadsBelowOne(threads: int)

  /** One bruteforce phase (static or dynamic) of a request. */
  datatype BruteforceConfig = BruteforceConfig(
    enabled: bool,
    wordlist: Option<string>,
    resolvers: Option<string>,
    threads: Option<int>,
    tools: seq<string>)
  {
    /** The field constraint on `threads`: absent, or at least 1. */
    predicate Valid() {
      threads.Some? ==> threads.value >= 1
    }
  }

  /** The configuration a request gets for a phase it does not mention. */
  function DefaultBruteforceConfig(): (c: BruteforceConfig)
    ensures c.Valid()
    ensures !c.enabled && c.wordlist.None? && c.resolvers.None? && c.threads.None? && c.tools == []
  {
    BruteforceConfig(false, None, None, None, [])
  }

  /** Constructing a configuration: refused exactly when `threads` is below 1. */
  function NewBruteforceConfig(
    enabled: bool, wordlist: Option<string>, resolvers: Option<string>,
    threads: Option<int>, tools: seq<string>): (r: Result<BruteforceConfig, ValidationError>)
    ensures r.Ok? <==> (threads.None? || threads.value >= 1)
    ensures r.Ok? ==> r.value.Valid() && r.value == BruteforceConfig(enabled, wordlist, resolvers, threads, tools)
    ensures r.Err? ==> r.error == ThreadsBelowOne(threads.value)
  {
    if threads.Some? && threads.value < 1 then Err(ThreadsBelowOne(threads.value))
    else Ok(BruteforceConfig(enabled, wordlist, resolvers, threads, tools))
  }

  /** A job submission. */
  datatype JobRequest = JobRequest(
    targets: seq<string>,
    tools: Option<seq<string>>,
    excludeTools: seq<string>,
    staticBruteforce: BruteforceConfig,
    dynamicBruteforce: BruteforceConfig,
    environment: map<string, string>)
  {
    predicate Valid() {
      targets != [] && staticBruteforce.Valid() && dynamicBruteforce.Valid()
    }
  }

  /**
   * Constructing a request: refused with `NoTargets` when the target list is
   * empty (the validator on `targets`), and with the phase's error when a
   * bruteforce configuration breaks its own constraint.
   */
  function NewJobRequest(
    targets: seq<string>, tools: Option<seq<string>>, excludeTools: seq<string>,
    staticBruteforce: BruteforceConfig, dynamicBruteforce: BruteforceConfig,
    environment: map<string, string>): (r: Result<JobRequest, ValidationError>)
    ensures r.Ok? <==> targets != [] && staticBruteforce.Valid() && dynamicBruteforce.Valid()
    ensures r.Ok? ==> r.value.Valid()
    ensures r.Ok? ==> r.value == JobRequest(targets, tools, excludeTools, staticBruteforce, dynamicBruteforce, environment)
    ensures targets == [] ==> r == Err(NoTargets)
  {
    if targets == [] then Err(NoTargets)
    else if !staticBruteforce.Valid() then Err(ThreadsBelowOne(staticBruteforce.threads.value))
    else if !dynamicBruteforce.Valid() then Err(ThreadsBelowOne(dynamicBruteforce.threads.value))
    else Ok(JobRequest(targets, tools, excludeTools, staticBruteforce, dynamicBruteforce, environment))
  }

  /** A request that names only its targets: every other field takes its default. */
  function RequestFor(targets: seq<string>): Result<JobRequest, ValidationError> {
    NewJobRequest(targets, None, [], DefaultBruteforceConfig(), DefaultBruteforceConfig(), map[])
  }

  /**
   * The defaults: no explicit tool list, nothing excluded, an empty
   * environment and both bruteforce phases disabled; only an empty target
   * list is refused.
   */
  lemma RequestDefaults(targets: seq<string>)
    ensures RequestFor(targets).Ok? <==> targets != []
    ensures RequestFor(targets).Ok? ==>
      var r := RequestFor(targets).value;
      r.tools.None? && r.excludeTools == [] && r.environment == map[]
      && !r.staticBruteforce.enabled && !r.dynamicBruteforce.enabled
  {
  }

  /** The state of one step's result record. */
  datatype StepStatus = StepRunning | StepCompleted | StepFailed | StepSkipped | StepError {
    function Value(): string {
      match this
      case StepRunning => "running"
      case StepCompleted => "completed"
      case StepFailed => "failed"
      case StepSkipped => "skipped"
      case StepError => "error"
    }
  }

  /** A clock reading; the model never looks inside it. */
  type Timestamp = int

  /**
   * The outcome of one tool step. `tool`, `status` and `startedAt` are always
   * present; the other fields are optional.
   */
  datatype ToolResult = ToolResult(
    tool: string,
    returnCode: Option<int>,
    outputFile: Option<string>,
    status: StepStatus,
    startedAt: Timestamp,
    finishedAt: Option<Timestamp>,
    error: Option<string>)
}
