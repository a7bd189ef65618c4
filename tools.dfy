/**
 * The tool catalogue and the two ways a tool is run: an external command whose
 * output lines are captured to a file, and the built-in crt.sh certificate
 * lookup. Subprocesses, the PATH lookup and the HTTP client are oracles given
 * as function parameters.
 */
module Tools {
  import opened Wrappers
  import opened Text

  /** What every tool run is given: the job, its targets, its directory and environment. */
  datatype ToolContext = ToolContext(
    jobId: string,
    targets: seq<string>,
    workdir: string,
    environment: map<string, string>)

  /** The command builder `simple_command` makes: a tool name and fixed arguments. */
  datatype CommandBuilder = SimpleBuilder(tool: string, args: seq<string>)

  /** The built-in runners; crt.sh is the only one. */
  datatype CustomRunner = CrtShRunner

  datatype ToolDefinition = ToolDefinition(
    name: string,
    commandBuilder: Option<CommandBuilder>,
    outputFile: Option<string>,
    description: string,
    optional: bool,
    customRunner: Option<CustomRunner>)

  /** Python truthiness of an optional string: present and non-empty. */
  predicate Truthy(s: Option<string>) {
    s.Some? && s.value != []
  }

  /** Running a builder: the tool, its fixed arguments, then every target in order. */
  function Build(b: CommandBuilder, context: ToolContext): (cmd: seq<string>)
    ensures |cmd| == 1 + |b.args| + |context.targets|
    ensures cmd[0] == b.tool
    ensures cmd[1..1 + |b.args|] == b.args
    ensures cmd[1 + |b.args|..] == context.targets
  {
    var command := [b.tool] + b.args;
    if context.targets != [] then command + context.targets else command
  }

  /**
   * A definition that runs `tool` with fixed arguments and writes to `output`,
   * or to `<tool>.txt` when no output name is given.
   */
  function SimpleCommand(tool: string, args: seq<string>, output: Option<string>): (d: ToolDefinition)
    ensures d.name == tool && d.customRunner.None?
    ensures d.commandBuilder == Some(SimpleBuilder(tool, args))
    ensures Truthy(d.outputFile)
    ensures d.outputFile.value == if Truthy(output) then output.value else tool + ".txt"
  {
    ToolDefinition(tool, Some(SimpleBuilder(tool, args)),
      Some(if Truthy(output) then output.value else tool + ".txt"), "", true, None)
  }

  const CrtShName := "crtsh"
  const CrtShOutput := CrtShName + ".txt"

  /** The fifteen command tools of the catalogue, each with its fixed arguments. */
  const CommandArgs: map<string, seq<string>> := map[
    "waybackurls" := [],
    "gau" := [],
    "waymore" := [],
    "subfinder" := ["-silent"],
    "chaos" := ["-silent"],
    "github-subdomains" := [],
    "gitlab-subdomains" := [],
    "source_scan" := [],
    "urlfinder" := [],
    "httpx" := ["-silent"],
    "dnsx" := ["-silent"],
    "puredns" := ["resolve"],
    "shuffledns" := ["-silent"],
    "gotator" := [],
    "alterx" := []
  ]

  /** crt.sh is not one of the command tools. */
  lemma CrtShIsNoCommand()
    ensures CrtShName !in CommandArgs
  {
  }

  /** The command tools' definitions, each writing to `<name>.txt`. */
  function CommandDefinitions(): (commands: map<string, ToolDefinition>)
    ensures commands.Keys == CommandArgs.Keys
    ensures forall name :: name in commands ==>
      && commands[name].name == name && commands[name].customRunner.None?
      && Truthy(commands[name].outputFile) && commands[name].outputFile.value == name + ".txt"
      && commands[name].commandBuilder == Some(SimpleBuilder(name, CommandArgs[name]))
  {
    map name | name in CommandArgs :: SimpleCommand(name, CommandArgs[name], Some(name + ".txt"))
  }

  /**
   * The catalogue: crt.sh plus the command tools, each of which is given the
   * output name `<name>.txt`. Every key is its definition's name and writes to
   * `<name>.txt`; crt.sh alone has a built-in runner, every other tool is a
   * command whose executable is the tool's own name.
   */
  function BuildToolDefinitions(): (table: map<string, ToolDefinition>)
    ensures table.Keys == CommandArgs.Keys + {CrtShName}
    ensures forall name :: name in table ==> table[name].name == name
    ensures forall name :: name in table ==>
      Truthy(table[name].outputFile) && table[name].outputFile.value == name + ".txt"
    ensures forall name :: name in table ==> (table[name].customRunner.Some? <==> name == CrtShName)
    ensures forall name :: name in table && name != CrtShName ==>
      table[name].commandBuilder == Some(SimpleBuilder(name, CommandArgs[name]))
  {
    CrtShIsNoCommand();
    CommandDefinitions()[CrtShName := ToolDefinition(CrtShName, None, Some(CrtShOutput), "Fetches certificates from crt.sh", true, Some(CrtShRunner))]  }

  /**
   * Whether a tool can run: a built-in runner always can; a command can when
   * the first word of the command built for no targets is found on PATH.
   */
  function IsAvailable(d: ToolDefinition, onPath: string -> bool): (r: bool)
    ensures d.customRunner.Some? ==> r
    ensures d.customRunner.None? && d.commandBuilder.None? ==> !r
    ensures d.customRunner.None? && d.commandBuilder.Some? ==> (r <==> onPath(d.commandBuilder.value.tool))
  {
    if d.customRunner.Some? then true
    else if d.commandBuilder.None? then false
    else
      var cmd := Build(d.commandBuilder.value, ToolContext("_", [], "", map[]));
      if cmd == [] then false else onPath(cmd[0])
  }

  /** Over the catalogue: a tool is available exactly when it is crt.sh or its own name is on PATH. */
  lemma TableAvailability(name: string, onPath: string -> bool)
    requires name in BuildToolDefinitions()
    ensures IsAvailable(BuildToolDefinitions()[name], onPath) <==> name == CrtShName || onPath(name)
  {
  }

  // ---------------------------------------------------------------------------
  // run_command
  // ---------------------------------------------------------------------------

  /**
   * The environment a child process gets: the inherited one, overridden by the
   * given variables when there are any; otherwise the inherited one unchanged.
   */
  function ChildEnvironment(inherited: map<string, string>, environment: map<string, string>): (env: map<string, string>)
    ensures env.Keys == inherited.Keys + environment.Keys
    ensures forall k :: k in environment ==> env[k] == environment[k]
    ensures forall k :: k in inherited && k !in environment ==> env[k] == inherited[k]
  {
    if environment != map[] then inherited + environment else inherited
  }

  /** What the process oracle reports: the combined output lines and the exit code, or a failure to start. */
  datatype ProcessOutcome = Exited(lines: seq<string>, code: int) | SpawnFailed(reason: string)

  /**
   * The result of `run_command`: the output path (absent on a non-zero exit),
   * the exit code, the lines written to the output file and the messages
   * logged; or the exception it raised.
   */
  datatype CommandOutcome =
    | Finished(path: Option<string>, code: int, written: seq<string>, messages: seq<string>)
    | Raised(reason: string)

  /** Every line right-stripped: what is written to the output file for the process's lines. */
  function RStripAll(lines: seq<string>): (r: seq<string>)
    ensures |r| == |lines|
    ensures forall i :: 0 <= i < |lines| ==> r[i] == RStrip(lines[i])
  {
    seq(|lines|, i requires 0 <= i < |lines| => RStrip(lines[i]))
  }

  /** The message logged once the process has exited. */
  function FinishedMessage(command: seq<string>, code: int): string {
    "Command " + Join(command, " ") + " finished with code " + IntToString(code)
  }

  /**
   * Run `command` with the given environment. Each output line is
   * right-stripped, logged and written to the output file, in order; then the
   * exit code is logged. The output path is returned exactly when the exit
   * code is zero.
   */
  method RunCommand(
    command: seq<string>, outputPath: string, environment: map<string, string>,
    inherited: map<string, string>, spawn: (seq<string>, map<string, string>) -> ProcessOutcome)
    returns (outcome: CommandOutcome)
    ensures spawn(command, ChildEnvironment(inherited, environment)).SpawnFailed? ==>
      outcome == Raised(spawn(command, ChildEnvironment(inherited, environment)).reason)
    ensures spawn(command, ChildEnvironment(inherited, environment)).Exited? ==>
      var p := spawn(command, ChildEnvironment(inherited, environment));
      && outcome.Finished?
      && outcome.code == p.code
      && (outcome.path.None? <==> p.code != 0)
      && (outcome.path.Some? ==> outcome.path.value == outputPath)
      && outcome.written == RStripAll(p.lines)
      && outcome.messages == outcome.written + [FinishedMessage(command, p.code)]
  {
    var p := spawn(command, ChildEnvironment(inherited, environment));
    if p.SpawnFailed? {
      return Raised(p.reason);
    }
    var written: seq<string> := [];
    var messages: seq<string> := [];
    var i := 0;
    while i < |p.lines|
      invariant 0 <= i <= |p.lines|
      invariant |written| == i
      invariant forall k :: 0 <= k < i ==> written[k] == RStrip(p.lines[k])
      invariant messages == written
    {
      var text := RStrip(p.lines[i]);
      messages := messages + [text];
      written := written + [text];
      i := i + 1;
    }
    messages := messages + [FinishedMessage(command, p.code)];
    assert written == RStripAll(p.lines);
    if p.code != 0 {
      return Finished(None, p.code, written, messages);
    }
    return Finished(Some(outputPath), p.code, written, messages);
  }

  // ---------------------------------------------------------------------------
  // crt.sh
  // ---------------------------------------------------------------------------

  /**
   * What the certificate lookup for one target gives: the `name_value` of each
   * certificate record (absent when the record has none); or, when an error
   * was raised, the `name_value`s of the records read before it and the error.
   * An error of the request or of the decoding comes before any record.
   */
  datatype CrtShResponse =
    | Certificates(nameValues: seq<Option<string>>)
    | LookupFailed(gathered: seq<Option<string>>, reason: string)

  /** The stripped, non-blank lines of `lines`, as a set. */
  function LineEntries(lines: seq<string>): set<string>
    decreases |lines|
  {
    if lines == [] then {}
    else
      var clean := Strip(lines[|lines| - 1]);
      LineEntries(lines[..|lines| - 1]) + (if clean != [] then {clean} else {})
  }

  /** The names one `name_value` contributes: its non-blank lines, stripped. */
  function NameValueNames(nameValue: Option<string>): set<string> {
    if Truthy(nameValue) then LineEntries(Split(nameValue.value, '\n')) else {}
  }

  /** The names of all certificate records of one response. */
  function CertificateNames(nameValues: seq<Option<string>>): set<string>
    decreases |nameValues|
  {
    if nameValues == [] then {}
    else CertificateNames(nameValues[..|nameValues| - 1]) + NameValueNames(nameValues[|nameValues| - 1])
  }

  function LookupNames(response: CrtShResponse): set<string> {
    match response
    case Certificates(nameValues) => CertificateNames(nameValues)
    case LookupFailed(gathered, _) => CertificateNames(gathered)
  }

  /** The names reported over all targets. */
  function ReportedNames(targets: seq<string>, lookup: string -> CrtShResponse): set<string>
    decreases |targets|
  {
    if targets == [] then {}
    else ReportedNames(targets[..|targets| - 1], lookup) + LookupNames(lookup(targets[|targets| - 1]))
  }

  /** The message logged for one target. */
  function LookupMessage(target: string, response: CrtShResponse): string {
    match response
    case Certificates(nameValues) =>
      "crt.sh retrieved " + NatToString(|nameValues|) + " certificates for " + target
    case LookupFailed(_, reason) => "crt.sh lookup failed for " + target + ": " + reason
  }

  /** One message per target, in target order. */
  function LookupMessages(targets: seq<string>, lookup: string -> CrtShResponse): (r: seq<string>)
    ensures |r| == |targets|
    decreases |targets|
  {
    if targets == [] then []
    else
      var last := targets[|targets| - 1];
      LookupMessages(targets[..|targets| - 1], lookup) + [LookupMessage(last, lookup(last))]
  }

  const NoEntriesMessage := "No crt.sh entries found"

  /** Everything the crt.sh runner logs: a line per target, then a note when nothing was found. */
  function CrtShMessages(targets: seq<string>, lookup: string -> CrtShResponse): seq<string> {
    LookupMessages(targets, lookup) + (if ReportedNames(targets, lookup) == {} then [NoEntriesMessage] else [])
  }

  /** A name is among the entries of some lines exactly when it is a non-blank line, stripped. */
  lemma {:induction false} LineEntriesSpec(lines: seq<string>, x: string)
    ensures x in LineEntries(lines) <==> x != [] && exists i :: 0 <= i < |lines| && Strip(lines[i]) == x
    decreases |lines|
  {
    if lines != [] {
      var n := |lines| - 1;
      var init := lines[..n];
      LineEntriesSpec(init, x);
      if x in LineEntries(lines) && x !in LineEntries(init) {
        assert Strip(lines[n]) == x;
      }
      if x != [] && exists i :: 0 <= i < |lines| && Strip(lines[i]) == x {
        var i :| 0 <= i < |lines| && Strip(lines[i]) == x;
        if i < n {
          assert init[i] == lines[i];
        }
      }
    }
  }

  /**
   * A name is in a `name_value`'s contribution exactly when it is the stripped
   * form of one of its lines and not blank.
   */
  lemma NameValueNamesSpec(nameValue: Option<string>, x: string)
    ensures x in NameValueNames(nameValue) <==>
      nameValue.Some? && x != [] &&
      exists line :: line in Split(nameValue.value, '\n') && Strip(line) == x
  {
    if nameValue.Some? {
      var lines := Split(nameValue.value, '\n');
      LineEntriesSpec(lines, x);
      if nameValue.value == [] {
        assert lines == [[]];
        assert Strip([]) == [];
      }
      if exists line :: line in lines && Strip(line) == x {
        var line :| line in lines && Strip(line) == x;
        var i :| 0 <= i < |lines| && lines[i] == line;
      }
    }
  }

  /**
   * A name comes from a sequence of certificate records exactly when one of
   * the records contributes it; for a lookup that failed part-way, these are
   * the records read before the error.
   */
  lemma {:induction false} CertificateNamesSpec(nameValues: seq<Option<string>>, x: string)
    ensures x in CertificateNames(nameValues) <==>
      exists k :: 0 <= k < |nameValues| && x in NameValueNames(nameValues[k])
    decreases |nameValues|
  {
    if nameValues != [] {
      var n := |nameValues| - 1;
      var init := nameValues[..n];
      CertificateNamesSpec(init, x);
      if x in CertificateNames(init) {
        var k :| 0 <= k < |init| && x in NameValueNames(init[k]);
        assert nameValues[k] == init[k];
      }
      if exists k :: 0 <= k < |nameValues| && x in NameValueNames(nameValues[k]) {
        var k :| 0 <= k < |nameValues| && x in NameValueNames(nameValues[k]);
        if k < n {
          assert init[k] == nameValues[k];
        }
      }
    }
  }

  /**
   * A name is reported exactly when the lookup of some target yielded it: a
   * failed lookup keeps what it gathered before its error, and takes nothing
   * away from the other targets.
   */
  lemma {:induction false} ReportedNamesSpec(targets: seq<string>, lookup: string -> CrtShResponse, x: string)
    ensures x in ReportedNames(targets, lookup) <==>
      exists j :: 0 <= j < |targets| && x in LookupNames(lookup(targets[j]))
    decreases |targets|
  {
    if targets != [] {
      var n := |targets| - 1;
      var init := targets[..n];
      ReportedNamesSpec(init, lookup, x);
      assert ReportedNames(targets, lookup) == ReportedNames(init, lookup) + LookupNames(lookup(targets[n]));
      if x in ReportedNames(targets, lookup) {
        if x in ReportedNames(init, lookup) {
          var j :| 0 <= j < |init| && x in LookupNames(lookup(init[j]));
          assert targets[j] == init[j];
        } else {
          assert x in LookupNames(lookup(targets[n]));
        }
      } else {
        forall j | 0 <= j < |targets|
          ensures x !in LookupNames(lookup(targets[j]))
        {
          if j < n {
            assert targets[j] == init[j];
          }
        }
      }
    }
  }

  /**
   * The crt.sh runner: look every target up, collect the names of all
   * certificates, and write them to `crtsh.txt` sorted and without
   * duplicates. A failed lookup is logged and the remaining targets are still
   * looked up; when nothing was found that is logged too. The file is always
   * written, so its path is always returned.
   */
  method RunCrtSh(context: ToolContext, lookup: string -> CrtShResponse)
    returns (written: seq<string>, messages: seq<string>, path: Option<string>)
    ensures StrictlySorted(written)
    ensures forall x :: x in written <==> x in ReportedNames(context.targets, lookup)
    ensures messages == CrtShMessages(context.targets, lookup)
    ensures path == Some(CrtShOutput)
  {
    var targets := context.targets;
    var entries: set<string> := {};
    messages := [];
    var i := 0;
    while i < |targets|
      invariant 0 <= i <= |targets|
      invariant entries == ReportedNames(targets[..i], lookup)
      invariant messages == LookupMessages(targets[..i], lookup)
    {
      var target := targets[i];
      assert targets[..i + 1][..i] == targets[..i];
      match lookup(target) {
        case LookupFailed(gathered, reason) =>
          entries := CollectCertificates(entries, gathered);
          messages := messages + ["crt.sh lookup failed for " + target + ": " + reason];
        case Certificates(nameValues) =>
          entries := CollectCertificates(entries, nameValues);
          messages := messages + ["crt.sh retrieved " + NatToString(|nameValues|) + " certificates for " + target];
      }
      i := i + 1;
    }
    assert targets[..|targets|] == targets;
    if entries == {} {
      messages := messages + [NoEntriesMessage];
    }
    written := SortStrings(entries);
    path := Some(CrtShOutput);
  }

  /** The loop over one response's certificate records, adding each record's names. */
  method CollectCertificates(entries: set<string>, nameValues: seq<Option<string>>) returns (r: set<string>)
    ensures r == entries + CertificateNames(nameValues)
  {
    r := entries;
    var j := 0;
    while j < |nameValues|
      invariant 0 <= j <= |nameValues|
      invariant r == entries + CertificateNames(nameValues[..j])
    {
      assert nameValues[..j + 1][..j] == nameValues[..j];
      var nameValue := nameValues[j];
      if Truthy(nameValue) {
        var lines := Split(nameValue.value, '\n');
        var k := 0;
        ghost var before := r;
        while k < |lines|
          invariant 0 <= k <= |lines|
          invariant r == before + LineEntries(lines[..k])
        {
          assert lines[..k + 1][..k] == lines[..k];
          var clean := Strip(lines[k]);
          if clean != [] {
            r := r + {clean};
          }
          k := k + 1;
        }
        assert lines[..|lines|] == lines;
      }
      j := j + 1;
    }
    assert nameValues[..|nameValues|] == nameValues;
  }
}
