/**
 * The Docker script runner: the exact `docker run` argument vector for an
 * analysis, the rule that turns the process's end into success or an error
 * message, the cached answer to "is Docker available", and the map of
 * running containers that stop, remove and kill keep.
 *
 * Spawning, streaming and timers are not modelled: what the host answers
 * (does a file exist, how did a command end) is passed in.
 */
module Docker {
  import opened Wrappers
  import opened JsStrings
  import opened NodePath
  import opened OsDetection

  /** `DockerRunConfig`: numeric thresholds are kept as the text `toString()` gives them. */
  datatype DockerRunConfig = DockerRunConfig(
    imageName: string,
    projectPath: string,
    outputPath: string,
    licensePath: Option<string>,
    containerName: Option<string>,
    enableGeometric: Option<bool>,
    coiThreshold: Option<string>,
    oriThreshold: Option<string>,
    gssThreshold: Option<string>)

  /**
   * What reading and `JSON.parse` of the license file give: `Unreadable`
   * stands for every failure the builder's `try` swallows (a read error, text
   * that does not parse, a value that is not an object, a key that is not text).
   */
  datatype LicenseFile = Unreadable | LicenseJson(snakeCaseKey: Option<string>, camelCaseKey: Option<string>)

  /** The host: its platform and what `path.resolve` answers. */
  datatype Host = Host(platform: Platform, resolve: string -> string)

  /**
   * Everything `buildDockerRunCommand` asks of the world: the host, whether
   * the license file exists, its contents, and the name it would generate
   * from the clock and a random number.
   */
  datatype BuildFacts = BuildFacts(host: Host, licenseExists: bool, license: LicenseFile, generatedName: string)

  datatype DockerRunCommand = DockerRunCommand(
    command: string,
    args: seq<string>,
    normalizedProjectPath: string,
    normalizedOutputPath: string,
    normalizedLicensePath: Option<string>)

  const WorkspaceSuffix: string := ":/workspace:ro"
  const OutputSuffix: string := ":/output"
  const LicenseSuffix: string := ":/license/license.json:ro"
  const LicenseKeyAssignment: string := "MISTSEEKER_LICENSE_KEY="
  const ReportJsonPath: string := "/output/mistseeker_report.json"
  const ReportImagePath: string := "/output/mistseeker_report.png"

  /** The fixed engine subcommand with its explicit output files. */
  const AnalyzeArgs: seq<string> :=
    ["analyze", "--input-root", "/workspace", "--output-json", ReportJsonPath, "--output-image", ReportImagePath]

  function NormalizeOnHost(host: Host, p: string): string {
    NormalizeDockerPathTs(host.platform, p, host.resolve(p))
  }

  /** `config.containerName || generated`. */
  function ContainerNameFor(config: DockerRunConfig, generatedName: string): string {
    if Truthy(config.containerName) then config.containerName.value else generatedName
  }

  function NormalizedLicensePath(config: DockerRunConfig, host: Host): Option<string> {
    if Truthy(config.licensePath) then Some(NormalizeOnHost(host, config.licensePath.value)) else None
  }

  /** The license file is mounted: a path was given, it normalises to non-empty text, and the file exists. */
  predicate MountsLicense(config: DockerRunConfig, facts: BuildFacts) {
    Truthy(NormalizedLicensePath(config, facts.host)) && Truthy(config.licensePath) && facts.licenseExists
  }

  /** `licenseData.license_key || licenseData.licenseKey`, kept only when non-empty. */
  function LicenseKey(license: LicenseFile): (r: Option<string>)
    ensures r.Some? ==> r.value != ""
  {
    match license
    case Unreadable => None
    case LicenseJson(snake, camel) =>
      if Truthy(snake) then snake else if Truthy(camel) then camel else None
  }

  /** The `license_key` spelling wins whenever it is non-empty; `licenseKey` is the fallback. */
  lemma LicenseKeyPrefersSnakeCase(snake: Option<string>, camel: Option<string>)
    ensures Truthy(snake) ==> LicenseKey(LicenseJson(snake, camel)) == snake
    ensures !Truthy(snake) ==> LicenseKey(LicenseJson(snake, camel)) == (if Truthy(camel) then camel else None)
    ensures LicenseKey(Unreadable) == None
  {
  }

  function MountArgs(containerName: string, project: string, output: string): seq<string> {
    ["run", "--rm", "--name", containerName, "-v", project + WorkspaceSuffix, "-v", output + OutputSuffix]
  }

  function LicenseArgs(config: DockerRunConfig, facts: BuildFacts): seq<string> {
    if MountsLicense(config, facts) then
      ["-v", NormalizedLicensePath(config, facts.host).value + LicenseSuffix]
      + (if LicenseKey(facts.license).Some? then ["-e", LicenseKeyAssignment + LicenseKey(facts.license).value] else [])
    else []
  }

  function OptionalFlags(config: DockerRunConfig): seq<string> {
    (if config.enableGeometric == Some(true) then ["--enable-geometric"] else [])
    + (if config.coiThreshold.Some? then ["--coi-threshold", config.coiThreshold.value] else [])
    + (if config.oriThreshold.Some? then ["--ori-threshold", config.oriThreshold.value] else [])
    + (if config.gssThreshold.Some? then ["--gss-threshold", config.gssThreshold.value] else [])
  }

  /** The argument vector `buildDockerRunCommand` produces, segment by segment. */
  function RunArgs(config: DockerRunConfig, facts: BuildFacts): seq<string> {
    MountArgs(ContainerNameFor(config, facts.generatedName),
              NormalizeOnHost(facts.host, config.projectPath),
              NormalizeOnHost(facts.host, config.outputPath))
    + LicenseArgs(config, facts) + [config.imageName] + AnalyzeArgs + OptionalFlags(config)
  }

  /** The command string shown to the user: `docker` and the arguments, space-separated. */
  function CommandLine(args: seq<string>): string {
    DockerCommand + " " + JoinStrings(args, " ")
  }

  /** The license mount, and the key when the file holds one, pushed only when the file is mounted. */
  method PushLicenseArgs(args: seq<string>, config: DockerRunConfig, facts: BuildFacts) returns (r: seq<string>)
    ensures r == args + LicenseArgs(config, facts)
    ensures |r| == |args| + (if !MountsLicense(config, facts) then 0 else if LicenseKey(facts.license).None? then 2 else 4)
  {
    r := args;
    var normalizedLicensePath := NormalizedLicensePath(config, facts.host);
    if Truthy(normalizedLicensePath) && Truthy(config.licensePath) {
      if facts.licenseExists {
        r := r + ["-v", normalizedLicensePath.value + LicenseSuffix];
        var licenseKey := LicenseKey(facts.license);
        if licenseKey.Some? {
          r := r + ["-e", LicenseKeyAssignment + licenseKey.value];
        }
      }
    }
  }

  /** Each optional engine flag is pushed when its field is set, in a fixed order. */
  method PushOptionalFlags(args: seq<string>, config: DockerRunConfig) returns (r: seq<string>)
    ensures r == args + OptionalFlags(config)
    ensures r[..|args|] == args
  {
    r := args;
    if config.enableGeometric == Some(true) {
      r := r + ["--enable-geometric"];
    }
    if config.coiThreshold.Some? {
      r := r + ["--coi-threshold", config.coiThreshold.value];
    }
    if config.oriThreshold.Some? {
      r := r + ["--ori-threshold", config.oriThreshold.value];
    }
    if config.gssThreshold.Some? {
      r := r + ["--gss-threshold", config.gssThreshold.value];
    }
  }

  /**
   * `buildDockerRunCommand`: pushes the arguments in the source's order.  It
   * has no failure path; a missing or unreadable license file only leaves the
   * license arguments out.
   */
  method BuildDockerRunCommand(config: DockerRunConfig, facts: BuildFacts) returns (r: DockerRunCommand)
    ensures r.args == RunArgs(config, facts)
    ensures r.command == CommandLine(r.args)
    ensures r.normalizedProjectPath == NormalizeOnHost(facts.host, config.projectPath)
    ensures r.normalizedOutputPath == NormalizeOnHost(facts.host, config.outputPath)
    ensures r.normalizedLicensePath == NormalizedLicensePath(config, facts.host)
  {
    var containerName := if Truthy(config.containerName) then config.containerName.value else facts.generatedName;
    var normalizedProjectPath := NormalizeOnHost(facts.host, config.projectPath);
    var normalizedOutputPath := NormalizeOnHost(facts.host, config.outputPath);
    var normalizedLicensePath := NormalizedLicensePath(config, facts.host);

    var args := ["run", "--rm", "--name", containerName,
                 "-v", normalizedProjectPath + WorkspaceSuffix,
                 "-v", normalizedOutputPath + OutputSuffix];
    args := PushLicenseArgs(args, config, facts);
    args := args + [config.imageName] + AnalyzeArgs;
    args := PushOptionalFlags(args, config);
    r := DockerRunCommand(CommandLine(args), args, normalizedProjectPath, normalizedOutputPath, normalizedLicensePath);
  }

  // ---------------------------------------------------------------------------
  // Reading an argument vector back, as the Docker CLI and the engine do.

  /** The optional engine flags. */
  datatype Flags = Flags(geometric: bool, coi: Option<string>, ori: Option<string>, gss: Option<string>)

  /** What a `docker run` line built here asks for. */
  datatype RunLine = RunLine(
    containerName: string,
    projectMount: string,
    outputMount: string,
    licenseMount: Option<string>,
    licenseKey: Option<string>,
    imageName: string,
    flags: Flags)

  function FlagsOf(config: DockerRunConfig): Flags {
    Flags(config.enableGeometric == Some(true), config.coiThreshold, config.oriThreshold, config.gssThreshold)
  }

  /** One `name value` pair at the head of `s`, if it is there. */
  function ParseValueFlag(s: seq<string>, name: string): (Option<string>, seq<string>) {
    if |s| >= 2 && s[0] == name then (Some(s[1]), s[2..]) else (None, s)
  }

  /** Reads the optional flags back; they must come in the builder's order and nothing may follow. */
  function ParseFlags(s: seq<string>): Option<Flags> {
    var geometric := |s| > 0 && s[0] == "--enable-geometric";
    var s1 := if geometric then s[1..] else s;
    var (coi, s2) := ParseValueFlag(s1, "--coi-threshold");
    var (ori, s3) := ParseValueFlag(s2, "--ori-threshold");
    var (gss, s4) := ParseValueFlag(s3, "--gss-threshold");
    if s4 == [] then Some(Flags(geometric, coi, ori, gss)) else None
  }

  function StripSuffix(s: string, suffix: string): string
    requires EndsWith(s, suffix)
  {
    s[..|s| - |suffix|]
  }

  /** The container name and the two mount sources of the fixed eight-argument head. */
  datatype Head = Head(containerName: string, projectMount: string, outputMount: string)

  function ParseHead(args: seq<string>): Option<Head> {
    if |args| < 8 || args[..3] != ["run", "--rm", "--name"] || args[4] != "-v" || args[6] != "-v"
       || !EndsWith(args[5], WorkspaceSuffix) || !EndsWith(args[7], OutputSuffix)
    then None
    else Some(Head(args[3], StripSuffix(args[5], WorkspaceSuffix), StripSuffix(args[7], OutputSuffix)))
  }

  /** The license mount source and key, if present, and what follows them. */
  datatype LicensePart = LicensePart(mount: Option<string>, key: Option<string>, rest: seq<string>)

  function ParseLicense(s: seq<string>): LicensePart {
    if |s| >= 2 && s[0] == "-v" && EndsWith(s[1], LicenseSuffix) then
      var mount := Some(StripSuffix(s[1], LicenseSuffix));
      var s1 := s[2..];
      if |s1| >= 2 && s1[0] == "-e" && StartsWith(s1[1], LicenseKeyAssignment) then
        LicensePart(mount, Some(s1[1][|LicenseKeyAssignment|..]), s1[2..])
      else LicensePart(mount, None, s1)
    else LicensePart(None, None, s)
  }

  /** The image, the engine subcommand and the flags. */
  function ParseTail(s: seq<string>): Option<(string, Flags)> {
    if |s| < 8 || s[1..8] != AnalyzeArgs then None
    else
      match ParseFlags(s[8..])
      case None => None
      case Some(flags) => Some((s[0], flags))
  }

  /** Reads a `docker run` vector back into what it asks for; `None` when it is not of the builder's shape. */
  function ParseRunArgs(args: seq<string>): Option<RunLine> {
    match ParseHead(args)
    case None => None
    case Some(head) =>
      var license := ParseLicense(args[8..]);
      match ParseTail(license.rest)
      case None => None
      case Some((image, flags)) =>
        Some(RunLine(head.containerName, head.projectMount, head.outputMount, license.mount, license.key, image, flags))
  }

  lemma ValueFlagRoundTrip(name: string, value: Option<string>, rest: seq<string>)
    requires |rest| == 0 || rest[0] != name
    ensures ParseValueFlag((if value.Some? then [name, value.value] else []) + rest, name) == (value, rest)
  {
    if value.Some? {
      assert ([name, value.value] + rest)[2..] == rest;
    } else {
      assert [] + rest == rest;
    }
  }

  lemma {:induction false} FlagsRoundTrip(config: DockerRunConfig)
    ensures ParseFlags(OptionalFlags(config)) == Some(FlagsOf(config))
  {
    var g := if config.enableGeometric == Some(true) then ["--enable-geometric"] else [];
    var c := if config.coiThreshold.Some? then ["--coi-threshold", config.coiThreshold.value] else [];
    var o := if config.oriThreshold.Some? then ["--ori-threshold", config.oriThreshold.value] else [];
    var x := if config.gssThreshold.Some? then ["--gss-threshold", config.gssThreshold.value] else [];
    var s := OptionalFlags(config);
    assert s == g + (c + (o + x));
    var s1 := if |s| > 0 && s[0] == "--enable-geometric" then s[1..] else s;
    assert s1 == c + (o + x);
    ValueFlagRoundTrip("--gss-threshold", config.gssThreshold, []);
    assert x + [] == x;
    ValueFlagRoundTrip("--ori-threshold", config.oriThreshold, x);
    ValueFlagRoundTrip("--coi-threshold", config.coiThreshold, o + x);
  }

  lemma SuffixStripped(s: string, suffix: string)
    ensures EndsWith(s + suffix, suffix) && StripSuffix(s + suffix, suffix) == s
  {
    assert (s + suffix)[|s|..] == suffix;
  }

  lemma HeadRoundTrip(name: string, project: string, output: string, rest: seq<string>)
    ensures ParseHead(MountArgs(name, project, output) + rest) == Some(Head(name, project, output))
    ensures (MountArgs(name, project, output) + rest)[8..] == rest
  {
    SuffixStripped(project, WorkspaceSuffix);
    SuffixStripped(output, OutputSuffix);
    var args := MountArgs(name, project, output) + rest;
    assert args[..3] == ["run", "--rm", "--name"];
  }

  /** The license part reads back as long as what follows it is an image followed by `analyze`. */
  lemma LicenseRoundTrip(config: DockerRunConfig, facts: BuildFacts, tail: seq<string>)
    requires |tail| >= 2 && tail[1] == "analyze"
    ensures var mounted := MountsLicense(config, facts);
      ParseLicense(LicenseArgs(config, facts) + tail)
        == LicensePart(if mounted then NormalizedLicensePath(config, facts.host) else None,
                       if mounted then LicenseKey(facts.license) else None,
                       tail)
  {
    assert !EndsWith("analyze", LicenseSuffix);
    assert !StartsWith("analyze", LicenseKeyAssignment);
    var s := LicenseArgs(config, facts) + tail;
    if MountsLicense(config, facts) {
      var path := NormalizedLicensePath(config, facts.host).value;
      SuffixStripped(path, LicenseSuffix);
      var key := LicenseKey(facts.license);
      if key.Some? {
        var assignment := LicenseKeyAssignment + key.value;
        assert assignment[..|LicenseKeyAssignment|] == LicenseKeyAssignment;
        assert assignment[|LicenseKeyAssignment|..] == key.value;
        assert s == ["-v", path + LicenseSuffix] + (["-e", assignment] + tail);
        assert s[2..] == ["-e", assignment] + tail;
        assert s[2..][2..] == tail;
      } else {
        assert s == ["-v", path + LicenseSuffix] + tail;
        assert s[2..] == tail;
      }
    } else {
      assert s == tail;
    }
  }

  lemma TailRoundTrip(config: DockerRunConfig)
    ensures ParseTail([config.imageName] + AnalyzeArgs + OptionalFlags(config)) == Some((config.imageName, FlagsOf(config)))
  {
    var s := [config.imageName] + AnalyzeArgs + OptionalFlags(config);
    assert s[1..8] == AnalyzeArgs && s[8..] == OptionalFlags(config);
    FlagsRoundTrip(config);
  }

  /** The arguments are what the run line the configuration asks for reads back as. */
  function ExpectedRunLine(config: DockerRunConfig, facts: BuildFacts): RunLine {
    var mounted := MountsLicense(config, facts);
    RunLine(ContainerNameFor(config, facts.generatedName),
            NormalizeOnHost(facts.host, config.projectPath),
            NormalizeOnHost(facts.host, config.outputPath),
            if mounted then NormalizedLicensePath(config, facts.host) else None,
            if mounted then LicenseKey(facts.license) else None,
            config.imageName,
            FlagsOf(config))
  }

  /**
   * Round trip: reading the built vector back recovers the container name,
   * both mounts, the license mount exactly when the file is mounted, the key
   * exactly when it is mounted and holds one, the image and every flag.
   */
  lemma {:induction false} RunArgsRoundTrip(config: DockerRunConfig, facts: BuildFacts)
    ensures ParseRunArgs(RunArgs(config, facts)) == Some(ExpectedRunLine(config, facts))
  {
    var name := ContainerNameFor(config, facts.generatedName);
    var project := NormalizeOnHost(facts.host, config.projectPath);
    var output := NormalizeOnHost(facts.host, config.outputPath);
    var lic := LicenseArgs(config, facts);
    var tail := [config.imageName] + AnalyzeArgs + OptionalFlags(config);
    assert RunArgs(config, facts) == MountArgs(name, project, output) + (lic + tail);
    HeadRoundTrip(name, project, output, lic + tail);
    LicenseRoundTrip(config, facts, tail);
    TailRoundTrip(config);
  }

  /**
   * Layout of the vector: the fixed eight-argument head with the chosen
   * container name, the license arguments, the image, the engine subcommand,
   * and the optional flags as the suffix.
   */
  lemma RunArgsLayout(config: DockerRunConfig, facts: BuildFacts)
    ensures var args := RunArgs(config, facts);
      var n := 8 + |LicenseArgs(config, facts)|;
      && args[..8] == ["run", "--rm", "--name", ContainerNameFor(config, facts.generatedName),
                      "-v", NormalizeOnHost(facts.host, config.projectPath) + WorkspaceSuffix,
                      "-v", NormalizeOnHost(facts.host, config.outputPath) + OutputSuffix]
      && |LicenseArgs(config, facts)| in {0, 2, 4}
      && (|LicenseArgs(config, facts)| > 0 <==> MountsLicense(config, facts))
      && (|LicenseArgs(config, facts)| == 4 <==> MountsLicense(config, facts) && LicenseKey(facts.license).Some?)
      && args[n] == config.imageName
      && args[n + 1..n + 8] == AnalyzeArgs
      && args[n + 8..] == OptionalFlags(config)
  {
  }

  /** A name given in the configuration is the container's name; otherwise the generated one is. */
  lemma ContainerNameChoice(config: DockerRunConfig, facts: BuildFacts)
    ensures Truthy(config.containerName) ==> RunArgs(config, facts)[3] == config.containerName.value
    ensures !Truthy(config.containerName) ==> RunArgs(config, facts)[3] == facts.generatedName
  {
  }

  /** With no optional field set, the vector ends with the image output path. */
  lemma NoFlagsEndsWithImagePath(config: DockerRunConfig, facts: BuildFacts)
    requires config.enableGeometric != Some(true)
    requires config.coiThreshold.None? && config.oriThreshold.None? && config.gssThreshold.None?
    ensures var args := RunArgs(config, facts); args[|args| - 1] == ReportImagePath
  {
  }

  // ---------------------------------------------------------------------------
  // How a run ends.

  datatype DockerRunResult = DockerRunResult(exitCode: int, stdout: string, stderr: string, containerName: string)

  /**
   * The first of the process's `close` (with its code, null after a signal,
   * and all output collected) and `error` (the executable could not be
   * launched) events; whichever comes first settles the run.
   */
  datatype ProcessEnd = Closed(code: Option<int>, stdout: string, stderr: string) | LaunchFailed(message: string)

  /** `code || 0`: a null code counts as 0. */
  function ExitCodeOf(code: Option<int>): int {
    if code.Some? then code.value else 0
  }

  /** The engine said it wrote its report, whatever its exit code. */
  predicate ReportSaved(stdout: string) {
    Includes(stdout, "Report saved:") || Includes(stdout, "mistseeker_report.json")
  }

  /** `[...].filter(Boolean)`: the non-empty entries in order. */
  function NonEmpty(parts: seq<string>): (r: seq<string>)
    ensures |parts| > 0 && parts[0] != "" ==> |r| > 0 && r[0] == parts[0]
  {
    if |parts| == 0 then []
    else (if parts[0] != "" then [parts[0]] else []) + NonEmpty(parts[1..])
  }

  lemma JoinStartsWithFirst(parts: seq<string>, sep: string)
    requires |parts| > 0
    ensures StartsWith(JoinStrings(parts, sep), parts[0])
  {
    if |parts| > 1 {
      var j := JoinStrings(parts, sep);
      assert j == parts[0] + (sep + JoinStrings(parts[1..], sep));
      assert j[..|parts[0]|] == parts[0];
    }
  }

  /** The fixed texts of the run's failure messages. */
  const ProjectMissingText: string := "Project path does not exist: "
  const OutputNotWritableText: string := "Output path is not writable: "
  const PullFailedText: string := "Failed to pull Docker image "
  const ExitFailureText: string := "Docker command failed with exit code "
  const LaunchFailureText: string := "Failed to execute docker run: "
  const ImageHintText: string := "Make sure Docker is running and the image \""

  function ExitFailureMessage(exitCode: int, command: string, containerName: string, stdout: string, stderr: string): string {
    JoinStrings(NonEmpty([
      ExitFailureText + IntToString(exitCode),
      "Command: " + command,
      "Container: " + containerName,
      if stderr != "" then "Error output:\n" + stderr else "",
      if stdout != "" then "Standard output:\n" + stdout else ""]), "\n")
  }

  function LaunchFailureMessage(message: string, command: string, containerName: string, imageName: string): string {
    JoinStrings([
      LaunchFailureText + message,
      "Command: " + command,
      "Container: " + containerName,
      ImageHintText + imageName + "\" is available."], "\n")
  }

  /**
   * The `close` and `error` handlers of `runDockerCommand`: a run resolves
   * exactly when the process closed with exit code 0 or its output says the
   * report was saved; otherwise it rejects with a message naming the exit code
   * (or the launch failure) first.
   */
  function SettleRun(end: ProcessEnd, command: string, containerName: string, imageName: string): (r: Result<DockerRunResult, string>)
    ensures r.Ok? <==> end.Closed? && (ExitCodeOf(end.code) == 0 || ReportSaved(end.stdout))
    ensures r.Ok? ==> r.value == DockerRunResult(ExitCodeOf(end.code), end.stdout, end.stderr, containerName)
    ensures end.Closed? && r.Err? ==>
      StartsWith(r.error, ExitFailureText + IntToString(ExitCodeOf(end.code)))
    ensures end.LaunchFailed? ==> StartsWith(r.error, LaunchFailureText + end.message)
  {
    match end
    case Closed(code, stdout, stderr) =>
      var exitCode := ExitCodeOf(code);
      if exitCode == 0 || ReportSaved(stdout) then Ok(DockerRunResult(exitCode, stdout, stderr, containerName))
      else
        var first := ExitFailureText + IntToString(exitCode);
        var parts := [first, "Command: " + command, "Container: " + containerName,
                      if stderr != "" then "Error output:\n" + stderr else "",
                      if stdout != "" then "Standard output:\n" + stdout else ""];
        JoinStartsWithFirst(NonEmpty(parts), "\n");
        Err(ExitFailureMessage(exitCode, command, containerName, stdout, stderr))
    case LaunchFailed(message) =>
      JoinStartsWithFirst([
        LaunchFailureText + message,
        "Command: " + command,
        "Container: " + containerName,
        ImageHintText + imageName + "\" is available."], "\n");
      Err(LaunchFailureMessage(message, command, containerName, imageName))
  }

  /** A process ended by a signal closes with a null code, which counts as a clean exit. */
  lemma SignalledRunResolves(stdout: string, stderr: string, command: string, containerName: string, imageName: string)
    ensures SettleRun(Closed(None, stdout, stderr), command, containerName, imageName).Ok?
  {
  }

  /** A non-zero exit whose output names the report still resolves, keeping the exit code. */
  lemma SavedReportBeatsExitCode(code: int, stdout: string, stderr: string, command: string, containerName: string, imageName: string)
    requires code != 0
    ensures SettleRun(Closed(Some(code), stdout + "Report saved: x", stderr), command, containerName, imageName)
      == Ok(DockerRunResult(code, stdout + "Report saved: x", stderr, containerName))
  {
    IncludesAt("Report saved: x", "Report saved:", 0);
    IncludesConcat(stdout, "Report saved: x", "Report saved:");
  }

  /** The run gets as far as launching the process: the project exists, the output is writable, and the image is there. */
  predicate Launches(projectExists: bool, outputWritable: bool, image: ImageStatus) {
    projectExists && outputWritable && !image.PullFailed?
  }

  /** What `runDockerCommand` resolves or rejects with, given the host's answers. */
  function RunOutcome(config: DockerRunConfig, facts: BuildFacts, projectExists: bool, outputWritable: bool,
                      image: ImageStatus, end: ProcessEnd): Result<DockerRunResult, string> {
    if !projectExists then Err(ProjectMissingText + config.projectPath)
    else if !outputWritable then Err(OutputNotWritableText + config.outputPath)
    else if image.PullFailed? then Err(PullFailedText + config.imageName + ": " + image.message)
    else SettleRun(end, CommandLine(RunArgs(config, facts)), ContainerNameFor(config, facts.generatedName), config.imageName)
  }

  /** What `runDockerCommand` hands its output callbacks, in order. */
  function RunMessages(config: DockerRunConfig, facts: BuildFacts, projectExists: bool, outputWritable: bool,
                       image: ImageStatus, chunks: seq<string>): seq<string> {
    if !projectExists then ["[Error] " + ProjectMissingText + config.projectPath + "\n"]
    else if !outputWritable then ["[Error] " + OutputNotWritableText + config.outputPath + "\n"]
    else if image.PullFailed? then PullMessages(config.imageName, image)
    else
      PullMessages(config.imageName, image)
      + LaunchMessages(DockerRunCommand(CommandLine(RunArgs(config, facts)), RunArgs(config, facts),
                                        NormalizeOnHost(facts.host, config.projectPath),
                                        NormalizeOnHost(facts.host, config.outputPath),
                                        NormalizedLicensePath(config, facts.host)))
      + chunks
  }

  /**
   * A run resolves exactly when it launched and the process closed with exit
   * code 0 or with the report named in its output; a run that resolves
   * carries the configured container name.
   */
  lemma RunOutcomeResolves(config: DockerRunConfig, facts: BuildFacts, projectExists: bool, outputWritable: bool,
                           image: ImageStatus, end: ProcessEnd)
    ensures var r := RunOutcome(config, facts, projectExists, outputWritable, image, end);
      && (r.Ok? <==> Launches(projectExists, outputWritable, image) && end.Closed?
                     && (ExitCodeOf(end.code) == 0 || ReportSaved(end.stdout)))
      && (r.Ok? ==> r.value.containerName == ContainerNameFor(config, facts.generatedName)
                    && r.value.exitCode == ExitCodeOf(end.code))
  {
  }

  /** Before the launch, the checks fail in order: project path, then output path, then the image pull. */
  lemma RunOutcomePreflight(config: DockerRunConfig, facts: BuildFacts, projectExists: bool, outputWritable: bool,
                            image: ImageStatus, end: ProcessEnd)
    ensures var r := RunOutcome(config, facts, projectExists, outputWritable, image, end);
      && (!projectExists ==> r == Err(ProjectMissingText + config.projectPath))
      && (projectExists && !outputWritable ==> r == Err(OutputNotWritableText + config.outputPath))
      && (projectExists && outputWritable && image.PullFailed? ==>
            r == Err(PullFailedText + config.imageName + ": " + image.message))
  {
  }

  // ---------------------------------------------------------------------------
  // The service's state.

  /** How one `exec` of the Docker CLI ended: its standard output, or the error's message and standard error. */
  datatype ExecOutcome = ExecOk(stdout: string) | ExecFailed(message: string, stderr: string)

  /**
   * Whether the image is there before the run: present, pulled now (with the
   * output `docker pull` streamed), or the pull failed (with its output and
   * the message `pullImage` rejected with).
   */
  datatype ImageStatus = ImagePresent | ImagePulled(output: seq<string>) | PullFailed(output: seq<string>, message: string)

  /** What the run hands its output callbacks while the image is looked for and pulled. */
  function PullMessages(imageName: string, image: ImageStatus): seq<string> {
    match image
    case ImagePresent => []
    case ImagePulled(output) =>
      ["[Docker] Image " + imageName + " not found locally. Pulling...\n", "[Docker] docker pull " + imageName + "\n"]
      + output + ["[Docker] Image " + imageName + " pulled successfully.\n"]
    case PullFailed(output, message) =>
      ["[Docker] Image " + imageName + " not found locally. Pulling...\n", "[Docker] docker pull " + imageName + "\n"]
      + output + ["[Error] " + PullFailedText + imageName + ": " + message + "\n"]
  }

  /** The transparency lines: the exact command, then every mount. */
  function LaunchMessages(built: DockerRunCommand): seq<string> {
    ["[Docker] Executing: " + built.command + "\n",
     "[Docker] Mounts:\n"
     + "  Project: " + built.normalizedProjectPath + " -> /workspace:ro\n"
     + "  Output: " + built.normalizedOutputPath + " -> /output\n"
     + (if Truthy(built.normalizedLicensePath) then "  License: " + built.normalizedLicensePath.value + " -> /license/license.json:ro\n" else "")]
  }

  /** A running `docker run` process, by container name and process id. */
  datatype ContainerProcess = ContainerProcess(containerName: string, pid: nat)

  datatype Availability = Availability(available: bool, error: Option<string>, version: Option<string>)

  const NotRunningError: string :=
    "Docker Desktop is installed but not running. Please start Docker Desktop and try again."
  const NotAvailableError: string :=
    "Docker CLI is not available or not accessible. Please install Docker Desktop and ensure it is in your PATH."

  /** `error.message || error.stderr || 'Docker is not available'`. */
  function ProbeErrorText(message: string, stderr: string): string {
    if message != "" then message else if stderr != "" then stderr else "Docker is not available"
  }

  /** The failure text says the daemon could not be reached. */
  predicate DaemonUnreachable(text: string) {
    Includes(text, "Cannot connect") || Includes(text, "ECONNREFUSED") || Includes(text, "Is the docker daemon running")
  }

  /** A failed probe is reported as "not running" exactly when the daemon was unreachable, else as "not available". */
  function ProbeFailureError(text: string): (r: string)
    ensures r == NotRunningError <==> DaemonUnreachable(text)
    ensures r == NotAvailableError <==> !DaemonUnreachable(text)
  {
    if DaemonUnreachable(text) then NotRunningError else NotAvailableError
  }

  /** The host's answer to stopping or removing a container is acceptable: success, or the container is already gone. */
  predicate StopSwallowed(outcome: ExecOutcome) {
    outcome.ExecOk? || Includes(outcome.message, "No such container") || Includes(outcome.message, "is not running")
  }

  predicate RemoveSwallowed(outcome: ExecOutcome) {
    outcome.ExecOk? || Includes(outcome.message, "No such container")
  }

  class DockerService {
    /** The cached result of the first availability probe. */
    var dockerAvailable: Option<bool>
    /** Running `docker run` processes by container name. */
    var activeProcesses: map<string, ContainerProcess>
    /** Container names whose process `KillContainer` sent SIGTERM, in order. */
    ghost var terminated: seq<string>

    constructor ()
      ensures dockerAvailable == None && activeProcesses == map[] && terminated == []
    {
      dockerAvailable := None;
      activeProcesses := map[];
      terminated := [];
    }

    /**
     * `checkDockerAvailable`: once a probe has answered, that answer is
     * returned without probing again.  The first probe runs `docker info`
     * (`info`) and, when it succeeds, `docker --version` (`version`).
     */
    method CheckDockerAvailable(info: ExecOutcome, version: ExecOutcome) returns (r: Availability)
      modifies this`dockerAvailable
      ensures old(dockerAvailable).Some? ==>
        dockerAvailable == old(dockerAvailable) && r == Availability(old(dockerAvailable).value, None, None)
      ensures old(dockerAvailable).None? && info.ExecOk? ==>
        dockerAvailable == Some(true) && r == Availability(true, None, if version.ExecOk? then Some(Trim(version.stdout)) else None)
      ensures old(dockerAvailable).None? && info.ExecFailed? ==>
        dockerAvailable == Some(false)
        && r == Availability(false, Some(ProbeFailureError(ProbeErrorText(info.message, info.stderr))), None)
    {
      if dockerAvailable.Some? {
        return Availability(dockerAvailable.value, None, None);
      }
      match info
      case ExecOk(_) =>
        var v: Option<string> := None;
        if version.ExecOk? {
          v := Some(Trim(version.stdout));
        }
        dockerAvailable := Some(true);
        r := Availability(true, None, v);
      case ExecFailed(message, stderr) =>
        dockerAvailable := Some(false);
        r := Availability(false, Some(ProbeFailureError(ProbeErrorText(message, stderr))), None);
    }

    /**
     * `runDockerCommand`: the checks before the launch, then the launch, which
     * registers the process under its container name, then the settling of the
     * run by how the process ended.  `projectExists`, `outputWritable`, `image`,
     * `chunks` (the output the process streamed, in arrival order), `end` and
     * `pid` are the host's answers; `messages` is everything handed to the
     * output callbacks, in order.
     */
    method RunDockerCommand(config: DockerRunConfig, facts: BuildFacts, projectExists: bool, outputWritable: bool,
                            image: ImageStatus, chunks: seq<string>, end: ProcessEnd, pid: nat)
      returns (r: Result<DockerRunResult, string>, messages: seq<string>)
      modifies this`activeProcesses
      ensures r == RunOutcome(config, facts, projectExists, outputWritable, image, end)
      ensures messages == RunMessages(config, facts, projectExists, outputWritable, image, chunks)
      ensures activeProcesses == if Launches(projectExists, outputWritable, image)
        then old(activeProcesses)[ContainerNameFor(config, facts.generatedName) :=
                                  ContainerProcess(ContainerNameFor(config, facts.generatedName), pid)]
        else old(activeProcesses)
    {
      if !projectExists {
        return Err(ProjectMissingText + config.projectPath),
               ["[Error] " + ProjectMissingText + config.projectPath + "\n"];
      }
      if !outputWritable {
        return Err(OutputNotWritableText + config.outputPath),
               ["[Error] " + OutputNotWritableText + config.outputPath + "\n"];
      }
      messages := PullMessages(config.imageName, image);
      if image.PullFailed? {
        return Err(PullFailedText + config.imageName + ": " + image.message), messages;
      }
      var built := BuildDockerRunCommand(config, facts);
      ContainerNameChoice(config, facts);
      // `args.indexOf('--name')` is 2, so the name is the fourth argument.
      var containerName := if Truthy(config.containerName) then config.containerName.value else built.args[3];
      assert containerName == ContainerNameFor(config, facts.generatedName);
      messages := messages + LaunchMessages(built);
      activeProcesses := activeProcesses[containerName := ContainerProcess(containerName, pid)];
      messages := messages + chunks;
      r := SettleRun(end, built.command, containerName, config.imageName);
    }

    /**
     * `stopContainer`: `docker stop`; the name leaves the map on every path,
     * and only "No such container" and "is not running" failures are swallowed.
     */
    method StopContainer(containerName: string, outcome: ExecOutcome) returns (thrown: Option<string>)
      modifies this`activeProcesses
      ensures activeProcesses == old(activeProcesses) - {containerName}
      ensures thrown.None? <==> StopSwallowed(outcome)
      ensures thrown.Some? ==> thrown.value == outcome.message
    {
      thrown := None;
      if outcome.ExecFailed? && !Includes(outcome.message, "No such container") && !Includes(outcome.message, "is not running") {
        thrown := Some(outcome.message);
      }
      activeProcesses := activeProcesses - {containerName};
    }

    /** `removeContainer`: `docker rm -f`; the name leaves the map on every path, and only "No such container" is swallowed. */
    method RemoveContainer(containerName: string, outcome: ExecOutcome) returns (thrown: Option<string>)
      modifies this`activeProcesses
      ensures activeProcesses == old(activeProcesses) - {containerName}
      ensures thrown.None? <==> RemoveSwallowed(outcome)
      ensures thrown.Some? ==> thrown.value == outcome.message
    {
      thrown := None;
      if outcome.ExecFailed? && !Includes(outcome.message, "No such container") {
        thrown := Some(outcome.message);
      }
      activeProcesses := activeProcesses - {containerName};
    }

    /**
     * `killContainer`: SIGTERM to the tracked process if there is one, then
     * `docker stop`, whose failure is ignored; it never fails.
     */
    method KillContainer(containerName: string, stopOutcome: ExecOutcome)
      modifies this`activeProcesses, this`terminated
      ensures activeProcesses == old(activeProcesses) - {containerName}
      ensures terminated == old(terminated) + (if containerName in old(activeProcesses) then [containerName] else [])
    {
      if containerName in activeProcesses {
        terminated := terminated + [containerName];
      }
      var _ := StopContainer(containerName, stopOutcome);
    }
  }
}
