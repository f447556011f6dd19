/**
 * The analysis orchestrator: a registry of analysis jobs, each with a status,
 * a bounded log buffer and its results, driven by starting a job, the Docker
 * run's outcome, and the user's request to stop it.  Every event the service
 * emits is recorded, in order, in a ghost sequence.
 */
module Analysis {
  import opened Wrappers
  import opened JsStrings
  import opened NodePath
  import opened OsDetection
  import opened Docker
  import opened OutputCollector

  datatype Status = Running | Completed | Failed | Stopped

  /** `AnalysisConfig`: what the user asks to analyse, with which image, and where the reports go. */
  datatype AnalysisConfig = AnalysisConfig(projectPath: string, imageName: string, outputPath: string)

  /** `AnalysisResult`: one job's record; times are milliseconds since the epoch. */
  datatype AnalysisRecord = AnalysisRecord(
    id: string,
    status: Status,
    config: AnalysisConfig,
    logs: seq<string>,
    results: Option<OutputFiles>,
    startTime: nat,
    endTime: Option<nat>,
    error: Option<string>,
    containerName: Option<string>,
    exitCode: Option<int>)

  /** The `analysis-log`, `analysis-complete` and `analysis-error` events. */
  datatype Event =
    | LogEvent(analysisId: string, line: string)
    | CompleteEvent(analysisId: string, results: OutputFiles)
    | ErrorEvent(analysisId: string, message: string)

  const MaxLogLines: nat := 10000

  const FreeModeNotice: string := "[Info] No license file - Free mode"
  const ProModeNotice: string := "[Info] License file found - Pro mode enabled"
  const StartingNotice: string := "[Info] Starting Docker container..."
  const CompletedNotice: string := "[Info] Analysis completed." + " Report file found."
  const StoppedNotice: string := "[Info] Analysis stopped by user"
  const ReadingText: string := "[Info] Reading output files from: "
  const NoReportText: string := "No report file found in output directory: "

  // ---------------------------------------------------------------------------
  // The log buffer.

  /** The lines whose `trim()` is non-empty, in their order. */
  function NonBlank(lines: seq<string>): (r: seq<string>)
    ensures |r| <= |lines|
  {
    if |lines| == 0 then []
    else NonBlank(lines[..|lines| - 1]) + (if Trim(lines[|lines| - 1]) != "" then [lines[|lines| - 1]] else [])
  }

  lemma {:induction false} NonBlankAppend(a: seq<string>, b: seq<string>)
    ensures NonBlank(a + b) == NonBlank(a) + NonBlank(b)
    decreases |b|
  {
    if |b| == 0 {
      assert a + b == a;
    } else {
      var c := b[..|b| - 1];
      assert (a + b)[..|a + b| - 1] == a + c;
      NonBlankAppend(a, c);
    }
  }

  /** A line is kept exactly when it is one of the input lines and is not blank. */
  lemma {:induction false} NonBlankMembers(lines: seq<string>, x: string)
    ensures x in NonBlank(lines) <==> x in lines && Trim(x) != ""
    decreases |lines|
  {
    if |lines| > 0 {
      var init := lines[..|lines| - 1];
      NonBlankMembers(init, x);
      assert lines == init + [lines[|lines| - 1]];
    }
  }

  /** `log.split('\n')` without its blank lines: what one `addLog` call appends. */
  function LogLines(log: string): seq<string> {
    NonBlank(Split(log, '\n'))
  }

  /** Every appended line is a single, non-blank line of the message. */
  lemma LogLinesAreLines(log: string)
    ensures forall k :: 0 <= k < |LogLines(log)| ==> '\n' !in LogLines(log)[k] && !IsBlank(LogLines(log)[k])
  {
    var lines := Split(log, '\n');
    SplitPartsOmitSep(log, '\n');
    var r := NonBlank(lines);
    forall k | 0 <= k < |r| ensures '\n' !in r[k] && !IsBlank(r[k]) {
      NonBlankMembers(lines, r[k]);
      TrimEmptyIffBlank(r[k]);
    }
  }

  /** A one-line message is appended as it is, unless it is blank. */
  lemma LogLinesOfLine(line: string)
    requires '\n' !in line
    ensures LogLines(line) == if IsBlank(line) then [] else [line]
  {
    TrimEmptyIffBlank(line);
    assert Split(line, '\n') == [line];
    assert [line][..0] == [];
  }

  /** The first loop of `addLog`: the non-blank lines are pushed onto the buffer in order. */
  method PushNonBlank(logs: seq<string>, lines: seq<string>) returns (r: seq<string>)
    ensures r == logs + NonBlank(lines)
  {
    r := logs;
    var i := 0;
    while i < |lines|
      invariant 0 <= i <= |lines|
      invariant r == logs + NonBlank(lines[..i])
    {
      assert lines[..i + 1][..i] == lines[..i];
      if Trim(lines[i]) != "" {
        r := r + [lines[i]];
      }
      i := i + 1;
    }
    assert lines[..|lines|] == lines;
  }

  /** A fixed notice: one line, starting with its `[` tag. */
  predicate OneLineNotice(notice: string) {
    |notice| > 0 && notice[0] == '[' && forall k :: 0 <= k < |notice| ==> notice[k] != '\n'
  }

  /** Each fixed notice is such a line. */
  lemma FreeModeNoticeIsOneLine()
    ensures OneLineNotice(FreeModeNotice)
  {
  }

  lemma ProModeNoticeIsOneLine()
    ensures OneLineNotice(ProModeNotice)
  {
  }

  lemma LicenseNoticeIsOneLine(hasLicense: bool)
    ensures OneLineNotice(LicenseNotice(hasLicense))
  {
    if hasLicense {
      ProModeNoticeIsOneLine();
    } else {
      FreeModeNoticeIsOneLine();
    }
  }

  lemma StartingNoticeIsOneLine()
    ensures OneLineNotice(StartingNotice)
  {
  }

  lemma CompletedNoticeIsOneLine()
    ensures OneLineNotice(CompletedNotice)
  {
  }

  lemma StoppedNoticeIsOneLine()
    ensures OneLineNotice(StoppedNotice)
  {
  }

  /** The completion notice is logged, and emitted, as one line. */
  lemma CompletedNoticeLogged(analysisId: string)
    ensures AllLogLines([CompletedNotice]) == [CompletedNotice]
    ensures LogEvents(analysisId, [CompletedNotice]) == [LogEvent(analysisId, CompletedNotice)]
  {
    CompletedNoticeIsOneLine();
    NoticeLine(CompletedNotice);
    OneMessage(CompletedNotice);
  }

  /** A fixed notice is logged as exactly one line. */
  lemma NoticeLine(notice: string)
    requires OneLineNotice(notice)
    ensures LogLines(notice) == [notice]
  {
    assert !IsJsWhitespace(notice[0]);
    LogLinesOfLine(notice);
  }

  /** The lines several `addLog` calls append, in call order. */
  function AllLogLines(messages: seq<string>): seq<string> {
    if |messages| == 0 then []
    else AllLogLines(messages[..|messages| - 1]) + LogLines(messages[|messages| - 1])
  }

  /** One more message appends its lines after the others'. */
  lemma AllLogLinesSnoc(messages: seq<string>, message: string)
    ensures AllLogLines(messages + [message]) == AllLogLines(messages) + LogLines(message)
  {
    assert (messages + [message])[..|messages|] == messages;
  }

  lemma {:induction false} AllLogLinesAppend(a: seq<string>, b: seq<string>)
    ensures AllLogLines(a + b) == AllLogLines(a) + AllLogLines(b)
    decreases |b|
  {
    if |b| == 0 {
      assert a + b == a;
    } else {
      var c := b[..|b| - 1];
      var last := b[|b| - 1];
      assert b == c + [last];
      assert a + b == (a + c) + [last];
      var x := LogLines(last);
      calc {
        AllLogLines(a + b);
        { AllLogLinesSnoc(a + c, last); }
        AllLogLines(a + c) + x;
        { AllLogLinesAppend(a, c); }
        AllLogLines(a) + AllLogLines(c) + x;
        { AllLogLinesSnoc(c, last); }
        AllLogLines(a) + AllLogLines(b);
      }
    }
  }

  /** `logs.slice(-10000)` when longer than 10000: the newest lines are kept. */
  function Capped(logs: seq<string>): (r: seq<string>)
    ensures |r| == if |logs| > MaxLogLines then MaxLogLines else |logs|
    ensures r == logs[|logs| - |r|..]
  {
    if |logs| > MaxLogLines then logs[|logs| - MaxLogLines..] else logs
  }

  lemma CappedOfLongSuffix(s: seq<string>, i: nat)
    requires i + MaxLogLines <= |s|
    ensures Capped(s[i..]) == Capped(s)
  {
    assert s[i..][|s[i..]| - MaxLogLines..] == s[|s| - MaxLogLines..];
  }

  /**
   * Capping after every call keeps the same lines as capping once at the
   * end: the buffer is always the newest 10000 lines of everything logged.
   */
  lemma CappedAppend(a: seq<string>, b: seq<string>)
    ensures Capped(Capped(a) + b) == Capped(a + b)
  {
    if |a| > MaxLogLines {
      var i := |a| - MaxLogLines;
      assert Capped(a) + b == (a + b)[i..];
      CappedOfLongSuffix(a + b, i);
    }
  }

  /** The `analysis-log` events for lines, one per line, in order. */
  function LogEvents(analysisId: string, lines: seq<string>): (r: seq<Event>)
    ensures |r| == |lines|
    ensures forall k :: 0 <= k < |r| ==> r[k] == LogEvent(analysisId, lines[k])
  {
    seq(|lines|, k requires 0 <= k < |lines| => LogEvent(analysisId, lines[k]))
  }

  /** Events of lines logged in two batches are those of the first batch, then the second's. */
  lemma LogEventsAppend(analysisId: string, a: seq<string>, b: seq<string>)
    ensures LogEvents(analysisId, a + b) == LogEvents(analysisId, a) + LogEvents(analysisId, b)
  {
    assert |LogEvents(analysisId, a + b)| == |LogEvents(analysisId, a) + LogEvents(analysisId, b)|;
    forall k | 0 <= k < |a| + |b|
      ensures LogEvents(analysisId, a + b)[k] == (LogEvents(analysisId, a) + LogEvents(analysisId, b))[k]
    {
    }
  }

  /** One more `addLog` call after several: its lines follow theirs, in the buffer and in the events. */
  lemma LogStep(analysisId: string, logs: seq<string>, messages: seq<string>, message: string)
    ensures Capped(Capped(logs + AllLogLines(messages)) + LogLines(message)) == Capped(logs + AllLogLines(messages + [message]))
    ensures LogEvents(analysisId, AllLogLines(messages)) + LogEvents(analysisId, LogLines(message))
            == LogEvents(analysisId, AllLogLines(messages + [message]))
  {
    AllLogLinesSnoc(messages, message);
    CappedThen(logs, AllLogLines(messages), LogLines(message));
    LogEventsAppend(analysisId, AllLogLines(messages), LogLines(message));
  }

  /** The first message alone appends its own lines. */
  lemma FirstMessage(messages: seq<string>)
    requires |messages| > 0
    ensures AllLogLines(messages[..1]) == LogLines(messages[0])
  {
    assert messages[..1] == [messages[0]];
    OneMessage(messages[0]);
  }

  /** The same step, for the next message of a sequence of `addLog` calls. */
  lemma PrefixLogStep(analysisId: string, logs: seq<string>, events: seq<Event>, messages: seq<string>, i: nat)
    requires i < |messages|
    ensures Capped(Capped(logs + AllLogLines(messages[..i])) + LogLines(messages[i])) == Capped(logs + AllLogLines(messages[..i + 1]))
    ensures events + LogEvents(analysisId, AllLogLines(messages[..i])) + LogEvents(analysisId, LogLines(messages[i]))
            == events + LogEvents(analysisId, AllLogLines(messages[..i + 1]))
  {
    assert messages[..i + 1] == messages[..i] + [messages[i]];
    LogStep(analysisId, logs, messages[..i], messages[i]);
  }

  // ---------------------------------------------------------------------------
  // Naming the run and deciding how it ended.

  /** `analysisId.substring(0, 8)`. */
  function IdPrefix(analysisId: string): string {
    if |analysisId| >= 8 then analysisId[..8] else analysisId
  }

  /** `mistseeker-<first 8 characters of the id>-<Date.now()>`. */
  function ContainerNameOf(analysisId: string, now: nat): (r: string)
    ensures StartsWith(r, "mistseeker-")
  {
    "mistseeker-" + IdPrefix(analysisId) + "-" + NatToString(now)
  }

  function LicenseNotice(hasLicense: bool): string {
    if hasLicense then ProModeNotice else FreeModeNotice
  }

  /** The configuration `runAnalysis` passes to the Docker run: the license file only in Pro mode, and its own container name. */
  function RunConfigFor(config: AnalysisConfig, hasLicense: bool, licenseFilePath: string, containerName: string): DockerRunConfig {
    DockerRunConfig(config.imageName, config.projectPath, config.outputPath,
                    if hasLicense then Some(licenseFilePath) else None,
                    Some(containerName), None, None, None, None)
  }

  /** The container Docker is told to name is the one the job records. */
  lemma RunUsesRecordedContainer(config: AnalysisConfig, hasLicense: bool, licenseFilePath: string,
                                 analysisId: string, now: nat, facts: BuildFacts)
    ensures var name := ContainerNameOf(analysisId, now);
      RunArgs(RunConfigFor(config, hasLicense, licenseFilePath, name), facts)[3] == name
  {
    var name := ContainerNameOf(analysisId, now);
    ContainerNameChoice(RunConfigFor(config, hasLicense, licenseFilePath, name), facts);
  }

  function NoReportMessage(outputPath: string): string {
    NoReportText + outputPath
  }

  /** How a run that reached the Docker call ends: completed with its artifacts, or failed with a message. */
  datatype Verdict = Succeeded(files: OutputFiles) | FailedWith(message: string)

  /** How a job whose Docker run resolved ends, by what reading the output directory gave. */
  function ReadVerdict(read: Result<OutputFiles, string>, outputPath: string): (v: Verdict)
    ensures v.Succeeded? <==> read.Ok? && Truthy(read.value.json)
    ensures v.Succeeded? ==> v.files == read.value
    ensures read.Err? ==> v == FailedWith(read.error)
  {
    match read
    case Err(message) => FailedWith(message)
    case Ok(files) => if Truthy(files.json) then Succeeded(files) else FailedWith(NoReportMessage(outputPath))
  }

  /**
   * A job completes exactly when the Docker run resolved and the output
   * directory yielded a non-empty JSON report; the results are then what
   * was read.  A run that threw fails with its own message.
   */
  function RunVerdict(run: Result<DockerRunResult, string>, read: Result<OutputFiles, string>, outputPath: string): (v: Verdict)
    ensures v.Succeeded? <==> run.Ok? && read.Ok? && Truthy(read.value.json)
    ensures v.Succeeded? ==> v.files == read.value
    ensures run.Err? ==> v == FailedWith(run.error)
  {
    if run.Err? then FailedWith(run.error) else ReadVerdict(read, outputPath)
  }

  /** A directory holding only an image report fails the job: only the JSON report counts. */
  lemma ImageOnlyOutputFails(run: DockerRunResult, f: Flavour, outputPath: string, name: string, bytes: string)
    requires Matches(ImageReport, name)
    ensures RunVerdict(Ok(run), ReadOutputFiles(f, outputPath, Listing([Entry(name, None, Contents(bytes))])), outputPath)
      == FailedWith(NoReportMessage(outputPath))
  {
    ImageOnlyDirectory(f, outputPath, name, bytes);
  }

  /**
   * A non-zero exit without the report named in the output fails the job
   * with the Docker error, whatever the output directory holds.
   */
  lemma ExitCodeDecidesBeforeArtifacts(config: DockerRunConfig, facts: BuildFacts, code: int, stdout: string, stderr: string,
                                       read: Result<OutputFiles, string>, outputPath: string)
    requires code != 0 && !ReportSaved(stdout)
    ensures var run := RunOutcome(config, facts, true, true, ImagePresent, Closed(Some(code), stdout, stderr));
      && run.Err?
      && RunVerdict(run, read, outputPath) == FailedWith(run.error)
      && StartsWith(run.error, ExitFailureText + IntToString(code))
  {
  }

  /**
   * The messages logged once the output directory has been read.  A missing
   * report is logged once where it is found and once more by the `catch`.
   */
  function VerdictMessages(read: Result<OutputFiles, string>, outputPath: string): seq<string> {
    match ReadVerdict(read, outputPath)
    case Succeeded(_) => [CompletedNotice]
    case FailedWith(message) => (if read.Ok? then ["[Error] " + message] else []) + ["[Error] " + message]
  }

  /**
   * A report logs the completion notice; a read that failed logs its error
   * once; a directory without a JSON report logs its error twice.
   */
  lemma VerdictMessagesCases(read: Result<OutputFiles, string>, outputPath: string)
    ensures ReadVerdict(read, outputPath).Succeeded? ==> VerdictMessages(read, outputPath) == [CompletedNotice]
    ensures read.Err? ==> VerdictMessages(read, outputPath) == ["[Error] " + read.error]
    ensures read.Ok? && !Truthy(read.value.json) ==>
      VerdictMessages(read, outputPath) == ["[Error] " + NoReportMessage(outputPath), "[Error] " + NoReportMessage(outputPath)]
  {
  }

  /** The messages logged after the Docker run settles, by how the job ends. */
  function ClosingMessages(run: Result<DockerRunResult, string>, read: Result<OutputFiles, string>, outputPath: string): seq<string> {
    if run.Err? then ["[Error] " + run.error]
    else [ReadingNotice(outputPath)] + VerdictMessages(read, outputPath)
  }

  /** The line logged before the output directory is read. */
  function ReadingNotice(outputPath: string): string {
    ReadingText + outputPath
  }

  /**
   * Once the run resolved, the record is settled by what was read: the
   * exit code is kept, and the reading notice precedes the verdict's lines
   * in the buffer and among the events.
   */
  lemma ResolvedRunSettles(analysisId: string, before: AnalysisRecord, run: Result<DockerRunResult, string>,
                           read: Result<OutputFiles, string>, outputPath: string, now: nat)
    requires run.Ok?
    ensures var mid := Capped(before.logs + LogLines(ReadingNotice(outputPath)));
      var lines := AllLogLines(VerdictMessages(read, outputPath));
      Settled(before.(exitCode := Some(run.value.exitCode), logs := mid), ReadVerdict(read, outputPath), Capped(mid + lines), now)
        == FinalRecord(before, run, RunVerdict(run, read, outputPath),
                       Capped(before.logs + AllLogLines(ClosingMessages(run, read, outputPath))), now)
    ensures LogEvents(analysisId, LogLines(ReadingNotice(outputPath))) + LogEvents(analysisId, AllLogLines(VerdictMessages(read, outputPath)))
            == LogEvents(analysisId, AllLogLines(ClosingMessages(run, read, outputPath)))
    ensures FinalEvent(analysisId, ReadVerdict(read, outputPath)) == FinalEvent(analysisId, RunVerdict(run, read, outputPath))
  {
    LogsThen(analysisId, before.logs, ReadingNotice(outputPath), VerdictMessages(read, outputPath));
  }

  /** Events appended in two steps, then a last one. */
  lemma Regroup<T>(a: seq<T>, b: seq<T>, c: seq<T>, d: T)
    ensures a + b + c + [d] == a + (b + c) + [d]
  {
  }

  /** Two single elements appended one after the other. */
  lemma Pair<T>(s: seq<T>, a: T, b: T)
    ensures s + [a] + [b] == s + [a, b]
  {
  }

  /** Two single lines logged one after the other. */
  lemma CappedTwice(logs: seq<string>, a: string, b: string)
    ensures Capped(Capped(logs + [a]) + [b]) == Capped(logs + [a, b])
  {
    CappedAppend(logs + [a], [b]);
    Pair(logs, a, b);
  }

  /** The event that ends a job. */
  function FinalEvent(analysisId: string, v: Verdict): Event {
    match v
    case Succeeded(files) => CompleteEvent(analysisId, files)
    case FailedWith(message) => ErrorEvent(analysisId, message)
  }

  /**
   * The record once the verdict is in: whatever status it held before, even
   * `stopped`, is overwritten; the results are stored only on success and
   * the error only on failure.
   */
  function Settled(before: AnalysisRecord, v: Verdict, logs: seq<string>, now: nat): (r: AnalysisRecord)
    ensures r.id == before.id && r.config == before.config && r.startTime == before.startTime
    ensures r.containerName == before.containerName && r.exitCode == before.exitCode
    ensures r.logs == logs && r.endTime == Some(now)
    ensures r.status == Completed <==> v.Succeeded?
    ensures r.status == Failed <==> v.FailedWith?
    ensures v.Succeeded? ==> r.results == Some(v.files) && r.error == before.error
    ensures v.FailedWith? ==> r.results == before.results && r.error == Some(v.message)
  {
    match v
    case Succeeded(files) => before.(status := Completed, results := Some(files), endTime := Some(now), logs := logs)
    case FailedWith(message) => before.(status := Failed, error := Some(message), endTime := Some(now), logs := logs)
  }

  /** The record after the run: the exit code is kept when the run resolved, then the verdict settles it. */
  function FinalRecord(before: AnalysisRecord, run: Result<DockerRunResult, string>, v: Verdict, logs: seq<string>, now: nat): AnalysisRecord {
    Settled(if run.Ok? then before.(exitCode := Some(run.value.exitCode)) else before, v, logs, now)
  }

  /** One message logged alone appends its own lines. */
  lemma OneMessage(message: string)
    ensures AllLogLines([message]) == LogLines(message)
  {
    assert [message][..0] == [];
  }

  /** A message logged before several others: its lines come first, in the buffer and in the events. */
  lemma LogsThen(analysisId: string, logs: seq<string>, message: string, more: seq<string>)
    ensures Capped(Capped(logs + LogLines(message)) + AllLogLines(more)) == Capped(logs + AllLogLines([message] + more))
    ensures LogEvents(analysisId, LogLines(message)) + LogEvents(analysisId, AllLogLines(more))
            == LogEvents(analysisId, AllLogLines([message] + more))
  {
    OneMessage(message);
    AllLogLinesAppend([message], more);
    CappedThen(logs, LogLines(message), AllLogLines(more));
    LogEventsAppend(analysisId, LogLines(message), AllLogLines(more));
  }

  /** Settling a record replaces its buffer, so what the buffer held before does not matter. */
  lemma SettledReplacesLogs(before: AnalysisRecord, logs: seq<string>, run: Result<DockerRunResult, string>,
                            v: Verdict, after: seq<string>, now: nat)
    ensures FinalRecord(before.(logs := logs), run, v, after, now) == FinalRecord(before, run, v, after, now)
  {
  }

  /**
   * The run's messages, then the closing ones: the buffer ends as if all of
   * them had been logged at once (with no run message, the buffer is left
   * uncapped until the closing ones).
   */
  lemma LogsBeforeVerdict(logs: seq<string>, first: seq<string>, second: seq<string>)
    ensures var mid := if first == [] then logs else Capped(logs + AllLogLines(first));
      Capped(mid + AllLogLines(second)) == Capped(logs + AllLogLines(first + second))
  {
    AllLogLinesAppend(first, second);
    if first != [] {
      CappedThen(logs, AllLogLines(first), AllLogLines(second));
    } else {
      assert first + second == second;
    }
  }

  /** Capping between two appends does not change what the second cap keeps. */
  lemma CappedThen(logs: seq<string>, a: seq<string>, b: seq<string>)
    ensures Capped(Capped(logs + a) + b) == Capped(logs + (a + b))
  {
    CappedAppend(logs + a, b);
    assert logs + a + b == logs + (a + b);
  }

  // ---------------------------------------------------------------------------
  // The service.

  /** `AnalysisResult`: one job, whose fields the service updates in place. */
  class AnalysisResult {
    const id: string
    const config: AnalysisConfig
    const startTime: nat
    var status: Status
    var logs: seq<string>
    var results: Option<OutputFiles>
    var endTime: Option<nat>
    var error: Option<string>
    var containerName: Option<string>
    var exitCode: Option<int>

    /** The record `startAnalysis` creates: running, with no logs yet. */
    constructor (id: string, config: AnalysisConfig, startTime: nat)
      ensures Record() == AnalysisRecord(id, Running, config, [], None, startTime, None, None, None, None)
    {
      this.id := id;
      this.config := config;
      this.startTime := startTime;
      status := Running;
      logs := [];
      results := None;
      endTime := None;
      error := None;
      containerName := None;
      exitCode := None;
    }

    /** The job's fields as a value. */
    function Record(): AnalysisRecord
      reads this
    {
      AnalysisRecord(id, status, config, logs, results, startTime, endTime, error, containerName, exitCode)
    }
  }

  class AnalysisService {
    var analyses: map<string, AnalysisResult>
    /** Job id to the name of its running container. */
    var activeContainers: map<string, string>
    /**
     * The jobs whose `runAnalysis` is suspended at the Docker call, with the
     * configuration it passes there.
     */
    var awaiting: map<string, DockerRunConfig>
    ghost var events: seq<Event>
    const docker: DockerService

    /**
     * Each job is filed under its own id; active containers and runs in
     * flight belong to known jobs, and each has a container name.
     */
    ghost predicate Valid()
      reads this`analyses, this`activeContainers, this`awaiting
    {
      && (forall k :: k in analyses ==> analyses[k].id == k)
      && (forall k :: k in activeContainers ==> k in analyses && activeContainers[k] != "")
      && (forall k :: k in awaiting ==> k in analyses && Truthy(awaiting[k].containerName))
    }

    /** The job filed under `analysisId`, as a frame: none for an unknown id. */
    function Job(analysisId: string): set<AnalysisResult>
      reads this`analyses
    {
      if analysisId in analyses then {analyses[analysisId]} else {}
    }

    constructor (docker: DockerService)
      ensures Valid()
      ensures analyses == map[] && activeContainers == map[] && awaiting == map[] && events == []
      ensures this.docker == docker
    {
      analyses := map[];
      activeContainers := map[];
      awaiting := map[];
      events := [];
      this.docker := docker;
    }

    /**
     * `addLog`: appends the non-blank lines of `log`, keeps the newest 10000,
     * and emits one log event per appended line; an unknown id changes nothing.
     */
    method AddLog(analysisId: string, log: string)
      requires Valid()
      modifies this`events, Job(analysisId)`logs
      ensures Valid() && analyses == old(analyses)
      ensures analysisId !in analyses ==> events == old(events)
      ensures analysisId in analyses ==>
        && analyses[analysisId].logs == Capped(old(analyses[analysisId].logs) + LogLines(log))
        && events == old(events) + LogEvents(analysisId, LogLines(log))
    {
      if analysisId in analyses {
        var job := analyses[analysisId];
        var lines := Split(log, '\n');
        var logs := PushNonBlank(job.logs, lines);
        if |logs| > MaxLogLines {
          logs := logs[|logs| - MaxLogLines..];
        }
        job.logs := logs;
        EmitNonBlank(analysisId, lines);
      }
    }

    /** The second loop of `addLog`: one log event per non-blank line. */
    method EmitNonBlank(analysisId: string, lines: seq<string>)
      modifies this`events
      ensures events == old(events) + LogEvents(analysisId, NonBlank(lines))
    {
      var i := 0;
      while i < |lines|
        invariant 0 <= i <= |lines|
        invariant events == old(events) + LogEvents(analysisId, NonBlank(lines[..i]))
      {
        assert lines[..i + 1][..i] == lines[..i];
        var line := if Trim(lines[i]) != "" then [lines[i]] else [];
        LogEventsAppend(analysisId, NonBlank(lines[..i]), line);
        if Trim(lines[i]) != "" {
          events := events + [LogEvent(analysisId, lines[i])];
        }
        i := i + 1;
      }
      assert lines[..|lines|] == lines;
    }

    /**
     * Several `addLog` calls in a row: the same as one call with all their
     * lines (each call caps the buffer, so without any call it is left as it was).
     */
    method AddLogs(analysisId: string, messages: seq<string>)
      requires Valid()
      modifies this`events, Job(analysisId)`logs
      ensures Valid() && analyses == old(analyses) && awaiting == old(awaiting)
      ensures analysisId !in analyses ==> events == old(events)
      ensures analysisId in analyses ==>
        && analyses[analysisId].logs
             == (if messages == [] then old(analyses[analysisId].logs)
                 else Capped(old(analyses[analysisId].logs) + AllLogLines(messages)))
        && events == old(events) + LogEvents(analysisId, AllLogLines(messages))
    {
      if analysisId !in analyses {
        // Every call would find no record and do nothing.
        return;
      }
      if messages == [] {
        assert LogEvents(analysisId, AllLogLines(messages)) == [];
        return;
      }
      AddEach(analysisId, messages);
    }

    /** The loop behind `AddLogs`, for a known job and at least one message. */
    method AddEach(analysisId: string, messages: seq<string>)
      requires Valid() && analysisId in analyses && messages != []
      modifies this`events, Job(analysisId)`logs
      ensures Valid() && analyses == old(analyses)
      ensures analyses[analysisId].logs == Capped(old(analyses[analysisId].logs) + AllLogLines(messages))
      ensures events == old(events) + LogEvents(analysisId, AllLogLines(messages))
    {
      var job := analyses[analysisId];
      AddFirst(analysisId, messages);
      var i := 1;
      while i < |messages|
        invariant 1 <= i <= |messages|
        invariant Valid()
        invariant job.logs == Capped(old(job.logs) + AllLogLines(messages[..i]))
        invariant events == old(events) + LogEvents(analysisId, AllLogLines(messages[..i]))
      {
        AddNext(analysisId, messages, i, old(job.logs), old(events));
        i := i + 1;
      }
      assert messages[..|messages|] == messages;
    }

    /** The first `addLog` call of several. */
    method AddFirst(analysisId: string, messages: seq<string>)
      requires Valid() && analysisId in analyses && messages != []
      modifies this`events, Job(analysisId)`logs
      ensures Valid() && analyses == old(analyses)
      ensures analyses[analysisId].logs == Capped(old(analyses[analysisId].logs) + AllLogLines(messages[..1]))
      ensures events == old(events) + LogEvents(analysisId, AllLogLines(messages[..1]))
    {
      AddLog(analysisId, messages[0]);
      FirstMessage(messages);
    }

    /** One more `addLog` call: the buffer and the events hold the lines of one more message. */
    method AddNext(analysisId: string, messages: seq<string>, i: nat, ghost logs: seq<string>, ghost emitted: seq<Event>)
      requires Valid() && analysisId in analyses && i < |messages|
      requires analyses[analysisId].logs == Capped(logs + AllLogLines(messages[..i]))
      requires events == emitted + LogEvents(analysisId, AllLogLines(messages[..i]))
      modifies this`events, Job(analysisId)`logs
      ensures Valid() && analyses == old(analyses)
      ensures analyses[analysisId].logs == Capped(logs + AllLogLines(messages[..i + 1]))
      ensures events == emitted + LogEvents(analysisId, AllLogLines(messages[..i + 1]))
    {
      ghost var before := events;
      AddLog(analysisId, messages[i]);
      assert events == before + LogEvents(analysisId, LogLines(messages[i]));
      PrefixLogStep(analysisId, logs, emitted, messages, i);
    }

    /**
     * The `catch` of `runAnalysis`, up to the cleanup: the job fails with the
     * message, which is logged and emitted.
     */
    method MarkFailed(analysisId: string, message: string, now: nat)
      requires Valid() && analysisId in analyses
      modifies this`events, analyses[analysisId]
      ensures Valid() && analyses == old(analyses)
      ensures activeContainers == old(activeContainers) && awaiting == old(awaiting)
      ensures var lines := LogLines("[Error] " + message);
        && analyses[analysisId].Record()
             == Settled(old(analyses[analysisId].Record()), FailedWith(message), Capped(old(analyses[analysisId].logs) + lines), now)
        && events == old(events) + LogEvents(analysisId, lines) + [ErrorEvent(analysisId, message)]
    {
      var job := analyses[analysisId];
      ghost var before := job.Record();
      ghost var emitted := events;
      job.status := Failed;
      job.error := Some(message);
      job.endTime := Some(now);
      assert job.Record() == before.(status := Failed, error := Some(message), endTime := Some(now));
      ghost var lines := LogLines("[Error] " + message);
      AddLog(analysisId, "[Error] " + message);
      assert job.Record() == Settled(before, FailedWith(message), Capped(before.logs + lines), now);
      assert events == emitted + LogEvents(analysisId, lines);
      events := events + [ErrorEvent(analysisId, message)];
    }

    /** `addLog` of one of the fixed notices, each of which is a single non-blank line. */
    method AddNotice(analysisId: string, notice: string)
      requires Valid() && analysisId in analyses
      requires OneLineNotice(notice)
      modifies this`events, Job(analysisId)`logs
      ensures Valid() && analyses == old(analyses)
      ensures analyses[analysisId].logs == Capped(old(analyses[analysisId].logs) + [notice])
      ensures events == old(events) + [LogEvent(analysisId, notice)]
    {
      NoticeLine(notice);
      ghost var lines := LogLines(notice);
      AddLog(analysisId, notice);
      assert LogEvents(analysisId, lines) == [LogEvent(analysisId, notice)];
    }

    /**
     * The cleanup after a failure: when a container was named it is killed
     * and removed, any failure of either is ignored, and the job's entry is
     * dropped.
     */
    method CleanUp(analysisId: string, containerName: Option<string>, stopOutcome: ExecOutcome, removeOutcome: ExecOutcome)
      requires Valid()
      modifies this`activeContainers, docker`activeProcesses, docker`terminated
      ensures Valid() && analyses == old(analyses) && awaiting == old(awaiting)
      ensures Truthy(containerName) ==>
        && activeContainers == old(activeContainers) - {analysisId}
        && docker.activeProcesses == old(docker.activeProcesses) - {containerName.value}
        && docker.terminated == old(docker.terminated)
             + (if containerName.value in old(docker.activeProcesses) then [containerName.value] else [])
      ensures !Truthy(containerName) ==>
        activeContainers == old(activeContainers) && unchanged(docker)
    {
      if Truthy(containerName) {
        docker.KillContainer(containerName.value, stopOutcome);
        var _ := docker.RemoveContainer(containerName.value, removeOutcome);
        activeContainers := activeContainers - {analysisId};
      }
    }

    /**
     * `startAnalysis` with the part of `runAnalysis` that runs before its
     * first `await`: the new record is stored as running with no logs; then
     * either creating the output directory fails (the job fails at once, with
     * no container to clean up) or the job is prepared for the Docker run.
     * `analysisId` is the fresh UUID, `startTime` and `now` the two clock
     * readings, `mkdirError` what creating the directory throws, and
     * `hasLicense` and `licenseFilePath` the license service's answers.
     */
    method StartAnalysis(analysisId: string, config: AnalysisConfig, startTime: nat, now: nat, mkdirError: Option<string>,
                         hasLicense: bool, licenseFilePath: string) returns (id: string)
      requires Valid()
      requires analysisId !in analyses
      modifies this`analyses, this`activeContainers, this`awaiting, this`events
      ensures Valid()
      ensures id == analysisId && id in analyses && fresh(analyses[id])
      ensures analyses == old(analyses)[id := analyses[id]]
      ensures mkdirError.Some? ==>
        var message := mkdirError.value;
        && analyses[id].Record() == AnalysisRecord(id, Failed, config, Capped(LogLines("[Error] " + message)), None,
                                                   startTime, Some(now), Some(message), None, None)
        && activeContainers == old(activeContainers) && awaiting == old(awaiting)
        && events == old(events) + LogEvents(id, LogLines("[Error] " + message)) + [ErrorEvent(id, message)]
      ensures mkdirError.None? ==>
        var name := ContainerNameOf(id, now);
        && analyses[id].Record() == AnalysisRecord(id, Running, config, [LicenseNotice(hasLicense), StartingNotice], None,
                                                   startTime, None, None, Some(name), None)
        && activeContainers == old(activeContainers)[id := name]
        && awaiting == old(awaiting)[id := RunConfigFor(config, hasLicense, licenseFilePath, name)]
        && events == old(events) + [LogEvent(id, LicenseNotice(hasLicense)), LogEvent(id, StartingNotice)]
    {
      id := analysisId;
      Register(id, config, startTime);
      if mkdirError.Some? {
        FailAtStart(id, config, startTime, mkdirError.value, now);
      } else {
        PrepareAtStart(id, config, startTime, hasLicense, licenseFilePath, now);
      }
    }

    /** Creating the output directory threw: the new job fails with the message, before any container exists. */
    method FailAtStart(analysisId: string, config: AnalysisConfig, startTime: nat, message: string, now: nat)
      requires Valid() && analysisId in analyses
      requires analyses[analysisId].Record() == AnalysisRecord(analysisId, Running, config, [], None, startTime, None, None, None, None)
      modifies this`events, analyses[analysisId]
      ensures Valid() && analyses == old(analyses)
      ensures activeContainers == old(activeContainers) && awaiting == old(awaiting)
      ensures analyses[analysisId].Record() == AnalysisRecord(analysisId, Failed, config, Capped(LogLines("[Error] " + message)), None,
                                                             startTime, Some(now), Some(message), None, None)
      ensures events == old(events) + LogEvents(analysisId, LogLines("[Error] " + message)) + [ErrorEvent(analysisId, message)]
    {
      ghost var lines := LogLines("[Error] " + message);
      MarkFailed(analysisId, message, now);
      assert [] + lines == lines;
    }

    /** The new job, its directory in place, is prepared for the Docker run. */
    method PrepareAtStart(analysisId: string, config: AnalysisConfig, startTime: nat, hasLicense: bool, licenseFilePath: string, now: nat)
      requires Valid() && analysisId in analyses
      requires analyses[analysisId].Record() == AnalysisRecord(analysisId, Running, config, [], None, startTime, None, None, None, None)
      modifies this`activeContainers, this`awaiting, this`events, Job(analysisId)`logs, Job(analysisId)`containerName
      ensures Valid() && analyses == old(analyses)
      ensures var name := ContainerNameOf(analysisId, now);
        && analyses[analysisId].Record() == AnalysisRecord(analysisId, Running, config, [LicenseNotice(hasLicense), StartingNotice], None,
                                                          startTime, None, None, Some(name), None)
        && activeContainers == old(activeContainers)[analysisId := name]
        && awaiting == old(awaiting)[analysisId := RunConfigFor(config, hasLicense, licenseFilePath, name)]
        && events == old(events) + [LogEvent(analysisId, LicenseNotice(hasLicense)), LogEvent(analysisId, StartingNotice)]
    {
      Prepare(analysisId, config, hasLicense, licenseFilePath, now);
      assert [] + [LicenseNotice(hasLicense), StartingNotice] == [LicenseNotice(hasLicense), StartingNotice];
    }

    /** `analyses.set(analysisId, analysis)`: a new running job with no logs, filed under its id. */
    method Register(analysisId: string, config: AnalysisConfig, startTime: nat)
      requires Valid()
      requires analysisId !in analyses
      modifies this`analyses
      ensures Valid()
      ensures analysisId in analyses && fresh(analyses[analysisId])
      ensures analyses == old(analyses)[analysisId := analyses[analysisId]]
      ensures analyses[analysisId].Record() == AnalysisRecord(analysisId, Running, config, [], None, startTime, None, None, None, None)
    {
      var job := new AnalysisResult(analysisId, config, startTime);
      analyses := analyses[analysisId := job];
    }

    /**
     * The steps of `runAnalysis` between creating the output directory and
     * calling Docker: the license notice, the container name, the start notice.
     */
    method Prepare(analysisId: string, config: AnalysisConfig, hasLicense: bool, licenseFilePath: string, now: nat)
      requires Valid()
      requires analysisId in analyses
      modifies this`activeContainers, this`awaiting, this`events, Job(analysisId)`logs, Job(analysisId)`containerName
      ensures Valid() && analyses == old(analyses)
      ensures var name := ContainerNameOf(analysisId, now);
        && analyses[analysisId].Record() == old(analyses[analysisId].Record()).(
             logs := Capped(old(analyses[analysisId].logs) + [LicenseNotice(hasLicense), StartingNotice]),
             containerName := Some(name))
        && activeContainers == old(activeContainers)[analysisId := name]
        && awaiting == old(awaiting)[analysisId := RunConfigFor(config, hasLicense, licenseFilePath, name)]
        && events == old(events) + [LogEvent(analysisId, LicenseNotice(hasLicense)), LogEvent(analysisId, StartingNotice)]
    {
      LogOpening(analysisId, hasLicense);
      var containerName := ContainerNameOf(analysisId, now);
      RecordContainer(analysisId, containerName);
      AwaitRun(analysisId, RunConfigFor(config, hasLicense, licenseFilePath, containerName));
    }

    /** The license notice, then the starting notice. */
    method LogOpening(analysisId: string, hasLicense: bool)
      requires Valid() && analysisId in analyses
      modifies this`events, Job(analysisId)`logs
      ensures Valid() && analyses == old(analyses)
      ensures analyses[analysisId].logs == Capped(old(analyses[analysisId].logs) + [LicenseNotice(hasLicense), StartingNotice])
      ensures events == old(events) + [LogEvent(analysisId, LicenseNotice(hasLicense)), LogEvent(analysisId, StartingNotice)]
    {
      ghost var before := analyses[analysisId].logs;
      ghost var emitted := events;
      LogLicense(analysisId, hasLicense);
      LogStarting(analysisId);
      CappedTwice(before, LicenseNotice(hasLicense), StartingNotice);
      Pair(emitted, LogEvent(analysisId, LicenseNotice(hasLicense)), LogEvent(analysisId, StartingNotice));
    }

    /** The starting notice. */
    method LogStarting(analysisId: string)
      requires Valid() && analysisId in analyses
      modifies this`events, Job(analysisId)`logs
      ensures Valid() && analyses == old(analyses)
      ensures analyses[analysisId].logs == Capped(old(analyses[analysisId].logs) + [StartingNotice])
      ensures events == old(events) + [LogEvent(analysisId, StartingNotice)]
    {
      StartingNoticeIsOneLine();
      AddNotice(analysisId, StartingNotice);
    }

    /** `runAnalysis` suspends at the Docker call with this configuration. */
    method AwaitRun(analysisId: string, runConfig: DockerRunConfig)
      requires Valid() && analysisId in analyses && Truthy(runConfig.containerName)
      modifies this`awaiting
      ensures Valid() && analyses == old(analyses)
      ensures awaiting == old(awaiting)[analysisId := runConfig]
    {
      awaiting := awaiting[analysisId := runConfig];
    }

    /** The license notice: Pro mode with a license file, Free mode without. */
    method LogLicense(analysisId: string, hasLicense: bool)
      requires Valid() && analysisId in analyses
      modifies this`events, Job(analysisId)`logs
      ensures Valid() && analyses == old(analyses)
      ensures analyses[analysisId].logs == Capped(old(analyses[analysisId].logs) + [LicenseNotice(hasLicense)])
      ensures events == old(events) + [LogEvent(analysisId, LicenseNotice(hasLicense))]
    {
      LicenseNoticeIsOneLine(hasLicense);
      AddNotice(analysisId, LicenseNotice(hasLicense));
    }

    /** The job's container name is recorded on the job and among the active containers. */
    method RecordContainer(analysisId: string, containerName: string)
      requires Valid() && analysisId in analyses && containerName != ""
      modifies this`activeContainers, Job(analysisId)`containerName
      ensures Valid() && analyses == old(analyses)
      ensures analyses[analysisId].containerName == Some(containerName)
      ensures activeContainers == old(activeContainers)[analysisId := containerName]
    {
      var job := analyses[analysisId];
      job.containerName := Some(containerName);
      activeContainers := activeContainers[analysisId := containerName];
    }

    /**
     * The rest of `runAnalysis`, once the Docker run settles: its output is
     * logged; then the job completes when the run resolved and a JSON report
     * was read, and fails otherwise (cleaning up the container).  The
     * arguments are the host's answers to the Docker run, the output
     * directory, the cleanup commands and the clock.
     */
    method CompleteRun(analysisId: string, facts: BuildFacts, projectExists: bool, outputWritable: bool,
                       image: ImageStatus, chunks: seq<string>, end: ProcessEnd, pid: nat, dir: OutputDir,
                       stopOutcome: ExecOutcome, removeOutcome: ExecOutcome, now: nat)
      requires Valid() && analysisId in awaiting && analysisId in analyses
      modifies this`events, this`activeContainers, this`awaiting, analyses[analysisId], docker`activeProcesses, docker`terminated
      ensures analyses == old(analyses)
      ensures Valid()
      ensures awaiting == old(awaiting) - {analysisId}
      ensures activeContainers == old(activeContainers) - {analysisId}
      ensures var runConfig := old(awaiting)[analysisId];
        var run := RunOutcome(runConfig, facts, projectExists, outputWritable, image, end);
        var read := ReadOutputFiles(PathFlavour(facts.host.platform), runConfig.outputPath, dir);
        var verdict := RunVerdict(run, read, runConfig.outputPath);
        var lines := AllLogLines(RunMessages(runConfig, facts, projectExists, outputWritable, image, chunks)
                                 + ClosingMessages(run, read, runConfig.outputPath));
        && analyses[analysisId].Record()
             == FinalRecord(old(analyses[analysisId].Record()), run, verdict, Capped(old(analyses[analysisId].logs) + lines), now)
        && events == old(events) + LogEvents(analysisId, lines) + [FinalEvent(analysisId, verdict)]
    {
      var job := analyses[analysisId];
      ghost var before := job.Record();
      ghost var emitted := events;
      ghost var active := activeContainers;
      var runConfig := awaiting[analysisId];
      var containerName := runConfig.containerName;
      awaiting := awaiting - {analysisId};
      assert awaiting == old(awaiting) - {analysisId};

      var run, messages := docker.RunDockerCommand(runConfig, facts, projectExists, outputWritable, image, chunks, end, pid);
      assert Valid() && analysisId in analyses && analysisId !in awaiting && Truthy(containerName) && job == analyses[analysisId];
      assert job.Record() == before && job.logs == before.logs && events == emitted && activeContainers == active;
      ghost var jobs := analyses;
      ghost var waiting := awaiting;
      assert waiting == old(awaiting) - {analysisId};
      var read := ReadOutputFiles(PathFlavour(facts.host.platform), runConfig.outputPath, dir);
      Settle(analysisId, run, messages, read, runConfig.outputPath, containerName, stopOutcome, removeOutcome, now);
      assert analyses == jobs && awaiting == waiting;
      ghost var verdict := RunVerdict(run, read, runConfig.outputPath);
      ghost var lines := AllLogLines(messages + ClosingMessages(run, read, runConfig.outputPath));
      assert activeContainers == active - {analysisId};
      assert job.Record() == FinalRecord(before, run, verdict, Capped(before.logs + lines), now);
      assert events == emitted + LogEvents(analysisId, lines) + [FinalEvent(analysisId, verdict)];
    }

    /** The run's output is logged, then the job settles by the run and what the output directory holds. */
    method Settle(analysisId: string, run: Result<DockerRunResult, string>, messages: seq<string>,
                  read: Result<OutputFiles, string>, outputPath: string,
                  containerName: Option<string>, stopOutcome: ExecOutcome, removeOutcome: ExecOutcome, now: nat)
      requires Valid() && analysisId in analyses && analysisId !in awaiting
      requires Truthy(containerName)
      modifies this`events, this`activeContainers, analyses[analysisId], docker`activeProcesses, docker`terminated
      ensures analyses == old(analyses) && awaiting == old(awaiting)
      ensures Valid()
      ensures activeContainers == old(activeContainers) - {analysisId}
      ensures var verdict := RunVerdict(run, read, outputPath);
        var lines := AllLogLines(messages + ClosingMessages(run, read, outputPath));
        && analyses[analysisId].Record()
             == FinalRecord(old(analyses[analysisId].Record()), run, verdict, Capped(old(analyses[analysisId].logs) + lines), now)
        && events == old(events) + LogEvents(analysisId, lines) + [FinalEvent(analysisId, verdict)]
    {
      var job := analyses[analysisId];
      ghost var before := job.Record();
      ghost var emitted := events;
      AddLogs(analysisId, messages);
      ghost var midLogs := if messages == [] then before.logs else Capped(before.logs + AllLogLines(messages));
      ghost var mid := job.Record();
      assert job.logs == midLogs;
      assert mid == before.(logs := midLogs);
      ghost var e1 := LogEvents(analysisId, AllLogLines(messages));
      ghost var logged := events;
      assert logged == emitted + e1;
      AfterRun(analysisId, run, read, outputPath, containerName, stopOutcome, removeOutcome, now);
      ghost var verdict := RunVerdict(run, read, outputPath);
      ghost var closing := ClosingMessages(run, read, outputPath);
      ghost var e2 := LogEvents(analysisId, AllLogLines(closing));
      ghost var fe := FinalEvent(analysisId, verdict);
      assert events == logged + e2 + [fe];
      assert job.Record() == FinalRecord(mid, run, verdict, Capped(midLogs + AllLogLines(closing)), now);
      LogsBeforeVerdict(before.logs, messages, closing);
      SettledReplacesLogs(before, midLogs, run, verdict, Capped(midLogs + AllLogLines(closing)), now);
      AllLogLinesAppend(messages, closing);
      LogEventsAppend(analysisId, AllLogLines(messages), AllLogLines(closing));
      Regroup(emitted, e1, e2, fe);
    }

    /**
     * `runAnalysis` after the Docker call: a run that threw fails the job;
     * otherwise the exit code is recorded, the output directory is read and
     * the job settles by what was found.
     */
    method AfterRun(analysisId: string, run: Result<DockerRunResult, string>, read: Result<OutputFiles, string>, outputPath: string,
                    containerName: Option<string>, stopOutcome: ExecOutcome, removeOutcome: ExecOutcome, now: nat)
      requires Valid() && analysisId in analyses && analysisId !in awaiting
      requires Truthy(containerName)
      modifies this`events, this`activeContainers, analyses[analysisId], docker`activeProcesses, docker`terminated
      ensures Valid() && analyses == old(analyses) && awaiting == old(awaiting)
      ensures activeContainers == old(activeContainers) - {analysisId}
      ensures var v := RunVerdict(run, read, outputPath);
        var lines := AllLogLines(ClosingMessages(run, read, outputPath));
        && analyses[analysisId].Record()
             == FinalRecord(old(analyses[analysisId].Record()), run, v, Capped(old(analyses[analysisId].logs) + lines), now)
        && events == old(events) + LogEvents(analysisId, lines) + [FinalEvent(analysisId, v)]
    {
      match run
      case Err(message) =>
        Fail(analysisId, message, containerName, stopOutcome, removeOutcome, now);
        OneMessage("[Error] " + message);
      case Ok(_) =>
        ReadAndConclude(analysisId, run, read, outputPath, containerName, stopOutcome, removeOutcome, now);
    }

    /** The Docker run resolved: the exit code is kept, the reading notice is logged and the job settles by what was read. */
    method ReadAndConclude(analysisId: string, run: Result<DockerRunResult, string>, read: Result<OutputFiles, string>,
                           outputPath: string, containerName: Option<string>, stopOutcome: ExecOutcome, removeOutcome: ExecOutcome, now: nat)
      requires Valid() && analysisId in analyses && analysisId !in awaiting
      requires Truthy(containerName)
      requires run.Ok?
      modifies this`events, this`activeContainers, analyses[analysisId], docker`activeProcesses, docker`terminated
      ensures Valid() && analyses == old(analyses) && awaiting == old(awaiting)
      ensures activeContainers == old(activeContainers) - {analysisId}
      ensures var v := RunVerdict(run, read, outputPath);
        var lines := AllLogLines(ClosingMessages(run, read, outputPath));
        && analyses[analysisId].Record()
             == FinalRecord(old(analyses[analysisId].Record()), run, v, Capped(old(analyses[analysisId].logs) + lines), now)
        && events == old(events) + LogEvents(analysisId, lines) + [FinalEvent(analysisId, v)]
    {
      var job := analyses[analysisId];
      ghost var before := job.Record();
      ghost var emitted := events;
      LogReading(analysisId, run.value.exitCode, outputPath);
      ghost var midLogs := Capped(before.logs + LogLines(ReadingNotice(outputPath)));
      ghost var mid := job.Record();
      assert mid == before.(exitCode := Some(run.value.exitCode), logs := midLogs);
      ghost var e1 := LogEvents(analysisId, LogLines(ReadingNotice(outputPath)));
      ghost var reading := events;
      assert reading == emitted + e1;
      Conclude(analysisId, read, outputPath, containerName, stopOutcome, removeOutcome, now);
      ghost var e2 := LogEvents(analysisId, AllLogLines(VerdictMessages(read, outputPath)));
      ghost var fe := FinalEvent(analysisId, ReadVerdict(read, outputPath));
      assert events == reading + e2 + [fe];
      assert job.Record() == Settled(mid, ReadVerdict(read, outputPath), Capped(midLogs + AllLogLines(VerdictMessages(read, outputPath))), now);
      ResolvedRunSettles(analysisId, before, run, read, outputPath, now);
      Regroup(emitted, e1, e2, fe);
    }

    /** The exit code is recorded, then the reading notice logged. */
    method LogReading(analysisId: string, exitCode: int, outputPath: string)
      requires Valid() && analysisId in analyses
      modifies this`events, analyses[analysisId]
      ensures Valid() && analyses == old(analyses) && awaiting == old(awaiting)
      ensures activeContainers == old(activeContainers)
      ensures analyses[analysisId].Record()
                == old(analyses[analysisId].Record()).(exitCode := Some(exitCode),
                                                       logs := Capped(old(analyses[analysisId].logs) + LogLines(ReadingNotice(outputPath))))
      ensures events == old(events) + LogEvents(analysisId, LogLines(ReadingNotice(outputPath)))
    {
      var job := analyses[analysisId];
      ghost var before := job.Record();
      job.exitCode := Some(exitCode);
      assert job.Record() == before.(exitCode := Some(exitCode));
      AddLog(analysisId, ReadingNotice(outputPath));
      assert job.Record() == before.(exitCode := Some(exitCode), logs := job.logs);
    }

    /** The end of the `try` of `runAnalysis` and its `catch`, once the output directory is read. */
    method Conclude(analysisId: string, read: Result<OutputFiles, string>, outputPath: string,
                    containerName: Option<string>, stopOutcome: ExecOutcome, removeOutcome: ExecOutcome, now: nat)
      requires Valid() && analysisId in analyses && analysisId !in awaiting
      requires Truthy(containerName)
      modifies this`events, this`activeContainers, analyses[analysisId], docker`activeProcesses, docker`terminated
      ensures Valid() && analyses == old(analyses) && awaiting == old(awaiting)
      ensures activeContainers == old(activeContainers) - {analysisId}
      ensures analyses[analysisId].Record() == Settled(old(analyses[analysisId].Record()), ReadVerdict(read, outputPath), Capped(old(analyses[analysisId].logs) + AllLogLines(VerdictMessages(read, outputPath))), now)
      ensures events == old(events) + LogEvents(analysisId, AllLogLines(VerdictMessages(read, outputPath))) + [FinalEvent(analysisId, ReadVerdict(read, outputPath))]
    {
      match read
      case Err(message) =>
        Fail(analysisId, message, containerName, stopOutcome, removeOutcome, now);
        OneMessage("[Error] " + message);
        VerdictMessagesCases(read, outputPath);
      case Ok(found) =>
        VerdictMessagesCases(read, outputPath);
        if Truthy(found.json) {
          Complete(analysisId, found, now);
          CompletedNoticeLogged(analysisId);
        } else {
          FailNoReport(analysisId, outputPath, containerName, stopOutcome, removeOutcome, now);
        }
    }

    /**
     * A report was found: the completion notice is logged, the job completes
     * with the files read, and its container is no longer active.
     */
    method Complete(analysisId: string, found: OutputFiles, now: nat)
      requires Valid() && analysisId in analyses
      modifies this`events, this`activeContainers, analyses[analysisId]
      ensures Valid() && analyses == old(analyses) && awaiting == old(awaiting)
      ensures activeContainers == old(activeContainers) - {analysisId}
      ensures analyses[analysisId].Record()
                == Settled(old(analyses[analysisId].Record()), Succeeded(found), Capped(old(analyses[analysisId].logs) + [CompletedNotice]), now)
      ensures events == old(events) + LogEvents(analysisId, [CompletedNotice]) + [CompleteEvent(analysisId, found)]
    {
      var job := analyses[analysisId];
      ghost var before := job.Record();
      CompletedNoticeIsOneLine();
      AddNotice(analysisId, CompletedNotice);
      assert job.Record() == before.(logs := job.logs);
      job.status := Completed;
      job.results := Some(found);
      job.endTime := Some(now);
      assert job.Record() == before.(status := Completed, results := Some(found), endTime := Some(now), logs := job.logs);
      events := events + [CompleteEvent(analysisId, found)];
      Release(analysisId);
      assert LogEvents(analysisId, [CompletedNotice]) == [LogEvent(analysisId, CompletedNotice)];
    }

    /** The job's container is no longer active. */
    method Release(analysisId: string)
      requires Valid()
      modifies this`activeContainers
      ensures Valid() && analyses == old(analyses)
      ensures activeContainers == old(activeContainers) - {analysisId}
    {
      activeContainers := activeContainers - {analysisId};
    }

    /**
     * No JSON report was found: the `try` logs the error and throws it, and
     * the `catch` fails the job with the same message.
     */
    method FailNoReport(analysisId: string, outputPath: string, containerName: Option<string>,
                        stopOutcome: ExecOutcome, removeOutcome: ExecOutcome, now: nat)
      requires Valid() && analysisId in analyses
      requires Truthy(containerName)
      modifies this`events, this`activeContainers, analyses[analysisId], docker`activeProcesses, docker`terminated
      ensures Valid() && analyses == old(analyses) && awaiting == old(awaiting)
      ensures activeContainers == old(activeContainers) - {analysisId}
      ensures var message := NoReportMessage(outputPath);
        var lines := AllLogLines(["[Error] " + message, "[Error] " + message]);
        && analyses[analysisId].Record()
             == Settled(old(analyses[analysisId].Record()), FailedWith(message), Capped(old(analyses[analysisId].logs) + lines), now)
        && events == old(events) + LogEvents(analysisId, lines) + [ErrorEvent(analysisId, message)]
    {
      var job := analyses[analysisId];
      ghost var before := job.Record();
      ghost var emitted := events;
      var message := NoReportMessage(outputPath);
      AddLog(analysisId, "[Error] " + message);
      ghost var line := "[Error] " + message;
      ghost var midLogs := Capped(before.logs + LogLines(line));
      assert job.logs == midLogs;
      ghost var mid := job.Record();
      assert mid == before.(logs := midLogs);
      ghost var e1 := LogEvents(analysisId, LogLines(line));
      ghost var logged := events;
      assert logged == emitted + e1;
      Fail(analysisId, message, containerName, stopOutcome, removeOutcome, now);
      assert events == logged + e1 + [ErrorEvent(analysisId, message)];
      assert job.Record() == Settled(mid, FailedWith(message), Capped(midLogs + LogLines(line)), now);
      LogsThen(analysisId, before.logs, line, [line]);
      OneMessage(line);
      assert [line] + [line] == [line, line];
      Regroup(emitted, e1, e1, ErrorEvent(analysisId, message));
    }

    /**
     * The `catch` of `runAnalysis`: the job fails with the message, which is
     * logged and emitted; when a container was named it is killed and
     * removed, any failure of either is ignored, and it is no longer active.
     */
    method Fail(analysisId: string, message: string, containerName: Option<string>,
                stopOutcome: ExecOutcome, removeOutcome: ExecOutcome, now: nat)
      requires Valid() && analysisId in analyses
      modifies this`events, this`activeContainers, analyses[analysisId], docker`activeProcesses, docker`terminated
      ensures Valid() && analyses == old(analyses) && awaiting == old(awaiting)
      ensures var lines := LogLines("[Error] " + message);
        && analyses[analysisId].Record()
             == Settled(old(analyses[analysisId].Record()), FailedWith(message), Capped(old(analyses[analysisId].logs) + lines), now)
        && events == old(events) + LogEvents(analysisId, lines) + [ErrorEvent(analysisId, message)]
      ensures activeContainers == if Truthy(containerName) then old(activeContainers) - {analysisId} else old(activeContainers)
      ensures Truthy(containerName) ==>
        && docker.activeProcesses == old(docker.activeProcesses) - {containerName.value}
        && docker.terminated == old(docker.terminated)
             + (if containerName.value in old(docker.activeProcesses) then [containerName.value] else [])
      ensures !Truthy(containerName) ==> unchanged(docker)
    {
      MarkFailed(analysisId, message, now);
      CleanUp(analysisId, containerName, stopOutcome, removeOutcome);
    }

    /**
     * `stopAnalysis`: only a running job with a container can be stopped.
     * The container is killed and removed; if removal fails the failure is
     * logged and the job keeps running; otherwise the job is stopped.
     */
    method StopAnalysis(analysisId: string, stopOutcome: ExecOutcome, removeOutcome: ExecOutcome, now: nat)
      returns (stopped: bool)
      requires Valid()
      modifies this`events, this`activeContainers, Job(analysisId), docker`activeProcesses, docker`terminated
      ensures Valid()
      ensures var attempted := analysisId in analyses && old(analyses[analysisId].status) == Running
                               && analysisId in old(activeContainers);
        && (stopped <==> attempted && RemoveSwallowed(removeOutcome))
        && (!attempted ==>
              unchanged(Job(analysisId)) && events == old(events) && activeContainers == old(activeContainers)
              && unchanged(docker))
        && (attempted ==>
              var name := old(activeContainers)[analysisId];
              && docker.activeProcesses == old(docker.activeProcesses) - {name}
              && docker.terminated == old(docker.terminated) + (if name in old(docker.activeProcesses) then [name] else []))
      ensures stopped ==>
        && analyses[analysisId].Record()
             == old(analyses[analysisId].Record()).(status := Stopped, endTime := Some(now),
                                                    logs := Capped(old(analyses[analysisId].logs) + [StoppedNotice]))
        && activeContainers == old(activeContainers) - {analysisId}
        && events == old(events) + [LogEvent(analysisId, StoppedNotice)]
      ensures !stopped && analysisId in analyses && old(analyses[analysisId].status) == Running
              && analysisId in old(activeContainers) ==>
        var lines := LogLines("[Error] Failed to stop: " + removeOutcome.message);
        && analyses[analysisId].Record()
             == old(analyses[analysisId].Record()).(logs := Capped(old(analyses[analysisId].logs) + lines))
        && activeContainers == old(activeContainers)
        && events == old(events) + LogEvents(analysisId, lines)
    {
      if analysisId !in analyses || analyses[analysisId].status != Running {
        return false;
      }
      if analysisId in activeContainers && activeContainers[analysisId] != "" {
        stopped := Halt(analysisId, activeContainers[analysisId], stopOutcome, removeOutcome, now);
        return;
      }
      return false;
    }

    /** The `try` of `stopAnalysis`: kill and remove the container, then stop the job or log the failure. */
    method Halt(analysisId: string, containerName: string, stopOutcome: ExecOutcome, removeOutcome: ExecOutcome, now: nat)
      returns (stopped: bool)
      requires Valid() && analysisId in analyses
      modifies this`events, this`activeContainers, Job(analysisId), docker`activeProcesses, docker`terminated
      ensures Valid() && analyses == old(analyses) && awaiting == old(awaiting)
      ensures stopped <==> RemoveSwallowed(removeOutcome)
      ensures docker.activeProcesses == old(docker.activeProcesses) - {containerName}
      ensures docker.terminated == old(docker.terminated) + (if containerName in old(docker.activeProcesses) then [containerName] else [])
      ensures stopped ==>
        && analyses[analysisId].Record()
             == old(analyses[analysisId].Record()).(status := Stopped, endTime := Some(now),
                                                    logs := Capped(old(analyses[analysisId].logs) + [StoppedNotice]))
        && activeContainers == old(activeContainers) - {analysisId}
        && events == old(events) + [LogEvent(analysisId, StoppedNotice)]
      ensures !stopped ==>
        var lines := LogLines("[Error] Failed to stop: " + removeOutcome.message);
        && analyses[analysisId].Record()
             == old(analyses[analysisId].Record()).(logs := Capped(old(analyses[analysisId].logs) + lines))
        && activeContainers == old(activeContainers)
        && events == old(events) + LogEvents(analysisId, lines)
    {
      docker.KillContainer(containerName, stopOutcome);
      var thrown := docker.RemoveContainer(containerName, removeOutcome);
      if thrown.Some? {
        LogStopFailure(analysisId, thrown.value);
        return false;
      }
      MarkStopped(analysisId, now);
      return true;
    }

    /** A failed removal is logged; nothing else about the job changes. */
    method LogStopFailure(analysisId: string, message: string)
      requires Valid() && analysisId in analyses
      modifies this`events, Job(analysisId)`logs
      ensures Valid() && analyses == old(analyses) && activeContainers == old(activeContainers) && awaiting == old(awaiting)
      ensures var lines := LogLines("[Error] Failed to stop: " + message);
        && analyses[analysisId].Record() == old(analyses[analysisId].Record()).(logs := Capped(old(analyses[analysisId].logs) + lines))
        && events == old(events) + LogEvents(analysisId, lines)
    {
      AddLog(analysisId, "[Error] Failed to stop: " + message);
      assert analyses[analysisId].Record() == old(analyses[analysisId].Record()).(logs := analyses[analysisId].logs);
    }

    /** A stopped job: no longer active, stopped now, with the stop notice logged. */
    method MarkStopped(analysisId: string, now: nat)
      requires Valid() && analysisId in analyses
      modifies this`events, this`activeContainers, analyses[analysisId]
      ensures Valid() && analyses == old(analyses) && awaiting == old(awaiting)
      ensures analyses[analysisId].Record()
                == old(analyses[analysisId].Record()).(status := Stopped, endTime := Some(now),
                                                       logs := Capped(old(analyses[analysisId].logs) + [StoppedNotice]))
      ensures activeContainers == old(activeContainers) - {analysisId}
      ensures events == old(events) + [LogEvent(analysisId, StoppedNotice)]
    {
      var job := analyses[analysisId];
      ghost var before := job.Record();
      LogStopped(analysisId);
      assert job.Record() == before.(logs := job.logs);
      job.status := Stopped;
      job.endTime := Some(now);
      assert job.Record() == before.(status := Stopped, endTime := Some(now), logs := job.logs);
      Release(analysisId);
    }

    /** The stop notice. */
    method LogStopped(analysisId: string)
      requires Valid() && analysisId in analyses
      modifies this`events, Job(analysisId)`logs
      ensures Valid() && analyses == old(analyses)
      ensures analyses[analysisId].logs == Capped(old(analyses[analysisId].logs) + [StoppedNotice])
      ensures events == old(events) + [LogEvent(analysisId, StoppedNotice)]
    {
      StoppedNoticeIsOneLine();
      AddNotice(analysisId, StoppedNotice);
    }

    /** `getLogs`: the job's buffer, or nothing for an unknown id. */
    function GetLogs(analysisId: string): (r: seq<string>)
      reads this, analyses.Values
      ensures analysisId in analyses ==> r == analyses[analysisId].logs
      ensures analysisId !in analyses ==> r == []
    {
      if analysisId in analyses then analyses[analysisId].logs else []
    }

    /** `getAnalysis` and `getResults`: the job's record, or nothing for an unknown id. */
    function GetAnalysis(analysisId: string): (r: Option<AnalysisRecord>)
      reads this, analyses.Values
      requires Valid()
      ensures r.Some? <==> analysisId in analyses
      ensures r.Some? ==> r.value == analyses[analysisId].Record() && r.value.id == analysisId
    {
      if analysisId in analyses then Some(analyses[analysisId].Record()) else None
    }
  }
}
