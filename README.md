# MistSeeker Desktop orchestration core in Dafny

This project models the part of MistSeeker Desktop that runs the MistSeeker
analysis engine in Docker and tracks each analysis job. It covers:

- **`DockerService`**, as `Docker.DockerService` in `docker.dfy`:
  - the `docker run` argument builder;
  - the rule that decides whether a run resolves or rejects;
  - the `activeProcesses` bookkeeping of stop, remove and kill;
  - the cached availability probe.
- **`AnalysisService`**, as `Analysis.AnalysisService` in `analysis.dfy`:
  - the job registry;
  - the bounded log buffer fed by `addLog`;
  - `startAnalysis` and `runAnalysis` up to the Docker call, then the rest
    of `runAnalysis` once the run settles;
  - `stopAnalysis`;
  - the read accessors.
- **`readOutputFiles`**, in `output_collector.dfy`. It picks the first
  `.json` file, the first image file and `run.log` out of a directory
  listing, and reports missing pieces as error strings.
- **`normalizeDockerPath`** in both of its versions, the TypeScript source
  and the compiled JavaScript, plus the host tests, in `os_detection.dfy`.
  `getDockerCommand` is the constant `OsDetection.DockerCommand` (`docker`).
- **`SettingsService`** and the output-path derivation (`getProjectName`,
  the scan timestamp, `generateOutputPath`), in `settings.dfy`.

`strings.dfy` and `node_path.dfy` model the JavaScript string operations and
the Node `path` functions the code relies on: `split`, `trim`, `replace`,
`basename`, `extname` and `join`. `wrappers.dfy` holds `Option`, `Result`
and JavaScript truthiness for optional strings.

The two services are classes whose fields change as the source changes them:

- `analyses` maps ids to `AnalysisResult` objects whose fields are assigned
  in place;
- `activeContainers` and `activeProcesses` are maps;
- `dockerAvailable` is a cached `Option<bool>`;
- the settings file is a field.

Everything the code learns from the outside world arrives as a parameter.
That covers process output and exit, file-system answers, the clock,
random ids and names, and license-file contents.

Each job's events (`analysis-log`, `analysis-complete`, `analysis-error`)
are appended, in emission order, to a ghost sequence `events`.

`runAnalysis` is asynchronous. It is modelled at its suspension point:

- `StartAnalysis` covers everything before the `await` of the Docker run.
- The arguments that configured run will receive are kept in the map field
  `awaiting`, which the continuation reads.
- `CompleteRun` is the continuation once the run settles.
- `StopAnalysis` may run in between. In that case `CompleteRun` overwrites
  the stopped status, as the code does.
- The container's process enters `docker.activeProcesses` only inside
  `CompleteRun`, where `RunDockerCommand` is called. A `StopAnalysis` in
  between therefore finds no tracked process to send SIGTERM to, where the
  code would find the live `docker run` process (docker.ts:540-551). The
  run's end is a parameter of `CompleteRun` anyway, so what the model loses
  is only that ghost entry in `docker.terminated`.

### Behaviour of the code worth knowing

- **The scan folder can lie inside the project.** `generateOutputPath`
  joins whatever reports path is set, and `setReportsPath` accepts any path.
  Its comment promises that the output path is not inside the project
  directory, but once the reports path is the project directory itself, the
  output path starts with that directory and a separator
  (`Settings.OutputCanLieInsideProject`).

- **The exit code is decided before any artifact is checked.** A non-zero
  exit without `Report saved:` or `mistseeker_report.json` in stdout rejects
  inside `runDockerCommand`. That happens before the output directory is
  read, so the job fails whatever the directory holds
  (`Analysis.ExitCodeDecidesBeforeArtifacts`).
- **An image-only output directory fails the job.** The job completes only
  when `results.json` is truthy (`Analysis.ImageOnlyOutputFails`). The failed
  record does not store the collected `results.errors` either: `results` is
  assigned only on success.
- **Terminal states are not protected.** `Stopped` is overwritten when the
  run later settles (`Analysis.Settled`).
- **A null close code counts as success.** A process ended by a signal
  closes with code `null`, and `code || 0` treats it as exit code 0
  (`Docker.SignalledRunResolves`).
- **The license key needs more than the file.** `MISTSEEKER_LICENSE_KEY` is
  passed only when the file exists, parses and holds a non-empty
  `license_key` or `licenseKey` (`Docker.LicenseKeyPrefersSnakeCase`,
  `Docker.PushLicenseArgs`).
- **A missing report is logged twice.** It is logged once where it is
  detected and once more by the `catch` (`Analysis.VerdictMessagesCases`).
- **The argument builder uses the TypeScript `normalizeDockerPath`.**
  `Docker.BuildDockerRunCommand` normalises through
  `OsDetection.NormalizeDockerPathTs`, which resolves a relative path off
  Windows. The compiled JavaScript version would instead throw
  `Path must be absolute` there (`OsDetection.TwinsAgreeOnAbsolutePaths`).

## Model

| member | source | states |
|---|---|---|
| OsDetection.AtMostOnePlatform | src/shared/os-detection.ts:13-23 | no host is more than one of Windows, macOS and Linux |
| OsDetection.WindowsDockerPath | src/shared/os-detection.ts:52-67 | the Windows rewrite always yields a path starting with `/` and holding no backslash |
| OsDetection.WindowsDrive | src/shared/os-detection.ts:55-58 | `X:rest` becomes `/x` (lower-cased letter) followed by the rest with `\` turned into `/`, e.g. `C:\Users\a` to `/c/Users/a` |
| OsDetection.WindowsNoDrive | src/shared/os-detection.ts:52-65 | without a drive the re-slashed path is kept, with `/` prepended exactly when it does not already start with a separator |
| OsDetection.WindowsIdempotent | src/shared/os-detection.ts:52-67 | normalising an already normalised Windows path changes nothing |
| OsDetection.TsOffWindows | src/shared/os-detection.ts:44-72 | off Windows an absolute path is returned unchanged, a relative one is replaced by its resolution, and the answer is absolute |
| OsDetection.TsOnWindows | src/shared/os-detection.ts:44-68 | on Windows the answer starts with `/`, has no backslash, and normalising it again returns it unchanged |
| OsDetection.JsThrowsOnlyForRelative | src/shared/os-detection.js:73-98 | the compiled version throws `Path must be absolute: <p>` exactly for a relative path off Windows, never on Windows, and returns an absolute path unchanged |
| OsDetection.TwinsAgreeOnAbsolutePaths | src/shared/os-detection.js:73-98 | both versions give the same answer for every path the host calls absolute; for a relative path off Windows one resolves it and the other throws |
| NodePath.Basename | src/main/services/settings.ts:93 | `path.basename` yields a name containing no separator |
| NodePath.Extname | src/main/services/analysis.ts:344 | `path.extname` is empty or a suffix of the name that starts with its only `.` |
| JsStrings.SplitPartsOmitSep | src/main/services/analysis.ts:265 | no piece of `log.split('\n')` contains a newline |
| JsStrings.JoinSplit | src/main/services/analysis.ts:265 | joining the pieces of a split with the separator gives back the message |
| JsStrings.TrimEmptyIffBlank | src/main/services/analysis.ts:267 | `line.trim()` is empty exactly when every character of the line is JavaScript whitespace |
| JsStrings.ReplaceAll | src/main/services/settings.ts:101 | a global character-class replace keeps the length, and when the replacement is outside the class no listed character is left |
| JsStrings.ReplaceAllConcat | src/main/services/settings.ts:68 | the replacement works piecewise: replacing in `a + b` is replacing in `a`, then in `b` |
| JsStrings.ReplaceAllIdempotent | src/main/services/settings.ts:101 | replacing a second time changes nothing |
| JsStrings.ReplaceFirst | src/main/services/settings.ts:67 | a non-global replace keeps the length, puts the replacement at the first occurrence with none before it, keeps every other character, and leaves text without one unchanged |
| Settings.SanitizeName | src/main/services/settings.ts:101 | same length, and none of `<`, `>`, `:`, `"`, `/`, `\`, the vertical bar, `?` or `*` is left |
| Settings.ProjectName | src/main/services/settings.ts:91-109 | the project name is never empty, at most 50 characters, and free of unsafe characters |
| Settings.ProjectNameOfTempFolder | src/main/services/settings.ts:96-98 | a folder whose name starts with `mistseeker-` is named `Pasted Code` |
| Settings.ProjectNameKeepsLeadingCharacters | src/main/services/settings.ts:100-106 | any other non-empty folder name keeps its first 50 characters, each unsafe one replaced by `_` and the others unchanged |
| Settings.ProjectNameOfEmptyFolderName | src/main/services/settings.ts:108 | a path with no last segment gives `Untitled Project` |
| Settings.DropFractionAt | src/main/services/settings.ts:69 | `.replace(/\..+/, '')` drops everything from the first `.` that has a character after it |
| Settings.TimestampFormat | src/main/services/settings.ts:66-69 | the scan folder is `YYYY-MM-DD_HH-MM-SS`: the ISO date, `_`, the time with `-` separators, and no milliseconds or zone |
| Settings.SettingsService.constructor | src/main/services/settings.ts:10-23 | the default reports path is `MistSeeker Reports` joined to the documents directory |
| Settings.SettingsService.GetReportsPath | src/main/services/settings.ts:28-37 | a stored non-empty `reportsPath` wins, otherwise the default; a missing or unparsable file counts as `{}` |
| Settings.SettingsService.SetReportsPath | src/main/services/settings.ts:42-46 | the file becomes the loaded record with only `reportsPath` changed, and `GetReportsPath` then answers it (or the default when it is empty); a failed write leaves the file as it was |
| Settings.SettingsService.ResetReportsPath | src/main/services/settings.ts:51-55 | the default is stored, after which `GetReportsPath` answers the default |
| Settings.TimestampHasNoSeparator | src/main/services/settings.ts:66-69 | the scan folder name holds no path separator on any host |
| Settings.SettingsService.GenerateOutputPath | src/main/services/settings.ts:62-71 | the output path is reports path, project name and timestamp joined, and neither added segment holds a separator |
| Settings.OutputCanLieInsideProject | src/main/services/settings.ts:57-71 | nothing keeps the output path out of the project: with the project directory as reports path, the output path starts with that directory and a separator |
| Docker.LicenseKey | src/main/services/docker.ts:210 | a license key, when found, is non-empty |
| Docker.LicenseKeyPrefersSnakeCase | src/main/services/docker.ts:204-225 | `license_key` wins when non-empty, `licenseKey` is the fallback, and an unreadable or unparsable file yields no key |
| Docker.PushLicenseArgs | src/main/services/docker.ts:190-231 | the license mount is pushed exactly when a path is given, normalises to non-empty text and the file exists, followed by `-e MISTSEEKER_LICENSE_KEY=<key>` exactly when a key was read |
| Docker.PushOptionalFlags | src/main/services/docker.ts:246-261 | the optional flags are appended in the order geometric, COI, ORI, GSS, each only when set |
| Docker.BuildDockerRunCommand | src/main/services/docker.ts:161-277 | the pushed vector is the specified argument list, the command is `docker` and the space-joined arguments, and the normalised paths are reported |
| Docker.RunArgsRoundTrip | src/main/services/docker.ts:168-261 | parsing the built vector recovers the container name, both mounts, the license mount and key exactly when they were added, the image and every flag |
| Docker.RunArgsLayout | src/main/services/docker.ts:177-261 | the vector is the fixed head `run --rm --name <name> -v <project>:/workspace:ro -v <output>:/output`, then 0, 2 or 4 license arguments, then the image and the fixed `analyze` arguments, then the flags as the suffix |
| Docker.FlagsRoundTrip | src/main/services/docker.ts:246-261 | the optional flags read back as exactly the configured ones |
| Docker.HeadRoundTrip | src/main/services/docker.ts:177-183 | the eight-argument head reads back as container name, project and output mounts |
| Docker.LicenseRoundTrip | src/main/services/docker.ts:190-231 | the license arguments read back as the mount and key exactly when they were pushed |
| Docker.TailRoundTrip | src/main/services/docker.ts:233-261 | the image, the `analyze` arguments and the flags read back as the image and the flags |
| Docker.ContainerNameChoice | src/main/services/docker.ts:169-180 | a non-empty configured container name is used, otherwise the generated one |
| Docker.NoFlagsEndsWithImagePath | src/main/services/docker.ts:243-261 | with no optional field set the vector ends with `/output/mistseeker_report.png` |
| Docker.SettleRun | src/main/services/docker.ts:431-485 | a run resolves exactly when the process closed with exit code 0 or stdout names the saved report; a rejection starts with `Docker command failed with exit code <n>` or `Failed to execute docker run: <message>` |
| Docker.SignalledRunResolves | src/main/services/docker.ts:432 | a null close code counts as 0, so the run resolves |
| Docker.SavedReportBeatsExitCode | src/main/services/docker.ts:449-457 | a non-zero exit whose stdout contains `Report saved:` resolves and keeps its exit code |
| Docker.RunOutcomeResolves | src/main/services/docker.ts:288-495 | `runDockerCommand` resolves exactly when the checks pass, the process launches and the close rule holds, with the chosen container name and the exit code |
| Docker.RunOutcomePreflight | src/main/services/docker.ts:293-340 | before launch the checks fail in order: missing project path, unwritable output path, failed image pull, each with its message |
| Docker.ProbeFailureError | src/main/services/docker.ts:83-97 | a failed probe reports "not running" exactly when the text mentions `Cannot connect`, `ECONNREFUSED` or `Is the docker daemon running`, and "not available" otherwise |
| Docker.DockerService.constructor | src/main/services/docker.ts:51-53 | no cached availability and no tracked processes |
| Docker.DockerService.CheckDockerAvailable | src/main/services/docker.ts:59-98 | a cached answer is returned as `{available}` without probing; otherwise `docker info` decides and caches, the version is the trimmed `docker --version` output when that succeeds, and a failure is classified |
| Docker.DockerService.RunDockerCommand | src/main/services/docker.ts:288-495 | the outcome and the lines handed to the callbacks are the specified ones; the process is registered under its container name exactly when it launched |
| Docker.DockerService.StopContainer | src/main/services/docker.ts:500-515 | the name leaves `activeProcesses` on every path; only `No such container` and `is not running` failures are swallowed, any other is rethrown |
| Docker.DockerService.RemoveContainer | src/main/services/docker.ts:520-534 | the name leaves `activeProcesses` on every path; only `No such container` is swallowed |
| Docker.DockerService.KillContainer | src/main/services/docker.ts:539-560 | a tracked process is sent SIGTERM, the name leaves `activeProcesses`, and a stop failure never propagates |
| OutputCollector.FindFirst | src/main/services/analysis.ts:331-346 | `files.find` answers the first entry of the wanted kind, or none exactly when no entry is of that kind |
| OutputCollector.FirstStatFailure | src/main/services/analysis.ts:309-319 | a listing-loop failure is reported exactly when some entry cannot be stat'ed |
| OutputCollector.CollectListing | src/main/services/analysis.ts:324-374 | when the JSON read does not fail, `pdf` is the output path joined with the first image entry |
| OutputCollector.ReadOutputFiles | src/main/services/analysis.ts:290-382 | the call rejects only when the directory listing fails; a missing directory gives the directory-missing and no-output-files errors; otherwise the listing is collected, and a set `errors` is never empty |
| OutputCollector.JsonIsFirstJsonEntry | src/main/services/analysis.ts:330-339 | `json` is the contents of the first entry ending in `.json`; it is absent exactly when there is none or its read failed |
| OutputCollector.ImageIsFirstImageEntry | src/main/services/analysis.ts:341-354 | `pdf` is the output path joined with the first entry whose lower-cased extension is `.png`, `.pdf`, `.jpg` or `.jpeg`, and absent exactly when there is none |
| OutputCollector.LogIsRunLog | src/main/services/analysis.ts:360-365 | `log` is the contents of a readable listed `run.log` |
| OutputCollector.NoRunLog | src/main/services/analysis.ts:360-365 | without a `run.log` entry, `log` is absent |
| OutputCollector.ErrorsWhenReadsSucceed | src/main/services/analysis.ts:336-379 | with every read succeeding, the errors are exactly the missing-JSON one when no `.json` is listed, and the no-output-files one when neither json nor pdf was found |
| OutputCollector.JsonReadFailureAborts | src/main/services/analysis.ts:330-374 | an unreadable first `.json` file aborts the `try`: nothing is picked, and the only error is the read failure |
| OutputCollector.JsonNameExtension | src/main/services/analysis.ts:331-346 | a `.json` name never has an image extension |
| OutputCollector.ImageNameIsNotJson | src/main/services/analysis.ts:331-346 | an image entry never ends in `.json`, so the two searches never pick the same entry |
| OutputCollector.RunLogIsNotImage | src/main/services/analysis.ts:342-361 | `run.log` is never taken for an image |
| OutputCollector.ImageOnlyListing | src/main/services/analysis.ts:324-370 | a listing holding just one readable image yields the image path, no json, and only the missing-JSON error |
| OutputCollector.ImageOnlyDirectory | src/main/services/analysis.ts:290-382 | `readOutputFiles` of a directory holding only an image resolves with the image and the missing-JSON error alone |
| Analysis.NonBlankMembers | src/main/services/analysis.ts:266-270 | a line is kept exactly when it is one of the split lines and its trim is non-empty |
| Analysis.NonBlankAppend | src/main/services/analysis.ts:266-270 | filtering a concatenation is filtering each part, so order is kept |
| Analysis.LogLinesAreLines | src/main/services/analysis.ts:265-270 | every line `addLog` appends is one non-blank line of the message |
| Analysis.LogLinesOfLine | src/main/services/analysis.ts:265-270 | a one-line message is appended as it is, or not at all when blank |
| Analysis.PushNonBlank | src/main/services/analysis.ts:266-270 | the push loop leaves the buffer as the old buffer followed by the non-blank lines in order |
| Analysis.Capped | src/main/services/analysis.ts:273-275 | the buffer keeps at most 10000 lines, and they are the newest ones |
| Analysis.CappedAppend | src/main/services/analysis.ts:273-275 | capping after each call keeps the same lines as capping once at the end |
| Analysis.CappedThen | src/main/services/analysis.ts:273-275 | capping between two appends does not change what the final cap keeps |
| Analysis.LogEventsAppend | src/main/services/analysis.ts:278-282 | the events of lines logged in two batches are the first batch's events followed by the second's |
| Analysis.AllLogLinesAppend | src/main/services/analysis.ts:143-151 | the lines of successive `addLog` calls are the concatenation of each call's lines |
| Analysis.ContainerNameOf | src/main/services/analysis.ts:127 | the container name starts with `mistseeker-` |
| Analysis.RunUsesRecordedContainer | src/main/services/analysis.ts:127-142 | the name Docker is given is the one the job records |
| Analysis.ReadVerdict | src/main/services/analysis.ts:166-188 | after a resolved run, the job completes exactly when a truthy JSON report was read, with what was read; a failed read fails it with that error |
| Analysis.RunVerdict | src/main/services/analysis.ts:135-198 | the job completes exactly when the run resolved and a truthy JSON report was read; a rejected run fails it with the rejection message |
| Analysis.ImageOnlyOutputFails | src/main/services/analysis.ts:166-188 | a directory holding only an image fails the job with `No report file found in output directory: <path>` |
| Analysis.ExitCodeDecidesBeforeArtifacts | src/main/services/docker.ts:446-470 | a non-zero exit without the report marker fails the job with the Docker error, whatever the output directory holds |
| Analysis.VerdictMessagesCases | src/main/services/analysis.ts:166-197 | success logs the completion notice; a failed read logs its error once; a missing report is logged twice |
| Analysis.ResolvedRunSettles | src/main/services/analysis.ts:153-198 | for a resolved run, keeping the exit code, logging the reading notice and settling by what was read is the same as the run's final record and events |
| Analysis.Settled | src/main/services/analysis.ts:166-198 | the final record keeps id, config, start time, container and exit code; ends now; is completed exactly on success with the results stored, and failed exactly on failure with the error stored, whatever the status was before |
| Analysis.SettledReplacesLogs | src/main/services/analysis.ts:166-198 | settling replaces the buffer, so what it held before does not matter |
| Analysis.LogsBeforeVerdict | src/main/services/analysis.ts:143-197 | logging the run's output and then the closing messages leaves the buffer of logging all of them at once |
| Analysis.AnalysisResult.constructor | src/main/services/analysis.ts:65-71 | a new record is running, with its id, config and start time and no logs, results, end time, error, container or exit code |
| Analysis.AnalysisService.constructor | src/main/services/analysis.ts:49-57 | no jobs, no active containers, no events |
| Analysis.AnalysisService.AddLog | src/main/services/analysis.ts:261-284 | for a known job the buffer becomes the newest 10000 of old lines followed by the message's non-blank lines, and one log event per such line is emitted; an unknown id changes nothing |
| Analysis.AnalysisService.EmitNonBlank | src/main/services/analysis.ts:278-282 | the emit loop emits one event per non-blank line, in order |
| Analysis.AnalysisService.AddLogs | src/main/services/analysis.ts:143-151 | streamed `addLog` calls leave the buffer and events as one call with all their lines would |
| Analysis.AnalysisService.StartAnalysis | src/main/services/analysis.ts:62-133 | the new id is filed as a fresh running record; if creating the output directory throws, the job fails with that message and no container; otherwise it logs the license and start notices, records its container name `mistseeker-<id8>-<now>` and awaits the Docker run with that name |
| Analysis.AnalysisService.Register | src/main/services/analysis.ts:63-73 | a fresh running record with no logs is filed under the new id and nothing else changes |
| Analysis.AnalysisService.FailAtStart | src/main/services/analysis.ts:101-198 | a directory failure fails the new job with the error logged and emitted and no container touched |
| Analysis.AnalysisService.PrepareAtStart | src/main/services/analysis.ts:107-151 | the new job logs exactly the two notices, records its container and awaits the run configured with it |
| Analysis.AnalysisService.Prepare | src/main/services/analysis.ts:107-151 | the license notice (Pro or Free mode) and the start notice are logged, the container is recorded on the job and as active, and the run is configured with the license file only in Pro mode |
| Analysis.AnalysisService.LogLicense | src/main/services/analysis.ts:117-124 | Pro mode is logged with a license file, Free mode without |
| Analysis.AnalysisService.RecordContainer | src/main/services/analysis.ts:127-129 | the container name is set on the job and in `activeContainers` |
| Analysis.AnalysisService.CompleteRun | src/main/services/analysis.ts:135-210 | once the Docker run settles, the run's output and the closing messages are logged in order and the record is the final record by the run's verdict; the one final event follows the log events, and the job leaves the active containers |
| Analysis.AnalysisService.Settle | src/main/services/analysis.ts:143-198 | the streamed output is logged, then the job settles by the run and what was read |
| Analysis.AnalysisService.AfterRun | src/main/services/analysis.ts:153-198 | a rejected run fails the job with its message; a resolved one records the exit code and settles by what was read |
| Analysis.AnalysisService.ReadAndConclude | src/main/services/analysis.ts:153-198 | the exit code is kept, the reading notice logged, and the job settles by what was read |
| Analysis.AnalysisService.LogReading | src/main/services/analysis.ts:154-157 | the exit code is stored and `[Info] Reading output files from: <path>` logged |
| Analysis.AnalysisService.Conclude | src/main/services/analysis.ts:166-198 | the job completes with the files read or fails with the read or missing-report error |
| Analysis.AnalysisService.Complete | src/main/services/analysis.ts:167-191 | the completion notice is logged, the job completes with the results and end time, `analysis-complete` is emitted and the container entry is dropped |
| Analysis.AnalysisService.FailNoReport | src/main/services/analysis.ts:182-198 | no JSON report: the error is logged, then logged again as the job fails with it |
| Analysis.AnalysisService.MarkFailed | src/main/services/analysis.ts:193-198 | the job fails with the message and end time, the error line is logged and `analysis-error` emitted |
| Analysis.AnalysisService.CleanUp | src/main/services/analysis.ts:200-209 | with a container name, the container is killed and removed, any failure ignored, and the job's entry dropped; without one nothing changes |
| Analysis.AnalysisService.Fail | src/main/services/analysis.ts:193-210 | the `catch` fails the job, logs and emits the error, and cleans up the container when one was named |
| Analysis.AnalysisService.Release | src/main/services/analysis.ts:191 | the job's container entry is dropped |
| Analysis.AnalysisService.StopAnalysis | src/main/services/analysis.ts:216-241 | stops only a running job with an active container; returns true exactly when its container was removed, and then the job is stopped with end time, notice and no active container (so a second call returns false); a failed removal is logged and the job keeps running; otherwise nothing changes |
| Analysis.AnalysisService.Halt | src/main/services/analysis.ts:223-237 | kill and remove the container, then stop the job or log the failure |
| Analysis.AnalysisService.LogStopFailure | src/main/services/analysis.ts:234-236 | only `[Error] Failed to stop: <message>` is logged |
| Analysis.AnalysisService.MarkStopped | src/main/services/analysis.ts:228-232 | the container entry is dropped, the job is stopped with end time, and the stop notice logged |
| Analysis.AnalysisService.GetLogs | src/main/services/analysis.ts:246-249 | the job's buffer, or an empty list for an unknown id |
| Analysis.AnalysisService.GetAnalysis | src/main/services/analysis.ts:254-256 | `getResults` and `getAnalysis` answer the job's record, filed under its own id, or null for an unknown id |

## Left out

- Process spawning, streams, `exec` and the 5-second SIGKILL timer are not modelled. The run's end (exit code, stdout, stderr, or launch error), the streamed chunks and each command's outcome are parameters. `KillContainer` records the SIGTERM in a ghost list.
- `pullImage` and `imageExists` are folded into the `ImageStatus` parameter. `getContainerLogs` is not modelled: it only forwards `docker logs`.
- File-system effects are parameters:
  - the `mkdirSync` of `startAnalysis`, whose failure is an optional message;
  - the write test, a boolean;
  - file existence and contents;
  - the listing, as entries with a stat error and a read result.
- JSON parsing of the license and settings files is left out. A file is a value already parsed, or unreadable.
- `Date.now`, `new Date()`, `randomUUID`, `Math.random` and `path.resolve` are parameters.
- NodePath.Join puts one separator between two segments and does not normalise as `path.join` does (`..`, doubled separators).
- NodePath.Basename: the contract states only that the name holds no separator. Lemmas about the project name use its definition.
- NodePath.Extname: the contract states only the shape of the extension. Its exact choice is used through `LastDotAt`.
- Settings.ProjectName: lengths count characters. JavaScript counts UTF-16 code units, so names outside the Basic Multilingual Plane may be cut at a different place.
- Threshold values are passed through as strings. Their `toString()` formatting is floating-point.
- `console.log` output is left out.
- Event delivery to listeners and asynchronous interleavings beyond the ones modelled are left out. The modelled interleavings are the start prefix, the run's continuation, and `stopAnalysis` in between.
- The `.catch` in `startAnalysis` (analysis.ts:76-84) cannot be reached: `runAnalysis` catches every error after its first check, and that check always finds the job just filed.
- `getAllAnalyses` (analysis.ts:384-386) is left out. It lists the records in `Map` insertion order, which a Dafny `map` does not keep.
- `getDefaultReportsPathValue` is the `defaultReportsPath` field itself.
- Docker.RunOutcomePreflight and Docker.DockerService.RunDockerCommand do not model the `existsSync`/`mkdirSync` of the output directory at docker.ts:302-305, nor the file-system error `mkdirSync` may throw there with no `onStderr` line. Called from `runAnalysis`, that `mkdirSync` runs only when the directory vanished after analysis.ts:103-105 created it.
- Settings.SettingsService.GenerateOutputPath does not create the scan directory. The `existsSync` test and the `mkdirSync` call (settings.ts:80-83) are left out, and so is the exception `mkdirSync` may throw. The function only computes the path.
- OutputCollector.LogIsRunLog and OutputCollector.NoRunLog treat the file system as case-sensitive. `run.log` is found only as an entry with exactly that name. On the case-insensitive file systems that macOS and Windows use by default, `existsSync` would also find `RUN.LOG`.
- OutputCollector.ReadOutputFiles is a function on values. The error list the source builds by `push` is a sequence built in the same order.
- Analysis.AnalysisService.AddLogs: an unknown id changes nothing, as each `addLog` call would.
- No class invariant bounds the log buffer. The 10000-line bound is stated by `Capped` for every buffer `addLog` writes.
