/**
 * `readOutputFiles`: which artifacts of a finished run are picked from the
 * output directory, and which error strings are reported for what is missing.
 * The directory is given as its listing, in `readdirSync` order, with what
 * `statSync` and `readFileSync` answer for each entry.
 */
module OutputCollector {
  import opened Wrappers
  import opened JsStrings
  import opened NodePath

  /** What `readFileSync(…, 'utf-8')` answers for an entry. */
  datatype FileRead = Contents(text: string) | ReadError(message: string)

  /** One directory entry: its name, the message `statSync` throws if it fails, and its contents. */
  datatype Entry = Entry(name: string, statError: Option<string>, read: FileRead)

  /** The output path: missing, present but not listable (`readdirSync` throws), or listed. */
  datatype OutputDir = Absent | Unlistable(message: string) | Listing(entries: seq<Entry>)

  /** The object `readOutputFiles` resolves with; an absent field is `None`. */
  datatype OutputFiles = OutputFiles(json: Option<string>, pdf: Option<string>, log: Option<string>, errors: Option<seq<string>>)

  /** The kinds of entry searched for. */
  datatype Wanted = JsonReport | ImageReport | RunLog

  const ImageExtensions: seq<string> := [".png", ".pdf", ".jpg", ".jpeg"]
  const RunLogName: string := "run.log"

  /** `f.endsWith('.json')` (case-sensitive), an image extension after lower-casing, or exactly `run.log`. */
  predicate Matches(w: Wanted, name: string) {
    match w
    case JsonReport => EndsWith(name, ".json")
    case ImageReport => LowerAscii(Extname(name)) in ImageExtensions
    case RunLog => name == RunLogName
  }

  /** `files.find(…)`: the position of the first entry of the wanted kind. */
  function FindFirst(entries: seq<Entry>, w: Wanted): (r: Option<nat>)
    ensures r.None? <==> forall j :: 0 <= j < |entries| ==> !Matches(w, entries[j].name)
    ensures r.Some? ==> r.value < |entries| && Matches(w, entries[r.value].name)
    ensures r.Some? ==> forall j :: 0 <= j < r.value ==> !Matches(w, entries[j].name)
  {
    if |entries| == 0 then None
    else if Matches(w, entries[0].name) then Some(0)
    else
      match FindFirst(entries[1..], w)
      case None => None
      case Some(i) => Some(i + 1)
  }

  /** The first `statSync` failure of the listing loop, which runs outside the `try`. */
  function FirstStatFailure(entries: seq<Entry>): (r: Option<string>)
    ensures r.None? <==> forall j :: 0 <= j < |entries| ==> entries[j].statError.None?
    ensures r.Some? ==> exists j :: 0 <= j < |entries| && entries[j].statError == r
  {
    if |entries| == 0 then None
    else if entries[0].statError.Some? then entries[0].statError
    else
      var r := FirstStatFailure(entries[1..]);
      assert forall j :: 1 <= j < |entries| ==> entries[j] == entries[1..][j - 1];
      r
  }

  /** The fixed texts of the error strings, each followed by the output path or the thrown message. */
  const DirectoryMissingText: string := "Output directory does not exist: "
  const NoJsonFileText: string := "No JSON file found in output directory: "
  const NoOutputFilesText: string := "No output files found. Expected result.json and/or report.pdf in output directory: "
  const ReadFailureText: string := "Error reading output files: "

  function DirectoryMissing(outputPath: string): string {
    DirectoryMissingText + outputPath
  }

  function NoJsonFile(outputPath: string): string {
    NoJsonFileText + outputPath
  }

  function NoOutputFiles(outputPath: string): string {
    NoOutputFilesText + outputPath
  }

  function ReadFailure(message: string): string {
    ReadFailureText + message
  }

  /** `errors` is set only when something was pushed. */
  function ErrorsField(errors: seq<string>): (r: Option<seq<string>>)
    ensures r.None? <==> errors == []
    ensures r.Some? ==> r.value == errors
  {
    if |errors| > 0 then Some(errors) else None
  }

  /**
   * The `try` block over a listed directory.  A failed read of the JSON file
   * ends it before anything else is recorded; a failed read of `run.log`
   * ends it after the JSON and image were recorded, skipping the final
   * "no output files" check.
   */
  function CollectListing(f: Flavour, outputPath: string, entries: seq<Entry>): (r: OutputFiles)
    ensures JsonReadable(entries) ==> r.pdf == PickedImage(f, outputPath, entries)
  {
    var jsonAt := FindFirst(entries, JsonReport);
    if jsonAt.Some? && entries[jsonAt.value].read.ReadError? then
      OutputFiles(None, None, None, Some([ReadFailure(entries[jsonAt.value].read.message)]))
    else
      var json := if jsonAt.Some? then Some(entries[jsonAt.value].read.text) else None;
      CollectAfterJson(f, outputPath, entries, json, if jsonAt.None? then [NoJsonFile(outputPath)] else [])
  }

  /** `results.pdf`: the output path joined with the first image entry's name, if there is one. */
  function PickedImage(f: Flavour, outputPath: string, entries: seq<Entry>): Option<string> {
    var imageAt := FindFirst(entries, ImageReport);
    if imageAt.Some? then Some(Join(f, outputPath, entries[imageAt.value].name)) else None
  }

  /** The rest of the `try` block, once the JSON search has settled `json` and the errors so far. */
  function CollectAfterJson(f: Flavour, outputPath: string, entries: seq<Entry>, json: Option<string>, errors: seq<string>): OutputFiles {
    var pdf := PickedImage(f, outputPath, entries);
    var logAt := FindFirst(entries, RunLog);
    if logAt.Some? && entries[logAt.value].read.ReadError? then
      OutputFiles(json, pdf, None, Some(errors + [ReadFailure(entries[logAt.value].read.message)]))
    else
      var log := if logAt.Some? then Some(entries[logAt.value].read.text) else None;
      var allErrors := errors + (if !Truthy(json) && pdf.None? then [NoOutputFiles(outputPath)] else []);
      OutputFiles(json, pdf, log, ErrorsField(allErrors))
  }

  /**
   * `readOutputFiles`: rejects only when the listing itself fails; otherwise
   * resolves with the artifacts found and, when non-empty, the errors.
   */
  function ReadOutputFiles(f: Flavour, outputPath: string, dir: OutputDir): (r: Result<OutputFiles, string>)
    ensures r.Err? <==> dir.Unlistable? || (dir.Listing? && FirstStatFailure(dir.entries).Some?)
    ensures dir.Absent? ==>
      r == Ok(OutputFiles(None, None, None, Some([DirectoryMissing(outputPath), NoOutputFiles(outputPath)])))
    ensures dir.Listing? && FirstStatFailure(dir.entries).None? ==> r == Ok(CollectListing(f, outputPath, dir.entries))
    ensures r.Ok? && r.value.errors.Some? ==> |r.value.errors.value| > 0
  {
    match dir
    case Absent =>
      // `run.log` cannot exist inside a missing directory.
      Ok(OutputFiles(None, None, None, Some([DirectoryMissing(outputPath), NoOutputFiles(outputPath)])))
    case Unlistable(message) => Err(message)
    case Listing(entries) =>
      match FirstStatFailure(entries)
      case Some(message) => Err(message)
      case None => Ok(CollectListing(f, outputPath, entries))
  }

  /** A listed directory whose JSON file, if it has one, is readable. */
  predicate JsonReadable(entries: seq<Entry>) {
    var jsonAt := FindFirst(entries, JsonReport);
    jsonAt.None? || entries[jsonAt.value].read.Contents?
  }

  /**
   * `json` is the contents of the first entry ending in `.json`; it is absent
   * exactly when there is none or when reading that one failed.
   */
  lemma JsonIsFirstJsonEntry(f: Flavour, outputPath: string, entries: seq<Entry>)
    ensures var r := CollectListing(f, outputPath, entries);
      && (r.json.Some? <==> (exists i :: 0 <= i < |entries| && Matches(JsonReport, entries[i].name)) && JsonReadable(entries))
      && (r.json.Some? ==>
            (exists i :: 0 <= i < |entries| && Matches(JsonReport, entries[i].name) && entries[i].read == Contents(r.json.value)
               && forall j :: 0 <= j < i ==> !Matches(JsonReport, entries[j].name)))
  {
    var r := CollectListing(f, outputPath, entries);
    var jsonAt := FindFirst(entries, JsonReport);
    if jsonAt.Some? {
      var i := jsonAt.value;
      if entries[i].read.Contents? {
        assert r.json == Some(entries[i].read.text);
      } else {
        assert r.json.None?;
      }
    } else {
      assert r.json.None?;
    }
  }

  /**
   * `pdf` is the output path joined with the first entry whose lower-cased
   * extension is an image one, unless the JSON read aborted first.
   */
  lemma ImageIsFirstImageEntry(f: Flavour, outputPath: string, entries: seq<Entry>)
    requires JsonReadable(entries)
    ensures var r := CollectListing(f, outputPath, entries);
      && (r.pdf.None? <==> forall j :: 0 <= j < |entries| ==> !Matches(ImageReport, entries[j].name))
      && (r.pdf.Some? ==>
            (exists i :: 0 <= i < |entries| && Matches(ImageReport, entries[i].name)
               && r.pdf.value == Join(f, outputPath, entries[i].name)
               && forall j :: 0 <= j < i ==> !Matches(ImageReport, entries[j].name)))
  {
    var imageAt := FindFirst(entries, ImageReport);
    if imageAt.Some? {
      assert PickedImage(f, outputPath, entries) == Some(Join(f, outputPath, entries[imageAt.value].name));
    }
  }

  /** `log` is the contents of `run.log` when it is listed and readable, and absent when it is not listed. */
  lemma LogIsRunLog(f: Flavour, outputPath: string, entries: seq<Entry>, i: nat)
    requires JsonReadable(entries)
    requires i < |entries| && entries[i].name == RunLogName && entries[i].read.Contents?
    requires forall j :: 0 <= j < i ==> entries[j].name != RunLogName
    ensures CollectListing(f, outputPath, entries).log == Some(entries[i].read.text)
  {
    var logAt := FindFirst(entries, RunLog);
    assert Matches(RunLog, entries[i].name);
    assert logAt == Some(i);
  }

  lemma NoRunLog(f: Flavour, outputPath: string, entries: seq<Entry>)
    requires forall j :: 0 <= j < |entries| ==> entries[j].name != RunLogName
    ensures CollectListing(f, outputPath, entries).log.None?
  {
    var r := CollectListing(f, outputPath, entries);
    assert FindFirst(entries, RunLog).None?;
  }

  /** With every read succeeding, the error strings are exactly the missing-JSON and missing-everything ones. */
  lemma ErrorsWhenReadsSucceed(f: Flavour, outputPath: string, entries: seq<Entry>)
    requires forall j :: 0 <= j < |entries| ==> entries[j].read.Contents?
    ensures var r := CollectListing(f, outputPath, entries);
      var noJson := forall j :: 0 <= j < |entries| ==> !Matches(JsonReport, entries[j].name);
      var nothing := !Truthy(r.json) && r.pdf.None?;
      r.errors == ErrorsField((if noJson then [NoJsonFile(outputPath)] else []) + (if nothing then [NoOutputFiles(outputPath)] else []))
  {
    var jsonAt := FindFirst(entries, JsonReport);
    var logAt := FindFirst(entries, RunLog);
    if jsonAt.Some? {
      assert entries[jsonAt.value].read.Contents?;
    }
    if logAt.Some? {
      assert entries[logAt.value].read.Contents?;
    }
  }

  /** A JSON file that cannot be read aborts the search: only the read error is reported, and nothing is picked. */
  lemma JsonReadFailureAborts(f: Flavour, outputPath: string, entries: seq<Entry>)
    requires !JsonReadable(entries)
    ensures exists i :: (0 <= i < |entries| && Matches(JsonReport, entries[i].name) && entries[i].read.ReadError?
      && CollectListing(f, outputPath, entries) == OutputFiles(None, None, None, Some([ReadFailure(entries[i].read.message)])))
  {
    var i := FindFirst(entries, JsonReport).value;
  }

  lemma {:induction false} LastDotAt(s: string, k: nat)
    requires k < |s| && s[k] == '.' && '.' !in s[k + 1..]
    ensures LastIndexOf(s, '.') == Some(k)
    decreases |s|
  {
    if k < |s| - 1 {
      assert s[|s| - 1] == s[k + 1..][|s| - 1 - (k + 1)];
      var p := s[..|s| - 1];
      assert p[k + 1..] == s[k + 1..][..|s| - 1 - (k + 1)];
      LastDotAt(p, k);
    }
  }

  /** A name ending in `.json` has `.json` (or, for `.json` itself, nothing) as its extension, so no image one. */
  lemma JsonNameExtension(name: string)
    requires EndsWith(name, ".json")
    ensures LowerAscii(Extname(name)) !in ImageExtensions
  {
    var k := |name| - 5;
    assert name[k..] == ".json";
    assert name[k] == name[k..][0];
    assert name[k + 1..] == name[k..][1..];
    LastDotAt(name, k);
    var e := LowerAscii(Extname(name));
    if k == 0 || name == ".." {
      assert e == [];
    } else {
      assert Extname(name) == ".json";
      assert |e| == 5 && e[2] == 's';
    }
  }

  /** An entry whose extension is an image one does not end in `.json`. */
  lemma ImageNameIsNotJson(name: string)
    requires Matches(ImageReport, name)
    ensures !Matches(JsonReport, name)
  {
    if EndsWith(name, ".json") {
      JsonNameExtension(name);
    }
  }

  /** `run.log` has the extension `.log`, which is no image one. */
  lemma RunLogIsNotImage()
    ensures !Matches(ImageReport, RunLogName)
  {
    LastDotAt(RunLogName, 3);
    assert Extname(RunLogName) == ".log";
    assert LowerAscii(".log") == ".log";
  }

  lemma ImageOnlyListing(f: Flavour, outputPath: string, entries: seq<Entry>)
    requires |entries| == 1 && Matches(ImageReport, entries[0].name) && entries[0].read.Contents?
    ensures CollectListing(f, outputPath, entries)
      == OutputFiles(None, Some(Join(f, outputPath, entries[0].name)), None, Some([NoJsonFile(outputPath)]))
  {
    ImageNameIsNotJson(entries[0].name);
    RunLogIsNotImage();
    assert FindFirst(entries, JsonReport).None?;
    assert FindFirst(entries, ImageReport) == Some(0);
    assert FindFirst(entries, RunLog).None?;
    assert [NoJsonFile(outputPath)] + [] == [NoJsonFile(outputPath)];
  }

  /** A directory holding only an image yields the image, no JSON, and the missing-JSON error alone. */
  lemma ImageOnlyDirectory(f: Flavour, outputPath: string, name: string, bytes: string)
    requires Matches(ImageReport, name)
    ensures ReadOutputFiles(f, outputPath, Listing([Entry(name, None, Contents(bytes))]))
      == Ok(OutputFiles(None, Some(Join(f, outputPath, name)), None, Some([NoJsonFile(outputPath)])))
  {
    var entries := [Entry(name, None, Contents(bytes))];
    assert FirstStatFailure(entries).None?;
    ImageOnlyListing(f, outputPath, entries);
  }
}
