/**
 * Where scan reports go: a reports directory kept in a settings file
 * (with a default under the user's documents), and below it one folder per
 * project and one per scan, named after the scan's start time.
 */
module Settings {
  import opened Wrappers
  import opened JsStrings
  import opened NodePath
  import opened OsDetection

  /** Folders created for pasted code start with this; such projects are shown as `PastedCodeName`. */
  const TempFolderPrefix: string := "mistseeker-"
  const PastedCodeName: string := "Pasted Code"
  const UntitledProjectName: string := "Untitled Project"
  const MaxProjectNameLength: nat := 50
  /** Characters a file name may not hold on some host; each becomes `_`. */
  const UnsafeNameChars: set<char> := {'<', '>', ':', '"', '/', '\\', '|', '?', '*'}
  const ReportsFolderName: string := "MistSeeker Reports"
  const ReportsPathKey: string := "reportsPath"

  function SanitizeName(name: string): (r: string)
    ensures |r| == |name|
    ensures IsSafeName(r)
  {
    ReplaceAll(name, UnsafeNameChars, '_')
  }

  /**
   * `getProjectName`: the project folder's name, `Pasted Code` for a temporary
   * folder, made safe for the file system, cut to 50 characters, never empty.
   */
  function ProjectName(platform: Platform, projectPath: string): (r: string)
    ensures r != ""
    ensures |r| <= MaxProjectNameLength
    ensures IsSafeName(r)
  {
    var base := Basename(PathFlavour(platform), projectPath);
    var named := if StartsWith(base, TempFolderPrefix) then PastedCodeName else base;
    var clean := SanitizeName(named);
    var short := if |clean| > MaxProjectNameLength then clean[..MaxProjectNameLength] else clean;
    assert IsSafeName(short);
    if short == "" then UntitledIsSafe(); UntitledProjectName else short
  }

  /** No character of the name is one of `UnsafeNameChars`. */
  predicate IsSafeName(s: string) {
    forall i :: 0 <= i < |s| ==> s[i] !in UnsafeNameChars
  }

  lemma UntitledIsSafe()
    ensures IsSafeName(UntitledProjectName)
  {
    forall i | 0 <= i < |UntitledProjectName|
      ensures UntitledProjectName[i] !in UnsafeNameChars
    {
      assert UntitledProjectName[i] in "Untitled Project";
    }
  }

  /** A temporary folder is named `Pasted Code`, whatever else its name holds. */
  lemma ProjectNameOfTempFolder(platform: Platform, projectPath: string)
    requires StartsWith(Basename(PathFlavour(platform), projectPath), TempFolderPrefix)
    ensures ProjectName(platform, projectPath) == PastedCodeName
  {
    assert SanitizeName(PastedCodeName) == PastedCodeName;
  }

  /**
   * Any other non-empty folder name keeps its first 50 characters, each unsafe
   * one replaced by `_` and every other one unchanged.
   */
  lemma ProjectNameKeepsLeadingCharacters(platform: Platform, projectPath: string)
    requires var base := Basename(PathFlavour(platform), projectPath);
      base != "" && !StartsWith(base, TempFolderPrefix)
    ensures var base := Basename(PathFlavour(platform), projectPath);
      var r := ProjectName(platform, projectPath);
      && |r| == (if |base| > MaxProjectNameLength then MaxProjectNameLength else |base|)
      && forall i :: 0 <= i < |r| ==> r[i] == if base[i] in UnsafeNameChars then '_' else base[i]
  {
  }

  /** A path without a last segment (such as `/`) gives `Untitled Project`. */
  lemma ProjectNameOfEmptyFolderName(platform: Platform, projectPath: string)
    requires Basename(PathFlavour(platform), projectPath) == ""
    ensures ProjectName(platform, projectPath) == UntitledProjectName
  {
  }

  /** A clock reading, as the fields of a UTC date. */
  datatype DateFields = DateFields(year: int, month: int, day: int, hour: int, minute: int, second: int, millisecond: int)

  type DateTime = d: DateFields |
    && 1 <= d.month <= 12 && 1 <= d.day <= 31
    && 0 <= d.hour <= 23 && 0 <= d.minute <= 59 && 0 <= d.second <= 59 && 0 <= d.millisecond <= 999
    witness DateFields(1970, 1, 1, 0, 0, 0, 0)

  function Zeros(n: nat): (r: string)
    ensures |r| == n && AllDigits(r)
  {
    if n == 0 then "" else "0" + Zeros(n - 1)
  }

  /** Decimal digits of `n`, zero-padded on the left to `width`. */
  function Pad(n: nat, width: nat): (r: string)
    ensures |r| >= width && AllDigits(r)
  {
    var s := NatToString(n);
    if |s| >= width then s else Zeros(width - |s|) + s
  }

  /** The year as `toISOString` writes it: four digits, or a sign and six outside years 0 to 9999. */
  function IsoYear(year: int): string {
    if 0 <= year <= 9999 then Pad(year, 4)
    else if year < 0 then "-" + Pad(-year, 6)
    else "+" + Pad(year, 6)
  }

  function IsoDate(d: DateTime): string {
    IsoYear(d.year) + "-" + Pad(d.month, 2) + "-" + Pad(d.day, 2)
  }

  /** `Date.prototype.toISOString`: `YYYY-MM-DDTHH:mm:ss.sssZ`. */
  function IsoString(d: DateTime): string {
    IsoDate(d) + "T" + Pad(d.hour, 2) + ":" + Pad(d.minute, 2) + ":" + Pad(d.second, 2) + "." + Pad(d.millisecond, 3) + "Z"
  }

  /**
   * `.replace(/\..+/, '')` on text without line terminators (an ISO time has
   * none): everything from the first `.` that has a character after it is dropped.
   */
  function DropFraction(s: string): string {
    if '.' in s && IndexOf(s, '.') + 1 < |s| then s[..IndexOf(s, '.')] else s
  }

  /** The scan folder name built in `generateOutputPath` from the ISO time. */
  function Timestamp(now: DateTime): string {
    DropFraction(ReplaceAll(ReplaceFirst(IsoString(now), 'T', '_'), {':'}, '-'))
  }

  lemma IndexOfAfterAbsent(a: string, c: char, b: string)
    requires c !in a
    ensures c in a + [c] + b && IndexOf(a + [c] + b, c) == |a|
  {
    var s := a + [c] + b;
    assert s[|a|] == c;
    assert s[..|a|] == a;
  }

  lemma ReplaceFirstAfterAbsent(a: string, c: char, repl: char, b: string)
    requires c !in a
    ensures ReplaceFirst(a + [c] + b, c, repl) == a + [repl] + b
  {
    IndexOfAfterAbsent(a, c, b);
    var s := a + [c] + b;
    assert s[..|a|] == a && s[|a| + 1..] == b;
  }

  lemma DropFractionAt(a: string, b: string)
    requires '.' !in a && b != ""
    ensures DropFraction(a + ['.'] + b) == a
  {
    IndexOfAfterAbsent(a, '.', b);
    assert (a + ['.'] + b)[..|a|] == a;
  }

  lemma ReplaceAllAbsent(s: string, targets: set<char>, repl: char)
    requires forall i :: 0 <= i < |s| ==> s[i] !in targets
    ensures ReplaceAll(s, targets, repl) == s
  {
  }

  /** Text made of digits and signs, as an ISO date is. */
  predicate IsDateText(s: string) {
    forall i :: 0 <= i < |s| ==> IsDigit(s[i]) || s[i] == '-' || s[i] == '+'
  }

  lemma IsoDateIsDateText(d: DateTime)
    ensures IsDateText(IsoDate(d))
  {
    var y := IsoYear(d.year);
    assert IsDateText(y);
    var m, dd := Pad(d.month, 2), Pad(d.day, 2);
    assert IsDateText(m) && IsDateText(dd);
    assert IsoDate(d) == y + "-" + m + "-" + dd;
  }

  /** The time of day as `toISOString` writes it, and as the scan folder name writes it. */
  function IsoTime(d: DateTime): string {
    Pad(d.hour, 2) + ":" + Pad(d.minute, 2) + ":" + Pad(d.second, 2)
  }

  function FolderTime(d: DateTime): string {
    Pad(d.hour, 2) + "-" + Pad(d.minute, 2) + "-" + Pad(d.second, 2)
  }

  lemma FolderTimeOfIsoTime(d: DateTime)
    ensures ReplaceAll(IsoTime(d), {':'}, '-') == FolderTime(d)
    ensures '.' !in FolderTime(d)
  {
    var hh, mm, ss := Pad(d.hour, 2), Pad(d.minute, 2), Pad(d.second, 2);
    ReplaceAllAbsent(hh, {':'}, '-');
    ReplaceAllAbsent(mm, {':'}, '-');
    ReplaceAllAbsent(ss, {':'}, '-');
    ReplaceAllConcat(hh + ":" + mm + ":", ss, {':'}, '-');
    ReplaceAllConcat(hh + ":" + mm, ":", {':'}, '-');
    ReplaceAllConcat(hh + ":", mm, {':'}, '-');
    ReplaceAllConcat(hh, ":", {':'}, '-');
  }

  lemma IsoStringParts(d: DateTime)
    ensures IsoString(d) == IsoDate(d) + ['T'] + (IsoTime(d) + (['.'] + (Pad(d.millisecond, 3) + "Z")))
  {
  }

  /**
   * The scan folder is named `YYYY-MM-DD_HH-MM-SS`: the ISO time with its `T`
   * made `_`, its colons made `-`, and its milliseconds and zone dropped.
   */
  lemma TimestampFormat(now: DateTime)
    ensures Timestamp(now) == IsoDate(now) + "_" + FolderTime(now)
  {
    var frac := Pad(now.millisecond, 3) + "Z";
    var dateU := IsoDate(now) + "_";
    IsoDateIsDateText(now);
    assert dateU[..|dateU| - 1] == IsoDate(now);
    TimestampDateSeparator(now);
    TimestampColons(dateU, now, frac);
    FolderTimeOfIsoTime(now);
    DropFractionAt(dateU + FolderTime(now), frac);
  }

  /** The `T` of the ISO time is the first one, and becomes `_`. */
  lemma TimestampDateSeparator(now: DateTime)
    ensures ReplaceFirst(IsoString(now), 'T', '_')
            == IsoDate(now) + "_" + IsoTime(now) + (['.'] + (Pad(now.millisecond, 3) + "Z"))
  {
    var date, time, tail := IsoDate(now), IsoTime(now), ['.'] + (Pad(now.millisecond, 3) + "Z");
    IsoDateIsDateText(now);
    IsoStringParts(now);
    ReplaceFirstAfterAbsent(date, 'T', '_', time + tail);
    assert date + ['_'] + (time + tail) == date + "_" + time + tail;
  }

  /** Only the two colons of the time become `-`. */
  lemma TimestampColons(dateU: string, now: DateTime, frac: string)
    requires |dateU| > 0 && IsDateText(dateU[..|dateU| - 1]) && dateU[|dateU| - 1] == '_'
    requires frac == Pad(now.millisecond, 3) + "Z"
    ensures ReplaceAll(dateU + IsoTime(now) + (['.'] + frac), {':'}, '-') == dateU + FolderTime(now) + ['.'] + frac
  {
    var time, tail := IsoTime(now), ['.'] + frac;
    assert forall i :: 0 <= i < |dateU| ==> dateU[i] !in {':'} by {
      forall i | 0 <= i < |dateU|
        ensures dateU[i] !in {':'}
      {
        if i < |dateU| - 1 {
          assert dateU[i] == dateU[..|dateU| - 1][i];
        }
      }
    }
    ReplaceAllAbsent(dateU, {':'}, '-');
    ReplaceAllAbsent(tail, {':'}, '-');
    FolderTimeOfIsoTime(now);
    ReplaceAllConcat(dateU, time, {':'}, '-');
    ReplaceAllConcat(dateU + time, tail, {':'}, '-');
  }

  lemma FolderTimeIsDateText(d: DateTime)
    ensures IsDateText(FolderTime(d))
  {
    var hh, mm, ss := Pad(d.hour, 2), Pad(d.minute, 2), Pad(d.second, 2);
    assert IsDateText(hh) && IsDateText(mm) && IsDateText(ss);
    assert FolderTime(d) == hh + "-" + mm + "-" + ss;
  }

  /** Two pieces of date text joined by `_` hold no path separator. */
  lemma UnderscoreJoinHasNoSeparator(f: Flavour, a: string, b: string)
    requires IsDateText(a) && IsDateText(b)
    ensures forall i :: 0 <= i < |a + "_" + b| ==> !IsSeparator(f, (a + "_" + b)[i])
  {
    var s := a + "_" + b;
    forall i | 0 <= i < |s|
      ensures !IsSeparator(f, s[i])
    {
      if i < |a| {
        assert s[i] == a[i];
      } else if i > |a| {
        assert s[i] == b[i - |a| - 1];
      }
    }
  }

  /** The scan folder name is made of digits, signs, `-` and `_`, so it holds no path separator. */
  lemma TimestampHasNoSeparator(f: Flavour, now: DateTime)
    ensures forall i :: 0 <= i < |Timestamp(now)| ==> !IsSeparator(f, Timestamp(now)[i])
  {
    TimestampFormat(now);
    IsoDateIsDateText(now);
    FolderTimeIsDateText(now);
    UnderscoreJoinHasNoSeparator(f, IsoDate(now), FolderTime(now));
  }

  /** What `loadSettings` finds in the settings file. */
  datatype SettingsFile = Missing | Unparsable | Stored(fields: map<string, string>)

  /** `loadSettings()`: the stored record, or `{}` when the file is missing or does not parse. */
  function LoadSettings(file: SettingsFile): map<string, string> {
    if file.Stored? then file.fields else map[]
  }

  /** The user's reports directory as `SettingsService` keeps it. */
  class SettingsService {
    var file: SettingsFile
    const platform: Platform
    const defaultReportsPath: string

    /** The default is the `MistSeeker Reports` folder in the user's documents directory. */
    constructor (platform: Platform, documentsPath: string, file: SettingsFile)
      ensures this.platform == platform && this.file == file
      ensures defaultReportsPath == Join(PathFlavour(platform), documentsPath, ReportsFolderName)
    {
      this.platform := platform;
      this.file := file;
      this.defaultReportsPath := Join(PathFlavour(platform), documentsPath, ReportsFolderName);
    }

    /** `getReportsPath()`: a stored non-empty `reportsPath`, else the default. */
    function GetReportsPath(): (r: string)
      reads this
      ensures var s := LoadSettings(file);
        ReportsPathKey in s && s[ReportsPathKey] != "" ==> r == s[ReportsPathKey]
      ensures var s := LoadSettings(file);
        !(ReportsPathKey in s && s[ReportsPathKey] != "") ==> r == defaultReportsPath
    {
      var settings := LoadSettings(file);
      if ReportsPathKey in settings && settings[ReportsPathKey] != "" then settings[ReportsPathKey] else defaultReportsPath
    }

    /**
     * `setReportsPath(p)`: load, set `reportsPath`, save.  Every other key of
     * the loaded record is kept.  A failed write (`written` false) is swallowed
     * and leaves the file as it was.
     */
    method SetReportsPath(reportsPath: string, written: bool)
      modifies this
      ensures written ==> file == Stored(LoadSettings(old(file))[ReportsPathKey := reportsPath])
      ensures !written ==> file == old(file)
      ensures written && reportsPath != "" ==> GetReportsPath() == reportsPath
      ensures written && reportsPath == "" ==> GetReportsPath() == defaultReportsPath
    {
      var settings := LoadSettings(file);
      settings := settings[ReportsPathKey := reportsPath];
      if written {
        file := Stored(settings);
      }
    }

    /** `resetReportsPath()`: stores the default, after which it is what `GetReportsPath` answers. */
    method ResetReportsPath(written: bool)
      modifies this
      ensures written ==> file == Stored(LoadSettings(old(file))[ReportsPathKey := defaultReportsPath])
      ensures !written ==> file == old(file)
      ensures written ==> GetReportsPath() == defaultReportsPath
    {
      var settings := LoadSettings(file);
      settings := settings[ReportsPathKey := defaultReportsPath];
      if written {
        file := Stored(settings);
      }
    }

    /**
     * `generateOutputPath`: `<reports>/<project name>/<timestamp>`; neither of
     * the two added segments holds a separator, so the scan folder is exactly
     * two levels below the reports directory.
     */
    function GenerateOutputPath(projectPath: string, now: DateTime): (r: string)
      reads this
      ensures var f := PathFlavour(platform);
        r == GetReportsPath() + [Separator(f)] + ProjectName(platform, projectPath) + [Separator(f)] + Timestamp(now)
      ensures var f := PathFlavour(platform);
        forall i :: 0 <= i < |ProjectName(platform, projectPath)| ==> !IsSeparator(f, ProjectName(platform, projectPath)[i])
      ensures var f := PathFlavour(platform);
        forall i :: 0 <= i < |Timestamp(now)| ==> !IsSeparator(f, Timestamp(now)[i])
    {
      var f := PathFlavour(platform);
      TimestampHasNoSeparator(f, now);
      Join(f, Join(f, GetReportsPath(), ProjectName(platform, projectPath)), Timestamp(now))
    }
  }

  /**
   * `generateOutputPath` joins whatever reports path is set, with no check
   * against the project: once the reports path is the project directory
   * itself, the scan folder is created inside the project.
   */
  lemma OutputCanLieInsideProject(s: SettingsService, projectPath: string, now: DateTime)
    requires s.GetReportsPath() == projectPath
    ensures var out := s.GenerateOutputPath(projectPath, now);
      |out| > |projectPath| && out[..|projectPath| + 1] == projectPath + [Separator(PathFlavour(s.platform))]
  {
    var f := PathFlavour(s.platform);
    SegmentPrefix(projectPath, Separator(f), ProjectName(s.platform, projectPath), Timestamp(now));
  }

  /** A path two segments below `dir` starts with `dir` and a separator. */
  lemma SegmentPrefix<T>(dir: seq<T>, sep: T, name: seq<T>, stamp: seq<T>)
    ensures var out := dir + [sep] + name + [sep] + stamp;
      |out| > |dir| && out[..|dir| + 1] == dir + [sep]
  {
    var out := dir + [sep] + name + [sep] + stamp;
    assert out == (dir + [sep]) + (name + [sep] + stamp);
  }
}
