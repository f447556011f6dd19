/**
 * Host detection and the rewriting of host paths into the form Docker's
 * `-v` volume flag accepts.  The TypeScript source and its compiled
 * JavaScript twin disagree on relative paths off Windows: the TypeScript
 * resolves them against the working directory, the JavaScript throws.
 */
module OsDetection {
  import opened Wrappers
  import opened JsStrings
  import opened NodePath

  /** `process.platform`, e.g. "win32", "darwin", "linux". */
  datatype Platform = Platform(name: string)

  predicate IsWindows(p: Platform) {
    p.name == "win32"
  }

  predicate IsMacOS(p: Platform) {
    p.name == "darwin"
  }

  predicate IsLinux(p: Platform) {
    p.name == "linux"
  }

  /** At most one of the three host tests holds. */
  lemma AtMostOnePlatform(p: Platform)
    ensures !(IsWindows(p) && IsMacOS(p))
    ensures !(IsWindows(p) && IsLinux(p))
    ensures !(IsMacOS(p) && IsLinux(p))
  {
  }

  /** Node's `path` is `path.win32` on Windows and `path.posix` elsewhere. */
  function PathFlavour(p: Platform): Flavour {
    if IsWindows(p) then Win32 else Posix
  }

  /** `getDockerCommand()` answers the same executable name on every host. */
  const DockerCommand: string := "docker"

  /**
   * The Windows rewriting both twins perform: every `\` becomes `/`, a
   * leading drive `X:` becomes `/x`, and a `/` is put in front when missing.
   */
  function WindowsDockerPath(p: string): (r: string)
    ensures StartsWith(r, "/")
    ensures '\\' !in r
  {
    var slashed := ReplaceAll(p, {'\\'}, '/');
    var undriven := if HasDrivePrefix(slashed) then "/" + [ToLowerAscii(slashed[0])] + slashed[2..] else slashed;
    if StartsWith(undriven, "/") then undriven else "/" + undriven
  }

  /** `C:\Users\a` becomes `/c/Users/a`: the drive letter lower-cased, the rest only re-slashed. */
  lemma WindowsDrive(p: string)
    requires HasDrivePrefix(p)
    ensures 'a' <= WindowsDockerPath(p)[1] <= 'z'
    ensures WindowsDockerPath(p) == "/" + [ToLowerAscii(p[0])] + ReplaceAll(p[2..], {'\\'}, '/')
  {
    var slashed := ReplaceAll(p, {'\\'}, '/');
    assert slashed[2..] == ReplaceAll(p[2..], {'\\'}, '/');
  }

  /** Without a drive, the re-slashed path is kept, with a `/` in front unless it already starts with one. */
  lemma WindowsNoDrive(p: string)
    requires !HasDrivePrefix(p)
    ensures |p| > 0 && (p[0] == '/' || p[0] == '\\') ==> WindowsDockerPath(p) == ReplaceAll(p, {'\\'}, '/')
    ensures !(|p| > 0 && (p[0] == '/' || p[0] == '\\')) ==> WindowsDockerPath(p) == "/" + ReplaceAll(p, {'\\'}, '/')
  {
  }

  lemma ReplaceAbsent(s: string, c: char, repl: char)
    requires c !in s
    ensures ReplaceAll(s, {c}, repl) == s
  {
  }

  /** A path already in Docker form is left as it is. */
  lemma WindowsIdempotent(p: string)
    ensures WindowsDockerPath(WindowsDockerPath(p)) == WindowsDockerPath(p)
  {
    var r := WindowsDockerPath(p);
    ReplaceAbsent(r, '\\', '/');
    assert !HasDrivePrefix(r);
  }

  /**
   * `normalizeDockerPath` of os-detection.ts.  `resolved` is what
   * `path.resolve(filePath)` answers; it is consulted only for relative paths.
   */
  function NormalizeDockerPathTs(platform: Platform, filePath: string, resolved: string): string {
    var absolutePath := if IsAbsolute(PathFlavour(platform), filePath) then filePath else resolved;
    if IsWindows(platform) then WindowsDockerPath(absolutePath) else absolutePath
  }

  /** Off Windows the path is kept when absolute and resolved otherwise, so the answer is absolute. */
  lemma TsOffWindows(platform: Platform, filePath: string, resolved: string)
    requires !IsWindows(platform)
    requires IsAbsolute(Posix, resolved)
    ensures IsAbsolute(Posix, filePath) ==> NormalizeDockerPathTs(platform, filePath, resolved) == filePath
    ensures !IsAbsolute(Posix, filePath) ==> NormalizeDockerPathTs(platform, filePath, resolved) == resolved
    ensures IsAbsolute(Posix, NormalizeDockerPathTs(platform, filePath, resolved))
  {
  }

  /** On Windows the answer starts with `/`, holds no `\`, and normalising it again changes nothing. */
  lemma TsOnWindows(platform: Platform, filePath: string, resolved: string, resolvedAgain: string)
    requires IsWindows(platform)
    ensures var r := NormalizeDockerPathTs(platform, filePath, resolved);
      && StartsWith(r, "/") && '\\' !in r
      && NormalizeDockerPathTs(platform, r, resolvedAgain) == r
  {
    var r := NormalizeDockerPathTs(platform, filePath, resolved);
    assert IsAbsolute(Win32, r);
    WindowsIdempotent(if IsAbsolute(Win32, filePath) then filePath else resolved);
  }

  /** `normalizeDockerPath` of the compiled os-detection.js: no resolution, and a throw off Windows. */
  function NormalizeDockerPathJs(platform: Platform, filePath: string): Result<string, string> {
    if IsWindows(platform) then Ok(WindowsDockerPath(filePath))
    else if !IsAbsolute(Posix, filePath) then Err("Path must be absolute: " + filePath)
    else Ok(filePath)
  }

  /** The compiled twin throws exactly for relative paths off Windows, and never on Windows. */
  lemma JsThrowsOnlyForRelative(platform: Platform, filePath: string)
    ensures NormalizeDockerPathJs(platform, filePath).Err? <==> !IsWindows(platform) && !IsAbsolute(Posix, filePath)
    ensures NormalizeDockerPathJs(platform, filePath).Err? ==>
      NormalizeDockerPathJs(platform, filePath).error == "Path must be absolute: " + filePath
    ensures !IsWindows(platform) && IsAbsolute(Posix, filePath) ==> NormalizeDockerPathJs(platform, filePath) == Ok(filePath)
  {
  }

  /**
   * The twins agree on every path the host calls absolute; off Windows a
   * relative path separates them (resolved by one, refused by the other).
   */
  lemma TwinsAgreeOnAbsolutePaths(platform: Platform, filePath: string, resolved: string)
    ensures IsAbsolute(PathFlavour(platform), filePath) ==>
      NormalizeDockerPathJs(platform, filePath) == Ok(NormalizeDockerPathTs(platform, filePath, resolved))
    ensures !IsWindows(platform) && !IsAbsolute(Posix, filePath) ==>
      NormalizeDockerPathJs(platform, filePath).Err? && NormalizeDockerPathTs(platform, filePath, resolved) == resolved
  {
  }
}
