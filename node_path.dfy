/**
 * The parts of Node's `path` module the services call: `isAbsolute`,
 * `basename`, `extname` and `join`.  Node picks `path.posix` or
 * `path.win32` by host; `Flavour` makes that choice explicit.
 */
module NodePath {
  import opened Wrappers

  datatype Flavour = Posix | Win32

  predicate IsSeparator(f: Flavour, c: char) {
    c == '/' || (f == Win32 && c == '\\')
  }

  /** The separator `path.join` writes. */
  function Separator(f: Flavour): char {
    if f == Win32 then '\\' else '/'
  }

  predicate IsDriveLetter(c: char) {
    'A' <= c <= 'Z' || 'a' <= c <= 'z'
  }

  /** The text starts with a drive designator such as `C:`. */
  predicate HasDrivePrefix(s: string) {
    |s| >= 2 && IsDriveLetter(s[0]) && s[1] == ':'
  }

  /** `path.isAbsolute(p)`. */
  predicate IsAbsolute(f: Flavour, p: string) {
    match f
    case Posix => |p| > 0 && p[0] == '/'
    case Win32 => (|p| > 0 && IsSeparator(f, p[0])) || (|p| > 2 && HasDrivePrefix(p) && IsSeparator(f, p[2]))
  }

  function DropTrailingSeparators(f: Flavour, s: string): (r: string)
    ensures |r| <= |s| && r == s[..|r|]
    ensures r == [] || !IsSeparator(f, r[|r| - 1])
  {
    if |s| > 0 && IsSeparator(f, s[|s| - 1]) then DropTrailingSeparators(f, s[..|s| - 1]) else s
  }

  /** The text after the last separator. */
  function LastSegment(f: Flavour, s: string): (r: string)
    ensures |r| <= |s| && r == s[|s| - |r|..]
    ensures forall i :: 0 <= i < |r| ==> !IsSeparator(f, r[i])
  {
    if |s| == 0 || IsSeparator(f, s[|s| - 1]) then ""
    else LastSegment(f, s[..|s| - 1]) + [s[|s| - 1]]
  }

  /** `path.basename(p)`: the last path segment, ignoring trailing separators (and a drive on Windows). */
  function Basename(f: Flavour, p: string): (r: string)
    ensures forall i :: 0 <= i < |r| ==> !IsSeparator(f, r[i])
  {
    var body := if f == Win32 && HasDrivePrefix(p) then p[2..] else p;
    LastSegment(f, DropTrailingSeparators(f, body))
  }

  /** Position of the last occurrence of `c`. */
  function LastIndexOf(s: string, c: char): (r: Option<nat>)
    ensures r.None? <==> c !in s
    ensures r.Some? ==> r.value < |s| && s[r.value] == c && c !in s[r.value + 1..]
  {
    if |s| == 0 then None
    else if s[|s| - 1] == c then Some(|s| - 1)
    else
      var r := LastIndexOf(s[..|s| - 1], c);
      assert s == s[..|s| - 1] + [s[|s| - 1]];
      r
  }

  /**
   * `path.extname(name)` for a directory-entry name (which holds no separator):
   * from the last `.` to the end, or empty when there is no `.`, when the only
   * `.` that counts is the leading one of a dot-file, or for `..`.
   */
  function Extname(name: string): (r: string)
    ensures r == [] || (r[0] == '.' && '.' !in r[1..] && |r| <= |name| && r == name[|name| - |r|..])
  {
    match LastIndexOf(name, '.')
    case None => ""
    case Some(i) => if i == 0 || name == ".." then "" else name[i..]
  }

  /** `path.join(a, b)` for two segments: one separator between them. */
  function Join(f: Flavour, a: string, b: string): string {
    a + [Separator(f)] + b
  }
}
