/**
 * The older `Os` enum, of which the repository has two copies: src/os.rs (path
 * separator and `Display`) and src-tauri/src/utils/os.rs (the same plus
 * `get_simple_name`, with `Display` delegating to it). Unlike `Sys`, these
 * functions panic on UNKNOWN instead of returning an error, so callers must
 * exclude it.
 */
module Os {
  import Sys
  import Wrappers

  datatype Os = WINDOWS | LINUX | OSX | UNKNOWN

  /**
   * The `OS` constant of both copies: `cfg!(windows)` is tested first, then `cfg!(unix)`,
   * then `cfg!(macos)`. A macOS build is a Unix build, so it selects LINUX.
   */
  function SelectOs(windows: bool, unix: bool, macos: bool): (os: Os)
    ensures windows ==> os == WINDOWS
    ensures !windows && unix ==> os == LINUX
    ensures os == OSX <==> !windows && !unix && macos
    ensures os == UNKNOWN <==> !windows && !unix && !macos
  {
    if windows then WINDOWS
    else if unix then LINUX
    else if macos then OSX
    else UNKNOWN
  }

  /** `Os::get_path_separator` (both copies); panics on UNKNOWN. */
  function PathSeparator(os: Os): (s: string)
    requires os != UNKNOWN
    ensures |s| == 1 && (s == ";" <==> os == WINDOWS) && (s == ":" <==> os != WINDOWS)
  {
    match os
    case WINDOWS => ";"
    case LINUX | OSX => ":"
  }

  /** `Os::get_simple_name` (src-tauri/src/utils/os.rs); panics on UNKNOWN. */
  function SimpleName(os: Os): (s: string)
    requires os != UNKNOWN
    ensures s in {"windows", "linux", "osx"}
  {
    match os
    case WINDOWS => "windows"
    case LINUX => "linux"
    case OSX => "osx"
  }

  /** `Display for Os` in src-tauri/src/utils/os.rs: writes the simple name. */
  function Display(os: Os): (s: string)
    requires os != UNKNOWN
    ensures s == SimpleName(os)
  {
    SimpleName(os)
  }

  /**
   * `Display for Os` in src/os.rs: an inline match of its own that returns the same
   * strings as the simple name; panics on UNKNOWN.
   */
  function LegacyDisplay(os: Os): (s: string)
    requires os != UNKNOWN
    ensures s in {"windows", "linux", "osx"}
  {
    SimpleName(os)
  }

  /** The corresponding value of the newer enum. */
  function ToSys(os: Os): Sys.OperatingSystem {
    match os
    case WINDOWS => Sys.WINDOWS
    case LINUX => Sys.LINUX
    case OSX => Sys.OSX
    case UNKNOWN => Sys.OperatingSystem.UNKNOWN
  }

  /**
   * Both `Display` impls agree with each other, and on every system where they do not
   * panic the old enum's names and separators are the ones `Sys` returns without error.
   */
  lemma AgreesWithSys(os: Os)
    requires os != UNKNOWN
    ensures LegacyDisplay(os) == Display(os)
    ensures Sys.SimpleName(ToSys(os)) == Wrappers.Ok(SimpleName(os))
    ensures Sys.PathSeparator(ToSys(os)) == Wrappers.Ok(PathSeparator(os))
  {
  }

  /** On the same build flags the old selection never yields OSX where a Unix flag is set. */
  lemma MacBuildIsLinux()
    ensures SelectOs(false, true, true) == LINUX
    ensures Sys.SelectOs("macos") == Sys.OSX
  {
  }
}
