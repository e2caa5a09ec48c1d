/**
 * Operating-system and architecture naming (src-tauri/src/utils/sys.rs): the platform
 * the launcher was built for, and the names and file formats the download servers use
 * for it. Every lookup fails with "Invalid OS" / "Invalid architecture" on UNKNOWN.
 */
module Sys {
  import opened Wrappers

  datatype OperatingSystem = WINDOWS | LINUX | OSX | UNKNOWN

  datatype Architecture = X86 | X64 | ARM | AARCH64 | UNKNOWN

  function InvalidOs<T>(): Result<T, LauncherError> {
    Err(Message("Invalid OS"))
  }

  /**
   * The `OS` constant: the compile-time `target_os` is tested for windows, then macos,
   * then linux; anything else is UNKNOWN.
   */
  function SelectOs(targetOs: string): (os: OperatingSystem)
    ensures os == OperatingSystem.UNKNOWN <==> targetOs !in {"windows", "macos", "linux"}
    ensures os == OSX <==> targetOs == "macos"
  {
    if targetOs == "windows" then WINDOWS
    else if targetOs == "macos" then OSX
    else if targetOs == "linux" then LINUX
    else OperatingSystem.UNKNOWN
  }

  /** The `ARCHITECTURE` constant, chosen from the compile-time `target_arch`. */
  function SelectArchitecture(targetArch: string): (arch: Architecture)
    ensures arch == Architecture.UNKNOWN <==> targetArch !in {"x86", "x86_64", "arm", "aarch64"}
    ensures arch == X64 <==> targetArch == "x86_64"
  {
    if targetArch == "x86" then X86
    else if targetArch == "x86_64" then X64
    else if targetArch == "arm" then ARM
    else if targetArch == "aarch64" then AARCH64
    else Architecture.UNKNOWN
  }

  /** `get_path_separator`: the separator of the Java class path. */
  function PathSeparator(os: OperatingSystem): (r: Result<string, LauncherError>)
    ensures r.Err? <==> os == OperatingSystem.UNKNOWN
    ensures r.Err? ==> r == InvalidOs()
    ensures r.Ok? ==> |r.value| == 1 && (r.value == ";" <==> os == WINDOWS)
  {
    match os
    case WINDOWS => Ok(";")
    case LINUX | OSX => Ok(":")
    case UNKNOWN => InvalidOs()
  }

  /** `OperatingSystem::get_simple_name`. */
  function SimpleName(os: OperatingSystem): (r: Result<string, LauncherError>)
    ensures r.Err? <==> os == OperatingSystem.UNKNOWN
    ensures r.Err? ==> r == InvalidOs()
  {
    match os
    case WINDOWS => Ok("windows")
    case LINUX => Ok("linux")
    case OSX => Ok("osx")
    case UNKNOWN => InvalidOs()
  }

  /** `get_adoptium_name`: the OS as the Adoptium API names it. */
  function AdoptiumName(os: OperatingSystem): (r: Result<string, LauncherError>)
    ensures r.Err? <==> os == OperatingSystem.UNKNOWN
    ensures r.Err? ==> r == InvalidOs()
  {
    match os
    case WINDOWS => Ok("windows")
    case LINUX => Ok("linux")
    case OSX => Ok("mac")
    case UNKNOWN => InvalidOs()
  }

  /** `get_graal_name`: the OS as Oracle's GraalVM downloads name it. */
  function GraalName(os: OperatingSystem): (r: Result<string, LauncherError>)
    ensures r.Err? <==> os == OperatingSystem.UNKNOWN
    ensures r.Err? ==> r == InvalidOs()
  {
    match os
    case WINDOWS => Ok("windows")
    case LINUX => Ok("linux")
    case OSX => Ok("macos")
    case UNKNOWN => InvalidOs()
  }

  /** `get_archive_type`: the JRE archive format. */
  function ArchiveType(os: OperatingSystem): (r: Result<string, LauncherError>)
    ensures r.Err? <==> os == OperatingSystem.UNKNOWN
    ensures r.Err? ==> r == InvalidOs()
    ensures r.Ok? ==> (r.value == "zip" <==> os == WINDOWS)
    ensures r.Ok? ==> (r.value == "tar.gz" <==> os != WINDOWS)
  {
    match os
    case WINDOWS => Ok("zip")
    case LINUX | OSX => Ok("tar.gz")
    case UNKNOWN => InvalidOs()
  }

  /** `Architecture::get_simple_name`. */
  function ArchSimpleName(arch: Architecture): (r: Result<string, LauncherError>)
    ensures r.Err? <==> arch == Architecture.UNKNOWN
    ensures r.Err? ==> r.error == Message("Invalid architecture")
  {
    match arch
    case X86 => Ok("x86")
    case X64 => Ok("x64")
    case ARM => Ok("arm")
    case AARCH64 => Ok("aarch64")
    case UNKNOWN => Err(Message("Invalid architecture"))
  }

  /** `Display for OperatingSystem`: the simple name; it unwraps, so UNKNOWN panics. */
  function OsDisplay(os: OperatingSystem): (s: string)
    requires os != OperatingSystem.UNKNOWN
    ensures SimpleName(os) == Ok(s)
  {
    SimpleName(os).value
  }

  /** `Display for Architecture`: the simple name; it unwraps, so UNKNOWN panics. */
  function ArchDisplay(arch: Architecture): (s: string)
    requires arch != Architecture.UNKNOWN
    ensures ArchSimpleName(arch) == Ok(s)
  {
    ArchSimpleName(arch).value
  }

  /** The serde names the enums are read from (the `rename` attributes). */
  function ParseOs(name: string): Option<OperatingSystem> {
    if name == "windows" then Some(WINDOWS)
    else if name == "linux" then Some(LINUX)
    else if name == "osx" then Some(OSX)
    else if name == "unknown" then Some(OperatingSystem.UNKNOWN)
    else None
  }

  function ParseArchitecture(name: string): Option<Architecture> {
    if name == "x86" then Some(X86)
    else if name == "x64" then Some(X64)
    else if name == "arm" then Some(ARM)
    else if name == "aarch64" then Some(AARCH64)
    else if name == "unknown" then Some(Architecture.UNKNOWN)
    else None
  }

  /**
   * The simple names are the names the enums are deserialized from, so printing a
   * known OS and reading it back gives it again; in particular no two systems share a name.
   */
  lemma OsNameRoundTrip(os: OperatingSystem)
    requires os != OperatingSystem.UNKNOWN
    ensures ParseOs(OsDisplay(os)) == Some(os)
  {
  }

  lemma ArchNameRoundTrip(arch: Architecture)
    requires arch != Architecture.UNKNOWN
    ensures ParseArchitecture(ArchDisplay(arch)) == Some(arch)
  {
  }

  /** No two known systems share a simple name, and no two architectures do. */
  lemma SimpleNamesInjective(a: OperatingSystem, b: OperatingSystem, x: Architecture, y: Architecture)
    ensures SimpleName(a).Ok? && SimpleName(a) == SimpleName(b) ==> a == b
    ensures ArchSimpleName(x).Ok? && ArchSimpleName(x) == ArchSimpleName(y) ==> x == y
  {
    if SimpleName(a).Ok? && SimpleName(a) == SimpleName(b) {
      OsNameRoundTrip(a);
      OsNameRoundTrip(b);
    }
    if ArchSimpleName(x).Ok? && ArchSimpleName(x) == ArchSimpleName(y) {
      ArchNameRoundTrip(x);
      ArchNameRoundTrip(y);
    }
  }

  /**
   * The three OS namings agree except on macOS, which is "osx" to the launcher,
   * "mac" to Adoptium and "macos" to GraalVM.
   */
  lemma NamingsDifferOnlyOnMac(os: OperatingSystem)
    ensures os != OSX ==> AdoptiumName(os) == SimpleName(os) && GraalName(os) == SimpleName(os)
    ensures os == OSX ==> SimpleName(os) == Ok("osx") && AdoptiumName(os) == Ok("mac")
                          && GraalName(os) == Ok("macos")
  {
  }

  /** The Unix systems share separator and archive format; Windows differs in both. */
  lemma UnixSystemsAgree(os: OperatingSystem)
    requires os != OperatingSystem.UNKNOWN
    ensures PathSeparator(os) == (if os == WINDOWS then Ok(";") else Ok(":"))
    ensures ArchiveType(os) == (if os == WINDOWS then Ok("zip") else Ok("tar.gz"))
  {
  }
}
