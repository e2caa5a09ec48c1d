/**
 * Java runtime distributions (src-tauri/src/minecraft/java/distribution.rs): which
 * distribution the user selected, which Java versions each one offers, and the
 * download URL of a JRE for the platform the launcher runs on.
 */
module Distribution {
  import opened Wrappers
  import opened Strings
  import opened Sys

  datatype JavaDistribution = Temurin | GraalVM

  /** `Automatic` carries a string only so that the front end's JSON deserializes. */
  datatype DistributionSelection =
    | Automatic(unused: string)
    | Custom(path: string)
    | Manual(distribution: JavaDistribution)

  /** `Default for DistributionSelection`. */
  function DefaultSelection(): (d: DistributionSelection)
    ensures d.Automatic? && d.unused == ""
  {
    Automatic("")
  }

  /** `Default for JavaDistribution`: Temurin, which offers every Java version. */
  function DefaultDistribution(): (d: JavaDistribution)
    ensures forall v: u32 :: SupportsVersion(d, v)
  {
    Temurin
  }

  /** `get_name`. */
  function Name(d: JavaDistribution): (s: string)
    ensures s == "temurin" <==> d == Temurin
    ensures s == "graalvm" <==> d == GraalVM
  {
    match d
    case Temurin => "temurin"
    case GraalVM => "graalvm"
  }

  /** `supports_version`: Temurin offers every version, GraalVM only 17 and later. */
  function SupportsVersion(d: JavaDistribution, version: u32): (b: bool)
    ensures d == Temurin ==> b
    ensures d == GraalVM ==> (b <==> version >= 17)
  {
    match d
    case Temurin => true
    case GraalVM => version >= 17
  }

  const ADOPTIUM_PREFIX: string := "https://api.adoptium.net/v3/binary/latest/"
  const ORACLE_PREFIX: string := "https://download.oracle.com/graalvm/"

  function TemurinUrl(version: u32, osName: string, arch: string): string {
    ADOPTIUM_PREFIX + (NatToString(version) + "/" + TemurinTail(osName, arch))
  }

  function TemurinTail(osName: string, arch: string): string {
    "ga/" + osName + "/" + arch + "/jre/hotspot/normal/eclipse?project=jdk"
  }

  function GraalLatestUrl(version: u32, osName: string, arch: string, archive: string): string {
    ORACLE_PREFIX + NatToString(version) + "/latest/graalvm-jdk-" + NatToString(version)
    + "_" + osName + "-" + arch + "_bin." + archive
  }

  function Graal17Url(osName: string, arch: string, archive: string): string {
    ORACLE_PREFIX + "17/archive/graalvm-jdk-17.0.12_" + osName + "-" + arch + "_bin." + archive
  }

  /**
   * `get_url` for the running platform `os`/`arch`. The architecture name is looked up
   * first and the archive type second, before the distribution is examined, so an
   * unknown platform fails for every distribution; GraalVM below 17 fails last. The
   * OS-name lookups that follow cannot fail once the archive type was found.
   */
  function GetUrl(d: JavaDistribution, version: u32, os: OperatingSystem, arch: Architecture)
    : (r: Result<string, LauncherError>)
    ensures r.Err? <==> arch == Architecture.UNKNOWN || os == OperatingSystem.UNKNOWN
                        || !SupportsVersion(d, version)
    ensures arch == Architecture.UNKNOWN ==> r == Err(Message("Invalid architecture"))
    ensures arch != Architecture.UNKNOWN && os == OperatingSystem.UNKNOWN
            ==> r == Err(Message("Invalid OS"))
    ensures arch != Architecture.UNKNOWN && os != OperatingSystem.UNKNOWN && !SupportsVersion(d, version)
            ==> r == Err(Message("GraalVM only supports Java 17+"))
  {
    var osArch := ArchSimpleName(arch);
    if osArch.Err? then Err(osArch.error)
    else
      var archiveType := ArchiveType(os);
      if archiveType.Err? then Err(archiveType.error)
      else
        match d
        case Temurin =>
          Ok(TemurinUrl(version, AdoptiumName(os).value, osArch.value))
        case GraalVM =>
          if version > 17 then
            Ok(GraalLatestUrl(version, GraalName(os).value, osArch.value, archiveType.value))
          else if version == 17 then
            Ok(Graal17Url(GraalName(os).value, osArch.value, archiveType.value))
          else Err(Message("GraalVM only supports Java 17+"))
  }

  /**
   * On a known platform the URL names the version, the Adoptium or GraalVM name of the
   * OS and the architecture; GraalVM 17 uses the fixed 17.0.12 archive build.
   */
  lemma GetUrlOnKnownPlatform(d: JavaDistribution, version: u32, os: OperatingSystem, arch: Architecture)
    requires os != OperatingSystem.UNKNOWN && arch != Architecture.UNKNOWN
    ensures d == Temurin ==>
      GetUrl(d, version, os, arch) == Ok(TemurinUrl(version, AdoptiumName(os).value, ArchDisplay(arch)))
    ensures d == GraalVM && version > 17 ==>
      GetUrl(d, version, os, arch)
        == Ok(GraalLatestUrl(version, GraalName(os).value, ArchDisplay(arch), ArchiveType(os).value))
    ensures d == GraalVM && version == 17 ==>
      GetUrl(d, version, os, arch)
        == Ok(Graal17Url(GraalName(os).value, ArchDisplay(arch), ArchiveType(os).value))
  {
  }

  /** A digit string followed by '/' at the start of a string is the string's first '/'-piece. */
  lemma DigitsBeforeSlash(a: string, b: string, x: string, y: string)
    requires forall i :: 0 <= i < |a| ==> IsDigit(a[i])
    requires forall i :: 0 <= i < |b| ==> IsDigit(b[i])
    requires a + "/" + x == b + "/" + y
    ensures a == b
  {
    assert '/' !in a && '/' !in b;
    SplitAppend(a, '/', x);
    SplitAppend(b, '/', y);
    assert Split(a + "/" + x, '/')[0] == a;
    assert Split(b + "/" + y, '/')[0] == b;
  }

  /** Different Java versions give different Temurin URLs: the version can be read back. */
  lemma TemurinUrlDeterminesVersion(v1: u32, v2: u32, os: OperatingSystem, arch: Architecture)
    requires GetUrl(Temurin, v1, os, arch).Ok?
    requires GetUrl(Temurin, v1, os, arch) == GetUrl(Temurin, v2, os, arch)
    ensures v1 == v2
  {
    var tail := TemurinTail(AdoptiumName(os).value, ArchDisplay(arch));
    GetUrlOnKnownPlatform(Temurin, v1, os, arch);
    GetUrlOnKnownPlatform(Temurin, v2, os, arch);
    var a1 := NatToString(v1) + "/" + tail;
    var a2 := NatToString(v2) + "/" + tail;
    assert ADOPTIUM_PREFIX + a1 == ADOPTIUM_PREFIX + a2;
    assert (ADOPTIUM_PREFIX + a1)[|ADOPTIUM_PREFIX|..] == a1;
    assert (ADOPTIUM_PREFIX + a2)[|ADOPTIUM_PREFIX|..] == a2;
    DigitsBeforeSlash(NatToString(v1), NatToString(v2), tail, tail);
    NatToStringInjective(v1, v2);
  }

  /**
   * On a known platform `get_url` succeeds exactly for the versions `supports_version`
   * admits, for both distributions.
   */
  lemma GetUrlSucceedsIffSupported(d: JavaDistribution, version: u32, os: OperatingSystem, arch: Architecture)
    requires os != OperatingSystem.UNKNOWN && arch != Architecture.UNKNOWN
    ensures GetUrl(d, version, os, arch).Ok? <==> SupportsVersion(d, version)
    ensures GetUrl(DefaultDistribution(), version, os, arch).Ok?
  {
  }
}
