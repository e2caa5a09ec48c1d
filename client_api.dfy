/**
 * The launcher API client (src-tauri/src/app/client_api.rs): where a mod of a launch
 * manifest is stored, and the endpoint strings the API is queried with. The requests
 * themselves are not part of this model.
 */
module ClientApi {
  import opened Wrappers
  import opened Strings
  import opened Maven

  const LAUNCHER_API: string := "https://api.liquidbounce.net"
  const API_V1: string := "api/v1"
  const API_V3: string := "api/v3"
  const CONTENT_DELIVERY: string := "https://cloud.liquidbounce.net"
  const CONTENT_FOLDER: string := "LiquidLauncher"

  /** How a mod is obtained: an ad-skipping download, a Maven repository, or a local file. */
  datatype ModSource =
    | SkipAd(artifactName: string, url: string, extract: bool)
    | Repository(repository: string, artifact: string)
    | Local(fileName: string)

  /** `ModSource::get_path`: the file name the mod is stored under. */
  function GetPath(m: ModSource): (r: Result<string, LauncherError>)
    ensures r.Err? <==> m.Repository? && ArtifactPath(m.artifact).Err?
    ensures m.SkipAd? ==> r.Ok? && StartsWith(r.value, m.artifactName) && EndsWith(r.value, ".jar")
                          && |r.value| == |m.artifactName| + 4
    ensures m.Repository? ==> r == ArtifactPath(m.artifact)
    ensures m.Local? ==> r == Ok(m.fileName)
  {
    match m
    case SkipAd(artifactName, _, _) => Ok(artifactName + ".jar")
    case Repository(_, artifact) =>
      var path := ArtifactPath(artifact);
      if path.Err? then Err(path.error) else Ok(path.value)
    case Local(fileName) => Ok(fileName)
  }

  /** Every mod that is downloaded (not a local file) is stored as a `.jar`. */
  lemma DownloadedModsAreJars(m: ModSource)
    requires !m.Local? && GetPath(m).Ok?
    ensures EndsWith(GetPath(m).value, ".jar")
  {
    if m.Repository? {
      ArtifactPathWellFormed(m.artifact);
    }
  }

  const BRANCHES_ENDPOINT: string := "version/branches"
  const USER_ENDPOINT: string := "oauth/user"

  /** `builds_by_branch`: all builds of a branch, or only its releases. */
  function BuildsByBranchEndpoint(branch: string, release: bool): string {
    if release then "version/builds/" + branch + "/release"
    else "version/builds/" + branch
  }

  function LaunchManifestEndpoint(buildId: u32): string {
    "version/launch/" + NatToString(buildId)
  }

  function ModsEndpoint(mcVersion: string, subsystem: string): string {
    "version/mods/" + mcVersion + "/" + subsystem
  }

  function ChangelogEndpoint(buildId: u32): string {
    "version/changelog/" + NatToString(buildId)
  }

  function ResolveSkipFileEndpoint(pid: string): string {
    "file/resolve/" + pid
  }

  const NEWS_FILE: string := "news.json"

  /** `request_from_content_delivery`: files are fetched from the launcher's folder on the CDN. */
  function ContentUrl(file: string): string {
    CONTENT_DELIVERY + "/" + CONTENT_FOLDER + "/" + file
  }

  /**
   * The news come from `https://cloud.liquidbounce.net/LiquidLauncher/news.json`, each
   * content URL names its file, and no content URL is an API URL.
   */
  lemma ContentUrls(f1: string, f2: string, e: string)
    ensures ContentUrl(NEWS_FILE) == "https://cloud.liquidbounce.net/LiquidLauncher/news.json"
    ensures ContentUrl(f1) == ContentUrl(f2) ==> f1 == f2
    ensures ContentUrl(f1) != V1Url(e) && ContentUrl(f1) != V3Url(e)
  {
    ContentUrlNamesFile(f1, f2);
    ContentHostIsNotApi(f1, e);
  }

  lemma ContentUrlNamesFile(f1: string, f2: string)
    ensures ContentUrl(f1) == ContentUrl(f2) ==> f1 == f2
  {
    var prefix := CONTENT_DELIVERY + "/" + CONTENT_FOLDER + "/";
    assert ContentUrl(f1) == prefix + f1 && ContentUrl(f2) == prefix + f2;
    assert (prefix + f1)[|prefix|..] == f1 && (prefix + f2)[|prefix|..] == f2;
  }

  lemma ContentHostIsNotApi(f: string, e: string)
    ensures ContentUrl(f) != V1Url(e) && ContentUrl(f) != V3Url(e)
  {
    assert ContentUrl(f) == CONTENT_DELIVERY + ("/" + CONTENT_FOLDER + "/" + f);
    assert ContentUrl(f)[8] == CONTENT_DELIVERY[8] == 'c';
    assert V1Url(e) == LAUNCHER_API + ("/" + API_V1 + "/" + e);
    assert V3Url(e) == LAUNCHER_API + ("/" + API_V3 + "/" + e);
    assert V1Url(e)[8] == LAUNCHER_API[8] == 'a' && V3Url(e)[8] == 'a';
  }

  /**
   * The two account-authenticated endpoints: the user endpoint is no skip-file endpoint,
   * and a skip-file URL names its pid.
   */
  lemma AccountEndpoints(pid1: string, pid2: string)
    ensures USER_ENDPOINT != ResolveSkipFileEndpoint(pid1)
    ensures V3Url(ResolveSkipFileEndpoint(pid1)) == V3Url(ResolveSkipFileEndpoint(pid2)) ==> pid1 == pid2
  {
    assert USER_ENDPOINT[0] == 'o' && ResolveSkipFileEndpoint(pid1)[0] == 'f';
    UrlsSeparateApiVersions(ResolveSkipFileEndpoint(pid1), ResolveSkipFileEndpoint(pid2));
    assert ResolveSkipFileEndpoint(pid1)[13..] == pid1 && ResolveSkipFileEndpoint(pid2)[13..] == pid2;
  }

  /** `request_from_endpoint`: plain requests go to version 1 of the API. */
  function V1Url(endpoint: string): string {
    LAUNCHER_API + "/" + API_V1 + "/" + endpoint
  }

  /** `request_with_client_account`: account-authenticated requests go to version 3. */
  function V3Url(endpoint: string): string {
    LAUNCHER_API + "/" + API_V3 + "/" + endpoint
  }

  /**
   * A plain and an authenticated request never share a URL, and each URL names its
   * endpoint uniquely.
   */
  lemma UrlsSeparateApiVersions(e1: string, e2: string)
    ensures V1Url(e1) != V3Url(e2)
    ensures V1Url(e1) == V1Url(e2) ==> e1 == e2
    ensures V3Url(e1) == V3Url(e2) ==> e1 == e2
    ensures StartsWith(V1Url(e1), LAUNCHER_API + "/api/v1/") && StartsWith(V3Url(e1), LAUNCHER_API + "/api/v3/")
  {
    var k := |LAUNCHER_API| + 6;
    assert V1Url(e1)[k] == '1';
    assert V3Url(e2)[k] == '3';
    var n := |LAUNCHER_API| + 8;
    assert V1Url(e1)[n..] == e1 && V1Url(e2)[n..] == e2;
    assert V3Url(e1)[n..] == e1 && V3Url(e2)[n..] == e2;
    assert V1Url(e1)[..n] == LAUNCHER_API + "/api/v1/";
    assert V3Url(e1)[..n] == LAUNCHER_API + "/api/v3/";
  }

  /** The '/'-separated pieces of the two `builds_by_branch` endpoints. */
  lemma BuildsByBranchPieces(branch: string)
    requires '/' !in branch
    ensures Split(BuildsByBranchEndpoint(branch, true), '/') == ["version", "builds", branch, "release"]
    ensures Split(BuildsByBranchEndpoint(branch, false), '/') == ["version", "builds", branch]
  {
    ReleaseBuildsPieces(branch);
    AllBuildsPieces(branch);
  }

  lemma ReleaseBuildsPieces(branch: string)
    requires '/' !in branch
    ensures Split(BuildsByBranchEndpoint(branch, true), '/') == ["version", "builds", branch, "release"]
  {
    assert BuildsByBranchEndpoint(branch, true) == "version" + ['/'] + ("builds" + ['/'] + (branch + ['/'] + "release"));
    SplitFourPieces("version", "builds", branch, "release", '/');
  }

  lemma AllBuildsPieces(branch: string)
    requires '/' !in branch
    ensures Split(BuildsByBranchEndpoint(branch, false), '/') == ["version", "builds", branch]
  {
    assert BuildsByBranchEndpoint(branch, false) == "version" + ['/'] + ("builds" + ['/'] + branch);
    SplitThreePieces("version", "builds", branch, '/');
  }

  lemma SplitThreePieces(a: string, b: string, x: string, c: char)
    requires c !in a && c !in b && c !in x
    ensures Split(a + [c] + (b + [c] + x), c) == [a, b, x]
  {
    SplitAppend(a, c, b + [c] + x);
    SplitAppend(b, c, x);
    SplitFree(x, c);
  }

  lemma SplitFourPieces(a: string, b: string, x: string, y: string, c: char)
    requires c !in a && c !in b && c !in x && c !in y
    ensures Split(a + [c] + (b + [c] + (x + [c] + y)), c) == [a, b, x, y]
  {
    SplitAppend(a, c, b + [c] + (x + [c] + y));
    SplitThreePieces(b, x, y, c);
  }

  /**
   * For branch names without '/', the endpoint determines both the branch and whether
   * only releases were asked for; a branch name with '/' can make the two forms collide.
   */
  lemma BuildsByBranchInjective(b1: string, r1: bool, b2: string, r2: bool)
    requires '/' !in b1 && '/' !in b2
    requires BuildsByBranchEndpoint(b1, r1) == BuildsByBranchEndpoint(b2, r2)
    ensures b1 == b2 && r1 == r2
  {
    BuildsByBranchPieces(b1);
    BuildsByBranchPieces(b2);
    assert Split(BuildsByBranchEndpoint(b1, r1), '/')[2] == b1;
    assert Split(BuildsByBranchEndpoint(b2, r2), '/')[2] == b2;
  }

  lemma ReleaseEndpointCollision(branch: string)
    ensures BuildsByBranchEndpoint(branch, true) == BuildsByBranchEndpoint(branch + "/release", false)
  {
  }

  /** The launch-manifest and changelog endpoints name the build they ask for. */
  lemma BuildEndpointsInjective(id1: u32, id2: u32)
    ensures LaunchManifestEndpoint(id1) == LaunchManifestEndpoint(id2) ==> id1 == id2
    ensures ChangelogEndpoint(id1) == ChangelogEndpoint(id2) ==> id1 == id2
  {
    if LaunchManifestEndpoint(id1) == LaunchManifestEndpoint(id2) {
      assert LaunchManifestEndpoint(id1)[15..] == NatToString(id1);
      assert LaunchManifestEndpoint(id2)[15..] == NatToString(id2);
      NatToStringInjective(id1, id2);
    }
    if ChangelogEndpoint(id1) == ChangelogEndpoint(id2) {
      assert ChangelogEndpoint(id1)[18..] == NatToString(id1);
      assert ChangelogEndpoint(id2)[18..] == NatToString(id2);
      NatToStringInjective(id1, id2);
    }
  }

  /** For '/'-free version and subsystem names, the mods endpoint names both. */
  lemma ModsEndpointInjective(mc1: string, sub1: string, mc2: string, sub2: string)
    requires '/' !in mc1 && '/' !in sub1 && '/' !in mc2 && '/' !in sub2
    requires ModsEndpoint(mc1, sub1) == ModsEndpoint(mc2, sub2)
    ensures mc1 == mc2 && sub1 == sub2
  {
    ModsPieces(mc1, sub1);
    ModsPieces(mc2, sub2);
  }

  lemma ModsPieces(mc: string, sub: string)
    requires '/' !in mc && '/' !in sub
    ensures Split(ModsEndpoint(mc, sub), '/') == ["version", "mods", mc, sub]
  {
    assert ModsEndpoint(mc, sub) == "version" + ['/'] + ("mods" + ['/'] + (mc + ['/'] + sub));
    SplitFourPieces("version", "mods", mc, sub, '/');
  }
}
