/**
 * The launcher API of the older tree (src/app/api.rs): a two-variant mod source and
 * full request URLs built in place. Its URLs are the version-1 URLs of the newer client.
 */
module LegacyApi {
  import opened Wrappers
  import opened Strings
  import opened Maven
  import ClientApi

  const LAUNCHER_API: string := "https://api.liquidbounce.net"

  datatype ModSource =
    | SkipAd(artifactName: string, url: string, extract: bool)
    | Repository(repository: string, artifact: string)

  /** `ModSource::get_path`: fails only when a repository artifact is not `group:name:version`. */
  function GetPath(m: ModSource): (r: Result<string, LauncherError>)
    ensures r.Err? <==> m.Repository? && ArtifactPath(m.artifact).Err?
    ensures r.Ok? ==> EndsWith(r.value, ".jar")
    ensures m.Repository? ==> r == ArtifactPath(m.artifact)
  {
    match m
    case SkipAd(artifactName, _, _) => Ok(artifactName + ".jar")
    case Repository(_, artifact) =>
      var path := ArtifactPath(artifact);
      if path.Err? then path
      else
        ArtifactPathWellFormed(artifact);
        Ok(path.value)
  }

  function ToClientApi(m: ModSource): ClientApi.ModSource {
    match m
    case SkipAd(a, u, e) => ClientApi.SkipAd(a, u, e)
    case Repository(r, a) => ClientApi.Repository(r, a)
  }

  /** The newer client stores every mod the older one knows under the same path. */
  lemma GetPathAgrees(m: ModSource)
    ensures GetPath(m) == ClientApi.GetPath(ToClientApi(m))
  {
  }

  function BranchesUrl(): string {
    LAUNCHER_API + "/api/v1/version/branches"
  }

  function AllBuildsUrl(): string {
    LAUNCHER_API + "/api/v1/version/builds"
  }

  function BuildsUrl(branch: string): string {
    LAUNCHER_API + "/api/v1/version/builds/" + branch
  }

  function VersionManifestUrl(buildId: u32): string {
    LAUNCHER_API + "/api/v1/version/launch/" + NatToString(buildId)
  }

  /**
   * The older URLs are the newer client's version-1 URLs for the same requests; all
   * builds of a branch are the non-release form of `builds_by_branch`.
   */
  lemma UrlsAgreeWithClientApi(branch: string, buildId: u32)
    ensures BranchesUrl() == ClientApi.V1Url(ClientApi.BRANCHES_ENDPOINT)
    ensures BuildsUrl(branch) == ClientApi.V1Url(ClientApi.BuildsByBranchEndpoint(branch, false))
    ensures VersionManifestUrl(buildId) == ClientApi.V1Url(ClientApi.LaunchManifestEndpoint(buildId))
    ensures AllBuildsUrl() == ClientApi.V1Url("version/builds")
  {
    BranchesUrlAgrees();
    AllBuildsUrlAgrees();
    BuildsUrlAgrees(branch);
    ManifestUrlAgrees(buildId);
  }

  lemma BuildsUrlAgrees(branch: string)
    ensures BuildsUrl(branch) == ClientApi.V1Url(ClientApi.BuildsByBranchEndpoint(branch, false))
  {
    UnderV1("version/builds/", branch);
    assert "/api/v1/version/builds/" == "/api/v1/" + "version/builds/";
    assert BuildsUrl(branch) == LAUNCHER_API + "/api/v1/" + "version/builds/" + branch;
  }

  lemma ManifestUrlAgrees(buildId: u32)
    ensures VersionManifestUrl(buildId) == ClientApi.V1Url(ClientApi.LaunchManifestEndpoint(buildId))
  {
    UnderV1("version/launch/", NatToString(buildId));
    assert "/api/v1/version/launch/" == "/api/v1/" + "version/launch/";
    assert VersionManifestUrl(buildId) == LAUNCHER_API + "/api/v1/" + "version/launch/" + NatToString(buildId);
  }

  lemma BranchesUrlAgrees()
    ensures BranchesUrl() == ClientApi.V1Url(ClientApi.BRANCHES_ENDPOINT)
  {
    V1UrlForm(ClientApi.BRANCHES_ENDPOINT);
    assert BranchesUrl() == V1_PREFIX + "version/branches";
  }

  lemma AllBuildsUrlAgrees()
    ensures AllBuildsUrl() == ClientApi.V1Url("version/builds")
  {
    V1UrlForm("version/builds");
    assert AllBuildsUrl() == V1_PREFIX + "version/builds";
  }

  /** The host and version part every older URL starts with. */
  const V1_PREFIX: string := LAUNCHER_API + "/api/v1/"

  lemma V1UrlForm(endpoint: string)
    ensures ClientApi.V1Url(endpoint) == V1_PREFIX + endpoint
  {
    assert ClientApi.LAUNCHER_API + "/" + ClientApi.API_V1 + "/" == V1_PREFIX;
    assert ClientApi.V1Url(endpoint) == (ClientApi.LAUNCHER_API + "/" + ClientApi.API_V1 + "/") + endpoint;
  }

  lemma UnderV1(path: string, tail: string)
    ensures LAUNCHER_API + "/api/v1/" + path + tail == ClientApi.V1Url(path + tail)
  {
    V1UrlForm(path + tail);
    assert LAUNCHER_API + "/api/v1/" + path + tail == V1_PREFIX + (path + tail);
  }

  /** Each branch has its own builds URL, distinct from the all-builds URL. */
  lemma BuildsUrlInjective(b1: string, b2: string)
    ensures BuildsUrl(b1) == BuildsUrl(b2) ==> b1 == b2
    ensures BuildsUrl(b1) != AllBuildsUrl()
  {
    var n := |LAUNCHER_API + "/api/v1/version/builds/"|;
    assert BuildsUrl(b1)[..n] == LAUNCHER_API + "/api/v1/version/builds/";
    assert BuildsUrl(b1)[n..] == b1 && BuildsUrl(b2)[n..] == b2;
  }
}
