/**
 * Maven coordinate to repository path: `group:name:version` becomes
 * `group/with/slashes/name/version/name-version.jar`. The launcher has three textually
 * identical copies of this function (src-tauri/src/utils/maven.rs, src/utils.rs and
 * src/utils/mod.rs); it is defined once here.
 */
module Maven {
  import opened Wrappers
  import opened Strings

  /** `get_maven_artifact_path`: split on ':', demand exactly three parts, format the path. */
  function ArtifactPath(artifactId: string): (r: Result<string, LauncherError>)
    ensures r.Err? <==> Count(artifactId, ':') != 2
    ensures r.Err? ==> r.error == InvalidVersionProfile("Invalid artifact name: " + artifactId)
  {
    SplitCount(artifactId, ':');
    var split := Split(artifactId, ':');
    if |split| != 3 then
      Err(InvalidVersionProfile("Invalid artifact name: " + artifactId))
    else
      Ok(ReplaceChar(split[0], '.', '/') + "/" + split[1] + "/" + split[2] + "/"
         + split[1] + "-" + split[2] + ".jar")
  }

  /**
   * For a coordinate built from three colon-free segments, the path is the group's
   * dot-separated components as directories, then the name and the version verbatim
   * (their dots are kept), then `name-version.jar`.
   */
  lemma ArtifactPathOfCoordinate(group: string, name: string, version: string)
    requires ':' !in group && ':' !in name && ':' !in version
    ensures ArtifactPath(group + ":" + name + ":" + version)
         == Ok(Join(Split(group, '.'), "/") + "/" + name + "/" + version + "/"
               + name + "-" + version + ".jar")
  {
    var id := group + ":" + name + ":" + version;
    var parts := [group, name, version];
    assert Join(parts, [':']) == id by {
      assert parts[1..] == [name, version];
      assert [name, version][1..] == [version];
      assert Join([version], [':']) == version;
      assert Join([name, version], [':']) == name + [':'] + version;
      assert Join(parts, [':']) == group + [':'] + (name + [':'] + version);
    }
    SplitJoin(parts, ':');
    ReplaceCharIsJoinSplit(group, '.', '/');
  }

  /** Every path produced ends in `.jar`, contains no ':', and its group part contains no '.'. */
  lemma ArtifactPathWellFormed(artifactId: string)
    requires ArtifactPath(artifactId).Ok?
    ensures EndsWith(ArtifactPath(artifactId).value, ".jar")
    ensures ':' !in ArtifactPath(artifactId).value
    ensures '.' !in ReplaceChar(Split(artifactId, ':')[0], '.', '/')
  {
    var split := Split(artifactId, ':');
    SplitPartsFree(artifactId, ':');
    assert ':' !in split[0] && ':' !in split[1] && ':' !in split[2];
    var g := ReplaceChar(split[0], '.', '/');
    ReplaceCharChars(split[0], '.', '/');
    var p := ArtifactPath(artifactId).value;
    assert p == g + "/" + split[1] + "/" + split[2] + "/" + split[1] + "-" + split[2] + ".jar";
    assert ':' !in g;
  }
}
