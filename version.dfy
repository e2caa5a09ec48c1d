/**
 * Version profiles (src-tauri/src/minecraft/version.rs): the parsed version JSON, the
 * inheritance merge that folds a parent profile into a child, the library identifiers
 * libraries are merged by, library download locations, and the JVM and game argument
 * vectors built from a profile's argument declaration.
 */
module Version {
  import opened Wrappers
  import opened Strings
  import opened Maven
  import opened RuleInterpreter

  // ---------------------------------------------------------------- data model

  datatype LibraryArtifact = LibraryArtifact(path: string, sha1: string, size: int, url: string)

  datatype LibraryDownloads = LibraryDownloads(
    artifact: Option<LibraryArtifact>,
    classifiers: Option<map<string, LibraryArtifact>>)

  datatype Library = Library(
    name: string,
    downloads: Option<LibraryDownloads>,
    natives: Option<map<string, string>>,
    rules: seq<Rule>,
    url: Option<string>)

  datatype LibraryDownloadInfo = LibraryDownloadInfo(
    path: string, sha1: Option<string>, size: Option<int>, url: string)

  datatype ArgumentValue = Single(value: string) | Vec(values: seq<string>)

  datatype Argument = Argument(rules: Option<seq<Rule>>, value: ArgumentValue)

  datatype Arguments = Arguments(game: seq<Argument>, jvm: seq<Argument>)

  /** V21 is the argument format of versions from 1.13 on, V14 the older single string. */
  datatype ArgumentDeclaration =
    | V21(arguments: Arguments)
    | V14(minecraftArguments: Option<string>)

  datatype AssetIndexLocation = AssetIndexLocation(
    id: string, sha1: string, size: int, totalSize: int, url: string)

  datatype Download = Download(sha1: string, size: int, url: string)

  datatype Downloads = Downloads(
    client: Option<Download>,
    clientMappings: Option<Download>,
    server: Option<Download>,
    serverMappings: Option<Download>,
    windowsServer: Option<Download>)

  /** The logging configuration carries no data yet. */
  datatype Logging = Logging

  // ---------------------------------------------------------------- libraries

  /**
   * `Library::get_identifier`: the key libraries are merged by. The version is left out,
   * so two versions of one library share it; a classifier is kept.
   */
  function GetIdentifier(lib: Library): (id: string)
    ensures Count(lib.name, ':') != 2 && Count(lib.name, ':') != 3 ==> id == lib.name
  {
    SplitCount(lib.name, ':');
    var parts := Split(lib.name, ':');
    if |parts| == 3 then parts[0] + ":" + parts[1]
    else if |parts| == 4 then parts[0] + ":" + parts[1] + ":" + parts[3]
    else lib.name
  }

  lemma Join3(a: string, b: string, c: string, sep: char)
    ensures Join([a, b, c], [sep]) == a + [sep] + b + [sep] + c
  {
    assert [a, b, c][1..] == [b, c];
    assert [b, c][1..] == [c];
    assert Join([b, c], [sep]) == b + [sep] + c;
    assert Join([a, b, c], [sep]) == a + [sep] + (b + [sep] + c);
  }

  lemma Join4(a: string, b: string, c: string, d: string, sep: char)
    ensures Join([a, b, c, d], [sep]) == a + [sep] + b + [sep] + c + [sep] + d
  {
    assert [a, b, c, d][1..] == [b, c, d];
    Join3(b, c, d, sep);
    assert Join([a, b, c, d], [sep]) == a + [sep] + (b + [sep] + c + [sep] + d);
  }

  /** `group:name:version` is identified by `group:name`, whatever the version. */
  lemma IdentifierOfCoordinate(lib: Library, group: string, artifact: string, version: string)
    requires ':' !in group && ':' !in artifact && ':' !in version
    requires lib.name == group + ":" + artifact + ":" + version
    ensures GetIdentifier(lib) == group + ":" + artifact
  {
    Join3(group, artifact, version, ':');
    SplitJoin([group, artifact, version], ':');
  }

  /** `group:name:version:classifier` is identified by `group:name:classifier`. */
  lemma IdentifierOfClassifiedCoordinate(lib: Library, group: string, artifact: string,
                                         version: string, classifier: string)
    requires ':' !in group && ':' !in artifact && ':' !in version && ':' !in classifier
    requires lib.name == group + ":" + artifact + ":" + version + ":" + classifier
    ensures GetIdentifier(lib) == group + ":" + artifact + ":" + classifier
  {
    Join4(group, artifact, version, classifier, ':');
    SplitJoin([group, artifact, version, classifier], ':');
  }

  const DEFAULT_LIBRARY_REPOSITORY: string := "https://libraries.minecraft.net/"

  /**
   * `Library::get_library_download`: the declared artifact if there is one; otherwise the
   * Maven path of the name under the library's repository (Mojang's by default), with no
   * checksum or size known.
   */
  function GetLibraryDownload(lib: Library): (r: Result<LibraryDownloadInfo, LauncherError>)
    ensures lib.downloads.Some? && lib.downloads.value.artifact.Some? ==>
      var a := lib.downloads.value.artifact.value;
      r == Ok(LibraryDownloadInfo(a.path, Some(a.sha1), Some(a.size), a.url))
    ensures !(lib.downloads.Some? && lib.downloads.value.artifact.Some?) ==>
      (r.Err? <==> ArtifactPath(lib.name).Err?)
      && (r.Err? ==> r.error == ArtifactPath(lib.name).error)
      && (r.Ok? ==> r.value.path == ArtifactPath(lib.name).value
                    && r.value.sha1.None? && r.value.size.None?
                    && r.value.url == (if lib.url.Some? then lib.url.value else DEFAULT_LIBRARY_REPOSITORY)
                                      + r.value.path)
  {
    if lib.downloads.Some? && lib.downloads.value.artifact.Some? then
      var a := lib.downloads.value.artifact.value;
      Ok(LibraryDownloadInfo(a.path, Some(a.sha1), Some(a.size), a.url))
    else
      var path := ArtifactPath(lib.name);
      if path.Err? then Err(path.error)
      else
        var base := if lib.url.Some? then lib.url.value else DEFAULT_LIBRARY_REPOSITORY;
        Ok(LibraryDownloadInfo(path.value, None, None, base + path.value))
  }

  /**
   * A library given only by its coordinate is downloaded from Mojang's repository at the
   * conventional Maven location.
   */
  lemma DefaultLibraryDownload(lib: Library, group: string, artifact: string, version: string)
    requires ':' !in group && ':' !in artifact && ':' !in version
    requires lib.name == group + ":" + artifact + ":" + version
    requires lib.downloads.None? && lib.url.None?
    ensures GetLibraryDownload(lib).Ok?
    ensures GetLibraryDownload(lib).value.path
         == Join(Split(group, '.'), "/") + "/" + artifact + "/" + version + "/" + artifact + "-" + version + ".jar"
    ensures GetLibraryDownload(lib).value.url == "https://libraries.minecraft.net/" + GetLibraryDownload(lib).value.path
    ensures GetLibraryDownload(lib).value.sha1.None? && GetLibraryDownload(lib).value.size.None?
  {
    ArtifactPathOfCoordinate(group, artifact, version);
  }

  // ---------------------------------------------------------------- merging

  /** `merge_options`: the child's value if it has one, else the parent's. */
  function MergeOptions<T>(child: Option<T>, parent: Option<T>): (r: Option<T>)
    ensures child.Some? ==> r == child
    ensures child.None? ==> r == parent
  {
    if child.Some? then child else parent
  }

  /** `merge_larger`: the larger of two values, or whichever is present. */
  function MergeLarger(child: Option<int>, parent: Option<int>): (r: Option<int>)
    ensures r.None? <==> child.None? && parent.None?
    ensures child.Some? ==> r.Some? && r.value >= child.value
    ensures parent.Some? ==> r.Some? && r.value >= parent.value
    ensures r.Some? ==> r == child || r == parent
  {
    if child.Some? && parent.Some? then
      if child.value < parent.value then parent else child
    else if child.None? then parent
    else child
  }

  /** Merging along a chain of ancestors gives the same result however it is grouped. */
  lemma MergeOptionsAssociative<T>(a: Option<T>, b: Option<T>, c: Option<T>)
    ensures MergeOptions(MergeOptions(a, b), c) == MergeOptions(a, MergeOptions(b, c))
    ensures MergeOptions(a, a) == a
  {
  }

  /** `merge_larger` is the maximum: symmetric, associative and idempotent. */
  lemma MergeLargerIsMaximum(a: Option<int>, b: Option<int>, c: Option<int>)
    ensures MergeLarger(a, b) == MergeLarger(b, a)
    ensures MergeLarger(MergeLarger(a, b), c) == MergeLarger(a, MergeLarger(b, c))
    ensures MergeLarger(a, a) == a
  {
  }

  /**
   * `child.extend(parent)` on two maps: every key of either, and the parent's value
   * wherever both have the key.
   */
  predicate ParentOverChild<V(==)>(child: map<string, V>, parent: map<string, V>, r: map<string, V>) {
    r.Keys == child.Keys + parent.Keys
    && (forall k :: k in parent ==> r[k] == parent[k])
    && (forall k :: k in child && k !in parent ==> r[k] == child[k])
  }

  /** Two optional maps merged as classifiers and natives are: either side alone, or both extended. */
  predicate OptionalMapsMerged<V(==)>(child: Option<map<string, V>>, parent: Option<map<string, V>>,
                                  r: Option<map<string, V>>) {
    (parent.None? ==> r == child)
    && (child.None? ==> r == parent)
    && (child.Some? && parent.Some? ==> r.Some? && ParentOverChild(child.value, parent.value, r.value))
  }

  /**
   * One step of `merge_libraries` for a parent library whose identifier the child map
   * already holds: the parent's rules follow the child's; a parent artifact replaces the
   * child's and parent classifiers and natives are added over the child's; the child's
   * repository url is kept if it has one.
   */
  function MergeLibrary(lib: Library, parent: Library): (r: Library)
    ensures r.name == lib.name && r.rules == lib.rules + parent.rules
    ensures r.url == (if lib.url.Some? then lib.url else parent.url)
    ensures parent.downloads.Some? && parent.downloads.value.artifact.Some?
            ==> r.downloads.Some? && r.downloads.value.artifact == parent.downloads.value.artifact
    ensures parent.downloads.None? ==> r.downloads == lib.downloads
    ensures lib.downloads.None? ==> r.downloads == parent.downloads
    ensures lib.downloads.Some? && parent.downloads.Some? ==>
      var d, pd := lib.downloads.value, parent.downloads.value;
      r.downloads.Some?
      && (pd.artifact.None? ==> r.downloads.value.artifact == d.artifact)
      && OptionalMapsMerged(d.classifiers, pd.classifiers, r.downloads.value.classifiers)
    ensures OptionalMapsMerged(lib.natives, parent.natives, r.natives)
  {
    var downloads :=
      if parent.downloads.None? then lib.downloads
      else if lib.downloads.None? then parent.downloads
      else
        var pd := parent.downloads.value;
        var d := lib.downloads.value;
        var artifact := if pd.artifact.Some? then pd.artifact else d.artifact;
        var classifiers :=
          if pd.classifiers.None? then d.classifiers
          else if d.classifiers.None? then pd.classifiers
          else Some(d.classifiers.value + pd.classifiers.value);
        Some(LibraryDownloads(artifact, classifiers));
    var natives :=
      if parent.natives.None? then lib.natives
      else if lib.natives.None? then parent.natives
      else Some(lib.natives.value + parent.natives.value);
    Library(lib.name, downloads, natives, lib.rules + parent.rules,
            if lib.url.Some? then lib.url else parent.url)
  }

  /** Every entry is stored under its own identifier. */
  ghost predicate Keyed(m: map<string, Library>) {
    forall k :: k in m ==> GetIdentifier(m[k]) == k
  }

  /** The identifiers of a list of libraries. */
  ghost function Ids(libs: seq<Library>): set<string> {
    set i | 0 <= i < |libs| :: GetIdentifier(libs[i])
  }

  ghost predicate DistinctIds(libs: seq<Library>) {
    forall i, j :: 0 <= i < j < |libs| ==> GetIdentifier(libs[i]) != GetIdentifier(libs[j])
  }

  /** The child's libraries collected into a map by identifier; a later duplicate wins. */
  function ChildMap(libs: seq<Library>): map<string, Library>
    decreases |libs|
  {
    if |libs| == 0 then map[]
    else
      var last := libs[|libs| - 1];
      ChildMap(libs[..|libs| - 1])[GetIdentifier(last) := last]
  }

  /** One iteration of the loop over the parent's libraries. */
  function MergeStep(m: map<string, Library>, parent: Library): map<string, Library> {
    var id := GetIdentifier(parent);
    if id in m then m[id := MergeLibrary(m[id], parent)] else m[id := parent]
  }

  /** The loop over the parent's libraries, in order. */
  function MergeParents(m: map<string, Library>, parents: seq<Library>): map<string, Library>
    decreases |parents|
  {
    if |parents| == 0 then m
    else MergeStep(MergeParents(m, parents[..|parents| - 1]), parents[|parents| - 1])
  }

  /** The map `merge_libraries` builds before turning it back into a vector. */
  function MergedLibraries(child: seq<Library>, parents: seq<Library>): map<string, Library> {
    MergeParents(ChildMap(child), parents)
  }

  /** A vector holding exactly the values of `m`, one per key, in some order. */
  ghost predicate Represents(libs: seq<Library>, m: map<string, Library>) {
    DistinctIds(libs)
    && Ids(libs) == m.Keys
    && (forall i :: 0 <= i < |libs| ==> GetIdentifier(libs[i]) in m && m[GetIdentifier(libs[i])] == libs[i])
  }



  lemma {:induction false} ChildMapKeys(libs: seq<Library>)
    ensures ChildMap(libs).Keys == Ids(libs)
    ensures Keyed(ChildMap(libs))
    decreases |libs|
  {
    if |libs| > 0 {
      var front := libs[..|libs| - 1];
      ChildMapKeys(front);
      assert forall i :: 0 <= i < |front| ==> front[i] == libs[i];
      assert Ids(libs) == Ids(front) + {GetIdentifier(libs[|libs| - 1])};
    }
  }

  /** With distinct identifiers, each child library is stored unchanged. */
  lemma {:induction false} ChildMapEntry(libs: seq<Library>, i: nat)
    requires i < |libs| && DistinctIds(libs)
    ensures GetIdentifier(libs[i]) in ChildMap(libs) && ChildMap(libs)[GetIdentifier(libs[i])] == libs[i]
    decreases |libs|
  {
    if i < |libs| - 1 {
      var front := libs[..|libs| - 1];
      assert front[i] == libs[i];
      ChildMapEntry(front, i);
    }
  }

  lemma MergeStepKeyed(m: map<string, Library>, parent: Library)
    requires Keyed(m)
    ensures Keyed(MergeStep(m, parent))
    ensures MergeStep(m, parent).Keys == m.Keys + {GetIdentifier(parent)}
  {
  }

  lemma {:induction false} MergeParentsKeys(m: map<string, Library>, parents: seq<Library>)
    requires Keyed(m)
    ensures MergeParents(m, parents).Keys == m.Keys + Ids(parents)
    ensures Keyed(MergeParents(m, parents))
    decreases |parents|
  {
    if |parents| > 0 {
      var front := parents[..|parents| - 1];
      MergeParentsKeys(m, front);
      MergeStepKeyed(MergeParents(m, front), parents[|parents| - 1]);
      assert forall i :: 0 <= i < |front| ==> front[i] == parents[i];
      assert Ids(parents) == Ids(front) + {GetIdentifier(parents[|parents| - 1])};
    }
  }

  /** Parent libraries with other identifiers leave an entry alone. */
  lemma {:induction false} MergeParentsUntouched(m: map<string, Library>, parents: seq<Library>, k: string)
    requires forall i :: 0 <= i < |parents| ==> GetIdentifier(parents[i]) != k
    ensures (k in MergeParents(m, parents)) == (k in m)
    ensures k in m ==> MergeParents(m, parents)[k] == m[k]
    decreases |parents|
  {
    if |parents| > 0 {
      var front := parents[..|parents| - 1];
      assert forall i :: 0 <= i < |front| ==> front[i] == parents[i];
      MergeParentsUntouched(m, front, k);
    }
  }

  /** The one parent library with identifier `k` is merged into the entry for `k`. */
  lemma {:induction false} MergeParentsSingle(m: map<string, Library>, parents: seq<Library>, j: nat, k: string)
    requires j < |parents| && GetIdentifier(parents[j]) == k
    requires forall i :: 0 <= i < |parents| && i != j ==> GetIdentifier(parents[i]) != k
    ensures k in MergeParents(m, parents)
    ensures MergeParents(m, parents)[k] == (if k in m then MergeLibrary(m[k], parents[j]) else parents[j])
    decreases |parents|
  {
    var front := parents[..|parents| - 1];
    assert forall i :: 0 <= i < |front| ==> front[i] == parents[i];
    if j == |parents| - 1 {
      MergeParentsUntouched(m, front, k);
    } else {
      MergeParentsSingle(m, front, j, k);
    }
  }

  /**
   * `merge_libraries` for a child and a parent that each list a library at most once:
   * the merged identifiers are the union of both; a library of only one side is taken
   * unchanged; a shared one is the child's merged with the parent's (MergeLibrary).
   */
  lemma MergedLibrariesSpec(child: seq<Library>, parents: seq<Library>, k: string)
    requires DistinctIds(child) && DistinctIds(parents)
    ensures MergedLibraries(child, parents).Keys == Ids(child) + Ids(parents)
    ensures Keyed(MergedLibraries(child, parents))
    ensures forall i, j :: (0 <= i < |child| && 0 <= j < |parents|
                            && GetIdentifier(child[i]) == k && GetIdentifier(parents[j]) == k)
                           ==> MergedLibraries(child, parents)[k] == MergeLibrary(child[i], parents[j])
    ensures forall i :: (0 <= i < |child| && GetIdentifier(child[i]) == k && k !in Ids(parents))
                        ==> MergedLibraries(child, parents)[k] == child[i]
    ensures forall j :: (0 <= j < |parents| && GetIdentifier(parents[j]) == k && k !in Ids(child))
                        ==> MergedLibraries(child, parents)[k] == parents[j]
  {
    ChildMapKeys(child);
    MergeParentsKeys(ChildMap(child), parents);
    forall i | 0 <= i < |child| && GetIdentifier(child[i]) == k
      ensures k in ChildMap(child) && ChildMap(child)[k] == child[i]
    {
      ChildMapEntry(child, i);
    }
    forall j | 0 <= j < |parents| && GetIdentifier(parents[j]) == k
      ensures MergedLibraries(child, parents)[k]
           == (if k in ChildMap(child) then MergeLibrary(ChildMap(child)[k], parents[j]) else parents[j])
    {
      MergeParentsSingle(ChildMap(child), parents, j, k);
    }
    if k !in Ids(parents) {
      MergeParentsUntouched(ChildMap(child), parents, k);
    }
  }

  /**
   * `merge_libraries`: the child's libraries are collected by identifier, each parent
   * library is merged into the entry of its identifier or added, and the vector is
   * replaced by the map's values, in the map's (unspecified) order.
   */
  method MergeLibraries(current: seq<Library>, parents: seq<Library>) returns (merged: seq<Library>)
    ensures Represents(merged, MergedLibraries(current, parents))
  {
    var libraryMap := ChildMap(current);
    for i := 0 to |parents|
      invariant libraryMap == MergeParents(ChildMap(current), parents[..i])
    {
      assert parents[..i + 1][..i] == parents[..i];
      var id := GetIdentifier(parents[i]);
      if id in libraryMap {
        libraryMap := libraryMap[id := MergeLibrary(libraryMap[id], parents[i])];
      } else {
        libraryMap := libraryMap[id := parents[i]];
      }
    }
    assert parents[..|parents|] == parents;
    ChildMapKeys(current);
    MergeParentsKeys(ChildMap(current), parents);
    ghost var keys;
    merged, keys := CollectValues(libraryMap);
    CollectedRepresents(merged, keys, libraryMap);
  }

  /**
   * `into_values().collect()`: the map's values in an unspecified order; `keys` records
   * which key each value came from.
   */
  method CollectValues(libraryMap: map<string, Library>) returns (merged: seq<Library>, ghost keys: seq<string>)
    ensures |merged| == |keys|
    ensures forall i :: 0 <= i < |keys| ==> keys[i] in libraryMap && merged[i] == libraryMap[keys[i]]
    ensures forall i, j :: 0 <= i < j < |keys| ==> keys[i] != keys[j]
    ensures forall k :: k in libraryMap <==> k in keys
  {
    merged, keys := [], [];
    var rest := libraryMap;
    while rest != map[]
      invariant rest.Keys <= libraryMap.Keys
      invariant forall k :: k in rest ==> rest[k] == libraryMap[k]
      invariant |merged| == |keys|
      invariant forall i :: 0 <= i < |keys| ==> keys[i] in libraryMap && merged[i] == libraryMap[keys[i]]
      invariant forall i, j :: 0 <= i < j < |keys| ==> keys[i] != keys[j]
      invariant forall k :: k in libraryMap ==> (k in keys <==> k !in rest)
      decreases |rest|
    {
      var k :| k in rest;
      merged, keys := merged + [rest[k]], keys + [k];
      rest := rest - {k};
    }
  }

  /** Values collected from a map keyed by identifier represent that map. */
  lemma CollectedRepresents(merged: seq<Library>, keys: seq<string>, m: map<string, Library>)
    requires Keyed(m) && |merged| == |keys|
    requires forall i :: 0 <= i < |keys| ==> keys[i] in m && merged[i] == m[keys[i]]
    requires forall i, j :: 0 <= i < j < |keys| ==> keys[i] != keys[j]
    requires forall k :: k in m <==> k in keys
    ensures Represents(merged, m)
  {
    assert forall i :: 0 <= i < |merged| ==> GetIdentifier(merged[i]) == keys[i];
    assert Ids(merged) == m.Keys by {
      forall k | k in m ensures k in Ids(merged) {
        var i :| 0 <= i < |keys| && keys[i] == k;
        assert GetIdentifier(merged[i]) == k;
      }
    }
  }

  // ---------------------------------------------------------------- arguments

  /** The strings one argument contributes when its rules allow it. */
  function Values(v: ArgumentValue): seq<string> {
    match v
    case Single(s) => [s]
    case Vec(vs) => vs
  }

  /**
   * What `check_rules_and_add` appends: the values of every argument whose rules allow
   * it (or that has none), in order; the first rule error stops it.
   */
  function RuleArgs(args: seq<Argument>, features: set<string>, env: Env): Result<seq<string>, LauncherError>
    decreases |args|
  {
    if |args| == 0 then Ok([])
    else
      var arg := args[0];
      var allowed := if arg.rules.None? then Ok(true) else Condition(arg.rules.value, features, env);
      if allowed.Err? then Err(allowed.error)
      else PrependOk(if allowed.value then Values(arg.value) else [], RuleArgs(args[1..], features, env))
  }

  /** `check_rules_and_add`: the existing arguments stay in front of what is appended. */
  method CheckRulesAndAdd(commandArguments: seq<string>, args: seq<Argument>, features: set<string>, env: Env)
    returns (r: Result<seq<string>, LauncherError>)
    ensures r == PrependOk(commandArguments, RuleArgs(args, features, env))
  {
    var out := commandArguments;
    for i := 0 to |args|
      invariant PrependOk(commandArguments, RuleArgs(args, features, env))
             == PrependOk(out, RuleArgs(args[i..], features, env))
    {
      assert args[i..][1..] == args[i + 1..] && args[i..][0] == args[i];
      var argument := args[i];
      var added: seq<string> := [];
      if argument.rules.Some? {
        var allowed := CheckCondition(argument.rules.value, features, env);
        if allowed.Err? {
          return Err(allowed.error);
        }
        if allowed.value {
          added := Values(argument.value);
        }
      } else {
        added := Values(argument.value);
      }
      PrependOkAssoc(out, added, RuleArgs(args[i + 1..], features, env));
      out := out + added;
    }
    assert args[|args|..] == [];
    assert out + [] == out;
    return Ok(out);
  }

  /** Arguments are handled independently and in order: the result for a concatenation. */
  lemma {:induction false} RuleArgsAppend(a: seq<Argument>, b: seq<Argument>, features: set<string>, env: Env)
    requires RuleArgs(a, features, env).Ok?
    ensures RuleArgs(a + b, features, env)
         == PrependOk(RuleArgs(a, features, env).value, RuleArgs(b, features, env))
    decreases |a|
  {
    if |a| > 0 {
      assert (a + b)[1..] == a[1..] + b && (a + b)[0] == a[0];
      RuleArgsAppend(a[1..], b, features, env);
      var arg := a[0];
      var allowed := if arg.rules.None? then Ok(true) else Condition(arg.rules.value, features, env);
      var c := if allowed.value then Values(arg.value) else [];
      PrependOkAssoc(c, RuleArgs(a[1..], features, env).value, RuleArgs(b, features, env));
    } else {
      assert a + b == b;
      PrependOkAssoc([], [], RuleArgs(b, features, env));
    }
  }

  /**
   * A single argument: without rules, or with rules that allow it, a SINGLE adds its
   * string and a VEC all its strings in order; rules that disallow it add nothing; a
   * rule error is the result.
   */
  lemma RuleArgsSingle(arg: Argument, features: set<string>, env: Env)
    ensures arg.rules.None? ==> RuleArgs([arg], features, env) == Ok(Values(arg.value))
    ensures arg.rules.Some? && Condition(arg.rules.value, features, env) == Ok(true)
            ==> RuleArgs([arg], features, env) == Ok(Values(arg.value))
    ensures arg.rules.Some? && Condition(arg.rules.value, features, env) == Ok(false)
            ==> RuleArgs([arg], features, env) == Ok([])
    ensures arg.rules.Some? && Condition(arg.rules.value, features, env).Err?
            ==> RuleArgs([arg], features, env) == Err(Condition(arg.rules.value, features, env).error)
  {
    assert [arg][1..] == [];
    assert [arg][0] == arg;
    assert RuleArgs([], features, env) == Ok([]);
    assert Values(arg.value) + [] == Values(arg.value);
    PrependOkAssoc([], [], RuleArgs([], features, env));
  }

  /** The launcher's fixed memory and G1 collector flags. */
  function MemoryFlags(memory: nat): seq<string> {
    ["-Xmx" + NatToString(memory) + "M",
     "-XX:+UnlockExperimentalVMOptions",
     "-XX:+UseG1GC",
     "-XX:G1NewSizePercent=20",
     "-XX:G1ReservePercent=20",
     "-XX:MaxGCPauseMillis=50",
     "-XX:G1HeapRegionSize=32M"]
  }

  /** What `add_jvm_args_to_vec` appends. */
  function JvmArgs(decl: ArgumentDeclaration, memory: nat, features: set<string>, env: Env)
    : Result<seq<string>, LauncherError>
  {
    match decl
    case V14(_) =>
      Ok(MemoryFlags(memory) + ["-Djava.library.path=${natives_directory}", "-cp", "${classpath}"])
    case V21(arguments) => PrependOk(MemoryFlags(memory), RuleArgs(arguments.jvm, features, env))
  }

  /** `add_jvm_args_to_vec`. */
  method AddJvmArgsToVec(commandArguments: seq<string>, decl: ArgumentDeclaration, memory: nat,
                         features: set<string>, env: Env)
    returns (r: Result<seq<string>, LauncherError>)
    ensures r == PrependOk(commandArguments, JvmArgs(decl, memory, features, env))
  {
    var out := commandArguments;
    out := out + ["-Xmx" + NatToString(memory) + "M"];
    out := out + ["-XX:+UnlockExperimentalVMOptions"];
    out := out + ["-XX:+UseG1GC"];
    out := out + ["-XX:G1NewSizePercent=20"];
    out := out + ["-XX:G1ReservePercent=20"];
    out := out + ["-XX:MaxGCPauseMillis=50"];
    out := out + ["-XX:G1HeapRegionSize=32M"];
    assert out == commandArguments + MemoryFlags(memory);
    match decl {
      case V14(_) =>
        out := out + ["-Djava.library.path=${natives_directory}", "-cp", "${classpath}"];
        assert out == commandArguments + (MemoryFlags(memory)
                      + ["-Djava.library.path=${natives_directory}", "-cp", "${classpath}"]);
      case V21(arguments) =>
        var added := CheckRulesAndAdd(out, arguments.jvm, features, env);
        PrependOkAssoc(commandArguments, MemoryFlags(memory), RuleArgs(arguments.jvm, features, env));
        if added.Err? {
          return Err(added.error);
        }
        out := added.value;
    }
    return Ok(out);
  }

  /**
   * The JVM arguments always start with the memory limit and the six collector flags; an
   * old-format profile then names the natives directory and the class path, a new-format
   * one adds its rule-filtered JVM arguments.
   */
  lemma JvmArgsShape(decl: ArgumentDeclaration, memory: nat, features: set<string>, env: Env)
    ensures JvmArgs(decl, memory, features, env).Ok? ==>
      var a := JvmArgs(decl, memory, features, env).value;
      |a| >= 7 && a[0] == "-Xmx" + NatToString(memory) + "M" && a[..7] == MemoryFlags(memory)
    ensures decl.V14? ==> JvmArgs(decl, memory, features, env).Ok?
                          && |JvmArgs(decl, memory, features, env).value| == 10
                          && JvmArgs(decl, memory, features, env).value[7..]
                             == ["-Djava.library.path=${natives_directory}", "-cp", "${classpath}"]
    ensures decl.V21? ==> (JvmArgs(decl, memory, features, env).Ok?
                           <==> RuleArgs(decl.arguments.jvm, features, env).Ok?)
  {
  }

  /** What `add_game_args_to_vec` appends. */
  function GameArgs(decl: ArgumentDeclaration, features: set<string>, env: Env)
    : Result<seq<string>, LauncherError>
  {
    match decl
    case V14(minecraftArguments) =>
      if minecraftArguments.None? then Err(InvalidVersionProfile("no game arguments specified"))
      else Ok(Split(minecraftArguments.value, ' '))
    case V21(arguments) => RuleArgs(arguments.game, features, env)
  }

  /** `add_game_args_to_vec`. */
  method AddGameArgsToVec(commandArguments: seq<string>, decl: ArgumentDeclaration,
                          features: set<string>, env: Env)
    returns (r: Result<seq<string>, LauncherError>)
    ensures r == PrependOk(commandArguments, GameArgs(decl, features, env))
  {
    match decl {
      case V14(minecraftArguments) =>
        if minecraftArguments.None? {
          return Err(InvalidVersionProfile("no game arguments specified"));
        }
        return Ok(commandArguments + Split(minecraftArguments.value, ' '));
      case V21(arguments) =>
        r := CheckRulesAndAdd(commandArguments, arguments.game, features, env);
    }
  }

  /**
   * Old-format game arguments are the `minecraftArguments` string cut at each space:
   * joining them with spaces gives the string back, and none contains a space. Without
   * the string the profile is rejected.
   */
  lemma GameArgsV14(s: Option<string>, features: set<string>, env: Env)
    ensures s.None? ==> GameArgs(V14(s), features, env) == Err(InvalidVersionProfile("no game arguments specified"))
    ensures s.Some? ==> GameArgs(V14(s), features, env).Ok?
                        && Join(GameArgs(V14(s), features, env).value, " ") == s.value
                        && forall i :: 0 <= i < |GameArgs(V14(s), features, env).value| ==>
                             ' ' !in GameArgs(V14(s), features, env).value[i]
  {
    if s.Some? {
      JoinSplit(s.value, ' ');
      SplitPartsFree(s.value, ' ');
    }
  }

  // ---------------------------------------------------------------- profiles

  /**
   * The argument declarations of a merge: for V14 the child's `minecraftArguments` or
   * else the parent's; for V21 the child's game and JVM arguments followed by the
   * parent's; a V14 profile cannot inherit from a V21 one or the other way round.
   */
  function MergeArguments(child: ArgumentDeclaration, parent: ArgumentDeclaration)
    : (r: Result<ArgumentDeclaration, LauncherError>)
    ensures r.Err? <==> child.V14? != parent.V14?
    ensures r.Err? ==> r.error == InvalidVersionProfile("version profile inherits from incompatible profile")
    ensures r.Ok? && child.V21? ==>
      r.value.V21? && r.value.arguments.game == child.arguments.game + parent.arguments.game
      && r.value.arguments.jvm == child.arguments.jvm + parent.arguments.jvm
    ensures r.Ok? && child.V14? ==>
      r.value == V14(MergeOptions(child.minecraftArguments, parent.minecraftArguments))
  {
    match child
    case V14(a) =>
      if parent.V14? then Ok(V14(MergeOptions(a, parent.minecraftArguments)))
      else Err(InvalidVersionProfile("version profile inherits from incompatible profile"))
    case V21(a) =>
      if parent.V21? then
        Ok(V21(Arguments(a.game + parent.arguments.game, a.jvm + parent.arguments.jvm)))
      else Err(InvalidVersionProfile("version profile inherits from incompatible profile"))
  }

  /**
   * With the inherited game arguments of a V21 merge, the child's own arguments are
   * evaluated first and the parent's after them.
   */
  lemma MergedGameArgsOrder(child: Arguments, parent: Arguments, features: set<string>, env: Env)
    requires RuleArgs(child.game, features, env).Ok?
    ensures MergeArguments(V21(child), V21(parent)).Ok?
    ensures GameArgs(MergeArguments(V21(child), V21(parent)).value, features, env)
         == PrependOk(RuleArgs(child.game, features, env).value, RuleArgs(parent.game, features, env))
  {
    RuleArgsAppend(child.game, parent.game, features, env);
  }

  /** A version profile (VersionProfile); `merge` updates the child's fields in place. */
  class VersionProfile {
    var id: string
    var assetIndexLocation: Option<AssetIndexLocation>
    var assets: Option<string>
    var inheritsFrom: Option<string>
    var minimumLauncherVersion: Option<i32>
    var downloads: Option<Downloads>
    var complianceLevel: Option<i32>
    var libraries: seq<Library>
    var mainClass: Option<string>
    var logging: Option<Logging>
    var versionType: string
    var arguments: ArgumentDeclaration

    constructor (id: string, versionType: string, libraries: seq<Library>, arguments: ArgumentDeclaration)
      ensures this.id == id && this.versionType == versionType
      ensures this.libraries == libraries && this.arguments == arguments
      ensures assetIndexLocation.None? && assets.None? && inheritsFrom.None?
      ensures minimumLauncherVersion.None? && downloads.None? && complianceLevel.None?
      ensures mainClass.None? && logging.None?
    {
      this.id := id;
      this.versionType := versionType;
      this.libraries := libraries;
      this.arguments := arguments;
      assetIndexLocation := None;
      assets := None;
      inheritsFrom := None;
      minimumLauncherVersion := None;
      downloads := None;
      complianceLevel := None;
      mainClass := None;
      logging := None;
    }

    /**
     * `VersionProfile::merge`: folds `parent` into this profile. Every optional field keeps
     * the child's value or takes the parent's, the launcher-version and compliance
     * levels take the larger, the libraries are merged by identifier, and the argument
     * declarations are merged last. An incompatible declaration is reported after the
     * other fields were already merged, and leaves the child's declaration as it was.
     */
    method Merge(parent: VersionProfile) returns (r: Result<(), LauncherError>)
      requires parent != this
      modifies this
      ensures id == old(id) && versionType == old(versionType) && inheritsFrom == old(inheritsFrom)
      ensures assetIndexLocation == MergeOptions(old(assetIndexLocation), parent.assetIndexLocation)
      ensures assets == MergeOptions(old(assets), parent.assets)
      ensures minimumLauncherVersion == MergeLarger(old(minimumLauncherVersion), parent.minimumLauncherVersion)
      ensures downloads == MergeOptions(old(downloads), parent.downloads)
      ensures complianceLevel == MergeLarger(old(complianceLevel), parent.complianceLevel)
      ensures Represents(libraries, MergedLibraries(old(libraries), parent.libraries))
      ensures mainClass == MergeOptions(old(mainClass), parent.mainClass)
      ensures logging == MergeOptions(old(logging), parent.logging)
      ensures var m := MergeArguments(old(arguments), parent.arguments);
              (r.Err? <==> m.Err?) && (r.Err? ==> r.error == m.error && arguments == old(arguments))
              && (r.Ok? ==> arguments == m.value)
    {
      MergeFields(parent);
      var merged := MergeArguments(arguments, parent.arguments);
      if merged.Err? {
        return Err(merged.error);
      }
      arguments := merged.value;
      return Ok(());
    }

    /** Every field but the argument declarations, merged as `merge` does first. */
    method MergeFields(parent: VersionProfile)
      requires parent != this
      modifies this
      ensures id == old(id) && versionType == old(versionType) && inheritsFrom == old(inheritsFrom)
      ensures arguments == old(arguments)
      ensures assetIndexLocation == MergeOptions(old(assetIndexLocation), parent.assetIndexLocation)
      ensures assets == MergeOptions(old(assets), parent.assets)
      ensures minimumLauncherVersion == MergeLarger(old(minimumLauncherVersion), parent.minimumLauncherVersion)
      ensures downloads == MergeOptions(old(downloads), parent.downloads)
      ensures complianceLevel == MergeLarger(old(complianceLevel), parent.complianceLevel)
      ensures Represents(libraries, MergedLibraries(old(libraries), parent.libraries))
      ensures mainClass == MergeOptions(old(mainClass), parent.mainClass)
      ensures logging == MergeOptions(old(logging), parent.logging)
    {
      var mergedLibraries := MergeLibraries(libraries, parent.libraries);
      assetIndexLocation := MergeOptions(assetIndexLocation, parent.assetIndexLocation);
      assets := MergeOptions(assets, parent.assets);
      minimumLauncherVersion := MergeLarger(minimumLauncherVersion, parent.minimumLauncherVersion);
      downloads := MergeOptions(downloads, parent.downloads);
      complianceLevel := MergeLarger(complianceLevel, parent.complianceLevel);
      libraries := mergedLibraries;
      mainClass := MergeOptions(mainClass, parent.mainClass);
      logging := MergeOptions(logging, parent.logging);
    }
  }
}
