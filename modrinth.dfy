/**
 * The bookkeeping of the Modrinth commands (src-tauri/src/app/gui/commands/modrinth.rs):
 * which file of a version is installed, when an update is offered, and how the metadata
 * map (project id to installed mod) and the mod directory change on install, update and
 * sync. The Modrinth API, downloads, hashing and directory listing are parameters; the
 * metadata file and the mod directory are the fields of `ModDirectory`.
 */
module ModrinthCommands {
  import opened Wrappers
  import opened Strings

  datatype ModrinthFile = ModrinthFile(filename: string, primary: bool)

  datatype ModrinthVersion = ModrinthVersion(id: string, projectId: string, versionNumber: string,
                                             files: seq<ModrinthFile>)

  datatype InstalledModInfo = InstalledModInfo(projectId: string, versionId: string, filename: string,
                                               title: string)

  datatype ModWithUpdate = ModWithUpdate(info: InstalledModInfo, hasUpdate: bool, newVersion: Option<string>)

  type Metadata = map<string, InstalledModInfo>

  // ---------------------------------------------------------------- file choice

  /** The index of the first primary file. */
  function FirstPrimary(files: seq<ModrinthFile>): (i: Option<nat>)
    ensures i.Some? ==> i.value < |files| && files[i.value].primary
                        && forall j :: 0 <= j < i.value ==> !files[j].primary
    ensures i.None? ==> forall j :: 0 <= j < |files| ==> !files[j].primary
    decreases |files|
  {
    if |files| == 0 then None
    else if files[0].primary then Some(0)
    else
      var rest := FirstPrimary(files[1..]);
      if rest.None? then None else Some(rest.value + 1)
  }

  /**
   * `files.iter().find(|f| f.primary).or(files.first())`: the first primary file, else
   * the first file.
   */
  function ChooseFile(files: seq<ModrinthFile>): (r: Result<ModrinthFile, string>)
    ensures r.Err? <==> |files| == 0
    ensures r.Err? ==> r.error == "No files available"
    ensures r.Ok? ==> r.value in files
    ensures r.Ok? && r.value.primary ==>
      exists i :: 0 <= i < |files| && files[i] == r.value && forall j :: 0 <= j < i ==> !files[j].primary
    ensures r.Ok? && !r.value.primary ==> r.value == files[0] && forall j :: 0 <= j < |files| ==> !files[j].primary
    ensures (exists i :: 0 <= i < |files| && files[i].primary) ==> r.Ok? && r.value.primary
  {
    var p := FirstPrimary(files);
    if p.Some? then Ok(files[p.value])
    else if |files| > 0 then Ok(files[0])
    else Err("No files available")
  }

  /**
   * The version lookup and file choice shared by install and update: a lookup failure,
   * no compatible version and a version without files are the three errors, in that order.
   */
  function Resolve(lookup: Result<Option<ModrinthVersion>, string>): (r: Result<(ModrinthVersion, ModrinthFile), string>)
    ensures lookup.Err? ==> r == Err("Failed to get version: " + lookup.error)
    ensures lookup == Ok(None) ==> r == Err("No compatible version found")
    ensures lookup.Ok? && lookup.value.Some? ==>
      var v := lookup.value.value;
      (r.Err? <==> |v.files| == 0) && (r.Err? ==> r.error == "No files available")
      && (r.Ok? ==> r.value.0 == v && r.value.1 == ChooseFile(v.files).value)
  {
    if lookup.Err? then Err("Failed to get version: " + lookup.error)
    else if lookup.value.None? then Err("No compatible version found")
    else
      var v := lookup.value.value;
      var file := ChooseFile(v.files);
      if file.Err? then Err(file.error) else Ok((v, file.value))
  }

  // ---------------------------------------------------------------- check updates

  /**
   * One result of `modrinth_check_updates`: an update is offered exactly when the lookup
   * (whose failures count as no version) yields a version other than the installed one.
   */
  function CheckOne(info: InstalledModInfo, latest: Result<Option<ModrinthVersion>, string>): (u: ModWithUpdate)
    ensures u.info == info
    ensures u.hasUpdate <==> latest.Ok? && latest.value.Some? && latest.value.value.id != info.versionId
    ensures u.hasUpdate ==> u.newVersion == Some(latest.value.value.versionNumber)
    ensures !u.hasUpdate ==> u.newVersion.None?
  {
    if latest.Ok? && latest.value.Some? && latest.value.value.id != info.versionId then
      ModWithUpdate(info, true, Some(latest.value.value.versionNumber))
    else
      ModWithUpdate(info, false, None)
  }

  /**
   * `modrinth_check_updates`: one result per metadata entry, looked up by the entry's
   * stored project id. The vector's order is the map's iteration order, so the results
   * are returned keyed by the metadata key.
   */
  method CheckUpdates(metadata: Metadata, lookup: string -> Result<Option<ModrinthVersion>, string>)
    returns (results: map<string, ModWithUpdate>)
    ensures results.Keys == metadata.Keys
    ensures forall k :: k in metadata ==> results[k] == CheckOne(metadata[k], lookup(metadata[k].projectId))
  {
    results := map[];
    var rest := metadata.Keys;
    while rest != {}
      invariant rest <= metadata.Keys
      invariant results.Keys == metadata.Keys - rest
      invariant forall k :: k in results ==> results[k] == CheckOne(metadata[k], lookup(metadata[k].projectId))
      decreases |rest|
    {
      var k :| k in rest;
      var info := metadata[k];
      results := results[k := CheckOne(info, lookup(info.projectId))];
      rest := rest - {k};
    }
  }

  // ---------------------------------------------------------------- sync

  /** The index of the last '.' of `s`. */
  function LastDot(s: string): (i: Option<nat>)
    ensures i.Some? ==> i.value < |s| && s[i.value] == '.' && forall j :: i.value < j < |s| ==> s[j] != '.'
    ensures i.None? ==> forall j :: 0 <= j < |s| ==> s[j] != '.'
    decreases |s|
  {
    if |s| == 0 then None
    else if s[|s| - 1] == '.' then Some(|s| - 1)
    else LastDot(s[..|s| - 1])
  }

  /**
   * `Path::extension` of a file name: the text after the last '.', unless there is none,
   * the only '.' begins the name, or the name is "..".
   */
  function Extension(name: string): Option<string> {
    if name == ".." then None
    else
      var dot := LastDot(name);
      if dot.None? || dot.value == 0 then None else Some(name[dot.value + 1..])
  }

  predicate IsJarName(name: string) {
    Extension(name) == Some("jar")
  }

  /** A file is taken for a jar exactly when its name ends in `.jar` after at least one character. */
  lemma JarNames(name: string)
    ensures IsJarName(name) <==> |name| >= 5 && EndsWith(name, ".jar")
  {
    if |name| >= 5 && EndsWith(name, ".jar") {
      JarSuffixIsJarName(name);
    }
    if IsJarName(name) {
      JarNameHasSuffix(name);
    }
  }

  lemma JarSuffixIsJarName(name: string)
    requires |name| >= 5 && EndsWith(name, ".jar")
    ensures IsJarName(name)
  {
    var i := |name| - 4;
    assert name[i..] == ".jar";
    assert name[i] == '.' && name[i + 1..] == "jar";
    var dot := LastDot(name);
    assert dot.Some? && dot.value >= i;
    assert dot.value == i;
  }

  lemma JarNameHasSuffix(name: string)
    requires IsJarName(name)
    ensures |name| >= 5 && EndsWith(name, ".jar")
  {
    var d := LastDot(name).value;
    var ext := name[d + 1..];
    assert ext == "jar";
    assert |name| == d + 4;
    var tail := name[d..];
    assert tail == [name[d]] + ext;
    assert tail == ".jar";
    assert name[|name| - 4..] == tail;
  }

  /** What the hash lookup found for a directory entry: its Modrinth version and project title. */
  datatype Identified = Identified(projectId: string, versionId: string, title: string)

  /**
   * An entry of the mod directory. `identified` is None when the file cannot be read or
   * either Modrinth lookup fails or finds nothing.
   */
  datatype DirEntry = DirEntry(name: string, identified: Option<Identified>)

  predicate Tracked(metadata: Metadata, filename: string) {
    exists k :: k in metadata && metadata[k].filename == filename
  }

  /** The entry is a jar, its file name is not tracked yet, and Modrinth identified it. */
  predicate Syncable(metadata: Metadata, e: DirEntry) {
    IsJarName(e.name) && !Tracked(metadata, e.name) && e.identified.Some?
  }

  /** The metadata entry an identified file is recorded under. */
  function EntryInfo(e: DirEntry): (info: InstalledModInfo)
    requires e.identified.Some?
    ensures info.projectId == e.identified.value.projectId && info.versionId == e.identified.value.versionId
    ensures info.filename == e.name && info.title == e.identified.value.title
  {
    InstalledModInfo(e.identified.value.projectId, e.identified.value.versionId, e.name, e.identified.value.title)
  }

  /**
   * One iteration of the sync loop; the flag tells whether an entry was inserted. An
   * inserted entry is keyed by its project id and records the version id, the file name
   * and the project title; every other key keeps its entry.
   */
  function SyncStep(metadata: Metadata, e: DirEntry): (r: (Metadata, bool))
    ensures !r.1 ==> r.0 == metadata
    ensures r.1 <==> Syncable(metadata, e)
    ensures r.1 ==> r.0.Keys == metadata.Keys + {e.identified.value.projectId}
                    && r.0[e.identified.value.projectId] == EntryInfo(e)
                    && forall k :: k in metadata && k != e.identified.value.projectId ==> r.0[k] == metadata[k]
  {
    if !Syncable(metadata, e) then (metadata, false)
    else (metadata[e.identified.value.projectId := EntryInfo(e)], true)
  }

  datatype SyncState = SyncState(metadata: Metadata, synced: nat)

  /** The sync loop over the entries, in directory order. */
  function SyncFold(metadata: Metadata, entries: seq<DirEntry>): SyncState
    decreases |entries|
  {
    if |entries| == 0 then SyncState(metadata, 0)
    else
      var step := SyncStep(metadata, entries[0]);
      var rest := SyncFold(step.0, entries[1..]);
      SyncState(rest.metadata, rest.synced + (if step.1 then 1 else 0))
  }

  /**
   * What the sync promises: at most one insertion per entry, no tracked project is
   * dropped, nothing changes when nothing was inserted, and every entry that is new or
   * replaced is the record of a jar that was identified and untracked when the loop
   * reached it.
   */
  lemma {:induction false} SyncFoldSpec(metadata: Metadata, entries: seq<DirEntry>)
    ensures SyncFold(metadata, entries).synced <= |entries|
    ensures metadata.Keys <= SyncFold(metadata, entries).metadata.Keys
    ensures SyncFold(metadata, entries).synced == 0 ==> SyncFold(metadata, entries).metadata == metadata
    ensures forall k :: k in SyncFold(metadata, entries).metadata ==>
      (k in metadata && SyncFold(metadata, entries).metadata[k] == metadata[k])
      || SyncedFrom(metadata, entries, k, SyncFold(metadata, entries).metadata[k])
    decreases |entries|
  {
    if |entries| > 0 {
      var step := SyncStep(metadata, entries[0]);
      SyncFoldSpec(step.0, entries[1..]);
      var result := SyncFold(metadata, entries).metadata;
      forall k | k in result
        ensures (k in metadata && result[k] == metadata[k]) || SyncedFrom(metadata, entries, k, result[k])
      {
        if !(k in step.0 && result[k] == step.0[k]) {
          SyncedFromLater(metadata, entries, k, result[k]);
        } else if !(k in metadata && result[k] == metadata[k]) {
          assert entries[..0] == [];
          assert Syncable(SyncFold(metadata, entries[..0]).metadata, entries[0]);
        }
      }
    }
  }

  /**
   * Entry `i` was synced under key `k` with record `info`: it was syncable in the
   * metadata the loop had built from the entries before it.
   */
  predicate SyncedFrom(metadata: Metadata, entries: seq<DirEntry>, k: string, info: InstalledModInfo) {
    exists i :: 0 <= i < |entries| && Syncable(SyncFold(metadata, entries[..i]).metadata, entries[i])
                && entries[i].identified.value.projectId == k && info == EntryInfo(entries[i])
  }

  /** A sync recorded by the fold of the later entries is one of the whole fold. */
  lemma SyncedFromLater(metadata: Metadata, entries: seq<DirEntry>, k: string, info: InstalledModInfo)
    requires |entries| > 0
    requires SyncedFrom(SyncStep(metadata, entries[0]).0, entries[1..], k, info)
    ensures SyncedFrom(metadata, entries, k, info)
  {
    var m1 := SyncStep(metadata, entries[0]).0;
    var i :| 0 <= i < |entries[1..]| && Syncable(SyncFold(m1, entries[1..][..i]).metadata, entries[1..][i])
             && entries[1..][i].identified.value.projectId == k && info == EntryInfo(entries[1..][i]);
    var prefix := entries[..i + 1];
    assert prefix[0] == entries[0] && prefix[1..] == entries[1..][..i];
    assert SyncFold(metadata, prefix).metadata == SyncFold(m1, entries[1..][..i]).metadata;
    assert entries[i + 1] == entries[1..][i];
  }

  /** Later entries that name another project leave an entry as it is. */
  lemma {:induction false} SyncFoldKeepsKey(metadata: Metadata, entries: seq<DirEntry>, k: string)
    requires k in metadata
    requires forall j :: 0 <= j < |entries| && entries[j].identified.Some? ==> entries[j].identified.value.projectId != k
    ensures k in SyncFold(metadata, entries).metadata && SyncFold(metadata, entries).metadata[k] == metadata[k]
    decreases |entries|
  {
    if |entries| > 0 {
      var step := SyncStep(metadata, entries[0]);
      assert forall j :: 0 <= j < |entries[1..]| ==> entries[1..][j] == entries[j + 1];
      SyncFoldKeepsKey(step.0, entries[1..], k);
    }
  }

  /** Folding a concatenation is folding the second part over the first part's result. */
  lemma {:induction false} SyncFoldAppend(metadata: Metadata, a: seq<DirEntry>, b: seq<DirEntry>)
    ensures SyncFold(metadata, a + b).metadata == SyncFold(SyncFold(metadata, a).metadata, b).metadata
    decreases |a|
  {
    if |a| == 0 {
      assert a + b == b;
    } else {
      assert (a + b)[0] == a[0] && (a + b)[1..] == a[1..] + b;
      SyncFoldAppend(SyncStep(metadata, a[0]).0, a[1..], b);
    }
  }

  /**
   * "Adds them to metadata for update tracking": a jar that Modrinth identified and that
   * is untracked when the loop reaches it ends up recorded under its project id, with its
   * version id, file name and title, unless a later entry identifies the same project.
   */
  lemma SyncRecordsEntry(metadata: Metadata, entries: seq<DirEntry>, i: nat)
    requires i < |entries| && Syncable(SyncFold(metadata, entries[..i]).metadata, entries[i])
    requires forall j :: i < j < |entries| && entries[j].identified.Some?
               ==> entries[j].identified.value.projectId != entries[i].identified.value.projectId
    ensures entries[i].identified.value.projectId in SyncFold(metadata, entries).metadata
    ensures SyncFold(metadata, entries).metadata[entries[i].identified.value.projectId] == EntryInfo(entries[i])
  {
    var e := entries[i];
    var k := e.identified.value.projectId;
    var before := SyncFold(metadata, entries[..i]).metadata;
    var after := entries[i + 1..];
    assert entries == entries[..i] + ([e] + after);
    SyncFoldAppend(metadata, entries[..i], [e] + after);
    assert ([e] + after)[0] == e && ([e] + after)[1..] == after;
    var m1 := SyncStep(before, e).0;
    assert SyncFold(before, [e] + after).metadata == SyncFold(m1, after).metadata;
    assert forall j :: 0 <= j < |after| ==> after[j] == entries[i + 1 + j];
    SyncFoldKeepsKey(m1, after, k);
  }

  /** A jar whose name is already tracked is skipped, so a second sync of the same entries inserts nothing new for it. */
  lemma TrackedJarSkipped(metadata: Metadata, e: DirEntry, k: string)
    requires k in metadata && metadata[k].filename == e.name
    ensures SyncStep(metadata, e) == (metadata, false)
  {
  }

  // ---------------------------------------------------------------- the commands

  /**
   * The metadata file and the mod directory of one branch and Minecraft version.
   * `stored` is None when the metadata file is missing or does not parse; loading then
   * yields the empty map.
   */
  class ModDirectory {
    var stored: Option<Metadata>
    var files: set<string>
    var dirExists: bool

    /** The metadata file lives inside the mod directory, so there is none without it. */
    ghost predicate Valid()
      reads this
    {
      !dirExists ==> stored.None?
    }

    constructor (stored: Option<Metadata>, files: set<string>, dirExists: bool)
      requires !dirExists ==> stored.None?
      ensures Valid()
      ensures this.stored == stored && this.files == files && this.dirExists == dirExists
    {
      this.stored := stored;
      this.files := files;
      this.dirExists := dirExists;
    }

    /** `load_metadata`. */
    function Load(): (m: Metadata)
      reads this
      ensures stored.Some? ==> m == stored.value
      ensures stored.None? ==> m == map[]
    {
      if stored.Some? then stored.value else map[]
    }

    /**
     * `modrinth_install`: resolve the version and file, create the directory if needed,
     * download, then insert (or overwrite) exactly the entry keyed by the project id and
     * save. Any failure leaves the metadata and the files as they were.
     */
    method Install(projectId: string, title: string, lookup: Result<Option<ModrinthVersion>, string>,
                   createDir: Result<(), string>, download: Result<(), string>)
      returns (r: Result<string, string>)
      requires Valid()
      modifies this
      ensures Valid()
      ensures var res := Resolve(lookup);
        res.Err? ==> r == Err(res.error) && stored == old(stored) && files == old(files) && dirExists == old(dirExists)
      ensures var res := Resolve(lookup);
        res.Ok? && !old(dirExists) && createDir.Err? ==>
          r == Err("Failed to create directory: " + createDir.error)
          && stored == old(stored) && files == old(files) && dirExists == old(dirExists)
      ensures var res := Resolve(lookup);
        res.Ok? && (old(dirExists) || createDir.Ok?) ==> (
          dirExists
          && (download.Err? ==> r == Err("Download failed: " + download.error)
                                && stored == old(stored) && files == old(files))
          && (download.Ok? ==>
                r == Ok(res.value.1.filename)
                && files == old(files) + {res.value.1.filename}
                && stored == Some(old(Load())[projectId := InstalledModInfo(projectId, res.value.0.id,
                                                                            res.value.1.filename, title)])))
    {
      var res := Resolve(lookup);
      if res.Err? {
        return Err(res.error);
      }
      var version := res.value.0;
      var file := res.value.1;
      if !dirExists {
        if createDir.Err? {
          return Err("Failed to create directory: " + createDir.error);
        }
        dirExists := true;
      }
      if download.Err? {
        return Err("Download failed: " + download.error);
      }
      files := files + {file.filename};
      var metadata := Load();
      metadata := metadata[projectId := InstalledModInfo(projectId, version.id, file.filename, title)];
      stored := Some(metadata);
      return Ok(file.filename);
    }

    /**
     * `modrinth_update_mod`: the project must be tracked. The new file is downloaded
     * first; the old file is removed only afterwards, only if its name differs from the
     * new one, and a failed removal is ignored. The entry keeps its title and gets the
     * new version id and file name; every other entry is unchanged.
     */
    method UpdateMod(projectId: string, lookup: Result<Option<ModrinthVersion>, string>,
                     download: Result<(), string>, removeSucceeds: bool)
      returns (r: Result<string, string>)
      requires Valid()
      modifies this
      ensures Valid()
      ensures dirExists == old(dirExists)
      ensures projectId !in old(Load()) ==>
        r == Err("Mod not found in metadata") && stored == old(stored) && files == old(files)
      ensures projectId in old(Load()) && Resolve(lookup).Err? ==>
        r == Err(Resolve(lookup).error) && stored == old(stored) && files == old(files)
      ensures projectId in old(Load()) && Resolve(lookup).Ok? && download.Err? ==>
        r == Err("Download failed: " + download.error) && stored == old(stored) && files == old(files)
      ensures projectId in old(Load()) && Resolve(lookup).Ok? && download.Ok? ==>
        var oldInfo := old(Load())[projectId];
        var version := Resolve(lookup).value.0;
        var file := Resolve(lookup).value.1;
        r == Ok(file.filename)
        && stored == Some(old(Load())[projectId := InstalledModInfo(projectId, version.id, file.filename, oldInfo.title)])
        && files == (if oldInfo.filename != file.filename && removeSucceeds
                     then (old(files) + {file.filename}) - {oldInfo.filename}
                     else old(files) + {file.filename})
    {
      var metadata := Load();
      if projectId !in metadata {
        return Err("Mod not found in metadata");
      }
      var oldInfo := metadata[projectId];
      var res := Resolve(lookup);
      if res.Err? {
        return Err(res.error);
      }
      var version := res.value.0;
      var file := res.value.1;
      if download.Err? {
        return Err("Download failed: " + download.error);
      }
      files := files + {file.filename};
      if oldInfo.filename != file.filename {
        if oldInfo.filename in files && removeSucceeds {
          files := files - {oldInfo.filename};
        }
      }
      metadata := metadata[projectId := InstalledModInfo(projectId, version.id, file.filename, oldInfo.title)];
      stored := Some(metadata);
      return Ok(file.filename);
    }

    /**
     * `modrinth_sync_existing`: without a mod directory nothing happens and 0 is returned.
     * Otherwise the entries are folded into the metadata in directory order; a failure to
     * list the directory, or to read the next entry, is returned without saving. The
     * metadata is saved only when at least one entry was inserted.
     */
    method SyncExisting(listing: Result<(), string>, entries: seq<DirEntry>, entryError: Option<string>)
      returns (r: Result<nat, string>)
      requires Valid()
      modifies this
      ensures Valid()
      ensures files == old(files) && dirExists == old(dirExists)
      ensures !old(dirExists) ==> r == Ok(0) && stored == old(stored)
      ensures old(dirExists) && listing.Err? ==>
        r == Err("Failed to read mods directory: " + listing.error) && stored == old(stored)
      ensures old(dirExists) && listing.Ok? && entryError.Some? ==>
        r == Err("Failed to read entry: " + entryError.value) && stored == old(stored)
      ensures old(dirExists) && listing.Ok? && entryError.None? ==>
        var result := SyncFold(old(Load()), entries);
        r == Ok(result.synced)
        && stored == (if result.synced > 0 then Some(result.metadata) else old(stored))
    {
      if !dirExists {
        return Ok(0);
      }
      var metadata := Load();
      ghost var initial := metadata;
      var synced := 0;
      if listing.Err? {
        return Err("Failed to read mods directory: " + listing.error);
      }
      for i := 0 to |entries|
        invariant SyncFold(initial, entries)
               == SyncState(SyncFold(metadata, entries[i..]).metadata, SyncFold(metadata, entries[i..]).synced + synced)
      {
        assert entries[i..][1..] == entries[i + 1..];
        var e := entries[i];
        if !IsJarName(e.name) {
          continue;
        }
        if Tracked(metadata, e.name) {
          continue;
        }
        if e.identified.None? {
          continue;
        }
        var id := e.identified.value;
        metadata := metadata[id.projectId := InstalledModInfo(id.projectId, id.versionId, e.name, id.title)];
        synced := synced + 1;
      }
      if entryError.Some? {
        return Err("Failed to read entry: " + entryError.value);
      }
      assert entries[|entries|..] == [];
      if synced > 0 {
        stored := Some(metadata);
      }
      return Ok(synced);
    }
  }
}
