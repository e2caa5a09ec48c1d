/**
 * The launcher's persisted options (src-tauri/src/app/options.rs): the current record
 * layout, its defaults, the conversion from the legacy layout, and the order in which
 * `load` tries the two layouts. Reading the file and JSON parsing are parameters.
 */
module Options {
  import opened Wrappers
  import opened Distribution

  /** The account records are carried over unchanged; their contents are not modelled. */
  datatype MinecraftAccount = MinecraftAccount(data: string)
  datatype ClientAccount = ClientAccount(data: string)

  datatype BranchOptions = BranchOptions(modStates: map<string, bool>, customModStates: map<string, bool>)

  datatype StartOptions = StartOptions(
    minecraftAccount: Option<MinecraftAccount>,
    customDataPath: string,
    javaDistribution: DistributionSelection,
    jvmArgs: Option<seq<string>>,
    memory: nat)

  datatype VersionOptions = VersionOptions(
    branchName: Option<string>,
    buildId: i32,
    options: map<string, BranchOptions>)

  datatype LauncherOptions = LauncherOptions(
    showNightlyBuilds: bool,
    concurrentDownloads: u32,
    keepLauncherOpen: bool)

  datatype PremiumOptions = PremiumOptions(account: Option<ClientAccount>, skipAdvertisement: bool)

  datatype Options = Options(
    startOptions: StartOptions,
    versionOptions: VersionOptions,
    launcherOptions: LauncherOptions,
    premiumOptions: PremiumOptions)

  datatype LegacyOptions = LegacyOptions(
    keepLauncherOpen: bool,
    customDataPath: string,
    showNightlyBuilds: bool,
    memoryPercentage: i32,
    customJavaPath: string,
    selectedBranch: Option<string>,
    selectedBuild: Option<i32>,
    clientAccount: Option<ClientAccount>,
    skipAdvertisement: bool,
    currentAccount: Option<MinecraftAccount>,
    branchOptions: map<string, BranchOptions>,
    concurrentDownloads: i32)

  /** `default_memory`: 4 GiB in MiB, the memory the start options default to. */
  function DefaultMemory(): (m: nat)
    ensures m == DefaultStartOptions().memory && m == 4 * 1024
  {
    4096
  }

  function DefaultStartOptions(): (s: StartOptions)
    ensures s.minecraftAccount.None? && s.customDataPath == "" && s.jvmArgs.None?
    ensures s.javaDistribution == DefaultSelection() && s.memory == 4096
  {
    StartOptions(None, "", DefaultSelection(), None, 4096)
  }

  /** No branch chosen, and build -1, which means "the newest build". */
  function DefaultVersionOptions(): (v: VersionOptions)
    ensures v.branchName.None? && v.buildId == -1 && v.options == map[]
  {
    VersionOptions(None, -1, map[])
  }

  function DefaultLauncherOptions(): (l: LauncherOptions)
    ensures !l.showNightlyBuilds && !l.keepLauncherOpen && l.concurrentDownloads == 10
  {
    LauncherOptions(false, 10, false)
  }

  function DefaultPremiumOptions(): (p: PremiumOptions)
    ensures p.account.None? && !p.skipAdvertisement
  {
    PremiumOptions(None, false)
  }

  function DefaultOptions(): (o: Options)
    ensures o.startOptions == DefaultStartOptions() && o.versionOptions == DefaultVersionOptions()
    ensures o.launcherOptions == DefaultLauncherOptions() && o.premiumOptions == DefaultPremiumOptions()
  {
    Options(DefaultStartOptions(), DefaultVersionOptions(), DefaultLauncherOptions(), DefaultPremiumOptions())
  }

  /** Rust's `x as u32` on an `i32`: the same bits, so a negative value wraps modulo 2^32. */
  function CastToU32(x: i32): (y: u32)
    ensures x >= 0 ==> y == x
    ensures x < 0 ==> y >= 0x8000_0000
    ensures (y - x) % 0x1_0000_0000 == 0
  {
    if x < 0 then x + 0x1_0000_0000 else x
  }

  /** Rust's `y as i32` on a `u32`. */
  function CastToI32(y: u32): i32 {
    if y >= 0x8000_0000 then y - 0x1_0000_0000 else y
  }

  /** The cast loses nothing: the original value can be recovered from the converted one. */
  lemma CastRoundTrip(x: i32)
    ensures CastToI32(CastToU32(x)) == x
    ensures CastToU32(-1) == 0xFFFF_FFFF
  {
  }

  /**
   * `from_legacy`: the accounts, the data path, the branch options and the launcher and
   * premium flags are copied; memory, JVM arguments, Java distribution, branch and build
   * take fixed values, so the legacy memory percentage, Java path and selected branch and
   * build are dropped.
   */
  function FromLegacy(legacy: LegacyOptions): Options {
    Options(
      StartOptions(legacy.currentAccount, legacy.customDataPath, DefaultSelection(), None, 4096),
      VersionOptions(None, -1, legacy.branchOptions),
      LauncherOptions(legacy.showNightlyBuilds, CastToU32(legacy.concurrentDownloads), legacy.keepLauncherOpen),
      PremiumOptions(legacy.clientAccount, legacy.skipAdvertisement))
  }

  /**
   * A converted record starts from the defaults wherever the legacy layout has no
   * counterpart, and from the legacy values elsewhere.
   */
  lemma FromLegacyFields(legacy: LegacyOptions)
    ensures var o := FromLegacy(legacy);
      o.startOptions == DefaultStartOptions().(minecraftAccount := legacy.currentAccount,
                                               customDataPath := legacy.customDataPath)
      && o.versionOptions == DefaultVersionOptions().(options := legacy.branchOptions)
      && o.launcherOptions.keepLauncherOpen == legacy.keepLauncherOpen
      && o.launcherOptions.showNightlyBuilds == legacy.showNightlyBuilds
      && CastToI32(o.launcherOptions.concurrentDownloads) == legacy.concurrentDownloads
      && o.premiumOptions == PremiumOptions(legacy.clientAccount, legacy.skipAdvertisement)
  {
    CastRoundTrip(legacy.concurrentDownloads);
  }

  /** The legacy fields the conversion drops do not influence the result. */
  lemma FromLegacyIgnoresDroppedFields(legacy: LegacyOptions, percentage: i32, javaPath: string,
                                       branch: Option<string>, build: Option<i32>)
    ensures FromLegacy(legacy.(memoryPercentage := percentage, customJavaPath := javaPath,
                               selectedBranch := branch, selectedBuild := build))
         == FromLegacy(legacy)
  {
  }

  /** Two legacy records that convert to the same options agree on every copied field. */
  lemma FromLegacyKeepsCopiedFields(l1: LegacyOptions, l2: LegacyOptions)
    requires FromLegacy(l1) == FromLegacy(l2)
    ensures l1.concurrentDownloads == l2.concurrentDownloads
    ensures l1.(memoryPercentage := 0, customJavaPath := "", selectedBranch := None, selectedBuild := None)
         == l2.(memoryPercentage := 0, customJavaPath := "", selectedBranch := None, selectedBuild := None)
  {
    CastRoundTrip(l1.concurrentDownloads);
    CastRoundTrip(l2.concurrentDownloads);
  }

  /**
   * `Options::load`: the file is read (a read error propagates), then parsed in the
   * current layout; failing that in the legacy layout; failing both, the current
   * layout's parse error is returned.
   */
  function Load<C>(content: Result<C, LauncherError>,
                   parseCurrent: C -> Result<Options, LauncherError>,
                   parseLegacy: C -> Result<LegacyOptions, LauncherError>)
    : (r: Result<Options, LauncherError>)
    ensures content.Err? ==> r == Err(content.error)
    ensures content.Ok? && parseCurrent(content.value).Ok? ==> r == parseCurrent(content.value)
    ensures content.Ok? && parseCurrent(content.value).Err? && parseLegacy(content.value).Ok?
            ==> r == Ok(FromLegacy(parseLegacy(content.value).value))
    ensures content.Ok? && parseCurrent(content.value).Err? && parseLegacy(content.value).Err?
            ==> r == Err(parseCurrent(content.value).error)
  {
    if content.Err? then Err(content.error)
    else
      var current := parseCurrent(content.value);
      if current.Ok? then current
      else
        var legacy := parseLegacy(content.value);
        if legacy.Ok? then Ok(FromLegacy(legacy.value))
        // the third parse repeats the first on the same bytes, so it fails the same way
        else Err(current.error)
  }

  /**
   * `load` never reports a legacy parse error, and it fails only when both layouts
   * fail to parse (or the file cannot be read).
   */
  lemma LoadFailsOnlyIfBothFail<C>(content: Result<C, LauncherError>,
                                   parseCurrent: C -> Result<Options, LauncherError>,
                                   parseLegacy: C -> Result<LegacyOptions, LauncherError>)
    ensures Load(content, parseCurrent, parseLegacy).Err? <==>
      content.Err? || (parseCurrent(content.value).Err? && parseLegacy(content.value).Err?)
    ensures content.Ok? && Load(content, parseCurrent, parseLegacy).Err? ==>
      Load(content, parseCurrent, parseLegacy).error == parseCurrent(content.value).error
  {
  }
}
