# LiquidLauncher core, modelled in Dafny

LiquidLauncher is a Minecraft launcher with a Rust/Tauri backend, an older Rust tree and a
Svelte front end. This project models the self-contained logic under its network,
filesystem and GUI plumbing, and proves properties of that logic:

- the `${name}` template scanner and the order of the launch command line;
- the inheritance of Minecraft version profiles (option merging, library merging by
  identifier, argument vectors, library download locations);
- the rule interpreter, where the last applicable allow/disallow rule wins;
- Maven coordinates turned into repository paths;
- the integer encodings of download progress;
- operating-system, architecture and Java-runtime naming, and JRE download URLs;
- mod storage paths and the launcher-API endpoint strings;
- the persisted options: defaults, migration from the legacy layout, and the load
  fallback order;
- the hosts-file check for redirected Mojang and Minecraft domains;
- the Modrinth mod bookkeeping (file choice, update detection, and the metadata changes
  made by install, update and sync);
- the front end's store of installed mods.

One module per source file:

- `wrappers.dfy`: `Option`, `Result` and the launcher's error type.
- `strings.dfy`: Rust's `split`, `replace`, `starts_with` and `contains` on `seq<char>`,
  plus decimal formatting.
- One module for each core source file. The legacy copies in the older tree share the
  modules of their newer counterparts wherever the code is the same, and the table below
  cites the newer file for them:
  - `src/utils.rs:4-11` and `src/utils/mod.rs:9-17` hold the same artifact-path code as
    `src-tauri/src/utils/maven.rs` (`Maven`);
  - `src/minecraft/progress.rs:14-58` holds the same progress arithmetic and step order as
    `src-tauri/src/minecraft/progress.rs` (`Progress`);
  - `src/os.rs:5-30` selects the OS and its path separator as `src-tauri/src/utils/os.rs`
    does (`Os`); its own `Display` is `Os.LegacyDisplay`.

State that the source updates in place is modelled as classes:

- `Version.VersionProfile` (`merge(&mut self)`);
- `ModrinthCommands.ModDirectory` (the metadata file and the mods directory);
- `ModsStore.InstalledMods` (the Svelte store).

Loops of the source are methods with loop invariants, each proved equal to a recursive
specification function. The properties are proved of those functions:

- `Launcher.ProcessTemplates` and `Launcher.ReadTemplateName`;
- `RuleInterpreter.CheckCondition`;
- `Version.CheckRulesAndAdd`;
- `Version.MergeLibraries` and `Version.CollectValues`;
- `ModrinthCommands.ModDirectory.SyncExisting`;
- `ModrinthCommands.CheckUpdates`;
- `Launcher.MapTemplates`.

## Model

| member | source | states |
|---|---|---|
| Launcher.ProcessTemplates | src-tauri/src/minecraft/launcher/mod.rs:269-315 | for every input and retriever (no precondition), the scanner's result is the template expansion: literal text copied, each well-formed `${name}` replaced by the retriever's text, the first error returned |
| Launcher.ReadTemplateName | src-tauri/src/minecraft/launcher/mod.rs:286-305 | the inner loop fails exactly when the name after `${` is unterminated or holds an invalid character, with that error; otherwise it returns the name and the position just after its `}` |
| Launcher.ScanName | src-tauri/src/minecraft/launcher/mod.rs:286-305 | a name read successfully consists only of `[a-zA-Z0-9_]` and the scanned text is exactly that name, `}`, and the rest |
| Launcher.ScanNameOf | src-tauri/src/minecraft/launcher/mod.rs:293-295 | a valid name followed by `}` is read as exactly that name, and scanning resumes right after the `}` |
| Launcher.NoTemplateUnchanged | src-tauri/src/minecraft/launcher/mod.rs:277-311 | an input without `${` is returned unchanged, whatever the retriever |
| Launcher.ExpandLiteralPrefix | src-tauri/src/minecraft/launcher/mod.rs:277-311 | text without `${` (and not ending in a `$` that the rest would extend to `${`) is copied literally in front of the expansion of what follows, so a lone `$` is literal |
| Launcher.SubstituteOne | src-tauri/src/minecraft/launcher/mod.rs:278-311 | `pre${name}post` expands to `pre`, then exactly the retriever's text, then the expansion of `post`; the substituted text is not rescanned; a retriever error is the result |
| Launcher.UnterminatedTemplate | src-tauri/src/minecraft/launcher/mod.rs:286-291 | input ending after `${` and a name, with no `}`, fails with InvalidVersionProfile "invalid template, missing '}'" |
| Launcher.ScanNameUnterminated | src-tauri/src/minecraft/launcher/mod.rs:286-291 | a name that runs to the end of the input is the missing-brace error |
| Launcher.InvalidTemplateChar | src-tauri/src/minecraft/launcher/mod.rs:296-302 | a character outside `[a-zA-Z0-9_]` and other than `}` inside the braces fails with InvalidVersionProfile naming that character |
| Launcher.ScanNameInvalid | src-tauri/src/minecraft/launcher/mod.rs:296-302 | the scan of name characters stops at the first invalid one with the invalid-character error |
| Launcher.ReinsertIsIdentity | src-tauri/src/minecraft/launcher/mod.rs:278-311 | round trip: a retriever that writes `${name}` back makes every successful expansion the identity |
| Launcher.TemplateCapacityUnderflow | src-tauri/src/minecraft/launcher/mod.rs:282 | as written, the input `${` panics on `input.len() - 3`, where the missing-brace error is due; it is the only input that panics |
| Launcher.LaunchRetriever | src-tauri/src/minecraft/launcher/mod.rs:189-212 | the retriever fails, with UnknownTemplateParameter of the name, exactly for names outside the sixteen parameters; `launcher_name` is "LiquidLauncher" and `user_properties` is "{}" |
| Launcher.UnknownParameterRejected | src-tauri/src/minecraft/launcher/mod.rs:189-212 | in launch, a placeholder with an unknown name, including the empty `${}`, makes the whole expansion fail with UnknownTemplateParameter |
| Launcher.MapTemplates | src-tauri/src/minecraft/launcher/mod.rs:185-217 | the substitution loop returns the argument-by-argument expansion, stopping at the first error |
| Launcher.ExpandAllPointwise | src-tauri/src/minecraft/launcher/mod.rs:185-217 | the mapped list succeeds iff every argument expands; it then has the same length and its i-th entry is the expansion of the i-th argument |
| Launcher.AssembleCommand | src-tauri/src/minecraft/launcher/mod.rs:159-183 | the pushes of `launch` build exactly the command line `CommandArguments` describes, or its first error |
| Launcher.CommandOrder | src-tauri/src/minecraft/launcher/mod.rs:159-183 | the command line is the profile's JVM arguments, the user's JVM arguments, the main class, then the game arguments; it starts with the seven memory and G1 flags; a missing main class fails with InvalidVersionProfile "Main class unspecified" |
| Launcher.LaunchArguments | src-tauri/src/minecraft/launcher/mod.rs:159-217 | launch assembles the command with no features enabled and expands every argument with the launch retriever |
| Version.GetIdentifier | src-tauri/src/minecraft/version.rs:535-551 | a name that does not have exactly three or four colon-separated parts is its own identifier |
| Version.IdentifierOfCoordinate | src-tauri/src/minecraft/version.rs:535-551 | `group:artifact:version` is identified as `group:artifact` (the version is dropped) |
| Version.IdentifierOfClassifiedCoordinate | src-tauri/src/minecraft/version.rs:535-551 | `group:artifact:version:classifier` is identified as `group:artifact:classifier` |
| Version.GetLibraryDownload | src-tauri/src/minecraft/version.rs:553-570 | a declared artifact is used as is, with its checksum and size; otherwise the Maven path of the name under the library's url (Mojang's repository by default), with no checksum or size, and the Maven error if the name is malformed |
| Version.DefaultLibraryDownload | src-tauri/src/minecraft/version.rs:553-570 | a library given only as `group:artifact:version` gets the path `group-with-slashes/artifact/version/artifact-version.jar`, the URL `https://libraries.minecraft.net/` followed by that path, and no size or hash |
| Version.MergeOptions | src-tauri/src/minecraft/version.rs:196-200 | a child value that is present is kept; an absent one takes the parent's |
| Version.MergeLarger | src-tauri/src/minecraft/version.rs:202-213 | the result is absent iff both are; otherwise it is one of the two and at least each present value, i.e. the maximum |
| Version.MergeOptionsAssociative | src-tauri/src/minecraft/version.rs:196-200 | merging along an inheritance chain does not depend on grouping, and merging a value with itself changes nothing |
| Version.MergeLargerIsMaximum | src-tauri/src/minecraft/version.rs:202-213 | the larger-value merge is commutative, associative and idempotent |
| Version.MergeLibrary | src-tauri/src/minecraft/version.rs:153-191 | for a shared identifier: the child's name, the child's rules followed by the parent's, and the child's url kept when it has one; downloads missing on one side are taken from the other; with both present, a parent artifact replaces the child's (else the child's is kept) and the classifiers are extended with the parent's, the parent winning on a shared key; natives are merged the same way |
| Version.ChildMapKeys | src-tauri/src/minecraft/version.rs:148-151 | the child's libraries collected by identifier: the keys are exactly their identifiers and every entry sits under its own identifier |
| Version.ChildMapEntry | src-tauri/src/minecraft/version.rs:148-151 | with distinct identifiers, each child library is the entry of its identifier |
| Version.MergeStepKeyed | src-tauri/src/minecraft/version.rs:153-191 | one parent library adds exactly its identifier to the key set and keeps every entry under its identifier |
| Version.MergeParentsKeys | src-tauri/src/minecraft/version.rs:153-191 | the merged keys are the child's keys together with the parents' identifiers |
| Version.MergeParentsUntouched | src-tauri/src/minecraft/version.rs:153-191 | an identifier that no parent library has keeps its child entry, or stays absent |
| Version.MergeParentsSingle | src-tauri/src/minecraft/version.rs:153-191 | an identifier held by one parent library is that library merged into the child's entry, or the parent library itself when the child has none |
| Version.MergedLibrariesSpec | src-tauri/src/minecraft/version.rs:147-194 | for child and parent lists that each have no repeated identifier (the general fold, repeats included, is covered by MergeParentsKeys, MergeParentsUntouched and MergeParentsSingle): the merged libraries have distinct identifiers equal to the union of child and parent identifiers; each shared one is the merge of the two, each other one is the library that has it |
| Version.MergeLibraries | src-tauri/src/minecraft/version.rs:147-194 | the new library vector holds exactly the values of the identifier-keyed merge, each once, in unspecified order |
| Version.CollectValues | src-tauri/src/minecraft/version.rs:193 | the map's values are listed once per key, every key included |
| Version.CollectedRepresents | src-tauri/src/minecraft/version.rs:193 | such a listing represents the map: same identifiers, each library under its own |
| Version.CheckRulesAndAdd | src-tauri/src/minecraft/version.rs:288-307 | the existing vector stays as a prefix, followed by the rule-filtered argument values in order; a rule error is the result |
| Version.RuleArgsAppend | src-tauri/src/minecraft/version.rs:288-307 | arguments are processed independently and in order: the values for a concatenation are the values for each part, concatenated |
| Version.RuleArgsSingle | src-tauri/src/minecraft/version.rs:288-307 | an argument without rules or with allowing rules adds its SINGLE string or all its VEC strings in order; disallowing rules add nothing; a rule error propagates |
| Version.AddJvmArgsToVec | src-tauri/src/minecraft/version.rs:226-256 | appends the JVM arguments of the declaration to the existing vector, or returns the rule error |
| Version.JvmArgsShape | src-tauri/src/minecraft/version.rs:226-256 | the JVM arguments start with `-Xmx{memory}M` and six fixed G1 flags; V14 then adds the natives path, `-cp` and `${classpath}` (10 in all); V21 succeeds iff its JVM rules evaluate |
| Version.AddGameArgsToVec | src-tauri/src/minecraft/version.rs:257-286 | appends the game arguments of the declaration to the existing vector, or returns the error |
| Version.GameArgsV14 | src-tauri/src/minecraft/version.rs:257-286 | V14 without `minecraftArguments` fails with InvalidVersionProfile "no game arguments specified"; otherwise the pieces contain no space and rejoined with spaces give the string back |
| Version.MergeArguments | src-tauri/src/minecraft/version.rs:120-141 | differing declaration variants fail with InvalidVersionProfile; V21 puts the child's game and JVM arguments before the parent's; V14 keeps the child's string or takes the parent's |
| Version.MergedGameArgsOrder | src-tauri/src/minecraft/version.rs:131-134 | after a V21 merge the child's game arguments are evaluated before the parent's, each in original order |
| Version.VersionProfile.constructor | src-tauri/src/minecraft/version.rs:80-101 | a profile with the given identity, libraries and arguments and every optional field absent |
| Version.VersionProfile.Merge | src-tauri/src/minecraft/version.rs:104-145 | every optional field takes the child's value or the parent's (the larger one for the launcher version and compliance level), the libraries are the keyed merge, and the arguments the merged declaration; incompatible variants leave the arguments unchanged and return the error |
| RuleInterpreter.RuleApplies | src-tauri/src/minecraft/rule_interpreter.rs:38-62 | without a version-test error, a rule applies exactly when it has no OS part or its name, architecture and version regex (each when present) match, and its feature map (when present) matches; an absent part imposes no restriction; only a version test error is an error |
| RuleInterpreter.Condition | src-tauri/src/minecraft/rule_interpreter.rs:28-73 | an empty list gives true without consulting the OS; a non-empty list on an unknown OS is the error "Invalid OS" |
| RuleInterpreter.CheckCondition | src-tauri/src/minecraft/rule_interpreter.rs:28-73 | the loop over rules computes the rule condition |
| RuleInterpreter.ScanSnoc | src-tauri/src/minecraft/rule_interpreter.rs:38-70 | one more rule changes the decision only if it applies, and then to its own action |
| RuleInterpreter.ScanIsLastDecision | src-tauri/src/minecraft/rule_interpreter.rs:38-72 | without version-test errors the loop yields the last applicable rule's action |
| RuleInterpreter.ScanErrorIfAnyRegexError | src-tauri/src/minecraft/rule_interpreter.rs:50-54 | the loop fails iff some rule's version test fails |
| RuleInterpreter.LastDecisionIsLastApplicable | src-tauri/src/minecraft/rule_interpreter.rs:38-72 | the decision is true iff an Allow rule applies with no applicable rule after it, or no rule applies and the initial value was true |
| RuleInterpreter.ConditionIsLastApplicableRule | src-tauri/src/minecraft/rule_interpreter.rs:28-73 | for a non-empty list on a known OS: an error iff a version test fails; otherwise true iff the last applicable rule allows, false if none applies |
| RuleInterpreter.MismatchedPlatformNeverApplies | src-tauri/src/minecraft/rule_interpreter.rs:42-49 | a rule naming another OS or another architecture never applies |
| Maven.ArtifactPath | src-tauri/src/utils/maven.rs:23-40 | fails with InvalidVersionProfile "Invalid artifact name: ..." iff the id does not split on ':' into exactly three parts |
| Maven.ArtifactPathOfCoordinate | src-tauri/src/utils/maven.rs:34-39 | `g:n:v` becomes `g-with-slashes/n/v/n-v.jar`, with name and version copied verbatim |
| Maven.ArtifactPathWellFormed | src-tauri/src/utils/maven.rs:34-39 | every path produced ends in `.jar` and contains no ':', and its group part contains no '.' |
| Progress.GetProgress | src-tauri/src/minecraft/progress.rs:31-33 | a maximum of 0 is treated as 1, and the result is at least `idx * 100` |
| Progress.GetMax | src-tauri/src/minecraft/progress.rs:35-37 | the maximum is `len` whole steps of 100 |
| Progress.StepIdx | src-tauri/src/minecraft/progress.rs:44-52 | every step has a position below `len()` = 5 |
| Progress.StepIdxBijective | src-tauri/src/minecraft/progress.rs:40-52 | step positions are distinct and cover 0..4, with `StepAt` as inverse |
| Progress.SetForStepAsWritten | src-tauri/src/minecraft/progress.rs:69-71 | the update as written has no value (the division panics) exactly when `max` is 0; otherwise it is a progress update at or above the start of the step's band |
| Progress.SetForStep | src-tauri/src/minecraft/progress.rs:69-71 | the corrected update: always a progress update at or above the start of the step's band, equal to the source's value whenever `max` is nonzero, and the start of the band for `(0, 0)` |
| Progress.EmptyStepPanics | src-tauri/src/minecraft/progress.rs:69-71 | the first update of a step over zero items, `set_for_step(step, 0, 0)`, panics as written, while for any nonzero item count the two definitions agree |
| Progress.SetToMax | src-tauri/src/minecraft/progress.rs:72-74 | the progress update at `len() * 1024` |
| Progress.SetMaxUpdate | src-tauri/src/minecraft/progress.rs:75-79 | the maximum update is `len() * 1024` |
| Progress.GetProgressInBand | src-tauri/src/minecraft/progress.rs:31-33 | for `curr <= max` the result lies in `[idx*100, idx*100 + 100]` |
| Progress.GetProgressMonotone | src-tauri/src/minecraft/progress.rs:31-33 | progress grows with the work done in the current step |
| Progress.LastStepReachesMax | src-tauri/src/minecraft/progress.rs:31-37 | the last step fully done gives exactly `get_max(len())` |
| Progress.SetForStepInBand | src-tauri/src/minecraft/progress.rs:66-71 | for `progress <= max`, including an empty step, the value stays within the step's 1024-wide band |
| Progress.SetForStepBelowMax | src-tauri/src/minecraft/progress.rs:66-79 | every in-band step value is at most the bar's maximum, which `set_to_max` reaches exactly |
| Progress.StepsOrdered | src-tauri/src/minecraft/progress.rs:44-71 | an in-band value of an earlier step never exceeds any value of a later step |
| Sys.SelectOs | src-tauri/src/utils/sys.rs:37-45 | UNKNOWN exactly for targets other than windows, macos and linux; OSX exactly for macos |
| Sys.SelectArchitecture | src-tauri/src/utils/sys.rs:47-57 | UNKNOWN exactly for targets other than the four known ones; X64 exactly for x86_64 |
| Sys.PathSeparator | src-tauri/src/utils/sys.rs:88-94 | an error exactly for UNKNOWN; otherwise one character, `;` exactly on WINDOWS |
| Sys.SimpleName | src-tauri/src/utils/sys.rs:96-103 | an error exactly for UNKNOWN |
| Sys.AdoptiumName | src-tauri/src/utils/sys.rs:105-112 | an error exactly for UNKNOWN |
| Sys.GraalName | src-tauri/src/utils/sys.rs:114-121 | an error exactly for UNKNOWN |
| Sys.ArchiveType | src-tauri/src/utils/sys.rs:123-130 | an error exactly for UNKNOWN; `zip` exactly on WINDOWS, `tar.gz` on the others |
| Sys.ArchSimpleName | src-tauri/src/utils/sys.rs:139-147 | the error "Invalid architecture" exactly for UNKNOWN |
| Sys.OsDisplay | src-tauri/src/utils/sys.rs:132-136 | Display writes the simple name |
| Sys.ArchDisplay | src-tauri/src/utils/sys.rs:150-154 | Display writes the architecture's simple name |
| Sys.OsNameRoundTrip | src-tauri/src/utils/sys.rs:61-85 | the displayed name of a known OS deserializes back to that OS |
| Sys.ArchNameRoundTrip | src-tauri/src/utils/sys.rs:61-85 | the displayed name of a known architecture deserializes back to it |
| Sys.SimpleNamesInjective | src-tauri/src/utils/sys.rs:96-147 | no two systems, and no two architectures, share a simple name |
| Sys.NamingsDifferOnlyOnMac | src-tauri/src/utils/sys.rs:96-121 | the Adoptium and Graal names equal the simple name except on OSX, which Adoptium calls `mac` |
| Sys.UnixSystemsAgree | src-tauri/src/utils/sys.rs:88-130 | LINUX and OSX share `:` and `tar.gz`; WINDOWS has `;` and `zip` |
| Os.SelectOs | src-tauri/src/utils/os.rs:13-21 | windows is checked first, then unix, then macos; UNKNOWN only when no flag is set |
| Os.PathSeparator | src-tauri/src/utils/os.rs:32-38 | `;` exactly on WINDOWS, `:` on LINUX and OSX; UNKNOWN panics, so it is excluded |
| Os.SimpleName | src-tauri/src/utils/os.rs:39-46 | one of `windows`, `linux`, `osx`; UNKNOWN panics |
| Os.Display | src-tauri/src/utils/os.rs:49-53 | Display equals the simple name |
| Os.LegacyDisplay | src/os.rs:33-44 | one of `windows`, `linux`, `osx`; UNKNOWN panics |
| Os.AgreesWithSys | src/os.rs:24-44 | the legacy Display, the newer one and the `sys` module agree on names and separators for every known OS |
| Os.MacBuildIsLinux | src-tauri/src/utils/os.rs:13-21 | a macOS build, which is also unix, selects LINUX here, while `sys` selects OSX |
| Distribution.DefaultSelection | src-tauri/src/minecraft/java/distribution.rs:16-20 | the default selection is Automatic with an empty string |
| Distribution.DefaultDistribution | src-tauri/src/minecraft/java/distribution.rs:30-35 | the default distribution supports every Java version (it is Temurin) |
| Distribution.Name | src-tauri/src/minecraft/java/distribution.rs:71-76 | `temurin` exactly for Temurin and `graalvm` exactly for GraalVM |
| Distribution.SupportsVersion | src-tauri/src/minecraft/java/distribution.rs:78-83 | Temurin supports every version; GraalVM exactly 17 and later |
| Distribution.GetUrl | src-tauri/src/minecraft/java/distribution.rs:38-69 | an unknown architecture or OS fails, even for Temurin, with the architecture checked first; an unsupported GraalVM version fails |
| Distribution.GetUrlOnKnownPlatform | src-tauri/src/minecraft/java/distribution.rs:43-66 | the Temurin URL embeds version, Adoptium OS name and architecture; GraalVM above 17 gives the "latest" URL and 17 the fixed 17.0.12 archive |
| Distribution.TemurinUrlDeterminesVersion | src-tauri/src/minecraft/java/distribution.rs:43-49 | two Java versions with the same Temurin URL are equal |
| Distribution.GetUrlSucceedsIffSupported | src-tauri/src/minecraft/java/distribution.rs:38-83 | on a known platform the URL exists iff the distribution supports the version; the default distribution always has one |
| Distribution.DigitsBeforeSlash | src-tauri/src/minecraft/java/distribution.rs:43-49 | a decimal number followed by `/` can be read back from the URL |
| ClientApi.GetPath | src-tauri/src/app/client_api.rs:274-283 | SkipAd gives the artifact name plus `.jar`; Repository gives the Maven path and its error; Local gives the file name unchanged |
| ClientApi.DownloadedModsAreJars | src-tauri/src/app/client_api.rs:274-283 | every mod that is downloaded rather than local is stored as a `.jar` |
| ClientApi.UrlsSeparateApiVersions | src-tauri/src/app/client_api.rs:141-155 | plain requests go under `/api/v1/` and authenticated ones under `/api/v3/`; the two never share a URL and each determines its endpoint |
| ClientApi.BuildsByBranchPieces | src-tauri/src/app/client_api.rs:101-108 | the builds endpoint is `version/builds/{b}/release` for releases and `version/builds/{b}` otherwise |
| ClientApi.ModsPieces | src-tauri/src/app/client_api.rs:116-118 | for names without `/`, the mods endpoint splits into `version`, `mods`, the Minecraft version and the subsystem |
| ClientApi.BuildsByBranchInjective | src-tauri/src/app/client_api.rs:101-108 | for branch names without `/`, the endpoint determines the branch and the release flag |
| ClientApi.ReleaseEndpointCollision | src-tauri/src/app/client_api.rs:101-108 | a branch name containing `/release` makes the two endpoint forms collide |
| ClientApi.BuildEndpointsInjective | src-tauri/src/app/client_api.rs:111-123 | the launch-manifest and changelog endpoints determine their build id |
| ClientApi.ModsEndpointInjective | src-tauri/src/app/client_api.rs:116-118 | for names without `/`, the mods endpoint determines the Minecraft version and subsystem |
| ClientApi.ContentUrls | src-tauri/src/app/client_api.rs:37-63 | the news are fetched from `https://cloud.liquidbounce.net/LiquidLauncher/news.json`; a content URL determines its file and is never an API URL |
| ClientApi.AccountEndpoints | src-tauri/src/app/client_api.rs:125-136 | the user endpoint is no skip-file endpoint, and an authenticated skip-file URL determines its pid |
| LegacyApi.GetPath | src/app/api.rs:79-88 | fails only for a malformed Maven artifact; every path ends in `.jar` |
| LegacyApi.GetPathAgrees | src/app/api.rs:70-88 | the two-variant legacy source stores each mod where the newer client stores it |
| LegacyApi.UrlsAgreeWithClientApi | src/app/api.rs:14-28 | the branch, builds and launch URLs are the newer client's version-1 URLs for the same endpoints |
| LegacyApi.BuildsUrlInjective | src/app/api.rs:18-24 | the per-branch builds URL determines the branch and differs from the all-builds URL |
| Options.DefaultMemory | src-tauri/src/app/options.rs:190-192 | 4096 MiB, equal to the start options' default memory |
| Options.DefaultStartOptions | src-tauri/src/app/options.rs:138-148 | no account, empty data path, automatic Java, no JVM arguments, 4096 MiB |
| Options.DefaultVersionOptions | src-tauri/src/app/options.rs:150-158 | no branch, build -1, no branch options |
| Options.DefaultLauncherOptions | src-tauri/src/app/options.rs:160-168 | flags false and 10 concurrent downloads |
| Options.DefaultPremiumOptions | src-tauri/src/app/options.rs:170-177 | no client account and ads not skipped |
| Options.DefaultOptions | src-tauri/src/app/options.rs:138-188 | the options default to the four default records |
| Options.CastToU32 | src-tauri/src/app/options.rs:122 | the `as u32` cast keeps non-negative values and wraps negative ones modulo 2^32 |
| Options.CastRoundTrip | src-tauri/src/app/options.rs:122 | the cast loses nothing (casting back gives the original), and -1 becomes 4294967295 |
| Options.FromLegacyFields | src-tauri/src/app/options.rs:105-129 | the conversion takes the defaults where the legacy layout has no counterpart and copies accounts, data path, branch options, flags and the wrapped download count |
| Options.FromLegacyIgnoresDroppedFields | src-tauri/src/app/options.rs:105-129 | memory percentage, Java path and the selected branch and build do not influence the result |
| Options.FromLegacyKeepsCopiedFields | src-tauri/src/app/options.rs:105-129 | two legacy records with the same conversion agree on every copied field |
| Options.Load | src-tauri/src/app/options.rs:91-103 | a read error propagates; the current layout is used if it parses, else the converted legacy layout, else the current layout's parse error |
| Options.LoadFailsOnlyIfBothFail | src-tauri/src/app/options.rs:91-103 | loading fails iff the file cannot be read or neither layout parses, and never reports a legacy parse error |
| Hosts.CheckHostsFile | src-tauri/src/utils/hosts.rs:8-46 | a read error propagates; otherwise the check fails iff some line is flagged, with a message listing the flagged lines |
| Hosts.FlaggedLines | src-tauri/src/utils/hosts.rs:12-30 | the kept lines are exactly the flagged lines of the file |
| Hosts.FlaggedLinesAppend | src-tauri/src/utils/hosts.rs:12-30 | filtering distributes over concatenation, so flagged lines keep their file order |
| Hosts.CommentLines | src-tauri/src/utils/hosts.rs:14-16 | a line starting with `#` is never flagged; an indented `#` does not make a comment |
| Hosts.SingleTokenNotFlagged | src-tauri/src/utils/hosts.rs:18-26 | a line of fewer than two tokens is never flagged |
| Hosts.FlaggedByDomain | src-tauri/src/utils/hosts.rs:18-28 | an uncommented address-and-domain line is flagged iff the domain contains `mojang.com` or `minecraft.net`; later tokens are ignored |
| Hosts.SecondToken | src-tauri/src/utils/hosts.rs:18-26 | the second whitespace-separated token of such a line is its domain |
| Hosts.TokensCons | src-tauri/src/utils/hosts.rs:18 | a token followed by whitespace or the end of the line is split off as one token |
| Hosts.TokensSkipWhitespace | src-tauri/src/utils/hosts.rs:18 | leading whitespace produces no token |
| Hosts.Tokens | src-tauri/src/utils/hosts.rs:18 | every token is non-empty and free of whitespace |
| Hosts.TokenLength | src-tauri/src/utils/hosts.rs:18 | a token ends at the first whitespace character |
| Hosts.TokenLengthOf | src-tauri/src/utils/hosts.rs:18 | the token at the front is exactly the run of non-whitespace |
| Hosts.LinesCons | src-tauri/src/utils/hosts.rs:12 | a line ends at the first newline, and `\r\n` counts as one line ending |
| Hosts.LastLine | src-tauri/src/utils/hosts.rs:12 | the last line needs no line ending, and an empty file has no lines |
| Hosts.StripCR | src-tauri/src/utils/hosts.rs:12 | one trailing carriage return is removed |
| ModrinthCommands.FirstPrimary | src-tauri/src/app/gui/commands/modrinth.rs:102-105 | the position of the first primary file, or none when none is primary |
| ModrinthCommands.ChooseFile | src-tauri/src/app/gui/commands/modrinth.rs:102-105 | the first primary file if any, else the first file, else the error "No files available" |
| ModrinthCommands.Resolve | src-tauri/src/app/gui/commands/modrinth.rs:97-105 | a lookup error becomes "Failed to get version: ...", no version is "No compatible version found", otherwise the version and its chosen file |
| ModrinthCommands.CheckOne | src-tauri/src/app/gui/commands/modrinth.rs:154-170 | an update exists iff the lookup gives a version whose id differs from the stored one, and then its version number is reported; failures and no version give false and none |
| ModrinthCommands.CheckUpdates | src-tauri/src/app/gui/commands/modrinth.rs:146-173 | one result per metadata entry, each the check of that entry |
| ModrinthCommands.LastDot | src-tauri/src/app/gui/commands/modrinth.rs:259-261 | the position of the last `.`, if any |
| ModrinthCommands.JarNames | src-tauri/src/app/gui/commands/modrinth.rs:259-261 | a name has extension `jar` iff it is at least five characters long and ends in `.jar` (a bare `.jar` has none) |
| ModrinthCommands.SyncStep | src-tauri/src/app/gui/commands/modrinth.rs:259-293 | an entry is added exactly when it is a `.jar`, not yet tracked, and identified; the added entry is keyed by the project id and records the version id, file name and title, and every other key keeps its entry; otherwise the metadata is unchanged |
| ModrinthCommands.SyncFoldSpec | src-tauri/src/app/gui/commands/modrinth.rs:250-293 | the count is at most the number of entries; no entry is lost; a count of 0 means no change; every new or changed entry is the record (project id, version id, file name, title) of a directory entry that was an identified jar, untracked when the loop reached it |
| ModrinthCommands.SyncRecordsEntry | src-tauri/src/app/gui/commands/modrinth.rs:231-293 | an identified jar, untracked when the loop reaches it, ends up recorded under its project id with its version id, file name and title, unless a later entry identifies the same project |
| ModrinthCommands.SyncFoldKeepsKey | src-tauri/src/app/gui/commands/modrinth.rs:284-289 | entries identifying other projects never alter a key's entry |
| ModrinthCommands.TrackedJarSkipped | src-tauri/src/app/gui/commands/modrinth.rs:269-271 | a file already tracked changes nothing and is not counted |
| ModrinthCommands.ModDirectory.constructor | src-tauri/src/app/gui/commands/modrinth.rs:51-65 | a mod directory state with the given metadata file, files and existence, with no metadata file outside an existing directory |
| ModrinthCommands.ModDirectory.Load | src-tauri/src/app/gui/commands/modrinth.rs:51-58 | the stored metadata, or the empty map when there is none |
| ModrinthCommands.ModDirectory.Install | src-tauri/src/app/gui/commands/modrinth.rs:90-134 | lookup, directory and download errors change nothing saved; success adds the file and inserts or overwrites exactly the entry keyed by the project id |
| ModrinthCommands.ModDirectory.UpdateMod | src-tauri/src/app/gui/commands/modrinth.rs:176-228 | fails with "Mod not found in metadata" for an untracked project; keeps the title and replaces version id and file name; removes the old file only if its name differs and the removal succeeds |
| ModrinthCommands.ModDirectory.SyncExisting | src-tauri/src/app/gui/commands/modrinth.rs:234-302 | without a directory 0; listing and entry errors are returned unsaved; otherwise the count of added entries, saved only when positive |
| ModsStore.WithoutName | src/lib/stores/modsStore.js:37-39 | no surviving entry has the removed name, and nothing is added |
| ModsStore.WithoutNameMembers | src/lib/stores/modsStore.js:37-39 | exactly the entries with another name survive |
| ModsStore.WithoutNameAppend | src/lib/stores/modsStore.js:37-39 | the survivors keep their relative order |
| ModsStore.WithoutAbsentName | src/lib/stores/modsStore.js:37-39 | removing a name that no entry has changes nothing |
| ModsStore.WithoutNameIdempotent | src/lib/stores/modsStore.js:37-39 | removing a name twice is removing it once |
| ModsStore.AddThenRemove | src/lib/stores/modsStore.js:34-39 | removing the name of the mod just added undoes the add, together with its namesakes |
| ModsStore.InstalledMods.constructor | src/lib/stores/modsStore.js:25 | the store starts empty |
| ModsStore.InstalledMods.SetMods | src/lib/stores/modsStore.js:31 | the state becomes exactly the given list |
| ModsStore.InstalledMods.AddMod | src/lib/stores/modsStore.js:34 | the old state followed by the new mod, one longer |
| ModsStore.InstalledMods.RemoveMod | src/lib/stores/modsStore.js:37-39 | the old state without the entries of that name, the others in order |
| ModsStore.InstalledMods.Clear | src/lib/stores/modsStore.js:42 | the empty list from any state |

## Left out

- Network, filesystem, process and GUI work is not modelled. Where a core operation
  depends on it, the outcome is a parameter. These parameters are:
  - the retriever, the rule environment (current OS, architecture and the OS-version
    regex test, as a function to a `Result`) and the parsed JSON of profiles and options;
  - the hosts-file contents;
  - the Modrinth lookup and download results, directory creation, a file removal's success,
    the directory listing and its read errors.
- Launcher.ProcessTemplates: the retriever in the source appends to the output buffer.
  Every retriever of `launch` only appends, so it is modelled as a function returning the
  text to append.
- Launcher.ProcessTemplates: lengths are counted in characters, not UTF-8 bytes. For the
  `input.len() - 3` underflow the two agree, since `${` is the only affected input. The
  `len() * 3 / 2` capacity computation is not modelled: it only sizes a buffer.
- Launcher.LaunchArguments: the classpath, the natives and asset directories and the
  account values are inputs. Computing them needs the filesystem. The runner process and
  its output streaming are not modelled.
- RuleInterpreter: regex matching on the OS version is abstract. The result of the
  version test is a parameter.
- Version.MergeLibraries: the HashMap's iteration order is not modelled. The result is
  specified up to order, by the identifier-keyed map it represents.
- Version.VersionProfile.Merge: the parent is a separate object (`requires parent !=
  this`). In the source it is passed by value, so the two can never alias.
- Progress.SetForStep: it is the corrected definition from the Findings table. The
  source's panic on a zero maximum is modelled by Progress.SetForStepAsWritten.
- Progress: `u64` overflow is not modelled. The arithmetic is on unbounded naturals; the
  values involved are at most a few thousand.
- Os.PathSeparator, Os.SimpleName, Os.Display, Os.LegacyDisplay, Sys.OsDisplay and
  Sys.ArchDisplay: the source panics on UNKNOWN. These members therefore require a known
  OS or architecture.
- Options: serde parsing and file reading are parameters of `Load`. The account records
  carry their contents as an opaque string.
- Options.Load: the source parses the current layout a second time to report its error.
  That parse is of the same bytes and fails the same way, so the model returns the first
  parse's error.
- ModrinthCommands.ModDirectory.SyncExisting: the `synced` counter is a `u32` in the
  source. Its overflow, past four billion directory entries, is not modelled.
- ModrinthCommands.ModDirectory.SyncExisting: the listing of entries is given as a
  parameter. It is not derived from the `files` field.
- ModrinthCommands.ModDirectory: the error messages format the underlying error with
  Debug (`{:?}`). The model takes that Debug rendering as the abstract string parameter
  (`lookup.error`, `createDir.error`, `download.error`, `listing.error`, `entryError`)
  and appends it to the fixed prefix.
- ModrinthCommands.ModDirectory: `save_metadata` discards serialisation and write
  errors, so a failed save goes unnoticed in the source. The model always stores the new
  map; a save that silently fails is not modelled.
- ModrinthCommands: `modrinth_get_installed`, `modrinth_search` and `modrinth_get_version`
  are left out. They only read metadata into an unordered list or forward a network call.
- Version.CheckRulesAndAdd, Version.AddJvmArgsToVec and Version.AddGameArgsToVec: on an
  error the source leaves the partly extended vector behind, and the caller discards it.
  The model returns only the error.
- ModsStore.InstalledMods: the store's subscribers and their notification are not
  modelled.

## Findings

| source | as written | input that shows it | evidently intended | confidence | as-written member | corrected member |
|---|---|---|---|---|---|---|
| src-tauri/src/minecraft/launcher/mod.rs:282 | the name buffer's capacity is `input.len() - 3` on `usize`, computed once `${` is seen | the argument `${` (two bytes): the subtraction underflows and the program panics | InvalidVersionProfile "invalid template, missing '}'", the error reported for every other unterminated template | not executed | Launcher.TemplateCapacityUnderflow | Launcher.ProcessTemplates |
| src-tauri/src/minecraft/progress.rs:69-71 | `set_for_step` divides by `max` with no guard, while `get_progress` above it divides by `max.max(1)` | `set_for_step(DownloadLibraries, 0, 0)`, the first update `setup_libraries` sends for a profile with no libraries (src-tauri/src/minecraft/launcher/libraries.rs:36-43; `setup_assets` does the same for an empty asset index): the division by zero panics | a zero maximum treated as 1, as `get_progress` does, so an empty step reports the start of its band | not executed | Progress.SetForStepAsWritten | Progress.SetForStep |
