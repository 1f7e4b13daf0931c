# Equo IDE build plugins: hook registry, one-shot model preparation, launch-request assembly

This project models two pieces of sequential logic in the Equo IDE build plugins and proves properties about them.

**The Gradle `equoIde { ... }` extension** (`EquoIdeExtension`), in `gradle_plugin.dfy` (module `GradlePlugin`).
- The extension keeps an ordered list of IDE hook objects. The list starts with the branding hook.
- `useChromium()` appends one new Chromium hook on every call.
- `welcome()` creates the welcome hook on its first call, appends it, and returns that same object on every later call.
- `workspaceInit(subpath, action)` forwards each `prop(key, value)` of the action to the workspace property store of that sub-path.
- `prepareModel` runs the catalog's `putInto` and then the model's native-platform filter, guarded by a one-way `hasBeenPrepared` flag.

The class `EquoIdeExtension` keeps these fields and updates them in place. Its abstract value, `DslState`, holds:
- the hook kinds;
- whether the welcome hook exists;
- the workspace;
- the prepared flag;
- the ordered record of the opaque `putInto` and native-filter calls.

Each class method is proved to move this value exactly as the matching `DslState` member does. The lemmas about `Run`, which applies any sequence of DSL calls, state what holds after any use of the DSL.

**The Maven `launch` goal** (`LaunchMojo.execute`), in `maven_plugin.dfy` (module `MavenPlugin`). It builds three lists and a launcher:
- The resolver's dependency list: `dev.equo.ide:solstice:<version>` with no exclusions, then the runtime's transitive dependencies, then the query's Maven-Central jars. Every entry after solstice is sealed with the single wildcard exclusion `*:*:*:*`.
- The classpath: the resolved files in result order, then one P2 download per unit that is not on Maven Central, in query order.
- The hook list: branding, then a welcome hook whenever the mojo's `welcome` field is non-null. The field is initialised to a new `Welcome`, so by default the welcome hook is appended even when no welcome URL is configured.

It then copies the flags onto the launcher (`Caller`) and launches. The resolver, the P2 downloader and the launch's own failure are parameters of `Execute`. Every caught failure comes back wrapped as a `RuntimeException` outcome, and on a resolution or download failure the launcher is never launched.

`ide_hook.dfy` holds the hook kinds and the hook class that both plugins use. `wrappers.dfy` holds `Option` and `Result`, which stand for Java's `null` and for thrown exceptions.

Where the code and the system's specification disagree, this model follows the code:
- The specification describes a deduplicated classpath (first occurrence wins per identifier). `execute` does not deduplicate, so `Classpath` keeps every resolved file and every download, repeats included.
- The specification describes a configuration error for conflicting platform filters and for ambiguous version pins. Neither check appears in the code modelled here.
- The specification presents `welcome.openUrl` as what enables the welcome hook. In the code the hook is appended whenever the `welcome` field is non-null, which is its default, whether or not a URL is set.
- The specification says the hook registry is read-only once the model is prepared. The code never freezes the list: a `useChromium()` or `welcome()` call after `prepareModel` still appends to the same list object that `putInto` received. The model follows the code, so `Step` keeps appending after preparation.
- The specification puts the bootstrap files first on the classpath. In the code, solstice and the runtime dependencies are only the first entries of the resolver request. The classpath order is the resolver's result order, followed by the P2 downloads.

## Model

| member | source | states |
|---|---|---|
| `GradlePlugin.SetProperty` | plugin-gradle/src/main/java/dev/equo/ide/gradle/EquoIdeExtension.java:67-69 | after `prop(key, value)` the entry (subpath, key) holds value; every other sub-path and every other key of this sub-path is unchanged |
| `GradlePlugin.ApplyPropsLookup` | plugin-gradle/src/main/java/dev/equo/ide/gradle/EquoIdeExtension.java:67-75 | after a `workspaceInit` block, a key of its sub-path holds the value of its last `prop` call; a key the block never set keeps its old entry, or stays absent |
| `GradlePlugin.ApplyPropsOtherSubpaths` | plugin-gradle/src/main/java/dev/equo/ide/gradle/EquoIdeExtension.java:72-75 | a `workspaceInit` block leaves the properties of every other sub-path untouched |
| `GradlePlugin.StepPreservesValid` | plugin-gradle/src/main/java/dev/equo/ide/gradle/EquoIdeExtension.java:36-85 | each DSL call keeps the invariant: branding first and only once, at most one welcome hook, and the preparation calls made once in order exactly when prepared |
| `GradlePlugin.RunPreservesValid` | plugin-gradle/src/main/java/dev/equo/ide/gradle/EquoIdeExtension.java:28-87 | the invariant holds after any sequence of DSL calls |
| `GradlePlugin.RunOnlyAppends` | plugin-gradle/src/main/java/dev/equo/ide/gradle/EquoIdeExtension.java:36-52 | no call removes or reorders hooks: the earlier hook list is always a prefix of the later one |
| `GradlePlugin.BrandingStaysFirst` | plugin-gradle/src/main/java/dev/equo/ide/gradle/EquoIdeExtension.java:29-34 | after construction and any calls, the first hook is branding and no other hook is branding |
| `GradlePlugin.ChromiumHookPerCall` | plugin-gradle/src/main/java/dev/equo/ide/gradle/EquoIdeExtension.java:36-38 | the number of Chromium hooks grows by exactly the number of `useChromium()` calls (no guard: n calls give n hooks) |
| `GradlePlugin.WelcomeExistsIffCalled` | plugin-gradle/src/main/java/dev/equo/ide/gradle/EquoIdeExtension.java:44-52 | the welcome hook exists iff `welcome()` was called at least once |
| `GradlePlugin.WelcomeCreatedOnce` | plugin-gradle/src/main/java/dev/equo/ide/gradle/EquoIdeExtension.java:44-52 | the hook list holds one welcome hook if `welcome()` was ever called and none otherwise, however many calls there were |
| `GradlePlugin.PreparedIsFinal` | plugin-gradle/src/main/java/dev/equo/ide/gradle/EquoIdeExtension.java:77-87 | once prepared, the flag never returns to false and no later call runs `putInto` or the native filter again |
| `GradlePlugin.PreparedIffCalled` | plugin-gradle/src/main/java/dev/equo/ide/gradle/EquoIdeExtension.java:77-81 | the prepared flag is set after the calls iff at least one of them was `prepareModel` |
| `GradlePlugin.NoEffectsBeforePrepare` | plugin-gradle/src/main/java/dev/equo/ide/gradle/EquoIdeExtension.java:81-87 | while the model is not prepared, neither `putInto` nor the native filter has been called |
| `GradlePlugin.PrepareModelRunsOnce` | plugin-gradle/src/main/java/dev/equo/ide/gradle/EquoIdeExtension.java:77-85 | the model is prepared iff `prepareModel` was called; then the only opaque calls are one `putInto`, made with the hooks at the time and the argument of the first `prepareModel` call, followed by one native-filter call |
| `GradlePlugin.EquoIdeExtension.constructor` | plugin-gradle/src/main/java/dev/equo/ide/gradle/EquoIdeExtension.java:27-34 | a new extension holds exactly `[branding]`, has no welcome hook, has an empty workspace and is not prepared |
| `GradlePlugin.EquoIdeExtension.UseChromium` | plugin-gradle/src/main/java/dev/equo/ide/gradle/EquoIdeExtension.java:36-38 | appends one fresh Chromium hook at the end and keeps the earlier hooks as they were |
| `GradlePlugin.EquoIdeExtension.Branding` | plugin-gradle/src/main/java/dev/equo/ide/gradle/EquoIdeExtension.java:40-42 | returns the one branding object, which is the first element of the hook list |
| `GradlePlugin.EquoIdeExtension.Welcome` | plugin-gradle/src/main/java/dev/equo/ide/gradle/EquoIdeExtension.java:44-52 | the first call creates a fresh welcome hook and appends it; every later call returns that same object and leaves the hook list unchanged |
| `GradlePlugin.EquoIdeExtension.GetIdeHooks` | plugin-gradle/src/main/java/dev/equo/ide/gradle/EquoIdeExtension.java:54-56 | returns the hook list, whose first element is the branding object |
| `GradlePlugin.EquoIdeExtension.WorkspaceInit` | plugin-gradle/src/main/java/dev/equo/ide/gradle/EquoIdeExtension.java:72-75 | runs the block's `prop` calls in order against its sub-path; hooks, welcome hook and prepared flag are untouched |
| `GradlePlugin.EquoIdeExtension.PrepareModel` | plugin-gradle/src/main/java/dev/equo/ide/gradle/EquoIdeExtension.java:77-85 | always returns the extension's model; the first call sets the flag and records `putInto`, then the native filter; later calls change nothing and ignore their argument |
| `GradlePlugin.SetWorkspaceFile.constructor` | plugin-gradle/src/main/java/dev/equo/ide/gradle/EquoIdeExtension.java:60-65 | the receiver is bound to its extension and its sub-path |
| `GradlePlugin.SetWorkspaceFile.Prop` | plugin-gradle/src/main/java/dev/equo/ide/gradle/EquoIdeExtension.java:67-69 | sets entry (subpath, key) of the extension's workspace and changes no other field of the extension |
| `MavenPlugin.Dependencies` | plugin-maven/src/main/java/dev/equo/ide/maven/LaunchMojo.java:92-110 | the dependency list has length 1 + transitive deps + Maven-Central jars; entry 0 is `dev.equo.ide:solstice:<version>` with no exclusions; every later entry carries exactly the wildcard exclusion; the coordinates in order are solstice, the transitive deps, then the jars |
| `MavenPlugin.BuildDependencies` | plugin-maven/src/main/java/dev/equo/ide/maven/LaunchMojo.java:100-110 | the two loops produce exactly that dependency list |
| `MavenPlugin.DownloadsSucceed` | plugin-maven/src/main/java/dev/equo/ide/maven/LaunchMojo.java:120-124 | the downloads succeed iff every unit downloads; then there is one file per unit, in unit order |
| `MavenPlugin.DownloadsFailFast` | plugin-maven/src/main/java/dev/equo/ide/maven/LaunchMojo.java:120-124 | a failure is the failure of the first unit that does not download, with all earlier units downloaded |
| `MavenPlugin.DownloadsPrefixFailure` | plugin-maven/src/main/java/dev/equo/ide/maven/LaunchMojo.java:120-124 | once a download fails, the units after it change nothing: the whole download step fails with that failure |
| `MavenPlugin.ClasspathOrder` | plugin-maven/src/main/java/dev/equo/ide/maven/LaunchMojo.java:116-124 | the classpath exists iff every P2 unit downloads; it then has length results + units, the resolved files in result order, then the downloads in query order |
| `MavenPlugin.AssembleClasspath` | plugin-maven/src/main/java/dev/equo/ide/maven/LaunchMojo.java:116-124 | the two loops produce exactly that classpath, or the first download failure |
| `MavenPlugin.IdeHooks` | plugin-maven/src/main/java/dev/equo/ide/maven/LaunchMojo.java:126-133 | branding, configured from the mojo's branding, is first; a welcome hook with the configured URL is second iff `welcome` is set; the length is 1 or 2 |
| `MavenPlugin.HandOver` | plugin-maven/src/main/java/dev/equo/ide/maven/LaunchMojo.java:138-146 | the launcher receives the hooks and the classpath, the flags copied unchanged, and the fixed strings `-DshowConsole` and `-Dclean` |
| `MavenPlugin.Caller.ForProjectDir` | plugin-maven/src/main/java/dev/equo/ide/maven/LaunchMojo.java:98 | the launcher is bound to the project directory and the `clean` flag, and has not been launched |
| `MavenPlugin.Caller.Launch` | plugin-maven/src/main/java/dev/equo/ide/maven/LaunchMojo.java:147 | one more launch is recorded, and the launch's own failure, if any, is passed on |
| `MavenPlugin.Execute` | plugin-maven/src/main/java/dev/equo/ide/maven/LaunchMojo.java:96-151 | for a run in which creating the launcher, `NestedJars`, `query()` and the parsing of every coordinate all return: a resolution failure or any download failure is rethrown wrapped and the launcher is never launched; otherwise the launcher gets exactly the assembled classpath, hooks and flags and is launched once, and a launch failure is rethrown wrapped |

## Left out

- Aether's `resolveDependencies`, `P2Client.download` and `Caller.launch()` are network and process I/O in other libraries. The resolver and the downloader are function parameters. The launch is a call that records itself and reports a failure given as a parameter.
- The opening and closing of the `P2Client` resource (try-with-resources) are not modelled, and neither is an `IOException` thrown while closing it.
- `query()`, `NestedJars.solsticeVersion()` and `NestedJars.transitiveDeps(...)` are code outside this model. Their results are inputs (`P2Query`, `NestedJars`).
- `OS.getNative().isMac()` and `System.setProperty("equo-ide-maven-workarounds", ...)` depend on the host and on global JVM state, so they are not modelled.
- Maven's `@Parameter`/`@Component` binding is not modelled. The mojo's parameters are one value (`LaunchMojo`).
- The fields that `Caller.forProjectDir` sets besides the project directory and `clean` are not specified, because its code is not part of this model.
- `LaunchMojo` takes `welcome` as an `Option` input and `branding` as a value. The field initialisers `new Welcome()` and `new Branding()` are not modelled, and neither are the fields those classes start with, since their code is not part of this model.
- `MavenPlugin.Execute` covers only runs that reach the resolver. `Caller.forProjectDir` (line 98), `NestedJars.solsticeVersion()` and `NestedJars.transitiveDeps(...)` (lines 103-104) and `query()` (line 107) can throw before resolution. So can `new DefaultArtifact(...)` (lines 103, 105, 109), for a coordinate it cannot parse, such as `"foo"` or the solstice coordinate with an empty version. An `IOException` among these comes back wrapped as a `RuntimeException`; any other exception, including the parser's `IllegalArgumentException`, escapes `execute` unwrapped. In every such case nothing is resolved and the launcher is never launched. The model takes all of these calls to return, and its contract says nothing about those exits.
- `DefaultArtifact` coordinate parsing is not modelled. A dependency keeps its coordinate string. Scope and optionality are not modelled: the code passes no scope, and passes optionality only as null.
- `catalog.putInto` and `model.applyNativeFilterIfNoPlatformFilter` are modelled only as recorded calls, because their code is not part of this model. An exception thrown by either is not modelled either. Note that the code sets `hasBeenPrepared` before calling them, so after such an exception a later `prepareModel` would return the model unprepared.
- `GradlePlugin.EquoIdeExtension.PrepareModel`: `putInto` receives the extension's live hook list and the caller's workspace object, by reference. Anything it adds to either is not modelled: the model takes it that `putInto` adds nothing, so `BrandingStaysFirst`, `ChromiumHookPerCall`, `WelcomeCreatedOnce` and the hook list named in `PrepareModelRunsOnce` hold only under that assumption. The recorded `PutInto` effect holds a snapshot of the hook kinds at the time of the call, where the code passes the list itself.
- `WorkspaceInit.setProperty` is not part of this model. `SetProperty` models it as overwriting the single entry (sub-path, key).
- The Gradle `Action` callback is modelled as the ordered sequence of `prop` calls it makes. Code that the action runs between those calls is not modelled.
- `GradlePlugin.EquoIdeExtension.GetIdeHooks` returns the hook list as a value. The Java method returns the live mutable list, so a caller can alias it and change it. The model does not capture that aliasing.
- The superclass `P2ModelDslWithCatalog` is not part of this model. From it the model keeps only the identity of the prepared model. Branding/welcome configuration methods (`title`, `icon`, `splash`, `openUrl`) on Gradle hooks and the public `useAtomos` field are also left out.
- Concurrent use of one extension is not modelled. The source has no locking, and the model is sequential.
