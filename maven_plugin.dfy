/**
 * The `launch` goal of the Maven plugin (`LaunchMojo.execute`).
 *
 * The goal asks the Maven resolver for solstice, the runtime's transitive dependencies and
 * the query's jars that are on Maven Central, every one but solstice sealed against its own
 * transitive dependencies. It then builds the classpath from the resolved files followed by
 * one P2 download per unit that is not on Maven Central, builds the hook list, copies its
 * flags onto a launcher and launches.
 *
 * The resolver, the P2 downloader and the launch itself are outside this model: they are
 * given as function values (`resolveDependencies`, `download`) and as the failure the
 * launch reports, if any (`launchFailure`).
 */
module MavenPlugin {
  import opened Wrappers
  import IdeHook

  datatype File = File(path: string)

  /** An Aether exclusion: groupId, artifactId, classifier, extension. */
  datatype Exclusion = Exclusion(groupId: string, artifactId: string, classifier: string, extension: string)

  /** `EXCLUDE_ALL_TRANSITIVES`: the single wildcard exclusion. */
  const ExcludeAllTransitives: seq<Exclusion> := [Exclusion("*", "*", "*", "*")]

  const SolsticeCoordinatePrefix: string := "dev.equo.ide:solstice:"

  /** An Aether dependency: the artifact's coordinate and its exclusions (no scope is passed, and optionality is passed only as null). */
  datatype Dependency = Dependency(artifact: string, exclusions: seq<Exclusion>)

  datatype RemoteRepository = RemoteRepository(id: string, url: string)

  /** The collect request handed to the resolver; its root is always unset. */
  datatype CollectRequest = CollectRequest(dependencies: seq<Dependency>, repositories: seq<RemoteRepository>)

  /** One entry of the resolver's result: the resolved artifact and its local file. */
  datatype ArtifactResult = ArtifactResult(coordinate: string, file: File)

  datatype P2Unit = P2Unit(id: string, version: string)

  /** The P2 query of the project: what is mirrored on Maven Central and what only P2 has. */
  datatype P2Query = P2Query(jarsOnMavenCentral: seq<string>, jarsNotOnMavenCentral: seq<P2Unit>)

  /** `NestedJars`: the solstice version and the runtime's transitive dependencies (by `useAtomos`), as Maven coordinates. */
  datatype NestedJars = NestedJars(solsticeVersion: string, transitiveDeps: bool -> seq<string>)

  datatype DebugClasspath = Disabled | Dump(mode: string)

  datatype Branding = Branding(title: Option<string>, icon: Option<File>, splash: Option<File>)

  datatype Welcome = Welcome(openUrl: Option<string>)

  /**
   * The parameters Maven binds onto the mojo. The source initialises `welcome` to a new, non-null
   * `Welcome`, so it is `Some` unless something sets the field to null; `execute` checks for null.
   */
  datatype LaunchMojo = LaunchMojo(
    branding: Branding,
    welcome: Option<Welcome>,
    clean: bool,
    initOnly: bool,
    showConsole: bool,
    debugClasspath: DebugClasspath,
    useAtomos: bool,
    debugIde: bool,
    baseDir: File,
    repositories: seq<RemoteRepository>)

  /** A configured hook value handed to the launcher. */
  datatype LaunchHook =
    | IdeHookBranding(title: Option<string>, icon: Option<File>, splash: Option<File>)
    | IdeHookWelcome(openUrl: Option<string>)
  {
    function Kind(): IdeHook.HookKind
    {
      match this
      case IdeHookBranding(_, _, _) => IdeHook.BrandingHook
      case IdeHookWelcome(_) => IdeHook.WelcomeHook
    }
  }

  /** The exceptions `execute` catches. */
  datatype Failure =
    | DependencyResolutionException(message: string)
    | IOException(message: string)
    | InterruptedException(message: string)

  /** How `execute` ends: normally, or by throwing a `RuntimeException` that wraps the caught one. */
  datatype Outcome = Completed | RuntimeException(cause: Failure)

  /** A dependency sealed against all of its transitive dependencies. */
  function Sealed(coordinate: string): Dependency
  {
    Dependency(coordinate, ExcludeAllTransitives)
  }

  function SealAll(coordinates: seq<string>): seq<Dependency>
  {
    seq(|coordinates|, i requires 0 <= i < |coordinates| => Sealed(coordinates[i]))
  }

  function Artifacts(deps: seq<Dependency>): seq<string>
  {
    seq(|deps|, i requires 0 <= i < |deps| => deps[i].artifact)
  }

  /**
   * The resolver's dependency list: solstice unsealed, then every runtime dependency and
   * every Maven-Central jar sealed, nothing skipped and nothing reordered.
   */
  function Dependencies(solsticeVersion: string, transitiveDeps: seq<string>, jarsOnMavenCentral: seq<string>): (deps: seq<Dependency>)
    ensures |deps| == 1 + |transitiveDeps| + |jarsOnMavenCentral|
    ensures deps[0].artifact == SolsticeCoordinatePrefix + solsticeVersion && deps[0].exclusions == []
    ensures forall i :: 1 <= i < |deps| ==> deps[i].exclusions == ExcludeAllTransitives
    ensures Artifacts(deps) == [SolsticeCoordinatePrefix + solsticeVersion] + transitiveDeps + jarsOnMavenCentral
  {
    [Dependency(SolsticeCoordinatePrefix + solsticeVersion, [])] + SealAll(transitiveDeps) + SealAll(jarsOnMavenCentral)
  }

  /** The two dependency loops of `execute`: solstice, then the sealed runtime dependencies and Maven-Central jars. */
  method BuildDependencies(solsticeVersion: string, transitiveDeps: seq<string>, jarsOnMavenCentral: seq<string>)
    returns (deps: seq<Dependency>)
    ensures deps == Dependencies(solsticeVersion, transitiveDeps, jarsOnMavenCentral)
  {
    var solstice := Dependency(SolsticeCoordinatePrefix + solsticeVersion, []);
    deps := [solstice];
    for i := 0 to |transitiveDeps|
      invariant deps == [solstice] + SealAll(transitiveDeps[..i])
    {
      assert SealAll(transitiveDeps[..i + 1]) == SealAll(transitiveDeps[..i]) + [Sealed(transitiveDeps[i])];
      deps := deps + [Sealed(transitiveDeps[i])];
    }
    assert transitiveDeps[..|transitiveDeps|] == transitiveDeps;
    var head := deps;
    for i := 0 to |jarsOnMavenCentral|
      invariant deps == head + SealAll(jarsOnMavenCentral[..i])
    {
      assert SealAll(jarsOnMavenCentral[..i + 1]) == SealAll(jarsOnMavenCentral[..i]) + [Sealed(jarsOnMavenCentral[i])];
      deps := deps + [Sealed(jarsOnMavenCentral[i])];
    }
    assert jarsOnMavenCentral[..|jarsOnMavenCentral|] == jarsOnMavenCentral;
  }

  /** The files of the resolver's result, in result order. */
  function Files(results: seq<ArtifactResult>): seq<File>
  {
    seq(|results|, i requires 0 <= i < |results| => results[i].file)
  }

  /** The P2 downloads in request order; the first failing download ends them all. */
  function Downloads(units: seq<P2Unit>, download: P2Unit -> Result<File, string>): Result<seq<File>, string>
  {
    if units == [] then Success([])
    else
      match Downloads(units[..|units| - 1], download)
      case Failure(e) => Failure(e)
      case Success(files) =>
        match download(units[|units| - 1])
        case Failure(e) => Failure(e)
        case Success(f) => Success(files + [f])
  }

  /** The classpath: resolved files first, then the P2 downloads, or the download failure. */
  function Classpath(results: seq<ArtifactResult>, units: seq<P2Unit>, download: P2Unit -> Result<File, string>): Result<seq<File>, string>
  {
    match Downloads(units, download)
    case Failure(e) => Failure(e)
    case Success(files) => Success(Files(results) + files)
  }

  /** The downloads succeed iff every unit downloads; then there is one file per unit, in unit order. */
  lemma {:induction false} DownloadsSucceed(units: seq<P2Unit>, download: P2Unit -> Result<File, string>)
    ensures Downloads(units, download).Success? <==> forall j :: 0 <= j < |units| ==> download(units[j]).Success?
    ensures Downloads(units, download).Success? ==>
      |Downloads(units, download).value| == |units| &&
      forall j :: 0 <= j < |units| ==> Downloads(units, download).value[j] == download(units[j]).value
  {
    if units != [] {
      var pre := units[..|units| - 1];
      DownloadsSucceed(pre, download);
      forall j | 0 <= j < |pre| ensures units[j] == pre[j] { }
    }
  }

  /** A failure is the failure of the first unit that does not download. */
  lemma {:induction false} DownloadsFailFast(units: seq<P2Unit>, download: P2Unit -> Result<File, string>)
    ensures Downloads(units, download).Failure? ==>
      exists k ::
        0 <= k < |units| && download(units[k]).Failure? &&
        (forall j :: 0 <= j < k ==> download(units[j]).Success?) &&
        Downloads(units, download).error == download(units[k]).error
  {
    if units != [] {
      var pre := units[..|units| - 1];
      DownloadsFailFast(pre, download);
      DownloadsSucceed(pre, download);
      if Downloads(pre, download).Failure? {
        var k :| 0 <= k < |pre| && download(pre[k]).Failure? &&
          (forall j :: 0 <= j < k ==> download(pre[j]).Success?) &&
          Downloads(pre, download).error == download(pre[k]).error;
        assert units[k] == pre[k];
        forall j | 0 <= j < k ensures download(units[j]).Success? {
          assert units[j] == pre[j];
        }
      } else {
        forall j | 0 <= j < |pre| ensures download(units[j]).Success? {
          assert units[j] == pre[j];
        }
      }
    }
  }

  /** A failure among the first units is the failure of all of them. */
  lemma {:induction false} DownloadsPrefixFailure(units: seq<P2Unit>, n: nat, download: P2Unit -> Result<File, string>)
    requires n <= |units|
    requires Downloads(units[..n], download).Failure?
    ensures Downloads(units, download) == Downloads(units[..n], download)
  {
    if n < |units| {
      var pre := units[..|units| - 1];
      assert pre[..n] == units[..n];
      DownloadsPrefixFailure(pre, n, download);
    } else {
      assert units[..n] == units;
    }
  }

  /**
   * On success the classpath is every resolved file in result order followed by one
   * download per P2 unit in query order: nothing dropped, nothing reordered, nothing added.
   */
  lemma ClasspathOrder(results: seq<ArtifactResult>, units: seq<P2Unit>, download: P2Unit -> Result<File, string>)
    ensures Classpath(results, units, download).Success? <==> forall j :: 0 <= j < |units| ==> download(units[j]).Success?
    ensures Classpath(results, units, download).Success? ==>
      var cp := Classpath(results, units, download).value;
      |cp| == |results| + |units| &&
      (forall i :: 0 <= i < |results| ==> cp[i] == results[i].file) &&
      (forall j :: 0 <= j < |units| ==> cp[|results| + j] == download(units[j]).value)
  {
    DownloadsSucceed(units, download);
  }

  /** The classpath loops of `execute`: the resolved files, then the P2 downloads, stopping at the first failure. */
  method AssembleClasspath(results: seq<ArtifactResult>, units: seq<P2Unit>, download: P2Unit -> Result<File, string>)
    returns (r: Result<seq<File>, string>)
    ensures r == Classpath(results, units, download)
  {
    var files: seq<File> := [];
    for i := 0 to |results|
      invariant files == Files(results[..i])
    {
      files := files + [results[i].file];
    }
    assert results[..|results|] == results;
    // The downloads run inside the P2 client's scope.
    for j := 0 to |units|
      invariant Downloads(units[..j], download).Success?
      invariant files == Files(results) + Downloads(units[..j], download).value
    {
      assert units[..j + 1][..j] == units[..j];
      var downloaded := download(units[j]);
      if downloaded.Failure? {
        DownloadsPrefixFailure(units, j + 1, download);
        return Failure(downloaded.error);
      }
      files := files + [downloaded.value];
    }
    assert units[..|units|] == units;
    r := Success(files);
  }

  /** The hook list of `execute`: branding first, then the welcome hook whenever `welcome` is non-null. */
  function IdeHooks(branding: Branding, welcome: Option<Welcome>): (hooks: seq<LaunchHook>)
    ensures |hooks| == (if welcome.Some? then 2 else 1)
    ensures hooks[0].Kind() == IdeHook.BrandingHook
    ensures hooks[0] == IdeHookBranding(branding.title, branding.icon, branding.splash)
    ensures welcome.Some? ==> hooks[1].Kind() == IdeHook.WelcomeHook && hooks[1].openUrl == welcome.value.openUrl
  {
    var brandingHook := IdeHookBranding(branding.title, branding.icon, branding.splash);
    if welcome.Some? then [brandingHook, IdeHookWelcome(welcome.value.openUrl)] else [brandingHook]
  }

  /** The resolver request `execute` builds. */
  function Request(mojo: LaunchMojo, nestedJars: NestedJars, query: P2Query): CollectRequest
  {
    CollectRequest(
      Dependencies(nestedJars.solsticeVersion, nestedJars.transitiveDeps(mojo.useAtomos), query.jarsOnMavenCentral),
      mojo.repositories)
  }

  /** What the resolver answers to the request `execute` builds. */
  function Resolution(
    mojo: LaunchMojo,
    nestedJars: NestedJars,
    query: P2Query,
    resolveDependencies: CollectRequest -> Result<seq<ArtifactResult>, string>): Result<seq<ArtifactResult>, string>
  {
    resolveDependencies(Request(mojo, nestedJars, query))
  }

  /** `BuildPluginIdeMain.Caller`: what the launcher receives. */
  class Caller {
    const projectDir: File
    const clean: bool
    var ideHooks: seq<LaunchHook>
    var classpath: seq<File>
    var debugClasspath: DebugClasspath
    var initOnly: bool
    var showConsole: bool
    var useAtomos: bool
    var debugIde: bool
    var showConsoleFlag: string
    var cleanFlag: string
    /** How many times `launch()` was called. */
    var launches: nat

    /**
     * The launcher holds the given classpath, the mojo's hook list, the mojo's flags
     * unchanged and the fixed console and clean flag names.
     */
    ghost predicate HandedOver(mojo: LaunchMojo, files: seq<File>)
      reads this`ideHooks, this`classpath, this`debugClasspath, this`initOnly, this`showConsole,
        this`useAtomos, this`debugIde, this`showConsoleFlag, this`cleanFlag
    {
      && classpath == files
      && ideHooks == IdeHooks(mojo.branding, mojo.welcome)
      && debugClasspath == mojo.debugClasspath
      && initOnly == mojo.initOnly
      && showConsole == mojo.showConsole
      && useAtomos == mojo.useAtomos
      && debugIde == mojo.debugIde
      && showConsoleFlag == "-DshowConsole"
      && cleanFlag == "-Dclean"
    }

    /** `Caller.forProjectDir(projectDir, clean)`. */
    constructor ForProjectDir(projectDir: File, clean: bool)
      ensures this.projectDir == projectDir && this.clean == clean && launches == 0
    {
      this.projectDir := projectDir;
      this.clean := clean;
      launches := 0;
    }

    /** `launch()`: starts the IDE; `failure` is what the launch throws, if anything. */
    method Launch(failure: Option<Failure>) returns (thrown: Option<Failure>)
      modifies this`launches
      ensures launches == old(launches) + 1 && thrown == failure
    {
      launches := launches + 1;
      thrown := failure;
    }
  }

  /** The field copies at the end of `execute`: the hooks, the classpath and the flags go onto the launcher. */
  method HandOver(caller: Caller, mojo: LaunchMojo, ideHooks: seq<LaunchHook>, files: seq<File>)
    requires ideHooks == IdeHooks(mojo.branding, mojo.welcome)
    modifies caller
    ensures caller.HandedOver(mojo, files)
    ensures caller.launches == old(caller.launches)
  {
    caller.ideHooks := ideHooks;
    caller.classpath := files;
    caller.debugClasspath := mojo.debugClasspath;
    caller.initOnly := mojo.initOnly;
    caller.showConsole := mojo.showConsole;
    caller.useAtomos := mojo.useAtomos;
    caller.debugIde := mojo.debugIde;
    caller.showConsoleFlag := "-DshowConsole";
    caller.cleanFlag := "-Dclean";
  }

  /**
   * `LaunchMojo.execute()`. The launcher is created first; it is launched only once the
   * resolver and every download have succeeded, with the assembled classpath, the hook
   * list and the mojo's flags copied unchanged. Every caught failure is rethrown wrapped.
   * Creating the launcher, `NestedJars`, `query()` and the coordinate parser are taken to
   * return; their own exceptions, which end `execute` before resolution, are not modelled.
   */
  method Execute(
    mojo: LaunchMojo,
    nestedJars: NestedJars,
    query: P2Query,
    resolveDependencies: CollectRequest -> Result<seq<ArtifactResult>, string>,
    download: P2Unit -> Result<File, string>,
    launchFailure: Option<Failure>)
    returns (caller: Caller, outcome: Outcome)
    ensures fresh(caller) && caller.projectDir == mojo.baseDir && caller.clean == mojo.clean
    ensures var resolved := Resolution(mojo, nestedJars, query, resolveDependencies);
      resolved.Failure? ==>
        outcome == RuntimeException(DependencyResolutionException(resolved.error)) && caller.launches == 0
    ensures var resolved := Resolution(mojo, nestedJars, query, resolveDependencies);
      resolved.Success? && Classpath(resolved.value, query.jarsNotOnMavenCentral, download).Failure? ==>
        outcome == RuntimeException(IOException(Classpath(resolved.value, query.jarsNotOnMavenCentral, download).error)) &&
        caller.launches == 0
    ensures var resolved := Resolution(mojo, nestedJars, query, resolveDependencies);
      resolved.Success? && Classpath(resolved.value, query.jarsNotOnMavenCentral, download).Success? ==>
        && caller.HandedOver(mojo, Classpath(resolved.value, query.jarsNotOnMavenCentral, download).value)
        && caller.launches == 1
        && outcome == (if launchFailure.Some? then RuntimeException(launchFailure.value) else Completed)
  {
    caller := new Caller.ForProjectDir(mojo.baseDir, mojo.clean);

    var deps := BuildDependencies(nestedJars.solsticeVersion, nestedJars.transitiveDeps(mojo.useAtomos), query.jarsOnMavenCentral);
    var collectRequest := CollectRequest(deps, mojo.repositories);
    var dependencyResult := resolveDependencies(collectRequest);
    assert dependencyResult == Resolution(mojo, nestedJars, query, resolveDependencies);
    if dependencyResult.Failure? {
      return caller, RuntimeException(DependencyResolutionException(dependencyResult.error));
    }

    var files := AssembleClasspath(dependencyResult.value, query.jarsNotOnMavenCentral, download);
    if files.Failure? {
      return caller, RuntimeException(IOException(files.error));
    }

    var ideHooks := [IdeHookBranding(mojo.branding.title, mojo.branding.icon, mojo.branding.splash)];
    if mojo.welcome.Some? {
      ideHooks := ideHooks + [IdeHookWelcome(mojo.welcome.value.openUrl)];
    }
    assert ideHooks == IdeHooks(mojo.branding, mojo.welcome);

    HandOver(caller, mojo, ideHooks, files.value);
    var thrown := caller.Launch(launchFailure);
    outcome := if thrown.Some? then RuntimeException(thrown.value) else Completed;
  }
}
