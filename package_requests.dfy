/**
 * The goal configuration of the `package` goal of javafx-maven-plugin, the
 * project it runs on, the build paths it derives from them, and the two
 * requests it hands to the JavaFX packager: `CreateJarParams` for the JavaFX
 * jar and `DeployParams` for the native bundles. An optional request field
 * that the goal never sets is None, not an empty string.
 */
module PackageRequests {
  import opened Wrappers
  import opened Paths

  /** The goal's parameters; a Java null is None. */
  datatype Config = Config(
    verbose: bool,
    mainClass: string,
    bundles: string,
    appId: string,
    appName: string,
    appDescription: Option<string>,
    appVendor: Option<string>,
    appCategory: Option<string>,
    appCopyright: Option<string>,
    width: Option<int>,
    height: Option<int>,
    icons: Option<seq<Path>>,
    allPermissions: bool,
    preloaderClass: Option<string>,
    jvmArgs: Option<seq<string>>,
    jvmProps: Option<map<string, string>>)

  /** A resolved dependency of the project: its group and its file. */
  datatype Dependency = Dependency(groupId: string, file: Path)

  /** What the goal reads from the Maven project. */
  datatype Project = Project(buildDir: Path, finalName: string, version: string, artifactFile: Path,
                             dependencies: seq<Dependency>)

  /** `addResource(baseDir, name)`: a file or directory under `baseDir` to embed. */
  datatype Resource = Resource(baseDir: Path, name: string)

  datatype RunMode = RunModeAll

  /** `addIcon(href, kind, width, height, depth, mode)`. */
  datatype Icon = Icon(href: string, kind: Option<string>, width: int, height: int, depth: int, mode: RunMode)

  datatype CreateJarParams = CreateJarParams(
    verbose: bool,
    applicationClass: string,
    preloader: Option<string>,
    outdir: Path,
    outfile: string,
    resources: seq<Resource>)

  datatype DeployParams = DeployParams(
    verbose: bool,
    applicationClass: string,
    id: string,
    appId: string,
    appName: string,
    version: string,
    title: string,
    description: Option<string>,
    vendor: Option<string>,
    category: Option<string>,
    copyright: Option<string>,
    width: Option<int>,
    height: Option<int>,
    allPermissions: Option<bool>,
    preloader: Option<string>,
    jvmArgs: seq<string>,
    jvmProperties: map<string, string>,
    icons: seq<Icon>,
    outdir: Path,
    outfile: string,
    bundleType: string,
    resources: seq<Resource>)

  function UnpackedDir(p: Project): Path { p.buildDir + ["javafx-unpacked-project-artifact"] }
  function CreateJarDir(p: Project): Path { p.buildDir + ["javafx-create-jar"] }
  function JarName(p: Project): string { p.finalName + "-javafx.jar" }
  function JarPath(p: Project): Path { CreateJarDir(p) + [JarName(p)] }
  function DependenciesDir(p: Project): Path { p.buildDir + ["dependencies"] }
  function NativeDir(p: Project): Path { p.buildDir + ["javafx-native"] }
  function BundlesDir(p: Project): Path { NativeDir(p) + ["bundles"] }
  function JnlpDir(p: Project): Path { p.buildDir + ["javafx-jnlp"] }
  function JnlpZip(p: Project): Path { p.buildDir + [p.finalName + "-jnlp.zip"] }
  function MacosxZip(p: Project): Path { p.buildDir + [p.finalName + "-macosx.zip"] }

  /** A character `String.trim` removes. */
  predicate IsTrimmed(c: char) { c <= ' ' }

  /** plexus `StringUtils.isEmpty`: null, or nothing left after trimming. */
  predicate IsEmpty(s: Option<string>)
  {
    s.None? || forall i :: 0 <= i < |s.value| ==> IsTrimmed(s.value[i])
  }

  lemma NullAndEmptyAreEmpty()
    ensures IsEmpty(None) && IsEmpty(Some(""))
  {
  }

  /** The value a guarded setter receives: the configured text when it is not empty, else nothing is set. */
  function IfNotEmpty(s: Option<string>): (r: Option<string>)
    ensures r.Some? <==> !IsEmpty(s)
    ensures r.Some? ==> r == s
  {
    if IsEmpty(s) then None else s
  }

  /** The value a guarded dimension setter receives: set only when configured and positive. */
  function IfPositive(n: Option<int>): (r: Option<int>)
    ensures r.Some? <==> n.Some? && n.value > 0
    ensures r.Some? ==> r == n
  {
    if n.Some? && n.value > 0 then n else None
  }

  /** The request for the JavaFX jar: the unpacked project artifact as its only resource. */
  function CreateJarRequest(cfg: Config, project: Project): (r: CreateJarParams)
    ensures r.verbose == cfg.verbose && r.applicationClass == cfg.mainClass
    ensures r.preloader.Some? <==> !IsEmpty(cfg.preloaderClass)
    ensures r.preloader.Some? ==> r.preloader == cfg.preloaderClass
    ensures r.outdir == project.buildDir + ["javafx-create-jar"] && r.outfile == project.finalName + "-javafx.jar"
    ensures r.resources == [Resource(project.buildDir + ["javafx-unpacked-project-artifact"], "")]
  {
    CreateJarParams(cfg.verbose, cfg.mainClass, IfNotEmpty(cfg.preloaderClass), CreateJarDir(project), JarName(project),
                    [Resource(UnpackedDir(project), "")])
  }

  /** The resources of the deployment request: the JavaFX jar, then the dependencies directory if it exists. */
  function DeployResources(project: Project, dependenciesExist: bool): (r: seq<Resource>)
    ensures 1 <= |r| <= 2 && r[0] == Resource(CreateJarDir(project), JarName(project))
    ensures |r| == 2 <==> dependenciesExist
    ensures dependenciesExist ==> r[1] == Resource(DependenciesDir(project), "")
  {
    [Resource(CreateJarDir(project), JarName(project))]
    + (if dependenciesExist then [Resource(DependenciesDir(project), "")] else [])
  }

  /** `addIcon(icon.getAbsolutePath(), null, -1, -1, -1, RunMode.ALL)`. */
  function IconFor(icon: Path): Icon
  {
    Icon(Render(icon), None, -1, -1, -1, RunModeAll)
  }

  /** The configured JVM arguments, added one by one in order. */
  method CollectJvmArgs(configured: Option<seq<string>>) returns (args: seq<string>)
    ensures args == if configured.Some? then configured.value else []
  {
    args := [];
    if configured.Some? {
      var all := configured.value;
      for i := 0 to |all|
        invariant args == all[..i]
      {
        args := args + [all[i]];
      }
      assert all[..|all|] == all;
    }
  }

  /** The configured JVM properties, added entry by entry. */
  method CollectJvmProperties(configured: Option<map<string, string>>) returns (properties: map<string, string>)
    ensures properties == if configured.Some? then configured.value else map[]
  {
    properties := map[];
    if configured.Some? {
      var all := configured.value;
      var rest := all.Keys;
      while rest != {}
        invariant rest <= all.Keys
        invariant properties.Keys == all.Keys - rest
        invariant forall k :: k in properties ==> properties[k] == all[k]
        decreases rest
      {
        var k :| k in rest;
        properties := properties[k := all[k]];
        rest := rest - {k};
      }
    }
  }

  /** One icon per configured icon file, in order. */
  method CollectIcons(configured: Option<seq<Path>>) returns (icons: seq<Icon>)
    ensures |icons| == (if configured.Some? then |configured.value| else 0)
    ensures forall i :: 0 <= i < |icons| ==> icons[i] == IconFor(configured.value[i])
  {
    icons := [];
    if configured.Some? {
      var all := configured.value;
      for i := 0 to |all|
        invariant |icons| == i
        invariant forall j :: 0 <= j < i ==> icons[j] == IconFor(all[j])
      {
        icons := icons + [IconFor(all[i])];
      }
    }
  }

  /**
   * The deployment request: identity fields always, the optional fields only
   * when configured (text not empty, dimensions positive), the JVM arguments
   * in order, every JVM property, one icon per configured icon, then the
   * output location, the bundle type and the resources.
   */
  method BuildDeployParams(cfg: Config, project: Project, bundleType: string, dependenciesExist: bool)
    returns (p: DeployParams)
    ensures p.verbose == cfg.verbose && p.applicationClass == cfg.mainClass
    ensures p.id == cfg.appId && p.appId == cfg.appId && p.appName == cfg.appName && p.title == cfg.appName
    ensures p.version == project.version && p.description == cfg.appDescription
    ensures p.vendor.Some? <==> !IsEmpty(cfg.appVendor)
    ensures p.vendor.Some? ==> p.vendor == cfg.appVendor
    ensures p.category.Some? <==> !IsEmpty(cfg.appCategory)
    ensures p.category.Some? ==> p.category == cfg.appCategory
    ensures p.copyright.Some? <==> !IsEmpty(cfg.appCopyright)
    ensures p.copyright.Some? ==> p.copyright == cfg.appCopyright
    ensures p.preloader.Some? <==> !IsEmpty(cfg.preloaderClass)
    ensures p.preloader.Some? ==> p.preloader == cfg.preloaderClass
    ensures p.width.Some? <==> cfg.width.Some? && cfg.width.value > 0
    ensures p.width.Some? ==> p.width == cfg.width
    ensures p.height.Some? <==> cfg.height.Some? && cfg.height.value > 0
    ensures p.height.Some? ==> p.height == cfg.height
    ensures p.allPermissions == Some(cfg.allPermissions)
    ensures p.jvmArgs == if cfg.jvmArgs.Some? then cfg.jvmArgs.value else []
    ensures p.jvmProperties == if cfg.jvmProps.Some? then cfg.jvmProps.value else map[]
    ensures |p.icons| == (if cfg.icons.Some? then |cfg.icons.value| else 0)
    ensures forall i :: 0 <= i < |p.icons| ==> p.icons[i] == IconFor(cfg.icons.value[i])
    ensures p.outdir == NativeDir(project) && p.outfile == project.finalName && p.bundleType == bundleType
    ensures p.resources == DeployResources(project, dependenciesExist)
    ensures p == DeployRequest(cfg, project, bundleType, dependenciesExist)
  {
    var args := CollectJvmArgs(cfg.jvmArgs);
    var properties := CollectJvmProperties(cfg.jvmProps);
    var icons := CollectIcons(cfg.icons);
    p := DeployParams(cfg.verbose, cfg.mainClass, cfg.appId, cfg.appId, cfg.appName, project.version, cfg.appName,
                      cfg.appDescription, IfNotEmpty(cfg.appVendor), IfNotEmpty(cfg.appCategory),
                      IfNotEmpty(cfg.appCopyright), IfPositive(cfg.width), IfPositive(cfg.height),
                      Some(cfg.allPermissions), IfNotEmpty(cfg.preloaderClass), args, properties, icons,
                      NativeDir(project), project.finalName, bundleType, DeployResources(project, dependenciesExist));
  }

  /** The deployment request the goal builds for a configuration, as a value. */
  function DeployRequest(cfg: Config, project: Project, bundleType: string, dependenciesExist: bool): DeployParams
  {
    var icons := if cfg.icons.Some? then cfg.icons.value else [];
    DeployParams(cfg.verbose, cfg.mainClass, cfg.appId, cfg.appId, cfg.appName, project.version, cfg.appName,
                 cfg.appDescription, IfNotEmpty(cfg.appVendor), IfNotEmpty(cfg.appCategory),
                 IfNotEmpty(cfg.appCopyright), IfPositive(cfg.width), IfPositive(cfg.height),
                 Some(cfg.allPermissions), IfNotEmpty(cfg.preloaderClass),
                 if cfg.jvmArgs.Some? then cfg.jvmArgs.value else [],
                 if cfg.jvmProps.Some? then cfg.jvmProps.value else map[],
                 seq(|icons|, i requires 0 <= i < |icons| => IconFor(icons[i])),
                 NativeDir(project), project.finalName, bundleType, DeployResources(project, dependenciesExist))
  }

  /** The name a dependency is staged under: its group, a dash, and its file name. */
  function StagedName(d: Dependency): string
  {
    d.groupId + "-" + Name(d.file)
  }

  /** Two dependencies with the same file name but different groups are staged under different names. */
  lemma StagedNamesKeepGroupsApart(a: Dependency, b: Dependency)
    requires Name(a.file) == Name(b.file) && a.groupId != b.groupId
    ensures StagedName(a) != StagedName(b)
  {
    if |a.groupId| == |b.groupId| {
      assert StagedName(a)[..|a.groupId|] == a.groupId;
      assert StagedName(b)[..|b.groupId|] == b.groupId;
    } else {
      assert |StagedName(a)| != |StagedName(b)|;
    }
  }

  /** `BundleType.valueOf(bundles.toUpperCase())`: an exact match against the packager's constant names. */
  function BundleTypeOf(bundles: string, known: set<string>): (r: Result<string, string>)
    ensures r.Success? <==> Upper(bundles) in known
    ensures r.Success? ==> r.value == Upper(bundles)
    ensures r.Failure? ==> r.error == Upper(bundles)
  {
    var name := Upper(bundles);
    if name in known then Success(name) else Failure(name)
  }

  /** The selection ignores case: a name and its upper-cased form select the same type. */
  lemma BundleTypeIgnoresCase(bundles: string, known: set<string>)
    ensures BundleTypeOf(Upper(bundles), known) == BundleTypeOf(bundles, known)
  {
    UpperIdempotent(bundles);
  }
}
