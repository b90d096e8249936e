/**
 * The `package` goal of the original single-module plugin: the same steps as
 * the configurable goal, with a fixed request. The JavaFX jar has no
 * preloader, and the application's id, name, title and description are all
 * the build's final name.
 */
module LegacyPackageMojo {
  import opened Wrappers
  import opened Errors
  import opened Paths
  import opened Workspace
  import opened PackageRequests
  import opened PackageMojo

  /** The JavaFX jar request: never a preloader. */
  function LegacyCreateJarRequest(verbose: bool, mainClass: string, project: Project): (r: CreateJarParams)
    ensures r.preloader == None && r.verbose == verbose && r.applicationClass == mainClass
    ensures r.outdir == CreateJarDir(project) && r.outfile == JarName(project)
    ensures r.resources == [Resource(UnpackedDir(project), "")]
  {
    CreateJarParams(verbose, mainClass, None, CreateJarDir(project), JarName(project), [Resource(UnpackedDir(project), "")])
  }

  /** The deployment request: the final name stands for every identity field, and nothing optional is set. */
  function LegacyDeployRequest(verbose: bool, mainClass: string, project: Project, bundleType: string,
                               dependenciesExist: bool): (r: DeployParams)
    ensures r.id == project.finalName && r.appId == project.finalName && r.appName == project.finalName
    ensures r.title == project.finalName && r.description == Some(project.finalName) && r.outfile == project.finalName
    ensures r.vendor == None && r.category == None && r.copyright == None && r.preloader == None
    ensures r.width == None && r.height == None && r.allPermissions == None
    ensures r.jvmArgs == [] && r.jvmProperties == map[] && r.icons == []
    ensures r.verbose == verbose && r.applicationClass == mainClass && r.version == project.version
    ensures r.outdir == NativeDir(project) && r.bundleType == bundleType
    ensures r.resources == DeployResources(project, dependenciesExist)
  {
    var name := project.finalName;
    DeployParams(verbose, mainClass, name, name, name, project.version, name, Some(name), None, None, None, None, None,
                 None, None, [], map[], [], NativeDir(project), name, bundleType, DeployResources(project, dependenciesExist))
  }

  /**
   * The legacy jar request is the configurable goal's request for a
   * configuration without a preloader class.
   */
  lemma LegacyJarRequestIsUnconfigured(cfg: Config, project: Project)
    requires IsEmpty(cfg.preloaderClass)
    ensures LegacyCreateJarRequest(cfg.verbose, cfg.mainClass, project) == CreateJarRequest(cfg, project)
  {
  }

  class LegacyPackageMojo {
    const verbose: bool
    const mainClass: string
    const bundles: string
    const project: Project
    const ws: Workspace
    const tools: Tools
    /** The names of the packager's `BundleType` constants. */
    const bundleTypes: set<string>

    constructor (verbose: bool, mainClass: string, bundles: string, project: Project, ws: Workspace, tools: Tools,
                 bundleTypes: set<string>)
      ensures this.verbose == verbose && this.mainClass == mainClass && this.bundles == bundles
      ensures this.project == project && this.ws == ws && this.tools == tools && this.bundleTypes == bundleTypes
    {
      this.verbose, this.mainClass, this.bundles := verbose, mainClass, bundles;
      this.project, this.ws, this.tools, this.bundleTypes := project, ws, tools, bundleTypes;
    }

    /** `execute()`: the configurable goal's steps, with the fixed requests. */
    method Execute(jarOutcome: EngineOutcome, nativeOutcome: EngineOutcome)
      returns (status: Status, ghost jnlpNames: seq<string>, ghost bundleNames: seq<string>)
      modifies ws, tools
      ensures Packaged(project, LegacyCreateJarRequest(verbose, mainClass, project),
                       LegacyDeployRequest(verbose, mainClass, project, Upper(bundles), true),
                       bundles, bundleTypes, jarOutcome, nativeOutcome,
                       Build(old(ws.nodes), old(ws.attached), old(ws.warnings), old(tools.calls)),
                       status, jnlpNames, bundleNames, Build(ws.nodes, ws.attached, ws.warnings, tools.calls))
    {
      jnlpNames, bundleNames := [], [];
      var bundleType;
      status, bundleType := PrepareJar(ws, tools, project, LegacyCreateJarRequest(verbose, mainClass, project), jarOutcome,
                                       bundles, bundleTypes);
      if status.Failed? {
        return;
      }
      status, jnlpNames, bundleNames := Distribute(bundleType, nativeOutcome);
    }

    /** Stage the dependencies, then publish the packages for the fixed deployment request. */
    method Distribute(bundleType: string, nativeOutcome: EngineOutcome)
      returns (status: Status, ghost jnlpNames: seq<string>, ghost bundleNames: seq<string>)
      modifies ws, tools
      ensures Distributed(project, LegacyDeployRequest(verbose, mainClass, project, bundleType, true), nativeOutcome,
                          Build(old(ws.nodes), old(ws.attached), old(ws.warnings), old(tools.calls)),
                          status, jnlpNames, bundleNames, Build(ws.nodes, ws.attached, ws.warnings, tools.calls))
    {
      jnlpNames, bundleNames := [], [];
      status := StageDependencies(ws, project);
      if status.Failed? {
        return;
      }
      assert DependenciesDir(project) in ws.nodes;
      var request := LegacyDeployRequest(verbose, mainClass, project, bundleType, DependenciesDir(project) in ws.nodes);
      status, jnlpNames, bundleNames := Publish(ws, tools, project, request, nativeOutcome);
    }
  }
}
