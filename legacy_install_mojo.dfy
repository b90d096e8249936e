/**
 * The older `install` goal at the repository root: the same locate and
 * version steps as the deployer plugin, but each jar is installed by
 * invoking maven-install-plugin's `install-file` goal with a configuration
 * built on the spot. The invoked goal is foreign code; whether it throws is
 * given by the caller.
 */
module LegacyInstallMojo {
  import opened Wrappers
  import opened Errors
  import opened InstallDeployUtils


  /** A Maven plugin, by group, artifact and version. */
  datatype PluginRef = PluginRef(groupId: string, artifactId: string, version: string)

  /** One `element(name, value)` of a goal configuration; a null value is None. */
  datatype Element = Element(name: string, value: Option<string>)

  /** One `executeMojo(plugin, goal, configuration, environment)` call. */
  datatype MojoInvocation = MojoInvocation(plugin: PluginRef, goal: string, configuration: seq<Element>)

  const INSTALL_PLUGIN := PluginRef("org.apache.maven.plugins", "maven-install-plugin", "2.4")
  const INSTALL_GOAL := "install-file#javafx-install"

  /** No two elements of a configuration share a name. */
  predicate NamesDistinct(configuration: seq<Element>)
  {
    forall i, j :: 0 <= i < j < |configuration| ==> configuration[i].name != configuration[j].name
  }

  /** `File.getAbsolutePath()` on a Unix host: a relative path is resolved against the working directory. */
  function AbsolutePath(workingDir: string, path: string): (r: string)
    ensures |path| > 0 && path[0] == '/' ==> r == path
  {
    if |path| > 0 && path[0] == '/' then path else workingDir + "/" + path
  }

  /** A relative path is placed under the working directory, and the given path always ends the result. */
  lemma AbsolutePathResolves(workingDir: string, path: string)
    ensures var r := AbsolutePath(workingDir, path);
            && (!(|path| > 0 && path[0] == '/') ==> |r| > |workingDir| && r[..|workingDir|] == workingDir && r[|workingDir|] == '/')
            && |r| >= |path| && r[|r| - |path|..] == path
  {
  }

  /**
   * The configuration `install` hands to maven-install-plugin: packaging
   * "jar", a generated POM, the JavaFX group, the given artifactId and
   * version, and the jar's absolute path; nothing else.
   */
  function InstallInvocation(artifactId: string, version: Option<string>, absolutePath: string): (m: MojoInvocation)
    ensures m.plugin == PluginRef("org.apache.maven.plugins", "maven-install-plugin", "2.4")
    ensures m.goal == "install-file#javafx-install"
    ensures |m.configuration| == 6 && NamesDistinct(m.configuration)
    ensures Element("packaging", Some("jar")) in m.configuration
    ensures Element("generatePom", Some("true")) in m.configuration
    ensures Element("groupId", Some("com.sun.javafx")) in m.configuration
    ensures Element("artifactId", Some(artifactId)) in m.configuration
    ensures Element("version", version) in m.configuration
    ensures Element("file", Some(absolutePath)) in m.configuration
  {
    var configuration := [Element("packaging", Some("jar")), Element("generatePom", Some("true")),
                          Element("groupId", Some(GROUP_ID)), Element("artifactId", Some(artifactId)),
                          Element("version", version), Element("file", Some(absolutePath))];
    MojoInvocation(INSTALL_PLUGIN, INSTALL_GOAL, configuration)
  }

  /**
   * `execute`: locate javafx.properties, jfxrt.jar and ant-javafx.jar in that
   * order, read the version, then invoke the install goal for the runtime and
   * then for the ant jar; `runtimeOk` and `antOk` say whether each invoked
   * goal returns. `announced` is the banner naming the runtime's coordinate.
   */
  method Execute(workingDir: string, javaHome: string, existing: set<string>, properties: PropertiesSource,
                 runtimeOk: bool, antOk: bool)
    returns (status: Status, invocations: seq<MojoInvocation>, announced: bool)
    ensures Locate(existing, javaHome).Failure? ==> status == Failed(Locate(existing, javaHome).error) && invocations == []
    ensures ReadVersion(properties).Failure? ==> status.Failed? && invocations == []
    ensures Locate(existing, javaHome).Success? && ReadVersion(properties).Failure? ==> status == Failed(ReadVersion(properties).error)
    ensures Locate(existing, javaHome).Success? && !properties.opens ==> status == Failed(NullPointer)
    ensures invocations != [] ==>
      && Locate(existing, javaHome).Success? && ReadVersion(properties).Success?
      && invocations[0] == InstallInvocation(RUNTIME_ARTIFACT_ID, ReadVersion(properties).value,
                                             AbsolutePath(workingDir, Locate(existing, javaHome).value.runtimeJar))
    ensures Locate(existing, javaHome).Success? && ReadVersion(properties).Success? ==> invocations != []
    ensures invocations != [] && !status.Done? ==> status == Failed(InvocationFailed(INSTALL_GOAL))
    ensures |invocations| <= 2
    ensures |invocations| == 2 <==> invocations != [] && runtimeOk
    ensures |invocations| == 2 ==>
      invocations[1] == InstallInvocation(ANT_ARTIFACT_ID, ReadVersion(properties).value,
                                          AbsolutePath(workingDir, Locate(existing, javaHome).value.antJar))
    ensures status.Done? <==> |invocations| == 2 && antOk
    ensures announced <==> status.Done?
  {
    invocations, announced := [], false;
    // javafx.properties, then jfxrt.jar, then ant-javafx.jar; the first one missing aborts
    var located := Locate(existing, javaHome);
    if located.Failure? { return Failed(located.error), invocations, announced; }
    var files := located.value;

    var version := LoadJavaFxRuntimeVersion(files.propertiesFile, properties);
    if version.Failure? { return Failed(version.error), invocations, announced; }

    invocations := invocations + [InstallInvocation(RUNTIME_ARTIFACT_ID, version.value, AbsolutePath(workingDir, files.runtimeJar))];
    if !runtimeOk { return Failed(InvocationFailed(INSTALL_GOAL)), invocations, announced; }
    invocations := invocations + [InstallInvocation(ANT_ARTIFACT_ID, version.value, AbsolutePath(workingDir, files.antJar))];
    if !antOk { return Failed(InvocationFailed(INSTALL_GOAL)), invocations, announced; }
    announced := true;
    status := Done;
  }
}
