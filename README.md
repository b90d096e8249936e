# javafx-maven-plugin, modelled in Dafny

javafx-maven-plugin is a Maven plugin for JavaFX 2 applications. It has two goals:

- **install** finds the JavaFX runtime (`jfxrt.jar`), the JavaFX ant tasks (`ant-javafx.jar`) and `javafx.properties` under `JAVA_HOME`. It reads the runtime version from the properties and installs both jars into the local repository as `com.sun.javafx` artifacts.
- **package** rebuilds the project jar as a JavaFX jar with the JavaFX packager and puts it in place of the project artifact. It then copies the dependencies into a staging directory and has the packager generate the JNLP files and the native bundles. Finally it zips and attaches the JNLP output and attaches every native bundle.

The repository has two generations of each goal, and both are modelled:

- The multi-module plugin: `javafx-deployer-maven-plugin` for install and `javafx-maven-plugin` for package. Its install goal calls Maven's installer directly, and its package goal is configurable.
- The original single-module plugin under `src/`. Its install goal runs `maven-install-plugin:install-file`, and its package goal uses a fixed request.

The two copies of `InstallDeployUtils` are identical. The model cites the deployer copy; the same code is at `src/main/java/org/codeartisans/javafx/maven/InstallDeployUtils.java:17-75`.

Modules:

- `Wrappers`: Option and Result.
- `Errors`: the exceptions a goal ends with.
- `Paths`: upper-casing, file extensions, paths as sequences of names.
- `InstallDeployUtils`: finding the JavaFX files and reading the runtime version.
- `InstallMojo`: the deployer's install goal. Classes `Artifact`, `Host` (temporary POM files and an event trace) and `JavaFXInstallMojo`. Pure run functions specify each method.
- `LegacyInstallMojo`: the `install-file` invocations of the original install goal.
- `Workspace`: the build directory as a map from paths to files and directories, with the project's attachments. `FileUtils`, `File.renameTo`, `File.listFiles`, TrueZIP's `cp_rp` and `attachArtifact` become methods that update it.
- `PackageRequests`: the goal configuration and the two packager requests.
- `PackageMojo`: the package goal's steps, the spec functions of its loops, and the lemmas about them.
- `LegacyPackageMojo`: the original package goal, built from the same steps.

External engines are parameters of the model:

- The JavaFX packager and the Maven installer each get an outcome: fail, or write these files / accept the artifact.
- `javafx.properties` is represented by whether it opens and what it parses to.
- Which paths exist under `JAVA_HOME` is a set of path strings.

## Model

| member | source | states |
|---|---|---|
| InstallDeployUtils.FirstExistingIsFirst | javafx-deployer-maven-plugin/src/main/java/org/codeartisans/javafx/maven/InstallDeployUtils.java:35-52 | the search finds a candidate exactly when one exists, and finds the first existing one in search order |
| InstallDeployUtils.FindJfxFile | javafx-deployer-maven-plugin/src/main/java/org/codeartisans/javafx/maven/InstallDeployUtils.java:32-56 | a found file exists and is one of the three candidates; the lookup fails exactly when no candidate exists, with the "Unable to find JavaFX" MojoExecutionException |
| InstallDeployUtils.FindJfxFileIsFirstMatch | javafx-deployer-maven-plugin/src/main/java/org/codeartisans/javafx/maven/InstallDeployUtils.java:35-52 | the result is the first existing candidate in the order lib/, jre/lib/, ../lib/ |
| InstallDeployUtils.CandidatesDistinct | javafx-deployer-maven-plugin/src/main/java/org/codeartisans/javafx/maven/InstallDeployUtils.java:35-47 | the three candidate paths are pairwise different |
| InstallDeployUtils.LibCandidateWins | javafx-deployer-maven-plugin/src/main/java/org/codeartisans/javafx/maven/InstallDeployUtils.java:35-40 | when JAVA_HOME/lib/<file> exists (a JRE), it is chosen whatever else exists |
| InstallDeployUtils.JreLibCandidateChosen | javafx-deployer-maven-plugin/src/main/java/org/codeartisans/javafx/maven/InstallDeployUtils.java:41-46 | jre/lib/<file> (a JDK) is chosen exactly when lib/<file> is missing and it exists |
| InstallDeployUtils.ParentLibCandidateChosen | javafx-deployer-maven-plugin/src/main/java/org/codeartisans/javafx/maven/InstallDeployUtils.java:47-52 | ../lib/<file> (a JRE inside a JDK) is chosen exactly when only it exists |
| InstallDeployUtils.NotFoundMessageNamesFileAndHome | javafx-deployer-maven-plugin/src/main/java/org/codeartisans/javafx/maven/InstallDeployUtils.java:53-55 | the not-found message contains both the file name and JAVA_HOME |
| InstallDeployUtils.LoadJavaFxProperties | javafx-deployer-maven-plugin/src/main/java/org/codeartisans/javafx/maven/InstallDeployUtils.java:65-90 | as written: a stream that opened is closed exactly once, as the last step; an unreadable file ends in a NullPointerException from the finally block; a parse failure gives "Unable to load JavaFX Properties" |
| InstallDeployUtils.UnreadablePropertiesRaisesNullPointer | javafx-deployer-maven-plugin/src/main/java/org/codeartisans/javafx/maven/InstallDeployUtils.java:72-84 | a properties file that cannot be opened yields a NullPointerException instead of the MojoFailureException |
| InstallDeployUtils.LoadJavaFxPropertiesGuarded | javafx-deployer-maven-plugin/src/main/java/org/codeartisans/javafx/maven/InstallDeployUtils.java:65-90 | corrected: succeeds exactly when the file opens and parses, closes every stream it opened, and otherwise fails with "Unable to load JavaFX Properties"; it is the corrected half of a finding, and the goals keep the code as written |
| InstallDeployUtils.VersionIn | javafx-deployer-maven-plugin/src/main/java/org/codeartisans/javafx/maven/InstallDeployUtils.java:62 | the version is present exactly when the key javafx.runtime.version is, and is its value |
| InstallDeployUtils.LoadJavaFxRuntimeVersion | javafx-deployer-maven-plugin/src/main/java/org/codeartisans/javafx/maven/InstallDeployUtils.java:58-90 | as written: succeeds exactly when the file opens and parses, with the value of javafx.runtime.version, or no version when the key is absent; a file that does not open is a NullPointerException, a parse failure "Unable to load JavaFX Properties" |
| InstallDeployUtils.Locate | javafx-deployer-maven-plugin/src/main/java/org/codeartisans/javafx/maven/JavaFXInstallMojo.java:69-72 | succeeds exactly when all three lookups do, with the files they found; otherwise the error of the first failing lookup, in the order javafx.properties, jfxrt.jar, ant-javafx.jar |
| InstallMojo.JarCoordinate | javafx-deployer-maven-plugin/src/main/java/org/codeartisans/javafx/maven/JavaFXInstallMojo.java:95 | the coordinate is com.sun.javafx:<artifactId>:<version>, packaging jar, no classifier |
| InstallMojo.InstallRunInstalls | javafx-deployer-maven-plugin/src/main/java/org/codeartisans/javafx/maven/JavaFXInstallMojo.java:92-113 | one install calls the installer once, with the jar coordinate, exactly when the POM could be written |
| InstallMojo.InstallRunStatus | javafx-deployer-maven-plugin/src/main/java/org/codeartisans/javafx/maven/JavaFXInstallMojo.java:100-107 | one install returns exactly when the POM was written and the installer accepted; a rejection is "Unable to install <artifactId>" |
| InstallMojo.InstallRunCall | javafx-deployer-maven-plugin/src/main/java/org/codeartisans/javafx/maven/JavaFXInstallMojo.java:95-111 | the installer gets the file, the temporary POM as only metadata and the release flag; the POM describes the coordinate with model version 4.0.0; the POM is deleted right after the call and its writer closed |
| InstallMojo.NothingBeforeVersionIsKnown | javafx-deployer-maven-plugin/src/main/java/org/codeartisans/javafx/maven/JavaFXInstallMojo.java:68-75 | a missing JavaFX file or unreadable properties stops the goal before any temporary file is created, any POM written or anything installed, with the lookup's error, else the properties error: a NullPointerException when the file does not open |
| InstallMojo.ExecuteIsInstallBoth | javafx-deployer-maven-plugin/src/main/java/org/codeartisans/javafx/maven/JavaFXInstallMojo.java:64-90 | once the files are found and the version read, the goal is the two installs |
| InstallMojo.InstallOrder | javafx-deployer-maven-plugin/src/main/java/org/codeartisans/javafx/maven/JavaFXInstallMojo.java:78-80 | the runtime is installed before the ant jar, with the same version; a failed runtime install ends the goal without installing the ant jar |
| InstallMojo.InstallBothStatus | javafx-deployer-maven-plugin/src/main/java/org/codeartisans/javafx/maven/JavaFXInstallMojo.java:78-89 | the goal succeeds exactly when both installs do, and the runtime dependency is announced only when it succeeds |
| InstallMojo.InstallBothInstalls | javafx-deployer-maven-plugin/src/main/java/org/codeartisans/javafx/maven/JavaFXInstallMojo.java:78-89 | a successful goal installed the runtime jar and then the ant jar, and ends by announcing the runtime dependency |
| InstallMojo.InstallBothCleanup | javafx-deployer-maven-plugin/src/main/java/org/codeartisans/javafx/maven/JavaFXInstallMojo.java:92-141 | every POM given to the installer is deleted right after the call, and every POM writer is closed |
| InstallMojo.InstallRunLeftover | javafx-deployer-maven-plugin/src/main/java/org/codeartisans/javafx/maven/JavaFXInstallMojo.java:92-141 | the temporary POMs one install leaves on disk are exactly those it created and did not delete (the one whose writer or write failed), and it creates one temporary file unless `createTempFile` throws |
| InstallMojo.InstallBothLeftover | javafx-deployer-maven-plugin/src/main/java/org/codeartisans/javafx/maven/JavaFXInstallMojo.java:78-141 | the temporary POMs the two installs leave on disk are exactly those created and not deleted, and the files created are numbered consecutively from the first free number |
| InstallMojo.Artifact.AddMetadata | javafx-deployer-maven-plugin/src/main/java/org/codeartisans/javafx/maven/JavaFXInstallMojo.java:97 | the POM is appended to the artifact's metadata, the release flag kept |
| InstallMojo.Artifact.SetRelease | javafx-deployer-maven-plugin/src/main/java/org/codeartisans/javafx/maven/JavaFXInstallMojo.java:98 | sets the release flag, the metadata kept |
| InstallMojo.Host.GeneratePomFile | javafx-deployer-maven-plugin/src/main/java/org/codeartisans/javafx/maven/JavaFXInstallMojo.java:115-141 | a created temp file is written with the POM and its writer closed; a failed temp-file creation records nothing; a failed writer creation leaves the temp file and opens no writer; a failed write closes the writer and leaves the temp file; every failure is "Error writing temporary POM file: <message>" |
| InstallMojo.Host.InstallArtifact | javafx-deployer-maven-plugin/src/main/java/org/codeartisans/javafx/maven/JavaFXInstallMojo.java:102 | records the call with the artifact's coordinate, metadata and release flag, and returns whether the installer accepted |
| InstallMojo.Host.DeleteTemp | javafx-deployer-maven-plugin/src/main/java/org/codeartisans/javafx/maven/JavaFXInstallMojo.java:110 | the temp file is removed and the deletion recorded |
| InstallMojo.JavaFXInstallMojo.Install | javafx-deployer-maven-plugin/src/main/java/org/codeartisans/javafx/maven/JavaFXInstallMojo.java:92-113 | status, events, the temporary POMs left on disk and the next temporary-file number are those of the install run |
| InstallMojo.JavaFXInstallMojo.Execute | javafx-deployer-maven-plugin/src/main/java/org/codeartisans/javafx/maven/JavaFXInstallMojo.java:64-90 | status, events, the temporary POMs left on disk and the next temporary-file number are those of the specified run of the goal |
| InstallMojo.JavaFXInstallMojo.InstallRuntimeThenAnt | javafx-deployer-maven-plugin/src/main/java/org/codeartisans/javafx/maven/JavaFXInstallMojo.java:78-89 | status, events, the temporary POMs left on disk and the next temporary-file number are those of the two installs in order |
| LegacyInstallMojo.AbsolutePath | src/main/java/org/codeartisans/javafx/maven/JavaFXInstallMojo.java:83 | an absolute path is kept as it is |
| LegacyInstallMojo.AbsolutePathResolves | src/main/java/org/codeartisans/javafx/maven/JavaFXInstallMojo.java:83 | a relative path is placed under the working directory, and the result always ends with the given path |
| LegacyInstallMojo.InstallInvocation | src/main/java/org/codeartisans/javafx/maven/JavaFXInstallMojo.java:71-87 | maven-install-plugin 2.4, goal install-file#javafx-install, with exactly the six distinct elements packaging=jar, generatePom=true, groupId, artifactId, version and the absolute file path |
| LegacyInstallMojo.Execute | src/main/java/org/codeartisans/javafx/maven/JavaFXInstallMojo.java:43-69 | a lookup or properties failure invokes nothing; otherwise the runtime install is always invoked first and the ant jar only after it succeeded; a rejected invocation fails with the install goal's error; the goal succeeds and announces the dependency exactly when both invocations do |
| Paths.Upper | javafx-maven-plugin/src/main/java/org/codeartisans/javafx/maven/JavaFXPackageMojo.java:192 | upper-casing keeps the length and upper-cases each ASCII letter |
| Paths.UpperIdempotent | javafx-maven-plugin/src/main/java/org/codeartisans/javafx/maven/JavaFXPackageMojo.java:192 | an upper-cased name upper-cases to itself |
| Paths.ExtensionFollowsLastDot | javafx-maven-plugin/src/main/java/org/codeartisans/javafx/maven/JavaFXPackageMojo.java:308 | the extension is the text after the last '.', with no '.', empty when the name has no '.' |
| PackageRequests.IfNotEmpty | javafx-maven-plugin/src/main/java/org/codeartisans/javafx/maven/JavaFXPackageMojo.java:222-233 | an optional text is passed on exactly when it is not empty after trimming, and then unchanged |
| PackageRequests.IfPositive | javafx-maven-plugin/src/main/java/org/codeartisans/javafx/maven/JavaFXPackageMojo.java:234-241 | a width or height is passed on exactly when it is configured and positive |
| PackageRequests.CreateJarRequest | javafx-maven-plugin/src/main/java/org/codeartisans/javafx/maven/JavaFXPackageMojo.java:157-167 | the jar request has the main class, the preloader exactly when configured and not empty, output <build>/javafx-create-jar/<finalName>-javafx.jar, and the unpacked artifact as its only resource |
| PackageRequests.DeployResources | javafx-maven-plugin/src/main/java/org/codeartisans/javafx/maven/JavaFXPackageMojo.java:273-277 | the JavaFX jar comes first, then the dependencies directory exactly when it exists |
| PackageRequests.CollectJvmArgs | javafx-maven-plugin/src/main/java/org/codeartisans/javafx/maven/JavaFXPackageMojo.java:247-253 | the JVM arguments are added in order, none when unset |
| PackageRequests.CollectJvmProperties | javafx-maven-plugin/src/main/java/org/codeartisans/javafx/maven/JavaFXPackageMojo.java:254-260 | every JVM property is added with its value, none when unset |
| PackageRequests.CollectIcons | javafx-maven-plugin/src/main/java/org/codeartisans/javafx/maven/JavaFXPackageMojo.java:261-267 | one icon per configured icon, in order, by absolute path with no kind, size -1 and run mode ALL |
| PackageRequests.BuildDeployParams | javafx-maven-plugin/src/main/java/org/codeartisans/javafx/maven/JavaFXPackageMojo.java:211-277 | identity fields always; vendor, category, copyright and preloader exactly when not empty; width and height exactly when positive; all permissions; the JVM arguments, properties and icons; output <build>/javafx-native/<finalName>; the bundle type; the resources; the request is the one `DeployRequest` specifies for the goal |
| PackageRequests.StagedNamesKeepGroupsApart | javafx-maven-plugin/src/main/java/org/codeartisans/javafx/maven/JavaFXPackageMojo.java:202 | two dependencies with the same file name from different groups are staged under different names |
| PackageRequests.BundleTypeOf | javafx-maven-plugin/src/main/java/org/codeartisans/javafx/maven/JavaFXPackageMojo.java:192 | the bundle type is the upper-cased setting when a constant has that name; otherwise an IllegalArgumentException names it |
| PackageRequests.BundleTypeIgnoresCase | javafx-maven-plugin/src/main/java/org/codeartisans/javafx/maven/JavaFXPackageMojo.java:192 | the setting selects the same bundle type whatever its case |
| Workspace.WithDir | javafx-maven-plugin/src/main/java/org/codeartisans/javafx/maven/JavaFXPackageMojo.java:288 | after mkdir the path exists, and nothing else changed |
| Workspace.Move | javafx-maven-plugin/src/main/java/org/codeartisans/javafx/maven/JavaFXPackageMojo.java:293 | renaming puts the node at the new path and removes the old one, nothing else changed |
| Workspace.Pruned | javafx-maven-plugin/src/main/java/org/codeartisans/javafx/maven/JavaFXPackageMojo.java:178 | force-deleting removes the path and everything under it, and nothing else |
| Workspace.Workspace.Mkdir | javafx-maven-plugin/src/main/java/org/codeartisans/javafx/maven/JavaFXPackageMojo.java:288 | the build directory gains the directory; attachments unchanged |
| Workspace.Workspace.CopyFile | javafx-maven-plugin/src/main/java/org/codeartisans/javafx/maven/JavaFXPackageMojo.java:180 | the copy succeeds exactly when the source is a file and the target not a directory, and then the target holds the source's content |
| Workspace.Workspace.ForceDelete | javafx-maven-plugin/src/main/java/org/codeartisans/javafx/maven/JavaFXPackageMojo.java:178 | fails exactly when nothing is at the path; otherwise the path and everything under it is gone |
| Workspace.Workspace.Rename | javafx-maven-plugin/src/main/java/org/codeartisans/javafx/maven/JavaFXPackageMojo.java:293 | the file is moved to the new path |
| Workspace.Workspace.ArchiveInto | javafx-maven-plugin/src/main/java/org/codeartisans/javafx/maven/JavaFXPackageMojo.java:297-298 | the directory is copied into the archive, which is created or added to |
| Workspace.Workspace.Attach | javafx-maven-plugin/src/main/java/org/codeartisans/javafx/maven/JavaFXPackageMojo.java:299 | the artifact is appended to the project's attachments |
| Workspace.Workspace.Warn | javafx-maven-plugin/src/main/java/org/codeartisans/javafx/maven/JavaFXPackageMojo.java:325 | the bundle path is reported |
| Workspace.Workspace.ListFiles | javafx-maven-plugin/src/main/java/org/codeartisans/javafx/maven/JavaFXPackageMojo.java:289 | null unless the path is a directory; otherwise each entry's name exactly once |
| PackageMojo.Staged | javafx-maven-plugin/src/main/java/org/codeartisans/javafx/maven/JavaFXPackageMojo.java:199-204 | staging only adds paths, changes nothing outside the staging directory, and every staged path holds a file |
| PackageMojo.StagedCopiesEach | javafx-maven-plugin/src/main/java/org/codeartisans/javafx/maven/JavaFXPackageMojo.java:199-204 | staging succeeds when every dependency is a plain file outside the staging directory and no staged name is taken by a directory; when the staged names are distinct, each staged copy holds its dependency's content |
| PackageMojo.StagedStaysFailed | javafx-maven-plugin/src/main/java/org/codeartisans/javafx/maven/JavaFXPackageMojo.java:197-209 | the first dependency that cannot be copied fails the whole staging |
| PackageMojo.StagedUntilFailure | javafx-maven-plugin/src/main/java/org/codeartisans/javafx/maven/JavaFXPackageMojo.java:197-209 | what a staging run leaves, successful or not: the staged build directory when staging succeeds; no path outside the staging directory is added, removed or changed |
| PackageMojo.StagingStopsAtFailure | javafx-maven-plugin/src/main/java/org/codeartisans/javafx/maven/JavaFXPackageMojo.java:200-208 | a staging run that stops at a dependency leaves exactly the copies of the dependencies before it |
| PackageMojo.SweptMovesFiles | javafx-maven-plugin/src/main/java/org/codeartisans/javafx/maven/JavaFXPackageMojo.java:289-295 | every plain file of the native output directory ends up in the JNLP directory and is gone from the native output |
| PackageMojo.SweptLeavesDirectories | javafx-maven-plugin/src/main/java/org/codeartisans/javafx/maven/JavaFXPackageMojo.java:289-295 | directories of the native output, the bundles directory among them, stay where they are |
| PackageMojo.SweptKeepsOthers | javafx-maven-plugin/src/main/java/org/codeartisans/javafx/maven/JavaFXPackageMojo.java:289-295 | the sweep touches no other path |
| PackageMojo.Zipped | javafx-maven-plugin/src/main/java/org/codeartisans/javafx/maven/JavaFXPackageMojo.java:317-319 | after copying at least one entry, the archive exists as a file |
| PackageMojo.ZippedKeepsOthers | javafx-maven-plugin/src/main/java/org/codeartisans/javafx/maven/JavaFXPackageMojo.java:317-319 | copying into an archive leaves every other path as it was |
| PackageMojo.ZippedEntries | javafx-maven-plugin/src/main/java/org/codeartisans/javafx/maven/JavaFXPackageMojo.java:317-319 | a new archive holds exactly the copied directories, in order |
| PackageMojo.FileBundlesAttached | javafx-maven-plugin/src/main/java/org/codeartisans/javafx/maven/JavaFXPackageMojo.java:305-310 | every plain file in the bundles directory is attached with its extension as type and classifier |
| PackageMojo.AppBundlesZipped | javafx-maven-plugin/src/main/java/org/codeartisans/javafx/maven/JavaFXPackageMojo.java:314-319 | every .app directory is copied into <finalName>-macosx.zip under its own name |
| PackageMojo.AppBundlesAttached | javafx-maven-plugin/src/main/java/org/codeartisans/javafx/maven/JavaFXPackageMojo.java:314-320 | every listed .app directory has the macosx zip attached for it |
| PackageMojo.BundleAttachmentsSound | javafx-maven-plugin/src/main/java/org/codeartisans/javafx/maven/JavaFXPackageMojo.java:303-328 | everything attached is a plain bundle file under its extension, or the macosx zip |
| PackageMojo.UnknownBundlesWarnedOnly | javafx-maven-plugin/src/main/java/org/codeartisans/javafx/maven/JavaFXPackageMojo.java:322-326 | any other directory is reported and nothing is attached for it |
| PackageMojo.Tools.Unpack | javafx-maven-plugin/src/main/java/org/codeartisans/javafx/maven/JavaFXPackageMojo.java:143 | unpacking succeeds exactly when the artifact is a file |
| PackageMojo.Tools.PackageAsJar | javafx-maven-plugin/src/main/java/org/codeartisans/javafx/maven/JavaFXPackageMojo.java:173-174 | the request is recorded; on success the packager's output is written |
| PackageMojo.Tools.GenerateDeploymentPackages | javafx-maven-plugin/src/main/java/org/codeartisans/javafx/maven/JavaFXPackageMojo.java:283-284 | the request is recorded; on success the packager's output is written |
| PackageMojo.UnpackProjectJar | javafx-maven-plugin/src/main/java/org/codeartisans/javafx/maven/JavaFXPackageMojo.java:138-149 | the unpack directory is created; a missing artifact is "Unable to unpack project JAR" |
| PackageMojo.PreparedNodes | javafx-maven-plugin/src/main/java/org/codeartisans/javafx/maven/JavaFXPackageMojo.java:176-180 | after the replacement the project artifact holds the JavaFX jar's content, the jar stays where the packager wrote it, and no path outside the artifact changes |
| PackageMojo.UnknownBundleTypeAfterReplacement | javafx-maven-plugin/src/main/java/org/codeartisans/javafx/maven/JavaFXPackageMojo.java:138-192 | the goal fails on the bundle type exactly when unpack, packaging and replacement all succeeded and the upper-cased setting names no constant; the error names the upper-cased setting |
| PackageMojo.ArtifactKeptUntilJarBuilt | javafx-maven-plugin/src/main/java/org/codeartisans/javafx/maven/JavaFXPackageMojo.java:138-189 | the project artifact is deleted only after packageAsJar succeeded: after an unpack or packager failure every path is kept and only the unpack directory is new |
| PackageMojo.ArtifactGoneWhenCopyFails | javafx-maven-plugin/src/main/java/org/codeartisans/javafx/maven/JavaFXPackageMojo.java:176-189 | when copying the JavaFX jar over the artifact fails, the artifact is already deleted and every path outside it is as the packager left it |
| PackageMojo.CreateJavaFxJar | javafx-maven-plugin/src/main/java/org/codeartisans/javafx/maven/JavaFXPackageMojo.java:169-189 | a packager failure is "Unable to create JavaFX JAR" and changes nothing; otherwise the artifact is deleted and replaced by the JavaFX jar, or the goal fails with "Unable to attach JavaFX JAR", leaving the artifact already deleted when it was the copy that failed |
| PackageMojo.StageDependencies | javafx-maven-plugin/src/main/java/org/codeartisans/javafx/maven/JavaFXPackageMojo.java:193-209 | the staging directory holds every dependency under <groupId>-<file name>; the first failed copy is "Unable to copy dependencies to '<dir>' for packaging.", and the build directory keeps the copies made before it and nothing else changed |
| PackageMojo.SweepFiles | javafx-maven-plugin/src/main/java/org/codeartisans/javafx/maven/JavaFXPackageMojo.java:289-295 | the listed plain files are moved as the sweep specifies |
| PackageMojo.AttachJnlp | javafx-maven-plugin/src/main/java/org/codeartisans/javafx/maven/JavaFXPackageMojo.java:286-299 | the native output's files move to javafx-jnlp, which is zipped into <finalName>-jnlp.zip and attached as zip/jnlp; a missing native output directory is a NullPointerException |
| PackageMojo.BundlesDirSurvivesJnlp | javafx-maven-plugin/src/main/java/org/codeartisans/javafx/maven/JavaFXPackageMojo.java:286-303 | sweeping and zipping the JNLP files leaves the bundles directory a directory exactly when the packager left it one |
| PackageMojo.AttachBundles | javafx-maven-plugin/src/main/java/org/codeartisans/javafx/maven/JavaFXPackageMojo.java:301-328 | as written: each listed bundle is attached, zipped or reported as the bundle lemmas state; a missing bundles directory is a NullPointerException |
| PackageMojo.AttachEach | javafx-maven-plugin/src/main/java/org/codeartisans/javafx/maven/JavaFXPackageMojo.java:303-327 | over the listed names, in listing order, the build directory gains the macosx zip of the `.app` entries, and the attachments and warnings grow by those the names specify |
| PackageMojo.AttachBundle | javafx-maven-plugin/src/main/java/org/codeartisans/javafx/maven/JavaFXPackageMojo.java:305-326 | one listed entry, by what it is in the build directory: a file is attached under its extension, a `.app` directory is copied into the macosx zip under its own name and the zip attached, another directory is reported; nothing else changes |
| PackageMojo.NextBundle | javafx-maven-plugin/src/main/java/org/codeartisans/javafx/maven/JavaFXPackageMojo.java:303-327 | handling the next listed name extends the specified zip entries, attachments and warnings by exactly those of that name; copying into the zip does not change how a later name is handled |
| PackageMojo.MissingBundlesDirectoryRaisesNullPointer | javafx-maven-plugin/src/main/java/org/codeartisans/javafx/maven/JavaFXPackageMojo.java:302-303 | a packager run that leaves no bundles directory ends the goal with a NullPointerException |
| PackageMojo.AttachBundlesGuarded | javafx-maven-plugin/src/main/java/org/codeartisans/javafx/maven/JavaFXPackageMojo.java:301-328 | corrected: a missing bundles directory attaches nothing; otherwise as AttachBundles; it is the corrected half of a finding, and the goals keep the code as written |
| PackageMojo.Publish | javafx-maven-plugin/src/main/java/org/codeartisans/javafx/maven/JavaFXPackageMojo.java:279-338 | the deployment request is recorded; a packager failure is "Unable to package JavaFX Native Bundle(s)" and changes nothing; a missing native output is a NullPointerException once javafx-jnlp exists; a missing bundles directory is a NullPointerException once the JNLP zip is attached; otherwise the JNLP files are published, then each listed bundle in listing order |
| PackageMojo.PrepareJar | javafx-maven-plugin/src/main/java/org/codeartisans/javafx/maven/JavaFXPackageMojo.java:135-192 | the first error among unpack, packageAsJar, replacing the artifact and the bundle type's valueOf is the goal's error; with none, the bundle type is the upper-cased setting; the build directory is what the jar phase leaves in every case, and after a successful replacement the artifact holds the JavaFX jar, even when the bundle type then fails; the unpack and packageAsJar calls are made exactly when the artifact unpacks; nothing is attached |
| PackageMojo.JavaFXPackageMojo.Execute | javafx-maven-plugin/src/main/java/org/codeartisans/javafx/maven/JavaFXPackageMojo.java:131-339 | the jar phase's error with the build directory it leaves, else the staging error with the copies made so far, else the publishing outcome; the configured jar request and the deployment request built from the configuration and the upper-cased bundle type |
| PackageMojo.JavaFXPackageMojo.Distribute | javafx-maven-plugin/src/main/java/org/codeartisans/javafx/maven/JavaFXPackageMojo.java:193-338 | a failed copy is "Unable to copy dependencies to '<dir>' for packaging." with the copies made so far, no packager call and nothing attached; otherwise the publishing of the configured deployment request, with the dependencies directory as a resource |
| PackageMojo.PackagedSucceedsExactly | javafx-maven-plugin/src/main/java/org/codeartisans/javafx/maven/JavaFXPackageMojo.java:131-339 | a package run succeeds exactly when the jar phase raises nothing, every dependency is copied, the packager succeeds and both its output directory and the bundles directory in it exist |
| PackageMojo.PackagedCallsAndJnlpFirst | javafx-maven-plugin/src/main/java/org/codeartisans/javafx/maven/JavaFXPackageMojo.java:131-339 | a successful run unpacked the artifact, asked for the jar and then for the deployment packages, in that order, and attached the JNLP zip before any bundle |
| PackageMojo.PackagedKeepsArtifactUntilJarBuilt | javafx-maven-plugin/src/main/java/org/codeartisans/javafx/maven/JavaFXPackageMojo.java:131-189 | a run that fails at the unpack or at packageAsJar keeps every file of the build, the project artifact among them, and attaches nothing |
| LegacyPackageMojo.LegacyCreateJarRequest | src/main/java/org/codeartisans/javafx/maven/JavaFXPackageMojo.java:97-102 | the jar request never has a preloader |
| LegacyPackageMojo.LegacyDeployRequest | src/main/java/org/codeartisans/javafx/maven/JavaFXPackageMojo.java:148-165 | id, application id, name, title, description and output name are all the final name, and nothing optional is set |
| LegacyPackageMojo.LegacyJarRequestIsUnconfigured | src/main/java/org/codeartisans/javafx/maven/JavaFXPackageMojo.java:97-102 | the fixed jar request is the configurable goal's request without a preloader |
| LegacyPackageMojo.LegacyPackageMojo.Execute | src/main/java/org/codeartisans/javafx/maven/JavaFXPackageMojo.java:72-227 | the same steps, errors and build directory after each failure as the configurable goal, with the fixed jar request and the fixed deployment request for the upper-cased bundle type |
| LegacyPackageMojo.LegacyPackageMojo.Distribute | src/main/java/org/codeartisans/javafx/maven/JavaFXPackageMojo.java:127-226 | a failed copy is the staging error with the copies made so far and no packager call; otherwise the publishing of the fixed deployment request, with the dependencies directory as a resource |

## Left out

- JavaFXDeployMojo is not part of this model. Its `execute` locates the three files and reads the version as install does, logs, and then always throws UnsupportedOperationException.
- Log output is left out: `getLog()` messages, the dependency banner's text and `Log.setLogger`. The banner becomes one `DependencyAnnounced` event, and a bundle warning is recorded as the path warned about.
- `Properties.load` is not modelled; which map a properties file parses to is a parameter.
- The POM is recorded as its model; MavenXpp3Writer's XML is not modelled.
- Temporary files are numbered rather than named.
- The installer and `maven-install-plugin` are modelled as accept-or-fail outcomes.
- The artifact factory is taken to succeed, even when there is no version. Maven's `DefaultArtifact` is not part of this model.
- The JavaFX packager is not modelled. Each call's outcome is a parameter: fail, or write given files.
- Archives are recorded by which directories were copied into them, not by their bytes.
- The unpacked jar's contents are not modelled.
- The TrueZIP copies into the JNLP and macOS zips, and `TVFS.umount`, are taken to succeed. So the "Unable to attach JavaFX Native Bundle(s)" IOException path is not in the model. The unpack of the project artifact is a TrueZIP copy too; it fails, with "Unable to unpack project JAR", exactly when the artifact is not a file.
- `mainArtifactFile.delete()` right after `forceDelete` has no effect and is left out.
- Workspace.Workspace.ForceDelete: plexus `FileUtils.forceDelete` is taken to fail exactly when nothing is at the path; a deletion the file system refuses is not modelled.
- Workspace.Workspace.Rename: `File.renameTo`'s result is ignored by the source and is taken to succeed.
- Paths.Upper: `toUpperCase` is modelled for ASCII letters only, because locale rules are not.
- The packager's bundle type constants are a parameter set.
- Path normalisation and symbolic links are not modelled. The original install goal's `getAbsolutePath` resolves a relative path against the working directory, a parameter (LegacyInstallMojo.AbsolutePath). Elsewhere `getAbsolutePath` is taken to be the path as given: for icons, dependencies and the JAVA_HOME candidates, whose `..` stays as text.
- Three unchecked failures are not modelled: a null `verbose`, which both package goals declare as a `Boolean`; a project artifact without a file, for which `new TFile(null)` throws a NullPointerException rather than "Unable to unpack project JAR"; and a dependency without a file.
- The listing order of `File.listFiles` is unspecified. The model takes whatever order a listing yields, so attachments appear in listing order.
- The goals follow the code as written, including its two NullPointerExceptions: an unopenable `javafx.properties` ends install with one, and a missing bundles directory ends package with one. The corrected members in the findings stand apart and no goal uses them.
- The model follows the code where the code does something a reader might not expect:
  - The dependencies directory is added as a resource when it exists. It always exists after `mkdir`, even when empty.
  - The application description is passed on even when empty.
  - A properties file without `javafx.runtime.version` gives no version rather than an error. The deployer's install goal hands the missing version to the artifact factory, which the model takes to succeed. The original install goal passes it as a null `version` element, and the outcome of that invocation is a parameter of the model.

## Findings

| source | as written | input that shows it | evidently intended | confidence | as-written member | corrected member |
|---|---|---|---|---|---|---|
| javafx-deployer-maven-plugin/src/main/java/org/codeartisans/javafx/maven/InstallDeployUtils.java:80-89 | the finally block calls `input.close()` on a stream that is still null when `new FileInputStream` threw | a `javafx.properties` that exists but cannot be opened (no read permission) | the goal fails with "Unable to load JavaFX Properties" | high; not executed | InstallDeployUtils.UnreadablePropertiesRaisesNullPointer | InstallDeployUtils.LoadJavaFxPropertiesGuarded |
| javafx-maven-plugin/src/main/java/org/codeartisans/javafx/maven/JavaFXPackageMojo.java:302-303 | `bundlesDir.listFiles()` is iterated without a null check | a packager run that writes no `javafx-native/bundles` directory, as can be expected for the default bundle type `none` | nothing is attached when there are no bundles | medium: depends on whether the packager creates the directory for NONE; not executed | PackageMojo.MissingBundlesDirectoryRaisesNullPointer | PackageMojo.AttachBundlesGuarded |
