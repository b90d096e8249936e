/**
 * The `package` goal of javafx-maven-plugin: unpack the project jar, let the
 * JavaFX packager build a JavaFX jar that replaces the project artifact,
 * stage the dependencies, let the packager generate the deployment packages,
 * then zip and attach the JNLP output and attach every native bundle.
 * The packager and the unpacking are tools whose outcome is a parameter; the
 * goal's own decisions are modelled step by step.
 */
module PackageMojo {
  import opened Wrappers
  import opened Errors
  import opened Paths
  import opened Workspace
  import opened PackageRequests

  const UNPACK_FAILED := "Unable to unpack project JAR"
  const CREATE_JAR_FAILED := "Unable to create JavaFX JAR"
  const ATTACH_JAR_FAILED := "Unable to attach JavaFX JAR"
  const PACKAGING_FAILED := "Unable to package JavaFX Native Bundle(s)"

  /** The message when a dependency cannot be staged. */
  function StagingFailed(dir: Path): string
  {
    "Unable to copy dependencies to '" + Render(dir) + "' for packaging."
  }

  /** What a packager call does: throw a `PackagerException`, or write the given nodes. */
  datatype EngineOutcome = Fails | Writes(output: map<Path, Node>)

  /** The calls the goal makes into TrueZIP's unpacking and the JavaFX packager. */
  datatype ToolCall =
    | Unpacked(archive: Path, into: Path)
    | PackagedAsJar(jarRequest: CreateJarParams)
    | GeneratedPackages(deployRequest: DeployParams)

  /** `from + [a]` and `to + [b]` name the same path only when the directories and the names agree. */
  lemma ChildInjective(from: Path, to: Path, a: string, b: string)
    requires from + [a] == to + [b]
    ensures from == to && a == b
  {
    assert |from| == |to|;
    assert from == (from + [a])[..|from|];
    assert to == (to + [b])[..|to|];
    assert a == (from + [a])[|from|];
  }

  /** The dependencies staged so far: each copied under its staged name, in order. */
  function Staged(nodes: map<Path, Node>, dir: Path, deps: seq<Dependency>): (r: Option<map<Path, Node>>)
    ensures r.Some? ==> nodes.Keys <= r.value.Keys
    ensures r.Some? ==> forall q :: q in nodes && !IsChildOf(q, dir) ==> r.value[q] == nodes[q]
    ensures r.Some? ==> forall q :: q in r.value ==> (q in nodes && r.value[q] == nodes[q]) || r.value[q].File?
    decreases |deps|
  {
    if deps == [] then Some(nodes)
    else
      match Staged(nodes, dir, deps[..|deps| - 1])
      case None => None
      case Some(m) => StageOne(m, dir, deps[|deps| - 1])
  }

  /** One `copyFile` of a dependency into the staging directory: it needs a source file and a target that is no directory. */
  function StageOne(nodes: map<Path, Node>, dir: Path, d: Dependency): Option<map<Path, Node>>
  {
    var dst := dir + [StagedName(d)];
    if d.file in nodes && nodes[d.file].File? && !(dst in nodes && nodes[dst].Dir?) then Some(nodes[dst := nodes[d.file]])
    else None
  }

  /**
   * The build directory a staging run leaves, whether or not it succeeds:
   * the copies made before the first dependency that could not be copied.
   * Only entries of the staging directory are added or overwritten.
   */
  function StagedUntilFailure(nodes: map<Path, Node>, dir: Path, deps: seq<Dependency>): (r: map<Path, Node>)
    ensures Staged(nodes, dir, deps).Some? ==> r == Staged(nodes, dir, deps).value
    ensures forall q :: !IsChildOf(q, dir) ==> (q in r <==> q in nodes) && (q in nodes ==> r[q] == nodes[q])
    decreases |deps|
  {
    if deps == [] then nodes
    else
      var init := deps[..|deps| - 1];
      match Staged(nodes, dir, init)
      case None => StagedUntilFailure(nodes, dir, init)
      case Some(m) =>
        assert m == StagedUntilFailure(nodes, dir, init);
        match StageOne(m, dir, deps[|deps| - 1])
        case Some(next) => next
        case None => m
  }

  /** A staging run that stops at dependency `k` leaves exactly the copies of the dependencies before it. */
  lemma {:induction false} StagingStopsAtFailure(nodes: map<Path, Node>, dir: Path, deps: seq<Dependency>, k: nat)
    requires k < |deps| && Staged(nodes, dir, deps[..k]).Some? && Staged(nodes, dir, deps[..k + 1]).None?
    ensures StagedUntilFailure(nodes, dir, deps) == Staged(nodes, dir, deps[..k]).value
    decreases |deps|
  {
    var init := deps[..|deps| - 1];
    if k + 1 == |deps| {
      assert deps[..k] == init && deps[..k + 1] == deps;
    } else {
      assert init[..k] == deps[..k] && init[..k + 1] == deps[..k + 1];
      StagedStaysFailed(nodes, dir, init, k + 1);
      StagingStopsAtFailure(nodes, dir, init, k);
    }
  }

  /** The native output directory after the sweep: each plain file among `names` moved from `from` to `to`. */
  function Swept(nodes: map<Path, Node>, from: Path, to: Path, names: seq<string>): map<Path, Node>
    decreases |names|
  {
    if names == [] then nodes
    else
      var m := Swept(nodes, from, to, names[..|names| - 1]);
      var n := names[|names| - 1];
      if from + [n] in m && m[from + [n]].File? then Move(m, from + [n], to + [n]) else m
  }

  /** The sweep leaves every path alone that is not one of the swept names under `from` or `to`. */
  lemma {:induction false} SweptKeepsOthers(nodes: map<Path, Node>, from: Path, to: Path, names: seq<string>, q: Path)
    requires forall n :: n in names ==> q != from + [n] && q != to + [n]
    ensures q in Swept(nodes, from, to, names) <==> q in nodes
    ensures q in nodes ==> Swept(nodes, from, to, names)[q] == nodes[q]
    decreases |names|
  {
    if names != [] {
      SweptKeepsOthers(nodes, from, to, names[..|names| - 1], q);
    }
  }

  /** Every plain file directly under `from` whose name is listed ends up under `to`, and is gone from `from`. */
  lemma {:induction false} SweptMovesFiles(nodes: map<Path, Node>, from: Path, to: Path, names: seq<string>, n: string)
    requires from != to && Distinct(names) && n in names
    requires from + [n] in nodes && nodes[from + [n]].File?
    ensures from + [n] !in Swept(nodes, from, to, names)
    ensures to + [n] in Swept(nodes, from, to, names)
    ensures Swept(nodes, from, to, names)[to + [n]] == nodes[from + [n]]
    decreases |names|
  {
    var init := names[..|names| - 1];
    var last := names[|names| - 1];
    var m := Swept(nodes, from, to, init);
    if n == last {
      forall k | k in init
        ensures from + [n] != from + [k] && from + [n] != to + [k]
      {
        var i :| 0 <= i < |init| && init[i] == k;
        assert names[i] == k;
        if from + [n] == to + [k] {
          ChildInjective(from, to, n, k);
        }
        if from + [n] == from + [k] {
          ChildInjective(from, from, n, k);
        }
      }
      SweptKeepsOthers(nodes, from, to, init, from + [n]);
      if from + [n] == to + [n] {
        ChildInjective(from, to, n, n);
      }
    } else {
      assert n in init;
      var i :| 0 <= i < |init| && init[i] == n;
      assert names[i] == n;
      SweptMovesFiles(nodes, from, to, init, n);
      if from + [last] == to + [n] {
        ChildInjective(from, to, last, n);
      }
      if from + [n] == from + [last] {
        ChildInjective(from, from, n, last);
      }
      if to + [n] == to + [last] {
        ChildInjective(to, to, n, last);
      }
    }
  }

  /** A directory directly under `from` stays where it is. */
  lemma SweptLeavesDirectories(nodes: map<Path, Node>, from: Path, to: Path, names: seq<string>, n: string)
    requires from != to && Distinct(names)
    requires from + [n] in nodes && nodes[from + [n]].Dir?
    ensures from + [n] in Swept(nodes, from, to, names) && Swept(nodes, from, to, names)[from + [n]] == Dir
    decreases |names|
  {
    if names != [] {
      var init := names[..|names| - 1];
      var last := names[|names| - 1];
      SweptLeavesDirectories(nodes, from, to, init, n);
      if from + [last] == from + [n] {
        ChildInjective(from, from, last, n);
      }
      if to + [last] == from + [n] {
        ChildInjective(to, from, last, n);
      }
    }
  }

  /** What the goal does with one entry of the bundles directory. */
  datatype BundleAction = AttachFile(ext: string) | ZipApp | WarnUnknown | Skip

  function ActionFor(nodes: map<Path, Node>, bundlesDir: Path, n: string): BundleAction
  {
    var p := bundlesDir + [n];
    if p in nodes && nodes[p].File? then AttachFile(Extension(n))
    else if p in nodes && nodes[p].Dir? then (if EndsWith(n, ".app") then ZipApp else WarnUnknown)
    else Skip
  }

  /** The attachment one action makes: a plain file under its extension, a `.app` directory as the macosx zip. */
  function AttachmentsFor(action: BundleAction, p: Path, macZip: Path): seq<Attachment>
  {
    match action
    case AttachFile(ext) => [Attachment(ext, ext, p)]
    case ZipApp => [Attachment("zip", "macosx", macZip)]
    case _ => []
  }

  /** The attachments made for `names`, in listing order. */
  function BundleAttachments(nodes: map<Path, Node>, bundlesDir: Path, names: seq<string>, macZip: Path): seq<Attachment>
    decreases |names|
  {
    if names == [] then []
    else
      var n := names[|names| - 1];
      BundleAttachments(nodes, bundlesDir, names[..|names| - 1], macZip)
      + AttachmentsFor(ActionFor(nodes, bundlesDir, n), bundlesDir + [n], macZip)
  }

  /** The directories reported as unknown bundles. */
  function BundleWarnings(nodes: map<Path, Node>, bundlesDir: Path, names: seq<string>): seq<Path>
    decreases |names|
  {
    if names == [] then []
    else
      var n := names[|names| - 1];
      BundleWarnings(nodes, bundlesDir, names[..|names| - 1])
      + (if ActionFor(nodes, bundlesDir, n) == WarnUnknown then [bundlesDir + [n]] else [])
  }

  /** The `.app` directories copied into the macosx zip, each under its own name. */
  function AppEntries(nodes: map<Path, Node>, bundlesDir: Path, names: seq<string>): seq<ArchiveEntry>
    decreases |names|
  {
    if names == [] then []
    else
      var n := names[|names| - 1];
      AppEntries(nodes, bundlesDir, names[..|names| - 1])
      + (if ActionFor(nodes, bundlesDir, n) == ZipApp then [ArchiveEntry(bundlesDir + [n], Some(n))] else [])
  }

  /** The filesystem after copying each of `entries` into the archive at `zip`, one `cp_rp` at a time. */
  function Zipped(nodes: map<Path, Node>, zip: Path, entries: seq<ArchiveEntry>): (r: map<Path, Node>)
    ensures entries != [] ==> zip in r && r[zip].File? && r[zip].content.Archive?
    decreases |entries|
  {
    if entries == [] then nodes
    else
      var m := Zipped(nodes, zip, entries[..|entries| - 1]);
      m[zip := File(ArchiveWith(m, zip, entries[|entries| - 1]))]
  }

  /** Copying into the archive at `zip` leaves every other path as it was. */
  lemma {:induction false} ZippedKeepsOthers(nodes: map<Path, Node>, zip: Path, entries: seq<ArchiveEntry>, q: Path)
    requires q != zip
    ensures q in Zipped(nodes, zip, entries) <==> q in nodes
    ensures q in nodes ==> Zipped(nodes, zip, entries)[q] == nodes[q]
    decreases |entries|
  {
    if entries != [] {
      ZippedKeepsOthers(nodes, zip, entries[..|entries| - 1], q);
    }
  }

  /** Copying into a fresh archive leaves exactly the copied entries in it, in order. */
  lemma {:induction false} ZippedEntries(nodes: map<Path, Node>, zip: Path, entries: seq<ArchiveEntry>)
    requires entries != [] && zip !in nodes
    ensures Zipped(nodes, zip, entries)[zip] == File(Archive(entries))
    decreases |entries|
  {
    var init := entries[..|entries| - 1];
    if init != [] {
      ZippedEntries(nodes, zip, init);
      assert init + [entries[|entries| - 1]] == entries;
    }
  }

  /** Each listed plain file in the bundles directory is attached, with its extension as type and classifier. */
  lemma {:induction false} FileBundlesAttached(nodes: map<Path, Node>, bundlesDir: Path, names: seq<string>, macZip: Path,
                                               n: string)
    requires n in names && bundlesDir + [n] in nodes && nodes[bundlesDir + [n]].File?
    ensures Attachment(Extension(n), Extension(n), bundlesDir + [n]) in BundleAttachments(nodes, bundlesDir, names, macZip)
    decreases |names|
  {
    if n != names[|names| - 1] {
      FileBundlesAttached(nodes, bundlesDir, names[..|names| - 1], macZip, n);
    }
  }

  /** Each listed `.app` directory is copied into the macosx zip under its own name. */
  lemma {:induction false} AppBundlesZipped(nodes: map<Path, Node>, bundlesDir: Path, names: seq<string>, n: string)
    requires n in names && bundlesDir + [n] in nodes && nodes[bundlesDir + [n]].Dir? && EndsWith(n, ".app")
    ensures ArchiveEntry(bundlesDir + [n], Some(n)) in AppEntries(nodes, bundlesDir, names)
    decreases |names|
  {
    if n != names[|names| - 1] {
      AppBundlesZipped(nodes, bundlesDir, names[..|names| - 1], n);
    }
  }

  /** Each listed `.app` directory has the macosx zip attached for it. */
  lemma {:induction false} AppBundlesAttached(nodes: map<Path, Node>, bundlesDir: Path, names: seq<string>, macZip: Path,
                                              n: string)
    requires n in names && bundlesDir + [n] in nodes && nodes[bundlesDir + [n]].Dir? && EndsWith(n, ".app")
    ensures Attachment("zip", "macosx", macZip) in BundleAttachments(nodes, bundlesDir, names, macZip)
    decreases |names|
  {
    if n != names[|names| - 1] {
      AppBundlesAttached(nodes, bundlesDir, names[..|names| - 1], macZip, n);
    }
  }

  /**
   * Every attachment is a plain file of the bundles directory under its own
   * extension, or the macosx zip made for a listed `.app` directory.
   */
  lemma {:induction false} BundleAttachmentsSound(nodes: map<Path, Node>, bundlesDir: Path, names: seq<string>,
                                                  macZip: Path, a: Attachment)
    requires a in BundleAttachments(nodes, bundlesDir, names, macZip)
    ensures || (a == Attachment("zip", "macosx", macZip)
                && exists n :: n in names && bundlesDir + [n] in nodes && nodes[bundlesDir + [n]].Dir? && EndsWith(n, ".app"))
            || exists n :: n in names && a == Attachment(Extension(n), Extension(n), bundlesDir + [n])
                           && bundlesDir + [n] in nodes && nodes[bundlesDir + [n]].File?
    decreases |names|
  {
    var init := names[..|names| - 1];
    var n := names[|names| - 1];
    if a in BundleAttachments(nodes, bundlesDir, init, macZip) {
      BundleAttachmentsSound(nodes, bundlesDir, init, macZip, a);
      assert forall k :: k in init ==> k in names;
    }
  }

  /** A directory that is not a `.app` bundle is only reported: nothing is attached for it. */
  lemma {:induction false} UnknownBundlesWarnedOnly(nodes: map<Path, Node>, bundlesDir: Path, names: seq<string>,
                                                    macZip: Path, n: string)
    requires Distinct(names) && n in names
    requires bundlesDir + [n] in nodes && nodes[bundlesDir + [n]].Dir? && !EndsWith(n, ".app")
    requires macZip != bundlesDir + [n]
    ensures bundlesDir + [n] in BundleWarnings(nodes, bundlesDir, names)
    ensures forall a :: a in BundleAttachments(nodes, bundlesDir, names, macZip) ==> a.file != bundlesDir + [n]
    decreases |names|
  {
    var init := names[..|names| - 1];
    var last := names[|names| - 1];
    if n != last {
      UnknownBundlesWarnedOnly(nodes, bundlesDir, init, macZip, n);
      if bundlesDir + [last] == bundlesDir + [n] {
        ChildInjective(bundlesDir, bundlesDir, last, n);
      }
    } else {
      forall a | a in BundleAttachments(nodes, bundlesDir, init, macZip)
        ensures a.file != bundlesDir + [n]
      {
        BundleAttachmentsSound(nodes, bundlesDir, init, macZip, a);
      }
    }
  }

  /**
   * Staging succeeds when every dependency is a plain file outside the
   * staging directory and no staged name is taken by a directory; with
   * distinct staged names each copy then holds its dependency's content.
   */
  lemma {:induction false} StagedCopiesEach(nodes: map<Path, Node>, dir: Path, deps: seq<Dependency>)
    requires forall d :: d in deps ==> d.file in nodes && nodes[d.file].File? && !IsChildOf(d.file, dir)
    requires forall d :: d in deps ==> !(dir + [StagedName(d)] in nodes && nodes[dir + [StagedName(d)]].Dir?)
    requires forall i, j :: 0 <= i < j < |deps| ==> StagedName(deps[i]) != StagedName(deps[j])
    ensures Staged(nodes, dir, deps).Some?
    ensures forall i :: 0 <= i < |deps| ==>
              (dir + [StagedName(deps[i])] in Staged(nodes, dir, deps).value
               && Staged(nodes, dir, deps).value[dir + [StagedName(deps[i])]] == nodes[deps[i].file])
    decreases |deps|
  {
    if deps != [] {
      var init := deps[..|deps| - 1];
      var d := deps[|deps| - 1];
      var dst := dir + [StagedName(d)];
      assert forall k :: k in init ==> k in deps;
      StagedCopiesEach(nodes, dir, init);
      var m := Staged(nodes, dir, init).value;
      assert d in deps;
      assert m[d.file] == nodes[d.file];
      assert StageOne(m, dir, d) == Some(m[dst := m[d.file]]);
      var r := m[dst := m[d.file]];
      forall i | 0 <= i < |deps|
        ensures dir + [StagedName(deps[i])] in r && r[dir + [StagedName(deps[i])]] == nodes[deps[i].file]
      {
        if i < |init| {
          assert deps[i] == init[i];
          if dir + [StagedName(deps[i])] == dst {
            ChildInjective(dir, dir, StagedName(deps[i]), StagedName(d));
          }
        }
      }
    }
  }

  /** The state of a build the goal acts on: the files, the attached artifacts, the logged warnings and the tool calls. */
  datatype Build = Build(nodes: map<Path, Node>, attached: seq<Attachment>, warnings: seq<Path>, calls: seq<ToolCall>)

  /** The project artifact is a file once the unpack directory exists, so TrueZIP can unpack it. */
  predicate Unpacks(nodes: map<Path, Node>, project: Project)
  {
    var unpacked := WithDir(nodes, UnpackedDir(project));
    project.artifactFile in unpacked && unpacked[project.artifactFile].File?
  }

  /** Both the delete of the project artifact and the copy of the JavaFX jar over it succeed in `built`. */
  predicate JarReplaces(built: map<Path, Node>, project: Project)
  {
    && project.artifactFile in built && JarPath(project) in built && built[JarPath(project)].File?
    && !Under(JarPath(project), project.artifactFile)
  }

  /**
   * The error that ends the jar phase, if any: the unpack, the packager's
   * `packageAsJar`, the replacement of the artifact and the bundle type's
   * `valueOf`, tried in that order.
   */
  function PrepareError(nodes: map<Path, Node>, project: Project, jarOutcome: EngineOutcome, bundles: string,
                        bundleTypes: set<string>): Option<Failure>
  {
    if !Unpacks(nodes, project) then Some(MojoExecution(UNPACK_FAILED, IOFailure))
    else if jarOutcome.Fails? then Some(MojoExecution(CREATE_JAR_FAILED, PackagerFailure))
    else if !JarReplaces(WithDir(nodes, UnpackedDir(project)) + jarOutcome.output, project) then
      Some(MojoExecution(ATTACH_JAR_FAILED, IOFailure))
    else
      match BundleTypeOf(bundles, bundleTypes)
      case Failure(name) => Some(IllegalArgument(name))
      case Success(_) => None
  }

  /** The build directory once the project artifact holds the JavaFX jar; the jar itself stays where the packager wrote it. */
  function PreparedNodes(nodes: map<Path, Node>, project: Project, jarOutcome: EngineOutcome): (r: map<Path, Node>)
    requires Unpacks(nodes, project) && jarOutcome.Writes?
    requires JarReplaces(WithDir(nodes, UnpackedDir(project)) + jarOutcome.output, project)
    ensures var built := WithDir(nodes, UnpackedDir(project)) + jarOutcome.output;
            && project.artifactFile in r && r[project.artifactFile] == built[JarPath(project)]
            && JarPath(project) in r && r[JarPath(project)] == built[JarPath(project)]
            && forall q :: q in built && !Under(q, project.artifactFile) ==> q in r && r[q] == built[q]
  {
    Replaced(WithDir(nodes, UnpackedDir(project)) + jarOutcome.output, project.artifactFile, JarPath(project))
  }

  /**
   * The build directory at the end of the jar phase, whatever its outcome:
   * after an unpack or packager failure only the unpack directory is new; a
   * failed delete leaves the packager's output; a failed copy comes after
   * the artifact was deleted.
   */
  function JarPhaseNodes(nodes: map<Path, Node>, project: Project, jarOutcome: EngineOutcome): map<Path, Node>
  {
    var unpacked := WithDir(nodes, UnpackedDir(project));
    if !Unpacks(nodes, project) || jarOutcome.Fails? then unpacked
    else
      var built := unpacked + jarOutcome.output;
      if JarReplaces(built, project) then PreparedNodes(nodes, project, jarOutcome)
      else if project.artifactFile in built then Pruned(built, project.artifactFile)
      else built
  }

  /**
   * The project artifact is deleted only after the packager built the
   * JavaFX jar: when the unpack or `packageAsJar` fails, every path is kept
   * and only the unpack directory is added.
   */
  lemma ArtifactKeptUntilJarBuilt(nodes: map<Path, Node>, project: Project, jarOutcome: EngineOutcome, bundles: string,
                                  bundleTypes: set<string>)
    requires || PrepareError(nodes, project, jarOutcome, bundles, bundleTypes) == Some(MojoExecution(UNPACK_FAILED, IOFailure))
             || PrepareError(nodes, project, jarOutcome, bundles, bundleTypes) == Some(MojoExecution(CREATE_JAR_FAILED, PackagerFailure))
    ensures forall q :: q in nodes ==> (q in JarPhaseNodes(nodes, project, jarOutcome)
                                       && JarPhaseNodes(nodes, project, jarOutcome)[q] == nodes[q])
    ensures forall q :: q in JarPhaseNodes(nodes, project, jarOutcome) ==> q in nodes || q == UnpackedDir(project)
  {
    assert UNPACK_FAILED[10] != ATTACH_JAR_FAILED[10] && CREATE_JAR_FAILED[10] != ATTACH_JAR_FAILED[10];
  }

  /**
   * When copying the JavaFX jar over the project artifact fails, the
   * artifact was already deleted: no project artifact is left, and every
   * path outside it is as the packager left it.
   */
  lemma ArtifactGoneWhenCopyFails(nodes: map<Path, Node>, project: Project, jarOutcome: EngineOutcome, bundles: string,
                                  bundleTypes: set<string>)
    requires PrepareError(nodes, project, jarOutcome, bundles, bundleTypes) == Some(MojoExecution(ATTACH_JAR_FAILED, IOFailure))
    ensures jarOutcome.Writes?
    ensures project.artifactFile !in JarPhaseNodes(nodes, project, jarOutcome)
    ensures var built := WithDir(nodes, UnpackedDir(project)) + jarOutcome.output;
            forall q :: q in built && !Under(q, project.artifactFile) ==>
              q in JarPhaseNodes(nodes, project, jarOutcome) && JarPhaseNodes(nodes, project, jarOutcome)[q] == built[q]
  {
    assert Unpacks(nodes, project) by {
      assert UNPACK_FAILED[10] != ATTACH_JAR_FAILED[10];
    }
  }

  /** An unknown bundle type is reported only after the project artifact was replaced, and it names the upper-cased setting. */
  lemma UnknownBundleTypeAfterReplacement(nodes: map<Path, Node>, project: Project, jarOutcome: EngineOutcome,
                                          bundles: string, bundleTypes: set<string>)
    ensures PrepareError(nodes, project, jarOutcome, bundles, bundleTypes).Some?
            && PrepareError(nodes, project, jarOutcome, bundles, bundleTypes).value.IllegalArgument?
        <==> Unpacks(nodes, project) && jarOutcome.Writes?
             && JarReplaces(WithDir(nodes, UnpackedDir(project)) + jarOutcome.output, project)
             && Upper(bundles) !in bundleTypes
    ensures PrepareError(nodes, project, jarOutcome, bundles, bundleTypes) == Some(IllegalArgument(Upper(bundles)))
        <==> Unpacks(nodes, project) && jarOutcome.Writes?
             && JarReplaces(WithDir(nodes, UnpackedDir(project)) + jarOutcome.output, project)
             && Upper(bundles) !in bundleTypes
  {
  }

  /** The build directory once the native output's plain files are swept into javafx-jnlp and that directory is zipped. */
  function JnlpPublished(nodes: map<Path, Node>, project: Project, names: seq<string>): map<Path, Node>
  {
    Zipped(Swept(WithDir(nodes, JnlpDir(project)), NativeDir(project), JnlpDir(project), names),
           JnlpZip(project), [ArchiveEntry(JnlpDir(project), None)])
  }

  /** The native output and JNLP directories are two different directories, neither of them the bundles directory. */
  lemma OutputDirsDiffer(project: Project)
    ensures NativeDir(project) != JnlpDir(project)
    ensures BundlesDir(project) != JnlpDir(project) && BundlesDir(project) != JnlpZip(project)
  {
    assert NativeDir(project)[|project.buildDir|] != JnlpDir(project)[|project.buildDir|];
    assert |BundlesDir(project)| != |JnlpDir(project)| && |BundlesDir(project)| != |JnlpZip(project)|;
  }

  /** Sweeping and zipping the JNLP files keeps the bundles directory a directory, and creates none. */
  lemma BundlesDirSurvivesJnlp(nodes: map<Path, Node>, project: Project, names: seq<string>)
    requires IsListing(WithDir(nodes, JnlpDir(project)), NativeDir(project), names)
    ensures IsDir(JnlpPublished(nodes, project, names), BundlesDir(project)) <==> IsDir(nodes, BundlesDir(project))
  {
    OutputDirsDiffer(project);
    var native, jnlpDir, bundles := NativeDir(project), JnlpDir(project), BundlesDir(project);
    var prepared := WithDir(nodes, jnlpDir);
    var swept := Swept(prepared, native, jnlpDir, names);
    ZippedKeepsOthers(swept, JnlpZip(project), [ArchiveEntry(jnlpDir, None)], bundles);
    assert (bundles in prepared <==> bundles in nodes) && (bundles in nodes ==> prepared[bundles] == nodes[bundles]);
    if bundles in prepared {
      assert "bundles" in names;
      if prepared[bundles].Dir? {
        SweptLeavesDirectories(prepared, native, jnlpDir, names, "bundles");
      } else {
        SweptMovesFiles(prepared, native, jnlpDir, names, "bundles");
      }
    } else {
      forall n | n in names
        ensures bundles != native + [n] && bundles != jnlpDir + [n]
      {
        if bundles == native + [n] {
          ChildInjective(native, native, "bundles", n);
        }
        if bundles == jnlpDir + [n] {
          ChildInjective(native, jnlpDir, "bundles", n);
        }
      }
      SweptKeepsOthers(prepared, native, jnlpDir, names, bundles);
    }
  }

  /**
   * Specification of the packager's `generateDeploymentPackages` and what
   * follows it: the JNLP files swept and zipped, then the bundles directory
   * attached. A missing native output or bundles directory is listed as
   * null, and iterating over it is a NullPointerException.
   */
  ghost predicate Published(project: Project, request: DeployParams, nativeOutcome: EngineOutcome, before: Build,
                            status: Status, jnlpNames: seq<string>, bundleNames: seq<string>, after: Build)
  {
    && after.calls == before.calls + [GeneratedPackages(request)]
    && match nativeOutcome
       case Fails =>
         && status == Failed(MojoExecution(PACKAGING_FAILED, PackagerFailure))
         && after.nodes == before.nodes && after.attached == before.attached && after.warnings == before.warnings
       case Writes(output) =>
         var generated := before.nodes + output;
         var jnlp := JnlpPublished(generated, project, jnlpNames);
         if !IsDir(generated, NativeDir(project)) then
           && status == Failed(NullPointer) && after.nodes == WithDir(generated, JnlpDir(project))
           && after.attached == before.attached && after.warnings == before.warnings
         else
           && IsListing(WithDir(generated, JnlpDir(project)), NativeDir(project), jnlpNames)
           && if !IsDir(generated, BundlesDir(project)) then
                && status == Failed(NullPointer) && after.nodes == jnlp
                && after.attached == before.attached + [Attachment("zip", "jnlp", JnlpZip(project))]
                && after.warnings == before.warnings
              else
                && status == Done
                && IsListing(jnlp, BundlesDir(project), bundleNames)
                && after.nodes == Zipped(jnlp, MacosxZip(project), AppEntries(jnlp, BundlesDir(project), bundleNames))
                && after.attached == before.attached + [Attachment("zip", "jnlp", JnlpZip(project))]
                                     + BundleAttachments(jnlp, BundlesDir(project), bundleNames, MacosxZip(project))
                && after.warnings == before.warnings + BundleWarnings(jnlp, BundlesDir(project), bundleNames)
  }

  /** Specification of staging the dependencies and then publishing `request`. */
  ghost predicate Distributed(project: Project, request: DeployParams, nativeOutcome: EngineOutcome, before: Build,
                              status: Status, jnlpNames: seq<string>, bundleNames: seq<string>, after: Build)
  {
    match Staged(WithDir(before.nodes, DependenciesDir(project)), DependenciesDir(project), project.dependencies)
    case None =>
      && status == Failed(MojoExecution(StagingFailed(DependenciesDir(project)), IOFailure))
      && after.nodes == StagedUntilFailure(WithDir(before.nodes, DependenciesDir(project)), DependenciesDir(project),
                                           project.dependencies)
      && after.attached == before.attached && after.warnings == before.warnings && after.calls == before.calls
    case Some(staged) =>
      Published(project, request, nativeOutcome, before.(nodes := staged), status, jnlpNames, bundleNames, after)
  }

  /**
   * Specification of a whole `package` run with the given jar and deployment
   * requests: the jar phase, then the staging, then the publishing; the first
   * failure ends it.
   */
  ghost predicate Packaged(project: Project, jarRequest: CreateJarParams, deployRequest: DeployParams, bundles: string,
                           bundleTypes: set<string>, jarOutcome: EngineOutcome, nativeOutcome: EngineOutcome,
                           before: Build, status: Status, jnlpNames: seq<string>, bundleNames: seq<string>, after: Build)
  {
    var jarCalls := before.calls + if Unpacks(before.nodes, project)
                                   then [Unpacked(project.artifactFile, UnpackedDir(project)), PackagedAsJar(jarRequest)]
                                   else [];
    match PrepareError(before.nodes, project, jarOutcome, bundles, bundleTypes)
    case Some(e) =>
      && status == Failed(e) && after.attached == before.attached && after.warnings == before.warnings
      && after.calls == jarCalls
      && after.nodes == JarPhaseNodes(before.nodes, project, jarOutcome)
    case None =>
      Distributed(project, deployRequest, nativeOutcome,
                  Build(PreparedNodes(before.nodes, project, jarOutcome), before.attached, before.warnings, jarCalls),
                  status, jnlpNames, bundleNames, after)
  }

  /** A `package` run succeeds exactly when every step does: the jar phase, every dependency copy, the packager, and both directory listings. */
  lemma PackagedSucceedsExactly(project: Project, jarRequest: CreateJarParams, deployRequest: DeployParams,
                                bundles: string, bundleTypes: set<string>, jarOutcome: EngineOutcome,
                                nativeOutcome: EngineOutcome, before: Build, status: Status, jnlpNames: seq<string>,
                                bundleNames: seq<string>, after: Build)
    requires Packaged(project, jarRequest, deployRequest, bundles, bundleTypes, jarOutcome, nativeOutcome,
                      before, status, jnlpNames, bundleNames, after)
    ensures status == Done <==>
      && PrepareError(before.nodes, project, jarOutcome, bundles, bundleTypes).None?
      && var staged := Staged(WithDir(PreparedNodes(before.nodes, project, jarOutcome), DependenciesDir(project)),
                              DependenciesDir(project), project.dependencies);
         && staged.Some? && nativeOutcome.Writes?
         && IsDir(staged.value + nativeOutcome.output, NativeDir(project))
         && IsDir(staged.value + nativeOutcome.output, BundlesDir(project))
  {
  }

  /**
   * A `package` run that fails at the unpack or at `packageAsJar` keeps every
   * file of the build, the project artifact among them, and attaches nothing.
   */
  lemma PackagedKeepsArtifactUntilJarBuilt(project: Project, jarRequest: CreateJarParams, deployRequest: DeployParams,
                                           bundles: string, bundleTypes: set<string>, jarOutcome: EngineOutcome,
                                           nativeOutcome: EngineOutcome, before: Build, status: Status,
                                           jnlpNames: seq<string>, bundleNames: seq<string>, after: Build)
    requires Packaged(project, jarRequest, deployRequest, bundles, bundleTypes, jarOutcome, nativeOutcome,
                      before, status, jnlpNames, bundleNames, after)
    requires || status == Failed(MojoExecution(UNPACK_FAILED, IOFailure))
             || status == Failed(MojoExecution(CREATE_JAR_FAILED, PackagerFailure))
    ensures forall q :: q in before.nodes ==> q in after.nodes && after.nodes[q] == before.nodes[q]
    ensures after.attached == before.attached && after.warnings == before.warnings
  {
    if PrepareError(before.nodes, project, jarOutcome, bundles, bundleTypes).None? {
      assert false;
    }
    ArtifactKeptUntilJarBuilt(before.nodes, project, jarOutcome, bundles, bundleTypes);
  }

  /** A successful `package` run made the three tool calls in order, and attached the JNLP zip before any bundle. */
  lemma PackagedCallsAndJnlpFirst(project: Project, jarRequest: CreateJarParams, deployRequest: DeployParams,
                                  bundles: string, bundleTypes: set<string>, jarOutcome: EngineOutcome,
                                  nativeOutcome: EngineOutcome, before: Build, status: Status, jnlpNames: seq<string>,
                                  bundleNames: seq<string>, after: Build)
    requires Packaged(project, jarRequest, deployRequest, bundles, bundleTypes, jarOutcome, nativeOutcome,
                      before, status, jnlpNames, bundleNames, after)
    requires status == Done
    ensures after.calls == before.calls + [Unpacked(project.artifactFile, UnpackedDir(project)), PackagedAsJar(jarRequest),
                                           GeneratedPackages(deployRequest)]
    ensures |after.attached| > |before.attached| && after.attached[|before.attached|] == Attachment("zip", "jnlp", JnlpZip(project))
  {
  }

  /** TrueZIP's unpacking and the JavaFX packager, with the calls the goal made into them. */
  class Tools {
    var calls: seq<ToolCall>

    constructor ()
      ensures calls == []
    {
      calls := [];
    }

    /** `new TFile(archive).cp_rp(into)`: throws an IOException unless `archive` is a file. */
    method Unpack(ws: Workspace, archive: Path, into: Path) returns (ok: bool)
      modifies this
      ensures ok <==> archive in ws.nodes && ws.nodes[archive].File?
      ensures calls == old(calls) + if ok then [Unpacked(archive, into)] else []
    {
      ok := archive in ws.nodes && ws.nodes[archive].File?;
      if ok {
        calls := calls + [Unpacked(archive, into)];
      }
    }

    /** `PackagerLib.packageAsJar`. */
    method PackageAsJar(ws: Workspace, request: CreateJarParams, outcome: EngineOutcome) returns (ok: bool)
      modifies this, ws
      ensures calls == old(calls) + [PackagedAsJar(request)]
      ensures ok <==> outcome.Writes?
      ensures ws.nodes == if ok then old(ws.nodes) + outcome.output else old(ws.nodes)
      ensures ws.attached == old(ws.attached) && ws.warnings == old(ws.warnings)
    {
      calls := calls + [PackagedAsJar(request)];
      ok := outcome.Writes?;
      if ok {
        ws.nodes := ws.nodes + outcome.output;
      }
    }

    /** `PackagerLib.generateDeploymentPackages`. */
    method GenerateDeploymentPackages(ws: Workspace, request: DeployParams, outcome: EngineOutcome) returns (ok: bool)
      modifies this, ws
      ensures calls == old(calls) + [GeneratedPackages(request)]
      ensures ok <==> outcome.Writes?
      ensures ws.nodes == if ok then old(ws.nodes) + outcome.output else old(ws.nodes)
      ensures ws.attached == old(ws.attached) && ws.warnings == old(ws.warnings)
    {
      calls := calls + [GeneratedPackages(request)];
      ok := outcome.Writes?;
      if ok {
        ws.nodes := ws.nodes + outcome.output;
      }
    }
  }

  /** Unpack the project artifact into its directory; a missing or non-file artifact fails the goal. */
  method UnpackProjectJar(ws: Workspace, tools: Tools, project: Project) returns (status: Status)
    modifies ws, tools
    ensures ws.nodes == WithDir(old(ws.nodes), UnpackedDir(project))
    ensures status == Done <==> project.artifactFile in ws.nodes && ws.nodes[project.artifactFile].File?
    ensures status.Failed? ==> status == Failed(MojoExecution(UNPACK_FAILED, IOFailure))
    ensures tools.calls == old(tools.calls) + if status == Done then [Unpacked(project.artifactFile, UnpackedDir(project))] else []
    ensures ws.attached == old(ws.attached) && ws.warnings == old(ws.warnings)
  {
    ws.Mkdir(UnpackedDir(project));
    var ok := tools.Unpack(ws, project.artifactFile, UnpackedDir(project));
    status := if ok then Done else Failed(MojoExecution(UNPACK_FAILED, IOFailure));
  }

  /** The build directory after the project artifact was deleted and the JavaFX jar copied in its place. */
  function Replaced(nodes: map<Path, Node>, artifact: Path, jar: Path): map<Path, Node>
    requires jar in nodes
  {
    Pruned(nodes, artifact)[artifact := nodes[jar]]
  }

  /**
   * Build the JavaFX jar and replace the project artifact with it. A
   * packager failure leaves everything as it was; a failed delete or copy
   * fails the goal after the packager has written its output.
   */
  method CreateJavaFxJar(ws: Workspace, tools: Tools, project: Project, request: CreateJarParams, outcome: EngineOutcome)
    returns (status: Status)
    modifies ws, tools
    ensures tools.calls == old(tools.calls) + [PackagedAsJar(request)]
    ensures outcome.Fails? ==> status == Failed(MojoExecution(CREATE_JAR_FAILED, PackagerFailure)) && ws.nodes == old(ws.nodes)
    ensures outcome.Writes? ==>
              var built := old(ws.nodes) + outcome.output;
              && (status == Done <==> project.artifactFile in built && JarPath(project) in built
                                      && built[JarPath(project)].File? && !Under(JarPath(project), project.artifactFile))
              && (status == Done ==> ws.nodes == Replaced(built, project.artifactFile, JarPath(project)))
              && (status.Failed? ==> status == Failed(MojoExecution(ATTACH_JAR_FAILED, IOFailure)))
              && (status.Failed? ==> ws.nodes == if project.artifactFile in built then Pruned(built, project.artifactFile)
                                                 else built)
    ensures ws.attached == old(ws.attached) && ws.warnings == old(ws.warnings)
  {
    var ok := tools.PackageAsJar(ws, request, outcome);
    if !ok {
      return Failed(MojoExecution(CREATE_JAR_FAILED, PackagerFailure));
    }
    ok := ws.ForceDelete(project.artifactFile);
    if !ok {
      return Failed(MojoExecution(ATTACH_JAR_FAILED, IOFailure));
    }
    ok := ws.CopyFile(JarPath(project), project.artifactFile);
    status := if ok then Done else Failed(MojoExecution(ATTACH_JAR_FAILED, IOFailure));
  }

  /** Copy every dependency into the dependencies directory under its staged name, stopping at the first failure. */
  method StageDependencies(ws: Workspace, project: Project) returns (status: Status)
    modifies ws
    ensures var base := WithDir(old(ws.nodes), DependenciesDir(project));
            match Staged(base, DependenciesDir(project), project.dependencies)
            case Some(m) => status == Done && ws.nodes == m
            case None => status == Failed(MojoExecution(StagingFailed(DependenciesDir(project)), IOFailure))
    ensures ws.nodes == StagedUntilFailure(WithDir(old(ws.nodes), DependenciesDir(project)), DependenciesDir(project),
                                           project.dependencies)
    ensures ws.attached == old(ws.attached) && ws.warnings == old(ws.warnings)
  {
    var dir := DependenciesDir(project);
    var deps := project.dependencies;
    ws.Mkdir(dir);
    ghost var base := ws.nodes;
    for i := 0 to |deps|
      invariant Staged(base, dir, deps[..i]) == Some(ws.nodes)
      invariant ws.attached == old(ws.attached) && ws.warnings == old(ws.warnings)
    {
      assert deps[..i + 1][..i] == deps[..i];
      ghost var before := ws.nodes;
      assert Staged(base, dir, deps[..i + 1]) == StageOne(before, dir, deps[i]);
      var ok := ws.CopyFile(deps[i].file, dir + [StagedName(deps[i])]);
      assert ok ==> StageOne(before, dir, deps[i]) == Some(ws.nodes);
      if !ok {
        StagedStaysFailed(base, dir, deps, i + 1);
        StagingStopsAtFailure(base, dir, deps, i);
        return Failed(MojoExecution(StagingFailed(dir), IOFailure));
      }
    }
    assert deps[..|deps|] == deps;
    status := Done;
  }

  /** Once a dependency cannot be staged, staging the longer list fails too. */
  lemma {:induction false} StagedStaysFailed(nodes: map<Path, Node>, dir: Path, deps: seq<Dependency>, k: nat)
    requires k <= |deps| && Staged(nodes, dir, deps[..k]).None?
    ensures Staged(nodes, dir, deps).None?
    decreases |deps| - k
  {
    if k < |deps| {
      assert deps[..k + 1][..k] == deps[..k];
      StagedStaysFailed(nodes, dir, deps, k + 1);
    } else {
      assert deps[..k] == deps;
    }
  }

  /** Move each listed plain file from `from` to `to`. */
  method SweepFiles(ws: Workspace, from: Path, to: Path, names: seq<string>)
    modifies ws
    ensures ws.nodes == Swept(old(ws.nodes), from, to, names)
    ensures ws.attached == old(ws.attached) && ws.warnings == old(ws.warnings)
  {
    for i := 0 to |names|
      invariant ws.nodes == Swept(old(ws.nodes), from, to, names[..i])
      invariant ws.attached == old(ws.attached) && ws.warnings == old(ws.warnings)
    {
      assert names[..i + 1][..i] == names[..i];
      var p := from + [names[i]];
      if p in ws.nodes && ws.nodes[p].File? {
        ws.Rename(p, to + [names[i]]);
      }
    }
    assert names[..|names|] == names;
  }

  /**
   * Move the files the packager left in the native output directory into
   * the JNLP directory, zip it and attach the zip. A native output
   * directory that is not there makes `listFiles` return null.
   */
  method AttachJnlp(ws: Workspace, project: Project) returns (status: Status, ghost names: seq<string>)
    modifies ws
    ensures var prepared := WithDir(old(ws.nodes), JnlpDir(project));
            && (status.Failed? <==> !(NativeDir(project) in prepared && prepared[NativeDir(project)].Dir?))
            && (status.Failed? ==> status == Failed(NullPointer) && ws.nodes == prepared && ws.attached == old(ws.attached))
            && (status == Done ==>
                  && IsListing(prepared, NativeDir(project), names)
                  && ws.nodes == JnlpPublished(old(ws.nodes), project, names)
                  && ws.attached == old(ws.attached) + [Attachment("zip", "jnlp", JnlpZip(project))])
    ensures ws.warnings == old(ws.warnings)
  {
    ghost var start := ws.nodes;
    ws.Mkdir(JnlpDir(project));
    var listing := ws.ListFiles(NativeDir(project));
    if listing.None? {
      return Failed(NullPointer), [];
    }
    var found := listing.value;
    names := found;
    SweepFiles(ws, NativeDir(project), JnlpDir(project), found);
    ZippedStep(ws.nodes, JnlpZip(project), [], ArchiveEntry(JnlpDir(project), None));
    assert [] + [ArchiveEntry(JnlpDir(project), None)] == [ArchiveEntry(JnlpDir(project), None)];
    ws.ArchiveInto(JnlpDir(project), JnlpZip(project), None);
    assert ws.nodes == JnlpPublished(start, project, found);
    ws.Attach(Attachment("zip", "jnlp", JnlpZip(project)));
    status := Done;
  }

  /**
   * Attach every entry of the bundles directory: a plain file under its
   * extension, a `.app` directory by copying it into the macosx zip and
   * attaching that, any other directory only reported.
   */
  method AttachBundles(ws: Workspace, project: Project) returns (status: Status, ghost names: seq<string>)
    modifies ws
    ensures status.Failed? <==> !(BundlesDir(project) in old(ws.nodes) && old(ws.nodes)[BundlesDir(project)].Dir?)
    ensures status.Failed? ==> status == Failed(NullPointer) && ws.nodes == old(ws.nodes)
                               && ws.attached == old(ws.attached) && ws.warnings == old(ws.warnings)
    ensures status == Done ==>
              && IsListing(old(ws.nodes), BundlesDir(project), names)
              && ws.attached == old(ws.attached) + BundleAttachments(old(ws.nodes), BundlesDir(project), names, MacosxZip(project))
              && ws.warnings == old(ws.warnings) + BundleWarnings(old(ws.nodes), BundlesDir(project), names)
              && ws.nodes == Zipped(old(ws.nodes), MacosxZip(project), AppEntries(old(ws.nodes), BundlesDir(project), names))
  {
    var dir := BundlesDir(project);
    var zip := MacosxZip(project);
    var listing := ws.ListFiles(dir);
    if listing.None? {
      return Failed(NullPointer), [];
    }
    var found := listing.value;
    names := found;
    AttachEach(ws, dir, zip, found);
    status := Done;
  }

  /** Attach, zip or report each listed entry of `dir`, in listing order. */
  method AttachEach(ws: Workspace, dir: Path, zip: Path, names: seq<string>)
    requires |zip| <= |dir|
    modifies ws
    ensures ws.nodes == Zipped(old(ws.nodes), zip, AppEntries(old(ws.nodes), dir, names))
    ensures ws.attached == old(ws.attached) + BundleAttachments(old(ws.nodes), dir, names, zip)
    ensures ws.warnings == old(ws.warnings) + BundleWarnings(old(ws.nodes), dir, names)
  {
    ghost var start, attached, warnings := ws.nodes, ws.attached, ws.warnings;
    for i := 0 to |names|
      invariant ws.nodes == Zipped(start, zip, AppEntries(start, dir, names[..i]))
      invariant ws.attached == attached + BundleAttachments(start, dir, names[..i], zip)
      invariant ws.warnings == warnings + BundleWarnings(start, dir, names[..i])
    {
      NextBundle(start, dir, zip, names, i, ws.nodes);
      AttachBundle(ws, dir, zip, names[i]);
    }
    assert names[..|names|] == names;
  }

  /** One entry of the bundles directory: attach it, zip it or report it, as its action says. */
  method AttachBundle(ws: Workspace, dir: Path, zip: Path, n: string)
    modifies ws
    ensures ws.nodes == if ActionFor(old(ws.nodes), dir, n) == ZipApp
                        then old(ws.nodes)[zip := File(ArchiveWith(old(ws.nodes), zip, ArchiveEntry(dir + [n], Some(n))))]
                        else old(ws.nodes)
    ensures ws.attached == old(ws.attached) + AttachmentsFor(ActionFor(old(ws.nodes), dir, n), dir + [n], zip)
    ensures ws.warnings == old(ws.warnings) + if ActionFor(old(ws.nodes), dir, n) == WarnUnknown then [dir + [n]] else []
  {
    var p := dir + [n];
    var action := ActionFor(ws.nodes, dir, n);
    match action {
      case AttachFile(ext) =>
        ws.Attach(Attachment(ext, ext, p));
        assert ws.warnings == old(ws.warnings) + [];
      case ZipApp =>
        ws.ArchiveInto(p, zip, Some(n));
        ws.Attach(Attachment("zip", "macosx", zip));
        assert ws.warnings == old(ws.warnings) + [];
      case WarnUnknown =>
        ws.Warn(p);
        assert ws.attached == old(ws.attached) + [];
      case Skip =>
        assert ws.attached == old(ws.attached) + [];
        assert ws.warnings == old(ws.warnings) + [];
    }
  }

  /**
   * Handling the listed name at `i` takes the state described for the names
   * before it to the one described for the names up to it: the archive at
   * `zip`, which lies outside the bundles directory, does not change what the
   * name is.
   */
  lemma NextBundle(start: map<Path, Node>, dir: Path, zip: Path, names: seq<string>, i: nat, nodes: map<Path, Node>)
    requires |zip| <= |dir| && i < |names|
    requires nodes == Zipped(start, zip, AppEntries(start, dir, names[..i]))
    ensures ActionFor(nodes, dir, names[i]) == ActionFor(start, dir, names[i])
    ensures Zipped(start, zip, AppEntries(start, dir, names[..i + 1]))
         == if ActionFor(start, dir, names[i]) == ZipApp
            then nodes[zip := File(ArchiveWith(nodes, zip, ArchiveEntry(dir + [names[i]], Some(names[i]))))]
            else nodes
    ensures BundleAttachments(start, dir, names[..i + 1], zip)
         == BundleAttachments(start, dir, names[..i], zip) + AttachmentsFor(ActionFor(start, dir, names[i]), dir + [names[i]], zip)
    ensures BundleWarnings(start, dir, names[..i + 1])
         == BundleWarnings(start, dir, names[..i]) + if ActionFor(start, dir, names[i]) == WarnUnknown then [dir + [names[i]]] else []
  {
    var n := names[i];
    var entries := AppEntries(start, dir, names[..i]);
    assert dir + [n] != zip;
    ZippedKeepsOthers(start, zip, entries, dir + [n]);
    assert names[..i + 1][..i] == names[..i];
    if ActionFor(start, dir, n) == ZipApp {
      ZippedStep(start, zip, entries, ArchiveEntry(dir + [n], Some(n)));
    } else {
      assert entries + [] == entries;
    }
  }

  /** Copying one more entry updates only the archive, by appending that entry. */
  lemma ZippedStep(nodes: map<Path, Node>, zip: Path, entries: seq<ArchiveEntry>, e: ArchiveEntry)
    ensures Zipped(nodes, zip, entries + [e])
         == Zipped(nodes, zip, entries)[zip := File(ArchiveWith(Zipped(nodes, zip, entries), zip, e))]
  {
    assert (entries + [e])[..|entries|] == entries;
  }

  /**
   * `AttachBundles` with the null listing handled: a missing bundles
   * directory means there is nothing to attach.
   */
  method AttachBundlesGuarded(ws: Workspace, project: Project) returns (status: Status, ghost names: seq<string>)
    modifies ws
    ensures status == Done
    ensures !(BundlesDir(project) in old(ws.nodes) && old(ws.nodes)[BundlesDir(project)].Dir?) ==>
              names == [] && ws.nodes == old(ws.nodes) && ws.attached == old(ws.attached) && ws.warnings == old(ws.warnings)
    ensures BundlesDir(project) in old(ws.nodes) && old(ws.nodes)[BundlesDir(project)].Dir? ==>
              IsListing(old(ws.nodes), BundlesDir(project), names)
    ensures ws.attached == old(ws.attached) + BundleAttachments(old(ws.nodes), BundlesDir(project), names, MacosxZip(project))
    ensures ws.warnings == old(ws.warnings) + BundleWarnings(old(ws.nodes), BundlesDir(project), names)
    ensures ws.nodes == Zipped(old(ws.nodes), MacosxZip(project), AppEntries(old(ws.nodes), BundlesDir(project), names))
  {
    if !(BundlesDir(project) in ws.nodes && ws.nodes[BundlesDir(project)].Dir?) {
      return Done, [];
    }
    status, names := AttachBundles(ws, project);
  }

  /** A packager run that leaves no bundles directory, as for bundle type NONE, ends in a NullPointerException. */
  method MissingBundlesDirectoryRaisesNullPointer() returns (status: Status)
    ensures status == Failed(NullPointer)
  {
    var project := Project(["target"], "app", "1.0", ["target", "app.jar"], []);
    var ws := new Workspace(map[NativeDir(project) := Dir, ["target", "app.jnlp"] := File(Content(0))]);
    ghost var names;
    status, names := AttachBundles(ws, project);
  }

  /**
   * Let the packager generate the deployment packages from `request`, then
   * zip and attach the JNLP output and attach the native bundles.
   */
  method Publish(ws: Workspace, tools: Tools, project: Project, request: DeployParams, nativeOutcome: EngineOutcome)
    returns (status: Status, ghost jnlpNames: seq<string>, ghost bundleNames: seq<string>)
    modifies ws, tools
    ensures Published(project, request, nativeOutcome, Build(old(ws.nodes), old(ws.attached), old(ws.warnings), old(tools.calls)),
                      status, jnlpNames, bundleNames, Build(ws.nodes, ws.attached, ws.warnings, tools.calls))
  {
    jnlpNames, bundleNames := [], [];
    var ok := tools.GenerateDeploymentPackages(ws, request, nativeOutcome);
    if !ok {
      return Failed(MojoExecution(PACKAGING_FAILED, PackagerFailure)), jnlpNames, bundleNames;
    }
    OutputDirsDiffer(project);
    status, jnlpNames := AttachJnlp(ws, project);
    if status.Failed? {
      return;
    }
    BundlesDirSurvivesJnlp(old(ws.nodes) + nativeOutcome.output, project, jnlpNames);
    status, bundleNames := AttachBundles(ws, project);
  }

  /**
   * Unpack the project jar, replace the project artifact by the JavaFX jar
   * built from `jarRequest`, then select the bundle type named by `bundles`.
   */
  method PrepareJar(ws: Workspace, tools: Tools, project: Project, jarRequest: CreateJarParams, jarOutcome: EngineOutcome,
                    bundles: string, bundleTypes: set<string>)
    returns (status: Status, bundleType: string)
    modifies ws, tools
    ensures var e := PrepareError(old(ws.nodes), project, jarOutcome, bundles, bundleTypes);
            && (e.Some? ==> status == Failed(e.value))
            && (e.None? ==> status == Done && bundleType == Upper(bundles))
            && (e.None? || e.value.IllegalArgument? ==> ws.nodes == PreparedNodes(old(ws.nodes), project, jarOutcome))
    ensures ws.nodes == JarPhaseNodes(old(ws.nodes), project, jarOutcome)
    ensures tools.calls == old(tools.calls) + if Unpacks(old(ws.nodes), project)
                                              then [Unpacked(project.artifactFile, UnpackedDir(project)), PackagedAsJar(jarRequest)]
                                              else []
    ensures ws.attached == old(ws.attached) && ws.warnings == old(ws.warnings)
  {
    bundleType := "";
    status := UnpackProjectJar(ws, tools, project);
    if status.Failed? {
      return;
    }
    status := CreateJavaFxJar(ws, tools, project, jarRequest, jarOutcome);
    if status.Failed? {
      return;
    }
    var selected := BundleTypeOf(bundles, bundleTypes);
    if selected.Failure? {
      status := Failed(IllegalArgument(selected.error));
      return;
    }
    bundleType := selected.value;
  }

  /** The `package` goal: its configuration, the project, the build directory and the tools it drives. */
  class JavaFXPackageMojo {
    const config: Config
    const project: Project
    const ws: Workspace
    const tools: Tools
    /** The names of the packager's `BundleType` constants. */
    const bundleTypes: set<string>

    constructor (config: Config, project: Project, ws: Workspace, tools: Tools, bundleTypes: set<string>)
      ensures this.config == config && this.project == project && this.ws == ws && this.tools == tools
      ensures this.bundleTypes == bundleTypes
    {
      this.config, this.project, this.ws, this.tools, this.bundleTypes := config, project, ws, tools, bundleTypes;
    }

    /**
     * `execute()`. Each step runs only when the previous ones succeeded. An
     * unknown bundle type is an unchecked exception raised after the project
     * artifact was already replaced. On success the JNLP zip is attached,
     * then one attachment per recognised bundle, as listed.
     */
    method Execute(jarOutcome: EngineOutcome, nativeOutcome: EngineOutcome)
      returns (status: Status, ghost jnlpNames: seq<string>, ghost bundleNames: seq<string>)
      modifies ws, tools
      ensures Packaged(project, CreateJarRequest(config, project), DeployRequest(config, project, Upper(config.bundles), true),
                       config.bundles, bundleTypes, jarOutcome, nativeOutcome,
                       Build(old(ws.nodes), old(ws.attached), old(ws.warnings), old(tools.calls)),
                       status, jnlpNames, bundleNames, Build(ws.nodes, ws.attached, ws.warnings, tools.calls))
    {
      jnlpNames, bundleNames := [], [];
      var bundleType;
      status, bundleType := PrepareJar(ws, tools, project, CreateJarRequest(config, project), jarOutcome,
                                       config.bundles, bundleTypes);
      if status.Failed? {
        return;
      }
      status, jnlpNames, bundleNames := Distribute(bundleType, nativeOutcome);
    }

    /** Stage the dependencies, build the deployment request, then publish the packages. */
    method Distribute(bundleType: string, nativeOutcome: EngineOutcome)
      returns (status: Status, ghost jnlpNames: seq<string>, ghost bundleNames: seq<string>)
      modifies ws, tools
      ensures Distributed(project, DeployRequest(config, project, bundleType, true), nativeOutcome,
                          Build(old(ws.nodes), old(ws.attached), old(ws.warnings), old(tools.calls)),
                          status, jnlpNames, bundleNames, Build(ws.nodes, ws.attached, ws.warnings, tools.calls))
    {
      jnlpNames, bundleNames := [], [];
      status := StageDependencies(ws, project);
      if status.Failed? {
        return;
      }
      assert DependenciesDir(project) in ws.nodes;
      var request := BuildDeployParams(config, project, bundleType, DependenciesDir(project) in ws.nodes);
      status, jnlpNames, bundleNames := Publish(ws, tools, project, request, nativeOutcome);
    }
  }
}
