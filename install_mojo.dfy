/**
 * The `install` goal of javafx-deployer-maven-plugin: locate the JavaFX
 * properties file, runtime jar and ant jar under JAVA_HOME, read the runtime
 * version, then install the runtime and the ant jar into the local repository,
 * each with a temporary generated POM that is deleted afterwards.
 *
 * The Maven installer, the artifact factory and the POM writer are foreign
 * code: what they do is recorded as events on the `Host`. Whether the POM
 * writing fails and whether the installer accepts are given by
 * `InstallFaults`; the artifact factory is taken to succeed.
 */
module InstallMojo {
  import opened Wrappers
  import opened Errors
  import opened InstallDeployUtils

  const POM_WRITE_FAILED := "Error writing temporary POM file: "
  const INSTALL_FAILED := "Unable to install "
  const POM_DESCRIPTION := "POM was created from javafx-maven-plugin"

  /** Maven coordinates; the version may be null when javafx.properties lacks it. */
  datatype Coordinate = Coordinate(groupId: string, artifactId: string, version: Option<string>,
                                   packaging: string, classifier: Option<string>)

  /** The fields of the generated POM's Maven model. */
  datatype PomModel = PomModel(modelVersion: string, groupId: string, artifactId: string,
                               version: Option<string>, packaging: string, description: string)

  /**
   * Which step of writing the temporary POM throws an IOException, with its
   * message: `File.createTempFile`, `WriterFactory.newXmlWriter` (the writer
   * stays null) or the model writer.
   */
  datatype PomFault = NoPomFault | CreateTempFails(message: string) | WriterFails(message: string) | WriteFails(message: string)

  /** How the foreign collaborators behave for one install. */
  datatype InstallFaults = InstallFaults(pom: PomFault, accepted: bool)

  /** Temporary files are told apart by the unique part `File.createTempFile` puts in their name. */
  type TempFile = nat

  datatype Event =
    | TempCreated(pom: TempFile)
    | WriterOpened(pom: TempFile)
    | PomWritten(pom: TempFile, model: PomModel)
    | WriterClosed(pom: TempFile)
    | InstallCalled(file: string, coordinate: Coordinate, metadata: seq<TempFile>, release: bool)
    | PomDeleted(pom: TempFile)
    | DependencyAnnounced(coordinate: Coordinate)

  /** The coordinate both artifacts are installed under. */
  function JarCoordinate(artifactId: string, version: Option<string>): (c: Coordinate)
    ensures c.groupId == GROUP_ID && c.artifactId == artifactId && c.version == version
    ensures c.packaging == "jar" && c.classifier == None
  {
    Coordinate(GROUP_ID, artifactId, version, "jar", None)
  }

  /** The POM model `generatePomFile` fills in for a coordinate. */
  function PomFor(groupId: string, artifactId: string, version: Option<string>, packaging: string): PomModel
  {
    PomModel("4.0.0", groupId, artifactId, version, packaging, POM_DESCRIPTION)
  }

  /** A POM describes a coordinate: same group, artifact, version and packaging. */
  predicate Describes(model: PomModel, c: Coordinate)
  {
    model.modelVersion == "4.0.0" && model.groupId == c.groupId && model.artifactId == c.artifactId
    && model.version == c.version && model.packaging == c.packaging
  }

  /**
   * A finished run of a goal or of one of its steps: how it ended, what it
   * did, the temporary POMs it left on disk and how many temporary-file
   * numbers it used.
   */
  datatype Run = Run(status: Status, events: seq<Event>, leftover: set<TempFile>, temps: nat)

  /** Specification of `install`, given the first free temporary-file number. */
  function InstallRun(artifactId: string, version: Option<string>, file: string, faults: InstallFaults, temp: TempFile): Run
  {
    var c := JarCoordinate(artifactId, version);
    match faults.pom
    case CreateTempFails(m) => Run(Failed(MojoExecution(POM_WRITE_FAILED + m, IOFailure)), [], {}, 0)
    case WriterFails(m) => Run(Failed(MojoExecution(POM_WRITE_FAILED + m, IOFailure)), [TempCreated(temp)], {temp}, 1)
    case WriteFails(m) =>
      Run(Failed(MojoExecution(POM_WRITE_FAILED + m, IOFailure)), [TempCreated(temp), WriterOpened(temp), WriterClosed(temp)],
          {temp}, 1)
    case NoPomFault =>
      var events := [TempCreated(temp), WriterOpened(temp), PomWritten(temp, PomFor(GROUP_ID, artifactId, version, "jar")),
                     WriterClosed(temp),
                     InstallCalled(file, c, [temp], true), PomDeleted(temp)];
      if faults.accepted then Run(Done, events, {}, 1)
      else Run(Failed(MojoExecution(INSTALL_FAILED + artifactId, InstallationFailure)), events, {}, 1)
  }

  /** Specification of the two installs that end `execute`, and of the banner that follows them. */
  function InstallBothRun(version: Option<string>, files: Located, runtime: InstallFaults, ant: InstallFaults, temp: TempFile): Run
  {
    var first := InstallRun(RUNTIME_ARTIFACT_ID, version, files.runtimeJar, runtime, temp);
    if first.status.Failed? then first
    else
      var second := InstallRun(ANT_ARTIFACT_ID, version, files.antJar, ant, temp + 1);
      var leftover, temps := first.leftover + second.leftover, first.temps + second.temps;
      if second.status.Failed? then Run(second.status, first.events + second.events, leftover, temps)
      else Run(Done, first.events + second.events + [DependencyAnnounced(JarCoordinate(RUNTIME_ARTIFACT_ID, version))], leftover, temps)
  }

  /** Specification of `execute`. */
  function ExecuteRun(javaHome: string, existing: set<string>, properties: PropertiesSource,
                      runtime: InstallFaults, ant: InstallFaults, temp: TempFile): Run
  {
    match Locate(existing, javaHome)
    case Failure(e) => Run(Failed(e), [], {}, 0)
    case Success(files) =>
      match ReadVersion(properties)
      case Failure(e) => Run(Failed(e), [], {}, 0)
      case Success(version) => InstallBothRun(version, files, runtime, ant, temp)
  }

  /** The coordinates the installer was called with, in call order. */
  function Installs(events: seq<Event>): (r: seq<Coordinate>)
    ensures |r| <= |events|
  {
    if events == [] then []
    else (if events[0].InstallCalled? then [events[0].coordinate] else []) + Installs(events[1..])
  }

  lemma {:induction false} InstallsAppend(a: seq<Event>, b: seq<Event>)
    ensures Installs(a + b) == Installs(a) + Installs(b)
  {
    if a == [] {
      assert a + b == b;
    } else {
      var head := if a[0].InstallCalled? then [a[0].coordinate] else [];
      assert (a + b)[0] == a[0];
      assert (a + b)[1..] == a[1..] + b;
      assert Installs(a + b) == head + Installs(a[1..] + b);
      InstallsAppend(a[1..], b);
      assert Installs(a) == head + Installs(a[1..]);
    }
  }

  /** Every call to the installer is immediately followed by the deletion of the POM it was given. */
  ghost predicate PomDeletedAfterEachInstall(events: seq<Event>)
  {
    forall i :: 0 <= i < |events| && events[i].InstallCalled? ==>
      i + 1 < |events| && |events[i].metadata| == 1 && events[i + 1] == PomDeleted(events[i].metadata[0])
  }

  /** Every writer opened on a temporary POM is closed. */
  ghost predicate WriterClosedAfterEachOpen(events: seq<Event>)
  {
    forall i :: 0 <= i < |events| && events[i].WriterOpened? ==> WriterClosed(events[i].pom) in events
  }

  lemma CleanupAppend(a: seq<Event>, b: seq<Event>)
    requires PomDeletedAfterEachInstall(a) && PomDeletedAfterEachInstall(b)
    requires WriterClosedAfterEachOpen(a) && WriterClosedAfterEachOpen(b)
    ensures PomDeletedAfterEachInstall(a + b) && WriterClosedAfterEachOpen(a + b)
  {
    var ab := a + b;
    forall i | 0 <= i < |ab| && ab[i].InstallCalled?
      ensures i + 1 < |ab| && |ab[i].metadata| == 1 && ab[i + 1] == PomDeleted(ab[i].metadata[0])
    {
      if i < |a| {
        assert a[i] == ab[i] && a[i + 1] == ab[i + 1];
      } else {
        assert b[i - |a|] == ab[i] && b[i - |a| + 1] == ab[i + 1];
      }
    }
  }

  /** The installer is called once, with the jar coordinate, exactly when the POM was written. */
  lemma {:induction false} InstallRunInstalls(artifactId: string, version: Option<string>, file: string, faults: InstallFaults, temp: TempFile)
    ensures Installs(InstallRun(artifactId, version, file, faults, temp).events)
         == (if faults.pom.NoPomFault? then [JarCoordinate(artifactId, version)] else [])
  {
    var e := InstallRun(artifactId, version, file, faults, temp).events;
    if faults.pom.NoPomFault? {
      assert e == e[..4] + ([e[4]] + [e[5]]);
      InstallsAppend(e[..4], [e[4]] + [e[5]]);
      InstallsNone(e[..4]);
      InstallsAppend([e[4]], [e[5]]);
      InstallsNone([e[5]]);
      assert [e[4]][1..] == [];
    } else {
      InstallsNone(e);
    }
  }

  /** Events without an installer call record no install. */
  lemma {:induction false} InstallsNone(events: seq<Event>)
    requires forall i :: 0 <= i < |events| ==> !events[i].InstallCalled?
    ensures Installs(events) == []
    decreases |events|
  {
    if events != [] {
      assert forall i :: 0 <= i < |events[1..]| ==> events[1..][i] == events[i + 1];
      InstallsNone(events[1..]);
    }
  }

  /**
   * One install returns exactly when the POM was written and the installer
   * accepted the jar; a rejection is reported as "Unable to install <artifactId>".
   */
  lemma InstallRunStatus(artifactId: string, version: Option<string>, file: string, faults: InstallFaults, temp: TempFile)
    ensures InstallRun(artifactId, version, file, faults, temp).status.Done? <==> faults.pom.NoPomFault? && faults.accepted
    ensures faults.pom.NoPomFault? && !faults.accepted ==>
      InstallRun(artifactId, version, file, faults, temp).status == Failed(MojoExecution(INSTALL_FAILED + artifactId, InstallationFailure))
  {
  }

  /**
   * The installer sees the file, the temporary POM as the artifact's only
   * metadata and the release flag set; the POM written describes the
   * coordinate; the POM is deleted right after the call and its writer is closed.
   */
  lemma InstallRunCall(artifactId: string, version: Option<string>, file: string, faults: InstallFaults, temp: TempFile)
    ensures var run := InstallRun(artifactId, version, file, faults, temp);
      && (forall e :: e in run.events && e.InstallCalled? ==> e.file == file && e.release && e.metadata == [temp])
      && (forall m :: PomWritten(temp, m) in run.events ==> Describes(m, JarCoordinate(artifactId, version)))
      && PomDeletedAfterEachInstall(run.events)
      && WriterClosedAfterEachOpen(run.events)
  {
    var events := InstallRun(artifactId, version, file, faults, temp).events;
    match faults.pom
    case NoPomFault =>
      assert events[3] == WriterClosed(temp) && events[5] == PomDeleted(temp);
      forall i | 0 <= i < |events| && events[i].InstallCalled?
        ensures i == 4
      {
      }
    case WriteFails(_) =>
      assert events[2] == WriterClosed(temp);
    case _ =>
  }

  /** A missing JavaFX file or an unreadable javafx.properties aborts before anything is installed or written. */
  lemma NothingBeforeVersionIsKnown(javaHome: string, existing: set<string>, properties: PropertiesSource,
                                    runtime: InstallFaults, ant: InstallFaults, temp: TempFile)
    requires Locate(existing, javaHome).Failure? || ReadVersion(properties).Failure?
    ensures ExecuteRun(javaHome, existing, properties, runtime, ant, temp).events == []
    ensures ExecuteRun(javaHome, existing, properties, runtime, ant, temp).leftover == {}
    ensures ExecuteRun(javaHome, existing, properties, runtime, ant, temp).temps == 0
    ensures Locate(existing, javaHome).Failure? ==>
      ExecuteRun(javaHome, existing, properties, runtime, ant, temp).status == Failed(Locate(existing, javaHome).error)
    ensures Locate(existing, javaHome).Success? ==>
      ExecuteRun(javaHome, existing, properties, runtime, ant, temp).status == Failed(ReadVersion(properties).error)
    ensures Locate(existing, javaHome).Success? && !properties.opens ==>
      ExecuteRun(javaHome, existing, properties, runtime, ant, temp).status == Failed(NullPointer)
  {
  }

  /** Once the files are located and the version read, `execute` is the two installs. */
  lemma ExecuteIsInstallBoth(javaHome: string, existing: set<string>, properties: PropertiesSource,
                             runtime: InstallFaults, ant: InstallFaults, temp: TempFile)
    requires Locate(existing, javaHome).Success? && ReadVersion(properties).Success?
    ensures ExecuteRun(javaHome, existing, properties, runtime, ant, temp)
         == InstallBothRun(ReadVersion(properties).value, Locate(existing, javaHome).value, runtime, ant, temp)
  {
  }

  /**
   * The runtime is installed before the ant jar, both with the same version;
   * when the runtime install fails the ant jar is never installed and that
   * failure ends the goal.
   */
  lemma {:induction false} InstallOrder(version: Option<string>, files: Located, runtime: InstallFaults, ant: InstallFaults, temp: TempFile)
    ensures var run := InstallBothRun(version, files, runtime, ant, temp);
      var first := InstallRun(RUNTIME_ARTIFACT_ID, version, files.runtimeJar, runtime, temp);
      && Installs(run.events) <= [JarCoordinate(RUNTIME_ARTIFACT_ID, version), JarCoordinate(ANT_ARTIFACT_ID, version)]
      && (first.status.Failed? ==> |Installs(run.events)| <= 1 && run.status == first.status)
  {
    var first := InstallRun(RUNTIME_ARTIFACT_ID, version, files.runtimeJar, runtime, temp);
    var second := InstallRun(ANT_ARTIFACT_ID, version, files.antJar, ant, temp + 1);
    var rt := JarCoordinate(RUNTIME_ARTIFACT_ID, version);
    var at := JarCoordinate(ANT_ARTIFACT_ID, version);
    InstallRunInstalls(RUNTIME_ARTIFACT_ID, version, files.runtimeJar, runtime, temp);
    if first.status.Done? {
      InstallRunStatus(RUNTIME_ARTIFACT_ID, version, files.runtimeJar, runtime, temp);
      InstallRunInstalls(ANT_ARTIFACT_ID, version, files.antJar, ant, temp + 1);
      assert Installs(first.events) == [rt];
      InstallsAppend(first.events, second.events);
      assert Installs(first.events + second.events) == [rt] + Installs(second.events);
      if second.status.Done? {
        var announce := [DependencyAnnounced(rt)];
        InstallsAppend(first.events + second.events, announce);
        assert Installs(announce) == [] by {
          assert announce[1..] == [];
        }
      }
    }
  }

  /**
   * The goal returns exactly when both installs succeed; it then has installed
   * both jars and ends by announcing the runtime's coordinate, and the banner
   * never appears on a failed run.
   */
  lemma InstallBothStatus(version: Option<string>, files: Located, runtime: InstallFaults, ant: InstallFaults, temp: TempFile)
    ensures var run := InstallBothRun(version, files, runtime, ant, temp);
      && (run.status.Done? <==> runtime.pom.NoPomFault? && runtime.accepted && ant.pom.NoPomFault? && ant.accepted)
      && (forall c :: DependencyAnnounced(c) in run.events ==> run.status.Done?)
  {
    InstallRunStatus(RUNTIME_ARTIFACT_ID, version, files.runtimeJar, runtime, temp);
    InstallRunStatus(ANT_ARTIFACT_ID, version, files.antJar, ant, temp + 1);
  }

  /** A successful goal installed the runtime and then the ant jar, and its last act announces the runtime dependency. */
  lemma {:induction false} InstallBothInstalls(version: Option<string>, files: Located, runtime: InstallFaults, ant: InstallFaults, temp: TempFile)
    ensures var run := InstallBothRun(version, files, runtime, ant, temp);
      run.status.Done? ==>
        && Installs(run.events) == [JarCoordinate(RUNTIME_ARTIFACT_ID, version), JarCoordinate(ANT_ARTIFACT_ID, version)]
        && run.events[|run.events| - 1] == DependencyAnnounced(JarCoordinate(RUNTIME_ARTIFACT_ID, version))
  {
    var first := InstallRun(RUNTIME_ARTIFACT_ID, version, files.runtimeJar, runtime, temp);
    var second := InstallRun(ANT_ARTIFACT_ID, version, files.antJar, ant, temp + 1);
    if first.status.Done? && second.status.Done? {
      InstallRunStatus(RUNTIME_ARTIFACT_ID, version, files.runtimeJar, runtime, temp);
      InstallRunStatus(ANT_ARTIFACT_ID, version, files.antJar, ant, temp + 1);
      InstallRunInstalls(RUNTIME_ARTIFACT_ID, version, files.runtimeJar, runtime, temp);
      InstallRunInstalls(ANT_ARTIFACT_ID, version, files.antJar, ant, temp + 1);
      InstallsAppend(first.events, second.events);
      var announce := [DependencyAnnounced(JarCoordinate(RUNTIME_ARTIFACT_ID, version))];
      InstallsAppend(first.events + second.events, announce);
      assert Installs(announce) == [] by {
        assert announce[1..] == [];
      }
    }
  }

  /** Every POM handed to the installer is deleted right after the call, and every POM writer is closed. */
  lemma InstallBothCleanup(version: Option<string>, files: Located, runtime: InstallFaults, ant: InstallFaults, temp: TempFile)
    ensures PomDeletedAfterEachInstall(InstallBothRun(version, files, runtime, ant, temp).events)
    ensures WriterClosedAfterEachOpen(InstallBothRun(version, files, runtime, ant, temp).events)
  {
    var first := InstallRun(RUNTIME_ARTIFACT_ID, version, files.runtimeJar, runtime, temp);
    var second := InstallRun(ANT_ARTIFACT_ID, version, files.antJar, ant, temp + 1);
    InstallRunCall(RUNTIME_ARTIFACT_ID, version, files.runtimeJar, runtime, temp);
    InstallRunCall(ANT_ARTIFACT_ID, version, files.antJar, ant, temp + 1);
    CleanupAppend(first.events, second.events);
    CleanupAppend(first.events + second.events, [DependencyAnnounced(JarCoordinate(RUNTIME_ARTIFACT_ID, version))]);
  }

  /**
   * The temporary POMs one install leaves on disk are exactly those it created
   * and did not delete, and it creates one file per number it takes.
   */
  lemma InstallRunLeftover(artifactId: string, version: Option<string>, file: string, faults: InstallFaults, temp: TempFile)
    ensures var run := InstallRun(artifactId, version, file, faults, temp);
      && (forall t: TempFile :: t in run.leftover <==> TempCreated(t) in run.events && PomDeleted(t) !in run.events)
      && (forall t: TempFile :: TempCreated(t) in run.events <==> temp <= t < temp + run.temps)
  {
  }

  /**
   * The temporary POMs the two installs leave on disk are exactly those they
   * created and did not delete, and the files created are numbered
   * consecutively from the first free number.
   */
  lemma InstallBothLeftover(version: Option<string>, files: Located, runtime: InstallFaults, ant: InstallFaults, temp: TempFile)
    ensures var run := InstallBothRun(version, files, runtime, ant, temp);
      && (forall t: TempFile :: t in run.leftover <==> TempCreated(t) in run.events && PomDeleted(t) !in run.events)
      && (forall t: TempFile :: TempCreated(t) in run.events <==> temp <= t < temp + run.temps)
  {
    var run := InstallBothRun(version, files, runtime, ant, temp);
    var first := InstallRun(RUNTIME_ARTIFACT_ID, version, files.runtimeJar, runtime, temp);
    InstallRunLeftover(RUNTIME_ARTIFACT_ID, version, files.runtimeJar, runtime, temp);
    InstallRunStatus(RUNTIME_ARTIFACT_ID, version, files.runtimeJar, runtime, temp);
    if runtime.pom.NoPomFault? && runtime.accepted {
      var second := InstallRun(ANT_ARTIFACT_ID, version, files.antJar, ant, temp + 1);
      InstallRunLeftover(ANT_ARTIFACT_ID, version, files.antJar, ant, temp + 1);
      var announce := [DependencyAnnounced(JarCoordinate(RUNTIME_ARTIFACT_ID, version))];
      assert run.events == first.events + second.events || run.events == first.events + second.events + announce;
      forall t: TempFile
        ensures TempCreated(t) in run.events <==> t == temp || TempCreated(t) in second.events
        ensures PomDeleted(t) in run.events <==> t == temp || PomDeleted(t) in second.events
      {
        assert TempCreated(t) !in announce && PomDeleted(t) !in announce;
      }
    }
  }

  /** A goal that stops before the version is known leaves the temporary files as they were. */
  lemma NoPomLeftBeforeVersion(files: set<TempFile>, javaHome: string, existing: set<string>, properties: PropertiesSource,
                               runtime: InstallFaults, ant: InstallFaults, temp: TempFile)
    requires Locate(existing, javaHome).Failure? || ReadVersion(properties).Failure?
    ensures files + ExecuteRun(javaHome, existing, properties, runtime, ant, temp).leftover == files
  {
  }

  /** The Maven artifact `install` builds and then updates in place. */
  class Artifact {
    const coordinate: Coordinate
    var metadata: seq<TempFile>
    var release: bool

    constructor (coordinate: Coordinate)
      ensures this.coordinate == coordinate && metadata == [] && !release
    {
      this.coordinate := coordinate;
      metadata := [];
      release := false;
    }

    /** `addMetadata(new ProjectArtifactMetadata(artifact, pomFile))`. */
    method AddMetadata(pom: TempFile)
      modifies this
      ensures metadata == old(metadata) + [pom] && release == old(release)
    {
      metadata := metadata + [pom];
    }

    method SetRelease(release: bool)
      modifies this
      ensures this.release == release && metadata == old(metadata)
    {
      this.release := release;
    }
  }

  /** The machine the goal runs on: its temporary directory and what the goal did to the outside world. */
  class Host {
    var tempFiles: set<TempFile>
    var nextTemp: TempFile
    var events: seq<Event>

    ghost predicate Valid()
      reads this
    {
      forall t :: t in tempFiles ==> t < nextTemp
    }

    constructor ()
      ensures Valid() && tempFiles == {} && nextTemp == 0 && events == []
    {
      tempFiles, nextTemp, events := {}, 0, [];
    }

    /**
     * `generatePomFile`: create a temporary file, write the model into it and
     * close the writer whatever happens. A failed write leaves the file behind.
     */
    method GeneratePomFile(groupId: string, artifactId: string, version: Option<string>, packaging: string, fault: PomFault)
      returns (r: Result<TempFile, Failure>)
      requires Valid()
      modifies this
      ensures Valid()
      ensures fault.CreateTempFails? ==> r == Failure(MojoExecution(POM_WRITE_FAILED + fault.message, IOFailure))
                                         && events == old(events) && tempFiles == old(tempFiles) && nextTemp == old(nextTemp)
      ensures fault.WriterFails? ==> r == Failure(MojoExecution(POM_WRITE_FAILED + fault.message, IOFailure))
                                     && events == old(events) + [TempCreated(old(nextTemp))]
      ensures fault.WriteFails? ==> r == Failure(MojoExecution(POM_WRITE_FAILED + fault.message, IOFailure))
                                    && events == old(events) + [TempCreated(old(nextTemp)), WriterOpened(old(nextTemp)),
                                                                WriterClosed(old(nextTemp))]
      ensures fault.NoPomFault? ==> r == Success(old(nextTemp))
                                    && events == old(events) + [TempCreated(old(nextTemp)), WriterOpened(old(nextTemp)),
                                         PomWritten(old(nextTemp), PomFor(groupId, artifactId, version, packaging)),
                                         WriterClosed(old(nextTemp))]
      ensures !fault.CreateTempFails? ==> tempFiles == old(tempFiles) + {old(nextTemp)} && nextTemp == old(nextTemp) + 1
    {
      var model := PomFor(groupId, artifactId, version, packaging);
      if fault.CreateTempFails? {
        // the writer is still null; closing it does nothing
        r := Failure(MojoExecution(POM_WRITE_FAILED + fault.message, IOFailure));
        return;
      }
      var pom := nextTemp;
      nextTemp := nextTemp + 1;
      tempFiles := tempFiles + {pom};
      events := events + [TempCreated(pom)];
      if fault.WriterFails? {
        // the writer is still null; closing it does nothing
        r := Failure(MojoExecution(POM_WRITE_FAILED + fault.message, IOFailure));
        return;
      }
      events := events + [WriterOpened(pom)];
      if fault.WriteFails? {
        r := Failure(MojoExecution(POM_WRITE_FAILED + fault.message, IOFailure));
      } else {
        events := events + [PomWritten(pom, model)];
        r := Success(pom);
      }
      events := events + [WriterClosed(pom)];
    }

    /** `installer.install(file, artifact, localRepository)`, seen by the installer with the artifact's current state. */
    method InstallArtifact(file: string, artifact: Artifact, accepted: bool) returns (ok: bool)
      modifies this
      ensures ok == accepted
      ensures events == old(events) + [InstallCalled(file, artifact.coordinate, artifact.metadata, artifact.release)]
      ensures tempFiles == old(tempFiles) && nextTemp == old(nextTemp)
    {
      events := events + [InstallCalled(file, artifact.coordinate, artifact.metadata, artifact.release)];
      ok := accepted;
    }

    /** `pomFile.delete()`. */
    method DeleteTemp(pom: TempFile)
      requires Valid()
      modifies this
      ensures Valid()
      ensures tempFiles == old(tempFiles) - {pom} && nextTemp == old(nextTemp)
      ensures events == old(events) + [PomDeleted(pom)]
    {
      tempFiles := tempFiles - {pom};
      events := events + [PomDeleted(pom)];
    }
  }

  /** The goal, with the JAVA_HOME it was configured with and the host it runs on. */
  class JavaFXInstallMojo {
    const javaHome: string
    const host: Host

    constructor (javaHome: string, host: Host)
      ensures this.javaHome == javaHome && this.host == host
    {
      this.javaHome := javaHome;
      this.host := host;
    }

    /** `install`: one artifact, its temporary POM deleted whether the installer succeeds or throws. */
    method Install(artifactId: string, version: Option<string>, file: string, faults: InstallFaults) returns (status: Status)
      requires host.Valid()
      modifies host
      ensures host.Valid()
      ensures status == InstallRun(artifactId, version, file, faults, old(host.nextTemp)).status
      ensures host.events == old(host.events) + InstallRun(artifactId, version, file, faults, old(host.nextTemp)).events
      ensures host.tempFiles == old(host.tempFiles) + InstallRun(artifactId, version, file, faults, old(host.nextTemp)).leftover
      ensures host.nextTemp == old(host.nextTemp) + InstallRun(artifactId, version, file, faults, old(host.nextTemp)).temps
    {
      ghost var spec := InstallRun(artifactId, version, file, faults, host.nextTemp);
      ghost var before := host.events;
      var artifact := new Artifact(JarCoordinate(artifactId, version));
      var pom := host.GeneratePomFile(GROUP_ID, artifactId, version, "jar", faults.pom);
      if pom.Failure? {
        assert host.events == before + spec.events;
        return Failed(pom.error);
      }
      artifact.AddMetadata(pom.value);
      artifact.SetRelease(true);
      assert artifact.metadata == [pom.value] && artifact.release;
      ghost var written := host.events;
      // try
      var ok := host.InstallArtifact(file, artifact, faults.accepted);
      assert host.events == written + [InstallCalled(file, JarCoordinate(artifactId, version), [pom.value], true)];
      status := if ok then Done else Failed(MojoExecution(INSTALL_FAILED + artifactId, InstallationFailure));
      // finally
      host.DeleteTemp(pom.value);
      assert host.events == before + spec.events;
    }

    /** `execute`: locate the three files, read the version, install the runtime and then the ant jar. */
    method Execute(existing: set<string>, properties: PropertiesSource, runtime: InstallFaults, ant: InstallFaults)
      returns (status: Status)
      requires host.Valid()
      modifies host
      ensures host.Valid()
      ensures status == ExecuteRun(javaHome, existing, properties, runtime, ant, old(host.nextTemp)).status
      ensures host.events == old(host.events) + ExecuteRun(javaHome, existing, properties, runtime, ant, old(host.nextTemp)).events
      ensures host.tempFiles == old(host.tempFiles) + ExecuteRun(javaHome, existing, properties, runtime, ant, old(host.nextTemp)).leftover
      ensures host.nextTemp == old(host.nextTemp) + ExecuteRun(javaHome, existing, properties, runtime, ant, old(host.nextTemp)).temps
    {
      ghost var spec := ExecuteRun(javaHome, existing, properties, runtime, ant, host.nextTemp);
      // the properties file, then the runtime jar, then the ant jar; the first one missing aborts
      var located := Locate(existing, javaHome);
      if located.Failure? {
        NoPomLeftBeforeVersion(host.tempFiles, javaHome, existing, properties, runtime, ant, host.nextTemp);
        return Failed(located.error);
      }
      var files := located.value;

      var version := LoadJavaFxRuntimeVersion(files.propertiesFile, properties);
      if version.Failure? {
        assert spec == Run(Failed(version.error), [], {}, 0);
        NoPomLeftBeforeVersion(host.tempFiles, javaHome, existing, properties, runtime, ant, host.nextTemp);
        return Failed(version.error);
      }
      assert spec == InstallBothRun(version.value, files, runtime, ant, host.nextTemp);
      ghost var before, filesBefore := host.events, host.tempFiles;
      assert before == old(host.events) && filesBefore == old(host.tempFiles);
      status := InstallRuntimeThenAnt(version.value, files, runtime, ant);
      assert host.events == before + spec.events && host.tempFiles == filesBefore + spec.leftover;
    }

    /**
     * The end of `execute`: install the runtime, then the ant jar with the
     * same version, then announce the runtime's coordinate.
     */
    method InstallRuntimeThenAnt(version: Option<string>, files: Located, runtime: InstallFaults, ant: InstallFaults)
      returns (status: Status)
      requires host.Valid()
      modifies host
      ensures host.Valid()
      ensures status == InstallBothRun(version, files, runtime, ant, old(host.nextTemp)).status
      ensures host.events == old(host.events) + InstallBothRun(version, files, runtime, ant, old(host.nextTemp)).events
      ensures host.tempFiles == old(host.tempFiles) + InstallBothRun(version, files, runtime, ant, old(host.nextTemp)).leftover
      ensures host.nextTemp == old(host.nextTemp) + InstallBothRun(version, files, runtime, ant, old(host.nextTemp)).temps
    {
      ghost var before := host.events;
      ghost var first := InstallRun(RUNTIME_ARTIFACT_ID, version, files.runtimeJar, runtime, host.nextTemp);
      status := Install(RUNTIME_ARTIFACT_ID, version, files.runtimeJar, runtime);
      if status.Failed? { return; }
      ghost var second := InstallRun(ANT_ARTIFACT_ID, version, files.antJar, ant, host.nextTemp);
      status := Install(ANT_ARTIFACT_ID, version, files.antJar, ant);
      if status.Failed? {
        assert host.events == before + (first.events + second.events);
        return;
      }
      host.events := host.events + [DependencyAnnounced(JarCoordinate(RUNTIME_ARTIFACT_ID, version))];
      assert host.events == before + (first.events + second.events + [DependencyAnnounced(JarCoordinate(RUNTIME_ARTIFACT_ID, version))]);
    }
  }
}
