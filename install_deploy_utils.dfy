/**
 * The helpers both install goals share: the JavaFX file locator, the
 * properties loader and the runtime version lookup, with the fixed Maven
 * coordinates under which the JavaFX artifacts are installed.
 *
 * The locator works on path strings built by concatenation, exactly as
 * `new File(javaHomeDir, "lib/" + filename)` does; which paths exist on disk
 * is the set `existing`.
 */
module InstallDeployUtils {
  import opened Wrappers
  import opened Errors
  import opened Paths

  const GROUP_ID := "com.sun.javafx"
  const RUNTIME_ARTIFACT_ID := "jfxrt"
  const ANT_ARTIFACT_ID := "ant-javafx"

  /** The key of the runtime version in javafx.properties. */
  const VERSION_KEY := "javafx.runtime.version"

  const LOAD_FAILED := "Unable to load JavaFX Properties"

  /** `new File(dir, rel)`: the path of `rel` under `dir`. */
  function Child(dir: string, rel: string): string
  {
    dir + "/" + rel
  }

  /** JAVA_HOME points to a JRE. */
  function LibCandidate(javaHome: string, filename: string): string
  {
    Child(javaHome, "lib/" + filename)
  }

  /** JAVA_HOME points to a JDK. */
  function JreLibCandidate(javaHome: string, filename: string): string
  {
    Child(javaHome, "jre/lib/" + filename)
  }

  /** JAVA_HOME points to a JRE inside a JDK. */
  function ParentLibCandidate(javaHome: string, filename: string): string
  {
    Child(javaHome, "../lib/" + filename)
  }

  /** The three places searched, in the order they are tried. */
  function Candidates(javaHome: string, filename: string): (c: seq<string>)
    ensures |c| == 3
  {
    [LibCandidate(javaHome, filename), JreLibCandidate(javaHome, filename), ParentLibCandidate(javaHome, filename)]
  }

  function NotFoundMessage(javaHome: string, filename: string): string
  {
    "Unable to find JavaFX '" + filename + "' at '" + javaHome
    + "'. Is your JAVA_HOME set to a JDK with JavaFX installed (must be at least Java 7u9)?"
  }

  /**
   * Reference definition of a first-match search: the first of `candidates`
   * that exists, if any does.
   */
  function FirstExisting(candidates: seq<string>, existing: set<string>): Option<string>
  {
    if candidates == [] then None
    else if candidates[0] in existing then Some(candidates[0])
    else FirstExisting(candidates[1..], existing)
  }

  /** The search finds a candidate exactly when one exists, and it finds the first one that does. */
  lemma {:induction false} FirstExistingIsFirst(candidates: seq<string>, existing: set<string>)
    ensures FirstExisting(candidates, existing).Some? <==> exists i :: 0 <= i < |candidates| && candidates[i] in existing
    ensures FirstExisting(candidates, existing).Some? ==>
              exists i :: 0 <= i < |candidates| && candidates[i] == FirstExisting(candidates, existing).value
                          && candidates[i] in existing && forall j :: 0 <= j < i ==> candidates[j] !in existing
    decreases |candidates|
  {
    if candidates == [] {
    } else if candidates[0] in existing {
      assert candidates[0] == FirstExisting(candidates, existing).value;
    } else {
      var rest := candidates[1..];
      FirstExistingIsFirst(rest, existing);
      var r := FirstExisting(rest, existing);
      if r.Some? {
        var i :| 0 <= i < |rest| && rest[i] == r.value && rest[i] in existing
                 && forall j :: 0 <= j < i ==> rest[j] !in existing;
        assert candidates[i + 1] == r.value;
        forall j | 0 <= j < i + 1
          ensures candidates[j] !in existing
        {
          if j > 0 {
            assert candidates[j] == rest[j - 1];
          }
        }
      } else {
        forall i | 0 <= i < |candidates|
          ensures candidates[i] !in existing
        {
          if i > 0 {
            assert candidates[i] == rest[i - 1];
          }
        }
      }
    }
  }

  /** `findJfxFile`: the first candidate that exists, or the not-found exception. */
  function FindJfxFile(existing: set<string>, javaHome: string, filename: string): (r: Result<string, Failure>)
    ensures r.Success? ==> r.value in existing && r.value in Candidates(javaHome, filename)
    ensures r.Failure? <==> forall c :: c in Candidates(javaHome, filename) ==> c !in existing
    ensures r.Failure? ==> r.error == MojoExecution(NotFoundMessage(javaHome, filename), NoCause)
  {
    var lib := LibCandidate(javaHome, filename);
    if lib in existing then Success(lib)
    else
      var jreLib := JreLibCandidate(javaHome, filename);
      if jreLib in existing then Success(jreLib)
      else
        var parentLib := ParentLibCandidate(javaHome, filename);
        if parentLib in existing then Success(parentLib)
        else Failure(MojoExecution(NotFoundMessage(javaHome, filename), NoCause))
  }

  /** The locator is exactly a first-match search over the three candidates, in order. */
  lemma FindJfxFileIsFirstMatch(existing: set<string>, javaHome: string, filename: string)
    ensures FindJfxFile(existing, javaHome, filename) ==
      match FirstExisting(Candidates(javaHome, filename), existing)
      case Some(path) => Success(path)
      case None => Failure(MojoExecution(NotFoundMessage(javaHome, filename), NoCause))
  {
    var lib, jreLib, parentLib := LibCandidate(javaHome, filename), JreLibCandidate(javaHome, filename),
                                  ParentLibCandidate(javaHome, filename);
    assert Candidates(javaHome, filename) == [lib, jreLib, parentLib];
    FirstOfThree(lib, jreLib, parentLib, existing);
  }

  /** A first-match search over three candidates tries them in order. */
  lemma FirstOfThree(a: string, b: string, c: string, existing: set<string>)
    ensures FirstExisting([a, b, c], existing)
         == if a in existing then Some(a) else if b in existing then Some(b) else if c in existing then Some(c) else None
  {
    assert [a, b, c][1..] == [b, c];
    assert [b, c][1..] == [c];
    assert [c][1..] == [];
    assert FirstExisting([c], existing) == if c in existing then Some(c) else None;
    assert FirstExisting([b, c], existing) == if b in existing then Some(b) else FirstExisting([c], existing);
  }

  /** The three candidates are three different paths. */
  lemma CandidatesDistinct(javaHome: string, filename: string)
    ensures LibCandidate(javaHome, filename) != JreLibCandidate(javaHome, filename)
    ensures LibCandidate(javaHome, filename) != ParentLibCandidate(javaHome, filename)
    ensures JreLibCandidate(javaHome, filename) != ParentLibCandidate(javaHome, filename)
  {
    assert |LibCandidate(javaHome, filename)| == |javaHome| + 5 + |filename|;
    assert |JreLibCandidate(javaHome, filename)| == |javaHome| + 9 + |filename|;
    assert |ParentLibCandidate(javaHome, filename)| == |javaHome| + 8 + |filename|;
  }

  /** A JRE layout wins whatever else exists. */
  lemma LibCandidateWins(existing: set<string>, javaHome: string, filename: string)
    ensures FindJfxFile(existing, javaHome, filename) == Success(LibCandidate(javaHome, filename))
        <==> LibCandidate(javaHome, filename) in existing
  {
    CandidatesDistinct(javaHome, filename);
  }

  /** The JDK layout is chosen exactly when the JRE layout is missing and it exists. */
  lemma JreLibCandidateChosen(existing: set<string>, javaHome: string, filename: string)
    ensures FindJfxFile(existing, javaHome, filename) == Success(JreLibCandidate(javaHome, filename))
        <==> LibCandidate(javaHome, filename) !in existing && JreLibCandidate(javaHome, filename) in existing
  {
    CandidatesDistinct(javaHome, filename);
  }

  /** The nested-JRE layout is chosen exactly when both earlier candidates are missing and it exists. */
  lemma ParentLibCandidateChosen(existing: set<string>, javaHome: string, filename: string)
    ensures FindJfxFile(existing, javaHome, filename) == Success(ParentLibCandidate(javaHome, filename))
        <==> LibCandidate(javaHome, filename) !in existing && JreLibCandidate(javaHome, filename) !in existing
             && ParentLibCandidate(javaHome, filename) in existing
  {
    CandidatesDistinct(javaHome, filename);
  }

  /** The not-found message names both the file searched for and the JAVA_HOME searched. */
  lemma NotFoundMessageNamesFileAndHome(javaHome: string, filename: string)
    ensures IsInfix(filename, NotFoundMessage(javaHome, filename))
    ensures IsInfix(javaHome, NotFoundMessage(javaHome, filename))
  {
    var prefix := "Unable to find JavaFX '";
    var middle := "' at '";
    var msg := NotFoundMessage(javaHome, filename);
    var rest := "'. Is your JAVA_HOME set to a JDK with JavaFX installed (must be at least Java 7u9)?";
    assert msg == prefix + filename + middle + javaHome + rest;
    assert OccursAt(filename, msg, |prefix|);
    assert OccursAt(javaHome, msg, |prefix| + |filename| + |middle|);
  }

  /**
   * What the disk and the JDK's `Properties.load` do with one properties
   * file: whether `new FileInputStream` opens it, and what `load` parses
   * from it (None: `load` throws an IOException).
   */
  datatype PropertiesSource = PropertiesSource(opens: bool, parsed: Option<map<string, string>>)

  /** What happens to the input stream, in order. */
  datatype StreamEvent = Opened(path: string) | Loaded | Closed

  /**
   * `loadJavaFxProperties` as written: `input` starts as null and the
   * `finally` block calls `input.close()` without checking it, so when the
   * open itself fails the NullPointerException from `close` replaces the
   * MojoFailureException the `catch` block threw. An IOException from
   * `close` is ignored.
   */
  method LoadJavaFxProperties(path: string, source: PropertiesSource)
    returns (r: Result<map<string, string>, Failure>, trace: seq<StreamEvent>)
    ensures Opened(path) in trace <==> source.opens
    ensures source.opens ==> trace[|trace| - 1] == Closed && Closed !in trace[..|trace| - 1]
    ensures !source.opens ==> Closed !in trace
    ensures !source.opens ==> r == Failure(NullPointer)
    ensures source.opens && source.parsed.None? ==> r == Failure(MojoFailure(LOAD_FAILED, IOFailure))
    ensures source.opens && source.parsed.Some? ==> r == Success(source.parsed.value)
  {
    var input: Option<string> := None;
    var pending: Result<map<string, string>, Failure>;
    trace := [];
    // try
    if !source.opens {
      pending := Failure(MojoFailure(LOAD_FAILED, IOFailure));
    } else {
      input := Some(path);
      trace := trace + [Opened(path)];
      if source.parsed.None? {
        pending := Failure(MojoFailure(LOAD_FAILED, IOFailure));
      } else {
        trace := trace + [Loaded];
        pending := Success(source.parsed.value);
      }
    }
    // finally: `input.close()`, with its IOException ignored
    if input.None? {
      r := Failure(NullPointer);
    } else {
      trace := trace + [Closed];
      r := pending;
    }
  }

  /** An unreadable javafx.properties ends the goal with a NullPointerException, not with the intended MojoFailureException. */
  method UnreadablePropertiesRaisesNullPointer() returns (r: Result<map<string, string>, Failure>)
    ensures r == Failure(NullPointer)
    ensures r != Failure(MojoFailure(LOAD_FAILED, IOFailure))
  {
    var trace;
    r, trace := LoadJavaFxProperties("/opt/jdk/jre/lib/javafx.properties", PropertiesSource(false, None));
  }

  /**
   * `loadJavaFxProperties` as evidently intended: the stream is closed only
   * when it was opened, so every IOException while loading surfaces as the
   * MojoFailureException "Unable to load JavaFX Properties".
   */
  method LoadJavaFxPropertiesGuarded(path: string, source: PropertiesSource)
    returns (r: Result<map<string, string>, Failure>, trace: seq<StreamEvent>)
    ensures Opened(path) in trace <==> source.opens
    ensures source.opens ==> trace[|trace| - 1] == Closed && Closed !in trace[..|trace| - 1]
    ensures !source.opens ==> Closed !in trace
    ensures r.Success? <==> source.opens && source.parsed.Some?
    ensures r.Success? ==> r.value == source.parsed.value
    ensures r.Failure? ==> r.error == MojoFailure(LOAD_FAILED, IOFailure)
  {
    var input: Option<string> := None;
    trace := [];
    if !source.opens {
      r := Failure(MojoFailure(LOAD_FAILED, IOFailure));
    } else {
      input := Some(path);
      trace := trace + [Opened(path)];
      if source.parsed.None? {
        r := Failure(MojoFailure(LOAD_FAILED, IOFailure));
      } else {
        trace := trace + [Loaded];
        r := Success(source.parsed.value);
      }
    }
    if input.Some? {
      trace := trace + [Closed];
    }
  }

  /** The runtime version recorded in a loaded properties map; a missing key gives null. */
  function VersionIn(properties: map<string, string>): (v: Option<string>)
    ensures v.Some? <==> VERSION_KEY in properties
    ensures v.Some? ==> v.value == properties[VERSION_KEY]
  {
    if VERSION_KEY in properties then Some(properties[VERSION_KEY]) else None
  }

  /**
   * `loadJavaFxRuntimeVersion`: load the properties with the loader as
   * written, then look up the version. A file without the key is not an
   * error: the result is null (None). A file that does not open ends in the
   * loader's NullPointerException.
   */
  method LoadJavaFxRuntimeVersion(path: string, source: PropertiesSource) returns (r: Result<Option<string>, Failure>)
    ensures r == ReadVersion(source)
    ensures r.Success? <==> source.opens && source.parsed.Some?
    ensures r.Success? ==> r.value == VersionIn(source.parsed.value)
    ensures r.Success? && VERSION_KEY !in source.parsed.value ==> r.value == None
    ensures !source.opens ==> r == Failure(NullPointer)
    ensures source.opens && source.parsed.None? ==> r == Failure(MojoFailure(LOAD_FAILED, IOFailure))
  {
    var properties, trace := LoadJavaFxProperties(path, source);
    match properties
    case Success(p) => r := Success(VersionIn(p));
    case Failure(e) => r := Failure(e);
  }

  /** The outcome of `loadJavaFxRuntimeVersion` for a given properties file. */
  function ReadVersion(source: PropertiesSource): Result<Option<string>, Failure>
  {
    if !source.opens then Failure(NullPointer)
    else if source.parsed.Some? then Success(VersionIn(source.parsed.value))
    else Failure(MojoFailure(LOAD_FAILED, IOFailure))
  }

  const PROPERTIES_FILE := "javafx.properties"
  const RUNTIME_JAR := "jfxrt.jar"
  const ANT_JAR := "ant-javafx.jar"

  /** The three files both install goals locate, in the order they locate them. */
  datatype Located = Located(propertiesFile: string, runtimeJar: string, antJar: string)

  function Locate(existing: set<string>, javaHome: string): (r: Result<Located, Failure>)
    ensures r.Success? ==> Success(r.value.propertiesFile) == FindJfxFile(existing, javaHome, PROPERTIES_FILE)
    ensures r.Success? ==> Success(r.value.runtimeJar) == FindJfxFile(existing, javaHome, RUNTIME_JAR)
    ensures r.Success? ==> Success(r.value.antJar) == FindJfxFile(existing, javaHome, ANT_JAR)
    ensures r.Success? <==> FindJfxFile(existing, javaHome, PROPERTIES_FILE).Success?
                            && FindJfxFile(existing, javaHome, RUNTIME_JAR).Success?
                            && FindJfxFile(existing, javaHome, ANT_JAR).Success?
    ensures FindJfxFile(existing, javaHome, PROPERTIES_FILE).Failure? ==> r == Failure(FindJfxFile(existing, javaHome, PROPERTIES_FILE).error)
    ensures FindJfxFile(existing, javaHome, PROPERTIES_FILE).Success? && FindJfxFile(existing, javaHome, RUNTIME_JAR).Failure? ==>
      r == Failure(FindJfxFile(existing, javaHome, RUNTIME_JAR).error)
    ensures FindJfxFile(existing, javaHome, PROPERTIES_FILE).Success? && FindJfxFile(existing, javaHome, RUNTIME_JAR).Success?
            && FindJfxFile(existing, javaHome, ANT_JAR).Failure? ==>
      r == Failure(FindJfxFile(existing, javaHome, ANT_JAR).error)
    ensures r.Failure? ==> r.error.MojoExecution?
  {
    match FindJfxFile(existing, javaHome, PROPERTIES_FILE)
    case Failure(e) => Failure(e)
    case Success(propertiesFile) =>
      match FindJfxFile(existing, javaHome, RUNTIME_JAR)
      case Failure(e) => Failure(e)
      case Success(runtimeJar) =>
        match FindJfxFile(existing, javaHome, ANT_JAR)
        case Failure(e) => Failure(e)
        case Success(antJar) => Success(Located(propertiesFile, runtimeJar, antJar))
  }
}
