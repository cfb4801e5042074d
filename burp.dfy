/** The BURP adapter: a mapping request becomes command-line options of the BURP jar, with the
    mapping and output files addressed inside the container's shared directory. */
module Burp {
  import opened Wrappers
  import opened Text
  import opened Paths
  import opened Container

  const Version := "1.0.0"
  const Image := "kgconstruct/burp:v" + Version
  const EngineName := "BURP"

  /** Where the case's shared directory appears inside the container. */
  const SharedMount := "/data/shared/"
  const Jar := "burp/burp.jar"
  /** The flag added to the command when the adapter was made verbose. */
  const VerboseFlag := "-vvvvvvvvvvvvv"

  /** The volumes of the engine's container for the case directory `dataPath`. */
  function Volumes(dataPath: string): seq<string> {
    [Binding(dataPath + "/burp", "/data"), Binding(dataPath + "/shared", "/data/shared")]
  }

  /** The engine's own directory is the container's `/data`, and the shared directory is mounted
      at `SharedMount`, without its trailing '/'. */
  lemma VolumesMounts(dataPath: string)
    ensures |Volumes(dataPath)| == 2
    ensures HostOf(Volumes(dataPath)[0]) == dataPath + "/burp" && TargetOf(Volumes(dataPath)[0]) == "/data"
    ensures HostOf(Volumes(dataPath)[1]) == dataPath + "/shared" && TargetOf(Volumes(dataPath)[1]) + "/" == SharedMount
    ensures TargetOf(Volumes(dataPath)[0]) != TargetOf(Volumes(dataPath)[1])
  {
    assert ':' !in "/data/shared" && ':' !in "/data";
    BindingRoundTrip(dataPath + "/burp", "/data");
    BindingRoundTrip(dataPath + "/shared", "/data/shared");
  }

  /** The options `execute_mapping` passes: the mapping file, then the output file and the base IRI
      when they are given, each after its flag; the serialization is not passed at all. */
  function Arguments(mappingFile: string, outputFile: Option<string>, baseIri: Option<string>): seq<string> {
    ["-m", Join(SharedMount, mappingFile)]
      + (if outputFile.Some? then ["-o", Join(SharedMount, outputFile.value)] else [])
      + (if baseIri.Some? then ["-b", baseIri.value] else [])
  }

  /** The argument list has length 2, 4 or 6: `-m` and the mapping file first, then `-o` and the
      output file exactly when one is given, then `-b` and the base IRI exactly when one is given. */
  lemma ArgumentsLayout(mappingFile: string, outputFile: Option<string>, baseIri: Option<string>)
    ensures var args := Arguments(mappingFile, outputFile, baseIri);
      && |args| == 2 + (if outputFile.Some? then 2 else 0) + (if baseIri.Some? then 2 else 0)
      && args[0] == "-m" && args[1] == Join(SharedMount, mappingFile)
      && (outputFile.Some? ==> args[2] == "-o" && args[3] == Join(SharedMount, outputFile.value))
      && (baseIri.Some? ==> args[|args| - 2] == "-b" && args[|args| - 1] == baseIri.value)
      && (outputFile.Some? <==> |args| >= 4 && args[2] == "-o")
      && (baseIri.Some? <==> |args| >= 4 && args[|args| - 2] == "-b")
  {
  }

  /** How BURP reads a list of `flag value` pairs: a map from flag to value, or nothing when a flag
      lacks its value or comes twice. */
  function ParseFlags(args: seq<string>): Option<map<string, string>>
    decreases |args|
  {
    if args == [] then Some(map[])
    else if |args| == 1 then None
    else match ParseFlags(args[2..])
      case None => None
      case Some(flags) => if args[0] in flags then None else Some(flags[args[0] := args[1]])
  }

  /** The options BURP receives for a request: `-m` always, `-o` exactly when an output file is
      given, `-b` exactly when a base IRI is given, and no other. */
  function ExpectedFlags(mappingFile: string, outputFile: Option<string>, baseIri: Option<string>): map<string, string> {
    OutputFlags(outputFile, baseIri)["-m" := Join(SharedMount, mappingFile)]
  }

  /** The options after `-m`, as BURP reads them. */
  function OutputFlags(outputFile: Option<string>, baseIri: Option<string>): map<string, string> {
    var b: map<string, string> := if baseIri.Some? then map["-b" := baseIri.value] else map[];
    if outputFile.Some? then b["-o" := Join(SharedMount, outputFile.value)] else b
  }

  lemma ParseFlagsPair(flag: string, value: string, rest: seq<string>)
    requires ParseFlags(rest).Some? && flag !in ParseFlags(rest).value
    ensures ParseFlags([flag, value] + rest) == Some(ParseFlags(rest).value[flag := value])
  {
    assert ([flag, value] + rest)[2..] == rest;
  }

  lemma BaseIriFlags(baseIri: Option<string>)
    ensures ParseFlags(if baseIri.Some? then ["-b", baseIri.value] else [])
         == Some(if baseIri.Some? then map["-b" := baseIri.value] else map[])
  {
    if baseIri.Some? {
      ParseFlagsPair("-b", baseIri.value, []);
      assert ["-b", baseIri.value] + [] == ["-b", baseIri.value];
    }
  }

  lemma OutputFlagsParsed(outputFile: Option<string>, baseIri: Option<string>)
    ensures ParseFlags((if outputFile.Some? then ["-o", Join(SharedMount, outputFile.value)] else [])
                       + (if baseIri.Some? then ["-b", baseIri.value] else []))
         == Some(OutputFlags(outputFile, baseIri))
  {
    var b: seq<string> := if baseIri.Some? then ["-b", baseIri.value] else [];
    BaseIriFlags(baseIri);
    if outputFile.Some? {
      ParseFlagsPair("-o", Join(SharedMount, outputFile.value), b);
    } else {
      assert [] + b == b;
    }
  }

  /** Reading the arguments back as BURP does gives each file and the base IRI under its flag. */
  lemma ArgumentsRoundTrip(mappingFile: string, outputFile: Option<string>, baseIri: Option<string>)
    ensures ParseFlags(Arguments(mappingFile, outputFile, baseIri)) == Some(ExpectedFlags(mappingFile, outputFile, baseIri))
  {
    var ob := (if outputFile.Some? then ["-o", Join(SharedMount, outputFile.value)] else [])
              + (if baseIri.Some? then ["-b", baseIri.value] else []);
    OutputFlagsParsed(outputFile, baseIri);
    assert Arguments(mappingFile, outputFile, baseIri) == ["-m", Join(SharedMount, mappingFile)] + ob;
    ParseFlagsPair("-m", Join(SharedMount, mappingFile), ob);
  }

  /** The start of the command, up to the options: java with its heap, the jar, and the verbosity flag. */
  function Launcher(heap: nat, verbose: bool): string {
    var base := "java" + " " + ("-Xmx" + Decimal(heap)) + " " + ("-Xms" + Decimal(heap)) + " " + "-jar" + " " + Jar;
    if verbose then base + " " + VerboseFlag else base
  }

  /** The command `_execute_with_timeout` hands to the container for `arguments`. */
  function Command(heap: nat, verbose: bool, arguments: seq<string>): string {
    Launcher(heap, verbose) + " " + JoinWith(" ", arguments)
  }

  lemma FlagsAreWords()
    ensures IsWord("java") && IsWord("-jar") && IsWord(Jar) && IsWord(VerboseFlag)
  {
  }

  /** The launcher's words: java, the heap set to `heap` both ways, the jar, and the verbosity flag
      exactly when the adapter is verbose. */
  lemma LauncherWords(heap: nat, verbose: bool)
    ensures Words(Launcher(heap, verbose))
         == ["java", "-Xmx" + Decimal(heap), "-Xms" + Decimal(heap), "-jar", Jar] + (if verbose then [VerboseFlag] else [])
  {
    NumberedFlagIsWord("-Xmx", heap);
    NumberedFlagIsWord("-Xms", heap);
    FlagsAreWords();
    var base := "java" + " " + ("-Xmx" + Decimal(heap)) + " " + ("-Xms" + Decimal(heap)) + " " + "-jar" + " " + Jar;
    WordsOfFive("java", "-Xmx" + Decimal(heap), "-Xms" + Decimal(heap), "-jar", Jar);
    if verbose {
      WordsAppendWord(base, VerboseFlag);
    } else {
      assert Launcher(heap, verbose) == base;
    }
  }

  /** Split at its spaces, the command is the launcher's words and then the arguments, one word each. */
  lemma CommandWords(heap: nat, verbose: bool, arguments: seq<string>)
    requires AllWords(arguments)
    ensures Words(Command(heap, verbose, arguments))
         == ["java", "-Xmx" + Decimal(heap), "-Xms" + Decimal(heap), "-jar", Jar]
            + (if verbose then [VerboseFlag] else []) + arguments
  {
    LauncherWords(heap, verbose);
    WordsOfSpaceJoin(Launcher(heap, verbose), JoinWith(" ", arguments));
    WordsOfJoin(arguments);
  }

  /** A file name without spaces stays one word once placed in the shared directory. */
  lemma SharedFileIsWord(file: string)
    requires ' ' !in file
    ensures IsWord(Join(SharedMount, file))
  {
    assert ' ' !in SharedMount;
    if !StartsWith(file, "/") {
      JoinRelative(SharedMount, file);
      assert SharedMount[0] == Join(SharedMount, file)[0];
    }
  }

  /** When the file names and the base IRI hold no spaces, the container splits the command so that
      BURP receives exactly the arguments `execute_mapping` built, after the launcher's words. */
  lemma MappingCommandWords(heap: nat, verbose: bool, mappingFile: string, outputFile: Option<string>, baseIri: Option<string>)
    requires ' ' !in mappingFile
    requires outputFile.Some? ==> ' ' !in outputFile.value
    requires baseIri.Some? ==> IsWord(baseIri.value)
    ensures Words(Command(heap, verbose, Arguments(mappingFile, outputFile, baseIri)))
         == ["java", "-Xmx" + Decimal(heap), "-Xms" + Decimal(heap), "-jar", Jar]
            + (if verbose then [VerboseFlag] else []) + Arguments(mappingFile, outputFile, baseIri)
  {
    ArgumentsAreWords(mappingFile, outputFile, baseIri);
    CommandWords(heap, verbose, Arguments(mappingFile, outputFile, baseIri));
  }

  lemma ArgumentsAreWords(mappingFile: string, outputFile: Option<string>, baseIri: Option<string>)
    requires ' ' !in mappingFile
    requires outputFile.Some? ==> ' ' !in outputFile.value
    requires baseIri.Some? ==> IsWord(baseIri.value)
    ensures AllWords(Arguments(mappingFile, outputFile, baseIri))
  {
    SharedFileIsWord(mappingFile);
    var head := ["-m", Join(SharedMount, mappingFile)];
    var o: seq<string> := if outputFile.Some? then ["-o", Join(SharedMount, outputFile.value)] else [];
    var b: seq<string> := if baseIri.Some? then ["-b", baseIri.value] else [];
    assert AllWords(head) by {
      assert IsWord("-m");
    }
    assert AllWords(o) by {
      if outputFile.Some? {
        SharedFileIsWord(outputFile.value);
        assert IsWord("-o");
      }
    }
    assert AllWords(b) by {
      assert IsWord("-b");
    }
    AllWordsConcat(head, o);
    AllWordsConcat(head + o, b);
    assert Arguments(mappingFile, outputFile, baseIri) == head + o + b;
  }

  /** Every part is a command-line word. */
  predicate AllWords(parts: seq<string>) {
    forall i :: 0 <= i < |parts| ==> IsWord(parts[i])
  }

  lemma AllWordsConcat(a: seq<string>, b: seq<string>)
    requires AllWords(a) && AllWords(b)
    ensures AllWords(a + b)
  {
    forall i | 0 <= i < |a + b|
      ensures IsWord((a + b)[i])
    {
      if i >= |a| {
        assert (a + b)[i] == b[i - |a|];
      }
    }
  }

  /** The adapter's object: the image and volumes it hands to its container base class. */
  class Burp {
    /** The image and the name handed to the container base class. */
    const image: string
    const name: string
    const dataPath: string
    const verbose: bool
    const expectFailure: bool
    const volumes: seq<string>

    /** `dataPath` is the case's data directory, already made absolute. */
    constructor (dataPath: string, verbose: bool, expectFailure: bool)
      ensures this.dataPath == dataPath && this.verbose == verbose && this.expectFailure == expectFailure
      ensures volumes == Volumes(dataPath)
      ensures image == Image && name == EngineName
    {
      image, name := Image, EngineName;
      this.dataPath := dataPath;
      this.verbose := verbose;
      this.expectFailure := expectFailure;
      volumes := Volumes(dataPath);
    }

    /** Starts BURP with half of `totalMemory` as its heap and the given arguments. */
    method ExecuteWithTimeout(arguments: seq<string>, totalMemory: nat, run: string -> RunOutcome)
      returns (outcome: RunOutcome)
      ensures outcome == run(Command(HeapSize(totalMemory), verbose, arguments))
    {
      var maxHeap := HeapSize(totalMemory);
      var cmd := "java" + " " + ("-Xmx" + Decimal(maxHeap)) + " " + ("-Xms" + Decimal(maxHeap));
      cmd := cmd + " " + "-jar" + " " + Jar;
      if verbose {
        cmd := cmd + " " + VerboseFlag;
      }
      cmd := cmd + " " + JoinWith(" ", arguments);
      outcome := run(cmd);
    }

    /** A run that times out counts as a failure; otherwise the run's own verdict is returned. */
    method Execute(arguments: seq<string>, totalMemory: nat, run: string -> RunOutcome)
      returns (success: bool)
      ensures success <==> run(Command(HeapSize(totalMemory), verbose, arguments)) == Exited(true)
    {
      var outcome := ExecuteWithTimeout(arguments, totalMemory, run);
      match outcome
      case TimedOut =>
        success := false;
      case Exited(ok) =>
        success := ok;
    }

    /** Runs BURP on a mapping; the serialization plays no part, as BURP writes N-Quads. */
    method ExecuteMapping(mappingFile: string, serialization: string, outputFile: Option<string>,
                          baseIri: Option<string>, totalMemory: nat, run: string -> RunOutcome)
      returns (success: bool)
      ensures success <==>
        run(Command(HeapSize(totalMemory), verbose, Arguments(mappingFile, outputFile, baseIri))) == Exited(true)
    {
      ghost var head := ["-m", Join(SharedMount, mappingFile)];
      ghost var outputPart: seq<string> := if outputFile.Some? then ["-o", Join(SharedMount, outputFile.value)] else [];
      ghost var baseIriPart: seq<string> := if baseIri.Some? then ["-b", baseIri.value] else [];
      var arguments := ["-m", Join(SharedMount, mappingFile)];
      if outputFile.Some? {
        arguments := arguments + ["-o"];
        arguments := arguments + [Join(SharedMount, outputFile.value)];
      }
      assert arguments == head + outputPart;
      if baseIri.Some? {
        arguments := arguments + ["-b"];
        arguments := arguments + [baseIri.value];
      }
      assert arguments == head + outputPart + baseIriPart;
      success := Execute(arguments, totalMemory, run);
    }
  }
}
