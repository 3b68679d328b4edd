// The library entry points of src/libfiles/export.cpp.
//
// The shared library keeps its configuration in globals that exported setters
// assign: the input file, the log file, the output name and whether one was
// given, and the `silentMode` and `xmlSchemeLocation` fields of the settings.
// Those globals are the fields of the class `Library`. `executePipeline` checks
// its argument and the schema location, derives the output-file stem, and
// runs seven stages in order, stopping at the first that reports an error.
//
// The stages (input validation, XML parsing, segment building, linking,
// closing the network, XML output, output validation) are defined elsewhere
// and are not part of this model. Each is deterministic; it sees what the
// stages before it produced from the input file and the output stem, and it
// may also read the global settings (`silentMode`, `xmlSchemeLocation`) that
// the setters change. Its status is modelled as a function `stage` of the
// stage, the input file and the output stem, passed in by the caller for one
// configuration of those settings; how a stage's result depends on them is not
// modelled.

module Export {
  import opened Wrappers

  // ---------------------------------------------------------------------------
  // The output-file stem

  /** pat occurs in s at position k. */
  predicate OccursAt(s: string, pat: string, k: int) {
    0 <= k && k + |pat| <= |s| && s[k..k + |pat|] == pat
  }

  /** `std::string::find`: the first position at which pat occurs; None stands for `npos`. */
  function Find(s: string, pat: string): (r: Option<nat>)
    ensures r.Some? ==> OccursAt(s, pat, r.value)
    ensures r.Some? ==> forall k :: 0 <= k < r.value ==> !OccursAt(s, pat, k)
    ensures r.None? ==> forall k :: !OccursAt(s, pat, k)
  {
    FindFrom(s, pat, 0)
  }

  /** The first position at or after i at which pat occurs. */
  function FindFrom(s: string, pat: string, i: nat): (r: Option<nat>)
    ensures r.Some? ==> i <= r.value && OccursAt(s, pat, r.value)
    ensures r.Some? ==> forall k :: i <= k < r.value ==> !OccursAt(s, pat, k)
    ensures r.None? ==> forall k :: i <= k ==> !OccursAt(s, pat, k)
    decreases |s| - i
  {
    if i + |pat| > |s| then None
    else if s[i..i + |pat|] == pat then Some(i)
    else FindFrom(s, pat, i + 1)
  }

  /** `substr(0, n)`: the first n characters, all of s when n is `npos` or past the end. */
  function Prefix(s: string, n: Option<nat>): (r: string)
    ensures |r| <= |s| && r == s[..|r|]
    ensures n.Some? && n.value < |s| ==> |r| == n.value
    ensures (n.None? || n.value >= |s|) ==> r == s
  {
    if n.Some? && n.value < |s| then s[..n.value] else s
  }

  /**
   * `data.outputFile`: the output name cut at its first ".xml" and then at
   * its first ".xodr", where both positions are searched in the uncut name.
   */
  function OutputFileName(name: string): string {
    Prefix(Prefix(name, Find(name, ".xml")), Find(name, ".xodr"))
  }

  /**
   * The stem is the longest prefix of the name in which neither ".xml" nor
   * ".xodr" starts: it is the whole name when neither occurs, and otherwise
   * ends where the first of them begins.
   */
  lemma OutputFileNameIsStem(name: string)
    ensures |OutputFileName(name)| <= |name| && OutputFileName(name) == name[..|OutputFileName(name)|]
    ensures forall k :: 0 <= k < |OutputFileName(name)| ==> !OccursAt(name, ".xml", k) && !OccursAt(name, ".xodr", k)
    ensures |OutputFileName(name)| < |name| ==>
      OccursAt(name, ".xml", |OutputFileName(name)|) || OccursAt(name, ".xodr", |OutputFileName(name)|)
  {
    var t := Prefix(name, Find(name, ".xml"));
    var r := OutputFileName(name);
    assert r == Prefix(t, Find(name, ".xodr"));
    assert name[..|t|][..|r|] == name[..|r|];
  }

  /** A stem without '.' followed by an ending that starts with ".xml" or ".xodr" loses exactly that ending. */
  lemma OutputFileNameOfSuffixed(stem: string, ext: string)
    requires OccursAt(ext, ".xml", 0) || OccursAt(ext, ".xodr", 0)
    requires forall i :: 0 <= i < |stem| ==> stem[i] != '.'
    ensures OutputFileName(stem + ext) == stem
  {
    var name := stem + ext;
    var n := |stem|;
    OutputFileNameIsStem(name);
    var r := OutputFileName(name);
    if OccursAt(ext, ".xml", 0) {
      assert name[n..n + 4] == ext[..4];
      assert OccursAt(name, ".xml", n);
    } else {
      assert name[n..n + 5] == ext[..5];
      assert OccursAt(name, ".xodr", n);
    }
    if |r| < |name| {
      if OccursAt(name, ".xml", |r|) {
        StartsWith(name, ".xml", |r|);
      } else {
        StartsWith(name, ".xodr", |r|);
      }
    }
    assert name[..n] == stem;
  }

  /** An occurrence begins with the first character of the pattern. */
  lemma StartsWith(s: string, pat: string, k: nat)
    requires |pat| > 0 && OccursAt(s, pat, k)
    ensures s[k] == pat[0]
  {
    assert s[k..k + |pat|][0] == s[k];
  }

  /**
   * Searching the already-cut name for ".xodr", as the second `find` was
   * presumably meant to, gives the same stem: a ".xodr" that starts before
   * the cut cannot straddle it, because the cut lies on the '.' of ".xml".
   */
  lemma CutSearchAgrees(name: string)
    ensures var t := Prefix(name, Find(name, ".xml"));
      Prefix(t, Find(t, ".xodr")) == OutputFileName(name)
  {
    var t := Prefix(name, Find(name, ".xml"));
    var kt := Find(t, ".xodr");
    var kn := Find(name, ".xodr");
    if kt.Some? {
      assert t[kt.value..kt.value + 5] == name[kt.value..kt.value + 5];
      assert OccursAt(name, ".xodr", kt.value);
    }
    if kn.Some? && kn.value < |t| {
      var k := kn.value;
      if |t| < |name| {
        NoStraddle(name, |t|, k);
      }
      assert t[k..k + 5] == name[k..k + 5];
      assert OccursAt(t, ".xodr", k);
    }
  }

  /** A ".xodr" that starts before a ".xml" ends before it: the '.' of ".xml" cannot fall inside ".xodr". */
  lemma NoStraddle(name: string, x: nat, k: nat)
    requires OccursAt(name, ".xml", x) && OccursAt(name, ".xodr", k) && k < x
    ensures k + 5 <= x
  {
    StartsWith(name, ".xml", x);
  }

  // ---------------------------------------------------------------------------
  // The pipeline

  /** The stages of `executePipeline`. */
  datatype Stage = ValidateInput | ParseXml | BuildSegments | LinkSegments | CloseRoadNetwork | CreateXml | ValidateOutput

  /** The order in which the stages run. */
  const Stages: seq<Stage> :=
    [ValidateInput, ParseXml, BuildSegments, LinkSegments, CloseRoadNetwork, CreateXml, ValidateOutput]

  /**
   * The outcome of running the stages on an input file and output stem: they
   * run in order up to the first one that fails, which gives -1, and the
   * status is 0 when all seven succeed.
   */
  ghost predicate StagesOutcome(file: string, out: string, stage: (Stage, string, string) -> int,
                                status: int, ran: seq<Stage>)
  {
    && (status == 0 || status == -1)
    && 1 <= |ran| <= |Stages| && ran == Stages[..|ran|]
    && (forall k :: 0 <= k < |ran| - 1 ==> stage(ran[k], file, out) == 0)
    && (status == 0 <==> stage(ran[|ran| - 1], file, out) == 0)
    && (status == 0 ==> ran == Stages)
  }

  /**
   * The outcome `executePipeline` promises for the given input file, for the
   * output name in force when the stages start and for the schema location:
   * -1 without running anything for a null file or an empty schema location;
   * otherwise the stages' outcome on the output-file stem.
   */
  ghost predicate PipelineOutcome(file: Option<string>, outName: string, scheme: string,
                                  stage: (Stage, string, string) -> int, status: int, ran: seq<Stage>)
  {
    if file.None? || scheme == "" then status == -1 && ran == []
    else StagesOutcome(file.value, OutputFileName(outName), stage, status, ran)
  }

  /** The outcome is determined: the status is 0 exactly when every stage succeeds. */
  lemma PipelineOutcomeAllStages(file: string, outName: string, scheme: string,
                                 stage: (Stage, string, string) -> int, status: int, ran: seq<Stage>)
    requires scheme != ""
    requires PipelineOutcome(Some(file), outName, scheme, stage, status, ran)
    ensures status == 0 <==> forall k :: 0 <= k < |Stages| ==> stage(Stages[k], file, OutputFileName(outName)) == 0
    ensures status != 0 ==> stage(ran[|ran| - 1], file, OutputFileName(outName)) != 0
  {
    if status != 0 {
      assert Stages[|ran| - 1] == ran[|ran| - 1];
    }
  }

  /** The stage calls of `executePipeline`, each checked before the next one runs. */
  method RunStages(f: string, outputFile: string, stage: (Stage, string, string) -> int) returns (status: int, ran: seq<Stage>)
    ensures StagesOutcome(f, outputFile, stage, status, ran)
  {
    ran := [ValidateInput];
    if stage(ValidateInput, f, outputFile) != 0 {
      return -1, ran;
    }
    ran := ran + [ParseXml];
    if stage(ParseXml, f, outputFile) != 0 {
      return -1, ran;
    }
    ran := ran + [BuildSegments];
    if stage(BuildSegments, f, outputFile) != 0 {
      return -1, ran;
    }
    ran := ran + [LinkSegments];
    if stage(LinkSegments, f, outputFile) != 0 {
      return -1, ran;
    }
    ran := ran + [CloseRoadNetwork];
    if stage(CloseRoadNetwork, f, outputFile) != 0 {
      return -1, ran;
    }
    ran := ran + [CreateXml];
    if stage(CreateXml, f, outputFile) != 0 {
      return -1, ran;
    }
    ran := ran + [ValidateOutput];
    if stage(ValidateOutput, f, outputFile) != 0 {
      return -1, ran;
    }
    return 0, ran;
  }

  /** The library's globals and its exported entry points. */
  class Library {
    /** `_fileName`: the input file; None is a null pointer. */
    var fileName: Option<string>
    /** `_logfile`. */
    var logFile: string
    /** `_outName`. */
    var outName: string
    /** `_setOutput`: whether an output name was set. */
    var setOutput: bool
    /** `setting.silentMode`. */
    var silentMode: bool
    /** `setting.xmlSchemeLocation`. */
    var xmlSchemeLocation: string

    /** The globals with the initial values their declarations give (in headers that are not part of this model). */
    constructor (fileName: Option<string>, logFile: string, outName: string, setOutput: bool,
                 silentMode: bool, xmlSchemeLocation: string)
      ensures this.fileName == fileName && this.logFile == logFile && this.outName == outName
      ensures this.setOutput == setOutput && this.silentMode == silentMode
      ensures this.xmlSchemeLocation == xmlSchemeLocation
    {
      this.fileName := fileName;
      this.logFile := logFile;
      this.outName := outName;
      this.setOutput := setOutput;
      this.silentMode := silentMode;
      this.xmlSchemeLocation := xmlSchemeLocation;
    }

    /** `setFileName`. */
    method SetFileName(file: Option<string>)
      modifies this
      ensures fileName == file
      ensures logFile == old(logFile) && outName == old(outName) && setOutput == old(setOutput)
      ensures silentMode == old(silentMode) && xmlSchemeLocation == old(xmlSchemeLocation)
    {
      fileName := file;
    }

    /** `setLogFile`. */
    method SetLogFile(file: string)
      modifies this
      ensures logFile == file
      ensures fileName == old(fileName) && outName == old(outName) && setOutput == old(setOutput)
      ensures silentMode == old(silentMode) && xmlSchemeLocation == old(xmlSchemeLocation)
    {
      logFile := file;
    }

    /** `setOutputName`: the name is kept and marked as given, so later runs do not replace it. */
    method SetOutputName(name: string)
      modifies this
      ensures outName == name && setOutput
      ensures fileName == old(fileName) && logFile == old(logFile)
      ensures silentMode == old(silentMode) && xmlSchemeLocation == old(xmlSchemeLocation)
    {
      outName := name;
      setOutput := true;
    }

    /** `setSilentMode`. */
    method SetSilentMode(mode: bool)
      modifies this
      ensures silentMode == mode
      ensures fileName == old(fileName) && logFile == old(logFile) && outName == old(outName)
      ensures setOutput == old(setOutput) && xmlSchemeLocation == old(xmlSchemeLocation)
    {
      silentMode := mode;
    }

    /** `setXMLSchemeLocation`. */
    method SetXmlSchemeLocation(file: string)
      modifies this
      ensures xmlSchemeLocation == file
      ensures fileName == old(fileName) && logFile == old(logFile) && outName == old(outName)
      ensures setOutput == old(setOutput) && silentMode == old(silentMode)
    {
      xmlSchemeLocation := file;
    }

    /**
     * `executePipeline`: a null file fails at once. Otherwise the output name
     * becomes the input file unless one was set; an empty schema location
     * fails; then the stages run in order and the first failure gives -1.
     * `ran` records which stages were called.
     */
    method ExecutePipeline(file: Option<string>, stage: (Stage, string, string) -> int) returns (status: int, ran: seq<Stage>)
      modifies this
      ensures file.None? ==> outName == old(outName)
      ensures file.Some? ==> outName == (if old(setOutput) then old(outName) else file.value)
      ensures fileName == old(fileName) && logFile == old(logFile) && setOutput == old(setOutput)
      ensures silentMode == old(silentMode) && xmlSchemeLocation == old(xmlSchemeLocation)
      ensures PipelineOutcome(file, outName, xmlSchemeLocation, stage, status, ran)
    {
      if file.None? {
        return -1, [];
      }
      var f := file.value;
      if !setOutput {
        outName := f;
      }
      if xmlSchemeLocation == "" {
        return -1, [];
      }
      var outputFile := Prefix(outName, Find(outName, ".xml"));
      outputFile := Prefix(outputFile, Find(outName, ".xodr"));
      assert outputFile == OutputFileName(outName);
      status, ran := RunStages(f, outputFile, stage);
    }

    /** `execPipeline`: the pipeline on the file set by `setFileName`. */
    method ExecPipeline(stage: (Stage, string, string) -> int) returns (status: int, ran: seq<Stage>)
      modifies this
      ensures fileName == old(fileName) && logFile == old(logFile) && setOutput == old(setOutput)
      ensures silentMode == old(silentMode) && xmlSchemeLocation == old(xmlSchemeLocation)
      ensures fileName.None? ==> outName == old(outName)
      ensures fileName.Some? ==> outName == (if old(setOutput) then old(outName) else fileName.value)
      ensures PipelineOutcome(fileName, outName, xmlSchemeLocation, stage, status, ran)
    {
      status, ran := ExecutePipeline(fileName, stage);
    }
  }
}
