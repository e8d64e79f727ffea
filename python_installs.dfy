/** The text handling of the bundled-Python provisioning in
    src/python_installs.ts: the parsers of the two probe outputs, the commands,
    URL and paths built from them, the empty-output rule of the module
    installer, and the way the stages of the two entry points chain.

    Running a subprocess is a parameter: a `Shell` maps the command line to the
    standard output it prints. The input box is an `Option<string>`. Network
    transfer and archive streaming are not modelled; the download stage is the
    `DownloadJob` it is started with. */
module PythonInstalls {
  import opened JsString

  datatype Option<T> = None | Some(value: T)

  /** A settled promise: resolved with a value, or rejected with an Error's message. */
  datatype Result<T> = Ok(value: T) | Err(message: string)

  /** The standard output a shell command line prints. */
  type Shell = string -> string

  // ---------------------------------------------------------------------------
  // Path probe (getPythonPath)

  const Sentinel := "###TEST_BLENDER###"
  const FoundLabel := "found bundled python: "
  const PathSuffix := "/python"
  const ProbeError :=
    "A simple check to get a console output from blender to retrieve the path from the bundled python."
    + " Please create a bug report when you are sure that the selected file is Blender 2.8 or newer."
    + " The report should contain the full path to the executable."

  /** The command that starts Blender headless with factory settings and makes
      its Python print the sentinel and exit. */
  function ProbeCommand(blenderPath: string): string {
    blenderPath + " --factory-startup -b --python-expr \"import sys;print('"
    + Sentinel + "');sys.stdout.flush();sys.exit()\""
  }

  /** What getPythonPath resolves or rejects with, given Blender's standard output. */
  function GetPythonPath(stdout: string): (r: Result<string>)
    ensures r.Err? <==> !Contains(stdout, Sentinel)
    ensures r.Err? ==> r.message == ProbeError
    ensures r.Ok? ==> Contains(stdout, r.value)
  {
    if !Includes(stdout, Sentinel) then Err(ProbeError)
    else Ok(Slice(stdout, Search(stdout, FoundLabel) + |FoundLabel|, Search(stdout, PathSuffix) + |PathSuffix|))
  }

  // ---------------------------------------------------------------------------
  // Version probe (getPythonVersion)

  const VersionError := "Call Blender bundled python with -V failed."

  /** The command that asks the bundled interpreter for its version banner;
      the shell expands the `python3*` glob. */
  function VersionCommand(pythonPath: string): string {
    pythonPath + "/bin/python3* -V"
  }

  /** What getPythonVersion resolves or rejects with, given the banner. */
  function GetPythonVersion(stdout: string): (r: Result<string>)
    ensures r.Err? <==> |stdout| == 0
    ensures r.Err? ==> r.message == VersionError
    ensures r.Ok? ==> |r.value| <= 5 && Contains(stdout, r.value)
    ensures r.Ok? && |stdout| >= 12 ==> r.value == stdout[7..12]
    ensures r.Ok? ==> r.value == stdout[(if |stdout| < 7 then |stdout| else 7)..(if |stdout| < 12 then |stdout| else 12)]
  {
    if |stdout| == 0 then Err(VersionError)
    else Ok(Slice(stdout, 7, 12))
  }

  // ---------------------------------------------------------------------------
  // Download and install names (downloadAndInstallPythonHeaders)

  const ReleaseServer := "https://www.python.org/ftp/python/"
  const ExtractDir := "/tmp"

  function DownloadUrl(version: string): string {
    ReleaseServer + version + "/Python-" + version + ".tgz"
  }

  function ArchivePath(version: string): string {
    "/tmp/Python-" + version + ".tgz"
  }

  /** The directory of the extracted release that is packed again. */
  function IncludeSource(version: string): string {
    "/tmp/Python-" + version + "/Include"
  }

  /** Where the packed Include directory is extracted. */
  function IncludeDestination(pythonPath: string): string {
    pythonPath + "/include"
  }

  // ---------------------------------------------------------------------------
  // Module installation (installPythonModule)

  const ModuleError := "Error calling bindled python."

  /** What string concatenation makes of the input box's answer: a cancelled
      box yields `undefined`, which JavaScript spells out. */
  function ModuleArgument(input: Option<string>): string {
    match input
    case Some(name) => name
    case None => "undefined"
  }

  /** The pip command; the pip location is fixed to the python3.7 tree. */
  function PipCommand(pythonPath: string, moduleName: string): string {
    pythonPath + "/bin/python3* " + pythonPath + "/lib/python3.7/site-packages/pip install " + moduleName
  }

  /** How the module installation settles, given pip's standard output. */
  function PipOutcome(stdout: string): (r: Result<()>)
    ensures r.Err? <==> |stdout| == 0
    ensures r.Err? ==> r.message == ModuleError
  {
    if |stdout| == 0 then Err(ModuleError) else Ok(())
  }

  // ---------------------------------------------------------------------------
  // Stage chaining of the two entry points

  datatype Stage = ProbePath | ProbeVersion | StartDownload | AskModuleName | RunPip

  /** What the fire-and-forget download stage is started with. */
  datatype DownloadJob = DownloadJob(version: string, pythonPath: string)

  /** The stages started, the commands run in order, and how the entry point settles. */
  datatype Run<T> = Run(stages: seq<Stage>, commands: seq<string>, outcome: Result<T>)

  const HeaderStages := [ProbePath, ProbeVersion, StartDownload]
  const ModuleStages := [ProbePath, AskModuleName, RunPip]

  /** installPythonHeaderFiles: each awaited probe that rejects ends the run
      with its error; once both resolve, the download is started with the
      version and the path and the entry point resolves without waiting for it. */
  function InstallPythonHeaderFiles(blenderPath: string, exec: Shell): (run: Run<DownloadJob>)
    ensures 1 <= |run.stages| <= 3 && run.stages == HeaderStages[..|run.stages|]
    ensures |run.commands| == (if |run.stages| == 1 then 1 else 2) && run.commands[0] == ProbeCommand(blenderPath)
    ensures |run.stages| > 1 <==> Contains(exec(ProbeCommand(blenderPath)), Sentinel)
    ensures |run.stages| > 1 ==> (run.outcome.Ok? <==> |exec(run.commands[1])| > 0)
    ensures run.outcome.Ok? <==> |run.stages| == 3
  {
    var probe := ProbeCommand(blenderPath);
    match GetPythonPath(exec(probe))
    case Err(e) => Run([ProbePath], [probe], Err(e))
    case Ok(pythonPath) =>
      var versionCmd := VersionCommand(pythonPath);
      match GetPythonVersion(exec(versionCmd))
      case Err(e) => Run([ProbePath, ProbeVersion], [probe, versionCmd], Err(e))
      case Ok(version) => Run(HeaderStages, [probe, versionCmd], Ok(DownloadJob(version, pythonPath)))
  }

  /** installPythonModule: the path probe, then the input box, then pip; the
      run rejects when the probe rejects or pip prints nothing. */
  function InstallPythonModule(blenderPath: string, exec: Shell, input: Option<string>): (run: Run<()>)
    ensures 1 <= |run.stages| <= 3 && run.stages == ModuleStages[..|run.stages|]
    ensures |run.commands| == (if |run.stages| == 1 then 1 else 2) && run.commands[0] == ProbeCommand(blenderPath)
    ensures |run.stages| != 2
    ensures |run.stages| == 1 <==> !Contains(exec(ProbeCommand(blenderPath)), Sentinel)
    ensures |run.stages| > 1 ==> EndsWith(run.commands[1], " install " + ModuleArgument(input))
    ensures run.outcome.Ok? <==> |run.stages| > 1 && |exec(run.commands[1])| > 0
  {
    var probe := ProbeCommand(blenderPath);
    match GetPythonPath(exec(probe))
    case Err(e) => Run([ProbePath], [probe], Err(e))
    case Ok(pythonPath) =>
      var pip := PipCommand(pythonPath, ModuleArgument(input));
      PipCommandEndsWithName(pythonPath, ModuleArgument(input));
      Run(ModuleStages, [probe, pip], PipOutcome(exec(pip)))
  }

  // ---------------------------------------------------------------------------
  // Properties

  /** The first occurrence of `pat` is the one at `i` when nothing occurs before it. */
  lemma SearchFindsFirst(s: string, pat: string, i: int)
    requires OccursAt(s, pat, i)
    requires forall k :: 0 <= k < i ==> !OccursAt(s, pat, k)
    ensures Search(s, pat) == i
  {
    var r := Search(s, pat);
    assert r != -1;
  }

  /** With the label first found at `i` and `/python` first found at `j`, no
      earlier than the label's end, the probe yields the text between them,
      ending in `/python`. */
  lemma ProbeBetweenMarkers(stdout: string, i: int, j: int)
    requires Contains(stdout, Sentinel)
    requires OccursAt(stdout, FoundLabel, i) && forall k :: 0 <= k < i ==> !OccursAt(stdout, FoundLabel, k)
    requires OccursAt(stdout, PathSuffix, j) && forall k :: 0 <= k < j ==> !OccursAt(stdout, PathSuffix, k)
    requires j >= i + |FoundLabel|
    ensures GetPythonPath(stdout) == Ok(stdout[i + |FoundLabel|..j + |PathSuffix|])
    ensures EndsWith(GetPythonPath(stdout).value, PathSuffix)
  {
    SearchFindsFirst(stdout, FoundLabel, i);
    SearchFindsFirst(stdout, PathSuffix, j);
  }

  /** A sentinel without the label still resolves: the missing label's -1 makes
      the slice start at 21, never at a negative index. */
  lemma ProbeWithoutLabel(stdout: string, j: int)
    requires Contains(stdout, Sentinel) && !Contains(stdout, FoundLabel)
    requires OccursAt(stdout, PathSuffix, j) && forall k :: 0 <= k < j ==> !OccursAt(stdout, PathSuffix, k)
    requires 21 <= j
    ensures GetPythonPath(stdout) == Ok(stdout[21..j + |PathSuffix|])
  {
    SearchFindsFirst(stdout, PathSuffix, j);
  }

  /** The probe output used by `ProbeExample`, built from its parts. */
  ghost predicate IsExampleOutput(s: string) {
    s == FoundLabel + "/opt/app" + PathSuffix + "\n" + Sentinel + "\n"
  }

  lemma ExampleLabelHasNoSuffix(s: string)
    requires IsExampleOutput(s)
    ensures forall k :: 0 <= k < |FoundLabel| ==> !OccursAt(s, PathSuffix, k)
  {
    assert forall k :: 0 <= k < 22 ==> s[k] == FoundLabel[k];
    assert forall k :: 0 <= k < 22 ==> FoundLabel[k] != '/';
    NoOccurrenceWithoutFirstChar(s, PathSuffix, 0, 22);
  }

  lemma ExampleDirHasNoSuffix(s: string)
    requires IsExampleOutput(s)
    ensures forall k :: |FoundLabel| <= k < |FoundLabel| + 8 ==> !OccursAt(s, PathSuffix, k)
  {
    assert s[22..30] == "/opt/app";
    assert s[23] == 'o' && s[24] == 'p' && s[25] == 't' && s[27] == 'a' && s[28] == 'p' && s[29] == 'p';
  }

  lemma ExampleMarkers(s: string)
    requires IsExampleOutput(s)
    ensures OccursAt(s, Sentinel, 38) && OccursAt(s, FoundLabel, 0) && OccursAt(s, PathSuffix, 30)
    ensures s[22..37] == "/opt/app/python"
  {
    assert s[38..38 + |Sentinel|] == Sentinel;
    assert s[0..22] == FoundLabel;
    assert s[30..37] == PathSuffix;
  }

  /** A sentinel without any `/python` resolves to the empty path: the slice
      ends at -1 + 7 = 6, before any start the label can give. The next stage
      then runs `/bin/python3* -V` and the headers would go to `/include`. */
  lemma ProbeWithoutSuffix(stdout: string)
    requires Contains(stdout, Sentinel) && !Contains(stdout, PathSuffix)
    ensures GetPythonPath(stdout) == Ok("")
    ensures VersionCommand(GetPythonPath(stdout).value) == "/bin/python3* -V"
    ensures IncludeDestination(GetPythonPath(stdout).value) == "/include"
  {
    assert Search(stdout, PathSuffix) + |PathSuffix| == 6;
    assert Search(stdout, FoundLabel) + |FoundLabel| >= 21;
  }

  /** The output `found bundled python: /opt/app/python\n###TEST_BLENDER###\n`
      yields `/opt/app/python`. */
  lemma ProbeExample()
    ensures GetPythonPath(FoundLabel + "/opt/app" + PathSuffix + "\n" + Sentinel + "\n") == Ok("/opt/app/python")
  {
    var s := FoundLabel + "/opt/app" + PathSuffix + "\n" + Sentinel + "\n";
    ExampleMarkers(s);
    ExampleLabelHasNoSuffix(s);
    ExampleDirHasNoSuffix(s);
    ProbeBetweenMarkers(s, 0, 30);
  }

  /** A banner of the form `Python X.Y.Z` with a five-character version yields that version. */
  lemma VersionOfBanner(v: string, rest: string)
    requires |v| == 5
    ensures GetPythonVersion("Python " + v + rest) == Ok(v)
  {
    assert ("Python " + v + rest)[7..12] == v;
  }

  /** A banner shorter than `Python X.Y.Z` yields everything after `Python `,
      line break included: `Python 3.9\n` yields `3.9\n`. */
  lemma VersionOfShortBanner(v: string)
    requires |v| < 5
    ensures GetPythonVersion("Python " + v) == Ok(v)
  {
    var banner := "Python " + v;
    assert |banner| < 12 && banner[7..|banner|] == v;
  }

  lemma VersionExample()
    ensures GetPythonVersion("Python 3.7.4\n") == Ok("3.7.4")
  {
    assert "Python 3.7.4\n" == "Python " + "3.7.4" + "\n";
    VersionOfBanner("3.7.4", "\n");
  }

  /** With a two-digit minor version the fixed slice keeps the trailing dot
      and loses the patch level: `Python 3.10.2` yields `3.10.`. */
  lemma VersionTwoDigitMinor(major: char, minor: string, patch: string)
    requires |minor| == 2
    ensures GetPythonVersion("Python " + [major] + "." + minor + "." + patch) == Ok([major] + "." + minor + ".")
  {
    var v := [major] + "." + minor + ".";
    assert "Python " + [major] + "." + minor + "." + patch == "Python " + v + patch;
    VersionOfBanner(v, patch);
  }

  /** The path component after the last `/`. */
  function LastSegment(s: string): (r: string)
    ensures '/' !in r
    ensures EndsWith(s, r)
  {
    if |s| == 0 || s[|s| - 1] == '/' then ""
    else LastSegment(s[..|s| - 1]) + [s[|s| - 1]]
  }

  lemma {:induction false} LastSegmentAfterSlash(p: string, f: string)
    requires '/' !in f
    ensures LastSegment(p + "/" + f) == f
    decreases |f|
  {
    if |f| > 0 {
      var f' := f[..|f| - 1];
      assert (p + "/" + f)[..|p + "/" + f| - 1] == p + "/" + f';
      LastSegmentAfterSlash(p, f');
      assert f == f' + [f[|f| - 1]];
    } else {
      assert p + "/" + f == p + "/";
    }
  }

  /** The archive is saved under the file name the URL downloads. */
  lemma ArchiveNamedAsUrl(version: string)
    requires '/' !in version
    ensures LastSegment(DownloadUrl(version)) == "Python-" + version + ".tgz"
    ensures LastSegment(ArchivePath(version)) == "Python-" + version + ".tgz"
  {
    var name := "Python-" + version + ".tgz";
    assert '/' !in name by {
      forall k | 0 <= k < |name| ensures name[k] != '/' {
        if 7 <= k < 7 + |version| { assert name[k] == version[k - 7]; }
      }
    }
    assert DownloadUrl(version) == ReleaseServer + version + "/" + name;
    assert ArchivePath(version) == "/tmp" + "/" + name;
    LastSegmentAfterSlash(ReleaseServer + version, name);
    LastSegmentAfterSlash("/tmp", name);
  }

  /** Different versions are fetched from different URLs. */
  lemma {:induction false} DownloadUrlInjective(v1: string, v2: string)
    requires DownloadUrl(v1) == DownloadUrl(v2)
    ensures v1 == v2
  {
    var n := |ReleaseServer|;
    assert |v1| == |v2|;
    assert v1 == DownloadUrl(v1)[n..n + |v1|];
    assert v2 == DownloadUrl(v2)[n..n + |v2|];
  }

  /** The packed directory is the Include directory of the tree the archive
      unpacks to, inside the extraction directory. */
  lemma IncludeSourceFromArchive(version: string)
    ensures EndsWith(ArchivePath(version), ".tgz")
    ensures IncludeSource(version) == ArchivePath(version)[..|ArchivePath(version)| - 4] + "/Include"
    ensures IncludeSource(version)[..|ExtractDir| + 1] == ExtractDir + "/"
  {
    var a := ArchivePath(version);
    assert a[..|a| - 4] == "/tmp/Python-" + version;
    assert a[|a| - 4..] == ".tgz";
  }

  /** The probe command runs the given executable headless and carries the sentinel. */
  lemma ProbeCommandShape(blenderPath: string)
    ensures ProbeCommand(blenderPath)[..|blenderPath| + 37] == blenderPath + " --factory-startup -b --python-expr \""
    ensures Contains(ProbeCommand(blenderPath), Sentinel)
  {
    var c := ProbeCommand(blenderPath);
    var at := |blenderPath| + 37 + |"import sys;print('"|;
    assert c[at..at + |Sentinel|] == Sentinel;
    assert OccursAt(c, Sentinel, at);
  }

  /** The module name is handed to pip verbatim, at the end of the command. */
  lemma PipCommandEndsWithName(pythonPath: string, moduleName: string)
    ensures EndsWith(PipCommand(pythonPath, moduleName), " install " + moduleName)
    ensures PipCommand(pythonPath, moduleName)[..|pythonPath| + 14] == pythonPath + "/bin/python3* "
  {
    var c := PipCommand(pythonPath, moduleName);
    assert c[|c| - |" install " + moduleName|..] == " install " + moduleName;
  }

  /** A cancelled input box installs a package called `undefined`. */
  lemma CancelledInputInstallsUndefined(pythonPath: string)
    ensures EndsWith(PipCommand(pythonPath, ModuleArgument(None)), " install undefined")
  {
    PipCommandEndsWithName(pythonPath, "undefined");
  }

  /** The version probe runs only after the path probe resolved and uses that
      path; the download starts only after the version probe resolved and
      receives that version and path unchanged; a rejection is the rejecting
      stage's own error. */
  lemma HeaderStageOrder(blenderPath: string, exec: Shell)
    ensures var run := InstallPythonHeaderFiles(blenderPath, exec);
      var path := GetPythonPath(exec(ProbeCommand(blenderPath)));
      && (ProbeVersion in run.stages <==> path.Ok?)
      && (ProbeVersion in run.stages ==> run.commands[1] == VersionCommand(path.value))
      && (StartDownload in run.stages <==> run.outcome.Ok?)
      && (run.outcome.Ok? ==>
            path == Ok(run.outcome.value.pythonPath)
            && GetPythonVersion(exec(VersionCommand(run.outcome.value.pythonPath))) == Ok(run.outcome.value.version))
      && (run.outcome.Err? ==> run.outcome.message == if path.Ok? then VersionError else ProbeError)
  {
  }

  /** pip runs only after the path probe resolved, on that path and the input
      box's answer; a rejection is the rejecting stage's own error. */
  lemma ModuleStageOrder(blenderPath: string, exec: Shell, input: Option<string>)
    ensures var run := InstallPythonModule(blenderPath, exec, input);
      var path := GetPythonPath(exec(ProbeCommand(blenderPath)));
      && (AskModuleName in run.stages <==> path.Ok?)
      && (path.Ok? ==> run.commands[1] == PipCommand(path.value, ModuleArgument(input)))
      && (run.outcome.Err? ==> run.outcome.message == if path.Ok? then ModuleError else ProbeError)
  {
  }

  /** A resolved header run hands the download the probed path and the parsed
      version, and the packed `Include` tree is extracted straight into
      `<path>/include`, with no version-named subdirectory. */
  lemma HeaderJobTargets(blenderPath: string, exec: Shell)
    ensures var run := InstallPythonHeaderFiles(blenderPath, exec);
      var path := GetPythonPath(exec(ProbeCommand(blenderPath)));
      run.outcome.Ok? ==>
        && path.Ok?
        && run.outcome.value.pythonPath == path.value
        && IncludeDestination(run.outcome.value.pythonPath) == path.value + "/include"
        && IncludeSource(run.outcome.value.version) == ExtractDir + "/Python-" + run.outcome.value.version + "/Include"
  {
  }
}
