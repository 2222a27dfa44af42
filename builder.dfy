/** The build: how the base name and the output paths are derived from the
    form's fields, and the sequence check source, purge, assemble, reconcile,
    check COM, package, that `App._build_thread` runs. */
module Builder {
  import opened PathText
  import opened FileSystems
  import opened Reconciler
  import opened Logging

  // ---------------------------------------------------------------------------
  // Output names

  /** The project name `_on_asm_changed` derives from the source field: the
      upper-cased stem of the stripped text, or "" when that text is empty. */
  function BaseOf(asmText: string): (r: string)
    ensures Strip(asmText) == "" ==> r == ""
    ensures Strip(asmText) != "" ==> Lower(r) == Lower(Stem(Name(Strip(asmText))))
  {
    var p := Strip(asmText);
    if p == "" then "" else LowerOfUpper(Stem(Name(p))); Upper(Stem(Name(p)))
  }

  /** The values `_out_paths` returns. */
  datatype OutPaths = OutPaths(wd: string, base: string, com: Path, dsk: Path, obj: Path, log: string)

  /** `_out_paths`, in the current folder `cwd`: the working folder is the
      resolved field, and the base is the stored project name, or the
      upper-cased stem of the unstripped source field when that name is empty. */
  function OutPathsOf(cwd: string, workdir: string, asmText: string, baseUpper: string, logDir: string): OutPaths
  {
    var base := if baseUpper != "" then baseUpper else Upper(Stem(Name(asmText)));
    var workdir := Resolve(cwd, workdir);
    OutPaths(workdir, base,
             Path(workdir, base + ".COM"), Path(workdir, base + ".DSK"), Path(workdir, base + ".o"),
             JoinPath(logDir, base + "_build.log"))
  }

  /** The derived base names are upper-case: they hold no lower-case ASCII letter. */
  lemma BaseIsUpperCase(asmText: string, baseUpper: string, cwd: string, workdir: string, logDir: string)
    requires baseUpper == BaseOf(asmText)
    ensures forall i :: 0 <= i < |BaseOf(asmText)| ==> !IsAsciiLower(BaseOf(asmText)[i])
    ensures var base := OutPathsOf(cwd, workdir, asmText, baseUpper, logDir).base;
            forall i :: 0 <= i < |base| ==> !IsAsciiLower(base[i])
  {
    var p := Strip(asmText);
    if p != "" {
      UpperHasNoLower(Stem(Name(p)));
    }
    if baseUpper == "" {
      UpperHasNoLower(Stem(Name(asmText)));
    }
  }

  /** The three outputs lie in the working folder under the base name; the COM
      path is the reconciler's canonical path and is a variant it collects,
      while the DSK and the object file are not variants and are never touched
      by the purge or the reconciler. */
  lemma OutputNames(cwd: string, workdir: string, asmText: string, baseUpper: string, logDir: string)
    ensures var o := OutPathsOf(cwd, workdir, asmText, baseUpper, logDir);
            && o.wd == Resolve(cwd, workdir) && o.com == Desired(o.wd, o.base)
            && o.com.dir == o.dsk.dir == o.obj.dir == o.wd
            && Matches(o.com.name, o.base) && !Matches(o.dsk.name, o.base) && !Matches(o.obj.name, o.base)
            && o.com != o.dsk && o.dsk != o.obj && o.obj != o.com
  {
    var o := OutPathsOf(cwd, workdir, asmText, baseUpper, logDir);
    var b := o.base;
    DesiredMatches(o.wd, b);
    LowerAppend(b, ".DSK");
    LowerAppend(b, ".o");
    assert WantedLower(b)[|b| + 1] == 'c';
    assert Lower(b + ".DSK")[|b| + 1] == 'd';
    assert |Lower(b + ".o")| != |WantedLower(b)|;
    assert o.com.name[|b| + 1] != o.dsk.name[|b| + 1];
  }

  /** Deriving the project name back from the COM path gives the base it was
      built from. */
  lemma BaseOfComPath(wd: string, base: string)
    requires base != "" && '/' !in base
    requires forall i :: 0 <= i < |base| ==> !IsAsciiLower(base[i])
    requires wd != "" ==> !IsSpace(wd[0])
    ensures BaseOf(JoinPath(wd, Desired(wd, base).name)) == base
  {
    var n := base + ".COM";
    var p := JoinPath(wd, n);
    assert '/' !in n by {
      assert forall i :: 0 <= i < |n| ==> n[i] == (if i < |base| then base[i] else ".COM"[i - |base|]);
    }
    assert p[0] == (if wd != "" then wd[0] else '/');
    assert p[|p| - 1] == 'M';
    StripKeepsTrimmed(p);
    NameOfJoin(wd, n);
    StemOfExtended(base, ".COM");
    UpperFixesUpperCase(base);
  }

  /** The disk format passed to the packager: the stripped field, or "einstein"
      when that is empty. */
  function PackFormat(field: string): (r: string)
    ensures r != ""
    ensures Strip(field) != "" ==> r == Strip(field)
    ensures Strip(field) == "" ==> r == "einstein"
  {
    var f := Strip(field);
    if f == "" then "einstein" else f
  }

  // ---------------------------------------------------------------------------
  // Status

  datatype Status =
    | Ready
    | Selected(project: string)
    | Building
    | SourceNotFound
    | ComNotProduced
    | BuildOk(dskName: string)
    | BuildFailed(fault: Fault)
    | DskMissing
    | MameExited
    | RunFailed(fault: Fault)

  /** The decimal text of an integer. */
  function IntText(n: int): string
    decreases if n < 0 then 1 - n else n
  {
    if n < 0 then "-" + IntText(-n)
    else if n < 10 then ["0123456789"[n]]
    else IntText(n / 10) + ["0123456789"[n % 10]]
  }

  /** The message of an exception. */
  function FaultText(f: Fault): string
  {
    match f
    case LaunchError(reason) => reason
    case NonZeroExit(rc, args) =>
      "Command '[" + Join(", ", seq(|args|, i requires 0 <= i < |args| => "'" + args[i] + "'")) +
      "]' returned non-zero exit status " + IntText(rc) + "."
    case OsFailure(NoSuchDirectory(d)) => "[Errno 2] No such file or directory: '" + d + "'"
  }

  /** The text of the status line. */
  function StatusText(s: Status): string
  {
    match s
    case Ready => "Ready"
    case Selected(project) => "Selected project: " + project + ".ASM"
    case Building => "Building\U{2026}"
    case SourceNotFound => "Error: Source .asm not found."
    case ComNotProduced => "Error: COM not produced."
    case BuildOk(dskName) => "Build OK \U{2014} " + dskName
    case BuildFailed(f) => "Build failed: " + FaultText(f)
    case DskMissing => "Error: .DSK missing. Build first."
    case MameExited => "MAME exited normally."
    case RunFailed(f) => "Run failed: " + FaultText(f)
  }

  /** The status line reads "Error: ..." exactly for the three checks that
      stop a build or a run, "Build failed: ..." exactly for a build that
      raised, and a successful build's line ends with the DSK name. */
  lemma StatusTextKinds(s: Status)
    ensures "Error: " <= StatusText(s) <==> s.SourceNotFound? || s.ComNotProduced? || s.DskMissing?
    ensures "Build failed: " <= StatusText(s) <==> s.BuildFailed?
    ensures s.BuildOk? ==> |s.dskName| < |StatusText(s)| && StatusText(s)[|StatusText(s)| - |s.dskName|..] == s.dskName
  {
    var t := StatusText(s);
    match s
    case Selected(project) => assert t[0] == 'S';
    case BuildOk(dskName) => assert t[0] == 'B' && t[6] == 'O';
    case RunFailed(f) => assert t[0] == 'R';
    case BuildFailed(f) => assert t[0] == 'B' && t[..14] == "Build failed: ";
    case SourceNotFound => assert t[0] == 'E' && t[..7] == "Error: ";
    case ComNotProduced => assert t[0] == 'E' && t[..7] == "Error: ";
    case DskMissing => assert t[0] == 'E' && t[..7] == "Error: ";
    case Ready => assert |t| < 7;
    case Building => assert t[0] == 'B' && t[1] == 'u';
    case MameExited => assert t[0] == 'M';
  }

  // ---------------------------------------------------------------------------
  // The build as a state machine over abstract tool runs

  /** The form fields a build reads, with the logs folder. */
  datatype BuildConfig = BuildConfig(cwd: string, asm: string, workdir: string, baseUpper: string,
                                     z80asm: string, appmake: string, cpmdiskFmt: string, logDir: string)

  function Outs(cfg: BuildConfig): OutPaths
  {
    OutPathsOf(cfg.cwd, cfg.workdir, cfg.asm, cfg.baseUpper, cfg.logDir)
  }

  /** `asm`: the resolved source field. */
  function SourceText(cfg: BuildConfig): string
  {
    Resolve(cfg.cwd, cfg.asm)
  }

  /** The source as a file: its folder is `asm.parent`. */
  function SourcePath(cfg: BuildConfig): Path
  {
    Path(Parent(SourceText(cfg)), Name(SourceText(cfg)))
  }

  /** `asm.exists()`: a file or a folder is at the source path. An empty field
      names the current folder, which passes whenever that folder exists. */
  predicate SourceExists(cfg: BuildConfig, files: map<Path, FileInfo>, dirs: set<string>)
  {
    SourcePath(cfg) in files || SourceText(cfg) in dirs
  }

  /** The assembler's command line: the resolved tool, the resolved source,
      and the canonical COM name as the output. */
  function AsmArgs(cfg: BuildConfig): seq<string>
  {
    [Resolve(cfg.cwd, cfg.z80asm), "-v", "-b", SourceText(cfg), "-o" + Outs(cfg).com.name]
  }

  /** The packager's command line: the resolved tool, a non-empty disk
      format (the stripped field whenever that is not blank), the canonical
      COM name to boot, and the DSK name as the output. */
  function PackArgs(cfg: BuildConfig): seq<string>
  {
    [Resolve(cfg.cwd, cfg.appmake), "+cpmdisk", "-f", PackFormat(cfg.cpmdiskFmt), "-b", Outs(cfg).com.name, "-o", Outs(cfg).dsk.name]
  }

  /** The assembler is given the resolved source, which is the field itself
      when that is an absolute path and the current folder when it is empty,
      and is asked to write the canonical COM name. */
  lemma AsmArgsShape(cfg: BuildConfig)
    ensures |AsmArgs(cfg)| == 5 && AsmArgs(cfg)[3] == SourceText(cfg)
    ensures AsmArgs(cfg)[4] == "-o" + Desired(Outs(cfg).wd, Outs(cfg).base).name
    ensures cfg.asm == "" ==> AsmArgs(cfg)[3] == cfg.cwd
    ensures cfg.asm != "" && cfg.asm[0] == '/' ==> AsmArgs(cfg)[3] == cfg.asm
  {
    ResolveKeepsField(cfg.cwd, cfg.asm);
  }

  /** The packager is asked for the disk format and to boot the uppercase COM
      file; a blank format field falls back to a default. */
  lemma PackArgsShape(cfg: BuildConfig)
    ensures |PackArgs(cfg)| == 8 && PackArgs(cfg)[4] == "-b" && PackArgs(cfg)[5] == Desired(Outs(cfg).wd, Outs(cfg).base).name
    ensures PackArgs(cfg)[3] != ""
    ensures Strip(cfg.cpmdiskFmt) != "" ==> PackArgs(cfg)[3] == Strip(cfg.cpmdiskFmt)
    ensures Strip(cfg.cpmdiskFmt) == "" ==> PackArgs(cfg)[3] == "einstein"
    ensures PackArgs(cfg)[7] == Outs(cfg).dsk.name && PackArgs(cfg)[7] != PackArgs(cfg)[5]
  {
    OutputNames(cfg.cwd, cfg.workdir, cfg.asm, cfg.baseUpper, cfg.logDir);
  }

  /** The folders once the working folder and the logs folder are created. */
  function BuildDirs(cfg: BuildConfig, dirs: set<string>): set<string>
  {
    dirs + {Outs(cfg).wd, Parent(Outs(cfg).log)}
  }

  /** The files after the purge of the working folder and the assembler run. */
  function Assembled(cfg: BuildConfig, files: map<Path, FileInfo>, dirs: set<string>, assembler: ToolRun): map<Path, FileInfo>
  {
    AfterRun(Purged(files, Outs(cfg).wd, Outs(cfg).base), BuildDirs(cfg, dirs), assembler)
  }

  /** The case variants of the COM file the reconciler finds after assembling. */
  function ComCandidates(cfg: BuildConfig, files: map<Path, FileInfo>, dirs: set<string>, assembler: ToolRun): set<Path>
  {
    Candidates(Assembled(cfg, files, dirs, assembler), BuildDirs(cfg, dirs), Outs(cfg).wd, SourcePath(cfg).dir, Outs(cfg).base)
  }

  /** The assembler ran and exited with 0. */
  predicate AsmSucceeded(cfg: BuildConfig, assembler: ToolRun)
  {
    RunFault(AsmArgs(cfg), assembler).None?
  }

  /** `keep` is a choice the reconciler can make in a build whose source
      check came out as `found`: there is none unless the build gets as far
      as the reconciler. */
  ghost predicate StagesKeepOk(found: bool, cfg: BuildConfig, files: map<Path, FileInfo>, dirs: set<string>,
                               assembler: ToolRun, keep: Option<Path>)
  {
    if found && AsmSucceeded(cfg, assembler)
    then ValidKeep(Assembled(cfg, files, dirs, assembler),
                   Candidates(Assembled(cfg, files, dirs, assembler), BuildDirs(cfg, dirs), Outs(cfg).wd, SourcePath(cfg).dir, Outs(cfg).base),
                   Desired(Outs(cfg).wd, Outs(cfg).base), keep)
    else keep == None
  }

  /** `keep` is a choice the reconciler can make in this build. */
  ghost predicate BuildKeepOk(cfg: BuildConfig, files: map<Path, FileInfo>, dirs: set<string>, assembler: ToolRun, keep: Option<Path>)
  {
    StagesKeepOk(SourceExists(cfg, files, dirs), cfg, files, dirs, assembler, keep)
  }

  /** The files after the reconciler kept `keep`, in a build that gets that far. */
  ghost function ReconciledFiles(cfg: BuildConfig, files: map<Path, FileInfo>, dirs: set<string>, assembler: ToolRun, keep: Option<Path>): map<Path, FileInfo>
    requires AsmSucceeded(cfg, assembler) && StagesKeepOk(true, cfg, files, dirs, assembler, keep)
  {
    KeptIsAFile(Assembled(cfg, files, dirs, assembler), ComCandidates(cfg, files, dirs, assembler), Desired(Outs(cfg).wd, Outs(cfg).base), keep);
    Reconciled(Assembled(cfg, files, dirs, assembler), ComCandidates(cfg, files, dirs, assembler), Desired(Outs(cfg).wd, Outs(cfg).base), keep)
  }

  /** The log text of a build up to and including the assembler run. */
  function AssemblyLog(cfg: BuildConfig, timestamp: string, assembler: ToolRun): string
  {
    Header(timestamp) + LineText("Building " + SourceText(cfg)) + RunLog(AsmArgs(cfg), assembler)
  }

  /** The end state of a build: the status line, the filesystem, and the tool
      invocations made, in order. */
  datatype BuildResult = BuildResult(status: Status, files: map<Path, FileInfo>, dirs: set<string>,
                                     logs: map<string, string>, calls: seq<seq<string>>)

  /** The rest of `_build_thread` once the assembler exited with 0, from the
      state it left: reconcile the variants of the COM of `o` found in the
      working folder and `asmDir`, stop when the canonical COM does not exist,
      otherwise run the packager with `packArgs`. */
  ghost function ReconcileStage(o: OutPaths, asmDir: string, packArgs: seq<string>, files: map<Path, FileInfo>,
                                dirs: set<string>, logs: map<string, string>, packager: ToolRun, keep: Option<Path>): BuildResult
    requires ValidKeep(files, Candidates(files, dirs, o.wd, asmDir, o.base), Desired(o.wd, o.base), keep)
  {
    var cands := Candidates(files, dirs, o.wd, asmDir, o.base);
    KeptIsAFile(files, cands, Desired(o.wd, o.base), keep);
    var reconciled := Reconciled(files, cands, Desired(o.wd, o.base), keep);
    if Desired(o.wd, o.base) !in reconciled then BuildResult(ComNotProduced, reconciled, dirs, logs, [])
    else
      var fault := RunFault(packArgs, packager);
      BuildResult(if fault.Some? then BuildFailed(fault.value) else BuildOk(o.dsk.name),
                  AfterRun(reconciled, dirs, packager), dirs, Appended(logs, o.log, RunLog(packArgs, packager)), [packArgs])
  }

  /** The stages of `_build_thread` after its source check came out as
      `found`, for given runs of the assembler and the packager and a given
      choice of the reconciler. */
  ghost function Stages(found: bool, cfg: BuildConfig, files: map<Path, FileInfo>, dirs: set<string>, logs: map<string, string>,
                        timestamp: string, assembler: ToolRun, packager: ToolRun, keep: Option<Path>): BuildResult
    requires StagesKeepOk(found, cfg, files, dirs, assembler, keep)
  {
    var logs1 := Appended(logs, Outs(cfg).log, AssemblyLog(cfg, timestamp, assembler));
    if !found then BuildResult(SourceNotFound, files, dirs, logs, [])
    else if RunFault(AsmArgs(cfg), assembler).Some? then
      BuildResult(BuildFailed(RunFault(AsmArgs(cfg), assembler).value), Assembled(cfg, files, dirs, assembler),
                  BuildDirs(cfg, dirs), logs1, [AsmArgs(cfg)])
    else
      var rest := ReconcileStage(Outs(cfg), SourcePath(cfg).dir, PackArgs(cfg), Assembled(cfg, files, dirs, assembler),
                                 BuildDirs(cfg, dirs), logs1, packager, keep);
      rest.(calls := [AsmArgs(cfg)] + rest.calls)
  }

  /** `_build_thread`: the source check, then the stages it leads to. */
  ghost function BuildSpec(cfg: BuildConfig, files: map<Path, FileInfo>, dirs: set<string>, logs: map<string, string>,
                           timestamp: string, assembler: ToolRun, packager: ToolRun, keep: Option<Path>): BuildResult
    requires BuildKeepOk(cfg, files, dirs, assembler, keep)
  {
    Stages(SourceExists(cfg, files, dirs), cfg, files, dirs, logs, timestamp, assembler, packager, keep)
  }

  /** A build whose assembler fails ends after it. */
  lemma StagesAsmFailed(cfg: BuildConfig, files: map<Path, FileInfo>, dirs: set<string>, logs: map<string, string>,
                        timestamp: string, assembler: ToolRun, packager: ToolRun)
    requires RunFault(AsmArgs(cfg), assembler).Some?
    ensures StagesKeepOk(true, cfg, files, dirs, assembler, None)
    ensures Stages(true, cfg, files, dirs, logs, timestamp, assembler, packager, None)
            == BuildResult(BuildFailed(RunFault(AsmArgs(cfg), assembler).value), Assembled(cfg, files, dirs, assembler),
                           BuildDirs(cfg, dirs), Appended(logs, Outs(cfg).log, AssemblyLog(cfg, timestamp, assembler)), [AsmArgs(cfg)])
  {
  }

  /** A build whose assembler exits with 0 goes on with the reconcile stage. */
  lemma StagesReconcile(cfg: BuildConfig, files: map<Path, FileInfo>, dirs: set<string>, logs: map<string, string>,
                        timestamp: string, assembler: ToolRun, packager: ToolRun, keep: Option<Path>)
    requires AsmSucceeded(cfg, assembler)
    requires ValidKeep(Assembled(cfg, files, dirs, assembler),
                       Candidates(Assembled(cfg, files, dirs, assembler), BuildDirs(cfg, dirs), Outs(cfg).wd, SourcePath(cfg).dir, Outs(cfg).base),
                       Desired(Outs(cfg).wd, Outs(cfg).base), keep)
    ensures StagesKeepOk(true, cfg, files, dirs, assembler, keep)
    ensures var rest := ReconcileStage(Outs(cfg), SourcePath(cfg).dir, PackArgs(cfg), Assembled(cfg, files, dirs, assembler),
                                       BuildDirs(cfg, dirs), Appended(logs, Outs(cfg).log, AssemblyLog(cfg, timestamp, assembler)),
                                       packager, keep);
            Stages(true, cfg, files, dirs, logs, timestamp, assembler, packager, keep) == rest.(calls := [AsmArgs(cfg)] + rest.calls)
  {
  }

  /** The reconcile stage runs the packager once the canonical COM exists. */
  lemma ReconcileStagePackages(o: OutPaths, asmDir: string, packArgs: seq<string>, files: map<Path, FileInfo>,
                               dirs: set<string>, logs: map<string, string>, packager: ToolRun, keep: Option<Path>)
    requires ValidKeep(files, Candidates(files, dirs, o.wd, asmDir, o.base), Desired(o.wd, o.base), keep)
    requires keep.Some? ==> keep.value in files
    requires Desired(o.wd, o.base) in Reconciled(files, Candidates(files, dirs, o.wd, asmDir, o.base), Desired(o.wd, o.base), keep)
    ensures ReconcileStage(o, asmDir, packArgs, files, dirs, logs, packager, keep)
            == BuildResult(if RunFault(packArgs, packager).Some? then BuildFailed(RunFault(packArgs, packager).value)
                           else BuildOk(o.dsk.name),
                           AfterRun(Reconciled(files, Candidates(files, dirs, o.wd, asmDir, o.base), Desired(o.wd, o.base), keep), dirs, packager),
                           dirs, Appended(logs, o.log, RunLog(packArgs, packager)), [packArgs])
  {
  }

  /** A build whose assembler succeeds but leaves no COM file ends after the
      reconciler. */
  lemma StagesComMissing(cfg: BuildConfig, files: map<Path, FileInfo>, dirs: set<string>, logs: map<string, string>,
                         timestamp: string, assembler: ToolRun, packager: ToolRun, keep: Option<Path>)
    requires AsmSucceeded(cfg, assembler) && StagesKeepOk(true, cfg, files, dirs, assembler, keep)
    requires Outs(cfg).com !in ReconciledFiles(cfg, files, dirs, assembler, keep)
    ensures Stages(true, cfg, files, dirs, logs, timestamp, assembler, packager, keep)
            == BuildResult(ComNotProduced, ReconciledFiles(cfg, files, dirs, assembler, keep),
                           BuildDirs(cfg, dirs), Appended(logs, Outs(cfg).log, AssemblyLog(cfg, timestamp, assembler)), [AsmArgs(cfg)])
  {
    StagesReconcile(cfg, files, dirs, logs, timestamp, assembler, packager, keep);
  }

  /** A build that has its COM file runs the packager and ends after it. */
  lemma StagesPackaged(cfg: BuildConfig, files: map<Path, FileInfo>, dirs: set<string>, logs: map<string, string>,
                       timestamp: string, assembler: ToolRun, packager: ToolRun, keep: Option<Path>)
    requires AsmSucceeded(cfg, assembler) && StagesKeepOk(true, cfg, files, dirs, assembler, keep)
    requires Outs(cfg).com in ReconciledFiles(cfg, files, dirs, assembler, keep)
    ensures Stages(true, cfg, files, dirs, logs, timestamp, assembler, packager, keep)
            == BuildResult(if RunFault(PackArgs(cfg), packager).Some? then BuildFailed(RunFault(PackArgs(cfg), packager).value)
                           else BuildOk(Outs(cfg).dsk.name),
                           AfterRun(ReconciledFiles(cfg, files, dirs, assembler, keep), BuildDirs(cfg, dirs), packager),
                           BuildDirs(cfg, dirs),
                           Appended(Appended(logs, Outs(cfg).log, AssemblyLog(cfg, timestamp, assembler)), Outs(cfg).log, RunLog(PackArgs(cfg), packager)),
                           [AsmArgs(cfg), PackArgs(cfg)])
  {
    var logs1 := Appended(logs, Outs(cfg).log, AssemblyLog(cfg, timestamp, assembler));
    var rest := ReconcileStage(Outs(cfg), SourcePath(cfg).dir, PackArgs(cfg), Assembled(cfg, files, dirs, assembler),
                               BuildDirs(cfg, dirs), logs1, packager, keep);
    ReconcileStageOfBuild(cfg, files, dirs, logs1, assembler, packager, keep);
    StagesReconcile(cfg, files, dirs, logs, timestamp, assembler, packager, keep);
    CallsPrepended(rest, AsmArgs(cfg), PackArgs(cfg));
  }

  /** Putting the assembler call before a single packager call gives both calls in order. */
  lemma CallsPrepended(r: BuildResult, first: seq<string>, second: seq<string>)
    requires r.calls == [second]
    ensures r.(calls := [first] + r.calls) == r.(calls := [first, second])
  {
  }

  /** The reconcile stage of a build that has its COM file, in the build's own terms. */
  lemma ReconcileStageOfBuild(cfg: BuildConfig, files: map<Path, FileInfo>, dirs: set<string>, logs1: map<string, string>,
                              assembler: ToolRun, packager: ToolRun, keep: Option<Path>)
    requires AsmSucceeded(cfg, assembler) && StagesKeepOk(true, cfg, files, dirs, assembler, keep)
    requires Outs(cfg).com in ReconciledFiles(cfg, files, dirs, assembler, keep)
    ensures ReconcileStage(Outs(cfg), SourcePath(cfg).dir, PackArgs(cfg), Assembled(cfg, files, dirs, assembler),
                           BuildDirs(cfg, dirs), logs1, packager, keep)
            == BuildResult(if RunFault(PackArgs(cfg), packager).Some? then BuildFailed(RunFault(PackArgs(cfg), packager).value)
                           else BuildOk(Outs(cfg).dsk.name),
                           AfterRun(ReconciledFiles(cfg, files, dirs, assembler, keep), BuildDirs(cfg, dirs), packager),
                           BuildDirs(cfg, dirs), Appended(logs1, Outs(cfg).log, RunLog(PackArgs(cfg), packager)), [PackArgs(cfg)])
  {
    var o := Outs(cfg);
    var assembled := Assembled(cfg, files, dirs, assembler);
    var cands := Candidates(assembled, BuildDirs(cfg, dirs), o.wd, SourcePath(cfg).dir, o.base);
    KeptIsAFile(assembled, cands, Desired(o.wd, o.base), keep);
    assert Reconciled(assembled, cands, Desired(o.wd, o.base), keep) == ReconciledFiles(cfg, files, dirs, assembler, keep);
    ReconcileStagePackages(o, SourcePath(cfg).dir, PackArgs(cfg), assembled, BuildDirs(cfg, dirs), logs1, packager, keep);
  }

  /** The four ways a build ends, one per stage that can stop it. */
  lemma StagesBranches(found: bool, cfg: BuildConfig, files: map<Path, FileInfo>, dirs: set<string>, logs: map<string, string>,
                       timestamp: string, assembler: ToolRun, packager: ToolRun, keep: Option<Path>)
    requires StagesKeepOk(found, cfg, files, dirs, assembler, keep)
    ensures !found ==>
              Stages(found, cfg, files, dirs, logs, timestamp, assembler, packager, keep) == BuildResult(SourceNotFound, files, dirs, logs, [])
    ensures found && RunFault(AsmArgs(cfg), assembler).Some? ==>
              Stages(found, cfg, files, dirs, logs, timestamp, assembler, packager, keep)
              == BuildResult(BuildFailed(RunFault(AsmArgs(cfg), assembler).value), Assembled(cfg, files, dirs, assembler),
                             BuildDirs(cfg, dirs), Appended(logs, Outs(cfg).log, AssemblyLog(cfg, timestamp, assembler)), [AsmArgs(cfg)])
    ensures found && AsmSucceeded(cfg, assembler) && Outs(cfg).com !in ReconciledFiles(cfg, files, dirs, assembler, keep) ==>
              Stages(found, cfg, files, dirs, logs, timestamp, assembler, packager, keep)
              == BuildResult(ComNotProduced, ReconciledFiles(cfg, files, dirs, assembler, keep),
                             BuildDirs(cfg, dirs), Appended(logs, Outs(cfg).log, AssemblyLog(cfg, timestamp, assembler)), [AsmArgs(cfg)])
    ensures found && AsmSucceeded(cfg, assembler) && Outs(cfg).com in ReconciledFiles(cfg, files, dirs, assembler, keep) ==>
              Stages(found, cfg, files, dirs, logs, timestamp, assembler, packager, keep)
              == BuildResult(if RunFault(PackArgs(cfg), packager).Some? then BuildFailed(RunFault(PackArgs(cfg), packager).value)
                             else BuildOk(Outs(cfg).dsk.name),
                             AfterRun(ReconciledFiles(cfg, files, dirs, assembler, keep), BuildDirs(cfg, dirs), packager),
                             BuildDirs(cfg, dirs),
                             Appended(Appended(logs, Outs(cfg).log, AssemblyLog(cfg, timestamp, assembler)), Outs(cfg).log, RunLog(PackArgs(cfg), packager)),
                             [AsmArgs(cfg), PackArgs(cfg)])
  {
    if !found {
    } else if RunFault(AsmArgs(cfg), assembler).Some? {
      StagesAsmFailed(cfg, files, dirs, logs, timestamp, assembler, packager);
    } else if Outs(cfg).com !in ReconciledFiles(cfg, files, dirs, assembler, keep) {
      StagesComMissing(cfg, files, dirs, logs, timestamp, assembler, packager, keep);
    } else {
      StagesPackaged(cfg, files, dirs, logs, timestamp, assembler, packager, keep);
    }
  }

  /** The logs after a build: unchanged without a source, then the assembly
      part appended, then the packager's part when the packager runs. */
  lemma StagesLogs(found: bool, cfg: BuildConfig, files: map<Path, FileInfo>, dirs: set<string>, logs: map<string, string>,
                   timestamp: string, assembler: ToolRun, packager: ToolRun, keep: Option<Path>)
    requires StagesKeepOk(found, cfg, files, dirs, assembler, keep)
    ensures !found ==> Stages(found, cfg, files, dirs, logs, timestamp, assembler, packager, keep).logs == logs
    ensures found ==>
              var logs1 := Appended(logs, Outs(cfg).log, AssemblyLog(cfg, timestamp, assembler));
              var r := Stages(found, cfg, files, dirs, logs, timestamp, assembler, packager, keep);
              r.logs == logs1 || r.logs == Appended(logs1, Outs(cfg).log, RunLog(PackArgs(cfg), packager))
  {
    StagesBranches(found, cfg, files, dirs, logs, timestamp, assembler, packager, keep);
  }

  // ---------------------------------------------------------------------------
  // Properties of a build
  //
  // Apart from the first two, these hold whichever way the source check came
  // out, so they hold of `BuildSpec`, which is `Stages` after that check.

  /** A missing source, with neither a file nor a folder at the resolved
      path, is the one way a build ends with "Source .asm not found", and it
      stops the build before any logger or tool: nothing on disk changes and
      no tool is invoked. */
  lemma MissingSourceChangesNothing(cfg: BuildConfig, files: map<Path, FileInfo>, dirs: set<string>, logs: map<string, string>,
                                    timestamp: string, assembler: ToolRun, packager: ToolRun, keep: Option<Path>)
    requires BuildKeepOk(cfg, files, dirs, assembler, keep)
    ensures var r := BuildSpec(cfg, files, dirs, logs, timestamp, assembler, packager, keep);
            r.status == SourceNotFound <==> !SourceExists(cfg, files, dirs)
    ensures var r := BuildSpec(cfg, files, dirs, logs, timestamp, assembler, packager, keep);
            r.status == SourceNotFound ==> r.files == files && r.dirs == dirs && r.logs == logs && r.calls == []
  {
    StagesBranches(SourceExists(cfg, files, dirs), cfg, files, dirs, logs, timestamp, assembler, packager, keep);
  }

  /** A folder at the source path passes the source check, and an empty
      source field names the current folder: the build goes on and invokes
      the assembler on that folder. */
  lemma FolderSourceIsAssembled(cfg: BuildConfig, files: map<Path, FileInfo>, dirs: set<string>, logs: map<string, string>,
                                timestamp: string, assembler: ToolRun, packager: ToolRun, keep: Option<Path>)
    requires BuildKeepOk(cfg, files, dirs, assembler, keep)
    requires SourceText(cfg) in dirs
    ensures var r := BuildSpec(cfg, files, dirs, logs, timestamp, assembler, packager, keep);
            && r.status != SourceNotFound && |r.calls| >= 1
            && r.calls[0] == AsmArgs(cfg) && r.calls[0][3] == SourceText(cfg)
    ensures cfg.asm == "" ==> SourceText(cfg) == cfg.cwd
  {
    StagesBranches(true, cfg, files, dirs, logs, timestamp, assembler, packager, keep);
    ResolveKeepsField(cfg.cwd, cfg.asm);
  }

  /** Once the assembler has succeeded, the uppercase COM file is there after
      reconciling exactly when the reconciler found a candidate. */
  lemma ComSurvivesIffCandidates(cfg: BuildConfig, files: map<Path, FileInfo>, dirs: set<string>,
                                 assembler: ToolRun, keep: Option<Path>)
    requires FilesInDirs(files, dirs)
    requires AsmSucceeded(cfg, assembler)
    requires StagesKeepOk(true, cfg, files, dirs, assembler, keep)
    ensures Outs(cfg).com in ReconciledFiles(cfg, files, dirs, assembler, keep)
            <==> ComCandidates(cfg, files, dirs, assembler) != {}
  {
    var o := Outs(cfg);
    var dirs1 := BuildDirs(cfg, dirs);
    var assembled := Assembled(cfg, files, dirs, assembler);
    assert FilesInDirs(Purged(files, o.wd, o.base), dirs1);
    if ComCandidates(cfg, files, dirs, assembler) == {} {
      ZeroCandidates(assembled, dirs1, o.wd, SourcePath(cfg).dir, o.base, keep);
    } else {
      ExactlyOneSurvivor(assembled, dirs1, o.wd, SourcePath(cfg).dir, o.base, keep);
    }
  }

  /** The assembler is invoked exactly when the source check passes, and the
      packager only after the assembler ran and exited with 0 and a COM file
      was found. An assembler that fails or produces no COM stops the build
      with the assembler as the only tool invoked, and a successful build ran
      both tools. */
  lemma PackagerOnlyAfterCom(found: bool, cfg: BuildConfig, files: map<Path, FileInfo>, dirs: set<string>, logs: map<string, string>,
                             timestamp: string, assembler: ToolRun, packager: ToolRun, keep: Option<Path>)
    requires FilesInDirs(files, dirs)
    requires StagesKeepOk(found, cfg, files, dirs, assembler, keep)
    ensures var r := Stages(found, cfg, files, dirs, logs, timestamp, assembler, packager, keep);
            && |r.calls| <= 2
            && (|r.calls| >= 1 <==> found)
            && (|r.calls| >= 1 ==> r.calls[0] == AsmArgs(cfg))
            && (|r.calls| == 2 <==> found && AsmSucceeded(cfg, assembler) && ComCandidates(cfg, files, dirs, assembler) != {})
            && (|r.calls| == 2 ==> r.calls[1] == PackArgs(cfg))
    ensures var r := Stages(found, cfg, files, dirs, logs, timestamp, assembler, packager, keep);
            && (found && RunFault(AsmArgs(cfg), assembler).Some? ==>
                  r.status == BuildFailed(RunFault(AsmArgs(cfg), assembler).value) && |r.calls| == 1)
            && (found && AsmSucceeded(cfg, assembler) && ComCandidates(cfg, files, dirs, assembler) == {} ==>
                  r.status == ComNotProduced && |r.calls| == 1)
            && (r.status.BuildOk? ==> |r.calls| == 2 && RunFault(PackArgs(cfg), packager).None?)
  {
    StagesBranches(found, cfg, files, dirs, logs, timestamp, assembler, packager, keep);
    if found && AsmSucceeded(cfg, assembler) {
      ComSurvivesIffCandidates(cfg, files, dirs, assembler, keep);
    }
  }

  /** A build only appends to its own log file: every log keeps its old text
      as a prefix, and only the project's log changes. */
  lemma BuildLogAppendOnly(found: bool, cfg: BuildConfig, files: map<Path, FileInfo>, dirs: set<string>, logs: map<string, string>,
                           timestamp: string, assembler: ToolRun, packager: ToolRun, keep: Option<Path>, path: string)
    requires StagesKeepOk(found, cfg, files, dirs, assembler, keep)
    ensures var r := Stages(found, cfg, files, dirs, logs, timestamp, assembler, packager, keep);
            && LogText(logs, path) <= LogText(r.logs, path)
            && (path != Outs(cfg).log ==> LogText(r.logs, path) == LogText(logs, path))
  {
    StagesLogs(found, cfg, files, dirs, logs, timestamp, assembler, packager, keep);
    if found {
      var log := Outs(cfg).log;
      var logs1 := Appended(logs, log, AssemblyLog(cfg, timestamp, assembler));
      var logs2 := Appended(logs1, log, RunLog(PackArgs(cfg), packager));
      AppendedGrows(logs, log, AssemblyLog(cfg, timestamp, assembler), path);
      AppendedGrows(logs1, log, RunLog(PackArgs(cfg), packager), path);
      var a, b, c := LogText(logs, path), LogText(logs1, path), LogText(logs2, path);
      assert a <= c by {
        assert a == b[..|a|];
        assert b == c[..|b|];
      }
    }
  }

  /** A text that opens `b` opens `c` too, after a common start `x`, when
      `x + b` opens `c`. */
  lemma PrefixWithin(x: string, a: string, b: string, c: string)
    requires a <= b && x + b <= c
    ensures x + a <= c
  {
    assert x + a == (x + b)[..|x + a|];
  }

  /** The assembly part of a build's log opens with the header line, the
      "Building" line and the assembler's command line. */
  lemma AssemblyLogOpening(cfg: BuildConfig, timestamp: string, assembler: ToolRun)
    ensures Header(timestamp) + LineText("Building " + SourceText(cfg)) + CmdText(AsmArgs(cfg)) <= AssemblyLog(cfg, timestamp, assembler)
  {
    RunOutcome(AsmArgs(cfg), assembler);
    var opening := Header(timestamp) + LineText("Building " + SourceText(cfg));
    var cmd, run := CmdText(AsmArgs(cfg)), RunLog(AsmArgs(cfg), assembler);
    assert opening + cmd == (opening + run)[..|opening + cmd|];
  }

  /** A build that passes the source check appends the assembly part, and
      perhaps the packager's part, to the project's log. */
  lemma StagesLogExtends(cfg: BuildConfig, files: map<Path, FileInfo>, dirs: set<string>, logs: map<string, string>,
                         timestamp: string, assembler: ToolRun, packager: ToolRun, keep: Option<Path>)
    requires StagesKeepOk(true, cfg, files, dirs, assembler, keep)
    ensures LogText(logs, Outs(cfg).log) + AssemblyLog(cfg, timestamp, assembler)
            <= LogText(Stages(true, cfg, files, dirs, logs, timestamp, assembler, packager, keep).logs, Outs(cfg).log)
  {
    var log := Outs(cfg).log;
    var logs1 := Appended(logs, log, AssemblyLog(cfg, timestamp, assembler));
    AppendedGrows(logs, log, AssemblyLog(cfg, timestamp, assembler), log);
    AppendedGrows(logs1, log, RunLog(PackArgs(cfg), packager), log);
    StagesLogs(true, cfg, files, dirs, logs, timestamp, assembler, packager, keep);
  }

  /** A build that passes the source check continues the project's log with
      the header line, the "Building" line naming the source, and the
      assembler's command line, in that order. */
  lemma BuildLogStartsWithHeader(cfg: BuildConfig, files: map<Path, FileInfo>, dirs: set<string>, logs: map<string, string>,
                                 timestamp: string, assembler: ToolRun, packager: ToolRun, keep: Option<Path>)
    requires StagesKeepOk(true, cfg, files, dirs, assembler, keep)
    ensures var r := Stages(true, cfg, files, dirs, logs, timestamp, assembler, packager, keep);
            LogText(logs, Outs(cfg).log) + (Header(timestamp) + LineText("Building " + SourceText(cfg)) + CmdText(AsmArgs(cfg)))
            <= LogText(r.logs, Outs(cfg).log)
  {
    AssemblyLogOpening(cfg, timestamp, assembler);
    StagesLogExtends(cfg, files, dirs, logs, timestamp, assembler, packager, keep);
    PrefixWithin(LogText(logs, Outs(cfg).log), Header(timestamp) + LineText("Building " + SourceText(cfg)) + CmdText(AsmArgs(cfg)),
                 AssemblyLog(cfg, timestamp, assembler),
                 LogText(Stages(true, cfg, files, dirs, logs, timestamp, assembler, packager, keep).logs, Outs(cfg).log));
  }

  /** A tool that writes no case variant of the COM leaves the candidates of
      the reconciler as they were. */
  lemma {:induction false} CandidatesAfterRun(files: map<Path, FileInfo>, dirs: set<string>, run: ToolRun,
                                              wd: string, asmDir: string, stem: string)
    requires run.Launched? ==> forall p :: p in run.writes ==> !Matches(p.name, stem)
    ensures Candidates(AfterRun(files, dirs, run), dirs, wd, asmDir, stem) == Candidates(files, dirs, wd, asmDir, stem)
  {
    var after := AfterRun(files, dirs, run);
    forall p | p in Candidates(after, dirs, wd, asmDir, stem)
      ensures p in Candidates(files, dirs, wd, asmDir, stem)
    {
      assert run.Launched? ==> p !in run.writes;
    }
  }

  /** A successful build whose packager writes no case variant of the COM
      leaves exactly one COM across the two folders, at the canonical path,
      holding the content of one of the files the reconciler found. */
  lemma BuildOkLeavesOneCom(found: bool, cfg: BuildConfig, files: map<Path, FileInfo>, dirs: set<string>, logs: map<string, string>,
                            timestamp: string, assembler: ToolRun, packager: ToolRun, keep: Option<Path>)
    requires FilesInDirs(files, dirs)
    requires StagesKeepOk(found, cfg, files, dirs, assembler, keep)
    requires packager.Launched? ==> forall p :: p in packager.writes ==> !Matches(p.name, Outs(cfg).base)
    requires Stages(found, cfg, files, dirs, logs, timestamp, assembler, packager, keep).status.BuildOk?
    ensures var r := Stages(found, cfg, files, dirs, logs, timestamp, assembler, packager, keep);
            && Candidates(r.files, r.dirs, Outs(cfg).wd, SourcePath(cfg).dir, Outs(cfg).base) == {Outs(cfg).com}
            && keep.Some? && keep.value in ComCandidates(cfg, files, dirs, assembler)
            && r.files[Outs(cfg).com] == Assembled(cfg, files, dirs, assembler)[keep.value]
  {
    StagesBranches(found, cfg, files, dirs, logs, timestamp, assembler, packager, keep);
    var o := Outs(cfg);
    var dirs1 := BuildDirs(cfg, dirs);
    var asmDir := SourcePath(cfg).dir;
    var assembled := Assembled(cfg, files, dirs, assembler);
    var cands := ComCandidates(cfg, files, dirs, assembler);
    assert found && AsmSucceeded(cfg, assembler);
    var reconciled := ReconciledFiles(cfg, files, dirs, assembler, keep);
    assert o.com in reconciled;
    var r := Stages(found, cfg, files, dirs, logs, timestamp, assembler, packager, keep);
    assert r.files == AfterRun(reconciled, dirs1, packager) && r.dirs == dirs1;
    assert FilesInDirs(Purged(files, o.wd, o.base), dirs1);
    DesiredMatches(o.wd, o.base);
    assert o.com in assembled ==> o.com in cands;
    assert cands != {};
    ExactlyOneSurvivor(assembled, dirs1, o.wd, asmDir, o.base, keep);
    assert packager.Launched? ==> o.com !in packager.writes;
    AfterRunKeeps(reconciled, dirs1, packager, o.com);
    CandidatesAfterRun(reconciled, dirs1, packager, o.wd, asmDir, o.base);
  }

  /** The steps of `_build_thread` from the source check to the assembler run:
      create the working folder, open the log with its header line and the "Building" line,
      purge the case variants of the COM from the working folder, and run the
      assembler. */
  method Assemble(fs: FileSystem, cfg: BuildConfig, timestamp: string, assembler: ToolRun)
    returns (logger: FileLogger, fault: Option<Fault>)
    requires fs.Valid()
    modifies fs
    ensures fs.Valid() && logger.fs == fs && logger.logPath == Outs(cfg).log
    ensures fs.dirs == BuildDirs(cfg, old(fs.dirs))
    ensures fs.files == Assembled(cfg, old(fs.files), old(fs.dirs), assembler)
    ensures fs.logs == Appended(old(fs.logs), Outs(cfg).log, AssemblyLog(cfg, timestamp, assembler))
    ensures fault == RunFault(AsmArgs(cfg), assembler)
  {
    var o := Outs(cfg);
    fs.MakeDir(o.wd);
    logger := new FileLogger(fs, o.log, timestamp);
    logger.Line("Building " + SourceText(cfg));
    RemoveComVariants(fs, o.wd, o.base);
    fault := logger.StreamProc(AsmArgs(cfg), assembler);
    AppendedTwice(old(fs.logs), o.log, Header(timestamp), LineText("Building " + SourceText(cfg)));
    AppendedTwice(old(fs.logs), o.log, Header(timestamp) + LineText("Building " + SourceText(cfg)), RunLog(AsmArgs(cfg), assembler));
  }

  /** The steps of `_build_thread` after the assembler exited with 0: reconcile
      the COM variants, stop when the canonical COM does not exist, otherwise
      run the packager on it. The reconciler cannot raise here, because the
      working folder was created at the start of the build. */
  method FinishBuild(fs: FileSystem, logger: FileLogger, o: OutPaths, asmDir: string, packArgs: seq<string>, packager: ToolRun)
    returns (status: Status, ghost calls: seq<seq<string>>, ghost kept: Option<Path>)
    requires fs.Valid() && logger.fs == fs && logger.logPath == o.log && o.wd in fs.dirs
    modifies fs`files, fs`logs
    ensures fs.Valid()
    ensures ValidKeep(old(fs.files), Candidates(old(fs.files), fs.dirs, o.wd, asmDir, o.base), Desired(o.wd, o.base), kept)
    ensures ReconcileStage(o, asmDir, packArgs, old(fs.files), fs.dirs, old(fs.logs), packager, kept)
            == BuildResult(status, fs.files, fs.dirs, fs.logs, calls)
  {
    var r;
    r, kept := NormaliseToSingleUppercaseCom(fs, o.wd, asmDir, o.base);
    var finalCom := r.path;
    if finalCom !in fs.files {
      return ComNotProduced, [], kept;
    }
    calls := [packArgs];
    var fault := logger.StreamProc(packArgs, packager);
    status := if fault.Some? then BuildFailed(fault.value) else BuildOk(o.dsk.name);
  }

  /** The body of `_build_thread` for the form fields `cfg`: the status it
      ends with, and the state `BuildSpec` describes. */
  method RunBuild(fs: FileSystem, cfg: BuildConfig, timestamp: string, assembler: ToolRun, packager: ToolRun)
    returns (status: Status, ghost calls: seq<seq<string>>, ghost kept: Option<Path>)
    requires fs.Valid()
    modifies fs
    ensures fs.Valid()
    ensures BuildKeepOk(cfg, old(fs.files), old(fs.dirs), assembler, kept)
    ensures BuildSpec(cfg, old(fs.files), old(fs.dirs), old(fs.logs), timestamp, assembler, packager, kept)
            == BuildResult(status, fs.files, fs.dirs, fs.logs, calls)
  {
    if !SourceExists(cfg, fs.files, fs.dirs) {
      return SourceNotFound, [], None;
    }
    status, calls, kept := AssembleAndPackage(fs, cfg, timestamp, assembler, packager);
  }

  /** The build once the source check has passed: assemble, then reconcile
      and package unless the assembler failed. */
  method AssembleAndPackage(fs: FileSystem, cfg: BuildConfig, timestamp: string, assembler: ToolRun, packager: ToolRun)
    returns (status: Status, ghost calls: seq<seq<string>>, ghost kept: Option<Path>)
    requires fs.Valid()
    modifies fs
    ensures fs.Valid()
    ensures StagesKeepOk(true, cfg, old(fs.files), old(fs.dirs), assembler, kept)
    ensures Stages(true, cfg, old(fs.files), old(fs.dirs), old(fs.logs), timestamp, assembler, packager, kept)
            == BuildResult(status, fs.files, fs.dirs, fs.logs, calls)
  {
    ghost var files0, dirs0, logs0 := fs.files, fs.dirs, fs.logs;
    var logger, fault := Assemble(fs, cfg, timestamp, assembler);
    if fault.Some? {
      StagesAsmFailed(cfg, files0, dirs0, logs0, timestamp, assembler, packager);
      return BuildFailed(fault.value), [AsmArgs(cfg)], None;
    }
    ghost var rest;
    status, rest, kept := FinishBuild(fs, logger, Outs(cfg), SourcePath(cfg).dir, PackArgs(cfg), packager);
    calls := [AsmArgs(cfg)] + rest;
    StagesReconcile(cfg, files0, dirs0, logs0, timestamp, assembler, packager, kept);
  }

  // ---------------------------------------------------------------------------
  // The application

  /** The state `App` keeps for the build: the form fields, the project name
      and the status line. */
  class App {
    var varAsm: string
    var varWorkdir: string
    var varZ80asm: string
    var varAppmake: string
    var varCpmdiskFmt: string
    var baseUpper: string
    var status: Status
    const logDir: string
    /** The folder the program was started in; relative fields resolve against it. */
    const cwd: string

    /** The project name is the one derived from the current source field. */
    ghost predicate Valid()
      reads this
    {
      baseUpper == BaseOf(varAsm)
    }

    function Config(): BuildConfig
      reads this
    {
      BuildConfig(cwd, varAsm, varWorkdir, baseUpper, varZ80asm, varAppmake, varCpmdiskFmt, logDir)
    }

    /** The form as it opens: the tool and folder defaults, an empty source,
        the "einstein" disk format and the "Ready" status. */
    constructor (workdir: string, z80asm: string, appmake: string, logDir: string, cwd: string)
      ensures Valid()
      ensures varAsm == "" && varWorkdir == workdir && varZ80asm == z80asm && varAppmake == appmake
      ensures varCpmdiskFmt == "einstein" && baseUpper == "" && status == Ready
      ensures this.logDir == logDir && this.cwd == cwd
    {
      varAsm := "";
      varWorkdir := workdir;
      varZ80asm := z80asm;
      varAppmake := appmake;
      varCpmdiskFmt := "einstein";
      baseUpper := "";
      status := Ready;
      this.logDir := logDir;
      this.cwd := cwd;
    }

    /** `_on_asm_changed`. */
    method OnAsmChanged()
      modifies this`baseUpper, this`status
      ensures Valid()
      ensures status == if baseUpper != "" then Selected(baseUpper) else old(status)
    {
      var p := Strip(varAsm);
      baseUpper := if p != "" then Upper(Stem(Name(p))) else "";
      if baseUpper != "" {
        status := Selected(baseUpper);
      }
    }

    /** Writing the source field, which runs its trace callback. */
    method SetAsm(text: string)
      modifies this`varAsm, this`baseUpper, this`status
      ensures Valid() && varAsm == text
      ensures status == if BaseOf(text) != "" then Selected(BaseOf(text)) else old(status)
    {
      varAsm := text;
      OnAsmChanged();
    }

    /** `_build_thread`, run to completion on the current form: it ends in the
        state `BuildSpec` describes, for the reconciler's choice `kept`;
        `calls` lists the tool invocations in order. */
    method BuildThread(fs: FileSystem, timestamp: string, assembler: ToolRun, packager: ToolRun)
      returns (ghost calls: seq<seq<string>>, ghost kept: Option<Path>)
      requires fs.Valid()
      modifies this`status, fs
      ensures fs.Valid()
      ensures BuildKeepOk(Config(), old(fs.files), old(fs.dirs), assembler, kept)
      ensures BuildSpec(Config(), old(fs.files), old(fs.dirs), old(fs.logs), timestamp, assembler, packager, kept)
              == BuildResult(status, fs.files, fs.dirs, fs.logs, calls)
    {
      status := Building;
      status, calls, kept := RunBuild(fs, Config(), timestamp, assembler, packager);
    }

    /** The guard of `_run_thread`: without a DSK there is no emulator run. */
    method RunThread(fs: FileSystem, mame: ToolRun)
      modifies this`status
      ensures status == if Outs(Config()).dsk !in fs.files then DskMissing
                        else if mame.NotLaunched? then RunFailed(LaunchError(mame.reason))
                        else MameExited
    {
      var o := OutPathsOf(cwd, varWorkdir, varAsm, baseUpper, logDir);
      if o.dsk !in fs.files {
        status := DskMissing;
        return;
      }
      match mame {
        case NotLaunched(reason) => status := RunFailed(LaunchError(reason));
        case Launched(_, _, _) => status := MameExited;
      }
    }
  }
}
