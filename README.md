# AsmToDsk build core in Dafny

`asmtodsk.py` is a small desktop front end to a Z80 toolchain. It assembles a
source `.asm` file with `z80asm` into a CP/M `.COM` program and packages that
program with `z88dk-appmake +cpmdisk` into a `.DSK` disk image. It can also
start MAME on the image. This project models the part of the program with
real invariants:

- the **COM reconciler** `_normalise_to_single_uppercase_com`. After the
  assembler runs, it collapses every case variant of `<base>.com` found in the
  working folder and in the source folder onto the single file
  `wd/<BASE>.COM`. It keeps the canonical file if it exists, and otherwise the
  newest variant.
- the **purge** `_remove_com_variants`, which deletes stale case variants
  from the working folder before the assembler runs;
- the **project name and output paths** (`_on_asm_changed`, `_out_paths`);
- the **build log** `FileLogger`: a header line, then lines, command lines
  and the streamed output of each tool, all appended to one file per project;
- the **build sequence** `_build_thread`: check the source, create the
  folders, purge, assemble, reconcile, check the COM file, package, and set
  the status line;
- the **DSK guard** of `_run_thread`.

Files:

- `path_text.dfy` (module `PathText`) holds ASCII case mapping, Python's
  `str.strip`, `rfind`, the `name`, `stem` and `parent` of a POSIX path, and
  `normalize_path` as the resolution of a field against the current folder.
- `file_system.dfy` (module `FileSystems`) is the class `FileSystem`. It holds
  the regular files keyed by (folder, name) with their modification time and
  content, the set of existing folders, and the text of the append-only log
  files.
- `reconciler.dfy` (module `Reconciler`) holds the purge, the reconciler, and
  its specification:
  - `Candidates` is the set the scan collects.
  - `ValidKeep` is the admissible choices of the file to keep.
  - `Reconciled` is the resulting files.
- `logging.dfy` (module `Logging`) holds the class `FileLogger` and the
  abstraction of a tool run. A `ToolRun` is either a program that cannot be
  started, or a run that prints some lines, writes some files and exits with
  some code.
- `builder.dfy` (module `Builder`) holds:
  - the output names;
  - the status line;
  - the pure reference `BuildSpec` of a whole build, which is the source
    check followed by `Stages`, the rest of the build for either outcome of
    that check;
  - the imperative build (`Assemble`, `FinishBuild`, `RunBuild`);
  - the class `App` with the form fields.

  `App.BuildThread` is proved to end in the state `BuildSpec` describes. The
  lemmas about `BuildSpec` and `Stages` give the properties of a build.

The order in which Python visits the set `{wd, asm_dir}`, a directory
listing or a glob is unspecified. The model makes each of these an arbitrary
choice (`:|`). As a result, when several newest candidates tie, the
reconciler's contract admits any of them.

Some behaviour of the code that is easy to miss, and that the model keeps:

- The code reconciles once, after the assembler. It does not reconcile
  again after the packager.
- The purge before assembling covers the working folder only, not the source
  folder.
- A missing source stops the build before the logger exists, so no log is
  written for it.
- The source check asks only whether something exists at the resolved path.
  A folder passes it, and so does an empty source field, which resolves to
  the current folder. The build then goes on and hands that folder to the
  assembler.
- The reconciler uses the stem exactly as given for the canonical name. The
  build passes it the upper-cased base.
- The disk image is named `<BASE>.DSK`.
- A failing delete or move in the reconciler is not swallowed per candidate.
  A move into a missing working folder raises out of the reconciler, and
  nothing is deleted then. Inside the build this cannot happen, because the
  working folder is created first.

## Model

| member | source | states |
|---|---|---|
| FileSystems.FileSystem.Unlink | asmtodsk.py:126 | `unlink(missing_ok=True)` removes the file if present and changes nothing else |
| FileSystems.FileSystem.Move | asmtodsk.py:139 | `shutil.move` of a file: the target takes the source's modification time and content and the source is gone; a missing target folder raises `NoSuchDirectory` and changes nothing |
| FileSystems.FileSystem.Append | asmtodsk.py:85-87 | opening in mode "a" and writing adds the text at the end of that log and touches no other log |
| FileSystems.AppendedGrows | asmtodsk.py:85-87 | appending keeps every log's old text as a prefix, leaves other logs equal and extends the target by exactly the text |
| FileSystems.AppendedTwice | asmtodsk.py:85-87 | two appends to one log equal one append of the concatenation |
| FileSystems.FileSystem.MakeDir | asmtodsk.py:263 | `mkdir(exist_ok=True)` adds the folder, keeps every file inside a known folder, and leaves an existing folder as it was |
| PathText.StripIsTrimmedSlice | asmtodsk.py:176 | `str.strip` returns the contiguous slice of its input left once the whitespace before and after it is removed, and that slice neither starts nor ends with whitespace |
| PathText.NameIsLastComponent | asmtodsk.py:177 | `Path.name` is the last component: a suffix of the path without '/', preceded by '/' unless it is the whole path |
| PathText.ParentAndName | asmtodsk.py:272 | `Path.parent` of a bare name is ".", of a name right under the root is "/", and otherwise parent, '/' and name give the path back |
| PathText.StemDropsSuffix | asmtodsk.py:177 | `Path.stem` drops exactly the last suffix: when the last '.' is neither first nor last the stem is the text before it, and otherwise any dropped part starts at such a '.' |
| PathText.StemOfExtended | asmtodsk.py:177 | a non-empty stem followed by a one-dot extension has that stem back |
| PathText.ResolveKeepsField | asmtodsk.py:45-47 | `normalize_path` turns an empty field into the current folder, keeps an absolute path, and ends the resolved path with the field |
| Logging.HeaderShape | asmtodsk.py:83 | the header is one newline-terminated line that opens with the bracketed timestamp |
| Logging.LineText | asmtodsk.py:89-90 | the written line ends in a newline, extends the given text and is at most one character longer; a text already ending in a newline is written unchanged |
| Logging.LineTextIdempotent | asmtodsk.py:89-90 | a text that already ends in a newline is written unchanged, so writing a written line again adds nothing |
| Logging.JoinHasNoNewline | asmtodsk.py:93 | space-joining arguments without newlines gives text without a newline |
| Logging.CmdTextShape | asmtodsk.py:92-93 | a command is logged as `$ ` plus the space-joined arguments plus one newline, and that newline is the only one |
| Logging.RunOutcome | asmtodsk.py:95-103 | a run fails exactly when the program cannot start or exits non-zero, and its log text always starts with the command line |
| Logging.AfterRunKeeps | asmtodsk.py:97-101 | a file the tool does not write is still there with the same metadata after the run |
| Logging.FileLogger.constructor | asmtodsk.py:80-83 | creates the logs folder and appends the header line for the given timestamp; files are unchanged |
| Logging.FileLogger.Write | asmtodsk.py:85-87 | appends the text to this logger's file only |
| Logging.FileLogger.Line | asmtodsk.py:89-90 | appends the newline-terminated form of the text |
| Logging.FileLogger.Cmd | asmtodsk.py:92-93 | appends the command line |
| Logging.FileLogger.WriteLines | asmtodsk.py:99-100 | the loop over the output appends all lines, in order, to the existing log |
| Logging.FileLogger.StreamProc | asmtodsk.py:95-103 | the log grows by the command line plus the output; the files are those after the tool's writes; the fault is a launch error, `CalledProcessError(rc, args)` for rc != 0, or none |
| Reconciler.RemoveComVariants | asmtodsk.py:122-126 | the folder's files are exactly the old ones minus every case variant of `<stem>.com` in that folder |
| Reconciler.PurgeEmptiesFolder | asmtodsk.py:122-126 | after the purge, no reconciler candidate lies in the purged folder, the other candidates remain, and every other file is untouched |
| Reconciler.CollectCandidates | asmtodsk.py:129-135 | the scan lists exactly the case variants of `<stem>.com` in those of `{wd, asm_dir}` that exist, whatever the visiting order |
| Reconciler.NewestCandidate | asmtodsk.py:137 | `max(..., key=mtime)` returns a candidate no other is newer than, and the first such candidate in the list |
| Reconciler.DeleteOthers | asmtodsk.py:140-142 | the files afterwards are the old ones minus every listed file other than the canonical path |
| Reconciler.NormaliseToSingleUppercaseCom | asmtodsk.py:128-143 | the kept file is the canonical path if it is a candidate, else a newest candidate, else none. Without candidates nothing changes. Otherwise the candidates are replaced by the canonical path holding the kept file and the canonical path is returned, or, with a missing working folder, the move raises and nothing changes |
| Reconciler.KeptIsAFile | asmtodsk.py:137 | the kept file is one of the candidates and exists |
| Reconciler.DesiredMatches | asmtodsk.py:129-136 | the canonical name `<stem>.COM` is itself a case variant of `<stem>.com`, so a second scan finds it |
| Reconciler.UpperStemSameVariants | asmtodsk.py:122-129 | matching ignores case, so the upper-cased project name has exactly the same case variants as the stem as typed |
| Reconciler.ExactlyOneSurvivor | asmtodsk.py:128-143 | with at least one candidate, exactly one case variant is left across both folders, at the canonical path, holding the kept file's content |
| Reconciler.ReconcileFrame | asmtodsk.py:128-143 | files that are not case variants in the two folders are untouched, and no new content appears |
| Reconciler.ZeroCandidates | asmtodsk.py:137-143 | with no candidate nothing changes, and the returned canonical path names no file |
| Reconciler.ReconcileIdempotent | asmtodsk.py:128-143 | a second reconciliation right after the first keeps the canonical file in place and changes nothing |
| Reconciler.NewerOfTwoIsKept | asmtodsk.py:137-142 | with two non-canonical candidates of different ages, the newer one ends at the canonical path and both originals are gone |
| Builder.BaseIsUpperCase | asmtodsk.py:175-177 | the project name from the source field, and the base `_out_paths` uses, contain no lower-case letter |
| Builder.BaseOf | asmtodsk.py:175-177 | the project name is empty when the stripped source field is, and otherwise equals the stem of the field's name up to case |
| Builder.OutputNames | asmtodsk.py:243-250 | the working folder is the resolved field; COM, DSK and object file lie in it under the base and are pairwise distinct; the COM path is the reconciler's canonical path; only the COM name is a case variant the purge or the reconciler touches |
| Builder.PackFormat | asmtodsk.py:277 | the disk format is never empty: it is the stripped field, or "einstein" when that is blank |
| Builder.AsmArgsShape | asmtodsk.py:258-271 | the assembler gets the resolved source (the current folder for an empty field, the field itself when absolute) and `-o` with the canonical COM name |
| Builder.PackArgsShape | asmtodsk.py:277-278 | the packager gets the stripped format field, or "einstein" when it is blank, the canonical COM name after `-b` and the DSK name, which differs from it, after `-o` |
| Builder.StatusTextKinds | asmtodsk.py:257-307 | the status line starts with "Error: " exactly for a missing source, a missing COM or a missing DSK, starts with "Build failed: " exactly for a build that raised, and a successful build's line ends with the DSK name |
| Builder.MissingSourceChangesNothing | asmtodsk.py:258-261 | the status is "source not found" if and only if neither a file nor a folder is at the resolved source path, and then no file, folder or log changes and no tool runs |
| Builder.FolderSourceIsAssembled | asmtodsk.py:258-271 | a folder at the source path, which is the current folder for an empty field, passes the check, and the assembler is invoked on it |
| Builder.ComSurvivesIffCandidates | asmtodsk.py:272-275 | after a successful assembler run the canonical COM exists after reconciling if and only if the scan found a candidate |
| Builder.PackagerOnlyAfterCom | asmtodsk.py:259-279 | for either outcome of the source check: at most two tools run; the assembler runs if and only if the check passed, and first; the packager runs if and only if the assembler succeeded and a candidate was found; a failed assembler or missing COM stops after one call; "Build OK" means both ran and the packager succeeded |
| Builder.BuildLogAppendOnly | asmtodsk.py:264-278 | for either outcome of the source check, a build only appends: every log keeps its old text as a prefix, and only the project's log changes |
| Builder.BuildLogStartsWithHeader | asmtodsk.py:264-271 | once the source check passes, the project's log continues with the header line, the "Building" line naming the resolved source and the assembler's command line, in that order |
| Builder.CandidatesAfterRun | asmtodsk.py:278 | a tool that writes no case variant of the COM leaves the reconciler's candidates unchanged |
| Builder.BuildOkLeavesOneCom | asmtodsk.py:266-279 | a successful build (with a packager that writes no COM variant) leaves exactly one COM across both folders, at the canonical path, holding the content of a file the reconciler found |
| Builder.Assemble | asmtodsk.py:262-271 | creates the working and logs folders, writes header and "Building" line, purges, runs the assembler; the files, folders, log and fault are exactly those of the reference build up to that point |
| Builder.FinishBuild | asmtodsk.py:272-279 | reconciles, stops with "COM not produced" if the canonical COM is missing, else runs the packager; the end state is the reference reconcile-and-package stage |
| Builder.AssembleAndPackage | asmtodsk.py:262-279 | once the source check has passed, the end state is that of the reference stages |
| Builder.RunBuild | asmtodsk.py:256-281 | the end state, status and tool calls equal the reference build `BuildSpec` |
| Builder.App.constructor | asmtodsk.py:155-166 | the form opens with an empty source, the "einstein" format, no project name and status "Ready" |
| Builder.App.OnAsmChanged | asmtodsk.py:175-179 | the project name is derived from the source field; the status shows it when it is non-empty and is otherwise unchanged |
| Builder.App.SetAsm | asmtodsk.py:168 | writing the source field runs the trace callback, so the project name always matches the field |
| Builder.App.BuildThread | asmtodsk.py:255-281 | the whole build thread ends in the state, status line and tool calls `BuildSpec` gives for the current form |
| Builder.App.RunThread | asmtodsk.py:288-307 | without the DSK the status is "DSK missing" and no emulator runs; otherwise a launch error is reported, or "MAME exited normally" |

## Left out

- The user interface is not modelled. This covers the Tk/ttkbootstrap form, layout, browse dialogs, window sizing and `main`. The threads of `_start_build` and `_start_run` are modelled as the thread bodies running to completion, with no concurrency.
- `PathText.Resolve` models `normalize_path` only as far as the current folder: an empty field is that folder, an absolute field is kept, and a relative one is joined to it. `~` expansion, `.` and `..` segments, symlinks and trailing slashes are not modelled. The same holds for `Builder.BaseOf` and `Builder.OutPathsOf`, which take `name` and `stem` of the field text as it is, where Python's `Path` first drops a trailing '/' and `.` segments: for the field "." Python's base is empty and the model's is ".", and for "x.asm/" Python's is "X" and the model's is empty.
- `find_tool`, the default tool and folder locations, the DISPLAY check and `ensure_runtime_dir_env` are environment set-up, and are not part of this model.
- The MAME command line and environment are left out. `subprocess.run` ignores the emulator's exit code, so only "could not start" versus "exited" matters to the status.
- The clock is left out. The header's timestamp is a parameter of the logger's constructor, which writes `Logging.Header` of it.
- Case mapping covers the ASCII letters only. Python's `str.lower`/`str.upper` are full Unicode.
- File names are compared case-sensitively, as on Linux. The case-insensitive filesystems of Windows and macOS are not modelled.
- The filesystem holds regular files and folders only. The following are not modelled:
  - a directory or symlink at a file path;
  - nested folders in listings;
  - the chain of parents `mkdir(parents=True)` creates;
  - permission and other I/O errors from `mkdir`, `open`, `unlink` and `move`.
- Exception messages are approximated by `Builder.FaultText`. Python's exact `str(e)` for every error is not reproduced.
- `Logging.FileLogger.StreamProc` logs all output lines before the tool's file writes take effect. The real interleaving of output and writes is not observable to the build and is not modelled.
- `Builder.FinishBuild` does not model the reconciler raising, because the working folder exists at that point.
- `Reconciler.NormaliseToSingleUppercaseCom`: when several newest candidates tie on modification time, the contract admits any of them. Python picks the first in its set and directory iteration order, which is unspecified.
- The `var_origin`, `var_mame`, `var_dos80` and `var_rompath` fields do not affect the build and are not modelled.
