/** The build log: a file under the logs folder that each build opens in append
    mode, and the runner that records a tool invocation and its output there. */
module Logging {
  import opened PathText
  import opened FileSystems

  const AppTitle: string := "AsmToDsk v2.3"

  /** The first line each logger writes: the bracketed timestamp, which comes
      from the clock, then the application title. */
  function Header(timestamp: string): string
  {
    "[" + timestamp + "] " + AppTitle + "\n"
  }

  /** The header is one line, which starts with the bracketed timestamp. */
  lemma HeaderShape(timestamp: string)
    ensures EndsWithNewline(Header(timestamp)) && LineText(Header(timestamp)) == Header(timestamp)
    ensures '\n' !in timestamp ==> '\n' !in Header(timestamp)[..|Header(timestamp)| - 1]
    ensures |Header(timestamp)| > |timestamp| + 2 && Header(timestamp)[..|timestamp| + 2] == "[" + timestamp + "]"
  {
    var h := Header(timestamp);
    assert h[..|h| - 1] == "[" + timestamp + "] " + AppTitle;
  }

  predicate EndsWithNewline(t: string)
  {
    |t| > 0 && t[|t| - 1] == '\n'
  }

  /** The text `FileLogger.line` writes for `t`: the shortest extension of `t`
      that ends in a newline. */
  function LineText(t: string): (r: string)
    ensures EndsWithNewline(r)
    ensures t <= r && |r| <= |t| + 1
    ensures EndsWithNewline(t) ==> r == t
  {
    if EndsWithNewline(t) then t else t + "\n"
  }

  /** A text that already ends in a newline is written unchanged, so writing
      a written line again adds nothing more. */
  lemma LineTextIdempotent(t: string)
    ensures EndsWithNewline(t) ==> LineText(t) == t
    ensures LineText(LineText(t)) == LineText(t)
  {
  }

  /** `sep.join(parts)`. */
  function Join(sep: string, parts: seq<string>): string
  {
    if |parts| == 0 then ""
    else if |parts| == 1 then parts[0]
    else parts[0] + sep + Join(sep, parts[1..])
  }

  /** Joining parts that hold no newline with a separator that holds none gives
      text without a newline. */
  lemma {:induction false} JoinHasNoNewline(sep: string, parts: seq<string>)
    requires '\n' !in sep
    requires forall k :: 0 <= k < |parts| ==> '\n' !in parts[k]
    ensures '\n' !in Join(sep, parts)
  {
    if |parts| > 1 {
      JoinHasNoNewline(sep, parts[1..]);
    }
  }

  /** The text `FileLogger.cmd` writes for an argument list. */
  function CmdText(args: seq<string>): string
  {
    LineText("$ " + Join(" ", args))
  }

  /** A command line is `$ ` and the space-joined arguments on a line of its
      own, as long as no argument holds a newline. */
  lemma CmdTextShape(args: seq<string>)
    requires forall k :: 0 <= k < |args| ==> '\n' !in args[k]
    ensures CmdText(args) == "$ " + Join(" ", args) + "\n"
    ensures '\n' !in CmdText(args)[..|CmdText(args)| - 1]
  {
    JoinHasNoNewline(" ", args);
    var t := "$ " + Join(" ", args);
    assert t[|t| - 1] in t;
    assert CmdText(args)[..|CmdText(args)| - 1] == t;
  }

  /** The lines of a process's output, written one after the other. */
  function Concat(lines: seq<string>): string
  {
    if lines == [] then "" else Concat(lines[..|lines| - 1]) + lines[|lines| - 1]
  }

  /** What running an external tool does, as far as the build sees it: either
      the program cannot be started, or it runs, prints `output` (line by line,
      each with its own terminator) and writes `writes` before exiting with `rc`. */
  datatype ToolRun =
    | NotLaunched(reason: string)
    | Launched(rc: int, output: seq<string>, writes: map<Path, FileInfo>)

  /** The exceptions a build step can raise. */
  datatype Fault =
    | LaunchError(reason: string)
    | NonZeroExit(rc: int, args: seq<string>)
    // A filesystem error; the reconciler raises one when the working folder
    // is missing, which a build never reaches since it creates that folder.
    | OsFailure(error: OsError)

  /** The text `stream_proc` appends to the log for a run of `args`. */
  function RunLog(args: seq<string>, run: ToolRun): string
  {
    CmdText(args) + if run.Launched? then Concat(run.output) else ""
  }

  /** The exception `stream_proc` raises, if any. */
  function RunFault(args: seq<string>, run: ToolRun): Option<Fault>
  {
    match run
    case NotLaunched(reason) => Some(LaunchError(reason))
    case Launched(rc, _, _) => if rc != 0 then Some(NonZeroExit(rc, args)) else None
  }

  /** The files after a run of a tool. */
  function AfterRun(files: map<Path, FileInfo>, dirs: set<string>, run: ToolRun): map<Path, FileInfo>
  {
    if run.Launched? then WithWrites(files, dirs, run.writes) else files
  }

  /** A run that does not write `p` leaves it as it was. */
  lemma AfterRunKeeps(files: map<Path, FileInfo>, dirs: set<string>, run: ToolRun, p: Path)
    requires p in files && (run.Launched? ==> p !in run.writes)
    ensures p in AfterRun(files, dirs, run) && AfterRun(files, dirs, run)[p] == files[p]
  {
  }

  /** A run of a tool fails exactly when the program could not be started or
      exited with a code other than zero, and it always logs its command first. */
  lemma RunOutcome(args: seq<string>, run: ToolRun)
    ensures RunFault(args, run).None? <==> run.Launched? && run.rc == 0
    ensures CmdText(args) <= RunLog(args, run)
  {
  }

  /** `FileLogger`: appends to the log file `logPath` of the filesystem `fs`. */
  class FileLogger {
    const logPath: string
    const fs: FileSystem

    /** The current contents of the log file. */
    function Text(): string
      reads fs
    {
      LogText(fs.logs, logPath)
    }

    /** Creates the parent folder of the log file and writes the header line
        stamped with the current time `timestamp`. */
    constructor (fs: FileSystem, logPath: string, timestamp: string)
      requires fs.Valid()
      modifies fs
      ensures this.fs == fs && this.logPath == logPath
      ensures fs.Valid() && fs.files == old(fs.files) && fs.dirs == old(fs.dirs) + {Parent(logPath)}
      ensures fs.logs == Appended(old(fs.logs), logPath, Header(timestamp))
    {
      this.logPath := logPath;
      this.fs := fs;
      new;
      fs.MakeDir(Parent(logPath));
      fs.Append(logPath, Header(timestamp));
    }

    method Write(text: string)
      modifies fs`logs
      ensures fs.logs == Appended(old(fs.logs), logPath, text)
    {
      fs.Append(logPath, text);
    }

    method Line(text: string)
      modifies fs`logs
      ensures fs.logs == Appended(old(fs.logs), logPath, LineText(text))
    {
      Write(if EndsWithNewline(text) then text else text + "\n");
    }

    method Cmd(args: seq<string>)
      modifies fs`logs
      ensures fs.logs == Appended(old(fs.logs), logPath, CmdText(args))
    {
      Line("$ " + Join(" ", args));
    }

    /** Copies the lines of a process's output to the log, one at a time. */
    method WriteLines(lines: seq<string>)
      requires logPath in fs.logs
      modifies fs`logs
      ensures fs.logs == Appended(old(fs.logs), logPath, Concat(lines))
    {
      var i := 0;
      assert Concat(lines[..i]) == "" && fs.logs[logPath] + "" == fs.logs[logPath];
      while i < |lines|
        invariant 0 <= i <= |lines|
        invariant fs.logs == Appended(old(fs.logs), logPath, Concat(lines[..i]))
      {
        Write(lines[i]);
        AppendedTwice(old(fs.logs), logPath, Concat(lines[..i]), lines[i]);
        assert lines[..i + 1][..i] == lines[..i];
        i := i + 1;
      }
      assert lines[..i] == lines;
    }

    /** `stream_proc`: records the command, then copies each output line of the
        process to the log as it arrives; raises when the program cannot be
        started or exits with a code other than zero. */
    method StreamProc(args: seq<string>, run: ToolRun) returns (fault: Option<Fault>)
      requires fs.Valid()
      modifies fs`logs, fs`files
      ensures fs.Valid()
      ensures fs.logs == Appended(old(fs.logs), logPath, RunLog(args, run))
      ensures fs.files == AfterRun(old(fs.files), fs.dirs, run)
      ensures fault == RunFault(args, run)
    {
      Cmd(args);
      match run {
        case NotLaunched(reason) =>
          fault := Some(LaunchError(reason));
          assert RunLog(args, run) == CmdText(args);
        case Launched(rc, output, writes) =>
          WriteLines(output);
          AppendedTwice(old(fs.logs), logPath, CmdText(args), Concat(output));
          fs.Write(writes);
          fault := if rc != 0 then Some(NonZeroExit(rc, args)) else None;
      }
    }
  }
}
