/** The part of the host filesystem the build touches: regular files keyed by
    (folder, name), the set of folders that exist, and the text of the log files
    that are only ever opened for appending. */
module FileSystems {
  import opened PathText

  /** What the model knows of a regular file: its modification time and an
      identifier of its content. */
  datatype FileInfo = FileInfo(mtime: int, content: nat)

  /** The error an `os` call raises. */
  datatype OsError = NoSuchDirectory(dir: string)

  /** Every file sits in a folder that exists. */
  ghost predicate FilesInDirs(files: map<Path, FileInfo>, dirs: set<string>)
  {
    forall p :: p in files ==> p.dir in dirs
  }

  /** The regular files `Path(folder).iterdir()` lists. */
  function Listing(files: map<Path, FileInfo>, folder: string): set<Path>
  {
    set p | p in files && p.dir == folder
  }

  /** The files after a process has written `writes`: a write into a folder that
      does not exist has no effect. */
  function WithWrites(files: map<Path, FileInfo>, dirs: set<string>, writes: map<Path, FileInfo>): (r: map<Path, FileInfo>)
    ensures FilesInDirs(files, dirs) ==> FilesInDirs(r, dirs)
  {
    files + map p | p in writes && p.dir in dirs :: writes[p]
  }

  /** The text of a log file; a file never written holds nothing. */
  function LogText(logs: map<string, string>, path: string): string
  {
    if path in logs then logs[path] else ""
  }

  /** The logs once `text` is appended to the file `path`. */
  function Appended(logs: map<string, string>, path: string, text: string): map<string, string>
  {
    logs[path := LogText(logs, path) + text]
  }

  /** Appending keeps every log's old text as a prefix, changes no other file,
      and adds exactly the appended text. */
  lemma AppendedGrows(logs: map<string, string>, path: string, text: string, other: string)
    ensures LogText(logs, other) <= LogText(Appended(logs, path, text), other)
    ensures other != path ==> LogText(Appended(logs, path, text), other) == LogText(logs, other)
    ensures LogText(Appended(logs, path, text), path) == LogText(logs, path) + text
  {
  }

  /** Two appends to one file are one append of both texts. */
  lemma AppendedTwice(logs: map<string, string>, path: string, a: string, b: string)
    ensures Appended(Appended(logs, path, a), path, b) == Appended(logs, path, a + b)
  {
    assert LogText(logs, path) + a + b == LogText(logs, path) + (a + b);
  }

  class FileSystem {
    var files: map<Path, FileInfo>
    var dirs: set<string>
    var logs: map<string, string>

    ghost predicate Valid()
      reads this
    {
      FilesInDirs(files, dirs)
    }

    constructor (files: map<Path, FileInfo>, dirs: set<string>, logs: map<string, string>)
      requires FilesInDirs(files, dirs)
      ensures Valid()
      ensures this.files == files && this.dirs == dirs && this.logs == logs
    {
      this.files := files;
      this.dirs := dirs;
      this.logs := logs;
    }

    /** `Path.mkdir(exist_ok=True)`. */
    method MakeDir(d: string)
      requires Valid()
      modifies this`dirs
      ensures Valid()
      ensures dirs == old(dirs) + {d}
    {
      dirs := dirs + {d};
    }

    /** `Path.unlink(missing_ok=True)`. */
    method Unlink(p: Path)
      requires Valid()
      modifies this`files
      ensures Valid()
      ensures files == old(files) - {p}
    {
      files := files - {p};
    }

    /** `shutil.move` of a regular file onto a file path: the file keeps its
        modification time and content; a missing target folder raises. */
    method Move(src: Path, dst: Path) returns (err: Option<OsError>)
      requires Valid() && src in files
      modifies this`files
      ensures Valid()
      ensures err == if dst.dir in dirs then None else Some(NoSuchDirectory(dst.dir))
      ensures files == if err.None? then (old(files) - {src})[dst := old(files)[src]] else old(files)
    {
      if dst.dir in dirs {
        files := (files - {src})[dst := files[src]];
        err := None;
      } else {
        err := Some(NoSuchDirectory(dst.dir));
      }
    }

    /** A process writing files. */
    method Write(writes: map<Path, FileInfo>)
      requires Valid()
      modifies this`files
      ensures Valid()
      ensures files == WithWrites(old(files), dirs, writes)
    {
      files := WithWrites(files, dirs, writes);
    }

    /** `open(path, "a").write(text)`. */
    method Append(path: string, text: string)
      modifies this`logs
      ensures logs == Appended(old(logs), path, text)
    {
      logs := Appended(logs, path, text);
    }
  }
}
