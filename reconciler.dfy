/** The COM reconciler: collapses the case variants of `<stem>.com` found in the
    working folder and the source folder onto the single file `wd/<stem>.COM`,
    and the pre-build purge of those variants from one folder. */
module Reconciler {
  import opened PathText
  import opened FileSystems

  /** `f"{base_stem.lower()}.com"`. */
  function WantedLower(stem: string): string
  {
    Lower(stem) + ".com"
  }

  /** A file name is a case variant of `<stem>.com`. */
  predicate Matches(name: string, stem: string)
  {
    Lower(name) == WantedLower(stem)
  }

  /** `wd / f"{base_stem}.COM"`: the canonical path. */
  function Desired(wd: string, stem: string): Path
  {
    Path(wd, stem + ".COM")
  }

  /** The files a scan of the existing folders among `folders` collects. */
  function CandidatesIn(files: map<Path, FileInfo>, dirs: set<string>, folders: set<string>, stem: string): set<Path>
  {
    set p | p in files && p.dir in folders && p.dir in dirs && Matches(p.name, stem)
  }

  /** The candidate list of the reconciler, as a set: the scan covers the set
      `{wd, asm_dir}`, so one folder given twice is scanned once. */
  function Candidates(files: map<Path, FileInfo>, dirs: set<string>, wd: string, asmDir: string, stem: string): set<Path>
  {
    CandidatesIn(files, dirs, {wd, asmDir}, stem)
  }

  /** `k` is a candidate no other candidate is newer than. */
  ghost predicate Newest(files: map<Path, FileInfo>, cands: set<Path>, k: Path)
    requires cands <= files.Keys
  {
    k in cands && forall c :: c in cands ==> files[c].mtime <= files[k].mtime
  }

  /** The choice of the file to keep: none when there is no candidate, the
      canonical path when it is a candidate, and otherwise any newest candidate
      (ties are broken by the unspecified scan order). */
  ghost predicate ValidKeep(files: map<Path, FileInfo>, cands: set<Path>, desired: Path, keep: Option<Path>)
  {
    && cands <= files.Keys
    && match keep
       case None => cands == {}
       case Some(k) => if desired in cands then k == desired else Newest(files, cands, k)
  }

  /** The kept file is one of the files. */
  lemma KeptIsAFile(files: map<Path, FileInfo>, cands: set<Path>, desired: Path, keep: Option<Path>)
    requires ValidKeep(files, cands, desired, keep)
    ensures keep.Some? ==> keep.value in cands && keep.value in files
  {
  }

  /** The files after a successful reconciliation that kept `keep`: every
      candidate is gone, and the canonical path holds the kept file. */
  function Reconciled(files: map<Path, FileInfo>, cands: set<Path>, desired: Path, keep: Option<Path>): map<Path, FileInfo>
    requires keep.Some? ==> keep.value in files
  {
    match keep
    case None => files
    case Some(k) => (files - cands)[desired := files[k]]
  }

  /** The files after the purge of `folder`. */
  function Purged(files: map<Path, FileInfo>, folder: string, stem: string): map<Path, FileInfo>
  {
    files - set p | p in files && p.dir == folder && Matches(p.name, stem)
  }

  /** Upper-casing the stem changes nothing about which names are its
      variants: the purge and the reconciler, given the upper-cased project
      name, find the same files as for the stem as typed. */
  lemma UpperStemSameVariants(name: string, stem: string)
    ensures Matches(name, Upper(stem)) <==> Matches(name, stem)
  {
    LowerOfUpper(stem);
  }

  /** The canonical name is itself a case variant of `<stem>.com`. */
  lemma DesiredMatches(wd: string, stem: string)
    ensures Matches(Desired(wd, stem).name, stem)
  {
    LowerAppend(stem, ".COM");
  }

  /** `_remove_com_variants`: deletes every file of `folder` whose lower-cased
      name is `<stem>.com`. A folder that does not exist lists nothing. */
  method RemoveComVariants(fs: FileSystem, folder: string, stem: string)
    requires fs.Valid()
    modifies fs`files
    ensures fs.Valid()
    ensures fs.files == Purged(old(fs.files), folder, stem)
  {
    var wanted := Lower(stem) + ".com";
    var entries := Listing(fs.files, folder);
    ghost var listed := entries;
    while entries != {}
      invariant fs.Valid()
      invariant entries <= listed
      invariant fs.files == old(fs.files) - set p | p in listed - entries && Matches(p.name, stem)
      decreases entries
    {
      var p :| p in entries;
      entries := entries - {p};
      if p in fs.files && Lower(p.name) == wanted {
        fs.Unlink(p);
      }
    }
    assert listed - entries == listed;
  }

  /** `max(candidates, key=mtime)`: the first candidate of the list whose
      modification time no other candidate exceeds. */
  method NewestCandidate(files: map<Path, FileInfo>, cands: seq<Path>) returns (best: Path)
    requires |cands| > 0 && forall c :: c in cands ==> c in files
    ensures best in cands
    ensures forall c :: c in cands ==> files[c].mtime <= files[best].mtime
    ensures exists k :: 0 <= k < |cands| && best == cands[k] && forall j :: 0 <= j < k ==> files[cands[j]].mtime < files[best].mtime
  {
    best := cands[0];
    ghost var k := 0;
    var i := 1;
    while i < |cands|
      invariant 1 <= i <= |cands|
      invariant 0 <= k < i && best == cands[k]
      invariant forall j :: 0 <= j < i ==> files[cands[j]].mtime <= files[best].mtime
      invariant forall j :: 0 <= j < k ==> files[cands[j]].mtime < files[best].mtime
    {
      if files[cands[i]].mtime > files[best].mtime {
        best := cands[i];
        k := i;
      }
      i := i + 1;
    }
  }

  /** The scan of `_normalise_to_single_uppercase_com`: visits the folders of
      `{wd, asm_dir}` in an unspecified order, each once, and lists the case
      variants of `<stem>.com` of those that exist. */
  method CollectCandidates(fs: FileSystem, wd: string, asmDir: string, stem: string) returns (candidates: seq<Path>)
    ensures forall p :: p in candidates <==> p in Candidates(fs.files, fs.dirs, wd, asmDir, stem)
  {
    var wanted := Lower(stem) + ".com";
    candidates := [];
    var folders := {wd, asmDir};
    ghost var scanned: set<string> := {};
    while folders != {}
      invariant folders <= {wd, asmDir} && scanned == {wd, asmDir} - folders
      invariant forall p :: p in candidates <==> p in CandidatesIn(fs.files, fs.dirs, scanned, stem)
      decreases folders
    {
      var folder :| folder in folders;
      if folder in fs.dirs {
        var entries := Listing(fs.files, folder);
        ghost var listed := entries;
        while entries != {}
          invariant entries <= listed
          invariant forall p :: p in candidates <==>
                      p in CandidatesIn(fs.files, fs.dirs, scanned, stem) || (p in listed - entries && Matches(p.name, stem))
          decreases entries
        {
          var p :| p in entries;
          entries := entries - {p};
          if p in fs.files && Lower(p.name) == wanted {
            candidates := candidates + [p];
          }
        }
      }
      folders := folders - {folder};
      scanned := scanned + {folder};
    }
    assert scanned == {wd, asmDir};
  }

  /** The deletion loop of the reconciler: removes every listed file other
      than `desired` that still exists. */
  method DeleteOthers(fs: FileSystem, candidates: seq<Path>, desired: Path)
    requires fs.Valid()
    modifies fs`files
    ensures fs.Valid()
    ensures fs.files == old(fs.files) - set p | p in candidates && p != desired
  {
    var i := 0;
    while i < |candidates|
      invariant 0 <= i <= |candidates|
      invariant fs.Valid()
      invariant fs.files == old(fs.files) - set p | p in candidates[..i] && p != desired
    {
      var p := candidates[i];
      if p in fs.files && p != desired {
        fs.Unlink(p);
      }
      assert candidates[..i + 1] == candidates[..i] + [p];
      i := i + 1;
    }
    assert candidates[..i] == candidates;
  }

  /** `_normalise_to_single_uppercase_com`: keeps one candidate at the
      canonical path and deletes the others. It returns the canonical path
      whether or not a file is there, or the error of a move into a working
      folder that does not exist (nothing is deleted then). */
  method NormaliseToSingleUppercaseCom(fs: FileSystem, wd: string, asmDir: string, stem: string)
    returns (r: Result, ghost kept: Option<Path>)
    requires fs.Valid()
    modifies fs`files
    ensures fs.Valid()
    ensures ValidKeep(old(fs.files), Candidates(old(fs.files), fs.dirs, wd, asmDir, stem), Desired(wd, stem), kept)
    ensures Candidates(old(fs.files), fs.dirs, wd, asmDir, stem) != {} && wd !in fs.dirs ==>
              r == Raised(NoSuchDirectory(wd)) && fs.files == old(fs.files)
    ensures Candidates(old(fs.files), fs.dirs, wd, asmDir, stem) == {} || wd in fs.dirs ==>
              r == Returned(Desired(wd, stem)) &&
              fs.files == Reconciled(old(fs.files), Candidates(old(fs.files), fs.dirs, wd, asmDir, stem), Desired(wd, stem), kept)
  {
    ghost var files0 := fs.files;
    ghost var cands := Candidates(files0, fs.dirs, wd, asmDir, stem);
    var candidates := CollectCandidates(fs, wd, asmDir, stem);

    // Choose the file to keep.
    var desired := Path(wd, stem + ".COM");
    var keep: Option<Path>;
    if desired in candidates {
      keep := Some(desired);
    } else if |candidates| > 0 {
      var newest := NewestCandidate(fs.files, candidates);
      keep := Some(newest);
    } else {
      keep := None;
      assert forall p :: p in cands ==> p in candidates;
    }
    kept := keep;

    if keep.Some? && keep.value != desired {
      var err := fs.Move(keep.value, desired);
      if err.Some? {
        r := Raised(err.value);
        return;
      }
    }

    DeleteOthers(fs, candidates, desired);
    ghost var gone := set p | p in candidates && p != desired;
    assert gone == cands - {desired};
    r := Returned(desired);
    match keep {
      case None =>
      case Some(k) =>
        assert fs.files == (files0 - cands)[desired := files0[k]];
    }
  }

  /** What the reconciler returns: the canonical path, or the error it raised. */
  datatype Result = Returned(path: Path) | Raised(error: OsError)

  // ---------------------------------------------------------------------------
  // Properties of a reconciliation

  /** With at least one candidate, a reconciliation leaves exactly one case
      variant across the two folders: the canonical path, which holds the kept
      candidate. */
  lemma ExactlyOneSurvivor(files: map<Path, FileInfo>, dirs: set<string>, wd: string, asmDir: string, stem: string, keep: Option<Path>)
    requires FilesInDirs(files, dirs) && wd in dirs
    requires ValidKeep(files, Candidates(files, dirs, wd, asmDir, stem), Desired(wd, stem), keep)
    requires Candidates(files, dirs, wd, asmDir, stem) != {}
    ensures var after := Reconciled(files, Candidates(files, dirs, wd, asmDir, stem), Desired(wd, stem), keep);
            && Candidates(after, dirs, wd, asmDir, stem) == {Desired(wd, stem)}
            && after[Desired(wd, stem)] == files[keep.value]
  {
    var cands := Candidates(files, dirs, wd, asmDir, stem);
    var desired := Desired(wd, stem);
    var after := Reconciled(files, cands, desired, keep);
    DesiredMatches(wd, stem);
    assert desired in Candidates(after, dirs, wd, asmDir, stem);
  }

  /** The reconciler touches only case variants of `<stem>.com` in the two
      folders, and creates no content: every file it leaves held a content
      that was already there. */
  lemma ReconcileFrame(files: map<Path, FileInfo>, dirs: set<string>, wd: string, asmDir: string, stem: string, keep: Option<Path>)
    requires ValidKeep(files, Candidates(files, dirs, wd, asmDir, stem), Desired(wd, stem), keep)
    ensures var after := Reconciled(files, Candidates(files, dirs, wd, asmDir, stem), Desired(wd, stem), keep);
            && (forall p: Path :: p.dir !in {wd, asmDir} || !Matches(p.name, stem) ==>
                  (p in after <==> p in files) && (p in files ==> after[p] == files[p]))
            && after.Values <= files.Values
  {
    var cands := Candidates(files, dirs, wd, asmDir, stem);
    var desired := Desired(wd, stem);
    var after := Reconciled(files, cands, desired, keep);
    DesiredMatches(wd, stem);
    forall v | v in after.Values ensures v in files.Values {
      var p :| p in after && after[p] == v;
      if keep.Some? && p == desired {
        assert files[keep.value] == v;
      } else {
        assert files[p] == v;
      }
    }
  }

  /** With no candidate a reconciliation changes nothing, and the canonical path
      it returns names no file. */
  lemma ZeroCandidates(files: map<Path, FileInfo>, dirs: set<string>, wd: string, asmDir: string, stem: string, keep: Option<Path>)
    requires FilesInDirs(files, dirs)
    requires ValidKeep(files, Candidates(files, dirs, wd, asmDir, stem), Desired(wd, stem), keep)
    requires Candidates(files, dirs, wd, asmDir, stem) == {}
    ensures Reconciled(files, {}, Desired(wd, stem), keep) == files
    ensures Desired(wd, stem) !in files
  {
    DesiredMatches(wd, stem);
    assert Desired(wd, stem) in files ==> Desired(wd, stem) in Candidates(files, dirs, wd, asmDir, stem);
  }

  /** A second reconciliation right after the first can only keep the canonical
      file where it is, and it changes nothing. */
  lemma ReconcileIdempotent(files: map<Path, FileInfo>, dirs: set<string>, wd: string, asmDir: string, stem: string,
                            keep: Option<Path>, keep2: Option<Path>)
    requires FilesInDirs(files, dirs) && wd in dirs
    requires ValidKeep(files, Candidates(files, dirs, wd, asmDir, stem), Desired(wd, stem), keep)
    requires var after := Reconciled(files, Candidates(files, dirs, wd, asmDir, stem), Desired(wd, stem), keep);
             ValidKeep(after, Candidates(after, dirs, wd, asmDir, stem), Desired(wd, stem), keep2)
    ensures var after := Reconciled(files, Candidates(files, dirs, wd, asmDir, stem), Desired(wd, stem), keep);
            && keep2 == (if keep.Some? then Some(Desired(wd, stem)) else None)
            && Reconciled(after, Candidates(after, dirs, wd, asmDir, stem), Desired(wd, stem), keep2) == after
  {
    var cands := Candidates(files, dirs, wd, asmDir, stem);
    var desired := Desired(wd, stem);
    var after := Reconciled(files, cands, desired, keep);
    if cands == {} {
      ZeroCandidates(files, dirs, wd, asmDir, stem, keep);
    } else {
      ExactlyOneSurvivor(files, dirs, wd, asmDir, stem, keep);
      assert (after - {desired})[desired := after[desired]] == after;
    }
  }

  /** Two candidates of different age, neither at the canonical path: the newer
      one is moved onto the canonical path and the older one is deleted. */
  lemma NewerOfTwoIsKept(files: map<Path, FileInfo>, dirs: set<string>, wd: string, asmDir: string, stem: string,
                         older: Path, newer: Path, keep: Option<Path>)
    requires Candidates(files, dirs, wd, asmDir, stem) == {older, newer}
    requires Desired(wd, stem) !in {older, newer}
    requires files[older].mtime < files[newer].mtime
    requires ValidKeep(files, {older, newer}, Desired(wd, stem), keep)
    ensures keep == Some(newer)
    ensures var after := Reconciled(files, {older, newer}, Desired(wd, stem), keep);
            older !in after && newer !in after && after[Desired(wd, stem)] == files[newer]
  {
    assert !Newest(files, {older, newer}, older);
  }

  /** After the purge of a folder, none of the candidates of a reconciliation
      lies in that folder; the others are untouched. */
  lemma PurgeEmptiesFolder(files: map<Path, FileInfo>, dirs: set<string>, wd: string, asmDir: string, stem: string)
    ensures Candidates(Purged(files, wd, stem), dirs, wd, asmDir, stem) ==
            set c | c in Candidates(files, dirs, wd, asmDir, stem) && c.dir != wd
    ensures forall p: Path :: p.dir != wd || !Matches(p.name, stem) ==>
              (p in Purged(files, wd, stem) <==> p in files) && (p in files ==> Purged(files, wd, stem)[p] == files[p])
  {
  }
}
