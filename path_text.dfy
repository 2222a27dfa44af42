/** Text operations on file names and paths: ASCII case mapping, Python-style
    whitespace stripping, `rfind`, and the `name`, `stem` and `parent` parts of a
    normalised POSIX path. */
module PathText {

  /** A file, named by the folder that holds it and its name inside that folder. */
  datatype Path = Path(dir: string, name: string)

  datatype Option<T> = None | Some(value: T)

  predicate IsAsciiUpper(c: char) { 'A' <= c <= 'Z' }

  predicate IsAsciiLower(c: char) { 'a' <= c <= 'z' }

  function LowerChar(c: char): char
  {
    if IsAsciiUpper(c) then (c as int + 32) as char else c
  }

  function UpperChar(c: char): char
  {
    if IsAsciiLower(c) then (c as int - 32) as char else c
  }

  /** `str.lower()`, restricted to the ASCII letters. */
  function Lower(s: string): (r: string)
    ensures |r| == |s|
  {
    if s == [] then [] else [LowerChar(s[0])] + Lower(s[1..])
  }

  /** `str.upper()`, restricted to the ASCII letters. */
  function Upper(s: string): (r: string)
    ensures |r| == |s|
  {
    if s == [] then [] else [UpperChar(s[0])] + Upper(s[1..])
  }

  lemma {:induction false} LowerAppend(a: string, b: string)
    ensures Lower(a + b) == Lower(a) + Lower(b)
  {
    if a == [] {
      assert a + b == b;
    } else {
      assert (a + b)[1..] == a[1..] + b;
      LowerAppend(a[1..], b);
    }
  }

  lemma {:induction false} UpperAppend(a: string, b: string)
    ensures Upper(a + b) == Upper(a) + Upper(b)
  {
    if a == [] {
      assert a + b == b;
    } else {
      assert (a + b)[1..] == a[1..] + b;
      UpperAppend(a[1..], b);
    }
  }

  /** Upper-casing leaves no lower-case ASCII letter. */
  lemma {:induction false} UpperHasNoLower(s: string)
    ensures forall i :: 0 <= i < |s| ==> !IsAsciiLower(Upper(s)[i])
  {
    if s != [] {
      UpperHasNoLower(s[1..]);
    }
  }

  /** Lower-casing an upper-cased string gives the lower-cased original: matching
      a case variant of an upper-cased stem is matching a case variant of the stem. */
  lemma {:induction false} LowerOfUpper(s: string)
    ensures Lower(Upper(s)) == Lower(s)
  {
    if s != [] {
      LowerOfUpper(s[1..]);
    }
  }

  /** A string without lower-case ASCII letters is its own upper-case form. */
  lemma {:induction false} UpperFixesUpperCase(s: string)
    requires forall i :: 0 <= i < |s| ==> !IsAsciiLower(s[i])
    ensures Upper(s) == s
  {
    if s != [] {
      UpperFixesUpperCase(s[1..]);
    }
  }

  /** The characters Python's `str.isspace()` accepts. */
  predicate IsSpace(c: char)
  {
    || '\t' <= c <= '\r'
    || '\U{1C}' <= c <= ' '
    || c == '\U{85}' || c == '\U{A0}' || c == '\U{1680}'
    || '\U{2000}' <= c <= '\U{200A}'
    || c == '\U{2028}' || c == '\U{2029}' || c == '\U{202F}' || c == '\U{205F}' || c == '\U{3000}'
  }

  function StripLeft(s: string): string
  {
    if s != [] && IsSpace(s[0]) then StripLeft(s[1..]) else s
  }

  function StripRight(s: string): string
  {
    if s != [] && IsSpace(s[|s| - 1]) then StripRight(s[..|s| - 1]) else s
  }

  /** `str.strip()` with no argument. */
  function Strip(s: string): string
  {
    StripRight(StripLeft(s))
  }

  /** Stripping removes exactly the surrounding whitespace: the result is a
      slice of the input with only whitespace before and after it, and it
      neither starts nor ends with whitespace. */
  lemma {:induction false} StripIsTrimmedSlice(s: string)
    ensures exists i, j :: && 0 <= i <= j <= |s| && Strip(s) == s[i..j]
                           && (forall k :: 0 <= k < i ==> IsSpace(s[k]))
                           && (forall k :: j <= k < |s| ==> IsSpace(s[k]))
    ensures Strip(s) != [] ==> !IsSpace(Strip(s)[0]) && !IsSpace(Strip(s)[|Strip(s)| - 1])
  {
    var i := StripLeftSlice(s);
    var j := StripRightSlice(s[i..]);
    assert Strip(s) == s[i..][..j] == s[i..i + j];
    assert forall k :: i + j <= k < |s| ==> s[k] == s[i..][k - i];
  }

  lemma {:induction false} StripLeftSlice(s: string) returns (i: nat)
    ensures i <= |s| && StripLeft(s) == s[i..]
    ensures forall k :: 0 <= k < i ==> IsSpace(s[k])
    ensures StripLeft(s) != [] ==> !IsSpace(StripLeft(s)[0])
  {
    if s != [] && IsSpace(s[0]) {
      var k := StripLeftSlice(s[1..]);
      i := k + 1;
      assert s[1..][k..] == s[i..];
    } else {
      i := 0;
    }
  }

  lemma {:induction false} StripRightSlice(s: string) returns (j: nat)
    ensures j <= |s| && StripRight(s) == s[..j]
    ensures forall k :: j <= k < |s| ==> IsSpace(s[k])
    ensures StripRight(s) != [] ==> !IsSpace(StripRight(s)[|StripRight(s)| - 1])
  {
    if s != [] && IsSpace(s[|s| - 1]) {
      j := StripRightSlice(s[..|s| - 1]);
      assert s[..|s| - 1][..j] == s[..j];
    } else {
      j := |s|;
    }
  }

  /** Text that neither starts nor ends with whitespace is left alone. */
  lemma StripKeepsTrimmed(s: string)
    requires s != [] ==> !IsSpace(s[0]) && !IsSpace(s[|s| - 1])
    ensures Strip(s) == s
  {
  }

  /** `str.rfind(c)`: the index of the last occurrence of `c`, or -1. */
  function RFind(s: string, c: char): (i: int)
    ensures -1 <= i < |s|
    ensures i >= 0 ==> s[i] == c
    ensures forall j :: i < j < |s| ==> s[j] != c
  {
    if s == [] then -1
    else if s[|s| - 1] == c then |s| - 1
    else RFind(s[..|s| - 1], c)
  }

  /** `PurePath.name` of a normalised path: the text after the last '/'. */
  function Name(p: string): string
  {
    p[RFind(p, '/') + 1..]
  }

  /** The name is the last component: a suffix without '/', preceded by '/'
      unless it is the whole path. */
  lemma NameIsLastComponent(p: string)
    ensures '/' !in Name(p) && |Name(p)| <= |p| && Name(p) == p[|p| - |Name(p)|..]
    ensures |Name(p)| < |p| ==> p[|p| - |Name(p)| - 1] == '/'
  {
  }

  /** `PurePath.parent` of a normalised path. */
  function Parent(p: string): string
  {
    var i := RFind(p, '/');
    if i < 0 then "." else if i == 0 then "/" else p[..i]
  }

  /** `PurePath.stem` of a file name: the name without its last suffix, where a
      suffix is a '.' that is neither the first nor the last character. */
  function Stem(name: string): string
  {
    var i := RFind(name, '.');
    if 0 < i < |name| - 1 then name[..i] else name
  }

  /** `normalize_path`, i.e. `str(Path(p).expanduser().resolve())`, for a
      field in the current folder `cwd`. */
  function Resolve(cwd: string, p: string): string
  {
    if p == "" then cwd
    else if p[0] == '/' then p
    else JoinPath(cwd, p)
  }

  /** An empty field resolves to the current folder, an absolute path to
      itself, and every field ends its resolved path. */
  lemma ResolveKeepsField(cwd: string, p: string)
    ensures p == "" ==> Resolve(cwd, p) == cwd
    ensures p != "" && p[0] == '/' ==> Resolve(cwd, p) == p
    ensures |p| <= |Resolve(cwd, p)| && Resolve(cwd, p)[|Resolve(cwd, p)| - |p|..] == p
  {
  }

  /** The parent of a bare name is ".", the parent of a name right under the
      root is "/", and otherwise the parent, a '/' and the name give the path
      back. */
  lemma ParentAndName(p: string)
    ensures '/' !in p ==> Parent(p) == "."
    ensures '/' in p && |p| - |Name(p)| >= 2 ==> Parent(p) + "/" + Name(p) == p
    ensures '/' in p && |p| - |Name(p)| == 1 ==> Parent(p) == "/"
  {
  }

  /** The stem drops exactly the last suffix: a '.' that is neither first nor
      last, after which no other '.' follows, and everything after it. */
  lemma StemDropsSuffix(name: string)
    ensures Stem(name) <= name
    ensures Stem(name) != name ==>
              0 < |Stem(name)| < |name| - 1 && name[|Stem(name)|] == '.' && '.' !in name[|Stem(name)| + 1..]
    ensures forall i :: 0 < i < |name| - 1 && name[i] == '.' && '.' !in name[i + 1..] ==> Stem(name) == name[..i]
  {
    forall i | 0 < i < |name| - 1 && name[i] == '.' && '.' !in name[i + 1..]
      ensures Stem(name) == name[..i]
    {
      assert RFind(name, '.') == i;
    }
  }

  /** The string form of `Path(dir) / name`. */
  function JoinPath(dir: string, name: string): string
  {
    if dir != [] && dir[|dir| - 1] == '/' then dir + name else dir + "/" + name
  }

  /** The name of a joined path is the name that was joined, whatever the folder. */
  lemma NameOfJoin(dir: string, name: string)
    requires '/' !in name
    ensures Name(JoinPath(dir, name)) == name
    ensures |JoinPath(dir, name)| > |name| && JoinPath(dir, name)[|JoinPath(dir, name)| - |name| - 1] == '/'
  {
    var p := JoinPath(dir, name);
    var k := |p| - |name| - 1;
    assert p[k] == '/';
    assert p[k + 1..] == name;
    var i := RFind(p, '/');
    assert i == k;
  }

  /** A stem followed by an extension of one dot and no other dot has that stem
      back, as long as the stem is not empty. */
  lemma StemOfExtended(stem: string, ext: string)
    requires stem != [] && |ext| >= 2 && ext[0] == '.' && '.' !in ext[1..]
    ensures Stem(stem + ext) == stem
  {
    var n := stem + ext;
    var i := RFind(n, '.');
    assert n[|stem|] == '.';
    assert i == |stem|;
    assert n[..i] == stem;
  }
}
