/**
 Objects stored as files under a repository's data directory. Installing an
 object creates the directories it needs; removing one prunes those nobody
 needs any more. Both walk over a buffer that holds the file's path, cutting
 it short at one slash after the other.
 */
module ObjectTree {
  import opened Stores
  import opened ObjectNames

  const MAX_NAME_SIZE := 512

  datatype Errno = Ok | ENOENT | EEXIST | ENOTEMPTY | ENOTDIR | EISDIR

  /** Refused: the name's exception. Gone: the temporary file is gone. Failed: the system's exception. */
  datatype Outcome = Refused | Gone | Done | Failed

  // ------------------------------------------------------------ paths

  /** The path up to its last slash. */
  function Parent(x: string): string {
    if x == [] then [] else if x[|x| - 1] == '/' then x[..|x| - 1] else Parent(x[..|x| - 1])
  }

  lemma {:induction false} ParentIs(x: string, q: nat)
    requires q < |x| && x[q] == '/' && forall i :: q < i < |x| ==> x[i] != '/'
    ensures Parent(x) == x[..q]
    decreases |x|
  {
    var y := x[..|x| - 1];
    if q < |x| - 1 {
      ParentIs(y, q);
      assert y[..q] == x[..q];
    }
  }

  /** The directories of a path that end at a slash from lo on and before hi. */
  function Ancestors(s: string, lo: nat, hi: nat): set<string> {
    set q | lo <= q < hi && q < |s| && s[q] == '/' :: s[..q]
  }

  function AncestorsOf(top: string, s: string): set<string> {
    Ancestors(s, |top|, |s|)
  }

  /** A path below top as it can reach the system; it may end in a slash. */
  predicate SystemPath(top: string, s: string) {
    && |s| > |top| && s[..|top|] == top && s[|top|] == '/' && '\0' !in s
    && forall i :: |top| <= i < |s| - 1 && s[i] == '/' ==> s[i + 1] != '/'
  }

  predicate Slashed(s: string) {
    s != [] && s[|s| - 1] == '/'
  }

  /** The path but for a slash it ends in. */
  function Named(s: string): string {
    if Slashed(s) then s[..|s| - 1] else s
  }

  /** A file that stores an object whose name holds no null character. */
  predicate ObjectPath(top: string, s: string) {
    && |s| > |top| && s[..|top|] == top && s[|top|] == '/' && '\0' !in s
    && EncodedForm(s[|top| + 1..])
  }

  /** What a string in a buffer means to the system: it ends at the first null character. */
  function CString(s: string): string {
    if s == [] || s[0] == '\0' then [] else [s[0]] + CString(s[1..])
  }

  lemma {:induction false} CStringEnds(s: string, p: nat)
    requires p < |s| && s[p] == '\0' && forall i :: 0 <= i < p ==> s[i] != '\0'
    ensures CString(s) == s[..p]
    decreases p
  {
    if p > 0 {
      CStringEnds(s[1..], p - 1);
      assert s[..p] == [s[0]] + s[1..][..p - 1];
    }
  }

  // ------------------------------------------------------------ the directory tree

  type Files = map<string, string>

  /** The directories are the data directory and exactly the proper ancestors of the existing objects. */
  ghost predicate TreeOk(top: string, dirs: set<string>, files: Files) {
    && top in dirs && '\0' !in top
    && (forall f :: f in files ==> SystemPath(top, f) && !Slashed(f) && f !in dirs && AncestorsOf(top, f) <= dirs)
    && forall d :: d in dirs ==> d == top || exists f :: f in files && d in AncestorsOf(top, f)
  }

  /** The objects determine the directories. */
  lemma TreeDeterminesDirs(top: string, d1: set<string>, d2: set<string>, files: Files)
    requires TreeOk(top, d1, files) && TreeOk(top, d2, files)
    ensures d1 == d2
  {
    forall d
      ensures d in d1 <==> d in d2
    {
      if d in d1 && d != top {
        var f :| f in files && d in AncestorsOf(top, f);
        assert AncestorsOf(top, f) <= d2;
      }
      if d in d2 && d != top {
        var f :| f in files && d in AncestorsOf(top, f);
        assert AncestorsOf(top, f) <= d1;
      }
    }
  }

  /** A directory of the tree at which a path ends has all the path's shorter prefixes for directories. */
  lemma PrefixesExist(top: string, dirs: set<string>, files: Files, s: string, q1: nat, q2: nat)
    requires TreeOk(top, dirs, files)
    requires |top| <= q1 < q2 < |s| && s[q1] == '/' && s[q2] == '/' && s[..q2] in dirs
    ensures s[..q1] in dirs
  {
    var f :| f in files && s[..q2] in AncestorsOf(top, f);
    AncestorPrefix(top, f, s, q2, q1);
    assert AncestorsOf(top, f) <= dirs;
  }

  lemma AncestorPrefix(top: string, f: string, s: string, q2: nat, q1: nat)
    requires |top| <= q1 <= q2 < |s| && s[q1] == '/' && s[..q2] in AncestorsOf(top, f)
    requires q1 == q2 || s[q1] == '/'
    ensures s[..q1] in AncestorsOf(top, f)
  {
    var q :| |top| <= q < |f| && f[q] == '/' && f[..q] == s[..q2];
    assert q == q2;
    if q1 < q2 {
      assert f[q1] == f[..q2][q1] == s[..q2][q1] == s[q1];
      assert f[..q1] == f[..q2][..q1] == s[..q2][..q1] == s[..q1];
    }
  }

  /** No directory of the path below top is a file's name. */
  predicate FreeAbove(top: string, files: Files, s: string) {
    forall q :: |top| < q < |s| && s[q] == '/' ==> s[..q] !in files
  }

  /** Adding an object with its ancestors keeps the tree right. */
  lemma InstallKeepsTree(top: string, dirs: set<string>, files: Files, s: string, content: string)
    requires TreeOk(top, dirs, files) && SystemPath(top, s) && !Slashed(s) && s !in dirs && FreeAbove(top, files, s)
    ensures TreeOk(top, dirs + AncestorsOf(top, s), files[s := content])
  {
    var d2, f2 := dirs + AncestorsOf(top, s), files[s := content];
    forall d | d in d2
      ensures d == top || exists f :: f in f2 && d in AncestorsOf(top, f)
    {
      if d in AncestorsOf(top, s) {
        assert s in f2;
      } else if d != top {
        var f :| f in files && d in AncestorsOf(top, f);
        assert f in f2;
      }
    }
    forall d | d in AncestorsOf(top, s)
      ensures d !in f2
    {
      var q :| |top| <= q < |s| && s[q] == '/' && d == s[..q];
      assert |d| == q;
    }
  }

  // ------------------------------------------------------------ the buffer during the walks

  /** The buffer holds s with every slash from p on cut out, and behind it tail, which ends it. */
  predicate Cut(buf: seq<char>, s: string, tail: string, p: nat) {
    && |buf| == |s| + |tail| && tail != [] && tail[0] == '\0'
    && (forall i :: 0 <= i < |s| ==> buf[i] == if i >= p && s[i] == '/' then '\0' else s[i])
    && forall i :: 0 <= i < |tail| ==> buf[|s| + i] == tail[i]
  }

  lemma CutCString(buf: seq<char>, s: string, tail: string, p: nat)
    requires Cut(buf, s, tail, p) && '\0' !in s && p < |s| && s[p] == '/'
    ensures CString(buf) == s[..p]
  {
    CStringEnds(buf, p);
    assert buf[..p] == s[..p];
  }

  lemma CutNothing(buf: seq<char>, s: string, tail: string, p: nat)
    requires tail != [] && tail[0] == '\0' && p >= |s|
    ensures Cut(buf, s, tail, p) <==> buf == s + tail
  {
    if Cut(buf, s, tail, p) {
      assert forall i :: 0 <= i < |buf| ==> buf[i] == (s + tail)[i];
    }
  }

  /** Nothing but the last component lies between p and m. */
  predicate NoSlash(s: string, p: nat, m: nat) {
    forall i :: p <= i < m && i < |s| ==> s[i] != '/'
  }

  lemma ParentAt(s: string, q: nat, m: nat)
    requires q < m <= |s| && s[q] == '/' && NoSlash(s, q + 1, m)
    ensures Parent(s[..m]) == s[..q]
  {
    ParentIs(s[..m], q);
    assert s[..m][..q] == s[..q];
  }

  lemma AncestorsExtend(s: string, lo: nat, p: nat)
    requires lo <= p < |s|
    ensures Ancestors(s, lo, p + 1) == if s[p] == '/' then Ancestors(s, lo, p) + {s[..p]} else Ancestors(s, lo, p)
  {
  }

  function PathOf(top: string, objname: string): string
    requires ValidName(objname)
  {
    EncodesIffValid(objname);
    top + ['/'] + EncodeFrom(objname, true).value
  }

  lemma {:induction false} NoEarlyDot(s: string, start: bool)
    requires EncodeFrom(s, start).Some?
    ensures var e := EncodeFrom(s, start).value;
      && |e| >= 2 && (forall i :: 0 <= i < |e| - 2 ==> e[i] != '.')
      && ('\0' in s ==> '\0' in e[..|e| - 2])
    decreases |s|
  {
    if s != [] {
      NoEarlyDot(s[1..], s[0] == '/');
      var x, rest := EncodeChar(s[0]), EncodeFrom(s[1..], s[0] == '/').value;
      assert (x + rest)[..|x + rest| - 2] == x + rest[..|rest| - 2];
      assert s == [s[0]] + s[1..];
    }
  }

  lemma {:induction false} CStringPrefix(s: string)
    ensures |CString(s)| <= |s| && CString(s) == s[..|CString(s)|]
    ensures |CString(s)| < |s| ==> s[|CString(s)|] == '\0'
    ensures forall i :: 0 <= i < |CString(s)| ==> s[i] != '\0'
  {
    if s != [] && s[0] != '\0' {
      CStringPrefix(s[1..]);
      var n := |CString(s[1..])|;
      assert s[..n + 1] == [s[0]] + s[1..][..n];
      assert forall i :: 0 < i < n + 1 ==> s[i] == s[1..][i - 1];
    }
  }

  /** An encoded name cut short before its last dot is no object's path. */
  lemma CutIsNoObjectPath(top: string, e: string, n: nat)
    requires |e| >= 2 && forall i :: 0 <= i < |e| - 2 ==> e[i] != '.'
    requires n <= |top| + 1 + |e| - 2
    ensures !ObjectPath(top, (top + ['/'] + e)[..n])
  {
    var c := (top + ['/'] + e)[..n];
    assert forall i :: |top| < i < n ==> c[i] == e[i - |top| - 1];
    assert n > |top| + 3 ==> c[|top| + 1..][n - |top| - 3] == c[n - 2];
  }

  /** The path given to the system is an object's path exactly if the object's name holds no null character. */
  lemma PathReachesSystemIff(top: string, objname: string)
    requires ValidName(objname) && '\0' !in top
    ensures ObjectPath(top, CString(PathOf(top, objname) + ['\0'])) <==> '\0' !in objname
    ensures '\0' !in objname ==> CString(PathOf(top, objname) + ['\0']) == PathOf(top, objname)
  {
    EncodesIffValid(objname);
    var e, s := EncodeFrom(objname, true).value, PathOf(top, objname);
    EncodedNamesHaveForm(objname);
    hide ObjectPath, EncodedForm, ValidName;
    if '\0' in objname {
      NoEarlyDot(objname, true);
      var j :| 0 <= j < |e| - 2 && e[j] == '\0';
      CStringPrefix(s + ['\0']);
      var n := |CString(s + ['\0'])|;
      assert (s + ['\0'])[|top| + 1 + j] == '\0';
      assert (s + ['\0'])[..n] == s[..n];
      CutIsNoObjectPath(top, e, n);
    } else {
      PathIsObjectPath(top, objname);
      CStringEnds(s + ['\0'], |s|);
      assert (s + ['\0'])[..|s|] == s;
    }
  }

  /** A file's name may be cut short at a null character, and then two objects share it. */
  lemma NullNamesCollide(top: string) returns (a: string, b: string)
    requires '\0' !in top
    ensures ValidName(a) && ValidName(b) && a != b
    ensures CString(PathOf(top, a) + ['\0']) == CString(PathOf(top, b) + ['\0'])
  {
    a, b := ['a', '\0', 'b'], ['a', '\0', 'c'];
    NullCuts(top, a);
    NullCuts(top, b);
  }

  lemma NullCuts(top: string, a: string)
    requires '\0' !in top && |a| == 3 && a[0] == 'a' && a[1] == '\0' && a[2] in {'b', 'c'}
    ensures ValidName(a) && CString(PathOf(top, a) + ['\0']) == top + ['/', 'a']
  {
    EncodesIffValid(a);
    var s := PathOf(top, a) + ['\0'];
    assert EncodeFrom(a, true).value == ['a'] + EncodeFrom(a[1..], false).value;
    assert EncodeFrom(a[1..], false).value[0] == '\0';
    CStringEnds(s, |top| + 2);
    assert s[..|top| + 2] == top + ['/', 'a'];
  }

  lemma PathIsObjectPath(top: string, objname: string)
    requires ValidName(objname) && '\0' !in objname && '\0' !in top
    ensures ObjectPath(top, PathOf(top, objname))
  {
    EncodedNamesHaveForm(objname);
    assert PathOf(top, objname)[|top| + 1..] == EncodeFrom(objname, true).value;
  }

  lemma {:induction false} LastSlash(s: string, lo: nat, m: nat) returns (q: nat)
    requires lo < m <= |s| && s[lo] == '/'
    ensures lo <= q < m && s[q] == '/' && NoSlash(s, q + 1, m)
    decreases m
  {
    q := m - 1;
    if s[q] != '/' {
      q := LastSlash(s, lo, m - 1);
    }
  }

  lemma ObjectPathDots(top: string, s: string, i: nat)
    requires ObjectPath(top, s) && |top| < i < |s|
    ensures s[i] == '.' <==> i == |s| - 2
    ensures |s| >= |top| + 4
  {
    var e := s[|top| + 1..];
    assert e[i - |top| - 1] == s[i];
  }

  /** A prefix of an object's path that ends at a slash is no object's path. */
  lemma AncestorsAreNotFiles(top: string, s: string, f: string, q: nat)
    requires ObjectPath(top, s) && ObjectPath(top, f) && q < |s|
    ensures f != s[..q]
  {
    var i := |f| - 2;
    ObjectPathDots(top, f, i);
    if i < |s| {
      ObjectPathDots(top, s, i);
    }
  }

  /** What the system is given for an object. */
  function SysPath(top: string, objname: string): string
    requires ValidName(objname)
  {
    CString(PathOf(top, objname) + ['\0'])
  }

  /** A buffer with a null character is what the system sees of it and what follows. */
  lemma CStringTail(path: string, k: nat) returns (tail: string)
    requires k <= |path| && forall i :: 0 <= i < k ==> path[i] != '\0'
    ensures var n := |CString(path + ['\0'])|;
      && k <= n <= |path| && CString(path + ['\0']) == path[..n] && '\0' !in path[..n]
    ensures tail != [] && tail[0] == '\0' && path + ['\0'] == CString(path + ['\0']) + tail
  {
    var text := path + ['\0'];
    CStringPrefix(text);
    var n := |CString(text)|;
    assert text[|path|] == '\0';
    assert forall i :: 0 <= i < k ==> text[i] == path[i];
    tail := text[n..];
    assert text == text[..n] + tail && text[..n] == path[..n];
  }

  /** The buffer holds the path given to the system, and behind it what the system does not see. */
  lemma SysPathIs(top: string, objname: string) returns (tail: string)
    requires ValidName(objname) && '\0' !in top
    ensures SystemPath(top, SysPath(top, objname))
    ensures tail != [] && tail[0] == '\0' && PathOf(top, objname) + ['\0'] == SysPath(top, objname) + tail
    ensures '\0' !in objname ==> SysPath(top, objname) == PathOf(top, objname) && ObjectPath(top, SysPath(top, objname))
  {
    EncodedNamesHaveForm(objname);
    PathReachesSystemIff(top, objname);
    var e, path := EncodeFrom(objname, true).value, PathOf(top, objname);
    assert path == top + ['/'] + e;
    hide EncodedForm, EncodeFrom, ValidName, ObjectPath, SystemPath, PathOf, CString;
    tail := CStringTail(path, |top| + 1);
    PrefixIsSystemPath(top, e, |CString(path + ['\0'])|);
  }

  lemma PrefixIsSystemPath(top: string, e: string, n: nat)
    requires EncodedForm(e) && |top| < n <= |top| + 1 + |e| && '\0' !in (top + ['/'] + e)[..n]
    ensures SystemPath(top, (top + ['/'] + e)[..n])
  {
    var s := (top + ['/'] + e)[..n];
    assert s[..|top|] == top;
    assert forall i :: |top| < i < n ==> s[i] == e[i - |top| - 1];
  }

  lemma ParentIsAncestor(top: string, s: string)
    requires SystemPath(top, s)
    ensures Parent(s) in AncestorsOf(top, s)
  {
    var q := LastSlash(s, |top|, |s|);
    ParentAt(s, q, |s|);
    assert s[..|s|] == s;
  }

  // ------------------------------------------------------------ what the system says

  /** The way to the path leads through a file. */
  predicate Through(top: string, files: Files, s: string) {
    exists q :: |top| < q < |Named(s)| && q < |s| && s[q] == '/' && s[..q] in files
  }

  /** The directory the path is in exists. */
  predicate There(top: string, dirs: set<string>, s: string) {
    Named(s) == top || Parent(Named(s)) in dirs
  }

  /** Moving a file to the path; there tells whether the file exists. */
  function RenameErr(top: string, dirs: set<string>, files: Files, there: bool, s: string): Errno {
    if Through(top, files, s) then ENOTDIR
    else if !There(top, dirs, s) || !there then ENOENT
    else if Slashed(s) then ENOTDIR
    else if s in dirs then EISDIR
    else Ok
  }

  function UnlinkErr(top: string, dirs: set<string>, files: Files, s: string): Errno {
    if Through(top, files, s) then ENOTDIR
    else if !There(top, dirs, s) then ENOENT
    else if Named(s) in dirs then EISDIR
    else if Slashed(s) then (if Named(s) in files then ENOTDIR else ENOENT)
    else if s in files then Ok
    else ENOENT
  }

  function MkdirErr(top: string, dirs: set<string>, files: Files, s: string): Errno {
    if s in dirs || s in files then EEXIST
    else if Through(top, files, s) then ENOTDIR
    else if Parent(s) !in dirs then ENOENT
    else Ok
  }

  function RmdirErr(top: string, dirs: set<string>, files: Files, s: string): Errno {
    if s in files || Through(top, files, s) then ENOTDIR
    else if s !in dirs then ENOENT
    else if HasChild(dirs, files, s) then ENOTEMPTY
    else Ok
  }

  /** A path cut at one of its slashes does not lead through a file. */
  lemma CutNotThrough(top: string, files: Files, s: string, p: nat)
    requires FreeAbove(top, files, s) && SystemPath(top, s) && |top| < p < |s| && s[p] == '/'
    ensures !Through(top, files, s[..p]) && s[..p] !in files
  {
    forall q | |top| < q < p && s[q] == '/'
      ensures s[..p][..q] !in files
    {
      assert s[..p][..q] == s[..q];
    }
  }

  lemma NotThroughFree(top: string, files: Files, s: string)
    requires SystemPath(top, s) && !Through(top, files, s) && (Slashed(s) ==> Named(s) !in files)
    ensures FreeAbove(top, files, s)
  {
  }

  /** A directory of the tree is in one. */
  lemma DirParent(top: string, dirs: set<string>, files: Files, d: string)
    requires TreeOk(top, dirs, files) && d in dirs && d != top
    ensures Parent(d) in dirs
  {
    var f :| f in files && d in AncestorsOf(top, f);
    var i :| |top| <= i < |f| && f[i] == '/' && d == f[..i];
    assert f[..|top|] == top;
    var q := LastSlash(f, |top|, i);
    ParentAt(f, q, i);
    assert f[..q] in AncestorsOf(top, f) && AncestorsOf(top, f) <= dirs;
  }

  lemma FileParent(top: string, dirs: set<string>, files: Files, f: string)
    requires TreeOk(top, dirs, files) && f in files
    ensures Parent(f) in dirs
  {
    ParentIsAncestor(top, f);
    assert AncestorsOf(top, f) <= dirs;
  }

  /** If the directory a path is in is missing, none above it is a file's name. */
  lemma MissingIsFree(top: string, dirs: set<string>, files: Files, s: string)
    requires TreeOk(top, dirs, files) && SystemPath(top, s) && !Through(top, files, s) && !There(top, dirs, s)
    ensures FreeAbove(top, files, s) && Parent(s) !in dirs
  {
    if Slashed(s) {
      if Named(s) in files {
        FileParent(top, dirs, files, Named(s));
      }
      if Named(s) in dirs {
        DirParent(top, dirs, files, Named(s));
      }
    }
    NotThroughFree(top, files, s);
  }

  /** Once the directories of a path are made, the one it is in is there, and the path itself still is not. */
  lemma MadeIsThere(top: string, dirs: set<string>, files: Files, s: string)
    requires TreeOk(top, dirs, files) && SystemPath(top, s) && !There(top, dirs, s)
    ensures There(top, dirs + AncestorsOf(top, s), s)
    ensures !Slashed(s) ==> s !in dirs + AncestorsOf(top, s)
  {
    if Slashed(s) {
      assert s[..|s| - 1][..|top|] == top && |s| - 1 != |top|;
      var q := LastSlash(s, |top|, |s| - 1);
      ParentAt(s, q, |s| - 1);
      assert s[..q] in AncestorsOf(top, s);
    } else {
      ParentIsAncestor(top, s);
      if s in dirs {
        DirParent(top, dirs, files, s);
      }
      assert forall d :: d in AncestorsOf(top, s) ==> |d| < |s|;
    }
  }

  /** Directories made for a path that names no file serve nobody. */
  lemma LeftBehind(top: string, dirs: set<string>, files: Files, s: string)
    requires TreeOk(top, dirs, files) && SystemPath(top, s) && Slashed(s) && !There(top, dirs, s)
    ensures !TreeOk(top, dirs + AncestorsOf(top, s), files)
  {
    var d := Named(s);
    if d in dirs {
      DirParent(top, dirs, files, d);
    }
    assert d in AncestorsOf(top, s);
    assert forall f :: f in files ==> AncestorsOf(top, f) <= dirs;
  }

  // ------------------------------------------------------------ what installing and removing come to

  /** The names that raise no exception. */
  predicate Accepts(objname: string) {
    |objname| <= MAX_NAME_SIZE && ValidName(objname)
  }

  function InstallOutcome(top: string, dirs: set<string>, files: Files, there: bool, objname: string): Outcome {
    if !Accepts(objname) then Refused
    else
      var s := SysPath(top, objname);
      if Through(top, files, s) then Failed
      else if !there then Gone
      else if Slashed(s) || s in dirs then Failed
      else Done
  }

  /** Installing creates directories and then fails: the path ends in a slash, and its directory was missing. */
  predicate LeavesDirectories(top: string, dirs: set<string>, files: Files, there: bool, objname: string) {
    Accepts(objname) && there &&
    var s := SysPath(top, objname);
    Slashed(s) && !Through(top, files, s) && !There(top, dirs, s)
  }

  function RemoveOutcome(top: string, dirs: set<string>, files: Files, objname: string): Outcome {
    if !Accepts(objname) then Refused
    else
      var s := SysPath(top, objname);
      if Through(top, files, s) || Named(s) in dirs || (Slashed(s) && Named(s) in files) then Failed else Done
  }

  /** Where only names without null characters are stored, such a name never makes the system fail. */
  lemma CleanNamesNeverFail(top: string, dirs: set<string>, files: Files, there: bool, objname: string)
    requires TreeOk(top, dirs, files) && '\0' !in objname && forall f :: f in files ==> ObjectPath(top, f)
    ensures InstallOutcome(top, dirs, files, there, objname) == if !Accepts(objname) then Refused else if there then Done else Gone
    ensures RemoveOutcome(top, dirs, files, objname) == if !Accepts(objname) then Refused else Done
    ensures !LeavesDirectories(top, dirs, files, there, objname)
  {
    if Accepts(objname) {
      var tail := SysPathIs(top, objname);
      var s := SysPath(top, objname);
      assert s[|s| - 1] == s[|top| + 1..][|s| - |top| - 2];
      CleanIsFree(top, dirs, files, s);
      hide SysPath, ObjectPath;
    }
  }

  lemma CleanIsFree(top: string, dirs: set<string>, files: Files, s: string)
    requires TreeOk(top, dirs, files) && ObjectPath(top, s) && forall f :: f in files ==> ObjectPath(top, f)
    ensures !Through(top, files, s) && s !in dirs
  {
    forall q, f | 0 <= q < |s| && f in files
      ensures f != s[..q]
    {
      AncestorsAreNotFiles(top, s, f, q);
    }
    forall q, f | 0 <= q < |f| && f in files
      ensures s != f[..q]
    {
      AncestorsAreNotFiles(top, f, s, q);
    }
  }

  /** If a path's parent exists, so do all its ancestors. */
  lemma ParentExists(top: string, dirs: set<string>, files: Files, s: string)
    requires TreeOk(top, dirs, files) && SystemPath(top, s) && Parent(s) in dirs
    ensures AncestorsOf(top, s) <= dirs
  {
    var q := LastSlash(s, |top|, |s|);
    ParentAt(s, q, |s|);
    assert s[..|s|] == s;
    forall d | d in AncestorsOf(top, s)
      ensures d in dirs
    {
      var i :| |top| <= i < |s| && s[i] == '/' && d == s[..i];
      if i < q {
        PrefixesExist(top, dirs, files, s, i, q);
      }
    }
  }

  /** The first directory that could be created had all shorter ones above it. */
  lemma CompleteAncestors(top: string, dirs: set<string>, files: Files, s: string, p: nat)
    requires TreeOk(top, dirs, files) && SystemPath(top, s) && |top| < p < |s| && s[p] == '/'
    requires Parent(s[..p]) in dirs
    ensures dirs + Ancestors(s, p, |s|) == dirs + AncestorsOf(top, s)
  {
    var q := LastSlash(s, |top|, p);
    ParentAt(s, q, p);
    forall d | d in AncestorsOf(top, s)
      ensures d in dirs + Ancestors(s, p, |s|)
    {
      var i :| |top| <= i < |s| && s[i] == '/' && d == s[..i];
      if i < q {
        PrefixesExist(top, dirs, files, s, i, q);
      }
    }
  }

  /** The directories with those of s from p on removed. */
  function Left(was: set<string>, s: string, p: nat): set<string> {
    was - Ancestors(s, p, |s|)
  }

  lemma LeftStep(was: set<string>, s: string, p: nat)
    requires p < |s|
    ensures Left(was, s, p) == if s[p] == '/' then Left(was, s, p + 1) - {s[..p]} else Left(was, s, p + 1)
  {
  }

  lemma LeftStart(was: set<string>, s: string)
    ensures Left(was, s, |s|) == was
  {
  }

  lemma NotBelow(s: string, p: nat)
    requires p < |s|
    ensures s[..p] !in Ancestors(s, p + 1, |s|)
  {
    forall q | p < q < |s|
      ensures s[..q] != s[..p]
    {
      assert |s[..q]| == q;
    }
  }

  /** No file needs the directories of s from p on. */
  ghost predicate Unneeded(top: string, files: Files, s: string, p: nat) {
    forall q, f :: p <= q < |s| && s[q] == '/' && f in files ==> s[..q] !in AncestorsOf(top, f)
  }

  /** The directories of s before p that are left are needed. */
  ghost predicate StillNeeded(top: string, dirs: set<string>, files: Files, s: string, p: nat) {
    forall q :: |top| < q < p && q < |s| && s[q] == '/' && s[..q] in dirs ==>
      exists f :: f in files && s[..q] in AncestorsOf(top, f)
  }

  predicate HasChild(dirs: set<string>, files: Files, path: string) {
    || (exists d :: d in dirs && d != path && Parent(d) == path)
    || (exists f :: f in files && Parent(f) == path)
  }

  lemma {:induction false} ParentPrefix(x: string)
    requires Parent(x) != []
    ensures |Parent(x)| < |x| && x[..|Parent(x)|] == Parent(x) && x[|Parent(x)|] == '/'
    decreases |x|
  {
    if x[|x| - 1] != '/' {
      var y := x[..|x| - 1];
      ParentPrefix(y);
      assert x[..|Parent(y)|] == y[..|Parent(y)|];
    }
  }

  lemma {:induction false} NextSlash(s: string, lo: nat) returns (q: nat)
    requires lo <= |s|
    ensures lo <= q <= |s| && NoSlash(s, lo, q) && (q < |s| ==> s[q] == '/')
    decreases |s| - lo
  {
    if lo == |s| || s[lo] == '/' {
      q := lo;
    } else {
      q := NextSlash(s, lo + 1);
    }
  }

  /** Whatever lies directly below a directory of s needs it. */
  lemma ChildNeeds(top: string, f: string, x: string, s: string, p: nat)
    requires |top| < p < |s| && Parent(x) == s[..p]
    requires x == f || x in AncestorsOf(top, f)
    ensures s[..p] in AncestorsOf(top, f)
  {
    ParentPrefix(x);
    assert x[..p] == s[..p] && x[p] == '/';
    if x != f {
      var q :| |top| <= q < |f| && f[q] == '/' && x == f[..q];
      assert f[..p] == x[..p];
    }
  }

  /** What needs a directory of s lies below it in a directory that is still there, or is a file in it. */
  lemma NeedMakesChild(top: string, was: set<string>, were: Files, files: Files, s: string, p: nat, f: string)
    requires TreeOk(top, was, were) && files == were - {s} && Unneeded(top, files, s, p + 1)
    requires |top| < p < |s| && f in files && s[..p] in AncestorsOf(top, f)
    ensures HasChild(Left(was, s, p + 1), files, s[..p])
  {
    var i :| |top| <= i < |f| && f[i] == '/' && f[..i] == s[..p];
    assert i == p;
    var q := NextSlash(f, p + 1);
    ParentAt(f, p, q);
    assert f[..|f|] == f;
    if q < |f| {
      assert f[..q] in AncestorsOf(top, f) && AncestorsOf(top, f) <= was;
      assert f[..q] !in Ancestors(s, p + 1, |s|);
      assert f[..q] in Left(was, s, p + 1);
    }
  }

  /** An empty directory is needed by nobody. */
  lemma NoChildNoNeed(top: string, was: set<string>, were: Files, files: Files, s: string, p: nat)
    requires TreeOk(top, was, were) && files == were - {s} && Unneeded(top, files, s, p + 1)
    requires |top| < p < |s| && s[p] == '/' && !HasChild(Left(was, s, p + 1), files, s[..p])
    ensures Unneeded(top, files, s, p)
  {
    forall f | f in files
      ensures s[..p] !in AncestorsOf(top, f)
    {
      if s[..p] in AncestorsOf(top, f) {
        NeedMakesChild(top, was, were, files, s, p, f);
      }
    }
  }

  /** A missing directory of s means s was gone before, so whatever is left above serves others. */
  lemma MissingStops(top: string, was: set<string>, were: Files, files: Files, s: string, p: nat)
    requires TreeOk(top, was, were) && files == were - {s}
    requires |top| < p < |s| && s[p] == '/' && s[..p] !in Left(was, s, p + 1)
    ensures StillNeeded(top, Left(was, s, p + 1), files, s, p + 1)
  {
    NotBelow(s, p);
    assert s[..p] in AncestorsOf(top, s);
    assert s !in were;
    forall q | |top| < q < p && s[q] == '/' && s[..q] in was
      ensures exists f :: f in files && s[..q] in AncestorsOf(top, f)
    {
      var f :| f in were && s[..q] in AncestorsOf(top, f);
      assert f in files;
    }
  }

  /** A directory of s that is not empty is needed by another object, and so are all above it. */
  lemma ChildStops(top: string, was: set<string>, were: Files, files: Files, s: string, p: nat)
    requires TreeOk(top, was, were) && files == were - {s}
    requires |top| < p < |s| && s[p] == '/' && HasChild(Left(was, s, p + 1), files, s[..p])
    ensures StillNeeded(top, Left(was, s, p + 1), files, s, p + 1)
  {
    var f: string;
    if g :| g in files && Parent(g) == s[..p] {
      f := g;
      ChildNeeds(top, f, f, s, p);
    } else {
      var d :| d in Left(was, s, p + 1) && d != s[..p] && Parent(d) == s[..p];
      ParentPrefix(d);
      assert d != top;
      f :| f in were && d in AncestorsOf(top, f);
      ChildNeeds(top, f, d, s, p);
      assert f != s;
    }
    forall q | |top| < q < p + 1 && s[q] == '/'
      ensures f in files && s[..q] in AncestorsOf(top, f)
    {
      AncestorPrefix(top, f, s, p, q);
    }
  }

  /** Removing what nobody needs and keeping what somebody does leaves the tree right. */
  lemma PrunedTree(top: string, was: set<string>, were: Files, files: Files, s: string, p: nat)
    requires TreeOk(top, was, were) && files == were - {s} && SystemPath(top, s) && |top| < p <= |s|
    requires Unneeded(top, files, s, p) && StillNeeded(top, Left(was, s, p), files, s, p)
    ensures TreeOk(top, Left(was, s, p), files) && Left(was, s, p) <= was
  {
    var dirs := Left(was, s, p);
    forall f | f in files
      ensures AncestorsOf(top, f) <= dirs
    {
      assert AncestorsOf(top, f) <= was;
    }
    forall d | d in dirs && d != top
      ensures exists f :: f in files && d in AncestorsOf(top, f)
    {
      var f :| f in were && d in AncestorsOf(top, f);
      if f == s {
        var q :| |top| <= q < |s| && s[q] == '/' && d == s[..q];
        assert s[..|top|] == top;
        assert q < p;
      } else {
        assert f in files;
      }
    }
  }

  class Repository {
    const directory: string
    const top: string
    var dirs: set<string>
    var files: Files
    var tmp: Files

    ghost predicate Valid()
      reads this
    {
      top == directory + "/data" && TreeOk(top, dirs, files)
    }

    constructor (directory: string)
      requires '\0' !in directory
      ensures Valid() && this.directory == directory && files == map[] && dirs == {top}
    {
      this.directory := directory;
      var top := directory + "/data";
      this.top := top;
      dirs, files, tmp := {top}, map[], map[];
    }

    // ---------------------------------------------------------- the file system, nobody interfering

    method Mkdir(path: string) returns (e: Errno)
      modifies this`dirs
      ensures e == MkdirErr(top, old(dirs), files, path)
      ensures dirs == if e.Ok? then old(dirs) + {path} else old(dirs)
    {
      e := MkdirErr(top, dirs, files, path);
      if e.Ok? {
        dirs := dirs + {path};
      }
    }

    method Rmdir(path: string) returns (e: Errno)
      modifies this`dirs
      ensures e == RmdirErr(top, old(dirs), files, path)
      ensures dirs == if e.Ok? then old(dirs) - {path} else old(dirs)
    {
      e := RmdirErr(top, dirs, files, path);
      if e.Ok? {
        dirs := dirs - {path};
      }
    }

    method Rename(tmpname: string, path: string) returns (e: Errno)
      modifies this`files, this`tmp
      ensures e == RenameErr(top, dirs, old(files), tmpname in old(tmp), path)
      ensures e.Ok? ==> files == old(files)[path := old(tmp)[tmpname]] && tmp == old(tmp) - {tmpname}
      ensures !e.Ok? ==> files == old(files) && tmp == old(tmp)
    {
      e := RenameErr(top, dirs, files, tmpname in tmp, path);
      if e.Ok? {
        files := files[path := tmp[tmpname]];
        tmp := tmp - {tmpname};
      }
    }

    method Unlink(path: string) returns (e: Errno)
      modifies this`files
      ensures e == UnlinkErr(top, dirs, old(files), path)
      ensures files == if e.Ok? then old(files) - {path} else old(files)
    {
      e := UnlinkErr(top, dirs, files, path);
      if e.Ok? {
        files := files - {path};
      }
    }

    // ---------------------------------------------------------- installing

    /**
     Create the missing directories of the path in the buffer, from the first
     one that can be created, and leave the buffer as it was.
     */
    method MakeDirectories(dst: array<char>, ghost s: string, ghost tail: string, b: nat)
      requires Valid() && SystemPath(top, s) && FreeAbove(top, files, s) && b < |top|
      requires tail != [] && tail[0] == '\0' && dst[..] == s + tail && CString(dst[..]) == s
      requires Parent(s) !in dirs
      modifies this`dirs, dst
      ensures dst[..] == old(dst[..])
      ensures dirs == old(dirs) + AncestorsOf(top, s)
    {
      assert s[..|s|] == s;
      var e := |CString(dst[..])|;
      var p := e;
      ghost var was, m := dirs, |s|;
      CutNothing(dst[..], s, tail, p);
      while p > b
        invariant dirs == was == old(dirs) && |top| < p <= m <= |s| && NoSlash(s, p, m)
        invariant Cut(dst[..], s, tail, p) && (m < |s| ==> s[m] == '/')
        invariant Parent(s[..m]) !in dirs
      {
        p := p - 1;
        if s[p] == '/' {
          ParentAt(s, p, m);
          assert s[..|top|] == top && p != |top|;
        }
        assert dst[..][p] == s[p];
        if dst[p] == '/' {
          var made := MakeFrom(dst, s, tail, p, e);
          if made {
            return;
          }
          m := p;
        }
      }
    }

    /** Cut the path at its next slash and create that directory and all below it, if the one it is in exists. */
    method MakeFrom(dst: array<char>, ghost s: string, ghost tail: string, p: nat, e: nat) returns (made: bool)
      requires Valid() && SystemPath(top, s) && FreeAbove(top, files, s) && e == |s|
      requires |top| < p < |s| && s[p] == '/' && s[..p] !in dirs && Cut(dst[..], s, tail, p + 1)
      modifies this`dirs, dst
      ensures made ==> dst[..] == s + tail && dirs == old(dirs) + AncestorsOf(top, s)
      ensures !made ==> Cut(dst[..], s, tail, p) && dirs == old(dirs) && Parent(s[..p]) !in dirs
    {
      ghost var was := dirs;
      dst[p] := '\0';
      CutCString(dst[..], s, tail, p);
      CutNotThrough(top, files, s, p);
      var err := Mkdir(CString(dst[..]));
      if !err.Ok? {
        return false;
      }
      dst[p] := '/';
      MakeRemaining(dst, s, tail, p, e, was);
      CompleteAncestors(top, was, files, s, p);
      return true;
    }

    /** Work forward again from the directory just created, creating the deeper ones. */
    method MakeRemaining(dst: array<char>, ghost s: string, ghost tail: string, p0: nat, e: nat, ghost was: set<string>)
      requires TreeOk(top, was, files) && SystemPath(top, s) && FreeAbove(top, files, s) && e == |s|
      requires |top| < p0 < |s| && s[p0] == '/' && s[..p0] !in was && dirs == was + {s[..p0]}
      requires Cut(dst[..], s, tail, p0 + 1)
      modifies this`dirs, dst
      ensures dst[..] == s + tail
      ensures dirs == was + Ancestors(s, p0, |s|)
    {
      var p := p0;
      ghost var l := p0;
      AncestorsExtend(s, p0, p0);
      assert Ancestors(s, p0, p0) == {};
      while p < e
        invariant p0 <= l <= p <= |s| && l < |s| && s[l] == '/' && NoSlash(s, l + 1, p + 1)
        invariant Cut(dst[..], s, tail, p + 1) && dirs == was + Ancestors(s, p0, p + 1)
      {
        p := p + 1;
        assert dst[..][p] == dst[p];
        if dst[p] == '\0' {
          if p == e {
            break;
          }
          MakeOne(dst, s, tail, p0, l, p, was);
          l := p;
        } else {
          AncestorsExtend(s, p0, p);
        }
      }
      CutNothing(dst[..], s, tail, p);
      assert Ancestors(s, p0, |s| + 1) == Ancestors(s, p0, |s|);
    }

    /** Create the directory at which the buffer is cut, whose parent is there, and put its slash back. */
    method MakeOne(dst: array<char>, ghost s: string, ghost tail: string, ghost p0: nat, ghost l: nat, p: nat, ghost was: set<string>)
      requires TreeOk(top, was, files) && SystemPath(top, s) && FreeAbove(top, files, s)
      requires |top| < p0 <= l < p < |s| && s[p0] == '/' && s[l] == '/' && NoSlash(s, l + 1, p) && s[..p0] !in was
      requires s[p] == '/' && Cut(dst[..], s, tail, p) && dirs == was + Ancestors(s, p0, p)
      modifies this`dirs, dst
      ensures Cut(dst[..], s, tail, p + 1)
      ensures dirs == was + Ancestors(s, p0, p + 1)
    {
      ParentAt(s, l, p);
      assert s[..l] in Ancestors(s, p0, p);
      CutCString(dst[..], s, tail, p);
      NewDirectory(s, p0, p, was);
      CutNotThrough(top, files, s, p);
      AncestorsExtend(s, p0, p);
      var err := Mkdir(CString(dst[..]));
      assert err.Ok?;
      dst[p] := '/';
    }

    lemma NewDirectory(s: string, p0: nat, p: nat, was: set<string>)
      requires TreeOk(top, was, files)
      requires |top| < p0 < p < |s| && s[p0] == '/' && s[p] == '/' && s[..p0] !in was
      ensures s[..p] !in was + Ancestors(s, p0, p)
    {
      if s[..p] in was {
        PrefixesExist(top, was, files, s, p0, p);
      }
      forall q | p0 <= q < p
        ensures s[..q] != s[..p]
      {
        assert |s[..q]| == q && |s[..p]| == p;
      }
    }

    /** The object's path in a new buffer, or nothing if its name is too long or invalid. */
    method ObjNameCreate(objname: string) returns (dst: array?<char>)
      ensures dst != null <==> Accepts(objname)
      ensures dst != null ==> fresh(dst) && dst[..] == PathOf(top, objname) + ['\0']
    {
      if |objname| > MAX_NAME_SIZE {
        return null;
      }
      EncodesIffValid(objname);
      var enc := EncodeObjectName(objname);
      if enc.None? {
        return null;
      }
      var text := top + ['/'] + enc.value + ['\0'];
      dst := new char[|text|](i requires 0 <= i < |text| => text[i]);
      assert dst[..] == text;
    }

    /** What the loop below leaves, and that the tree is right but for directories left behind. */
    lemma InstallEnds(d0: set<string>, f0: Files, s: string, content: string)
      requires TreeOk(top, d0, f0) && SystemPath(top, s) && !Through(top, f0, s)
      ensures !Slashed(s) && s !in d0 ==> TreeOk(top, d0 + AncestorsOf(top, s), f0[s := content])
      ensures !Slashed(s) && There(top, d0, s) ==> d0 + AncestorsOf(top, s) == d0
      ensures Slashed(s) && !There(top, d0, s) ==> !TreeOk(top, d0 + AncestorsOf(top, s), f0)
      ensures !There(top, d0, s) ==> s !in d0
    {
      if !Slashed(s) {
        NotThroughFree(top, f0, s);
        if s !in d0 {
          InstallKeepsTree(top, d0, f0, s, content);
        }
        if There(top, d0, s) {
          ParentExists(top, d0, f0, s);
        }
      } else if !There(top, d0, s) {
        LeftBehind(top, d0, f0, s);
      }
      if s in d0 {
        DirParent(top, d0, f0, s);
      }
    }

    /** Move a temporary file to its object's name, creating directories as needed; done already if it is gone. */
    method ObjInstall(tmpname: string, objname: string) returns (r: Outcome)
      requires Valid()
      modifies this
      ensures r == InstallOutcome(top, old(dirs), old(files), tmpname in old(tmp), objname)
      ensures r.Refused? <==> |objname| > 512 || !ValidName(objname)
      ensures r.Done? ==>
        && files == old(files)[SysPath(top, objname) := old(tmp)[tmpname]] && tmp == old(tmp) - {tmpname}
        && dirs == old(dirs) + AncestorsOf(top, SysPath(top, objname))
      ensures !r.Done? ==> files == old(files) && tmp == old(tmp)
      ensures !r.Done? ==>
        dirs == old(dirs) + if LeavesDirectories(top, old(dirs), old(files), tmpname in old(tmp), objname)
                            then AncestorsOf(top, SysPath(top, objname)) else {}
      ensures Valid() <==> !LeavesDirectories(top, old(dirs), old(files), tmpname in old(tmp), objname)
    {
      var dst := ObjNameCreate(objname);
      if dst == null {
        return Refused;
      }
      ghost var tail := SysPathIs(top, objname);
      ghost var s, text, made := SysPath(top, objname), dst[..], false;
      ghost var d0, f0, t0 := dirs, files, tmp;
      if !Through(top, f0, s) {
        InstallEnds(d0, f0, s, if tmpname in t0 then t0[tmpname] else "");
      }
      var err := Rename(tmpname, CString(dst[..]));
      while !err.Ok?
        invariant dst[..] == text && old(dirs) == d0 && old(files) == f0 && old(tmp) == t0
        invariant dirs == if made then d0 + AncestorsOf(top, s) else d0
        invariant made ==> tmpname in t0 && !Through(top, f0, s) && !There(top, d0, s)
        invariant made ==> There(top, dirs, s) && (!Slashed(s) ==> s !in dirs)
        invariant err == RenameErr(top, dirs, f0, tmpname in t0, s)
        invariant err.Ok? ==> tmpname in t0 && files == f0[s := t0[tmpname]] && tmp == t0 - {tmpname}
        invariant !err.Ok? ==> files == f0 && tmp == t0
        decreases if made then 0 else 1
      {
        if !err.ENOENT? {
          return Failed;
        }
        if tmpname !in tmp {
          return Gone;
        }
        MissingIsFree(top, dirs, files, s);
        MadeIsThere(top, dirs, files, s);
        MakeDirectories(dst, s, tail, |directory|);
        made := true;
        err := Rename(tmpname, CString(dst[..]));
      }
      return Done;
    }

    // ---------------------------------------------------------- removing

    /** Remove an object, and the directories nobody needs any more. */
    method ObjRemove(objname: string) returns (r: Outcome)
      requires Valid()
      modifies this`files, this`dirs
      ensures Valid() && r == RemoveOutcome(top, old(dirs), old(files), objname)
      ensures r.Refused? <==> |objname| > 512 || !ValidName(objname)
      ensures files == if r.Done? then old(files) - {SysPath(top, objname)} else old(files)
      ensures !r.Done? ==> dirs == old(dirs)
      ensures dirs <= old(dirs)
    {
      var dst := ObjNameCreate(objname);
      if dst == null {
        return Refused;
      }
      ghost var tail := SysPathIs(top, objname);
      ghost var s, were := SysPath(top, objname), files;
      UnlinkFails(s);
      var err := Unlink(CString(dst[..]));
      if !err.Ok? && !err.ENOENT? {
        return Failed;
      }
      assert files == were - {s};
      PruneDirectories(dst, s, tail, |top| + 1, were);
      return Done;
    }

    /** Exactly when removing a path's file fails, and that otherwise the file is gone and nothing is in the way. */
    lemma UnlinkFails(s: string)
      requires Valid() && SystemPath(top, s)
      ensures var e := UnlinkErr(top, dirs, files, s);
        && ((!e.Ok? && !e.ENOENT?) <==> (Through(top, files, s) || Named(s) in dirs || (Slashed(s) && Named(s) in files)))
        && (e.ENOENT? ==> s !in files)
        && (e.Ok? || e.ENOENT? ==> FreeAbove(top, files, s))
    {
      if Named(s) in dirs && Named(s) != top {
        DirParent(top, dirs, files, Named(s));
      }
      if Named(s) in files {
        FileParent(top, dirs, files, Named(s));
      }
      if !Through(top, files, s) && !(Slashed(s) && Named(s) in files) {
        NotThroughFree(top, files, s);
      }
    }

    /** Removing an object that was newly installed leaves the files and directories there were before. */
    method InstallThenRemove(tmpname: string, objname: string) returns (r: Outcome)
      requires Valid()
      modifies this
      ensures r == InstallOutcome(top, old(dirs), old(files), tmpname in old(tmp), objname)
      ensures r.Done? ==> Valid() && files == old(files) - {SysPath(top, objname)} && tmp == old(tmp) - {tmpname}
      ensures r.Done? && SysPath(top, objname) !in old(files) ==> files == old(files) && dirs == old(dirs)
    {
      ghost var d0, f0 := dirs, files;
      r := ObjInstall(tmpname, objname);
      if r.Done? {
        InstalledIsRemovable(f0, SysPath(top, objname));
        var removed := ObjRemove(objname);
        assert removed.Done?;
        if SysPath(top, objname) !in f0 {
          assert files == f0;
          TreeDeterminesDirs(top, d0, dirs, files);
        }
      }
    }

    lemma InstalledIsRemovable(f0: Files, s: string)
      requires Valid() && s in files && files.Keys == f0.Keys + {s} && !Through(top, f0, s)
      ensures !Through(top, files, s) && !Slashed(s) && s !in dirs
    {
      assert forall q :: 0 <= q < |s| ==> |s[..q]| != |s|;
    }

    /** Remove the path's directories from the deepest up to the first that is still needed. */
    method PruneDirectories(dst: array<char>, ghost s: string, ghost tail: string, b: nat, ghost were: Files)
      requires TreeOk(top, dirs, were) && files == were - {s} && SystemPath(top, s) && FreeAbove(top, files, s)
      requires tail != [] && tail[0] == '\0' && dst[..] == s + tail && CString(dst[..]) == s && b == |top| + 1
      modifies this`dirs, dst
      ensures TreeOk(top, dirs, files) && dirs <= old(dirs)
    {
      var p := |CString(dst[..])|;
      ghost var was := dirs;
      LeftStart(was, s);
      CutNothing(dst[..], s, tail, p);
      while p > b
        invariant |top| < p <= |s| && dirs == Left(was, s, p)
        invariant Cut(dst[..], s, tail, p) && Unneeded(top, files, s, p)
      {
        p := p - 1;
        assert dst[..][p] == s[p];
        LeftStep(was, s, p);
        if dst[p] != '/' {
          continue;
        }
        var goOn := PruneOne(dst, s, tail, p, was, were);
        if !goOn {
          return;
        }
      }
      PrunedTree(top, was, were, files, s, p);
    }

    /** Cut the path at its next slash and remove that directory, or stop if somebody needs it. */
    method PruneOne(dst: array<char>, ghost s: string, ghost tail: string, p: nat, ghost was: set<string>, ghost were: Files)
      returns (goOn: bool)
      requires TreeOk(top, was, were) && files == were - {s} && SystemPath(top, s) && FreeAbove(top, files, s)
      requires |top| < p < |s| && s[p] == '/' && Cut(dst[..], s, tail, p + 1)
      requires dirs == Left(was, s, p + 1) && Unneeded(top, files, s, p + 1)
      modifies this`dirs, dst
      ensures Cut(dst[..], s, tail, p)
      ensures goOn ==> dirs == Left(was, s, p) && Unneeded(top, files, s, p)
      ensures !goOn ==> TreeOk(top, dirs, files) && dirs <= was
    {
      dst[p] := '\0';
      CutCString(dst[..], s, tail, p);
      CutNotThrough(top, files, s, p);
      LeftStep(was, s, p);
      var err := Rmdir(CString(dst[..]));
      if err.Ok? {
        NoChildNoNeed(top, was, were, files, s, p);
        return true;
      }
      NeededFrom(top, was, were, s, p);
      return false;
    }

    lemma NeededFrom(top: string, was: set<string>, were: Files, s: string, p: nat)
      requires TreeOk(top, was, were) && files == were - {s} && SystemPath(top, s) && Unneeded(top, files, s, p + 1)
      requires |top| < p < |s| && s[p] == '/' && dirs == Left(was, s, p + 1)
      requires s[..p] !in dirs || HasChild(dirs, files, s[..p])
      ensures TreeOk(top, dirs, files) && dirs <= was
    {
      if s[..p] !in dirs {
        MissingStops(top, was, were, files, s, p);
      } else {
        ChildStops(top, was, were, files, s, p);
      }
      PrunedTree(top, was, were, files, s, p + 1);
    }
  }
}
