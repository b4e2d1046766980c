/**
 The output-path half of `FFmpegTask::prepare()`: the output directory mirrors the
 input's absolute directory under the chosen output root, and the output file keeps
 the input's name up to its last '.' and takes the format's extension.
 The Qt string and path primitives it relies on are modelled here as pure functions.
 */
module Paths {

  /** `QDir::separator()`: a backslash on Windows, a slash elsewhere. */
  function Separator(windows: bool): char
  {
    if windows then '\\' else '/'
  }

  /** The characters `QFileInfo` splits a path at: '/' everywhere, and also '\\' on Windows. */
  predicate IsSeparator(c: char, windows: bool)
  {
    c == '/' || (windows && c == '\\')
  }

  /** `QString::lastIndexOf` for one character: the position of its last occurrence, or -1. */
  function LastIndexOf(s: string, c: char): (r: int)
    ensures -1 <= r < |s|
    ensures r == -1 <==> c !in s
    ensures r >= 0 ==> s[r] == c && c !in s[r + 1..]
  {
    if |s| == 0 then -1
    else if s[|s| - 1] == c then |s| - 1
    else
      assert s == s[..|s| - 1] + [s[|s| - 1]];
      LastIndexOf(s[..|s| - 1], c)
  }

  /** `QString::left`: the first `n` characters; a negative `n`, or one past the end, keeps the whole string. */
  function Left(s: string, n: int): (r: string)
    ensures |r| <= |s| && s[..|r|] == r
    ensures 0 <= n <= |s| ==> |r| == n
    ensures n < 0 || n >= |s| ==> |r| == |s|
  {
    if 0 <= n < |s| then s[..n] else s
  }

  /** `QFileInfo::fileName`: the longest separator-free tail of the path. */
  function FileName(path: string, windows: bool): (r: string)
    ensures |r| <= |path| && path[|path| - |r|..] == r
    ensures forall i :: 0 <= i < |r| ==> !IsSeparator(r[i], windows)
    ensures |r| < |path| ==> IsSeparator(path[|path| - |r| - 1], windows)
  {
    if |path| == 0 || IsSeparator(path[|path| - 1], windows) then ""
    else FileName(path[..|path| - 1], windows) + [path[|path| - 1]]
  }

  /** `name.left(name.lastIndexOf("."))`: the name up to its last '.', or the whole name when it has none. */
  function BaseName(name: string): (r: string)
    ensures '.' !in name ==> r == name
    ensures '.' in name ==> |r| < |name| && name[..|r|] == r && name[|r|] == '.' && '.' !in name[|r| + 1..]
  {
    Left(name, LastIndexOf(name, '.'))
  }

  /** `QString::replace(c, "")`: the string with every occurrence of `c` deleted, order kept. */
  function RemoveAll(s: string, c: char): (r: string)
    ensures c !in r
    ensures |r| <= |s|
    ensures c !in s ==> r == s
  {
    if |s| == 0 then ""
    else (if s[0] == c then "" else [s[0]]) + RemoveAll(s[1..], c)
  }

  /** Deletion keeps every other character, as often as it occurred. */
  lemma {:induction false} RemoveAllKeepsOthers(s: string, c: char)
    ensures multiset(RemoveAll(s, c)) == multiset(s)[c := 0]
    decreases |s|
  {
    if |s| > 0 {
      RemoveAllKeepsOthers(s[1..], c);
      assert s == [s[0]] + s[1..];
      assert multiset(s) == multiset([s[0]]) + multiset(s[1..]);
    }
  }

  /** Deletion distributes over concatenation, so it acts on each character independently. */
  lemma {:induction false} RemoveAllAppend(a: string, b: string, c: char)
    ensures RemoveAll(a + b, c) == RemoveAll(a, c) + RemoveAll(b, c)
    decreases |a|
  {
    if |a| == 0 {
      assert a + b == b;
    } else {
      var head := if a[0] == c then "" else [a[0]];
      assert RemoveAll(a + b, c) == head + RemoveAll(a[1..] + b, c) by {
        assert (a + b)[0] == a[0] && (a + b)[1..] == a[1..] + b;
      }
      RemoveAllAppend(a[1..], b, c);
      assert head + (RemoveAll(a[1..], c) + RemoveAll(b, c)) == (head + RemoveAll(a[1..], c)) + RemoveAll(b, c);
    }
  }

  /** The input's directory as it is appended to the output root: a separator is put in
      front when missing, and on Windows the drive colon is dropped. */
  function MirroredDir(absDir: string, windows: bool): (r: string)
    ensures |r| > 0 && r[0] == Separator(windows)
    ensures windows ==> ':' !in r
    ensures windows && |absDir| > 0 && absDir[0] == '\\' ==> r == RemoveAll(absDir, ':')
    ensures windows && (|absDir| == 0 || absDir[0] != '\\') ==> r == ['\\'] + RemoveAll(absDir, ':')
    ensures !windows && |absDir| > 0 && absDir[0] == '/' ==> r == absDir
    ensures !windows ==> r[1..] == absDir || r == absDir
  {
    var sep := Separator(windows);
    var subdirs := if |absDir| > 0 && absDir[0] == sep then absDir else [sep] + absDir;
    if windows then
      assert subdirs == [sep] + subdirs[1..];
      RemoveAllAppend([sep], subdirs[1..], ':');
      RemoveAll(subdirs, ':')
    else subdirs
  }

  /** `outdir + subdirs`: the directory the converted file is written to. */
  function OutputDir(root: string, absDir: string, windows: bool): (r: string)
    ensures |r| > |root| && r[..|root|] == root
    ensures r[|root|] == Separator(windows)
  {
    root + MirroredDir(absDir, windows)
  }

  /** `outdir + separator + basename + "." + ext`: the converted file's full path. */
  function OutputFile(outDir: string, name: string, ext: string, windows: bool): (r: string)
    ensures |r| == |outDir| + |BaseName(name)| + |ext| + 2
    ensures r[..|outDir|] == outDir && r[|outDir|] == Separator(windows)
    ensures r[|r| - |ext|..] == ext && r[|r| - |ext| - 1] == '.'
  {
    outDir + [Separator(windows)] + BaseName(name) + "." + ext
  }

  /** A Unix absolute directory is reproduced verbatim below the output root. */
  lemma UnixOutputDirMirrorsInput(root: string, absDir: string)
    requires |absDir| > 0 && absDir[0] == '/'
    ensures OutputDir(root, absDir, false) == root + absDir
  {
  }

  /** On Unix, two distinct absolute input directories never share an output directory. */
  lemma {:induction false} UnixOutputDirInjective(root: string, a: string, b: string)
    requires |a| > 0 && a[0] == '/' && |b| > 0 && b[0] == '/'
    requires OutputDir(root, a, false) == OutputDir(root, b, false)
    ensures a == b
  {
    assert a == OutputDir(root, a, false)[|root|..];
    assert b == OutputDir(root, b, false)[|root|..];
  }

  /** A Windows drive path: a drive letter, its colon, and a colon-free remainder
      (a colon cannot appear in a Windows file name). */
  predicate IsDrivePath(p: string)
  {
    |p| >= 2 && ('A' <= p[0] <= 'Z' || 'a' <= p[0] <= 'z') && p[1] == ':' && ':' !in p[2..]
  }

  /** On Windows, dropping the drive colon keeps distinct drive paths apart. */
  lemma {:induction false} WindowsOutputDirInjective(root: string, a: string, b: string)
    requires IsDrivePath(a) && IsDrivePath(b)
    requires OutputDir(root, a, true) == OutputDir(root, b, true)
    ensures a == b
  {
    WindowsMirroredDrive(a);
    WindowsMirroredDrive(b);
    var ma := MirroredDir(a, true);
    var mb := MirroredDir(b, true);
    assert ma == OutputDir(root, a, true)[|root|..];
    assert mb == OutputDir(root, b, true)[|root|..];
    assert a == [ma[1], ':'] + ma[2..];
    assert b == [mb[1], ':'] + mb[2..];
  }

  /** The Windows form of a drive path: a backslash, the drive letter, and the rest unchanged. */
  lemma {:induction false} WindowsMirroredDrive(p: string)
    requires IsDrivePath(p)
    ensures MirroredDir(p, true) == ['\\', p[0]] + p[2..]
  {
    assert ['\\'] + p == ['\\', p[0]] + [':'] + p[2..];
    RemoveAllAppend(['\\', p[0]] + [':'], p[2..], ':');
    RemoveAllAppend(['\\', p[0]], [':'], ':');
    RemoveAllAppend(['\\'], [p[0]], ':');
  }

  /** The converted file keeps the input's base name: reading the output path back
      with `fileName` and the last-'.' split yields the input's base name and the extension. */
  lemma {:induction false} OutputFileKeepsBaseName(outDir: string, name: string, ext: string, windows: bool)
    requires forall i :: 0 <= i < |name| ==> !IsSeparator(name[i], windows)
    requires forall i :: 0 <= i < |ext| ==> !IsSeparator(ext[i], windows)
    ensures FileName(OutputFile(outDir, name, ext, windows), windows) == BaseName(name) + "." + ext
    ensures (forall i :: 0 <= i < |ext| ==> ext[i] != '.') ==> BaseName(BaseName(name) + "." + ext) == BaseName(name)
  {
    var base := BaseName(name);
    var tail := base + "." + ext;
    assert base == name[..|base|];
    assert forall i :: 0 <= i < |tail| ==> !IsSeparator(tail[i], windows) by {
      forall i | 0 <= i < |tail|
        ensures !IsSeparator(tail[i], windows)
      {
        if i < |base| {
          assert tail[i] == name[i];
        } else if i > |base| {
          assert tail[i] == ext[i - |base| - 1];
        }
      }
    }
    assert OutputFile(outDir, name, ext, windows) == outDir + [Separator(windows)] + tail;
    FileNameOfJoin(outDir, tail, windows);
    if forall i :: 0 <= i < |ext| ==> ext[i] != '.' {
      BaseNameOfJoin(base, ext);
    }
  }

  /** Splitting `base + "." + ext` at its last '.' gives back `base` when `ext` has no '.'. */
  lemma {:induction false} BaseNameOfJoin(base: string, ext: string)
    requires forall i :: 0 <= i < |ext| ==> ext[i] != '.'
    ensures BaseName(base + "." + ext) == base
  {
    var tail := base + "." + ext;
    assert tail[|base|] == '.';
    assert tail[..|base|] == base;
  }

  /** `fileName` of `dir + separator + tail` is `tail` when `tail` has no separator. */
  lemma {:induction false} FileNameOfJoin(dir: string, tail: string, windows: bool)
    requires forall i :: 0 <= i < |tail| ==> !IsSeparator(tail[i], windows)
    ensures FileName(dir + [Separator(windows)] + tail, windows) == tail
  {
    var p := dir + [Separator(windows)] + tail;
    assert p[|p| - |tail| - 1] == Separator(windows);
    assert p[|p| - |tail|..] == tail;
  }
}
