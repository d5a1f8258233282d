/** pkg/project/file.go: the file name without its extension, built from filepath.Ext and
    strings.TrimSuffix on a Unix host, where '/' is the only path separator. */
module Project {

  /** path[k] is a '.' and no '.' or '/' follows it up to position i. */
  predicate ExtAt(path: string, k: int, i: int) {
    0 <= k <= i < |path| && path[k] == '.'
    && forall j :: k < j <= i ==> path[j] != '.' && path[j] != '/'
  }

  /** No '/' lies in path[k..i]: positions k to i belong to one path element. */
  predicate SameElement(path: string, k: int, i: int)
    requires 0 <= k && i < |path|
  {
    forall j :: k <= j <= i ==> path[j] != '/'
  }

  /** The loop of filepath.Ext, scanning down from position i: the suffix from the first '.'
      met, or "" once a '/' or the start of the path is reached. */
  function ExtFrom(path: string, i: int): (e: string)
    requires -1 <= i < |path|
    ensures |e| <= |path| && e == path[|path| - |e|..]
    ensures e != [] ==> ExtAt(path, |path| - |e|, i)
    decreases i + 1
  {
    if i < 0 || path[i] == '/' then []
    else if path[i] == '.' then path[i..]
    else ExtFrom(path, i - 1)
  }

  /** filepath.Ext on a Unix host. */
  function Ext(path: string): string {
    ExtFrom(path, |path| - 1)
  }

  /** An empty result means that no '.' lies in the element being scanned. */
  lemma {:induction false} ExtFromEmpty(path: string, i: int)
    requires -1 <= i < |path| && ExtFrom(path, i) == []
    ensures forall k :: 0 <= k <= i && SameElement(path, k, i) ==> path[k] != '.'
    decreases i + 1
  {
    if i >= 0 && path[i] != '/' {
      ExtFromEmpty(path, i - 1);
      forall k | 0 <= k <= i && SameElement(path, k, i) ensures path[k] != '.' {
        if k < i {
          assert SameElement(path, k, i - 1);
        }
      }
    }
  }

  /** strings.TrimSuffix. */
  function TrimSuffix(s: string, suffix: string): (r: string)
    ensures |suffix| <= |s| && s[|s| - |suffix|..] == suffix ==> r + suffix == s
    ensures !(|suffix| <= |s| && s[|s| - |suffix|..] == suffix) ==> r == s
  {
    if |suffix| <= |s| && s[|s| - |suffix|..] == suffix then s[..|s| - |suffix|] else s
  }

  /** FilenameWithoutExt: the name with its extension cut off; putting the extension back gives
      the name again. */
  function FilenameWithoutExt(fileName: string): (r: string)
    ensures r <= fileName
    ensures r + Ext(fileName) == fileName
  {
    TrimSuffix(fileName, Ext(fileName))
  }

  /** A name comes back unchanged exactly when its final element has no '.'. */
  lemma UnchangedIffNoDot(fileName: string)
    ensures FilenameWithoutExt(fileName) == fileName <==>
      forall k :: 0 <= k < |fileName| && SameElement(fileName, k, |fileName| - 1) ==> fileName[k] != '.'
  {
    var e := Ext(fileName);
    if e == [] {
      ExtFromEmpty(fileName, |fileName| - 1);
      assert fileName[|fileName|..] == [];
    } else {
      var k := |fileName| - |e|;
      assert ExtAt(fileName, k, |fileName| - 1);
      assert SameElement(fileName, k, |fileName| - 1);
    }
  }

  /** Only the last extension goes. */
  lemma LastExtensionOnly()
    ensures FilenameWithoutExt("a.tar.gz") == "a.tar"
  {
    var p := "a.tar.gz";
    assert ExtAt(p, 5, 7);
    ExtReaches(p, 5, 7);
    assert p[..5] == "a.tar";
  }

  /** A dot in a directory name is not an extension. */
  lemma DirectoryDotIgnored()
    ensures FilenameWithoutExt("dir.d/file") == "dir.d/file"
  {
    var p := "dir.d/file";
    assert p[5] == '/';
    UnchangedIffNoDot(p);
  }

  /** Scanning from i reaches the '.' at position k when nothing in between stops it. */
  lemma {:induction false} ExtReaches(path: string, k: int, i: int)
    requires ExtAt(path, k, i)
    ensures ExtFrom(path, i) == path[k..]
    decreases i
  {
    if i > k {
      ExtReaches(path, k, i - 1);
    }
  }

  /** A name made of an extension only becomes empty. */
  lemma DotFileEmpty()
    ensures FilenameWithoutExt(".bashrc") == ""
  {
    var p := ".bashrc";
    assert ExtAt(p, 0, 6);
    ExtReaches(p, 0, 6);
    assert p[0..] == p;
  }
}
