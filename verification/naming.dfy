/**
 * The names the handler derives from an object key: the scratch file it
 * downloads to, the file the transform writes, and the destination key.
 */
module Naming {
  import opened Python

  const TmpDir := "/tmp/"
  const DecryptedPrefix := "decrypted/"
  const DecryptedSuffix := ".decrypted"

  /** `s.rfind(c)`: the index of the last occurrence of `c` in `s`, or -1. */
  function RFind(s: string, c: char): (r: int)
    ensures -1 <= r < |s|
    decreases |s|
  {
    if |s| == 0 then -1
    else if s[|s| - 1] == c then |s| - 1
    else RFind(s[..|s| - 1], c)
  }

  /** `RFind` finds `c` at its index, and no `c` after it. */
  lemma {:induction false} RFindIsLast(s: string, c: char)
    ensures var r := RFind(s, c);
      (0 <= r ==> s[r] == c) && forall j :: r < j < |s| ==> s[j] != c
    decreases |s|
  {
    if |s| > 0 && s[|s| - 1] != c {
      var t := s[..|s| - 1];
      RFindIsLast(t, c);
      assert forall j :: 0 <= j < |t| ==> t[j] == s[j];
    }
  }

  /** `os.path.basename(p)` on POSIX: what follows the last '/'. */
  function Basename(p: string): string
  {
    p[RFind(p, '/') + 1..]
  }

  /**
   * The base name is the longest suffix free of '/': it holds no '/', and
   * what precedes it is empty or ends in '/'.
   */
  lemma BasenameIsLastSegment(p: string)
    ensures var r := Basename(p);
      '/' !in r &&
      |r| <= |p| && p == p[..|p| - |r|] + r &&
      (|r| < |p| ==> p[|p| - |r| - 1] == '/')
  {
    RFindIsLast(p, '/');
    var i := RFind(p, '/') + 1;
    assert forall j :: 0 <= j < |p[i..]| ==> p[i..][j] == p[i + j];
  }

  /** The scratch file a key is downloaded to: `/tmp/` + its base name. */
  function DownloadPath(key: string): string
  {
    TmpDir + Basename(key)
  }

  /** The file `decrypt_file` writes for an input path. */
  function DecryptedPath(path: string): string
  {
    path + DecryptedSuffix
  }

  /** The key the decrypted object is uploaded under. */
  function DestinationKey(key: string): string
  {
    DecryptedPrefix + key
  }

  /** The destination key is `decrypted/` followed by the whole source key. */
  lemma DestinationKeyParts(key: string)
    ensures StartsWith(DestinationKey(key), DecryptedPrefix)
    ensures DestinationKey(key)[|DecryptedPrefix|..] == key
  {
  }

  /** A path whose base name is "", "." or ".." names a directory, not a file. */
  predicate NamesDirectory(path: string)
  {
    Basename(path) in {"", ".", ".."}
  }

  /** The base name of `dir + "/" + name` is `name` whenever `name` holds no '/'. */
  lemma BasenameAfterSlash(dir: string, name: string)
    requires '/' !in name
    ensures Basename(dir + "/" + name) == name
  {
    var p := dir + "/" + name;
    assert p[|dir|] == '/';
    assert forall j :: |dir| < j < |p| ==> p[j] == name[j - |dir| - 1];
    RFindIsLast(p, '/');
    var i := RFind(p, '/');
    assert i == |dir|;
    assert p[i + 1..] == name;
  }

  /** The scratch file lies directly in /tmp and carries the key's base name. */
  lemma DownloadPathInTmp(key: string)
    ensures StartsWith(DownloadPath(key), TmpDir)
    ensures DownloadPath(key)[|TmpDir|..] == Basename(key)
    ensures Basename(DownloadPath(key)) == Basename(key)
    ensures NamesDirectory(DownloadPath(key)) <==> Basename(key) in {"", ".", ".."}
  {
    assert TmpDir == "/tmp" + "/";
    assert DownloadPath(key) == "/tmp" + "/" + Basename(key);
    BasenameIsLastSegment(key);
    BasenameAfterSlash("/tmp", Basename(key));
  }

  /** The transform never writes over the file it reads, and never onto a directory. */
  lemma ScratchPathsDiffer(path: string)
    ensures DecryptedPath(path) != path
    ensures !NamesDirectory(DecryptedPath(path))
  {
    var out := DecryptedPath(path);
    assert out == (path + ".") + "decrypted";
    var b := Basename(out);
    BasenameIsLastSegment(out);
    assert '/' !in "decrypted";
    assert b == "" || b == "." || b == ".." ==> |b| <= 2;
    assert |b| >= |"decrypted"| by {
      assert forall j :: |out| - 9 <= j < |out| ==> out[j] != '/';
    }
  }

  /** Distinct keys get distinct destination keys, and no key is its own destination. */
  lemma DestinationKeyInjective(k1: string, k2: string)
    ensures DestinationKey(k1) == DestinationKey(k2) ==> k1 == k2
    ensures DestinationKey(k1) != k1
  {
    DestinationKeyParts(k1);
    DestinationKeyParts(k2);
  }

  /** The scratch file for the key in the handler's own unit test. */
  lemma DownloadPathExample(key: string)
    requires key == "incoming/test-file.txt"
    ensures DownloadPath(key) == "/tmp/test-file.txt"
  {
    TestKeyBasename(key);
    TmpDirJoin("test-file.txt");
  }

  /** The base name of the test key. */
  lemma TestKeyBasename(key: string)
    requires key == "incoming/test-file.txt"
    ensures Basename(key) == "test-file.txt"
  {
    var name := "test-file.txt";
    assert key == "incoming" + "/" + name;
    BasenameAfterSlash("incoming", name);
  }

  /**
   * `/tmp/` joined with the test file's name. The name is a parameter fixed by
   * the precondition so that the solver does not unfold the literal.
   */
  lemma TmpDirJoin(name: string)
    requires name == "test-file.txt"
    ensures TmpDir + name == "/tmp/test-file.txt"
  {
  }
}
