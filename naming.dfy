/** How an upload is named in the store: `uid + filepath.Ext(filename)`,
    the composition both upload use cases perform. */
module Naming {

  /** `filepath.Ext` with `/` as the path separator: the suffix of path that
      starts at the final '.' of its last `/`-separated element, or empty when
      that element has no '.'. */
  function Ext(path: string): (e: string)
    ensures |e| <= |path| && e == path[|path| - |e|..]
    ensures e != "" ==> e[0] == '.' && forall j :: 0 < j < |e| ==> e[j] != '.' && e[j] != '/'
    ensures e == "" <==> forall k :: 0 <= k < |path| && path[k] == '.' ==> '/' in path[k + 1..]
  {
    ExtScanIsFinalDotSuffix(path, |path|);
    ExtScan(path, |path|)
  }

  /** The loop of `filepath.Ext`, looking at path[n-1], path[n-2], ... and
      stopping at the first '.' (the extension runs from there to the end of
      the path) or at the first separator (no extension). */
  function ExtScan(path: string, n: nat): string
    requires n <= |path|
    decreases n
  {
    if n == 0 || path[n - 1] == '/' then ""
    else if path[n - 1] == '.' then path[n - 1..]
    else ExtScan(path, n - 1)
  }

  /** The scan below n, when nothing at or after n is a '.' or a separator. */
  lemma {:induction false} ExtScanIsFinalDotSuffix(path: string, n: nat)
    requires n <= |path|
    requires forall j :: n <= j < |path| ==> path[j] != '.' && path[j] != '/'
    ensures var e := ExtScan(path, n);
      && |e| <= |path| && e == path[|path| - |e|..]
      && (e != "" ==> e[0] == '.' && forall j :: 0 < j < |e| ==> e[j] != '.' && e[j] != '/')
      && (e == "" <==> forall k :: 0 <= k < |path| && path[k] == '.' ==> '/' in path[k + 1..])
    decreases n
  {
    if n == 0 {
    } else if path[n - 1] == '/' {
      forall k | 0 <= k < |path| && path[k] == '.'
        ensures '/' in path[k + 1..]
      {
        assert path[k + 1..][n - 1 - (k + 1)] == '/';
      }
    } else if path[n - 1] == '.' {
      var e := path[n - 1..];
      forall j | 0 < j < |e|
        ensures e[j] != '.' && e[j] != '/'
      {
        assert e[j] == path[n - 1 + j];
      }
      assert '/' !in path[n..] by {
        forall i | 0 <= i < |path[n..]|
          ensures path[n..][i] != '/'
        {
          assert path[n..][i] == path[n + i];
        }
      }
    } else {
      ExtScanIsFinalDotSuffix(path, n - 1);
      var e := ExtScan(path, n - 1);
      if e == "" {
        forall k | 0 <= k < |path| && path[k] == '.'
          ensures '/' in path[k + 1..]
        {
        }
      } else {
        assert path[n - 1] != '.';
      }
    }
  }

  /** The name an upload is stored under: the generated uid followed by the
      extension of the client's file name, and nothing else of that name. */
  function UploadName(uid: string, filename: string): (n: string)
    ensures |uid| <= |n| && n[..|uid|] == uid
    ensures var ext := n[|uid|..];
      && |ext| <= |filename| && ext == filename[|filename| - |ext|..]
      && (ext != "" ==> ext[0] == '.' && forall j :: 0 < j < |ext| ==> ext[j] != '.' && ext[j] != '/')
      && (ext == "" <==> forall k :: 0 <= k < |filename| && filename[k] == '.' ==> '/' in filename[k + 1..])
  {
    var n := uid + Ext(filename);
    assert n[..|uid|] == uid && n[|uid|..] == Ext(filename);
    n
  }

  /** Only the extension of the file name reaches the store: two names with
      the same extension are stored under the same name. */
  lemma UploadNameIgnoresBaseName(uid: string, f1: string, f2: string)
    requires Ext(f1) == Ext(f2)
    ensures UploadName(uid, f1) == UploadName(uid, f2)
  {
  }

  lemma ExtExamples()
    ensures Ext("photo.png") == ".png"
    ensures Ext("archive.tar.gz") == ".gz"
    ensures Ext("dir.d/README") == ""
    ensures Ext("noext") == ""
    ensures UploadName("u1", "a/b/photo.png") == "u1.png"
  {
    var p := "photo.png";
    assert ExtScan(p, 8) == ExtScan(p, 6) == ".png";
    var q := "archive.tar.gz";
    assert ExtScan(q, 13) == ".gz";
    var r := "dir.d/README";
    assert ExtScan(r, 12) == ExtScan(r, 10) == ExtScan(r, 8) == ExtScan(r, 6) == "";
    var t := "noext";
    assert ExtScan(t, 5) == ExtScan(t, 3) == ExtScan(t, 1) == "";
    var u := "a/b/photo.png";
    assert ExtScan(u, 12) == ExtScan(u, 10) == ".png";
    assert "u1" + ".png" == "u1.png";
  }
}
