/** The folder hierarchy derived from the object keys under `PDF/`: PDF
    keys give the folder they sit in (cut at a 14-digit job-id segment),
    `.folder_marker` keys give folders that hold no file yet, every
    ancestor of a folder is a folder, and the tree is built from the
    sorted paths. The bucket listing (all pages) is the sequence `keys`. */
module FolderTree {
  import Strs
  import Order

  const MarkerSuffix := "/.folder_marker"

  /** A 14-digit segment: a job id, which ends the folder path. */
  predicate IsJobIdSegment(s: string)
  {
    |s| == 14 && Strs.IsDigits(s)
  }

  predicate IsPdfKey(key: string)
  {
    Strs.StartsWith(key, "PDF/") && Strs.EndsWith(key, ".pdf")
  }

  /** A marker key; a key ending in `.pdf` is a PDF key first. */
  predicate IsMarkerKey(key: string)
  {
    !IsPdfKey(key) && Strs.StartsWith(key, "PDF/") && Strs.EndsWith(key, MarkerSuffix)
  }

  /** The leading segments before the first job-id segment. */
  function FolderParts(segs: seq<string>): (r: seq<string>)
    ensures |r| <= |segs| && r == segs[..|r|]
    ensures forall i :: 0 <= i < |r| ==> !IsJobIdSegment(r[i])
    ensures |r| < |segs| ==> IsJobIdSegment(segs[|r|])
  {
    if |segs| == 0 || IsJobIdSegment(segs[0]) then []
    else [segs[0]] + FolderParts(segs[1..])
  }

  /** The directory segments of a PDF key (after `PDF/`, without the file name). */
  function PdfDirSegments(key: string): seq<string>
    requires IsPdfKey(key)
  {
    var parts := Strs.Split(key[4..], '/');
    parts[..|parts| - 1]
  }

  /** The folder path segments of a PDF key. */
  function PdfFolder(key: string): seq<string>
    requires IsPdfKey(key)
  {
    FolderParts(PdfDirSegments(key))
  }

  /** `key[4:-len('/.folder_marker')]`, which Python makes '' when the two
      ends overlap. */
  function MarkerFolder(key: string): string
  {
    if |key| - |MarkerSuffix| >= 4 then key[4..|key| - |MarkerSuffix|] else ""
  }

  /** The paths of the first 1, 2, ..., all segments: a folder and its ancestors. */
  function PrefixJoins(parts: seq<string>): set<string>
  {
    set i | 1 <= i <= |parts| :: Strs.Join(parts[..i], '/')
  }

  /** The folders one key contributes. */
  function Found(key: string): set<string>
  {
    if IsPdfKey(key) then
      (if |PdfFolder(key)| > 0 then PrefixJoins(PdfFolder(key)) else {})
    else if IsMarkerKey(key) && MarkerFolder(key) != "" then
      PrefixJoins(Strs.Split(MarkerFolder(key), '/'))
    else {}
  }

  /** The folder a key shows to hold a file. */
  function Filled(key: string): set<string>
  {
    if IsPdfKey(key) && |PdfFolder(key)| > 0 then {Strs.Join(PdfFolder(key), '/')} else {}
  }

  /** `all_folders` after the listing. */
  function Folders(keys: seq<string>): set<string>
  {
    if |keys| == 0 then {} else Folders(keys[..|keys| - 1]) + Found(keys[|keys| - 1])
  }

  /** `folders_with_files` after the listing. */
  function WithFiles(keys: seq<string>): set<string>
  {
    if |keys| == 0 then {} else WithFiles(keys[..|keys| - 1]) + Filled(keys[|keys| - 1])
  }

  // ----- the collection loops -----

  /** The loop over the directory segments, stopping at a job id. */
  method CutAtJobId(segs: seq<string>) returns (parts: seq<string>)
    ensures parts == FolderParts(segs)
  {
    parts := [];
    var i := 0;
    while i < |segs|
      invariant 0 <= i <= |segs| && parts == segs[..i]
      invariant forall j :: 0 <= j < i ==> !IsJobIdSegment(segs[j])
      decreases |segs| - i
    {
      if IsJobIdSegment(segs[i]) {
        break;
      }
      parts := parts + [segs[i]];
      i := i + 1;
    }
    FolderPartsIsCut(segs, i);
  }

  lemma {:induction false} FolderPartsIsCut(segs: seq<string>, n: nat)
    requires n <= |segs| && forall j :: 0 <= j < n ==> !IsJobIdSegment(segs[j])
    requires n == |segs| || IsJobIdSegment(segs[n])
    ensures FolderParts(segs) == segs[..n]
  {
    if n > 0 {
      FolderPartsIsCut(segs[1..], n - 1);
      assert segs[..n] == [segs[0]] + segs[1..][..n - 1];
    }
  }

  /** `all_folders.add` for a folder and each of its proper ancestors. */
  method AddWithAncestors(all0: set<string>, parts: seq<string>) returns (all: set<string>)
    requires |parts| > 0
    ensures all == all0 + PrefixJoins(parts)
  {
    all := all0 + {Strs.Join(parts, '/')};
    assert parts[..|parts|] == parts;
    for i := 1 to |parts|
      invariant all == all0 + (set j | 1 <= j < i :: Strs.Join(parts[..j], '/')) + {Strs.Join(parts, '/')}
    {
      all := all + {Strs.Join(parts[..i], '/')};
    }
  }

  /** The listing loop of `get_folder_tree`. */
  method CollectFolders(keys: seq<string>) returns (all: set<string>, withFiles: set<string>)
    ensures all == Folders(keys) && withFiles == WithFiles(keys)
  {
    all, withFiles := {}, {};
    for k := 0 to |keys|
      invariant all == Folders(keys[..k]) && withFiles == WithFiles(keys[..k])
    {
      assert keys[..k + 1][..k] == keys[..k];
      all, withFiles := CollectKey(all, withFiles, keys[k]);
    }
    assert keys[..|keys|] == keys;
  }

  /** The body of the listing loop for one key. */
  method CollectKey(all0: set<string>, withFiles0: set<string>, key: string) returns (all: set<string>, withFiles: set<string>)
    ensures all == all0 + Found(key) && withFiles == withFiles0 + Filled(key)
  {
    all, withFiles := all0, withFiles0;
    if IsPdfKey(key) {
      var parts := Strs.Split(key[4..], '/');
      var folderParts := CutAtJobId(parts[..|parts| - 1]);
      if |folderParts| > 0 {
        all := AddWithAncestors(all, folderParts);
        withFiles := withFiles + {Strs.Join(folderParts, '/')};
      }
    } else if Strs.StartsWith(key, "PDF/") && Strs.EndsWith(key, MarkerSuffix) {
      var folderPath := MarkerFolder(key);
      if folderPath != "" {
        all := AddWithAncestors(all, Strs.Split(folderPath, '/'));
      }
    }
  }

  // ----- what the collection guarantees -----

  /** Every prefix of a member that ends just before a '/' is a member. */
  predicate AncestorClosed(s: set<string>)
  {
    forall x, j :: x in s && 0 <= j < |x| && x[j] == '/' ==> x[..j] in s
  }

  /** A '/' in a join of slash-free parts ends the join of a shorter prefix. */
  lemma {:induction false} JoinPrefixAtSep(parts: seq<string>, j: nat)
    requires forall i :: 0 <= i < |parts| ==> '/' !in parts[i]
    requires j < |Strs.Join(parts, '/')| && Strs.Join(parts, '/')[j] == '/'
    ensures exists i :: 1 <= i < |parts| && Strs.Join(parts, '/')[..j] == Strs.Join(parts[..i], '/')
  {
    var a := parts[0];
    var rest := Strs.Join(parts[1..], '/');
    assert Strs.Join(parts, '/') == a + ['/'] + rest;
    if j == |a| {
      assert Strs.Join(parts, '/')[..j] == a == Strs.Join(parts[..1], '/');
    } else if j > |a| {
      var j' := j - |a| - 1;
      assert rest[j'] == '/';
      JoinPrefixAtSep(parts[1..], j');
      var i' :| 1 <= i' < |parts| - 1 && rest[..j'] == Strs.Join(parts[1..][..i'], '/');
      var q := parts[..i' + 1];
      assert q[0] == a && q[1..] == parts[1..][..i'];
      assert Strs.Join(q, '/') == a + ['/'] + Strs.Join(parts[1..][..i'], '/');
      assert Strs.Join(parts, '/')[..j] == a + ['/'] + rest[..j'];
    }
  }

  lemma PrefixJoinsClosed(parts: seq<string>)
    requires forall i :: 0 <= i < |parts| ==> '/' !in parts[i]
    ensures AncestorClosed(PrefixJoins(parts))
  {
    forall x, j | x in PrefixJoins(parts) && 0 <= j < |x| && x[j] == '/'
      ensures x[..j] in PrefixJoins(parts)
    {
      var i :| 1 <= i <= |parts| && x == Strs.Join(parts[..i], '/');
      JoinPrefixAtSep(parts[..i], j);
      var i' :| 1 <= i' < i && x[..j] == Strs.Join(parts[..i][..i'], '/');
      assert parts[..i][..i'] == parts[..i'];
    }
  }

  lemma FoundClosed(key: string)
    ensures AncestorClosed(Found(key))
  {
    if IsPdfKey(key) {
      var segs := Strs.Split(key[4..], '/');
      assert forall i :: 0 <= i < |PdfFolder(key)| ==> PdfFolder(key)[i] == segs[i];
      PrefixJoinsClosed(PdfFolder(key));
    } else if IsMarkerKey(key) && MarkerFolder(key) != "" {
      PrefixJoinsClosed(Strs.Split(MarkerFolder(key), '/'));
    }
  }

  /** The folder set contains every ancestor of each of its folders. */
  lemma {:induction false} FoldersClosed(keys: seq<string>)
    ensures AncestorClosed(Folders(keys))
  {
    if |keys| > 0 {
      FoldersClosed(keys[..|keys| - 1]);
      FoundClosed(keys[|keys| - 1]);
    }
  }

  /** A folder holding files is a folder. */
  lemma {:induction false} WithFilesAreFolders(keys: seq<string>)
    ensures WithFiles(keys) <= Folders(keys)
  {
    if |keys| > 0 {
      WithFilesAreFolders(keys[..|keys| - 1]);
      var key := keys[|keys| - 1];
      if IsPdfKey(key) && |PdfFolder(key)| > 0 {
        assert PdfFolder(key)[..|PdfFolder(key)|] == PdfFolder(key);
      }
    }
  }

  /** A PDF key adds the path of its directory segments cut at the first
      job id (nothing when that is empty), marks it as holding files, and
      adds its ancestors. */
  lemma PdfKeyFolder(key: string)
    requires IsPdfKey(key)
    ensures var dir := PdfDirSegments(key);
      var fp := PdfFolder(key);
      fp == dir[..|fp|] && (forall i :: 0 <= i < |fp| ==> !IsJobIdSegment(fp[i])) &&
      (|fp| < |dir| ==> IsJobIdSegment(dir[|fp|])) &&
      (|fp| == 0 ==> Found(key) == {} && Filled(key) == {}) &&
      (|fp| > 0 ==> Strs.Join(fp, '/') in Found(key) && Filled(key) == {Strs.Join(fp, '/')})
  {
    var fp := PdfFolder(key);
    if |fp| > 0 {
      assert fp[..|fp|] == fp;
    }
  }

  /** A marker key adds its non-empty folder and the folder's ancestors,
      and no folder with files. */
  lemma MarkerKeyFolder(key: string)
    requires IsMarkerKey(key)
    ensures Filled(key) == {}
    ensures MarkerFolder(key) != "" ==> MarkerFolder(key) in Found(key)
    ensures MarkerFolder(key) == "" ==> Found(key) == {}
  {
    var m := MarkerFolder(key);
    if m != "" {
      var parts := Strs.Split(m, '/');
      Strs.JoinSplit(m, '/');
      assert parts[..|parts|] == parts;
    }
  }

  /** The empty path is a folder only when some key starts with `PDF//`,
      that is, has an empty first segment. */
  lemma {:induction false} EmptyFolderNeedsEmptySegment(keys: seq<string>)
    requires "" in Folders(keys)
    ensures exists k :: 0 <= k < |keys| && Strs.StartsWith(keys[k], "PDF//")
  {
    var last := keys[|keys| - 1];
    if "" in Folders(keys[..|keys| - 1]) {
      EmptyFolderNeedsEmptySegment(keys[..|keys| - 1]);
      var k :| 0 <= k < |keys| - 1 && Strs.StartsWith(keys[..|keys| - 1][k], "PDF//");
      assert keys[k] == keys[..|keys| - 1][k];
    } else {
      assert "" in Found(last);
      FoundEmpty(last);
    }
  }

  lemma FoundEmpty(key: string)
    requires "" in Found(key)
    ensures Strs.StartsWith(key, "PDF//")
  {
    if IsPdfKey(key) {
      var segs := Strs.Split(key[4..], '/');
      var fp := PdfFolder(key);
      EmptyJoinFirst(fp);
      assert fp[0] == segs[0] == "";
      SplitEmptyHead(key[4..]);
    } else {
      var m := MarkerFolder(key);
      EmptyJoinFirst(Strs.Split(m, '/'));
      SplitEmptyHead(m);
      assert key[4] == m[0];
    }
  }

  /** Only a first empty part makes a prefix join empty. */
  lemma EmptyJoinFirst(parts: seq<string>)
    requires "" in PrefixJoins(parts)
    ensures |parts| > 0 && parts[0] == ""
  {
    var i :| 1 <= i <= |parts| && Strs.Join(parts[..i], '/') == "";
  }

  lemma SplitEmptyHead(s: string)
    requires s != "" && Strs.Split(s, '/')[0] == ""
    ensures s[0] == '/'
  {
  }

  // ----- sorting the folder set -----

  predicate IsLeast(m: string, s: set<string>)
  {
    m in s && forall y :: y in s ==> Order.LexLe(m, y)
  }

  lemma {:induction false} LexLeAntisym(a: string, b: string)
    requires Order.LexLe(a, b) && Order.LexLe(b, a)
    ensures a == b
    decreases |a|
  {
    if |a| > 0 {
      LexLeAntisym(a[1..], b[1..]);
      assert a == [a[0]] + a[1..] && b == [b[0]] + b[1..];
    }
  }

  lemma LeastExists(s: set<string>)
    requires s != {}
    ensures exists m :: IsLeast(m, s)
    decreases |s|
  {
    var y :| y in s;
    if s - {y} == {} {
      assert s == {y};
      Order.LexLeTotal(y, y);
      assert IsLeast(y, s);
    } else {
      LeastExists(s - {y});
      var m :| IsLeast(m, s - {y});
      Order.LexLeTotal(m, y);
      if Order.LexLe(m, y) {
        assert IsLeast(m, s);
      } else {
        forall z | z in s ensures Order.LexLe(y, z) {
          if z != y { Order.LexLeTrans(y, m, z); } else { Order.LexLeTotal(y, y); }
        }
        assert IsLeast(y, s);
      }
    }
  }

  lemma LeastUnique(s: set<string>)
    ensures forall a, b :: IsLeast(a, s) && IsLeast(b, s) ==> a == b
  {
    forall a, b | IsLeast(a, s) && IsLeast(b, s) ensures a == b {
      LexLeAntisym(a, b);
    }
  }

  /** `sorted(s)`: the members in ascending order, each once. */
  function SortedPaths(s: set<string>): (r: seq<string>)
    ensures |r| == |s| && forall x :: x in r <==> x in s
    ensures StrictlySorted(r)
    decreases |s|
  {
    if s == {} then []
    else
      LeastExists(s);
      LeastUnique(s);
      var m :| IsLeast(m, s);
      var rest := SortedPaths(s - {m});
      LeastFirst(m, s, rest);
      [m] + rest
  }

  /** The least member followed by the rest in order is in order. */
  lemma LeastFirst(m: string, s: set<string>, rest: seq<string>)
    requires IsLeast(m, s) && StrictlySorted(rest)
    requires forall x :: x in rest <==> x in s - {m}
    ensures StrictlySorted([m] + rest)
  {
    var r := [m] + rest;
    forall i, j | 0 <= i < j < |r| ensures Order.LexLe(r[i], r[j]) && r[i] != r[j] {
      if i > 0 {
        assert r[i] == rest[i - 1] && r[j] == rest[j - 1];
      } else {
        assert r[j] == rest[j - 1];
        assert r[j] in s - {m};
      }
    }
  }

  /** The members of `xs` that `keep` accepts, in order. */
  function Filter(xs: seq<string>, keep: string -> bool): (r: seq<string>)
    ensures |r| <= |xs|
    ensures forall x :: x in r <==> x in xs && keep(x)
  {
    if |xs| == 0 then []
    else Filter(xs[..|xs| - 1], keep) + (if keep(xs[|xs| - 1]) then [xs[|xs| - 1]] else [])
  }

  predicate StrictlySorted(xs: seq<string>)
  {
    forall i, j :: 0 <= i < j < |xs| ==> Order.LexLe(xs[i], xs[j]) && xs[i] != xs[j]
  }

  lemma {:induction false} FilterSorted(xs: seq<string>, keep: string -> bool)
    requires StrictlySorted(xs)
    ensures StrictlySorted(Filter(xs, keep))
  {
    if |xs| > 0 {
      var pre := xs[..|xs| - 1];
      assert StrictlySorted(pre);
      FilterSorted(pre, keep);
      var f := Filter(pre, keep);
      var last := xs[|xs| - 1];
      forall y | y in f ensures Order.LexLe(y, last) && y != last {
        var k :| 0 <= k < |pre| && pre[k] == y;
      }
      var r := Filter(xs, keep);
      forall i, j | 0 <= i < j < |r| ensures Order.LexLe(r[i], r[j]) && r[i] != r[j] {
        if j < |f| {
          assert r[i] == f[i] && r[j] == f[j];
        } else {
          assert r[i] == f[i] && r[i] in f && r[j] == last;
        }
      }
    }
  }

  /** The longest path length, bounding the depth of the recursion. */
  function MaxLen(xs: seq<string>): (r: nat)
    ensures forall i :: 0 <= i < |xs| ==> |xs[i]| <= r
  {
    if |xs| == 0 then 0
    else var m := MaxLen(xs[1..]); if |xs[0]| > m then |xs[0]| else m
  }

  // ----- folder flags -----

  /** `o` lies below `p` (it starts with `p + '/'`). */
  predicate IsUnder(p: string, o: string)
  {
    o != p && Strs.StartsWith(o, p + "/")
  }

  /** `o` lies directly below `p`: no further '/' after `p + '/'`. */
  predicate IsDirectlyUnder(p: string, o: string)
  {
    IsUnder(p, o) && '/' !in o[|p| + 1..]
  }

  predicate HasSubfolder(folders: set<string>, p: string)
  {
    exists o :: o in folders && IsDirectlyUnder(p, o)
  }

  predicate HasDescendant(folders: set<string>, p: string)
  {
    exists o :: o in folders && IsUnder(p, o)
  }

  /** `is_leaf`: the folder holds files and no folder sits directly below it. */
  predicate IsLeaf(folders: set<string>, withFiles: set<string>, p: string)
  {
    p in withFiles && !HasSubfolder(folders, p)
  }

  /** `can_delete`: the folder holds no files and has no folder below it. */
  predicate CanDelete(folders: set<string>, withFiles: set<string>, p: string)
  {
    p !in withFiles && !HasDescendant(folders, p)
  }

  /** In an ancestor-closed set a folder has a descendant iff it has a
      direct subfolder, so `can_delete` needs only the direct check, and
      a leaf is never deletable. */
  lemma FlagsAgree(folders: set<string>, withFiles: set<string>, p: string)
    requires AncestorClosed(folders)
    ensures HasDescendant(folders, p) <==> HasSubfolder(folders, p)
    ensures CanDelete(folders, withFiles, p) <==> p !in withFiles && !HasSubfolder(folders, p)
    ensures IsLeaf(folders, withFiles, p) ==> !CanDelete(folders, withFiles, p)
  {
    if HasDescendant(folders, p) {
      var o :| o in folders && IsUnder(p, o);
      var k := |p| + 1;
      var i := Strs.IndexOf(o[k..], '/');
      if i >= 0 {
        var c := o[..k + i];
        assert o[k + i] == o[k..][i] == '/';
        assert c in folders;
        assert c[..k] == o[..k] == p + "/";
        assert c[k..] == o[k..][..i];
        assert forall j :: 0 <= j < i ==> o[k..][j] != '/';
        assert IsDirectlyUnder(p, c);
      } else {
        assert IsDirectlyUnder(p, o);
      }
    }
  }

  /** The scan for a folder directly below `p`, stopping at the first. */
  method ScanSubfolder(p: string, others: seq<string>) returns (found: bool)
    ensures found <==> exists i :: 0 <= i < |others| && IsDirectlyUnder(p, others[i])
  {
    found := false;
    var i := 0;
    while i < |others|
      invariant 0 <= i <= |others|
      invariant forall j :: 0 <= j < i ==> !IsDirectlyUnder(p, others[j])
      decreases |others| - i
    {
      if Strs.StartsWith(others[i], p + "/") && others[i] != p && '/' !in others[i][|p| + 1..] {
        found := true;
        break;
      }
      i := i + 1;
    }
  }

  /** The scan for any folder below `p`, stopping at the first. */
  method ScanDescendant(p: string, others: seq<string>) returns (found: bool)
    ensures found <==> exists i :: 0 <= i < |others| && IsUnder(p, others[i])
  {
    found := false;
    var i := 0;
    while i < |others|
      invariant 0 <= i <= |others|
      invariant forall j :: 0 <= j < i ==> !IsUnder(p, others[j])
      decreases |others| - i
    {
      if Strs.StartsWith(others[i], p + "/") && others[i] != p {
        found := true;
        break;
      }
      i := i + 1;
    }
  }

  /** The entry of `folder_dict` for a folder, without its children. */
  datatype FolderInfo = FolderInfo(name: string, isLeaf: bool, canDelete: bool)

  function InfoOf(folders: set<string>, withFiles: set<string>, p: string): FolderInfo
  {
    FolderInfo(Strs.LastSegment(p, '/'), IsLeaf(folders, withFiles, p), CanDelete(folders, withFiles, p))
  }

  /** The three passes over the folders that fill `folder_dict`. */
  method DescribeFolders(paths: seq<string>, folders: set<string>, withFiles: set<string>)
    returns (info: map<string, FolderInfo>)
    requires forall x :: x in paths <==> x in folders
    ensures forall p :: p in info <==> p in folders
    ensures forall p :: p in info ==> info[p] == InfoOf(folders, withFiles, p)
  {
    info := map[];
    for i := 0 to |paths|
      invariant forall p :: p in info <==> p in paths[..i]
      invariant forall p :: p in info ==> info[p] == InfoOf(folders, withFiles, p)
    {
      var p := paths[i];
      var isLeaf := p in withFiles;
      var sub := ScanSubfolder(p, paths);
      if sub {
        isLeaf := false;
      }
      var desc := ScanDescendant(p, paths);
      assert sub <==> HasSubfolder(folders, p) by {
        if HasSubfolder(folders, p) {
          var o :| o in folders && IsDirectlyUnder(p, o);
          var j :| 0 <= j < |paths| && paths[j] == o;
        }
      }
      assert desc <==> HasDescendant(folders, p) by {
        if HasDescendant(folders, p) {
          var o :| o in folders && IsUnder(p, o);
          var j :| 0 <= j < |paths| && paths[j] == o;
        }
      }
      info := info[p := FolderInfo(Strs.LastSegment(p, '/'), isLeaf, !(p in withFiles) && !desc)];
      assert paths[..i + 1] == paths[..i] + [p];
    }
    assert paths[..|paths|] == paths;
  }

  // ----- the tree -----

  /** `folder_dict`: one entry per folder, holding its flags. */
  ghost predicate InfoMatches(info: map<string, FolderInfo>, folders: set<string>, describe: string -> FolderInfo)
  {
    (forall q :: q in info <==> q in folders) &&
    (forall q :: q in info ==> info[q] == describe(q))
  }

  /** The `folder_dict` entry of each folder, as a function. */
  function Describe(folders: set<string>, withFiles: set<string>): string -> FolderInfo
  {
    p => InfoOf(folders, withFiles, p)
  }

  datatype FolderNode = FolderNode(name: string, path: string, isLeaf: bool, canDelete: bool, children: seq<FolderNode>)

  /** The prefix `build_tree` looks for below `p` ('' for the empty path). */
  function ChildPrefix(p: string): string
  {
    if p == "" then "" else p + "/"
  }

  predicate IsChildPath(p: string, f: string)
  {
    f != p && Strs.StartsWith(f, ChildPrefix(p)) && '/' !in f[|ChildPrefix(p)|..]
  }

  predicate IsRootPath(f: string)
  {
    '/' !in f
  }

  function KeepChild(p: string): string -> bool
  {
    f => IsChildPath(p, f)
  }

  lemma FilterSnoc(xs: seq<string>, i: nat, keep: string -> bool)
    requires i < |xs|
    ensures Filter(xs[..i + 1], keep) == Filter(xs[..i], keep) + (if keep(xs[i]) then [xs[i]] else [])
  {
    assert xs[..i + 1][..i] == xs[..i];
  }

  /** What a prefix of the sorted listing filtered for one parent may be given to `Forest`. */
  predicate ForestReady(folders: set<string>, ps: seq<string>, parentLen: int)
  {
    forall j :: 0 <= j < |ps| ==> ps[j] in folders && |ps[j]| > parentLen
  }

  lemma ChildrenReady(folders: set<string>, p: string, i: nat)
    requires i <= |SortedPaths(folders)|
    ensures ForestReady(folders, Filter(SortedPaths(folders)[..i], KeepChild(p)), |p|)
  {
    var xs := SortedPaths(folders);
    var r := Filter(xs[..i], KeepChild(p));
    forall j | 0 <= j < |r| ensures r[j] in folders && |r[j]| > |p| {
      assert r[j] in r;
      assert r[j] in xs[..i];
      assert IsChildPath(p, r[j]);
    }
  }

  lemma RootsReady(folders: set<string>, i: nat)
    requires i <= |SortedPaths(folders)|
    ensures ForestReady(folders, Filter(SortedPaths(folders)[..i], IsRootPath), -1)
  {
    var xs := SortedPaths(folders);
    var r := Filter(xs[..i], IsRootPath);
    forall j | 0 <= j < |r| ensures r[j] in folders {
      assert r[j] in r;
      assert r[j] in xs[..i];
    }
  }

  /** The children `build_tree` lists for `p`, in sorted order. */
  function ChildPaths(folders: set<string>, p: string): (r: seq<string>)
    ensures forall i :: 0 <= i < |r| ==> r[i] in folders && IsChildPath(p, r[i]) && |r[i]| > |p|
  {
    var r := Filter(SortedPaths(folders), KeepChild(p));
    assert forall i :: 0 <= i < |r| ==> r[i] in r;
    r
  }

  function RootPaths(folders: set<string>): (r: seq<string>)
    ensures forall i :: 0 <= i < |r| ==> r[i] in folders
  {
    var r := Filter(SortedPaths(folders), IsRootPath);
    assert forall i :: 0 <= i < |r| ==> r[i] in r;
    r
  }

  /** A folder's node: its `folder_dict` entry with the subtree below it. */
  function Subtree(folders: set<string>, describe: string -> FolderInfo, p: string): FolderNode
    requires p in folders
    decreases MaxLen(SortedPaths(folders)) - |p|, 1
  {
    var info := describe(p);
    assert p in SortedPaths(folders);
    FolderNode(info.name, p, info.isLeaf, info.canDelete, Forest(folders, describe, ChildPaths(folders, p), |p|))
  }

  /** The nodes of a list of folders longer than `parentLen`, one per path. */
  function Forest(folders: set<string>, describe: string -> FolderInfo, ps: seq<string>, parentLen: int): (r: seq<FolderNode>)
    requires ForestReady(folders, ps, parentLen)
    decreases MaxLen(SortedPaths(folders)) - parentLen, 0
    ensures |r| == |ps|
  {
    MapNodes(ps, p requires p in folders && |p| > parentLen =>
      assert p in SortedPaths(folders);
      Subtree(folders, describe, p))
  }

  /** `[node(p) for p in ps]`. */
  function MapNodes(ps: seq<string>, node: string --> FolderNode): (r: seq<FolderNode>)
    requires forall i :: 0 <= i < |ps| ==> node.requires(ps[i])
    ensures |r| == |ps|
  {
    if |ps| == 0 then [] else [node(ps[0])] + MapNodes(ps[1..], node)
  }

  lemma {:induction false} MapNodesAt(ps: seq<string>, node: string --> FolderNode, i: nat)
    requires forall i :: 0 <= i < |ps| ==> node.requires(ps[i])
    requires i < |ps|
    ensures MapNodes(ps, node)[i] == node(ps[i])
  {
    if i > 0 {
      assert ps[1..][i - 1] == ps[i];
      MapNodesAt(ps[1..], node, i - 1);
    }
  }

  lemma {:induction false} MapNodesSnoc(ps: seq<string>, node: string --> FolderNode, f: string)
    requires forall i :: 0 <= i < |ps| ==> node.requires(ps[i])
    requires node.requires(f)
    ensures MapNodes(ps + [f], node) == MapNodes(ps, node) + [node(f)]
  {
    if |ps| > 0 {
      assert (ps + [f])[1..] == ps[1..] + [f];
      MapNodesSnoc(ps[1..], node, f);
    }
  }

  /** The returned tree: one node per root path, each with its subtree. */
  function Tree(folders: set<string>, withFiles: set<string>): seq<FolderNode>
  {
    Forest(folders, Describe(folders, withFiles), RootPaths(folders), -1)
  }

  lemma ForestCons(folders: set<string>, describe: string -> FolderInfo, ps: seq<string>, parentLen: int)
    requires |ps| > 0 && ForestReady(folders, ps, parentLen)
    ensures ForestReady(folders, ps[1..], parentLen)
    ensures Forest(folders, describe, ps, parentLen) ==
            [Subtree(folders, describe, ps[0])] + Forest(folders, describe, ps[1..], parentLen)
  {
  }

  /** The `i`-th node of a forest is the subtree of the `i`-th path. */
  lemma ForestAt(folders: set<string>, describe: string -> FolderInfo, ps: seq<string>,
                 parentLen: int, i: nat)
    requires ForestReady(folders, ps, parentLen) && i < |ps|
    ensures Forest(folders, describe, ps, parentLen)[i] == Subtree(folders, describe, ps[i])
  {
    MapNodesAt(ps, p requires p in folders && |p| > parentLen =>
      assert p in SortedPaths(folders);
      Subtree(folders, describe, p), i);
  }

  lemma ForestSnoc(folders: set<string>, describe: string -> FolderInfo, ps: seq<string>, f: string, parentLen: int)
    requires ForestReady(folders, ps, parentLen)
    requires f in folders && |f| > parentLen
    ensures ForestReady(folders, ps + [f], parentLen)
    ensures Forest(folders, describe, ps + [f], parentLen) ==
            Forest(folders, describe, ps, parentLen) + [Subtree(folders, describe, f)]
  {
    ReadySnoc(folders, ps, f, parentLen);
    MapNodesSnoc(ps, p requires p in folders && |p| > parentLen =>
      assert p in SortedPaths(folders);
      Subtree(folders, describe, p), f);
  }

  lemma ReadySnoc(folders: set<string>, ps: seq<string>, f: string, parentLen: int)
    requires ForestReady(folders, ps, parentLen)
    requires f in folders && |f| > parentLen
    ensures ForestReady(folders, ps + [f], parentLen)
  {
    var ext := ps + [f];
    forall j | 0 <= j < |ext| ensures ext[j] in folders && |ext[j]| > parentLen {
      if j < |ps| {
        assert ext[j] == ps[j];
      }
    }
  }

  /** `build_tree(p)`: the loop over the sorted folders collecting those
      directly below `p`, each with its own subtree. */
  method BuildTree(folders: set<string>, ghost describe: string -> FolderInfo, sorted: seq<string>,
                   info: map<string, FolderInfo>, p: string)
    returns (children: seq<FolderNode>)
    requires sorted == SortedPaths(folders) && p in folders
    requires InfoMatches(info, folders, describe)
    ensures children == Forest(folders, describe, ChildPaths(folders, p), |p|)
    decreases MaxLen(sorted) - |p|, 1
  {
    children := [];
    BuiltStart(folders, describe, sorted, p);
    for i := 0 to |sorted|
      invariant Built(folders, describe, sorted, p, i, children)
    {
      children := VisitFolder(folders, describe, sorted, info, p, i, children);
    }
    ChildrenDone(folders, describe, sorted, p, children);
  }

  lemma BuiltStart(folders: set<string>, describe: string -> FolderInfo, sorted: seq<string>, p: string)
    ensures Built(folders, describe, sorted, p, 0, [])
  {
    assert sorted[..0] == [];
  }

  /** The loop state of `build_tree` after the first `i` sorted folders. */
  ghost predicate Built(folders: set<string>, describe: string -> FolderInfo, sorted: seq<string>, p: string, i: nat, children: seq<FolderNode>)
  {
    i <= |sorted| && ForestReady(folders, Filter(sorted[..i], KeepChild(p)), |p|)
    && children == Forest(folders, describe, Filter(sorted[..i], KeepChild(p)), |p|)
  }

  /** One pass of the loop in `build_tree`: `sorted[i]` is appended with its
      subtree when it lies directly below `p`. */
  method VisitFolder(folders: set<string>, ghost describe: string -> FolderInfo, sorted: seq<string>,
                     info: map<string, FolderInfo>, p: string, i: nat, children: seq<FolderNode>)
    returns (r: seq<FolderNode>)
    requires sorted == SortedPaths(folders) && p in folders && i < |sorted|
    requires InfoMatches(info, folders, describe)
    requires Built(folders, describe, sorted, p, i, children)
    ensures Built(folders, describe, sorted, p, i + 1, r)
    decreases MaxLen(sorted) - |p|, 0
  {
    ChildrenReady(folders, p, i + 1);
    var prefix := if p != "" then p + "/" else "";
    var f := sorted[i];
    FilterSnoc(sorted, i, KeepChild(p));
    ChildTest(p, f);
    r := children;
    if f != p && Strs.StartsWith(f, prefix) && '/' !in f[|prefix|..] {
      assert Filter(sorted[..i + 1], KeepChild(p)) == Filter(sorted[..i], KeepChild(p)) + [f];
      assert f in sorted;
      var sub := BuildTree(folders, describe, sorted, info, f);
      NodeIsSubtree(folders, describe, info, f, sub);
      r := AppendNode(folders, describe, children, Filter(sorted[..i], KeepChild(p)), f, |p|,
                      FolderNode(info[f].name, f, info[f].isLeaf, info[f].canDelete, sub));
    } else {
      assert Filter(sorted[..i + 1], KeepChild(p)) == Filter(sorted[..i], KeepChild(p));
    }
  }

  lemma ChildrenDone(folders: set<string>, describe: string -> FolderInfo, sorted: seq<string>, p: string, children: seq<FolderNode>)
    requires sorted == SortedPaths(folders)
    requires Built(folders, describe, sorted, p, |sorted|, children)
    ensures children == Forest(folders, describe, ChildPaths(folders, p), |p|)
  {
    assert sorted[..|sorted|] == sorted;
  }

  /** The test `build_tree` makes is `IsChildPath`. */
  lemma ChildTest(p: string, f: string)
    ensures KeepChild(p)(f) <==>
      f != p && Strs.StartsWith(f, if p != "" then p + "/" else "") && '/' !in f[|if p != "" then p + "/" else ""|..]
  {
  }

  lemma NodeIsSubtree(folders: set<string>, describe: string -> FolderInfo, info: map<string, FolderInfo>, f: string, sub: seq<FolderNode>)
    requires f in folders && InfoMatches(info, folders, describe)
    requires sub == Forest(folders, describe, ChildPaths(folders, f), |f|)
    ensures f in info && FolderNode(info[f].name, f, info[f].isLeaf, info[f].canDelete, sub) == Subtree(folders, describe, f)
  {
  }

  /** `children.append(folder_info)`, which extends the forest by the subtree of `f`. */
  method AppendNode(folders: set<string>, ghost describe: string -> FolderInfo, children: seq<FolderNode>,
                    ghost before: seq<string>, f: string, parentLen: int, node: FolderNode)
    returns (r: seq<FolderNode>)
    requires ForestReady(folders, before, parentLen) && ForestReady(folders, before + [f], parentLen)
    requires f in folders && |f| > parentLen
    requires children == Forest(folders, describe, before, parentLen)
    requires node == Subtree(folders, describe, f)
    ensures r == Forest(folders, describe, before + [f], parentLen)
  {
    ForestSnoc(folders, describe, before, f, parentLen);
    r := children + [node];
  }

  /** `get_folder_tree`. */
  method GetFolderTree(keys: seq<string>) returns (tree: seq<FolderNode>)
    ensures tree == Tree(Folders(keys), WithFiles(keys))
  {
    var all, withFiles := CollectFolders(keys);
    var sorted := SortedPaths(all);
    var info := DescribeFolders(sorted, all, withFiles);
    ghost var describe := Describe(all, withFiles);
    tree := [];
    RootsStart(all, describe, sorted);
    for i := 0 to |sorted|
      invariant RootsBuilt(all, describe, sorted, i, tree)
    {
      tree := VisitRoot(all, describe, sorted, info, i, tree);
    }
    RootsDone(all, describe, sorted, tree);
  }

  /** The loop state of `get_folder_tree` after the first `i` sorted folders. */
  ghost predicate RootsBuilt(folders: set<string>, describe: string -> FolderInfo, sorted: seq<string>, i: nat, tree: seq<FolderNode>)
  {
    i <= |sorted| && ForestReady(folders, Filter(sorted[..i], IsRootPath), -1)
    && tree == Forest(folders, describe, Filter(sorted[..i], IsRootPath), -1)
  }

  lemma RootsStart(folders: set<string>, describe: string -> FolderInfo, sorted: seq<string>)
    ensures RootsBuilt(folders, describe, sorted, 0, [])
  {
    assert sorted[..0] == [];
  }

  /** One pass of the loop over root folders: `sorted[i]` is appended with its
      subtree when it has no '/'. */
  method VisitRoot(folders: set<string>, ghost describe: string -> FolderInfo, sorted: seq<string>,
                   info: map<string, FolderInfo>, i: nat, tree: seq<FolderNode>)
    returns (r: seq<FolderNode>)
    requires sorted == SortedPaths(folders) && i < |sorted|
    requires InfoMatches(info, folders, describe)
    requires RootsBuilt(folders, describe, sorted, i, tree)
    ensures RootsBuilt(folders, describe, sorted, i + 1, r)
  {
    RootsReady(folders, i + 1);
    var f := sorted[i];
    FilterSnoc(sorted, i, IsRootPath);
    r := tree;
    if '/' !in f {
      assert Filter(sorted[..i + 1], IsRootPath) == Filter(sorted[..i], IsRootPath) + [f];
      assert f in sorted;
      var sub := BuildTree(folders, describe, sorted, info, f);
      NodeIsSubtree(folders, describe, info, f, sub);
      r := AppendNode(folders, describe, tree, Filter(sorted[..i], IsRootPath), f, -1,
                      FolderNode(info[f].name, f, info[f].isLeaf, info[f].canDelete, sub));
    } else {
      assert Filter(sorted[..i + 1], IsRootPath) == Filter(sorted[..i], IsRootPath);
    }
  }

  lemma RootsDone(folders: set<string>, describe: string -> FolderInfo, sorted: seq<string>, tree: seq<FolderNode>)
    requires sorted == SortedPaths(folders)
    requires RootsBuilt(folders, describe, sorted, |sorted|, tree)
    ensures tree == Forest(folders, describe, RootPaths(folders), -1)
  {
    assert sorted[..|sorted|] == sorted;
  }

  // ----- every folder exactly once -----

  /** The paths of a node and of every node below it, in tree order. */
  function NodePaths(n: FolderNode): seq<string>
  {
    [n.path] + ForestPaths(n.children)
  }

  function ForestPaths(ns: seq<FolderNode>): seq<string>
  {
    if |ns| == 0 then [] else NodePaths(ns[0]) + ForestPaths(ns[1..])
  }

  /** `x` is `c` or lies below it. */
  predicate Below(c: string, x: string)
  {
    x == c || Strs.StartsWith(x, c + "/")
  }

  ghost function BelowSet(folders: set<string>, c: string): set<string>
  {
    set x | x in folders && Below(c, x)
  }

  ghost function BelowAny(folders: set<string>, ps: seq<string>): set<string>
  {
    if |ps| == 0 then {} else BelowSet(folders, ps[0]) + BelowAny(folders, ps[1..])
  }

  lemma {:induction false} BelowAnyMembers(folders: set<string>, ps: seq<string>, x: string)
    ensures x in BelowAny(folders, ps) <==> x in folders && exists i :: 0 <= i < |ps| && Below(ps[i], x)
  {
    if |ps| > 0 {
      BelowAnyMembers(folders, ps[1..], x);
      if exists i :: 0 <= i < |ps| && Below(ps[i], x) {
        var i :| 0 <= i < |ps| && Below(ps[i], x);
        if i > 0 {
          assert ps[1..][i - 1] == ps[i];
        }
      }
      if exists i :: 0 <= i < |ps| - 1 && Below(ps[1..][i], x) {
        var i :| 0 <= i < |ps| - 1 && Below(ps[1..][i], x);
        assert ps[i + 1] == ps[1..][i];
      }
    }
  }

  /** Folders directly below the same prefix, with no '/' after it. */
  predicate Siblings(pre: string, ps: seq<string>)
  {
    forall i :: 0 <= i < |ps| ==> Strs.StartsWith(ps[i], pre) && '/' !in ps[i][|pre|..]
  }

  predicate Distinct(ps: seq<string>)
  {
    forall i, j :: 0 <= i < j < |ps| ==> ps[i] != ps[j]
  }

  /** Two siblings never have a common path below them. */
  lemma SiblingsApart(pre: string, c1: string, c2: string, x: string)
    requires Strs.StartsWith(c1, pre) && '/' !in c1[|pre|..]
    requires Strs.StartsWith(c2, pre) && '/' !in c2[|pre|..]
    requires Below(c1, x) && Below(c2, x)
    ensures c1 == c2
  {
    assert x[..|c1|] == c1;
    assert x[..|c2|] == c2;
    if |c1| < |c2| {
      SlashAfter(c1, c2, x);
    } else if |c2| < |c1| {
      SlashAfter(c2, c1, x);
    }
  }

  lemma SlashAfter(c1: string, c2: string, x: string)
    requires Below(c1, x) && Strs.StartsWith(x, c2) && |c1| < |c2|
    ensures c2[|c1|] == '/'
  {
    assert x != c1;
    assert x[..|c1| + 1] == c1 + "/";
    assert c2[|c1|] == x[|c1|];
  }

  lemma MultisetOfUnion(a: set<string>, b: set<string>)
    requires a !! b
    ensures multiset(a + b) == multiset(a) + multiset(b)
  {
    assert forall x :: multiset(a + b)[x] == (multiset(a) + multiset(b))[x];
  }

  /** The paths in the forest of a list of siblings are the folders below
      them, each once. */
  lemma {:induction false} ForestPathsOnce(folders: set<string>, describe: string -> FolderInfo, ps: seq<string>,
                                          parentLen: int, pre: string)
    requires AncestorClosed(folders) && "" !in folders
    requires ForestReady(folders, ps, parentLen) && Siblings(pre, ps) && Distinct(ps)
    ensures multiset(ForestPaths(Forest(folders, describe, ps, parentLen))) == multiset(BelowAny(folders, ps))
    decreases MaxLen(SortedPaths(folders)) - parentLen, 0, |ps|
  {
    if |ps| > 0 {
      var rest := ps[1..];
      assert ps[0] in SortedPaths(folders);
      SiblingsTail(folders, ps, parentLen, pre);
      ForestUnfold(folders, describe, ps, parentLen);
      SubtreePathsOnce(folders, describe, ps[0]);
      ForestPathsOnce(folders, describe, rest, parentLen, pre);
      HeadApart(folders, ps, pre);
      MultisetOfUnion(BelowSet(folders, ps[0]), BelowAny(folders, rest));
    }
  }

  lemma SiblingsTail(folders: set<string>, ps: seq<string>, parentLen: int, pre: string)
    requires |ps| > 0 && ForestReady(folders, ps, parentLen) && Siblings(pre, ps) && Distinct(ps)
    ensures ForestReady(folders, ps[1..], parentLen) && Siblings(pre, ps[1..]) && Distinct(ps[1..])
  {
    forall i | 0 <= i < |ps| - 1 ensures ps[1..][i] == ps[i + 1] {
    }
  }

  lemma ForestUnfold(folders: set<string>, describe: string -> FolderInfo, ps: seq<string>, parentLen: int)
    requires |ps| > 0 && ForestReady(folders, ps, parentLen)
    ensures ForestReady(folders, ps[1..], parentLen)
    ensures ForestPaths(Forest(folders, describe, ps, parentLen)) ==
            NodePaths(Subtree(folders, describe, ps[0])) + ForestPaths(Forest(folders, describe, ps[1..], parentLen))
  {
    ForestCons(folders, describe, ps, parentLen);
    PathsCons(Subtree(folders, describe, ps[0]), Forest(folders, describe, ps[1..], parentLen));
  }

  lemma PathsCons(n: FolderNode, ns: seq<FolderNode>)
    ensures ForestPaths([n] + ns) == NodePaths(n) + ForestPaths(ns)
  {
    assert ([n] + ns)[1..] == ns;
  }

  lemma HeadApart(folders: set<string>, ps: seq<string>, pre: string)
    requires |ps| > 0 && Siblings(pre, ps) && Distinct(ps)
    ensures BelowSet(folders, ps[0]) !! BelowAny(folders, ps[1..])
  {
    var rest := ps[1..];
    forall x | x in BelowSet(folders, ps[0]) && x in BelowAny(folders, rest) ensures false {
      BelowAnyMembers(folders, rest, x);
      var i :| 0 <= i < |rest| && Below(rest[i], x);
      assert rest[i] == ps[i + 1];
      SiblingsApart(pre, ps[0], rest[i], x);
    }
  }

  /** The folders strictly below `p`. */
  ghost function StrictlyBelow(folders: set<string>, p: string): set<string>
  {
    set x | x in folders && Strs.StartsWith(x, p + "/")
  }

  lemma BelowSplit(folders: set<string>, p: string)
    requires p in folders
    ensures BelowSet(folders, p) == {p} + StrictlyBelow(folders, p) && p !in StrictlyBelow(folders, p)
  {
  }

  lemma SubtreeUnfold(folders: set<string>, describe: string -> FolderInfo, p: string)
    requires p in folders
    ensures NodePaths(Subtree(folders, describe, p)) ==
            [p] + ForestPaths(Forest(folders, describe, ChildPaths(folders, p), |p|))
  {
  }

  /** The paths in the subtree of `p` are the folders below `p`, each once. */
  lemma {:induction false} SubtreePathsOnce(folders: set<string>, describe: string -> FolderInfo, p: string)
    requires AncestorClosed(folders) && "" !in folders && p in folders
    ensures multiset(NodePaths(Subtree(folders, describe, p))) == multiset(BelowSet(folders, p))
    decreases MaxLen(SortedPaths(folders)) - |p|, 1
  {
    var kids := ChildPaths(folders, p);
    assert p in SortedPaths(folders);
    ChildrenApart(folders, p);
    ForestPathsOnce(folders, describe, kids, |p|, ChildPrefix(p));
    ChildCover(folders, p);
    SubtreeUnfold(folders, describe, p);
    BelowSplit(folders, p);
    ConsMultiset(p, ForestPaths(Forest(folders, describe, kids, |p|)), StrictlyBelow(folders, p));
  }

  lemma ConsMultiset(p: string, rest: seq<string>, s: set<string>)
    requires p !in s && multiset(rest) == multiset(s)
    ensures multiset([p] + rest) == multiset({p} + s)
  {
    MultisetOfUnion({p}, s);
  }

  lemma ChildrenApart(folders: set<string>, p: string)
    ensures Siblings(ChildPrefix(p), ChildPaths(folders, p)) && Distinct(ChildPaths(folders, p))
  {
    FilterSorted(SortedPaths(folders), KeepChild(p));
  }

  lemma RootsApart(folders: set<string>)
    ensures Siblings("", RootPaths(folders)) && Distinct(RootPaths(folders))
  {
    FilterSorted(SortedPaths(folders), IsRootPath);
    var r := RootPaths(folders);
    forall i | 0 <= i < |r| ensures '/' !in r[i] {
      assert r[i] in r;
    }
  }

  /** Every folder strictly below `p` lies below one of the children of `p`. */
  lemma ChildCover(folders: set<string>, p: string)
    requires AncestorClosed(folders) && p in folders && p != ""
    ensures BelowAny(folders, ChildPaths(folders, p)) == StrictlyBelow(folders, p)
  {
    forall x
      ensures x in BelowAny(folders, ChildPaths(folders, p)) <==> x in StrictlyBelow(folders, p)
    {
      BelowAnyMembers(folders, ChildPaths(folders, p), x);
      ChildCoverBelow(p, ChildPaths(folders, p), x);
      if x in folders && Strs.StartsWith(x, p + "/") {
        ChildCoverFound(folders, p, x);
      }
    }
  }

  lemma ChildCoverBelow(p: string, kids: seq<string>, x: string)
    requires p != "" && forall i :: 0 <= i < |kids| ==> IsChildPath(p, kids[i])
    ensures (exists i :: 0 <= i < |kids| && Below(kids[i], x)) ==> Strs.StartsWith(x, p + "/")
  {
    var pre := p + "/";
    if exists i :: 0 <= i < |kids| && Below(kids[i], x) {
      var i :| 0 <= i < |kids| && Below(kids[i], x);
      var c := kids[i];
      assert IsChildPath(p, c);
      BelowPrefix(c, x);
      PrefixOfPrefix(pre, c, x);
    }
  }

  lemma BelowPrefix(c: string, x: string)
    requires Below(c, x)
    ensures |c| <= |x| && x[..|c|] == c
  {
    if x != c {
      assert x[..|c|] == x[..|c| + 1][..|c|];
    }
  }

  lemma PrefixOfPrefix(pre: string, c: string, x: string)
    requires Strs.StartsWith(c, pre) && |c| <= |x| && x[..|c|] == c
    ensures Strs.StartsWith(x, pre)
  {
    assert x[..|pre|] == x[..|c|][..|pre|];
  }

  lemma ChildCoverFound(folders: set<string>, p: string, x: string)
    requires AncestorClosed(folders) && p != "" && x in folders && Strs.StartsWith(x, p + "/")
    ensures exists i :: 0 <= i < |ChildPaths(folders, p)| && Below(ChildPaths(folders, p)[i], x)
  {
    var kids := ChildPaths(folders, p);
    var c := ChildOf(p + "/", x);
    assert IsChildPath(p, c);
    assert c in SortedPaths(folders);
    assert c in kids;
    var i :| 0 <= i < |kids| && kids[i] == c;
  }

  /** The child of the folder ending at `pre` that `x` lies below. */
  function ChildOf(pre: string, x: string): (c: string)
    requires Strs.StartsWith(x, pre)
    ensures Strs.StartsWith(c, pre) && '/' !in c[|pre|..] && Below(c, x)
    ensures c == x || x[|c|] == '/'
  {
    var k := Strs.IndexOf(x[|pre|..], '/');
    if k < 0 then x
    else
      var c := x[..|pre| + k];
      assert c[|pre|..] == x[|pre|..][..k];
      assert x[..|c| + 1] == c + "/";
      c
  }

  /** Every folder lies below one of the roots. */
  lemma RootCover(folders: set<string>)
    requires AncestorClosed(folders)
    ensures BelowAny(folders, RootPaths(folders)) == folders
  {
    forall x
      ensures x in BelowAny(folders, RootPaths(folders)) <==> x in folders
    {
      BelowAnyMembers(folders, RootPaths(folders), x);
      if x in folders {
        RootFound(folders, x);
      }
    }
  }

  lemma RootFound(folders: set<string>, x: string)
    requires AncestorClosed(folders) && x in folders
    ensures exists i :: 0 <= i < |RootPaths(folders)| && Below(RootPaths(folders)[i], x)
  {
    var roots := RootPaths(folders);
    var r := ChildOf("", x);
    assert r[0..] == r;
    BelowPrefix(r, x);
    assert r in folders;
    assert r in SortedPaths(folders);
    assert r in roots;
    var i :| 0 <= i < |roots| && roots[i] == r;
  }

  /** Without an empty folder name the returned tree holds every folder
      exactly once. */
  lemma TreeHoldsEachOnce(folders: set<string>, withFiles: set<string>)
    requires AncestorClosed(folders) && "" !in folders
    ensures multiset(ForestPaths(Tree(folders, withFiles))) == multiset(folders)
  {
    RootsApart(folders);
    ForestPathsOnce(folders, Describe(folders, withFiles), RootPaths(folders), -1, "");
    RootCover(folders);
  }

  /** `get_folder_tree` lists each detected folder exactly once, provided no key
      starts with "PDF//". */
  lemma EveryFolderOnce(keys: seq<string>)
    requires forall k :: 0 <= k < |keys| ==> !Strs.StartsWith(keys[k], "PDF//")
    ensures forall x :: multiset(ForestPaths(Tree(Folders(keys), WithFiles(keys))))[x] ==
                        if x in Folders(keys) then 1 else 0
  {
    FoldersClosed(keys);
    if "" in Folders(keys) {
      EmptyFolderNeedsEmptySegment(keys);
    }
    TreeHoldsEachOnce(Folders(keys), WithFiles(keys));
  }

  /** The children `build_tree` lists for `p` are exactly the folders directly
      below it, in ascending order. */
  lemma ChildPathsExact(folders: set<string>, p: string, x: string)
    ensures x in ChildPaths(folders, p) <==> x in folders && IsChildPath(p, x)
    ensures StrictlySorted(ChildPaths(folders, p))
  {
    FilterSorted(SortedPaths(folders), KeepChild(p));
  }

  /** The roots are exactly the folders without '/', in ascending order. */
  lemma RootPathsExact(folders: set<string>, x: string)
    ensures x in RootPaths(folders) <==> x in folders && '/' !in x
    ensures StrictlySorted(RootPaths(folders))
  {
    FilterSorted(SortedPaths(folders), IsRootPath);
  }

  lemma ForestPathsCons(ns: seq<FolderNode>, x: string)
    requires |ns| > 0
    ensures multiset(ForestPaths(ns))[x] == multiset(NodePaths(ns[0]))[x] + multiset(ForestPaths(ns[1..]))[x]
  {
  }

  lemma {:induction false} NodePathsIn(ns: seq<FolderNode>, i: nat, x: string)
    requires i < |ns|
    ensures multiset(NodePaths(ns[i]))[x] <= multiset(ForestPaths(ns))[x]
  {
    ForestPathsCons(ns, x);
    if i > 0 {
      assert ns[1..][i - 1] == ns[i];
      NodePathsIn(ns[1..], i - 1, x);
    }
  }

  /** As written, a folder named "" (from a key starting with "PDF//") is itself
      a root whose children are computed with the prefix "", so every other
      root is listed a second time below it. */
  lemma EmptyFolderRepeatsRoots(folders: set<string>, withFiles: set<string>, r: string)
    requires "" in folders && r in folders && r != "" && '/' !in r
    ensures multiset(ForestPaths(Tree(folders, withFiles)))[r] >= 2
  {
    var roots := RootPaths(folders);
    var describe := Describe(folders, withFiles);
    EmptyFirstRoot(folders);
    RootPathsExact(folders, r);
    var j :| 0 <= j < |roots| && roots[j] == r;
    var top := Forest(folders, describe, roots, -1);
    ForestAt(folders, describe, roots, -1, 0);
    ForestAt(folders, describe, roots, -1, j);
    EmptyRootHolds(folders, describe, r);
    SubtreeHoldsRoot(folders, describe, r);
    LaterNodeCounts(top, j, r);
  }

  /** The folder "" sorts first among the roots. */
  lemma EmptyFirstRoot(folders: set<string>)
    requires "" in folders
    ensures |RootPaths(folders)| > 0 && RootPaths(folders)[0] == ""
  {
    var roots := RootPaths(folders);
    RootPathsExact(folders, "");
    var i :| 0 <= i < |roots| && roots[i] == "";
    if i > 0 {
      NotEmptyAfterFirst(roots, i);
    }
  }

  lemma NotEmptyAfterFirst(xs: seq<string>, i: nat)
    requires StrictlySorted(xs) && 0 < i < |xs|
    ensures xs[i] != ""
  {
    assert Order.LexLe(xs[0], xs[i]) && xs[0] != xs[i];
  }

  /** The first node of a forest and a later one both add their occurrences of `x`. */
  lemma LaterNodeCounts(ns: seq<FolderNode>, j: nat, x: string)
    requires 0 < j < |ns|
    ensures multiset(NodePaths(ns[0]))[x] + multiset(NodePaths(ns[j]))[x] <= multiset(ForestPaths(ns))[x]
  {
    ForestPathsCons(ns, x);
    assert ns[1..][j - 1] == ns[j];
    NodePathsIn(ns[1..], j - 1, x);
  }

  lemma SubtreeHoldsRoot(folders: set<string>, describe: string -> FolderInfo, p: string)
    requires p in folders
    ensures multiset(NodePaths(Subtree(folders, describe, p)))[p] >= 1
  {
    SubtreeUnfold(folders, describe, p);
  }

  /** The subtree of the folder "" holds every other root. */
  lemma EmptyRootHolds(folders: set<string>, describe: string -> FolderInfo, r: string)
    requires "" in folders && r in folders && r != "" && '/' !in r
    ensures multiset(NodePaths(Subtree(folders, describe, "")))[r] >= 1
  {
    var kids := ChildPaths(folders, "");
    assert IsChildPath("", r);
    ChildPathsExact(folders, "", r);
    var k :| 0 <= k < |kids| && kids[k] == r;
    var below := Forest(folders, describe, kids, 0);
    ForestAt(folders, describe, kids, 0, k);
    NodePathsIn(below, k, r);
    SubtreeHoldsRoot(folders, describe, r);
    SubtreeUnfold(folders, describe, "");
  }
}
