/** The folder-management lambda: the folder tree annotated with each
    folder's registration, the registered-only view of that tree, folder
    creation and deletion through `.folder_marker` keys, upload-name
    validation and upload targets, and the batch of processing items for
    an upload (backend/folder_management_lambda.py). The bucket listing,
    the folder-config table and the presigner are parameters. */
module FolderManagement {
  import opened Wrappers
  import Strs
  import FolderTree

  type FolderNode = FolderTree.FolderNode

  /** A folder-config item: the job ids registered for one folder. */
  datatype FolderConfig = FolderConfig(defaultJobId: Option<string>, latestJobId: Option<string>)

  /** The folder-config table, keyed by folder path; `None` when the
      lambda has no table configured. */
  type ConfigTable = Option<map<string, FolderConfig>>

  /** `registered_folders`: each registered path with its `default_job_id`. */
  function Registry(table: ConfigTable): map<string, Option<string>>
  {
    if table.None? then map[] else map p | p in table.value :: table.value[p].defaultJobId
  }

  // ----- folder objects and their registration -----

  /** The two keys `add_registration_status` sets on a folder object. */
  datatype Registration = Registration(isRegistered: bool, defaultJobId: Option<string>)

  /** A folder object of the tree; `registration` is `None` while the
      object has neither `is_registered` nor `default_job_id`. */
  datatype Folder = Folder(name: string, path: string, isLeaf: bool, canDelete: bool,
                           registration: Option<Registration>, children: seq<Folder>)

  /** A node of the helper's tree as a folder object without registration keys. */
  function FromNode(n: FolderNode): Folder
    decreases n
  {
    Folder(n.name, n.path, n.isLeaf, n.canDelete, None,
           seq(|n.children|, i requires 0 <= i < |n.children| => FromNode(n.children[i])))
  }

  /** A folder object without its registration keys. */
  function Plain(f: Folder): FolderNode
    decreases f
  {
    FolderTree.FolderNode(f.name, f.path, f.isLeaf, f.canDelete,
                          seq(|f.children|, i requires 0 <= i < |f.children| => Plain(f.children[i])))
  }

  lemma {:induction false} PlainFromNode(n: FolderNode)
    ensures Plain(FromNode(n)) == n
    decreases n
  {
    forall i | 0 <= i < |n.children| {
      PlainFromNode(n.children[i]);
    }
  }

  /** The registration a folder at `p` receives. */
  function StatusFor(reg: map<string, Option<string>>, p: string): Registration
  {
    if p in reg then Registration(true, reg[p]) else Registration(false, None)
  }

  /** Every node of `f` carries the registration of its own path. */
  predicate Marked(f: Folder, reg: map<string, Option<string>>)
    decreases f
  {
    f.registration == Some(StatusFor(reg, f.path)) &&
    forall i :: 0 <= i < |f.children| ==> Marked(f.children[i], reg)
  }

  /** `add_registration_status(f, reg)`: `f` after the recursive update. */
  function WithStatus(f: Folder, reg: map<string, Option<string>>): Folder
    decreases f
  {
    Folder(f.name, f.path, f.isLeaf, f.canDelete, Some(StatusFor(reg, f.path)),
           seq(|f.children|, i requires 0 <= i < |f.children| => WithStatus(f.children[i], reg)))
  }

  /** The recursive update, child by child as the source loops over them. */
  method AddRegistrationStatus(f: Folder, reg: map<string, Option<string>>) returns (r: Folder)
    ensures r == WithStatus(f, reg)
    decreases f
  {
    var children: seq<Folder> := [];
    var i := 0;
    while i < |f.children|
      invariant 0 <= i <= |f.children| && |children| == i
      invariant forall j :: 0 <= j < i ==> children[j] == WithStatus(f.children[j], reg)
    {
      var c := AddRegistrationStatus(f.children[i], reg);
      children := children + [c];
      i := i + 1;
    }
    r := Folder(f.name, f.path, f.isLeaf, f.canDelete, Some(StatusFor(reg, f.path)), children);
  }

  /** Every node gets `is_registered` = (path is registered) and the
      registered default job id (or None). */
  lemma {:induction false} WithStatusMarks(f: Folder, reg: map<string, Option<string>>)
    ensures Marked(WithStatus(f, reg), reg)
    decreases f
  {
    forall i | 0 <= i < |f.children| {
      WithStatusMarks(f.children[i], reg);
    }
  }

  /** Name, path, `is_leaf`, `can_delete` and the shape are untouched. */
  lemma {:induction false} WithStatusKeepsRest(f: Folder, reg: map<string, Option<string>>)
    ensures Plain(WithStatus(f, reg)) == Plain(f)
    decreases f
  {
    forall i | 0 <= i < |f.children| {
      WithStatusKeepsRest(f.children[i], reg);
    }
  }

  /** The update is the only marked tree with `f`'s other fields. */
  lemma {:induction false} WithStatusUnique(f: Folder, g: Folder, reg: map<string, Option<string>>)
    requires Marked(g, reg) && Plain(g) == Plain(f)
    ensures g == WithStatus(f, reg)
    decreases f
  {
    assert |g.children| == |Plain(g).children| == |f.children|;
    forall i | 0 <= i < |f.children|
      ensures g.children[i] == WithStatus(f.children[i], reg)
    {
      assert Plain(g.children[i]) == Plain(g).children[i] == Plain(f.children[i]);
      WithStatusUnique(f.children[i], g.children[i], reg);
    }
  }

  /** A marked tree is left as it is, so the update is idempotent. */
  lemma WithStatusOfMarked(g: Folder, reg: map<string, Option<string>>)
    requires Marked(g, reg)
    ensures WithStatus(g, reg) == g
  {
    WithStatusUnique(g, g, reg);
  }

  // ----- the annotated tree -----

  /** `get_folder_tree_with_registration_status`: the helper's tree with
      every root annotated; without a table nothing is registered. */
  function AnnotatedTree(keys: seq<string>, table: ConfigTable): seq<Folder>
  {
    AnnotateRoots(FolderTree.Tree(FolderTree.Folders(keys), FolderTree.WithFiles(keys)), Registry(table))
  }

  /** Each root of the helper's tree, annotated. */
  function AnnotateRoots(t: seq<FolderNode>, reg: map<string, Option<string>>): seq<Folder>
  {
    seq(|t|, i requires 0 <= i < |t| => WithStatus(FromNode(t[i]), reg))
  }

  method GetFolderTreeWithRegistrationStatus(keys: seq<string>, table: ConfigTable) returns (folders: seq<Folder>)
    ensures folders == AnnotatedTree(keys, table)
  {
    var t := FolderTree.GetFolderTree(keys);
    folders := AnnotateEach(t, Registry(table));
  }

  /** The loop of `add_registration_status` calls over the roots. */
  method AnnotateEach(t: seq<FolderNode>, reg: map<string, Option<string>>) returns (folders: seq<Folder>)
    ensures folders == AnnotateRoots(t, reg)
  {
    folders := [];
    for i := 0 to |t|
      invariant |folders| == i
      invariant forall j :: 0 <= j < i ==> folders[j] == WithStatus(FromNode(t[j]), reg)
    {
      var f := AddRegistrationStatus(FromNode(t[i]), reg);
      folders := folders + [f];
    }
  }

  /** The annotated tree is the helper's tree, node for node, with each
      node's registration read from the table. */
  lemma AnnotatedTreeFacts(keys: seq<string>, table: ConfigTable)
    ensures var t := FolderTree.Tree(FolderTree.Folders(keys), FolderTree.WithFiles(keys));
      |AnnotatedTree(keys, table)| == |t| &&
      forall i :: 0 <= i < |t| ==>
        Marked(AnnotatedTree(keys, table)[i], Registry(table)) && Plain(AnnotatedTree(keys, table)[i]) == t[i]
  {
    var t := FolderTree.Tree(FolderTree.Folders(keys), FolderTree.WithFiles(keys));
    forall i | 0 <= i < |t|
      ensures Marked(AnnotatedTree(keys, table)[i], Registry(table)) && Plain(AnnotatedTree(keys, table)[i]) == t[i]
    {
      WithStatusMarks(FromNode(t[i]), Registry(table));
      WithStatusKeepsRest(FromNode(t[i]), Registry(table));
      PlainFromNode(t[i]);
    }
  }

  // ----- the registered-only view -----

  /** The folder or one of its descendants is registered. */
  predicate AnyRegistered(f: Folder, reg: map<string, Option<string>>)
    decreases f
  {
    f.path in reg || exists i :: 0 <= i < |f.children| && AnyRegistered(f.children[i], reg)
  }

  /** `filter_registered_folders(f, reg)`: a marked copy of `f` whose
      children are the kept children, or None. */
  function Filtered(f: Folder, reg: map<string, Option<string>>): (r: Option<Folder>)
    ensures r.None? <==> !AnyRegistered(f, reg)
    decreases f
  {
    var kept := Kept(f.children, reg);
    if f.path in reg || kept != [] then
      Some(WithStatus(Folder(f.name, f.path, f.isLeaf, f.canDelete, f.registration, kept), reg))
    else None
  }

  /** The filtered folders of `cs` that survive, in order. */
  function Kept(cs: seq<Folder>, reg: map<string, Option<string>>): (r: seq<Folder>)
    ensures r == [] <==> forall i :: 0 <= i < |cs| ==> !AnyRegistered(cs[i], reg)
    decreases cs
  {
    if cs == [] then []
    else
      var last := cs[|cs| - 1];
      var r := Kept(cs[..|cs| - 1], reg) + (if Filtered(last, reg).Some? then [Filtered(last, reg).value] else []);
      assert forall i :: 0 <= i < |cs| - 1 ==> cs[..|cs| - 1][i] == cs[i];
      r
  }

  /** The recursive filter with its loop over the children. */
  method FilterRegisteredFolders(f: Folder, reg: map<string, Option<string>>) returns (r: Option<Folder>)
    ensures r == Filtered(f, reg)
    decreases f, 1
  {
    var kept := FilterAll(f.children, reg);
    if f.path in reg || kept != [] {
      var copy := Folder(f.name, f.path, f.isLeaf, f.canDelete, f.registration, kept);
      var marked := AddRegistrationStatus(copy, reg);
      r := Some(marked);
    } else {
      r := None;
    }
  }

  /** The loop that keeps the folders with a registered descendant. */
  method FilterAll(cs: seq<Folder>, reg: map<string, Option<string>>) returns (kept: seq<Folder>)
    ensures kept == Kept(cs, reg)
    decreases cs, 0
  {
    kept := [];
    var i := 0;
    while i < |cs|
      invariant 0 <= i <= |cs| && kept == Kept(cs[..i], reg)
    {
      var c := FilterRegisteredFolders(cs[i], reg);
      KeptSnoc(cs, i, reg);
      if c.Some? {
        kept := kept + [c.value];
      }
      i := i + 1;
    }
    assert cs[..i] == cs;
  }

  lemma KeptSnoc(cs: seq<Folder>, i: nat, reg: map<string, Option<string>>)
    requires i < |cs|
    ensures Kept(cs[..i + 1], reg) ==
      Kept(cs[..i], reg) + (if Filtered(cs[i], reg).Some? then [Filtered(cs[i], reg).value] else [])
  {
    assert cs[..i + 1][..i] == cs[..i];
  }

  /** Every kept folder is a marked filtered child. */
  lemma {:induction false} KeptFrom(cs: seq<Folder>, reg: map<string, Option<string>>, k: nat)
    requires k < |Kept(cs, reg)|
    ensures exists i :: 0 <= i < |cs| && Filtered(cs[i], reg) == Some(Kept(cs, reg)[k])
    ensures Marked(Kept(cs, reg)[k], reg)
    decreases cs
  {
    var front := cs[..|cs| - 1];
    var last := cs[|cs| - 1];
    if k < |Kept(front, reg)| {
      KeptFrom(front, reg, k);
      var i :| 0 <= i < |front| && Filtered(front[i], reg) == Some(Kept(front, reg)[k]);
      assert cs[i] == front[i];
    } else {
      assert Kept(cs, reg)[k] == Filtered(last, reg).value;
      FilteredMarked(last, reg);
    }
  }

  /** A filtered folder carries the registration of every node. */
  lemma FilteredMarked(f: Folder, reg: map<string, Option<string>>)
    requires Filtered(f, reg).Some?
    ensures Marked(Filtered(f, reg).value, reg)
  {
    var kept := Kept(f.children, reg);
    WithStatusMarks(Folder(f.name, f.path, f.isLeaf, f.canDelete, f.registration, kept), reg);
  }

  /** A kept node keeps its name, path, `is_leaf` and `can_delete`, gets
      its registration, and has exactly its kept children as children. */
  lemma FilteredShape(f: Folder, reg: map<string, Option<string>>)
    requires Filtered(f, reg).Some?
    ensures var g := Filtered(f, reg).value;
      g.name == f.name && g.path == f.path && g.isLeaf == f.isLeaf && g.canDelete == f.canDelete &&
      g.registration == Some(StatusFor(reg, f.path)) && g.children == Kept(f.children, reg)
  {
    var kept := Kept(f.children, reg);
    var g := Filtered(f, reg).value;
    forall k | 0 <= k < |kept|
      ensures g.children[k] == kept[k]
    {
      KeptFrom(f.children, reg, k);
      WithStatusOfMarked(kept[k], reg);
    }
  }

  /** Every node of the view is registered or has a child in the view:
      every leaf of the view is a registered folder. */
  predicate Pruned(g: Folder, reg: map<string, Option<string>>)
    decreases g
  {
    (g.path in reg || g.children != []) &&
    forall i :: 0 <= i < |g.children| ==> Pruned(g.children[i], reg)
  }

  /** A path occurring somewhere in the tree `f`. */
  predicate HasPath(f: Folder, p: string)
    decreases f
  {
    f.path == p || exists i :: 0 <= i < |f.children| && HasPath(f.children[i], p)
  }

  lemma {:induction false} FilteredPruned(f: Folder, reg: map<string, Option<string>>)
    requires Filtered(f, reg).Some?
    ensures Pruned(Filtered(f, reg).value, reg)
    decreases f
  {
    FilteredShape(f, reg);
    var g := Filtered(f, reg).value;
    forall k | 0 <= k < |g.children|
      ensures Pruned(g.children[k], reg)
    {
      KeptFrom(f.children, reg, k);
      var i :| 0 <= i < |f.children| && Filtered(f.children[i], reg) == Some(Kept(f.children, reg)[k]);
      FilteredPruned(f.children[i], reg);
    }
  }

  /** The view only holds folders of the original tree. */
  lemma {:induction false} FilteredSound(f: Folder, reg: map<string, Option<string>>, p: string)
    requires Filtered(f, reg).Some? && HasPath(Filtered(f, reg).value, p)
    ensures HasPath(f, p)
    decreases f
  {
    FilteredShape(f, reg);
    var g := Filtered(f, reg).value;
    if g.path != p {
      var k :| 0 <= k < |g.children| && HasPath(g.children[k], p);
      KeptFrom(f.children, reg, k);
      var i :| 0 <= i < |f.children| && Filtered(f.children[i], reg) == Some(Kept(f.children, reg)[k]);
      FilteredSound(f.children[i], reg, p);
    }
  }

  /** Every registered folder of the original tree is in the view. */
  lemma {:induction false} FilteredComplete(f: Folder, reg: map<string, Option<string>>, p: string)
    requires HasPath(f, p) && p in reg
    ensures Filtered(f, reg).Some? && HasPath(Filtered(f, reg).value, p)
    decreases f
  {
    AnyFromPath(f, reg, p);
    FilteredShape(f, reg);
    var g := Filtered(f, reg).value;
    if f.path != p {
      var i :| 0 <= i < |f.children| && HasPath(f.children[i], p);
      FilteredComplete(f.children[i], reg, p);
      var k := KeptIndex(f.children, reg, i);
      assert g.children[k] == Filtered(f.children[i], reg).value;
    }
  }

  lemma {:induction false} AnyFromPath(f: Folder, reg: map<string, Option<string>>, p: string)
    requires HasPath(f, p) && p in reg
    ensures AnyRegistered(f, reg)
    decreases f
  {
    if f.path != p {
      var i :| 0 <= i < |f.children| && HasPath(f.children[i], p);
      AnyFromPath(f.children[i], reg, p);
    }
  }

  /** Where a surviving child sits among the kept ones. */
  lemma {:induction false} KeptIndex(cs: seq<Folder>, reg: map<string, Option<string>>, i: nat) returns (k: nat)
    requires i < |cs| && Filtered(cs[i], reg).Some?
    ensures k < |Kept(cs, reg)| && Kept(cs, reg)[k] == Filtered(cs[i], reg).value
    decreases cs
  {
    var front := cs[..|cs| - 1];
    if i == |cs| - 1 {
      k := |Kept(front, reg)|;
    } else {
      assert cs[i] == front[i];
      k := KeptIndex(front, reg, i);
    }
  }

  // ----- creating and deleting folders -----

  const MarkerName := ".folder_marker"

  /** The key of the marker object that makes `p` a folder. */
  function MarkerKey(p: string): string
  {
    "PDF/" + p + "/" + MarkerName
  }

  /** The prefix listed when `p` is deleted. */
  function FolderPrefix(p: string): string
  {
    "PDF/" + p + "/"
  }

  const FolderCreated := "フォルダを作成しました"
  const FolderNotEmpty := "データが存在するため削除できません。配下のすべてのフォルダが空である必要があります。"

  /** `create_folder`: the marker object is written; a failed put
      (`putError`) is reported with its message and writes nothing. */
  function CreateFolder(p: string, putError: Option<string>): (r: (bool, string, Option<string>))
    ensures r.0 <==> putError.None?
    ensures r.0 ==> r.2 == Some(MarkerKey(p)) && r.1 == FolderCreated
    ensures !r.0 ==> r.2 == None && r.1 == "フォルダの作成に失敗しました: " + putError.value
  {
    match putError
    case None => (true, FolderCreated, Some(MarkerKey(p)))
    case Some(e) => (false, "フォルダの作成に失敗しました: " + e, None)
  }

  /** After a successful create, the folder helper lists `p` as a folder
      that holds no files yet. */
  lemma CreatedFolderListed(keys: seq<string>, p: string)
    requires p != ""
    ensures p in FolderTree.Folders(keys + [MarkerKey(p)])
    ensures FolderTree.WithFiles(keys + [MarkerKey(p)]) == FolderTree.WithFiles(keys)
  {
    var k := MarkerKey(p);
    assert (keys + [k])[..|keys|] == keys;
    assert k[|k| - 4..] != ".pdf" by {
      assert k[|k| - 1] == 'r';
    }
    assert !FolderTree.IsPdfKey(k);
    assert Strs.StartsWith(k, "PDF/");
    assert k[|k| - |FolderTree.MarkerSuffix|..] == FolderTree.MarkerSuffix;
    assert FolderTree.IsMarkerKey(k);
    assert FolderTree.MarkerFolder(k) == p by {
      assert k[4..|k| - |FolderTree.MarkerSuffix|] == p;
    }
    FolderTree.MarkerKeyFolder(k);
  }

  /** The key names a marker (`key.endswith('/.folder_marker')`). */
  predicate IsMarker(key: string)
  {
    Strs.EndsWith(key, FolderTree.MarkerSuffix)
  }

  /** The keys of `keys` that start with `prefix`, in listing order. */
  function Listed(keys: seq<string>, prefix: string): seq<string>
  {
    if keys == [] then []
    else Listed(keys[..|keys| - 1], prefix) + (if Strs.StartsWith(keys[|keys| - 1], prefix) then [keys[|keys| - 1]] else [])
  }

  /** The marker keys of a listing, in order. */
  function Markers(listing: seq<string>): seq<string>
  {
    if listing == [] then []
    else Markers(listing[..|listing| - 1]) + (if IsMarker(listing[|listing| - 1]) then [listing[|listing| - 1]] else [])
  }

  predicate AllMarkers(listing: seq<string>)
  {
    forall i :: 0 <= i < |listing| ==> IsMarker(listing[i])
  }

  lemma {:induction false} MarkersOfAllMarkers(listing: seq<string>, n: nat)
    requires AllMarkers(listing) && n <= |listing|
    ensures Markers(listing[..n]) == listing[..n]
  {
    if n > 0 {
      MarkersOfAllMarkers(listing, n - 1);
      assert listing[..n][..n - 1] == listing[..n - 1];
      assert IsMarker(listing[..n][n - 1]);
    }
  }

  const DeleteFailed := "フォルダの削除に失敗しました: "

  function DeletedMessage(count: nat): string
  {
    "フォルダを削除しました（" + Strs.NatToString(count) + "個のマーカーを削除）"
  }

  /** `delete_folder` over the listing of `PDF/{p}/`: when the listing
      raises (`listError`) the error is reported and nothing is deleted;
      refused with nothing deleted when a key is not a marker; otherwise
      every marker key is deleted and counted. */
  method DeleteFolder(listing: seq<string>, listError: Option<string>) returns (ok: bool, message: string, deleted: seq<string>)
    ensures ok <==> listError.None? && AllMarkers(listing)
    ensures listError.Some? ==> deleted == [] && message == DeleteFailed + listError.value
    ensures listError.None? && !ok ==> deleted == [] && message == FolderNotEmpty
    ensures ok ==> deleted == Markers(listing) && deleted == listing && message == DeletedMessage(|deleted|)
  {
    if listError.Some? {
      return false, DeleteFailed + listError.value, [];
    }
    var hasNonMarker := false;
    var i := 0;
    while i < |listing|
      invariant 0 <= i <= |listing|
      invariant !hasNonMarker ==> forall j :: 0 <= j < i ==> IsMarker(listing[j])
      invariant hasNonMarker ==> !AllMarkers(listing)
    {
      if !IsMarker(listing[i]) {
        hasNonMarker := true;
        break;
      }
      i := i + 1;
    }
    if hasNonMarker {
      return false, FolderNotEmpty, [];
    }
    var markerCount := 0;
    deleted := [];
    for n := 0 to |listing|
      invariant deleted == Markers(listing[..n]) && markerCount == |deleted|
    {
      assert listing[..n + 1][..n] == listing[..n];
      if IsMarker(listing[n]) {
        deleted := deleted + [listing[n]];
        markerCount := markerCount + 1;
      }
    }
    assert listing[..|listing|] == listing;
    MarkersOfAllMarkers(listing, |listing|);
    ok, message := true, DeletedMessage(markerCount);
  }

  /** The listing is exactly the keys under the prefix, so after a
      successful delete no key remains under the folder. */
  lemma {:induction false} DeleteEmptiesPrefix(keys: seq<string>, p: string)
    ensures forall k :: k in keys && k !in Listed(keys, FolderPrefix(p)) ==> !Strs.StartsWith(k, FolderPrefix(p))
    ensures forall k :: k in Listed(keys, FolderPrefix(p)) ==> k in keys && Strs.StartsWith(k, FolderPrefix(p))
  {
    if keys != [] {
      DeleteEmptiesPrefix(keys[..|keys| - 1], p);
      assert keys == keys[..|keys| - 1] + [keys[|keys| - 1]];
    }
  }

  // ----- uploads -----

  const MaxFilesPerRequest := 50
  const MaxFilenameLength := 255

  /** The key an uploaded file is stored under. */
  function UploadKey(folderPath: string, name: string): string
  {
    "PDF/" + folderPath + "/" + name
  }

  /** Why one file name is refused: too long, or a path-traversal character. */
  function NameError(name: string): (r: Option<string>)
    ensures r.None? <==> |name| <= MaxFilenameLength && !Strs.Contains(name, "..") && '/' !in name && '\\' !in name
  {
    if |name| > MaxFilenameLength then Some("Filename too long: " + name)
    else if Strs.Contains(name, "..") || '/' in name || '\\' in name then Some("Invalid filename: " + name)
    else None
  }

  /** The error of the first refused name, in request order. */
  function FirstNameError(names: seq<string>): (r: Option<string>)
    ensures r.None? <==> forall i :: 0 <= i < |names| ==> NameError(names[i]).None?
    ensures r.Some? ==> exists i :: 0 <= i < |names| && r == NameError(names[i]) &&
                                    forall j :: 0 <= j < i ==> NameError(names[j]).None?
  {
    if names == [] then None
    else if NameError(names[0]).Some? then NameError(names[0])
    else
      var r := FirstNameError(names[1..]);
      assert forall i :: 1 <= i < |names| ==> names[i] == names[1..][i - 1];
      r
  }

  /** The `ValueError` of `generate_presigned_urls`, if any. */
  function UploadError(names: seq<string>): (r: Option<string>)
    ensures r.None? <==> |names| <= MaxFilesPerRequest && forall i :: 0 <= i < |names| ==> NameError(names[i]).None?
  {
    if |names| > MaxFilesPerRequest then Some("Too many files. Maximum 50 files per request.")
    else FirstNameError(names)
  }

  lemma {:induction false} FirstNameErrorAt(names: seq<string>, i: nat)
    requires i < |names| && NameError(names[i]).Some?
    requires forall j :: 0 <= j < i ==> NameError(names[j]).None?
    ensures FirstNameError(names) == NameError(names[i])
  {
    if i > 0 {
      FirstNameErrorAt(names[1..], i - 1);
    }
  }

  /** The validation loop; it stops at the first refused name. */
  method ValidateFilenames(names: seq<string>) returns (err: Option<string>)
    ensures err == UploadError(names)
  {
    if |names| > MaxFilesPerRequest {
      return Some("Too many files. Maximum 50 files per request.");
    }
    for i := 0 to |names|
      invariant forall j :: 0 <= j < i ==> NameError(names[j]).None?
    {
      var e := NameError(names[i]);
      if e.Some? {
        FirstNameErrorAt(names, i);
        return e;
      }
    }
    return None;
  }

  /** What the upload endpoint answers: the folder's registration and, per
      file name, the presigned URL of its upload key. */
  datatype UploadTargets = UploadTargets(isRegistered: bool, defaultJobId: Option<string>, urls: map<string, string>)

  /** `generate_presigned_urls`: `config` is the folder's config item, if
      one exists; `presign` is the URL the presigner gives a key. */
  function Uploads(folderPath: string, names: seq<string>, config: Option<FolderConfig>, presign: string -> string): (r: Result<UploadTargets>)
    ensures r.Err? <==> UploadError(names).Some?
    ensures r.Ok? ==> r.value.isRegistered == config.Some?
    ensures r.Ok? ==> r.value.defaultJobId == (if config.Some? then config.value.defaultJobId else None)
    ensures r.Ok? ==> r.value.urls.Keys == set i | 0 <= i < |names| :: names[i]
  {
    if UploadError(names).Some? then Err(UploadError(names).value)
    else
      Ok(UploadTargets(config.Some?, if config.Some? then config.value.defaultJobId else None,
                       map n | n in names :: presign(UploadKey(folderPath, n))))
  }

  method GeneratePresignedUrls(folderPath: string, names: seq<string>, config: Option<FolderConfig>, presign: string -> string)
    returns (r: Result<UploadTargets>)
    ensures r == Uploads(folderPath, names, config, presign)
    ensures r.Ok? ==> forall n :: n in r.value.urls ==> r.value.urls[n] == presign(UploadKey(folderPath, n))
  {
    var err := ValidateFilenames(names);
    if err.Some? {
      return Err(err.value);
    }
    var urls: map<string, string> := map[];
    for i := 0 to |names|
      invariant urls.Keys == set j | 0 <= j < i :: names[j]
      invariant forall n :: n in urls ==> urls[n] == presign(UploadKey(folderPath, n))
    {
      urls := urls[names[i] := presign(UploadKey(folderPath, names[i]))];
    }
    assert urls == map n | n in names :: presign(UploadKey(folderPath, n));
    r := Ok(UploadTargets(config.Some?, if config.Some? then config.value.defaultJobId else None, urls));
  }

  // ----- the processing batch of an upload -----

  /** One item of the Step Functions input, or one worker event. */
  datatype FileItem = FileItem(mode: string, jobId: string, folderPath: string, fileKey: string,
                               fileName: string, triggerKbSync: bool)

  /** The item of the `idx`-th of `n` uploaded files. */
  function ItemFor(mode: string, jobId: string, folderPath: string, name: string, idx: nat, n: nat): FileItem
  {
    FileItem(mode, jobId, folderPath, UploadKey(folderPath, name), name, idx == n - 1)
  }

  /** One item per uploaded file, in order. */
  predicate IsBatch(items: seq<FileItem>, mode: string, jobId: string, folderPath: string, files: seq<string>)
  {
    |items| == |files| &&
    forall i :: 0 <= i < |files| ==> items[i] == ItemFor(mode, jobId, folderPath, files[i], i, |files|)
  }

  /** The loop that builds the items. */
  method BuildFileItems(mode: string, jobId: string, folderPath: string, files: seq<string>) returns (items: seq<FileItem>)
    ensures IsBatch(items, mode, jobId, folderPath, files)
  {
    items := [];
    for idx := 0 to |files|
      invariant |items| == idx
      invariant forall i :: 0 <= i < idx ==> items[i] == ItemFor(mode, jobId, folderPath, files[i], i, |files|)
    {
      items := items + [ItemFor(mode, jobId, folderPath, files[idx], idx, |files|)];
    }
  }

  /** The number of items that trigger a knowledge-base sync. */
  function SyncCount(items: seq<FileItem>): nat
  {
    if items == [] then 0
    else SyncCount(items[..|items| - 1]) + (if items[|items| - 1].triggerKbSync then 1 else 0)
  }

  /** A batch triggers the sync exactly once, on its last item, and not
      at all when it is empty. */
  lemma BatchSyncsOnce(items: seq<FileItem>, mode: string, jobId: string, folderPath: string, files: seq<string>)
    requires IsBatch(items, mode, jobId, folderPath, files)
    ensures SyncCount(items) == if files == [] then 0 else 1
    ensures forall i :: 0 <= i < |items| ==> (items[i].triggerKbSync <==> i == |items| - 1)
  {
    if items != [] {
      NoSyncBefore(items, |items| - 1);
    }
  }

  lemma {:induction false} NoSyncBefore(items: seq<FileItem>, n: nat)
    requires n <= |items|
    requires forall i :: 0 <= i < n ==> !items[i].triggerKbSync
    ensures SyncCount(items[..n]) == 0
  {
    if n > 0 {
      assert items[..n][..n - 1] == items[..n - 1];
      NoSyncBefore(items, n - 1);
    }
  }

  /** How the batch is dispatched. */
  datatype Dispatch =
    | StartExecution(files: seq<FileItem>)
    | InvokeWorkers(events: seq<FileItem>)
  {
    function Items(): seq<FileItem>
    {
      if StartExecution? then files else events
    }
  }

  function StartedMessage(count: nat, viaStateMachine: bool): string
  {
    Strs.NatToString(count) + "個のファイルの処理を開始しました " +
    (if viaStateMachine then "(Step Functions)" else "(Direct Lambda)")
  }

  /** `trigger_processing`: one Step Functions execution over the batch,
      or, without a state machine, one worker invocation per item; either
      way the knowledge-base sync is triggered once for a non-empty upload. */
  method TriggerProcessing(folderPath: string, jobId: string, files: seq<string>, mode: string, hasStateMachine: bool)
    returns (message: string, dispatch: Dispatch)
    ensures hasStateMachine <==> dispatch.StartExecution?
    ensures IsBatch(dispatch.Items(), mode, jobId, folderPath, files)
    ensures SyncCount(dispatch.Items()) == if files == [] then 0 else 1
    ensures message == StartedMessage(|files|, hasStateMachine)
  {
    var items := BuildFileItems(mode, jobId, folderPath, files);
    BatchSyncsOnce(items, mode, jobId, folderPath, files);
    dispatch := if hasStateMachine then StartExecution(items) else InvokeWorkers(items);
    message := StartedMessage(|files|, hasStateMachine);
  }

  // ----- the handler -----

  /** `queryStringParameters`: missing, an explicit null, or a map. */
  datatype QueryParams = NoParams | NullParams | Params(values: map<string, string>)

  /** The body members the handler reads; `processingMode` distinguishes a
      missing key (None) from an explicit null (Some(None)). */
  datatype FolderBody = FolderBody(
    action: Option<string>,
    folderPath: Option<string>,
    jobId: Option<string>,
    uploadedFiles: Option<seq<string>>,
    processingMode: Option<Option<string>>)

  datatype FolderRequest = FolderRequest(httpMethod: string, path: string, query: QueryParams, body: FolderBody)

  /** Python truthiness of an optional string. */
  predicate Truthy(s: Option<string>)
  {
    s.Some? && s.value != ""
  }

  /** What the handler does after reading the request. */
  datatype FolderCommand =
    | ListFolders(registeredOnly: bool)
    | CreateCommand(folderPath: string)
    | DeleteCommand(folderPath: string)
    | PresignCommand(folderPath: string, names: seq<string>)
    | TriggerCommand(folderPath: string, jobId: string, files: seq<string>, mode: string)
    | Reject(status: int, error: string, message: string)

  const ValidModes: seq<string> := ["full", "direct_pdf"]

  const MissingParameters := "Missing required parameters"
  const ValidationError := "Validation error"
  const InvalidActionMessage := "action must be \"create\" or \"delete\""
  const InternalError := "Internal server error"
  const NoneHasNoGet := "'NoneType' object has no attribute 'get'"
  const MissingUploadParameters := "folder_path and filenames are required"
  const InvalidMode := "Invalid processing_mode"
  const InvalidModeMessage := "processing_mode must be one of: ['full', 'direct_pdf']"
  const MissingTriggerParameters := "folder_path, job_id, and uploaded_files are required"

  /** `query_params.get('registered_only', '').lower() == 'true'`. */
  function RegisteredOnly(q: QueryParams): bool
  {
    q.Params? && "registered_only" in q.values && Strs.Lower(q.values["registered_only"]) == "true"
  }

  /** `[f.strip() for f in filenames_str.split(',')]`. */
  function SplitNames(s: string): (r: seq<string>)
    ensures |r| == |Strs.Split(s, ',')|
  {
    var parts := Strs.Split(s, ',');
    seq(|parts|, i requires 0 <= i < |parts| => Strs.Strip(parts[i]))
  }

  /** The routing and validation of `lambda_handler`, in its order. */
  function Route(req: FolderRequest): (r: FolderCommand)
    ensures r.Reject? ==> r.status in {400, 404, 500}
    ensures r.ListFolders? <==> req.httpMethod == "GET" && req.path == "/api/folders"
    ensures r.Reject? && r.status == 404 <==> !IsKnownRoute(req.httpMethod, req.path)
  {
    if req.httpMethod == "GET" && req.path == "/api/folders" then ListFolders(RegisteredOnly(req.query))
    else if req.httpMethod == "POST" && req.path == "/api/folder-management" then
      ManageCommand(req.body.action, req.body.folderPath)
    else if req.httpMethod == "GET" && req.path == "/api/s3-presigned-urls" then
      PresignRoute(req.query)
    else if req.httpMethod == "POST" && req.path == "/api/trigger-processing" then
      TriggerRoute(req.body)
    else Reject(404, "Not found", "Route not found: " + req.httpMethod + " " + req.path)
  }

  predicate IsKnownRoute(httpMethod: string, path: string)
  {
    (httpMethod, path) in {("GET", "/api/folders"), ("POST", "/api/folder-management"),
                           ("GET", "/api/s3-presigned-urls"), ("POST", "/api/trigger-processing")}
  }

  /** `POST /api/folder-management`: both values are required, and the
      action must be `create` or `delete`. */
  function ManageCommand(action: Option<string>, folderPath: Option<string>): (r: FolderCommand)
    ensures r.CreateCommand? <==> Truthy(action) && Truthy(folderPath) && action.value == "create"
    ensures r.DeleteCommand? <==> Truthy(action) && Truthy(folderPath) && action.value == "delete"
    ensures r.CreateCommand? || r.DeleteCommand? || (r.Reject? && r.status == 400)
    ensures r.CreateCommand? || r.DeleteCommand? ==> r.folderPath == folderPath.value
  {
    if !Truthy(action) || !Truthy(folderPath) then
      Reject(400, MissingParameters, "action and folder_path are required")
    else if action.value == "create" then CreateCommand(folderPath.value)
    else if action.value == "delete" then DeleteCommand(folderPath.value)
    else Reject(400, "Invalid action", InvalidActionMessage)
  }

  /** `GET /api/s3-presigned-urls`: both parameters are required; a null
      parameter object makes `params.get` raise, which answers 500. */
  function PresignRoute(q: QueryParams): (r: FolderCommand)
    ensures r.PresignCommand? <==>
      q.Params? && "folder_path" in q.values && q.values["folder_path"] != "" &&
      "filenames" in q.values && q.values["filenames"] != ""
    ensures r.PresignCommand? ==>
      r.folderPath == q.values["folder_path"] && r.names == SplitNames(q.values["filenames"])
    ensures r.PresignCommand? || (r.Reject? && (r.status == 500 <==> q.NullParams?) && r.status in {400, 500})
  {
    match q
    case NullParams => Reject(500, InternalError, NoneHasNoGet)
    case NoParams => Reject(400, MissingParameters, MissingUploadParameters)
    case Params(values) =>
      var fp := if "folder_path" in values then values["folder_path"] else "";
      var names := if "filenames" in values then values["filenames"] else "";
      if fp == "" || names == "" then
        Reject(400, MissingParameters, MissingUploadParameters)
      else PresignCommand(fp, SplitNames(names))
  }

  /** `processing_mode` with its default. */
  function ModeOf(body: FolderBody): Option<string>
  {
    if body.processingMode.None? then Some("full") else body.processingMode.value
  }

  /** `POST /api/trigger-processing`: the mode is checked first, then the
      three required values. */
  function TriggerRoute(body: FolderBody): (r: FolderCommand)
    ensures r.TriggerCommand? <==>
      ModeOf(body).Some? && ModeOf(body).value in ValidModes &&
      Truthy(body.folderPath) && Truthy(body.jobId) && body.uploadedFiles.GetOr([]) != []
    ensures r.TriggerCommand? ==>
      r.mode == ModeOf(body).value && r.folderPath == body.folderPath.value &&
      r.jobId == body.jobId.value && r.files == body.uploadedFiles.GetOr([])
    ensures r.TriggerCommand? || (r.Reject? && r.status == 400)
    ensures (ModeOf(body).None? || ModeOf(body).value !in ValidModes) ==> r.Reject? && r.error == InvalidMode
  {
    var mode := ModeOf(body);
    var files := body.uploadedFiles.GetOr([]);
    if mode.None? || mode.value !in ValidModes then
      Reject(400, InvalidMode, InvalidModeMessage)
    else if !Truthy(body.folderPath) || !Truthy(body.jobId) || files == [] then
      Reject(400, MissingParameters, MissingTriggerParameters)
    else TriggerCommand(body.folderPath.value, body.jobId.value, files, mode.value)
  }

  /** The handler's answer. */
  datatype ResponseBody =
    | FolderList(folders: seq<Folder>)
    | FolderAction(message: string, folderPath: string)
    | UploadUrls(targets: UploadTargets)
    | ProcessingStarted(message: string, folderPath: string, jobId: string)
    | ErrorBody(error: string, message: string)

  datatype FolderResponse = FolderResponse(status: int, body: ResponseBody)

  /** What the handler writes. */
  datatype Effect =
    | NoEffect
    | PutMarker(key: string)
    | DeleteKeys(keys: seq<string>)
    | Dispatched(dispatch: Dispatch)

  /** The lambda's surroundings: the bucket listing, the folder-config
      table, whether a state machine is configured, the text of the
      `ClientError` the route's first AWS call raises (none when the calls
      succeed), and the presigner. */
  datatype Env = Env(keys: seq<string>, table: ConfigTable, hasStateMachine: bool,
                     awsError: Option<string>, presign: string -> string)

  /** The answer of the handler's catch-all `except`. */
  function ServerError(message: string): FolderResponse
  {
    FolderResponse(500, ErrorBody(InternalError, message))
  }

  /** The config the presign route sees: a failing `get_item` is caught
      and the folder reads as unregistered. */
  function PresignConfig(env: Env, p: string): Option<FolderConfig>
  {
    if env.awsError.Some? then None else ConfigOf(env.table, p)
  }

  /** The config item `get_item` finds for a folder. */
  function ConfigOf(table: ConfigTable, p: string): Option<FolderConfig>
  {
    if table.Some? && p in table.value then Some(table.value[p]) else None
  }

  /** The folders `GET /api/folders` returns. */
  function FolderView(env: Env, registeredOnly: bool): seq<Folder>
  {
    if !registeredOnly then AnnotatedTree(env.keys, env.table)
    else if env.table.None? then []
    else Kept(AnnotatedTree(env.keys, env.table), Registry(env.table))
  }

  /** What the handler answers and writes for a command. */
  predicate Outcome(env: Env, cmd: FolderCommand, resp: FolderResponse, effect: Effect)
  {
    match cmd
    case Reject(st, e, m) => resp == FolderResponse(st, ErrorBody(e, m)) && effect == NoEffect
    case ListFolders(ro) =>
      effect == NoEffect &&
      resp == (if env.awsError.Some? then ServerError(env.awsError.value)
               else FolderResponse(200, FolderList(FolderView(env, ro))))
    case CreateCommand(p) =>
      var c := CreateFolder(p, env.awsError);
      resp == FolderResponse(if c.0 then 200 else 400, FolderAction(c.1, p)) &&
      effect == (if c.0 then PutMarker(c.2.value) else NoEffect)
    case DeleteCommand(p) =>
      var listing := Listed(env.keys, FolderPrefix(p));
      var ok := env.awsError.None? && AllMarkers(listing);
      resp.status == (if ok then 200 else 400) &&
      resp.body == FolderAction(if env.awsError.Some? then DeleteFailed + env.awsError.value
                                else if ok then DeletedMessage(|listing|) else FolderNotEmpty, p) &&
      effect == DeleteKeys(if ok then listing else [])
    case PresignCommand(p, names) =>
      var u := Uploads(p, names, PresignConfig(env, p), env.presign);
      effect == NoEffect &&
      resp == (if u.Ok? then FolderResponse(200, UploadUrls(u.value))
               else FolderResponse(400, ErrorBody(ValidationError, u.error)))
    case TriggerCommand(p, j, files, mode) =>
      if env.awsError.Some? then resp == ServerError(env.awsError.value) && effect == NoEffect
      else
        resp.status == 202 && resp.body.ProcessingStarted? && resp.body.folderPath == p && resp.body.jobId == j &&
        resp.body.message == StartedMessage(|files|, env.hasStateMachine) &&
        effect.Dispatched? && (effect.dispatch.StartExecution? <==> env.hasStateMachine) &&
        IsBatch(effect.dispatch.Items(), mode, j, p, files) &&
        SyncCount(effect.dispatch.Items()) == (if files == [] then 0 else 1)
  }

  /** `lambda_handler`: validation, then the chosen operation. Only the
      create, delete and trigger routes write. */
  method HandleFolderRequest(env: Env, req: FolderRequest) returns (resp: FolderResponse, effect: Effect)
    ensures Outcome(env, Route(req), resp, effect)
  {
    resp, effect := Execute(env, Route(req));
  }

  method Execute(env: Env, cmd: FolderCommand) returns (resp: FolderResponse, effect: Effect)
    ensures Outcome(env, cmd, resp, effect)
  {
    effect := NoEffect;
    match cmd
    case Reject(st, e, m) =>
      resp := FolderResponse(st, ErrorBody(e, m));
    case ListFolders(ro) =>
      if env.awsError.Some? {
        return ServerError(env.awsError.value), NoEffect;
      }
      var folders := GetFolderTreeWithRegistrationStatus(env.keys, env.table);
      if ro {
        if env.table.None? {
          folders := [];
        } else {
          folders := FilterAll(folders, Registry(env.table));
        }
      }
      resp := FolderResponse(200, FolderList(folders));
    case CreateCommand(p) =>
      var c := CreateFolder(p, env.awsError);
      resp := FolderResponse(if c.0 then 200 else 400, FolderAction(c.1, p));
      if c.0 {
        effect := PutMarker(c.2.value);
      }
    case DeleteCommand(p) =>
      var ok, message, deleted := DeleteFolder(Listed(env.keys, FolderPrefix(p)), env.awsError);
      resp := FolderResponse(if ok then 200 else 400, FolderAction(message, p));
      effect := DeleteKeys(deleted);
    case PresignCommand(p, names) =>
      var r := GeneratePresignedUrls(p, names, PresignConfig(env, p), env.presign);
      if r.Ok? {
        resp := FolderResponse(200, UploadUrls(r.value));
      } else {
        resp := FolderResponse(400, ErrorBody(ValidationError, r.error));
      }
    case TriggerCommand(p, j, files, mode) =>
      var message, dispatch := TriggerProcessing(p, j, files, mode, env.hasStateMachine);
      if env.awsError.Some? {
        return ServerError(env.awsError.value), NoEffect;
      }
      resp := FolderResponse(202, ProcessingStarted(message, p, j));
      effect := Dispatched(dispatch);
  }
}
