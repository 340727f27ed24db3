/** The job-creation lambda (`backend/job_creator.py`): it names a job by
    the JST time, lists the PDFs of a leaf folder, registers one `queued`
    item per PDF, saves the prompts and starts one Step Functions
    execution whose last item triggers the knowledge-base sync; it also
    starts reknowledge jobs from an earlier job and reads and sets a
    folder's default job. The bucket listing, the clock, the query result
    and the Step Functions call are parameters. */
module JobCreator {
  import opened Wrappers
  import opened Json
  import Strs
  import FolderManagement
  import FolderTree
  import Worker

  // ---------------------------------------------------------------------
  // Job ids

  /** A JST wall-clock time, to the second. */
  datatype Clock = Clock(year: nat, month: nat, day: nat, hour: nat, minute: nat, second: nat)

  /** A time with a four-digit year and fields in their calendar ranges. */
  predicate ValidClock(c: Clock)
  {
    1000 <= c.year <= 9999 && 1 <= c.month <= 12 && 1 <= c.day <= 31 &&
    c.hour < 24 && c.minute < 60 && c.second < 60
  }

  lemma FourDigits(n: nat)
    requires n < 10000
    ensures |Strs.NatToString(n)| <= 4
  {
    if n >= 10 {
      assert Strs.NatToString(n) == Strs.NatToString(n / 10) + [Strs.DigitChar(n % 10)];
    }
  }

  /** `generate_job_id`: `strftime('%Y%m%d%H%M%S')`. */
  function JobId(c: Clock): (r: string)
    ensures ValidClock(c) ==> |r| == 14
  {
    FourDigits(c.year % 10000);
    Strs.ZeroPad(c.year, 4) + Strs.ZeroPad(c.month, 2) + Strs.ZeroPad(c.day, 2) +
    Strs.ZeroPad(c.hour, 2) + Strs.ZeroPad(c.minute, 2) + Strs.ZeroPad(c.second, 2)
  }

  predicate AllDigits(s: string)
  {
    forall i :: 0 <= i < |s| ==> Strs.IsDigit(s[i])
  }

  /** Reading the six fields back from fourteen digits. */
  function ParseJobId(s: string): (r: Option<Clock>)
    ensures r.Some? <==> |s| == 14 && AllDigits(s)
  {
    if |s| == 14 && AllDigits(s) then
      assert AllDigits(s[..4]) && AllDigits(s[4..6]) && AllDigits(s[6..8]);
      assert AllDigits(s[8..10]) && AllDigits(s[10..12]) && AllDigits(s[12..]);
      Some(Clock(Strs.DigitsValue(s[..4]), Strs.DigitsValue(s[4..6]), Strs.DigitsValue(s[6..8]),
                 Strs.DigitsValue(s[8..10]), Strs.DigitsValue(s[10..12]), Strs.DigitsValue(s[12..])))
    else None
  }

  /** A job id is fourteen digits that spell the time it was made at. */
  lemma JobIdRoundTrip(c: Clock)
    requires ValidClock(c)
    ensures Strs.IsDigits(JobId(c))
    ensures ParseJobId(JobId(c)) == Some(c)
  {
    var y, mo, d := Strs.ZeroPad(c.year, 4), Strs.ZeroPad(c.month, 2), Strs.ZeroPad(c.day, 2);
    var h, mi, se := Strs.ZeroPad(c.hour, 2), Strs.ZeroPad(c.minute, 2), Strs.ZeroPad(c.second, 2);
    Strs.ZeroPadValue(c.year, 4);
    Strs.ZeroPadValue(c.month, 2);
    Strs.ZeroPadValue(c.day, 2);
    Strs.ZeroPadValue(c.hour, 2);
    Strs.ZeroPadValue(c.minute, 2);
    Strs.ZeroPadValue(c.second, 2);
    FourDigits(c.year);
    var s := JobId(c);
    assert s == y + mo + d + h + mi + se;
    assert s[..4] == y && s[4..6] == mo && s[6..8] == d;
    assert s[8..10] == h && s[10..12] == mi && s[12..] == se;
    assert AllDigits(s) by {
      forall i | 0 <= i < 14 ensures Strs.IsDigit(s[i]) {
        if i < 4 { assert s[i] == y[i]; }
        else if i < 6 { assert s[i] == mo[i - 4]; }
        else if i < 8 { assert s[i] == d[i - 6]; }
        else if i < 10 { assert s[i] == h[i - 8]; }
        else if i < 12 { assert s[i] == mi[i - 10]; }
        else { assert s[i] == se[i - 12]; }
      }
    }
  }

  /** Two jobs made at different seconds get different ids. */
  lemma JobIdInjective(a: Clock, b: Clock)
    requires ValidClock(a) && ValidClock(b) && JobId(a) == JobId(b)
    ensures a == b
  {
    JobIdRoundTrip(a);
    JobIdRoundTrip(b);
  }

  // ---------------------------------------------------------------------
  // The PDFs of a folder

  const PdfSuffix := ".pdf"

  /** `PDF/{folder_path}/`. */
  function PdfPrefix(folderPath: string): string
  {
    "PDF/" + folderPath + "/"
  }

  /** One entry of `get_pdf_files_in_folder`'s answer. */
  datatype PdfFile = PdfFile(fileKey: string, folderPath: string, fileName: string)

  function PdfFileOf(key: string, folderPath: string): PdfFile
  {
    PdfFile(key, folderPath, Strs.LastSegment(key, '/'))
  }

  /** A key is listed when it lies under the folder's prefix, ends in
      ".pdf" (case-sensitively) and, when specific files are asked for,
      its last segment is one of them. */
  predicate Selected(key: string, folderPath: string, specific: seq<string>)
  {
    Strs.StartsWith(key, PdfPrefix(folderPath)) && Strs.EndsWith(key, PdfSuffix) &&
    (specific == [] || Strs.LastSegment(key, '/') in specific)
  }

  /** The listed PDFs, in listing order. */
  function PdfFiles(keys: seq<string>, folderPath: string, specific: seq<string>): (r: seq<PdfFile>)
    ensures |r| <= |keys|
  {
    if keys == [] then []
    else
      var rest := PdfFiles(keys[..|keys| - 1], folderPath, specific);
      var key := keys[|keys| - 1];
      if Selected(key, folderPath, specific) then rest + [PdfFileOf(key, folderPath)] else rest
  }

  /** Every listed PDF is a selected key of the bucket, with the folder
      path it was asked for and its last segment as its name. */
  lemma {:induction false} PdfFilesSound(keys: seq<string>, folderPath: string, specific: seq<string>)
    ensures forall f :: f in PdfFiles(keys, folderPath, specific) ==>
      f.fileKey in keys && Selected(f.fileKey, folderPath, specific) && f == PdfFileOf(f.fileKey, folderPath)
  {
    if keys != [] {
      var front := keys[..|keys| - 1];
      PdfFilesSound(front, folderPath, specific);
      assert forall k :: k in front ==> k in keys;
    }
  }

  /** Every selected key of the bucket is listed. */
  lemma {:induction false} PdfFilesComplete(keys: seq<string>, folderPath: string, specific: seq<string>)
    ensures forall k :: k in keys && Selected(k, folderPath, specific) ==>
      PdfFileOf(k, folderPath) in PdfFiles(keys, folderPath, specific)
  {
    if keys != [] {
      var front := keys[..|keys| - 1];
      PdfFilesComplete(front, folderPath, specific);
      assert keys == front + [keys[|keys| - 1]];
    }
  }

  /** `get_pdf_files_in_folder` over the pages of the listing; a listing
      that raises (`None`) gives no files. */
  method GetPdfFilesInFolder(listing: Option<seq<string>>, folderPath: string, specific: seq<string>)
    returns (files: seq<PdfFile>)
    ensures files == if listing.None? then [] else PdfFiles(listing.value, folderPath, specific)
  {
    files := [];
    if listing.None? {
      return;
    }
    var keys := listing.value;
    for k := 0 to |keys|
      invariant files == PdfFiles(keys[..k], folderPath, specific)
    {
      assert keys[..k + 1][..k] == keys[..k];
      var key := keys[k];
      if Strs.StartsWith(key, PdfPrefix(folderPath)) && Strs.EndsWith(key, PdfSuffix) {
        var fileName := Strs.LastSegment(key, '/');
        if specific == [] || fileName in specific {
          files := files + [PdfFile(key, folderPath, fileName)];
        }
      }
    }
    assert keys[..|keys|] == keys;
  }

  // ---------------------------------------------------------------------
  // The leaf check

  /** `MaxKeys` of the delimited listing. */
  const MaxKeys := 10

  /** An entry of a listing delimited by '/': a key directly under the
      prefix, or the common prefix of a sub-folder. */
  datatype Entry = Content(key: string) | CommonPrefix(prefix: string)

  function EntryOf(key: string, prefix: string): Entry
    requires Strs.StartsWith(key, prefix)
  {
    var rest := key[|prefix|..];
    var i := Strs.IndexOf(rest, '/');
    if i < 0 then Content(key) else CommonPrefix(prefix + rest[..i + 1])
  }

  /** The entries of `list_objects_v2(Prefix=prefix, Delimiter='/')`, in
      listing order; the keys of one sub-folder roll up into one entry. */
  function Entries(keys: seq<string>, prefix: string): seq<Entry>
  {
    if keys == [] then []
    else
      var es := Entries(keys[..|keys| - 1], prefix);
      var key := keys[|keys| - 1];
      if !Strs.StartsWith(key, prefix) || EntryOf(key, prefix) in es then es
      else es + [EntryOf(key, prefix)]
  }

  /** A key below a sub-folder of the prefix. */
  predicate InSubfolder(key: string, prefix: string)
  {
    Strs.StartsWith(key, prefix) && '/' in key[|prefix|..]
  }

  /** `check_folder_has_children` as written: a common prefix among the
      first `MaxKeys` entries; a listing that raises answers false. */
  predicate HasChildrenAsWritten(listing: Option<seq<string>>, folderPath: string)
  {
    listing.Some? &&
    var es := Entries(listing.value, PdfPrefix(folderPath));
    exists j :: 0 <= j < |es| && j < MaxKeys && es[j].CommonPrefix?
  }

  /** The check as intended: some key lies in a sub-folder. */
  predicate HasChildren(listing: Option<seq<string>>, folderPath: string)
  {
    listing.Some? && exists k :: k in listing.value && InSubfolder(k, PdfPrefix(folderPath))
  }

  /** Every entry comes from a key under the prefix; a common prefix from
      a key in a sub-folder. */
  lemma {:induction false} EntriesFromKeys(keys: seq<string>, prefix: string)
    ensures forall e :: e in Entries(keys, prefix) ==>
      exists k :: k in keys && Strs.StartsWith(k, prefix) && EntryOf(k, prefix) == e
  {
    if keys != [] {
      var front := keys[..|keys| - 1];
      EntriesFromKeys(front, prefix);
      assert forall k :: k in front ==> k in keys;
    }
  }

  /** The check as written never reports a sub-folder that is not there. */
  lemma HasChildrenAsWrittenSound(listing: Option<seq<string>>, folderPath: string)
    ensures HasChildrenAsWritten(listing, folderPath) ==> HasChildren(listing, folderPath)
  {
    if HasChildrenAsWritten(listing, folderPath) {
      var prefix := PdfPrefix(folderPath);
      var es := Entries(listing.value, prefix);
      var j :| 0 <= j < |es| && j < MaxKeys && es[j].CommonPrefix?;
      EntriesFromKeys(listing.value, prefix);
      assert es[j] in es;
      var k :| k in listing.value && Strs.StartsWith(k, prefix) && EntryOf(k, prefix) == es[j];
      var rest := k[|prefix|..];
      var i := Strs.IndexOf(rest, '/');
      assert i >= 0;
      assert rest[i] == '/';
      assert InSubfolder(k, prefix);
    }
  }

  /** The entries of a shorter listing begin the entries of a longer one. */
  lemma {:induction false} EntriesPrefix(keys: seq<string>, prefix: string, m: nat)
    requires m <= |keys|
    ensures var es := Entries(keys[..m], prefix);
      |es| <= |Entries(keys, prefix)| && Entries(keys, prefix)[..|es|] == es
    decreases |keys| - m
  {
    if m < |keys| {
      var front := keys[..|keys| - 1];
      EntriesPrefix(front, prefix, m);
      assert front[..m] == keys[..m];
    } else {
      assert keys[..m] == keys;
    }
  }

  /** Distinct keys directly under the prefix are entries of their own. */
  lemma {:induction false} DirectEntries(keys: seq<string>, prefix: string, m: nat)
    requires m <= |keys|
    requires forall i :: 0 <= i < m ==> Strs.StartsWith(keys[i], prefix) && '/' !in keys[i][|prefix|..]
    requires forall i, j :: 0 <= i < j < m ==> keys[i] != keys[j]
    ensures var es := Entries(keys[..m], prefix);
      |es| == m && forall i :: 0 <= i < m ==> es[i] == Content(keys[i])
  {
    if m > 0 {
      DirectEntries(keys, prefix, m - 1);
      var key := keys[m - 1];
      assert keys[..m][..m - 1] == keys[..m - 1];
      assert EntryOf(key, prefix) == Content(key);
      var es := Entries(keys[..m - 1], prefix);
      assert Content(key) !in es by {
        forall i | 0 <= i < m - 1 ensures es[i] != Content(key) {
          assert keys[i] != key;
        }
      }
    }
  }

  /** Ten files listed before a sub-folder hide it: the listing is cut at
      `MaxKeys` entries before any common prefix is reached, so the check
      as written lets a folder with children through. */
  lemma LeafCheckMissesSubfolder(keys: seq<string>, folderPath: string)
    requires |keys| > MaxKeys
    requires forall i :: 0 <= i < MaxKeys ==>
      Strs.StartsWith(keys[i], PdfPrefix(folderPath)) && '/' !in keys[i][|PdfPrefix(folderPath)|..]
    requires forall i, j :: 0 <= i < j < MaxKeys ==> keys[i] != keys[j]
    requires InSubfolder(keys[MaxKeys], PdfPrefix(folderPath))
    ensures HasChildren(Some(keys), folderPath)
    ensures !HasChildrenAsWritten(Some(keys), folderPath)
  {
    var prefix := PdfPrefix(folderPath);
    assert keys[MaxKeys] in keys;
    DirectEntries(keys, prefix, MaxKeys);
    EntriesPrefix(keys, prefix, MaxKeys);
    var es := Entries(keys, prefix);
    forall j | 0 <= j < |es| && j < MaxKeys ensures !es[j].CommonPrefix? {
      assert es[j] == Entries(keys[..MaxKeys], prefix)[j];
    }
  }

  /** In a leaf folder every PDF key is the prefix followed by its name. */
  lemma LeafKeyIsPrefixAndName(key: string, folderPath: string)
    requires Strs.StartsWith(key, PdfPrefix(folderPath)) && !InSubfolder(key, PdfPrefix(folderPath))
    ensures key == PdfPrefix(folderPath) + Strs.LastSegment(key, '/')
  {
    var prefix := PdfPrefix(folderPath);
    var name := key[|prefix|..];
    assert key == ("PDF/" + folderPath) + ['/'] + name;
    Strs.LastSegmentAfterLast("PDF/" + folderPath, '/', name);
  }

  /** No two files share a name, hence a `folder_path#file_name` key. */
  predicate NamesDistinct(files: seq<PdfFile>)
  {
    forall i, j :: 0 <= i < j < |files| ==> files[i].fileName != files[j].fileName
  }

  /** In a folder without sub-folders, distinct keys give distinct file
      names, so no two listed PDFs share a sort key. */
  lemma {:induction false} LeafNamesDistinct(keys: seq<string>, folderPath: string, specific: seq<string>)
    requires !HasChildren(Some(keys), folderPath)
    requires forall i, j :: 0 <= i < j < |keys| ==> keys[i] != keys[j]
    ensures NamesDistinct(PdfFiles(keys, folderPath, specific))
  {
    if keys != [] {
      var front := keys[..|keys| - 1];
      var key := keys[|keys| - 1];
      assert forall k :: k in front ==> k in keys;
      LeafNamesDistinct(front, folderPath, specific);
      var files := PdfFiles(keys, folderPath, specific);
      var earlier := PdfFiles(front, folderPath, specific);
      if Selected(key, folderPath, specific) {
        PdfFilesSound(front, folderPath, specific);
        assert key in keys;
        LeafKeyIsPrefixAndName(key, folderPath);
        forall i | 0 <= i < |earlier| ensures earlier[i].fileName != Strs.LastSegment(key, '/') {
          var f := earlier[i];
          assert f in earlier;
          LeafKeyIsPrefixAndName(f.fileKey, folderPath);
          var m :| 0 <= m < |front| && front[m] == f.fileKey;
          assert keys[m] == f.fileKey;
          assert keys[m] != keys[|keys| - 1];
          assert f.fileName == Strs.LastSegment(f.fileKey, '/');
        }
        assert files == earlier + [PdfFileOf(key, folderPath)];
        forall i, j | 0 <= i < j < |files| ensures files[i].fileName != files[j].fileName {
          if j < |earlier| {
            assert files[i] == earlier[i] && files[j] == earlier[j];
          } else {
            assert j == |earlier|;
            assert files[i] == earlier[i] && files[j] == PdfFileOf(key, folderPath);
            assert earlier[i].fileName != Strs.LastSegment(key, '/');
          }
        }
      }
    }
  }

  // ---------------------------------------------------------------------
  // Registration

  type JobKey = Worker.JobKey
  type Item = Worker.Item
  type ConfigTable = FolderManagement.ConfigTable
  type FolderConfig = FolderManagement.FolderConfig

  const JobIdAttr := "job_id"
  const SortKeyAttr := "folder_path#file_name"
  const FolderPathAttr := "folder_path"
  const FileNameAttr := "file_name"
  const PdfNameAttr := "pdf_name"
  const PdfKeyAttr := "pdf_key"

  const QueuedStatus := "queued"
  const QueuedMessage := "Job queued for processing"

  /** The key of a file's item: `(job_id, folder_path#file_name)`. */
  function FileKey(jobId: string, folderPath: string, fileName: string): JobKey
  {
    (jobId, Worker.SortKey(folderPath, fileName))
  }

  /** The item `register_job_in_dynamodb` puts for one PDF. */
  function QueuedItem(jobId: string, folderPath: string, f: PdfFile, mode: string, stamp: string): Item
  {
    map[JobIdAttr := jobId, SortKeyAttr := Worker.SortKey(folderPath, f.fileName),
        FolderPathAttr := folderPath, FileNameAttr := f.fileName, Worker.FileKeyAttr := f.fileKey,
        Worker.StatusAttr := QueuedStatus, Worker.ModeAttr := mode,
        Worker.LastUpdateAttr := stamp, Worker.MessageAttr := QueuedMessage]
  }

  /** The table after one `put_item` per key, in order; a put replaces
      the whole item. */
  function PutAll(jobs: map<JobKey, Item>, keys: seq<JobKey>, items: seq<Item>): map<JobKey, Item>
    requires |keys| == |items|
  {
    if keys == [] then jobs
    else PutAll(jobs, keys[..|keys| - 1], items[..|items| - 1])[keys[|keys| - 1] := items[|items| - 1]]
  }

  /** One more put extends the prefix of puts done so far. */
  lemma PutAllStep(jobs: map<JobKey, Item>, keys: seq<JobKey>, items: seq<Item>, i: nat)
    requires |keys| == |items| && i < |keys|
    ensures PutAll(jobs, keys[..i + 1], items[..i + 1]) == PutAll(jobs, keys[..i], items[..i])[keys[i] := items[i]]
  {
    assert keys[..i + 1][..i] == keys[..i] && items[..i + 1][..i] == items[..i];
  }

  /** The puts add their keys and leave every other item as it was. */
  lemma {:induction false} PutAllKeys(jobs: map<JobKey, Item>, keys: seq<JobKey>, items: seq<Item>)
    requires |keys| == |items|
    ensures PutAll(jobs, keys, items).Keys == jobs.Keys + (set k | k in keys)
    ensures forall k :: k in jobs && k !in keys ==> PutAll(jobs, keys, items)[k] == jobs[k]
  {
    if keys != [] {
      var n := |keys| - 1;
      PutAllKeys(jobs, keys[..n], items[..n]);
      assert keys == keys[..n] + [keys[n]];
      assert (set k | k in keys) == (set k | k in keys[..n]) + {keys[n]};
    }
  }

  /** A property every put item has holds of the item under every key. */
  lemma {:induction false} PutAllHolds(jobs: map<JobKey, Item>, keys: seq<JobKey>, items: seq<Item>, p: Item -> bool)
    requires |keys| == |items|
    requires forall i :: 0 <= i < |items| ==> p(items[i])
    ensures forall i :: 0 <= i < |keys| ==> keys[i] in PutAll(jobs, keys, items) && p(PutAll(jobs, keys, items)[keys[i]])
  {
    if keys != [] {
      var n := |keys| - 1;
      PutAllHolds(jobs, keys[..n], items[..n], p);
      forall i | 0 <= i < n ensures keys[i] == keys[..n][i] { }
    }
  }

  /** A key written once holds the item put under it. */
  lemma {:induction false} PutAllLast(jobs: map<JobKey, Item>, keys: seq<JobKey>, items: seq<Item>, i: nat)
    requires |keys| == |items| && i < |keys|
    requires forall j :: i < j < |keys| ==> keys[j] != keys[i]
    ensures keys[i] in PutAll(jobs, keys, items) && PutAll(jobs, keys, items)[keys[i]] == items[i]
  {
    var n := |keys| - 1;
    if i < n {
      PutAllLast(jobs, keys[..n], items[..n], i);
    }
  }

  /** `(job_id, folder_path#file_name)` of each file. */
  function FileKeys(jobId: string, folderPath: string, files: seq<PdfFile>): (r: seq<JobKey>)
    ensures |r| == |files|
  {
    seq(|files|, i requires 0 <= i < |files| => FileKey(jobId, folderPath, files[i].fileName))
  }

  function QueuedItems(jobId: string, folderPath: string, files: seq<PdfFile>, mode: string, stamp: string): (r: seq<Item>)
    ensures |r| == |files|
  {
    seq(|files|, i requires 0 <= i < |files| => QueuedItem(jobId, folderPath, files[i], mode, stamp))
  }

  /** The jobs table after `register_job_in_dynamodb`'s puts. */
  function Registered(jobs: map<JobKey, Item>, jobId: string, folderPath: string, files: seq<PdfFile>,
                      mode: string, stamp: string): map<JobKey, Item>
  {
    PutAll(jobs, FileKeys(jobId, folderPath, files), QueuedItems(jobId, folderPath, files, mode, stamp))
  }

  /** A registered item: queued, in the job's mode, in the folder. */
  predicate Queued(item: Item, mode: string, folderPath: string)
  {
    Worker.StatusAttr in item && Worker.ModeAttr in item && FolderPathAttr in item &&
    item[Worker.StatusAttr] == QueuedStatus && item[Worker.ModeAttr] == mode && item[FolderPathAttr] == folderPath
  }

  /** A registration adds one item per file, each queued in the job's
      mode, and leaves every other item as it was. */
  lemma RegisteredItems(jobs: map<JobKey, Item>, jobId: string, folderPath: string,
                        files: seq<PdfFile>, mode: string, stamp: string)
    ensures var r := Registered(jobs, jobId, folderPath, files, mode, stamp);
      var keys := FileKeys(jobId, folderPath, files);
      r.Keys == jobs.Keys + (set k | k in keys) &&
      (forall k :: k in jobs && k !in keys ==> r[k] == jobs[k]) &&
      (forall i :: 0 <= i < |files| ==> keys[i] in r && Queued(r[keys[i]], mode, folderPath))
  {
    var keys := FileKeys(jobId, folderPath, files);
    var items := QueuedItems(jobId, folderPath, files, mode, stamp);
    PutAllKeys(jobs, keys, items);
    var p := (it: Item) => Queued(it, mode, folderPath);
    forall i | 0 <= i < |items| ensures p(items[i]) {
      QueuedItemQueued(jobId, folderPath, files[i], mode, stamp);
    }
    PutAllHolds(jobs, keys, items, p);
  }

  lemma QueuedItemQueued(jobId: string, folderPath: string, f: PdfFile, mode: string, stamp: string)
    ensures Queued(QueuedItem(jobId, folderPath, f, mode, stamp), mode, folderPath)
  {
  }

  /** With distinct names (as in a leaf folder), each file's item is the
      one registered for it. */
  lemma RegisteredFile(jobs: map<JobKey, Item>, jobId: string, folderPath: string,
                       files: seq<PdfFile>, mode: string, stamp: string, i: nat)
    requires NamesDistinct(files) && i < |files|
    ensures var r := Registered(jobs, jobId, folderPath, files, mode, stamp);
      var k := FileKey(jobId, folderPath, files[i].fileName);
      k in r && r[k] == QueuedItem(jobId, folderPath, files[i], mode, stamp)
  {
    var keys := FileKeys(jobId, folderPath, files);
    forall j | i < j < |keys| ensures keys[j] != keys[i] {
      SortKeyInjective(folderPath, files[i].fileName, files[j].fileName);
    }
    PutAllLast(jobs, keys, QueuedItems(jobId, folderPath, files, mode, stamp), i);
  }

  lemma SortKeyInjective(folderPath: string, a: string, b: string)
    ensures Worker.SortKey(folderPath, a) == Worker.SortKey(folderPath, b) ==> a == b
  {
    assert a == Worker.SortKey(folderPath, a)[|folderPath| + 1..];
    assert b == Worker.SortKey(folderPath, b)[|folderPath| + 1..];
  }

  // ---------------------------------------------------------------------
  // The folder-config table

  /** `update_item(SET latest_job_id = …)`: the folder's other attributes
      are kept; without a configured table, or when the update fails,
      nothing changes. */
  function WithLatest(t: ConfigTable, folderPath: string, jobId: string, fails: bool): ConfigTable
  {
    if t.None? || fails then t
    else
      var prior := if folderPath in t.value then t.value[folderPath].defaultJobId else None;
      Some(t.value[folderPath := FolderManagement.FolderConfig(prior, Some(jobId))])
  }

  /** `set_default_job_id`'s `update_item(SET default_job_id = …)`. */
  function WithDefault(t: ConfigTable, folderPath: string, jobId: string): ConfigTable
    requires t.Some?
  {
    var prior := if folderPath in t.value then t.value[folderPath].latestJobId else None;
    Some(t.value[folderPath := FolderManagement.FolderConfig(Some(jobId), prior)])
  }

  /** `get_default_job_id`: none without a table, without an item, without
      the attribute, or when the read fails. */
  function DefaultOf(t: ConfigTable, folderPath: string, fails: bool): Option<string>
  {
    if t.None? || fails || folderPath !in t.value then None else t.value[folderPath].defaultJobId
  }

  /** The job id `set_default_job_id` stores is the one `get_default_job_id`
      reads back, and no other folder's default moves. */
  lemma DefaultRoundTrip(t: ConfigTable, folderPath: string, jobId: string, other: string)
    requires t.Some?
    ensures DefaultOf(WithDefault(t, folderPath, jobId), folderPath, false) == Some(jobId)
    ensures other != folderPath ==> DefaultOf(WithDefault(t, folderPath, jobId), other, false) == DefaultOf(t, other, false)
  {
  }

  /** Registering a job never changes any folder's default job, and sets
      the folder's latest job when the table is there and the update
      succeeds. */
  lemma LatestKeepsDefaults(t: ConfigTable, folderPath: string, jobId: string, fails: bool, p: string, readFails: bool)
    ensures DefaultOf(WithLatest(t, folderPath, jobId, fails), p, readFails) == DefaultOf(t, p, readFails)
    ensures t.Some? && !fails ==>
      var u := WithLatest(t, folderPath, jobId, fails).value;
      folderPath in u && u[folderPath].latestJobId == Some(jobId)
  {
  }

  /** Setting a default keeps the folder's latest job. */
  lemma DefaultKeepsLatest(t: ConfigTable, folderPath: string, jobId: string)
    requires t.Some?
    ensures var u := WithDefault(t, folderPath, jobId).value;
      u[folderPath].latestJobId == (if folderPath in t.value then t.value[folderPath].latestJobId else None)
  {
  }

  // ---------------------------------------------------------------------
  // The Step Functions input

  /** The limit on the serialised execution input, in bytes. */
  const MaxInputSize := 262144

  function TooLarge(size: nat): string
  {
    "Execution input too large: " + Strs.NatToString(size) + " bytes (max: 262144)"
  }

  type FileItem = FolderManagement.FileItem

  /** One item per PDF; only the last triggers the knowledge-base sync. */
  function JobItems(mode: string, jobId: string, folderPath: string, files: seq<PdfFile>): (r: seq<FileItem>)
    ensures |r| == |files|
  {
    seq(|files|, i requires 0 <= i < |files| =>
      FolderManagement.FileItem(mode, jobId, folderPath, files[i].fileKey, files[i].fileName, i == |files| - 1))
  }

  /** A job's execution triggers the sync exactly once, and each item
      names a file of the job. */
  lemma JobItemsSyncOnce(mode: string, jobId: string, folderPath: string, files: seq<PdfFile>)
    ensures FolderManagement.SyncCount(JobItems(mode, jobId, folderPath, files)) == if files == [] then 0 else 1
    ensures forall i :: 0 <= i < |files| ==>
      var it := JobItems(mode, jobId, folderPath, files)[i];
      it.fileKey == files[i].fileKey && it.fileName == files[i].fileName && it.jobId == jobId && it.mode == mode
  {
    var items := JobItems(mode, jobId, folderPath, files);
    if items != [] {
      FolderManagement.NoSyncBefore(items, |items| - 1);
      assert items[..|items|] == items;
    }
  }

  /** The loop of `start_step_functions_execution`: every item is built
      with the flag off, then the last one is switched on. */
  method BuildJobItems(mode: string, jobId: string, folderPath: string, files: seq<PdfFile>) returns (items: seq<FileItem>)
    ensures items == JobItems(mode, jobId, folderPath, files)
  {
    items := [];
    for i := 0 to |files|
      invariant |items| == i
      invariant forall j :: 0 <= j < i ==>
        items[j] == FolderManagement.FileItem(mode, jobId, folderPath, files[j].fileKey, files[j].fileName, false)
    {
      items := items + [FolderManagement.FileItem(mode, jobId, folderPath, files[i].fileKey, files[i].fileName, false)];
    }
    if items != [] {
      items := items[|items| - 1 := items[|items| - 1].(triggerKbSync := true)];
    }
  }

  /** An item of a reknowledge execution; its mode is `reknowledge` and it
      carries no file key. */
  datatype ReknowledgeItem = ReknowledgeItem(jobId: string, sourceJobId: string, folderPath: string,
                                             fileName: Option<string>, triggerKbSync: bool)

  function ReknowledgeItems(jobId: string, sourceJobId: string, folderPath: string, names: seq<Option<string>>)
    : (r: seq<ReknowledgeItem>)
    ensures |r| == |names|
  {
    seq(|names|, i requires 0 <= i < |names| =>
      ReknowledgeItem(jobId, sourceJobId, folderPath, names[i], i == |names| - 1))
  }

  /** A reknowledge execution triggers the sync on its last item only. */
  lemma ReknowledgeItemsSyncOnce(jobId: string, sourceJobId: string, folderPath: string, names: seq<Option<string>>)
    ensures var r := ReknowledgeItems(jobId, sourceJobId, folderPath, names);
      forall i :: 0 <= i < |r| ==> (r[i].triggerKbSync <==> i == |names| - 1) && r[i].fileName == names[i]
  {
  }

  method BuildReknowledgeItems(jobId: string, sourceJobId: string, folderPath: string, names: seq<Option<string>>)
    returns (items: seq<ReknowledgeItem>)
    ensures items == ReknowledgeItems(jobId, sourceJobId, folderPath, names)
  {
    items := [];
    for i := 0 to |names|
      invariant |items| == i
      invariant forall j :: 0 <= j < i ==> items[j] == ReknowledgeItem(jobId, sourceJobId, folderPath, names[j], false)
    {
      items := items + [ReknowledgeItem(jobId, sourceJobId, folderPath, names[i], false)];
    }
    if items != [] {
      items := items[|items| - 1 := items[|items| - 1].(triggerKbSync := true)];
    }
  }

  datatype ExecutionInput = JobFiles(files: seq<FileItem>) | ReknowledgeFiles(items: seq<ReknowledgeItem>)

  /** A started Step Functions execution: its name and its input. */
  datatype Execution = Execution(name: string, input: ExecutionInput)

  // ---------------------------------------------------------------------
  // The handler

  /** The jobs table, the bucket, the folder-config table (`None` when
      `DYNAMODB_FOLDER_CONFIG_TABLE` is unset) and the executions started. */
  datatype JobState = JobState(jobs: map<JobKey, Item>, objects: map<string, Worker.Body>,
                               folders: ConfigTable, executions: seq<Execution>)

  /** The body members the handler reads; `None` is a missing or null
      member. */
  datatype JobBody = JobBody(folderPath: Option<string>, jobId: Option<string>,
                             transcriptPrompt: Option<string>, knowledgePrompt: Option<string>,
                             pdfFiles: Option<seq<string>>, processingMode: Option<string>)

  /** The method and path come from the REST event or from the HTTP API's
      request context. */
  datatype JobRequest = JobRequest(httpMethod: Option<string>, contextMethod: Option<string>,
                                   path: Option<string>, contextPath: Option<string>,
                                   query: FolderManagement.QueryParams, body: JobBody)

  /** The lambda's surroundings: the bucket's keys (`None` when listing
      raises), the clock, the `last_update` stamp, whether the config table
      raises, the order in which the jobs table returns keys, the size of
      the serialised execution input, whether `STATE_MACHINE_ARN` is set,
      what `start_execution` answers, and the text of an AWS error. */
  datatype JobEnv = JobEnv(listing: Option<seq<string>>, clock: Clock, stamp: string, tableFails: bool,
                           order: seq<JobKey>, inputSize: nat, hasStateMachine: bool,
                           execution: Result<string>, awsError: string)

  datatype ResponseBody =
    | FolderTreeBody(tree: seq<FolderTree.FolderNode>)
    | PdfList(files: seq<string>, count: nat)
    | DefaultSet(message: string, folderPath: string, jobId: string)
    | DefaultJob(folderPath: string, defaultJobId: Option<string>)
    | ReknowledgeAccepted(jobId: string, sourceJobId: string, folderPath: string, fileCount: nat,
                          arn: Option<string>, message: string)
    | JobAccepted(jobId: string, folderPath: string, pdfCount: nat, executionArn: string, message: string)
    | ErrorBody(error: string)
    | FailureBody(error: string, message: string)

  datatype Response = Response(statusCode: int, body: ResponseBody)

  /** A response and the state after it. */
  datatype Outcome = Outcome(response: Response, after: JobState)

  const InternalError := "Internal server error"
  const FolderRequired := "folder_path is required"
  const DefaultRequired := "folder_path and job_id are required"
  const DefaultSetMessage := "Default job_id set successfully"
  const DefaultFailed := "Failed to set default job_id"
  const ReknowledgeRequired := "job_id (source), folder_path, and knowledge_prompt are required"
  const ReknowledgeFailed := "Failed to process reknowledge request"
  const ReknowledgeStartedMessage := "Reknowledge job started with new job_id"
  const InvalidMode := "Invalid processing_mode. Must be one of: ['full', 'direct_pdf']"
  const PromptsRequired := "transcript_prompt and knowledge_prompt are required for non-direct_pdf modes"
  const NotLeaf := "Selected folder has child folders. Please select a leaf folder only."
  const NoPdfs := "No PDF files found in folder: "
  const JobStartedMessage := "Job started via Step Functions"
  const ValidModes: seq<string> := ["full", "direct_pdf"]

  function MethodOf(req: JobRequest): string
  {
    req.httpMethod.GetOr(req.contextMethod.GetOr("POST"))
  }

  function PathOf(req: JobRequest): string
  {
    req.path.GetOr(req.contextPath.GetOr("/api/job"))
  }

  /** `(event.get('queryStringParameters', {}) or {}).get('folder_path', '')`. */
  function QueryFolder(q: FolderManagement.QueryParams): string
  {
    if q.Params? && "folder_path" in q.values then q.values["folder_path"] else ""
  }

  /** `get_pdf_files_in_folder`; a failed listing gives no files. */
  function ListedPdfs(listing: Option<seq<string>>, folderPath: string, specific: seq<string>): seq<PdfFile>
  {
    if listing.None? then [] else PdfFiles(listing.value, folderPath, specific)
  }

  function Names(files: seq<PdfFile>): (r: seq<string>)
    ensures |r| == |files| && forall i :: 0 <= i < |files| ==> r[i] == files[i].fileName
  {
    seq(|files|, i requires 0 <= i < |files| => files[i].fileName)
  }

  /** `GET /api/folders`; the tree helper re-raises a listing error. */
  function FolderTreeResponse(listing: Option<seq<string>>, awsError: string): Response
  {
    if listing.None? then Response(500, FailureBody(InternalError, awsError))
    else Response(200, FolderTreeBody(FolderTree.Tree(FolderTree.Folders(listing.value), FolderTree.WithFiles(listing.value))))
  }

  /** `GET /list-pdfs`: the names of every PDF of the folder. */
  function ListPdfsResponse(folderPath: string, listing: Option<seq<string>>): (r: Response)
    ensures r.statusCode == 200 <==> folderPath != ""
    ensures folderPath != "" ==>
      r.body.PdfList? && r.body.count == |r.body.files| &&
      forall n :: n in r.body.files <==> exists f :: f in ListedPdfs(listing, folderPath, []) && f.fileName == n
  {
    if folderPath == "" then Response(400, ErrorBody(FolderRequired))
    else
      var names := Names(ListedPdfs(listing, folderPath, []));
      Response(200, PdfList(names, |names|))
  }

  /** `POST /default-job`: both members are required and are not stripped. */
  function SetDefault(s: JobState, body: JobBody, env: JobEnv): (r: Outcome)
    ensures r.response.statusCode == 200 <==>
      body.folderPath.GetOr("") != "" && body.jobId.GetOr("") != "" && s.folders.Some? && !env.tableFails
    ensures r.response.statusCode == 200 ==>
      DefaultOf(r.after.folders, body.folderPath.value, false) == Some(body.jobId.value)
    ensures r.response.statusCode != 200 ==> r.after == s
    ensures r.after.jobs == s.jobs && r.after.objects == s.objects && r.after.executions == s.executions
  {
    var fp := body.folderPath.GetOr("");
    var jobId := body.jobId.GetOr("");
    if fp == "" || jobId == "" then Outcome(Response(400, ErrorBody(DefaultRequired)), s)
    else if s.folders.None? || env.tableFails then Outcome(Response(500, ErrorBody(DefaultFailed)), s)
    else
      DefaultRoundTrip(s.folders, fp, jobId, fp);
      Outcome(Response(200, DefaultSet(DefaultSetMessage, fp, jobId)), s.(folders := WithDefault(s.folders, fp, jobId)))
  }

  /** `GET /default-job`. */
  function GetDefault(s: JobState, folderPath: string, env: JobEnv): (r: Response)
    ensures r.statusCode == 200 <==> folderPath != ""
    ensures folderPath != "" ==> r.body == DefaultJob(folderPath, DefaultOf(s.folders, folderPath, env.tableFails))
  {
    if folderPath == "" then Response(400, ErrorBody(FolderRequired))
    else Response(200, DefaultJob(folderPath, DefaultOf(s.folders, folderPath, env.tableFails)))
  }

  // ----- POST /reknowledge -----

  /** A key of the source job whose sort key begins with `folder_path#`. */
  predicate SourceMatch(k: JobKey, sourceJobId: string, folderPath: string)
  {
    k.0 == sourceJobId && Strs.StartsWith(k.1, folderPath + "#")
  }

  /** The keys the jobs-table query returns, in the table's order. */
  function Matching(jobs: map<JobKey, Item>, order: seq<JobKey>, sourceJobId: string, folderPath: string): seq<JobKey>
  {
    if order == [] then []
    else
      var rest := Matching(jobs, order[..|order| - 1], sourceJobId, folderPath);
      var k := order[|order| - 1];
      if k in jobs && SourceMatch(k, sourceJobId, folderPath) then rest + [k] else rest
  }

  /** The query answers exactly the source job's items under the folder. */
  lemma {:induction false} MatchingExactly(jobs: map<JobKey, Item>, order: seq<JobKey>, sourceJobId: string, folderPath: string)
    ensures forall k :: k in Matching(jobs, order, sourceJobId, folderPath) <==>
      k in order && k in jobs && SourceMatch(k, sourceJobId, folderPath)
  {
    if order != [] {
      var front := order[..|order| - 1];
      MatchingExactly(jobs, front, sourceJobId, folderPath);
      assert order == front + [order[|order| - 1]];
    }
  }

  /** `item.get(primary) or item.get(fallback)`. */
  function FirstOf(item: Item, primary: string, fallback: string): Option<string>
  {
    if primary in item && item[primary] != "" then Some(item[primary])
    else if fallback in item then Some(item[fallback])
    else None
  }

  /** How an f-string renders a missing name. */
  function NameText(name: Option<string>): string
  {
    if name.Some? then name.value else "None"
  }

  const WaitingMessage := "Waiting for reknowledge processing from source "

  /** The item a reknowledge job puts for one source item; a missing name
      or key is left out. */
  function ReknowledgePut(jobId: string, sourceJobId: string, folderPath: string, source: Item, stamp: string): Item
  {
    var name := FirstOf(source, FileNameAttr, PdfNameAttr);
    var key := FirstOf(source, Worker.FileKeyAttr, PdfKeyAttr);
    map[JobIdAttr := jobId, SortKeyAttr := Worker.SortKey(folderPath, NameText(name)),
        FolderPathAttr := folderPath, Worker.StatusAttr := Worker.ReknowledgeMode,
        Worker.MessageAttr := WaitingMessage + sourceJobId, Worker.ModeAttr := Worker.ReknowledgeMode,
        Worker.SourceJobAttr := sourceJobId, Worker.LastUpdateAttr := stamp] +
    (if name.Some? then map[FileNameAttr := name.value] else map[]) +
    (if key.Some? then map[Worker.FileKeyAttr := key.value] else map[])
  }

  function ReknowledgeKey(jobId: string, folderPath: string, source: Item): JobKey
  {
    FileKey(jobId, folderPath, NameText(FirstOf(source, FileNameAttr, PdfNameAttr)))
  }

  function ReknowledgeKeys(jobId: string, folderPath: string, sources: seq<Item>): (r: seq<JobKey>)
    ensures |r| == |sources|
  {
    seq(|sources|, i requires 0 <= i < |sources| => ReknowledgeKey(jobId, folderPath, sources[i]))
  }

  function ReknowledgePuts(jobId: string, sourceJobId: string, folderPath: string, sources: seq<Item>, stamp: string)
    : (r: seq<Item>)
    ensures |r| == |sources|
  {
    seq(|sources|, i requires 0 <= i < |sources| => ReknowledgePut(jobId, sourceJobId, folderPath, sources[i], stamp))
  }

  /** The jobs table after the reknowledge puts, in order. */
  function Rekeyed(jobs: map<JobKey, Item>, sources: seq<Item>, jobId: string, sourceJobId: string,
                   folderPath: string, stamp: string): map<JobKey, Item>
  {
    PutAll(jobs, ReknowledgeKeys(jobId, folderPath, sources), ReknowledgePuts(jobId, sourceJobId, folderPath, sources, stamp))
  }

  /** An item of a reknowledge job waiting for the worker. */
  predicate Waiting(item: Item, sourceJobId: string)
  {
    Worker.StatusAttr in item && Worker.SourceJobAttr in item && Worker.ModeAttr in item &&
    item[Worker.StatusAttr] == Worker.ReknowledgeMode && item[Worker.SourceJobAttr] == sourceJobId &&
    item[Worker.ModeAttr] == Worker.ReknowledgeMode
  }

  lemma ReknowledgePutsWait(jobId: string, sourceJobId: string, folderPath: string, sources: seq<Item>, stamp: string)
    ensures forall i :: 0 <= i < |sources| ==> Waiting(ReknowledgePuts(jobId, sourceJobId, folderPath, sources, stamp)[i], sourceJobId)
  {
  }

  /** Every source item gets an item of the new job, waiting in the
      `reknowledge` status with the source job recorded, and no item of
      another job changes. */
  lemma RekeyedItems(jobs: map<JobKey, Item>, sources: seq<Item>, jobId: string, sourceJobId: string,
                     folderPath: string, stamp: string)
    ensures var r := Rekeyed(jobs, sources, jobId, sourceJobId, folderPath, stamp);
      (forall i :: 0 <= i < |sources| ==>
        ReknowledgeKey(jobId, folderPath, sources[i]) in r &&
        Waiting(r[ReknowledgeKey(jobId, folderPath, sources[i])], sourceJobId)) &&
      (forall k: JobKey :: k.0 != jobId ==> (k in r <==> k in jobs) && (k in jobs ==> r[k] == jobs[k]))
  {
    var keys := ReknowledgeKeys(jobId, folderPath, sources);
    var puts := ReknowledgePuts(jobId, sourceJobId, folderPath, sources, stamp);
    var p := (it: Item) => Waiting(it, sourceJobId);
    ReknowledgePutsWait(jobId, sourceJobId, folderPath, sources, stamp);
    PutAllHolds(jobs, keys, puts, p);
    forall i | 0 <= i < |sources| ensures keys[i] == ReknowledgeKey(jobId, folderPath, sources[i]) { }
    PutAllKeys(jobs, keys, puts);
    forall k: JobKey | k.0 != jobId ensures k !in keys {
      assert forall i :: 0 <= i < |keys| ==> keys[i].0 == jobId;
    }
  }

  function SourceItems(jobs: map<JobKey, Item>, keys: seq<JobKey>): (r: seq<Item>)
    ensures |r| == |keys|
  {
    seq(|keys|, i requires 0 <= i < |keys| => Worker.ItemAt(jobs, keys[i]))
  }

  function SourceNames(items: seq<Item>): (r: seq<Option<string>>)
    ensures |r| == |items|
  {
    seq(|items|, i requires 0 <= i < |items| => FirstOf(items[i], FileNameAttr, PdfNameAttr))
  }

  /** The new job's prompts: the source job's transcript prompt and the
      new knowledge prompt. */
  function CopiedPrompts(objects: map<string, Worker.Body>, folderPath: string, sourceJobId: string,
                         jobId: string, knowledgePrompt: string): map<string, Worker.Body>
    requires Worker.PromptKey(folderPath, sourceJobId, "transcript") in objects
  {
    objects[Worker.PromptKey(folderPath, jobId, "transcript") := objects[Worker.PromptKey(folderPath, sourceJobId, "transcript")]]
           [Worker.PromptKey(folderPath, jobId, "knowledge") := Worker.Text(knowledgePrompt)]
  }

  function NotFound(sourceJobId: string, folderPath: string): string
  {
    "No job found for source_job_id=" + sourceJobId + ", folder_path=" + folderPath
  }

  /** The stripped source job id, the stripped folder and the prompt. */
  datatype ReknowledgeFields = ReknowledgeFields(sourceJobId: string, folderPath: string, knowledgePrompt: string)

  function ReknowledgeFieldsOf(body: JobBody): ReknowledgeFields
  {
    ReknowledgeFields(Strs.Strip(body.jobId.GetOr("")), Strs.Strip(body.folderPath.GetOr("")),
                      body.knowledgePrompt.GetOr(""))
  }

  /** `POST /reknowledge`: a new job over the source job's files that
      reuses its transcripts and regenerates the knowledge. */
  function Reknowledge(s: JobState, body: JobBody, env: JobEnv): Outcome
  {
    var f := ReknowledgeFieldsOf(body);
    if f.sourceJobId == "" || f.folderPath == "" || f.knowledgePrompt == "" then
      Outcome(Response(400, ErrorBody(ReknowledgeRequired)), s)
    else
      var keys := Matching(s.jobs, env.order, f.sourceJobId, f.folderPath);
      if keys == [] then Outcome(Response(404, ErrorBody(NotFound(f.sourceJobId, f.folderPath))), s)
      else if Worker.PromptKey(f.folderPath, f.sourceJobId, "transcript") !in s.objects then
        Outcome(Response(500, FailureBody(ReknowledgeFailed, env.awsError)), s)
      else
        var jobId := JobId(env.clock);
        var sources := SourceItems(s.jobs, keys);
        var s1 := s.(objects := CopiedPrompts(s.objects, f.folderPath, f.sourceJobId, jobId, f.knowledgePrompt),
                     jobs := Rekeyed(s.jobs, sources, jobId, f.sourceJobId, f.folderPath, env.stamp));
        if !env.hasStateMachine then
          Outcome(Response(202, ReknowledgeAccepted(jobId, f.sourceJobId, f.folderPath, |keys|, None, ReknowledgeStartedMessage)), s1)
        else if env.execution.Err? then
          Outcome(Response(500, FailureBody(ReknowledgeFailed, env.execution.error)), s1)
        else
          var items := ReknowledgeItems(jobId, f.sourceJobId, f.folderPath, SourceNames(sources));
          Outcome(Response(202, ReknowledgeAccepted(jobId, f.sourceJobId, f.folderPath, |keys|,
                                                    Some(env.execution.value), ReknowledgeStartedMessage)),
                  s1.(executions := s1.executions + [Execution(jobId + "-reknowledge", ReknowledgeFiles(items))]))
  }

  /** When the order lists every key of the table, the request is refused
      with 404 exactly when the source job has no item under the folder,
      and a refusal writes nothing. */
  lemma ReknowledgeNotFound(s: JobState, body: JobBody, env: JobEnv)
    requires forall k :: k in s.jobs ==> k in env.order
    ensures var f := ReknowledgeFieldsOf(body);
      Reknowledge(s, body, env).response.statusCode == 404 <==>
        f.sourceJobId != "" && f.folderPath != "" && f.knowledgePrompt != "" &&
        !exists k :: k in s.jobs && SourceMatch(k, f.sourceJobId, f.folderPath)
    ensures Reknowledge(s, body, env).response.statusCode in {400, 404} ==> Reknowledge(s, body, env).after == s
  {
    var f := ReknowledgeFieldsOf(body);
    MatchingExactly(s.jobs, env.order, f.sourceJobId, f.folderPath);
    var keys := Matching(s.jobs, env.order, f.sourceJobId, f.folderPath);
    if keys != [] {
      assert keys[0] in keys;
    }
  }

  /** A started reknowledge job carries the source job's transcript prompt
      and the new knowledge prompt where the worker reads them, and every
      source file has an item of the new job waiting in `reknowledge`. */
  lemma ReknowledgeStarted(s: JobState, body: JobBody, env: JobEnv)
    requires Reknowledge(s, body, env).response.statusCode == 202
    ensures var f := ReknowledgeFieldsOf(body);
      var r := Reknowledge(s, body, env);
      var jobId := JobId(env.clock);
      var t := Worker.PromptKey(f.folderPath, jobId, "transcript");
      var k := Worker.PromptKey(f.folderPath, jobId, "knowledge");
      Worker.PromptKey(f.folderPath, f.sourceJobId, "transcript") in s.objects &&
      t in r.after.objects && k in r.after.objects && r.after.objects[k] == Worker.Text(f.knowledgePrompt) &&
      (t != k ==> r.after.objects[t] == s.objects[Worker.PromptKey(f.folderPath, f.sourceJobId, "transcript")])
    ensures var f := ReknowledgeFieldsOf(body);
      var r := Reknowledge(s, body, env);
      var keys := Matching(s.jobs, env.order, f.sourceJobId, f.folderPath);
      var sources := SourceItems(s.jobs, keys);
      r.response.body.fileCount == |keys| > 0 &&
      (forall i :: 0 <= i < |sources| ==>
        var key := ReknowledgeKey(JobId(env.clock), f.folderPath, sources[i]);
        key in r.after.jobs && Waiting(r.after.jobs[key], f.sourceJobId))
    ensures var r := Reknowledge(s, body, env);
      (r.response.body.arn.Some? <==> env.hasStateMachine) &&
      |r.after.executions| == |s.executions| + (if env.hasStateMachine then 1 else 0)
  {
    var f := ReknowledgeFieldsOf(body);
    var keys := Matching(s.jobs, env.order, f.sourceJobId, f.folderPath);
    RekeyedItems(s.jobs, SourceItems(s.jobs, keys), JobId(env.clock), f.sourceJobId, f.folderPath, env.stamp);
  }

  // ----- POST /job -----

  /** The members `POST /job` reads, after their defaults; the folder and
      the mode are stripped. */
  datatype JobFields = JobFields(folderPath: string, transcriptPrompt: string, knowledgePrompt: string,
                                 requested: seq<string>, mode: string)

  function JobFieldsOf(body: JobBody): JobFields
  {
    JobFields(Strs.Strip(body.folderPath.GetOr("")), body.transcriptPrompt.GetOr(""), body.knowledgePrompt.GetOr(""),
              body.pdfFiles.GetOr([]), Strs.Strip(body.processingMode.GetOr(Worker.FullMode)))
  }

  /** The validation of `POST /job`, in its order: the mode, the folder,
      the prompts (not needed for `direct_pdf`), the leaf check and the
      PDFs found. */
  function JobRejection(j: JobFields, listing: Option<seq<string>>): (r: Option<string>)
    ensures r.None? <==>
      j.mode in ValidModes && j.folderPath != "" &&
      (j.mode == Worker.DirectPdfMode || (j.transcriptPrompt != "" && j.knowledgePrompt != "")) &&
      !HasChildren(listing, j.folderPath) && ListedPdfs(listing, j.folderPath, j.requested) != []
    ensures j.mode !in ValidModes ==> r == Some(InvalidMode)
  {
    if j.mode !in ValidModes then Some(InvalidMode)
    else if j.folderPath == "" then Some(FolderRequired)
    else if j.mode != Worker.DirectPdfMode && (j.transcriptPrompt == "" || j.knowledgePrompt == "") then Some(PromptsRequired)
    else if HasChildren(listing, j.folderPath) then Some(NotLeaf)
    else if ListedPdfs(listing, j.folderPath, j.requested) == [] then Some(NoPdfs + j.folderPath)
    else None
  }

  /** The two prompts a job reads, saved under the job's prompt folder. */
  function SavedPrompts(objects: map<string, Worker.Body>, folderPath: string, jobId: string,
                        transcriptPrompt: string, knowledgePrompt: string): map<string, Worker.Body>
  {
    objects[Worker.PromptKey(folderPath, jobId, "transcript") := Worker.Text(transcriptPrompt)]
           [Worker.PromptKey(folderPath, jobId, "knowledge") := Worker.Text(knowledgePrompt)]
  }

  /** The state after `register_job_in_dynamodb` and the prompt save of
      `start_step_functions_execution`, both of which precede the size
      check and the start. */
  function Prepared(s: JobState, j: JobFields, files: seq<PdfFile>, jobId: string, env: JobEnv): JobState
  {
    var s1 := s.(jobs := Registered(s.jobs, jobId, j.folderPath, files, j.mode, env.stamp),
                 folders := WithLatest(s.folders, j.folderPath, jobId, env.tableFails));
    if j.mode != Worker.DirectPdfMode then
      s1.(objects := SavedPrompts(s1.objects, j.folderPath, jobId, j.transcriptPrompt, j.knowledgePrompt))
    else s1
  }

  /** The size check and the start of the execution, after the job was
      prepared: only the executions may change. */
  function StartJob(s2: JobState, j: JobFields, files: seq<PdfFile>, jobId: string, env: JobEnv): (r: Outcome)
    ensures r.after.jobs == s2.jobs && r.after.folders == s2.folders && r.after.objects == s2.objects
    ensures r.response.statusCode == 202 <==> env.inputSize <= MaxInputSize && env.execution.Ok?
    ensures r.response.statusCode != 202 ==> r.after == s2 && r.response.statusCode == 500
  {
    if env.inputSize > MaxInputSize then Outcome(Response(500, FailureBody(InternalError, TooLarge(env.inputSize))), s2)
    else if env.execution.Err? then Outcome(Response(500, FailureBody(InternalError, env.execution.error)), s2)
    else
      var run := Execution("job-" + jobId, JobFiles(JobItems(j.mode, jobId, j.folderPath, files)));
      Outcome(Response(202, JobAccepted(jobId, j.folderPath, |files|, env.execution.value, JobStartedMessage)),
              s2.(executions := s2.executions + [run]))
  }

  /** `POST /job`. */
  function CreateJob(s: JobState, body: JobBody, env: JobEnv): Outcome
  {
    var j := JobFieldsOf(body);
    var err := JobRejection(j, env.listing);
    if err.Some? then Outcome(Response(400, ErrorBody(err.value)), s)
    else
      var files := ListedPdfs(env.listing, j.folderPath, j.requested);
      var jobId := JobId(env.clock);
      StartJob(Prepared(s, j, files, jobId, env), j, files, jobId, env)
  }

  /** A refused job is answered 400 and writes nothing. */
  lemma CreateJobRefused(s: JobState, body: JobBody, env: JobEnv)
    ensures var r := CreateJob(s, body, env);
      (r.response.statusCode == 400 <==> JobRejection(JobFieldsOf(body), env.listing).Some?) &&
      (r.response.statusCode == 400 ==> r.after == s && r.response.body == ErrorBody(JobRejection(JobFieldsOf(body), env.listing).value))
  {
  }

  /** An accepted job comes from a leaf folder with PDFs, and starts one
      execution whose items name those files and trigger the sync once. */
  lemma CreateJobAccepted(s: JobState, body: JobBody, env: JobEnv)
    requires CreateJob(s, body, env).response.statusCode == 202
    ensures var j := JobFieldsOf(body);
      var files := ListedPdfs(env.listing, j.folderPath, j.requested);
      var r := CreateJob(s, body, env);
      var jobId := JobId(env.clock);
      var items := JobItems(j.mode, jobId, j.folderPath, files);
      r.response.body == JobAccepted(jobId, j.folderPath, |files|, env.execution.value, JobStartedMessage) &&
      files != [] && !HasChildren(env.listing, j.folderPath) &&
      r.after.executions == s.executions + [Execution("job-" + jobId, JobFiles(items))] &&
      FolderManagement.SyncCount(items) == 1 &&
      forall i :: 0 <= i < |files| ==> items[i].fileKey == files[i].fileKey && items[i].fileName == files[i].fileName
  {
    var j := JobFieldsOf(body);
    JobItemsSyncOnce(j.mode, JobId(env.clock), j.folderPath, ListedPdfs(env.listing, j.folderPath, j.requested));
  }

  /** Once a job passes validation, its items are registered, the folder's
      latest job is recorded and its prompts are saved, whatever happens
      after. */
  lemma CreateJobPrepares(s: JobState, body: JobBody, env: JobEnv)
    requires JobRejection(JobFieldsOf(body), env.listing).None?
    ensures var j := JobFieldsOf(body);
      var p := Prepared(s, j, ListedPdfs(env.listing, j.folderPath, j.requested), JobId(env.clock), env);
      var r := CreateJob(s, body, env);
      r.after.jobs == p.jobs && r.after.folders == p.folders && r.after.objects == p.objects
  {
  }

  /** Each PDF of a prepared job has a `queued` item of the new job, no
      other job's item changes, and no folder's default job moves. */
  lemma PreparedRegisters(s: JobState, j: JobFields, files: seq<PdfFile>, jobId: string, env: JobEnv)
    ensures var p := Prepared(s, j, files, jobId, env);
      (forall i :: 0 <= i < |files| ==>
        FileKey(jobId, j.folderPath, files[i].fileName) in p.jobs &&
        Queued(p.jobs[FileKey(jobId, j.folderPath, files[i].fileName)], j.mode, j.folderPath)) &&
      (forall k :: k in s.jobs && k.0 != jobId ==> k in p.jobs && p.jobs[k] == s.jobs[k]) &&
      (forall f :: DefaultOf(p.folders, f, false) == DefaultOf(s.folders, f, false))
  {
    RegisteredItems(s.jobs, jobId, j.folderPath, files, j.mode, env.stamp);
    var keys := FileKeys(jobId, j.folderPath, files);
    assert forall i :: 0 <= i < |files| ==> keys[i] == FileKey(jobId, j.folderPath, files[i].fileName);
    assert forall k :: k in keys ==> k.0 == jobId;
    forall f {
      LatestKeepsDefaults(s.folders, j.folderPath, jobId, env.tableFails, f, false);
    }
  }

  /** When the bucket's keys are distinct and the folder is a leaf, each
      registered item is exactly the one made for its PDF. */
  lemma PreparedItemsExact(s: JobState, j: JobFields, keys: seq<string>, jobId: string, env: JobEnv, i: nat)
    requires !HasChildren(Some(keys), j.folderPath)
    requires forall a, b :: 0 <= a < b < |keys| ==> keys[a] != keys[b]
    requires i < |PdfFiles(keys, j.folderPath, j.requested)|
    ensures var f := PdfFiles(keys, j.folderPath, j.requested)[i];
      var p := Prepared(s, j, PdfFiles(keys, j.folderPath, j.requested), jobId, env);
      FileKey(jobId, j.folderPath, f.fileName) in p.jobs &&
      p.jobs[FileKey(jobId, j.folderPath, f.fileName)] == QueuedItem(jobId, j.folderPath, f, j.mode, env.stamp)
  {
    LeafNamesDistinct(keys, j.folderPath, j.requested);
    RegisteredFile(s.jobs, jobId, j.folderPath, PdfFiles(keys, j.folderPath, j.requested), j.mode, env.stamp, i);
  }

  /** A job in `full` mode leaves both prompts where the worker reads them;
      a `direct_pdf` job saves none. */
  lemma PreparedPrompts(s: JobState, j: JobFields, files: seq<PdfFile>, jobId: string, env: JobEnv)
    ensures var p := Prepared(s, j, files, jobId, env);
      (j.mode == Worker.FullMode ==>
        Worker.PromptKey(j.folderPath, jobId, "transcript") in p.objects &&
        Worker.PromptKey(j.folderPath, jobId, "knowledge") in p.objects &&
        p.objects[Worker.PromptKey(j.folderPath, jobId, "transcript")] == Worker.Text(j.transcriptPrompt) &&
        p.objects[Worker.PromptKey(j.folderPath, jobId, "knowledge")] == Worker.Text(j.knowledgePrompt)) &&
      (j.mode == Worker.DirectPdfMode ==> p.objects == s.objects)
  {
    if j.mode == Worker.FullMode {
      PromptKeysDiffer(j.folderPath, jobId);
    }
  }

  lemma PromptKeysDiffer(folderPath: string, jobId: string)
    ensures Worker.PromptKey(folderPath, jobId, "transcript") != Worker.PromptKey(folderPath, jobId, "knowledge")
  {
    var n := |"Prompts/" + folderPath + "/" + jobId + "/"|;
    assert Worker.PromptKey(folderPath, jobId, "transcript")[n] == 't';
    assert Worker.PromptKey(folderPath, jobId, "knowledge")[n] == 'k';
  }

  /** An execution input over the limit is refused with 500 only after
      the items are registered and the prompts saved: the job's items stay
      queued with no execution to process them. */
  lemma CreateJobTooLarge(s: JobState, body: JobBody, env: JobEnv)
    requires JobRejection(JobFieldsOf(body), env.listing).None? && env.inputSize > MaxInputSize
    ensures var j := JobFieldsOf(body);
      var files := ListedPdfs(env.listing, j.folderPath, j.requested);
      var r := CreateJob(s, body, env);
      r.response == Response(500, FailureBody(InternalError, TooLarge(env.inputSize))) &&
      r.after.executions == s.executions &&
      r.after.jobs == Registered(s.jobs, JobId(env.clock), j.folderPath, files, j.mode, env.stamp)
  {
  }

  // ----- routing -----

  predicate IsRoute(httpMethod: string, path: string)
  {
    (httpMethod == "GET" && path in {"/api/folders", "/list-pdfs", "/api/list-pdfs", "/default-job", "/api/default-job"}) ||
    (httpMethod == "POST" && path in {"/default-job", "/api/default-job", "/reknowledge", "/api/reknowledge", "/job", "/api/job"})
  }

  /** `lambda_handler`: the routes in their order; a request no route
      matches gets no response. */
  function Handle(s: JobState, req: JobRequest, env: JobEnv): (r: Option<Outcome>)
    ensures r.None? <==> !IsRoute(MethodOf(req), PathOf(req))
    ensures r.Some? && MethodOf(req) == "GET" ==> r.value.after == s
  {
    var m := MethodOf(req);
    var p := PathOf(req);
    if m == "GET" && p == "/api/folders" then Some(Outcome(FolderTreeResponse(env.listing, env.awsError), s))
    else if m == "GET" && (p == "/list-pdfs" || p == "/api/list-pdfs") then
      Some(Outcome(ListPdfsResponse(QueryFolder(req.query), env.listing), s))
    else if m == "POST" && (p == "/default-job" || p == "/api/default-job") then Some(SetDefault(s, req.body, env))
    else if m == "GET" && (p == "/default-job" || p == "/api/default-job") then
      Some(Outcome(GetDefault(s, QueryFolder(req.query), env), s))
    else if m == "POST" && (p == "/reknowledge" || p == "/api/reknowledge") then Some(Reknowledge(s, req.body, env))
    else if m == "POST" && (p == "/job" || p == "/api/job") then Some(CreateJob(s, req.body, env))
    else None
  }

  // ---------------------------------------------------------------------
  // The lambda against its tables, bucket and state machine

  /** `check_folder_has_children`, in its intended form: a scan for a key
      below a sub-folder. */
  method CheckFolderHasChildren(listing: Option<seq<string>>, folderPath: string) returns (found: bool)
    ensures found == HasChildren(listing, folderPath)
  {
    found := false;
    if listing.None? {
      return;
    }
    var keys := listing.value;
    var prefix := PdfPrefix(folderPath);
    for i := 0 to |keys|
      invariant found <==> exists k :: k in keys[..i] && InSubfolder(k, prefix)
    {
      assert keys[..i + 1] == keys[..i] + [keys[i]];
      if InSubfolder(keys[i], prefix) {
        found := true;
      }
    }
    assert keys[..|keys|] == keys;
  }

  class JobStore {
    var jobs: map<JobKey, Item>
    var objects: map<string, Worker.Body>
    var folders: ConfigTable
    var executions: seq<Execution>

    constructor (s: JobState)
      ensures Snapshot() == s
    {
      jobs := s.jobs;
      objects := s.objects;
      folders := s.folders;
      executions := s.executions;
    }

    function Snapshot(): JobState
      reads this
    {
      JobState(jobs, objects, folders, executions)
    }

    /** `register_job_in_dynamodb`: one put per PDF, then the folder's
        latest job; a failed config update is only logged. */
    method RegisterJob(jobId: string, folderPath: string, files: seq<PdfFile>, mode: string, stamp: string, tableFails: bool)
      modifies this
      ensures Snapshot() == old(Snapshot()).(jobs := Registered(old(jobs), jobId, folderPath, files, mode, stamp),
                                             folders := WithLatest(old(folders), folderPath, jobId, tableFails))
    {
      ghost var keys := FileKeys(jobId, folderPath, files);
      ghost var items := QueuedItems(jobId, folderPath, files, mode, stamp);
      for i := 0 to |files|
        invariant jobs == PutAll(old(jobs), keys[..i], items[..i])
        invariant objects == old(objects) && folders == old(folders) && executions == old(executions)
      {
        PutAllStep(old(jobs), keys, items, i);
        jobs := jobs[FileKey(jobId, folderPath, files[i].fileName) := QueuedItem(jobId, folderPath, files[i], mode, stamp)];
      }
      assert keys[..|files|] == keys && items[..|files|] == items;
      if folders.Some? && !tableFails {
        var prior := if folderPath in folders.value then folders.value[folderPath].defaultJobId else None;
        folders := Some(folders.value[folderPath := FolderManagement.FolderConfig(prior, Some(jobId))]);
      }
    }

    /** The prompt save and the start of `start_step_functions_execution`;
        the size check comes between them. */
    method StartJobExecution(jobId: string, j: JobFields, files: seq<PdfFile>, env: JobEnv) returns (resp: Response)
      modifies this
      ensures var saved := if j.mode != Worker.DirectPdfMode
                           then SavedPrompts(old(objects), j.folderPath, jobId, j.transcriptPrompt, j.knowledgePrompt)
                           else old(objects);
        jobs == old(jobs) && folders == old(folders) && objects == saved
      ensures var run := Execution("job-" + jobId, JobFiles(JobItems(j.mode, jobId, j.folderPath, files)));
        if env.inputSize > MaxInputSize then
          resp == Response(500, FailureBody(InternalError, TooLarge(env.inputSize))) && executions == old(executions)
        else if env.execution.Err? then
          resp == Response(500, FailureBody(InternalError, env.execution.error)) && executions == old(executions)
        else
          resp == Response(202, JobAccepted(jobId, j.folderPath, |files|, env.execution.value, JobStartedMessage)) &&
          executions == old(executions) + [run]
    {
      if j.mode != Worker.DirectPdfMode {
        objects := objects[Worker.PromptKey(j.folderPath, jobId, "transcript") := Worker.Text(j.transcriptPrompt)];
        objects := objects[Worker.PromptKey(j.folderPath, jobId, "knowledge") := Worker.Text(j.knowledgePrompt)];
      }
      var items := BuildJobItems(j.mode, jobId, j.folderPath, files);
      if env.inputSize > MaxInputSize {
        return Response(500, FailureBody(InternalError, TooLarge(env.inputSize)));
      }
      if env.execution.Err? {
        return Response(500, FailureBody(InternalError, env.execution.error));
      }
      executions := executions + [Execution("job-" + jobId, JobFiles(items))];
      resp := Response(202, JobAccepted(jobId, j.folderPath, |files|, env.execution.value, JobStartedMessage));
    }

    /** `POST /job`. */
    method CreateJobRequest(body: JobBody, env: JobEnv) returns (resp: Response)
      modifies this
      ensures Outcome(resp, Snapshot()) == CreateJob(old(Snapshot()), body, env)
    {
      var j := JobFieldsOf(body);
      if j.mode !in ValidModes {
        return Response(400, ErrorBody(InvalidMode));
      }
      if j.folderPath == "" {
        return Response(400, ErrorBody(FolderRequired));
      }
      if j.mode != Worker.DirectPdfMode && (j.transcriptPrompt == "" || j.knowledgePrompt == "") {
        return Response(400, ErrorBody(PromptsRequired));
      }
      var hasChildren := CheckFolderHasChildren(env.listing, j.folderPath);
      if hasChildren {
        return Response(400, ErrorBody(NotLeaf));
      }
      var jobId := JobId(env.clock);
      var files := GetPdfFilesInFolder(env.listing, j.folderPath, j.requested);
      if files == [] {
        return Response(400, ErrorBody(NoPdfs + j.folderPath));
      }
      RegisterJob(jobId, j.folderPath, files, j.mode, env.stamp, env.tableFails);
      resp := StartJobExecution(jobId, j, files, env);
    }

    /** The put loop of `POST /reknowledge`. */
    method RegisterReknowledge(jobId: string, sourceJobId: string, folderPath: string, sources: seq<Item>, stamp: string)
      modifies this
      ensures Snapshot() == old(Snapshot()).(jobs := Rekeyed(old(jobs), sources, jobId, sourceJobId, folderPath, stamp))
    {
      ghost var keys := ReknowledgeKeys(jobId, folderPath, sources);
      ghost var puts := ReknowledgePuts(jobId, sourceJobId, folderPath, sources, stamp);
      for i := 0 to |sources|
        invariant jobs == PutAll(old(jobs), keys[..i], puts[..i])
        invariant objects == old(objects) && folders == old(folders) && executions == old(executions)
      {
        PutAllStep(old(jobs), keys, puts, i);
        jobs := jobs[ReknowledgeKey(jobId, folderPath, sources[i]) := ReknowledgePut(jobId, sourceJobId, folderPath, sources[i], stamp)];
      }
      assert keys[..|sources|] == keys && puts[..|sources|] == puts;
    }

    /** `POST /reknowledge`. */
    method ReknowledgeRequest(body: JobBody, env: JobEnv) returns (resp: Response)
      modifies this
      ensures Outcome(resp, Snapshot()) == Reknowledge(old(Snapshot()), body, env)
    {
      var f := ReknowledgeFieldsOf(body);
      if f.sourceJobId == "" || f.folderPath == "" || f.knowledgePrompt == "" {
        return Response(400, ErrorBody(ReknowledgeRequired));
      }
      var keys := Matching(jobs, env.order, f.sourceJobId, f.folderPath);
      if keys == [] {
        return Response(404, ErrorBody(NotFound(f.sourceJobId, f.folderPath)));
      }
      var jobId := JobId(env.clock);
      var sourcePrompt := Worker.PromptKey(f.folderPath, f.sourceJobId, "transcript");
      if sourcePrompt !in objects {
        return Response(500, FailureBody(ReknowledgeFailed, env.awsError));
      }
      var transcript := objects[sourcePrompt];
      var sources := SourceItems(jobs, keys);
      objects := objects[Worker.PromptKey(f.folderPath, jobId, "transcript") := transcript];
      objects := objects[Worker.PromptKey(f.folderPath, jobId, "knowledge") := Worker.Text(f.knowledgePrompt)];
      RegisterReknowledge(jobId, f.sourceJobId, f.folderPath, sources, env.stamp);
      var items := BuildReknowledgeItems(jobId, f.sourceJobId, f.folderPath, SourceNames(sources));
      if !env.hasStateMachine {
        return Response(202, ReknowledgeAccepted(jobId, f.sourceJobId, f.folderPath, |keys|, None, ReknowledgeStartedMessage));
      }
      if env.execution.Err? {
        return Response(500, FailureBody(ReknowledgeFailed, env.execution.error));
      }
      executions := executions + [Execution(jobId + "-reknowledge", ReknowledgeFiles(items))];
      resp := Response(202, ReknowledgeAccepted(jobId, f.sourceJobId, f.folderPath, |keys|,
                                                Some(env.execution.value), ReknowledgeStartedMessage));
    }

    /** `POST /default-job`. */
    method SetDefaultRequest(body: JobBody, env: JobEnv) returns (resp: Response)
      modifies this
      ensures Outcome(resp, Snapshot()) == SetDefault(old(Snapshot()), body, env)
    {
      var fp := body.folderPath.GetOr("");
      var jobId := body.jobId.GetOr("");
      if fp == "" || jobId == "" {
        return Response(400, ErrorBody(DefaultRequired));
      }
      if folders.None? || env.tableFails {
        return Response(500, ErrorBody(DefaultFailed));
      }
      var prior := if fp in folders.value then folders.value[fp].latestJobId else None;
      folders := Some(folders.value[fp := FolderManagement.FolderConfig(Some(jobId), prior)]);
      resp := Response(200, DefaultSet(DefaultSetMessage, fp, jobId));
    }

    /** `lambda_handler`. */
    method HandleRequest(req: JobRequest, env: JobEnv) returns (resp: Option<Response>)
      modifies this
      ensures var r := Handle(old(Snapshot()), req, env);
        (resp.None? <==> r.None?) &&
        (r.None? ==> Snapshot() == old(Snapshot())) &&
        (r.Some? ==> Outcome(resp.value, Snapshot()) == r.value)
    {
      var m := MethodOf(req);
      var p := PathOf(req);
      if m == "GET" && p == "/api/folders" {
        if env.listing.None? {
          return Some(Response(500, FailureBody(InternalError, env.awsError)));
        }
        var tree := FolderTree.GetFolderTree(env.listing.value);
        return Some(Response(200, FolderTreeBody(tree)));
      }
      if m == "GET" && (p == "/list-pdfs" || p == "/api/list-pdfs") {
        var fp := QueryFolder(req.query);
        if fp == "" {
          return Some(Response(400, ErrorBody(FolderRequired)));
        }
        var files := GetPdfFilesInFolder(env.listing, fp, []);
        var names := Names(files);
        return Some(Response(200, PdfList(names, |names|)));
      }
      if m == "POST" && (p == "/default-job" || p == "/api/default-job") {
        var r := SetDefaultRequest(req.body, env);
        return Some(r);
      }
      if m == "GET" && (p == "/default-job" || p == "/api/default-job") {
        return Some(GetDefault(Snapshot(), QueryFolder(req.query), env));
      }
      if m == "POST" && (p == "/reknowledge" || p == "/api/reknowledge") {
        var r := ReknowledgeRequest(req.body, env);
        return Some(r);
      }
      if m == "POST" && (p == "/job" || p == "/api/job") {
        var r := CreateJobRequest(req.body, env);
        return Some(r);
      }
      return None;
    }
  }
}
