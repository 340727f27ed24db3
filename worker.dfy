/** The per-file processing step run by the job's state machine
    (`backend/worker.py`): it copies a PDF as is, or transcribes it and
    extracts knowledge chunks from the model's answer, writing the results
    under `Knowledge/{folder_path}/{job_id}/` and recording the file's
    status in the jobs table. The bucket is a map from keys to bodies, the
    jobs table a map from `(job_id, folder_path#file_name)` to attributes;
    the model calls, the JSON parser and the clock are parameters. */
module Worker {
  import opened Wrappers
  import opened Json
  import Strs

  predicate Truthy(s: Option<string>)
  {
    s.Some? && s.value != ""
  }

  // ---------------------------------------------------------------------
  // Base name

  /** The file name without its final ".pdf". Whether there is one to cut
      is decided on the lower-cased name; the cut itself is case-sensitive
      and happens at the last lower-case ".pdf". */
  function BaseName(fileName: string): (r: string)
    ensures Strs.EndsWith(fileName, ".pdf") ==> r + ".pdf" == fileName
    ensures !Strs.EndsWith(Strs.Lower(fileName), ".pdf") ==> r == fileName
    ensures (forall k :: !Strs.OccursAt(fileName, ".pdf", k)) ==> r == fileName
    ensures |r| <= |fileName| && r == fileName[..|r|]
  {
    LowerKeepsPdf(fileName);
    if Strs.EndsWith(Strs.Lower(fileName), ".pdf") then
      var k := Strs.RFind(fileName, ".pdf");
      if k < 0 then fileName
      else
        assert Strs.EndsWith(fileName, ".pdf") ==> Strs.OccursAt(fileName, ".pdf", |fileName| - 4);
        fileName[..k]
    else fileName
  }

  lemma LowerKeepsPdf(s: string)
    ensures Strs.EndsWith(s, ".pdf") ==> Strs.EndsWith(Strs.Lower(s), ".pdf")
  {
    if Strs.EndsWith(s, ".pdf") {
      var n := |s|;
      assert s[n - 4..][0] == s[n - 4] == '.' && s[n - 4..][1] == s[n - 3] == 'p';
      assert s[n - 4..][2] == s[n - 2] == 'd' && s[n - 4..][3] == s[n - 1] == 'f';
      assert Strs.Lower(s)[n - 4..] == ".pdf";
    }
  }

  /** A name whose extension is upper case keeps it: "Report.PDF" is its
      own base name, so its transcript is "Report.PDF.txt". */
  lemma BaseNameKeepsUpperCaseExtension(stem: string)
    requires forall k :: !Strs.OccursAt(stem, ".pdf", k)
    ensures BaseName(stem + ".PDF") == stem + ".PDF"
  {
    var s := stem + ".PDF";
    var n := |stem|;
    assert s[n] == '.' && s[n + 1] == 'P';
    forall k ensures !Strs.OccursAt(s, ".pdf", k) {
      if 0 <= k && k + 4 <= n {
        assert s[k..k + 4] == stem[k..k + 4];
        assert !Strs.OccursAt(stem, ".pdf", k);
      } else if n < k + 4 && k <= n {
        // the window holds the '.' of ".PDF" at a place where ".pdf" has a letter,
        // or starts at it and meets the upper-case 'P'
        if k == n {
          assert s[k..k + 4][1] == 'P';
        } else if 0 <= k && k + 4 <= |s| {
          assert s[k..k + 4][n - k] == '.';
        }
      }
    }
  }

  // ---------------------------------------------------------------------
  // Extracting the JSON array from the model's answer

  const NoBrackets := "No valid JSON array brackets found"
  const NotAnArray := "JSON is not an array"
  const ParseErrorPrefix := "JSON parsing error: "

  /** The text from the first '[' to the last ']', both included; none
      unless that '[' comes before that ']'. */
  function BracketWindow(text: string): (r: Option<string>)
    ensures r.Some? <==> exists i, j :: 0 <= i < j < |text| && text[i] == '[' && text[j] == ']'
    ensures r.Some? ==> |r.value| >= 2 && r.value[0] == '[' && r.value[|r.value| - 1] == ']'
    ensures r.Some? ==>
      var i := Strs.IndexOf(text, '[');
      var j := Strs.LastIndexOf(text, ']');
      0 <= i < j && r.value == text[i..j + 1]
  {
    var i := Strs.IndexOf(text, '[');
    var j := Strs.LastIndexOf(text, ']');
    if i == -1 || j == -1 || i >= j then
      assert forall a, b :: 0 <= a < b < |text| && text[a] == '[' && text[b] == ']' ==> i != -1 && i <= a && b <= j;
      None
    else
      assert text[i..j + 1][0] == text[i] && text[i..j + 1][j - i] == text[j];
      Some(text[i..j + 1])
  }

  // The two fields every chunk object carries.
  const StatedField := "statedindocument"
  const ContentField := "content"

  /** A parsed value the chunk writer accepts: an array of objects that
      each carry "statedindocument" and "content". */
  predicate IsChunkArray(v: Json)
  {
    v.JArr? &&
    forall k :: 0 <= k < |v.items| ==>
      v.items[k].JObj? && StatedField in v.items[k].fields && ContentField in v.items[k].fields
  }

  /** The complaint about the first item at or after `k` that is not an
      object with both fields, if any. */
  function FirstBadItem(items: seq<Json>, k: nat): (r: Option<string>)
    requires k <= |items|
    ensures r.None? <==> forall m :: k <= m < |items| ==>
      items[m].JObj? && StatedField in items[m].fields && ContentField in items[m].fields
    ensures r.Some? ==>
      exists m :: k <= m < |items| &&
        (r.value == "Item " + Strs.NatToString(m) + " is not an object" ||
         r.value == "Item " + Strs.NatToString(m) + " missing required fields")
    decreases |items| - k
  {
    if k == |items| then None
    else if !items[k].JObj? then Some("Item " + Strs.NatToString(k) + " is not an object")
    else if StatedField !in items[k].fields || ContentField !in items[k].fields then
      Some("Item " + Strs.NatToString(k) + " missing required fields")
    else FirstBadItem(items, k + 1)
  }

  /** `extract_json_from_text`. `parse` stands for `json.loads`, whose
      error text is the `Err` payload. */
  function ExtractJsonFromText(text: string, parse: string -> Result<Json>): (r: Result<seq<map<string, Json>>>)
    ensures BracketWindow(text).None? ==> r == Err(NoBrackets)
    ensures r.Ok? <==>
      (BracketWindow(text).Some? && parse(BracketWindow(text).value).Ok? &&
       IsChunkArray(parse(BracketWindow(text).value).value))
    ensures r.Ok? ==> var items := parse(BracketWindow(text).value).value.items;
      |r.value| == |items| && forall k :: 0 <= k < |items| ==> items[k] == JObj(r.value[k])
  {
    match BracketWindow(text)
    case None => Err(NoBrackets)
    case Some(w) =>
      match parse(w)
      case Err(e) => Err(ParseErrorPrefix + e)
      case Ok(v) =>
        if !v.JArr? then Err(NotAnArray)
        else match FirstBadItem(v.items, 0)
          case Some(msg) => Err(msg)
          case None => Ok(seq(|v.items|, k requires 0 <= k < |v.items| => v.items[k].fields))
  }

  // ---------------------------------------------------------------------
  // Metadata files

  const DirectPdfMode := "direct_pdf"

  // The attribute names of a metadata file.
  const FileNameField := "FileName"
  const S3KeyField := "s3Key"
  const FolderPathField := "folder_path"
  const JobIdField := "job_id"
  const SourceUriField := "source_uri"
  const S3Scheme := "s3://"

  /** The attributes every metadata file carries. */
  const CommonAttributes: set<string> := {FileNameField, S3KeyField, FolderPathField, JobIdField, SourceUriField}

  /** `save_metadata_to_s3`: the attributes of a `.metadata.json` file.
      Only a document that went through the model carries the page
      reference "statedindocument". */
  function MetadataAttributes(bucket: string, folderPath: string, jobId: string, fileName: string,
                              originalKey: string, stated: Json, mode: string): (r: map<string, Json>)
    ensures SourceUriField in r && r[SourceUriField] == JStr(S3Scheme + bucket + "/" + originalKey)
    ensures FolderPathField in r && r[FolderPathField] == JStr(folderPath)
    ensures S3KeyField in r && r[S3KeyField] == JStr(originalKey)
    ensures StatedField in r <==> mode != DirectPdfMode
    ensures mode != DirectPdfMode ==> r[StatedField] == stated
  {
    var common := map[FileNameField := JStr(fileName), S3KeyField := JStr(originalKey),
                      FolderPathField := JStr(folderPath), JobIdField := JStr(jobId),
                      SourceUriField := JStr(S3Scheme + bucket + "/" + originalKey)];
    if mode != DirectPdfMode then common[StatedField := stated] else common
  }

  /** Besides the page reference, exactly the common attributes. */
  lemma MetadataKeys(bucket: string, folderPath: string, jobId: string, fileName: string,
                     originalKey: string, stated: Json, mode: string)
    ensures MetadataAttributes(bucket, folderPath, jobId, fileName, originalKey, stated, mode).Keys ==
      CommonAttributes + (if mode != DirectPdfMode then {StatedField} else {})
  {
  }

  // ---------------------------------------------------------------------
  // Bucket writes

  datatype Body =
    | Text(text: string)
    | Meta(attributes: map<string, Json>)
    | Bytes(data: seq<int>)

  datatype Put = Put(key: string, body: Body)

  /** The bucket after the puts, in order. */
  function Stored(objects: map<string, Body>, puts: seq<Put>): (r: map<string, Body>)
    ensures objects.Keys <= r.Keys
  {
    if puts == [] then objects
    else Stored(objects, puts[..|puts| - 1])[puts[|puts| - 1].key := puts[|puts| - 1].body]
  }

  predicate DistinctKeys(puts: seq<Put>)
  {
    forall i, j :: 0 <= i < j < |puts| ==> puts[i].key != puts[j].key
  }

  /** With distinct keys, every put survives the later ones. */
  lemma {:induction false} StoredAt(objects: map<string, Body>, puts: seq<Put>, i: nat)
    requires DistinctKeys(puts) && i < |puts|
    ensures puts[i].key in Stored(objects, puts) && Stored(objects, puts)[puts[i].key] == puts[i].body
    decreases |puts|
  {
    if i < |puts| - 1 {
      StoredAt(objects, puts[..|puts| - 1], i);
    }
  }

  /** A put no later put overwrites is in the bucket afterwards. */
  lemma {:induction false} StoredLast(objects: map<string, Body>, puts: seq<Put>, i: nat)
    requires i < |puts| && forall j :: i < j < |puts| ==> puts[j].key != puts[i].key
    ensures puts[i].key in Stored(objects, puts) && Stored(objects, puts)[puts[i].key] == puts[i].body
    decreases |puts|
  {
    if i < |puts| - 1 {
      StoredLast(objects, puts[..|puts| - 1], i);
    }
  }

  /** A key no put names keeps its body. */
  lemma {:induction false} StoredElsewhere(objects: map<string, Body>, puts: seq<Put>, key: string)
    requires forall i :: 0 <= i < |puts| ==> puts[i].key != key
    ensures key in Stored(objects, puts) <==> key in objects
    ensures key in objects ==> Stored(objects, puts)[key] == objects[key]
    decreases |puts|
  {
    if puts != [] {
      StoredElsewhere(objects, puts[..|puts| - 1], key);
    }
  }

  /** With distinct keys, every put is in the bucket afterwards. */
  lemma StoredAll(objects: map<string, Body>, puts: seq<Put>)
    requires DistinctKeys(puts)
    ensures forall i :: 0 <= i < |puts| ==> puts[i].key in Stored(objects, puts) && Stored(objects, puts)[puts[i].key] == puts[i].body
  {
    forall i | 0 <= i < |puts|
      ensures puts[i].key in Stored(objects, puts) && Stored(objects, puts)[puts[i].key] == puts[i].body
    {
      StoredAt(objects, puts, i);
    }
  }

  lemma StoredOne(objects: map<string, Body>, p: Put)
    ensures Stored(objects, [p]) == objects[p.key := p.body]
  {
    assert [p][..0] == [];
  }

  lemma StoredTwo(objects: map<string, Body>, puts: seq<Put>, a: Put, b: Put)
    ensures Stored(objects, puts + [a, b]) == Stored(objects, puts)[a.key := a.body][b.key := b.body]
  {
    assert (puts + [a, b])[..|puts| + 1] == puts + [a];
    assert (puts + [a])[..|puts|] == puts;
  }

  // ---------------------------------------------------------------------
  // Knowledge chunks

  /** The four values `save_knowledge_chunks` places: the folder and the
      base name fix the keys, the file name and the original key go into
      the metadata. */
  datatype ChunkArgs = ChunkArgs(folderPath: string, baseName: string, fileName: string, originalKey: string)

  const MetadataSuffix := ".metadata.json"

  const KnowledgeRoot := "Knowledge/"
  const TextSuffix := ".txt"

  function KnowledgeDir(folderPath: string, jobId: string): string
  {
    KnowledgeRoot + folderPath + "/" + jobId + "/"
  }

  /** Python's `d.get(k, default)`. */
  function Get(m: map<string, Json>, k: string, default: Json): Json
  {
    if k in m then m[k] else default
  }

  /** Python's name for the type of a parsed value. */
  function TypeName(j: Json): string
  {
    match j
    case JNull => "NoneType"
    case JBool(_) => "bool"
    case JNum(_) => "int"
    case JStr(_) => "str"
    case JArr(_) => "list"
    case JObj(_) => "dict"
  }

  /** What `save_to_s3` raises when the content it encodes is not a
      string: only a string has `encode`. */
  function EncodeError(content: Json): string
  {
    "'" + TypeName(content) + "' object has no attribute 'encode'"
  }

  /** Whether `save_to_s3` can encode an item's content. */
  predicate HasTextContent(item: map<string, Json>)
  {
    Get(item, ContentField, JStr("")).JStr?
  }

  /** How many chunks, from the first, have text content: the writer gets
      that far before `content.encode` raises. */
  function TextPrefix(items: seq<map<string, Json>>): (k: nat)
    ensures k <= |items|
    ensures forall i :: 0 <= i < k ==> HasTextContent(items[i])
    ensures k < |items| ==> !HasTextContent(items[k])
  {
    if items == [] || !HasTextContent(items[0]) then 0
    else 1 + TextPrefix(items[1..])
  }

  /** The content key of chunk `idx` (counted from 1). */
  function ChunkKey(a: ChunkArgs, jobId: string, idx: nat): string
  {
    KnowledgeDir(a.folderPath, jobId) + a.baseName + "_" + Strs.Pad3(idx) + TextSuffix
  }

  /** The content file and metadata file of chunk `idx` (counted from 1). */
  function ChunkPair(bucket: string, jobId: string, a: ChunkArgs, idx: nat, item: map<string, Json>): seq<Put>
    requires HasTextContent(item)
  {
    var key := ChunkKey(a, jobId, idx);
    [Put(key, Text(Get(item, ContentField, JStr("")).s)),
     Put(key + MetadataSuffix,
         Meta(MetadataAttributes(bucket, a.folderPath, jobId, a.fileName, a.originalKey,
                                 Get(item, StatedField, JStr("-")), FullMode)))]
  }

  /** The puts for the first `n` chunks, all with text content. */
  function ChunkPuts(bucket: string, jobId: string, a: ChunkArgs, items: seq<map<string, Json>>, n: nat): (r: seq<Put>)
    requires n <= TextPrefix(items)
    ensures |r| == 2 * n
  {
    if n == 0 then []
    else ChunkPuts(bucket, jobId, a, items, n - 1) + ChunkPair(bucket, jobId, a, n, items[n - 1])
  }

  /** Whether the answer splits into chunks: a non-empty valid array. */
  predicate Chunked(text: string, parse: string -> Result<Json>)
  {
    var x := ExtractJsonFromText(text, parse);
    x.Ok? && |x.value| > 0
  }

  /** What `save_knowledge_chunks` returns. */
  function ChunkCount(text: string, parse: string -> Result<Json>): (n: nat)
    ensures n >= 1
    ensures Chunked(text, parse) ==> n == |ExtractJsonFromText(text, parse).value|
  {
    if Chunked(text, parse) then |ExtractJsonFromText(text, parse).value| else 1
  }

  /** The single file written when the answer does not split. */
  function WholePuts(bucket: string, text: string, jobId: string, a: ChunkArgs): seq<Put>
  {
    var key := KnowledgeDir(a.folderPath, jobId) + a.baseName + TextSuffix;
    [Put(key, Text(text)),
     Put(key + MetadataSuffix,
         Meta(MetadataAttributes(bucket, a.folderPath, jobId, a.fileName, a.originalKey, JStr("-"), FullMode)))]
  }

  /** The exception `save_knowledge_chunks` raises, if any: the one of
      the first chunk whose content is not a string. */
  function KnowledgeError(text: string, parse: string -> Result<Json>): (r: Option<string>)
    ensures !Chunked(text, parse) ==> r.None?
    ensures Chunked(text, parse) ==> var items := ExtractJsonFromText(text, parse).value;
      (r.None? <==> forall i :: 0 <= i < |items| ==> HasTextContent(items[i]))
  {
    if Chunked(text, parse) then
      var items := ExtractJsonFromText(text, parse).value;
      var k := TextPrefix(items);
      if k < |items| then Some(EncodeError(Get(items[k], ContentField, JStr("")))) else None
    else None
  }

  /** Everything `save_knowledge_chunks` writes, in order, up to the
      chunk it raises at. */
  function KnowledgePuts(bucket: string, text: string, jobId: string, a: ChunkArgs,
                         parse: string -> Result<Json>): (r: seq<Put>)
    ensures KnowledgeError(text, parse).None? ==> |r| == 2 * ChunkCount(text, parse)
    ensures KnowledgeError(text, parse).Some? ==> |r| < 2 * ChunkCount(text, parse)
  {
    if Chunked(text, parse) then
      var items := ExtractJsonFromText(text, parse).value;
      ChunkPuts(bucket, jobId, a, items, TextPrefix(items))
    else WholePuts(bucket, text, jobId, a)
  }

  /** Keys that agree outside their middles agree in the middle. */
  lemma MiddleEqual(p: string, x: string, y: string, q: string)
    requires p + x + q == p + y + q
    ensures x == y
  {
    var w := p + x + q;
    assert |x| == |y|;
    assert x == w[|p|..|p| + |x|];
    assert y == (p + y + q)[|p|..|p| + |y|];
  }

  lemma ChunkKeyInjective(a: ChunkArgs, jobId: string, m: nat, n: nat)
    requires ChunkKey(a, jobId, m) == ChunkKey(a, jobId, n)
    ensures m == n
  {
    var p := KnowledgeDir(a.folderPath, jobId) + a.baseName + "_";
    assert ChunkKey(a, jobId, m) == p + Strs.Pad3(m) + TextSuffix;
    assert ChunkKey(a, jobId, n) == p + Strs.Pad3(n) + TextSuffix;
    MiddleEqual(p, Strs.Pad3(m), Strs.Pad3(n), TextSuffix);
    Strs.Pad3Injective(m, n);
  }

  /** Put `i` of the first `n` chunks is put `i` of more chunks too. */
  lemma ChunkPutsPrefix(bucket: string, jobId: string, a: ChunkArgs, items: seq<map<string, Json>>, n: nat, i: nat)
    requires 0 < n <= TextPrefix(items) && i < 2 * (n - 1)
    ensures ChunkPuts(bucket, jobId, a, items, n)[i] == ChunkPuts(bucket, jobId, a, items, n - 1)[i]
  {
    var prefix := ChunkPuts(bucket, jobId, a, items, n - 1);
    var pair := ChunkPair(bucket, jobId, a, n, items[n - 1]);
    assert (prefix + pair)[i] == prefix[i];
  }

  /** The last two puts of the first `n` chunks are chunk `n`'s files. */
  lemma ChunkPutsLast(bucket: string, jobId: string, a: ChunkArgs, items: seq<map<string, Json>>, n: nat, i: nat)
    requires 0 < n <= TextPrefix(items) && 2 * (n - 1) <= i < 2 * n
    ensures ChunkPuts(bucket, jobId, a, items, n)[i] == ChunkPair(bucket, jobId, a, n, items[n - 1])[i - 2 * (n - 1)]
  {
    var prefix := ChunkPuts(bucket, jobId, a, items, n - 1);
    var pair := ChunkPair(bucket, jobId, a, n, items[n - 1]);
    assert (prefix + pair)[i] == pair[i - |prefix|];
  }

  /** Chunk `i` (from 0) of the first `n`: its content file, then its
      metadata file. */
  lemma {:induction false} ChunkPutsAt(bucket: string, jobId: string, a: ChunkArgs,
                                       items: seq<map<string, Json>>, n: nat, i: nat)
    requires n <= TextPrefix(items) && i < n
    ensures var puts := ChunkPuts(bucket, jobId, a, items, n);
      puts[2 * i] == ChunkPair(bucket, jobId, a, i + 1, items[i])[0] &&
      puts[2 * i + 1] == ChunkPair(bucket, jobId, a, i + 1, items[i])[1]
    decreases n
  {
    var c, m := 2 * i, 2 * i + 1;
    if i < n - 1 {
      ChunkPutsAt(bucket, jobId, a, items, n - 1, i);
      ChunkPutsPrefix(bucket, jobId, a, items, n, c);
      ChunkPutsPrefix(bucket, jobId, a, items, n, m);
    } else {
      ChunkPutsLast(bucket, jobId, a, items, n, c);
      ChunkPutsLast(bucket, jobId, a, items, n, m);
    }
  }

  /** No file of the first `n` chunks is a file of a later chunk. */
  lemma {:induction false} ChunkPutsBefore(bucket: string, jobId: string, a: ChunkArgs,
                                           items: seq<map<string, Json>>, n: nat, i: nat, m: nat)
    requires n <= TextPrefix(items) && i < 2 * n && n < m
    ensures var key := ChunkPuts(bucket, jobId, a, items, n)[i].key;
      key != ChunkKey(a, jobId, m) && key != ChunkKey(a, jobId, m) + MetadataSuffix
    decreases n
  {
    if i < 2 * (n - 1) {
      ChunkPutsPrefix(bucket, jobId, a, items, n, i);
      ChunkPutsBefore(bucket, jobId, a, items, n - 1, i, m);
    } else {
      ChunkPutsLast(bucket, jobId, a, items, n, i);
      ChunkFileKeysDiffer(a, jobId, n, m, i == 2 * n - 1, false);
      ChunkFileKeysDiffer(a, jobId, n, m, i == 2 * n - 1, true);
    }
  }

  /** A content key never equals a metadata key: one ends in "t", the other in "n". */
  lemma ContentIsNotMetadata(a: ChunkArgs, jobId: string, c: nat, d: nat)
    ensures ChunkKey(a, jobId, c) != ChunkKey(a, jobId, d) + MetadataSuffix
  {
    var kc, kd := ChunkKey(a, jobId, c), ChunkKey(a, jobId, d) + MetadataSuffix;
    assert kc[|kc| - 1] == 't' && kd[|kd| - 1] == 'n';
  }

  lemma MetadataKeyInjective(a: ChunkArgs, jobId: string, c: nat, d: nat)
    requires ChunkKey(a, jobId, c) + MetadataSuffix == ChunkKey(a, jobId, d) + MetadataSuffix
    ensures c == d
  {
    var kc, kd := ChunkKey(a, jobId, c), ChunkKey(a, jobId, d);
    assert kc == (kc + MetadataSuffix)[..|kc|];
    assert kd == (kd + MetadataSuffix)[..|kd|];
    ChunkKeyInjective(a, jobId, c, d);
  }

  /** Files of different chunks, or the two files of one chunk, differ. */
  lemma ChunkFileKeysDiffer(a: ChunkArgs, jobId: string, c: nat, d: nat, metaC: bool, metaD: bool)
    requires c != d || metaC != metaD
    ensures (if metaC then ChunkKey(a, jobId, c) + MetadataSuffix else ChunkKey(a, jobId, c)) !=
            (if metaD then ChunkKey(a, jobId, d) + MetadataSuffix else ChunkKey(a, jobId, d))
  {
    if metaC && metaD {
      if ChunkKey(a, jobId, c) + MetadataSuffix == ChunkKey(a, jobId, d) + MetadataSuffix {
        MetadataKeyInjective(a, jobId, c, d);
      }
    } else if metaC {
      ContentIsNotMetadata(a, jobId, d, c);
    } else if metaD {
      ContentIsNotMetadata(a, jobId, c, d);
    } else if ChunkKey(a, jobId, c) == ChunkKey(a, jobId, d) {
      ChunkKeyInjective(a, jobId, c, d);
    }
  }

  lemma {:induction false} ChunkPutsDistinct(bucket: string, jobId: string, a: ChunkArgs,
                                             items: seq<map<string, Json>>, n: nat, i: nat, j: nat)
    requires n <= TextPrefix(items) && i < j < 2 * n
    ensures ChunkPuts(bucket, jobId, a, items, n)[i].key != ChunkPuts(bucket, jobId, a, items, n)[j].key
    decreases n
  {
    if j < 2 * (n - 1) {
      ChunkPutsPrefix(bucket, jobId, a, items, n, i);
      ChunkPutsPrefix(bucket, jobId, a, items, n, j);
      ChunkPutsDistinct(bucket, jobId, a, items, n - 1, i, j);
    } else if i < 2 * (n - 1) {
      ChunkPutsPrefix(bucket, jobId, a, items, n, i);
      ChunkPutsBefore(bucket, jobId, a, items, n - 1, i, n);
      ChunkPutsLast(bucket, jobId, a, items, n, j);
    } else {
      ChunkPutsLast(bucket, jobId, a, items, n, i);
      ChunkPutsLast(bucket, jobId, a, items, n, j);
      ChunkFileKeysDiffer(a, jobId, n, n, false, true);
    }
  }

  lemma ChunkPutsNotOverwritten(bucket: string, jobId: string, a: ChunkArgs,
                                items: seq<map<string, Json>>, n: nat, i: nat)
    requires n <= TextPrefix(items) && i < 2 * n
    ensures var puts := ChunkPuts(bucket, jobId, a, items, n);
      forall j :: i < j < |puts| ==> puts[j].key != puts[i].key
  {
    forall j | i < j < 2 * n
      ensures ChunkPuts(bucket, jobId, a, items, n)[j].key != ChunkPuts(bucket, jobId, a, items, n)[i].key
    {
      ChunkPutsDistinct(bucket, jobId, a, items, n, i, j);
    }
  }

  /** No two files of one answer share a key, so none overwrites another. */
  lemma KnowledgeKeysDistinct(bucket: string, text: string, jobId: string, a: ChunkArgs, parse: string -> Result<Json>)
    ensures DistinctKeys(KnowledgePuts(bucket, text, jobId, a, parse))
  {
    if Chunked(text, parse) {
      var items := ExtractJsonFromText(text, parse).value;
      var puts := ChunkPuts(bucket, jobId, a, items, TextPrefix(items));
      assert KnowledgePuts(bucket, text, jobId, a, parse) == puts;
      forall i, j | 0 <= i < j < |puts| ensures puts[i].key != puts[j].key {
        ChunkPutsDistinct(bucket, jobId, a, items, TextPrefix(items), i, j);
      }
    }
  }

  /** Every extracted item carries both fields. */
  lemma ChunkItemFields(text: string, parse: string -> Result<Json>, i: nat)
    requires ExtractJsonFromText(text, parse).Ok? && i < |ExtractJsonFromText(text, parse).value|
    ensures var item := ExtractJsonFromText(text, parse).value[i];
      ContentField in item && StatedField in item
  {
    var v := parse(BracketWindow(text).value).value;
    assert v.items[i] == JObj(ExtractJsonFromText(text, parse).value[i]);
  }

  /** Chunk `i`'s two files survive the writes of the later chunks. */
  lemma ChunkPutsStored(objects: map<string, Body>, bucket: string, jobId: string, a: ChunkArgs,
                        items: seq<map<string, Json>>, i: nat)
    requires i < TextPrefix(items)
    ensures var after := Stored(objects, ChunkPuts(bucket, jobId, a, items, TextPrefix(items)));
      var pair := ChunkPair(bucket, jobId, a, i + 1, items[i]);
      pair[0].key in after && after[pair[0].key] == pair[0].body &&
      pair[1].key in after && after[pair[1].key] == pair[1].body
  {
    var puts := ChunkPuts(bucket, jobId, a, items, TextPrefix(items));
    ChunkPutsAt(bucket, jobId, a, items, TextPrefix(items), i);
    var c, m := 2 * i, 2 * i + 1;
    ChunkPutsNotOverwritten(bucket, jobId, a, items, TextPrefix(items), c);
    ChunkPutsNotOverwritten(bucket, jobId, a, items, TextPrefix(items), m);
    StoredLast(objects, puts, c);
    StoredLast(objects, puts, m);
  }

  /** After the writes, each chunk before the first one without text
      content has its content file holding the item's "content" and its
      metadata holding the item's "statedindocument". */
  lemma ChunkStored(objects: map<string, Body>, bucket: string, text: string, jobId: string, a: ChunkArgs,
                    parse: string -> Result<Json>, i: nat)
    requires Chunked(text, parse) && i < ChunkCount(text, parse)
    ensures var items := ExtractJsonFromText(text, parse).value;
      ContentField in items[i] && StatedField in items[i]
    ensures var items := ExtractJsonFromText(text, parse).value;
      var after := Stored(objects, KnowledgePuts(bucket, text, jobId, a, parse));
      var key := ChunkKey(a, jobId, i + 1);
      i < TextPrefix(items) ==>
        items[i][ContentField].JStr? &&
        key in after && after[key] == Text(items[i][ContentField].s) &&
        key + MetadataSuffix in after && after[key + MetadataSuffix].Meta? &&
        StatedField in after[key + MetadataSuffix].attributes &&
        after[key + MetadataSuffix].attributes[StatedField] == items[i][StatedField]
  {
    var items := ExtractJsonFromText(text, parse).value;
    ChunkItemFields(text, parse, i);
    if i < TextPrefix(items) {
      ChunkPutsStored(objects, bucket, jobId, a, items, i);
    }
  }

  /** The writer stops at the first chunk without text content: neither
      that chunk's files nor any later chunk's are written, and the bucket
      keeps what it held under those keys. */
  lemma ChunkNotWritten(objects: map<string, Body>, bucket: string, text: string, jobId: string, a: ChunkArgs,
                        parse: string -> Result<Json>, i: nat)
    requires Chunked(text, parse) && TextPrefix(ExtractJsonFromText(text, parse).value) <= i < ChunkCount(text, parse)
    ensures var after := Stored(objects, KnowledgePuts(bucket, text, jobId, a, parse));
      var key := ChunkKey(a, jobId, i + 1);
      (key in after <==> key in objects) && (key in objects ==> after[key] == objects[key]) &&
      (key + MetadataSuffix in after <==> key + MetadataSuffix in objects) &&
      (key + MetadataSuffix in objects ==> after[key + MetadataSuffix] == objects[key + MetadataSuffix])
  {
    var items := ExtractJsonFromText(text, parse).value;
    var k := TextPrefix(items);
    var puts := ChunkPuts(bucket, jobId, a, items, k);
    assert KnowledgePuts(bucket, text, jobId, a, parse) == puts;
    var key := ChunkKey(a, jobId, i + 1);
    forall j | 0 <= j < |puts| ensures puts[j].key != key && puts[j].key != key + MetadataSuffix {
      ChunkPutsBefore(bucket, jobId, a, items, k, j, i + 1);
    }
    StoredElsewhere(objects, puts, key);
    StoredElsewhere(objects, puts, key + MetadataSuffix);
  }

  /** Where a file lands and which folder its metadata names. */
  predicate UnderFolder(put: Put, a: ChunkArgs, jobId: string)
  {
    Strs.StartsWith(put.key, KnowledgeDir(a.folderPath, jobId)) &&
    (put.body.Meta? ==> FolderPathField in put.body.attributes && put.body.attributes[FolderPathField] == JStr(a.folderPath))
  }

  lemma ChunkPairUnderFolder(bucket: string, jobId: string, a: ChunkArgs, idx: nat, item: map<string, Json>, j: nat)
    requires HasTextContent(item) && j < 2
    ensures UnderFolder(ChunkPair(bucket, jobId, a, idx, item)[j], a, jobId)
  {
    var dir := KnowledgeDir(a.folderPath, jobId);
    var key := ChunkKey(a, jobId, idx);
    assert key[..|dir|] == dir;
    assert (key + MetadataSuffix)[..|dir|] == dir;
  }

  lemma {:induction false} ChunkPutsUnderFolder(bucket: string, jobId: string, a: ChunkArgs,
                                                items: seq<map<string, Json>>, n: nat, i: nat)
    requires n <= TextPrefix(items) && i < 2 * n
    ensures UnderFolder(ChunkPuts(bucket, jobId, a, items, n)[i], a, jobId)
    decreases n
  {
    if i < 2 * (n - 1) {
      ChunkPutsPrefix(bucket, jobId, a, items, n, i);
      ChunkPutsUnderFolder(bucket, jobId, a, items, n - 1, i);
    } else {
      ChunkPutsLast(bucket, jobId, a, items, n, i);
      ChunkPairUnderFolder(bucket, jobId, a, n, items[n - 1], i - 2 * (n - 1));
    }
  }

  /** Every file lands under `Knowledge/{folder}/{job}/` and its metadata
      names that folder. */
  lemma KnowledgePutsUnderFolder(bucket: string, text: string, jobId: string, a: ChunkArgs,
                                 parse: string -> Result<Json>)
    ensures var puts := KnowledgePuts(bucket, text, jobId, a, parse);
      forall i :: 0 <= i < |puts| ==> UnderFolder(puts[i], a, jobId)
  {
    var dir := KnowledgeDir(a.folderPath, jobId);
    if Chunked(text, parse) {
      var items := ExtractJsonFromText(text, parse).value;
      var puts := ChunkPuts(bucket, jobId, a, items, TextPrefix(items));
      assert KnowledgePuts(bucket, text, jobId, a, parse) == puts;
      forall i | 0 <= i < |puts| ensures UnderFolder(puts[i], a, jobId) {
        ChunkPutsUnderFolder(bucket, jobId, a, items, TextPrefix(items), i);
      }
    } else {
      var key := dir + a.baseName + TextSuffix;
      assert key[..|dir|] == dir;
      assert (key + MetadataSuffix)[..|dir|] == dir;
    }
  }

  /** An answer that does not split is kept whole, with the page
      reference "-". */
  lemma WholeStored(objects: map<string, Body>, bucket: string, text: string, jobId: string, a: ChunkArgs,
                    parse: string -> Result<Json>)
    requires !Chunked(text, parse)
    ensures var after := Stored(objects, KnowledgePuts(bucket, text, jobId, a, parse));
      var key := KnowledgeDir(a.folderPath, jobId) + a.baseName + TextSuffix;
      key in after && after[key] == Text(text) &&
      key + MetadataSuffix in after && after[key + MetadataSuffix].Meta? &&
      StatedField in after[key + MetadataSuffix].attributes &&
      after[key + MetadataSuffix].attributes[StatedField] == JStr("-")
  {
    var whole := WholePuts(bucket, text, jobId, a);
    StoredTwo(objects, [], whole[0], whole[1]);
    assert [] + whole == whole;
    assert whole[0].key != whole[1].key by {
      assert |whole[1].key| > |whole[0].key|;
    }
  }

  /** The chunk writer touches nothing outside `Knowledge/`. */
  lemma OutsideKnowledge(objects: map<string, Body>, bucket: string, text: string, jobId: string, a: ChunkArgs,
                         parse: string -> Result<Json>, key: string)
    requires |key| > 0 && key[0] != 'K'
    ensures var after := Stored(objects, KnowledgePuts(bucket, text, jobId, a, parse));
      (key in after <==> key in objects) && (key in objects ==> after[key] == objects[key])
  {
    var puts := KnowledgePuts(bucket, text, jobId, a, parse);
    KnowledgePutsUnderFolder(bucket, text, jobId, a, parse);
    forall i | 0 <= i < |puts| ensures puts[i].key != key {
      assert Strs.StartsWith(puts[i].key, KnowledgeDir(a.folderPath, jobId));
      assert puts[i].key[0] == KnowledgeDir(a.folderPath, jobId)[0] == 'K';
    }
    StoredElsewhere(objects, puts, key);
  }

  // ---------------------------------------------------------------------
  // The jobs table and the bucket

  /** `(job_id, folder_path#file_name)`. */
  type JobKey = (string, string)

  type Item = map<string, string>

  function SortKey(folderPath: string, fileName: string): string
  {
    folderPath + "#" + fileName
  }

  /** The attributes `update_dynamodb_status` sets. */
  const StatusAttr := "status"
  const MessageAttr := "message"
  const LastUpdateAttr := "last_update"
  const FileKeyAttr := "file_key"
  const ModeAttr := "processing_mode"
  const SourceJobAttr := "source_job_id"

  /** The arguments of one `update_dynamodb_status` call; the optional
      ones are set only when given and non-empty. */
  datatype StatusUpdate = StatusUpdate(status: string, message: string, fileKey: Option<string>,
                                       mode: Option<string>, sourceJobId: Option<string>)

  function Status(status: string, message: string): StatusUpdate
  {
    StatusUpdate(status, message, None, None, None)
  }

  /** The attributes one status update sets, `now` being the clock. */
  function Written(u: StatusUpdate, now: string): (r: Item)
    ensures StatusAttr in r && MessageAttr in r && LastUpdateAttr in r
    ensures (FileKeyAttr in r <==> Truthy(u.fileKey)) && (ModeAttr in r <==> Truthy(u.mode)) &&
            (SourceJobAttr in r <==> Truthy(u.sourceJobId))
    ensures r[StatusAttr] == u.status && r[MessageAttr] == u.message && r[LastUpdateAttr] == now
    ensures Truthy(u.fileKey) ==> r[FileKeyAttr] == u.fileKey.value
    ensures Truthy(u.mode) ==> r[ModeAttr] == u.mode.value
    ensures Truthy(u.sourceJobId) ==> r[SourceJobAttr] == u.sourceJobId.value
  {
    var base := map[StatusAttr := u.status, LastUpdateAttr := now, MessageAttr := u.message];
    var withKey := if Truthy(u.fileKey) then base[FileKeyAttr := u.fileKey.value] else base;
    var withMode := if Truthy(u.mode) then withKey[ModeAttr := u.mode.value] else withKey;
    if Truthy(u.sourceJobId) then withMode[SourceJobAttr := u.sourceJobId.value] else withMode
  }

  /** An update sets the three fixed attributes and exactly the optional
      ones it is given. */
  lemma WrittenKeys(u: StatusUpdate, now: string)
    ensures Written(u, now).Keys == {StatusAttr, LastUpdateAttr, MessageAttr} +
      (if Truthy(u.fileKey) then {FileKeyAttr} else {}) +
      (if Truthy(u.mode) then {ModeAttr} else {}) +
      (if Truthy(u.sourceJobId) then {SourceJobAttr} else {})
  {
  }

  function ItemAt(jobs: map<JobKey, Item>, key: JobKey): Item
  {
    if key in jobs then jobs[key] else map[]
  }

  /** One step of a processing run. */
  datatype Action =
    | SetStatus(key: JobKey, update: StatusUpdate)
    | WriteAll(puts: seq<Put>)
    | CopyObject(source: string, dest: string)

  datatype State = State(jobs: map<JobKey, Item>, objects: map<string, Body>)

  /** An update keeps the attributes it does not set; a copy of a missing
      object fails and changes nothing. */
  function Step(s: State, a: Action, now: string): State
  {
    match a
    case SetStatus(key, u) => State(s.jobs[key := ItemAt(s.jobs, key) + Written(u, now)], s.objects)
    case WriteAll(puts) => State(s.jobs, Stored(s.objects, puts))
    case CopyObject(source, dest) =>
      if source in s.objects then State(s.jobs, s.objects[dest := s.objects[source]]) else s
  }

  function Run(s: State, actions: seq<Action>, now: string): State
    decreases |actions|
  {
    if actions == [] then s
    else Step(Run(s, actions[..|actions| - 1], now), actions[|actions| - 1], now)
  }

  lemma RunSnoc(s: State, actions: seq<Action>, a: Action, now: string)
    ensures Run(s, actions + [a], now) == Step(Run(s, actions, now), a, now)
  {
    assert (actions + [a])[..|actions|] == actions;
  }

  /** The last status update of a run decides the item's status and
      message. */
  lemma LastStatus(s: State, actions: seq<Action>, key: JobKey, u: StatusUpdate, now: string)
    ensures var item := Run(s, actions + [SetStatus(key, u)], now).jobs[key];
      StatusAttr in item && item[StatusAttr] == u.status && MessageAttr in item && item[MessageAttr] == u.message
  {
    RunSnoc(s, actions, SetStatus(key, u), now);
  }

  const RunningStatus := "running"
  const DoneStatus := "done"
  const FailedStatus := "failed"
  const FullMode := "full"
  const ReknowledgeMode := "reknowledge"

  // The messages the processing functions record on the item.
  const DirectStarted := "Processing started (direct_pdf)"
  const DirectCompleted := "Direct PDF processing completed"
  const DirectFailed := "Failed to process direct PDF: "
  const FullStarted := "Processing started (v2)"
  const PromptsFailed := "Failed to fetch prompts from S3 (v2): "
  const FullCompleted := "Processing completed"
  const ReknowledgeStarted := "Reknowledge processing started from source job "
  const KnowledgePromptFailed := "Failed to fetch knowledge prompt from S3: "
  const CopyFailed := "Failed to copy transcript: "
  const ReknowledgeCompleted := "Reknowledge processing completed"
  const HandlerErrorPrefix := "Error: "

  /** The effect of a processing function: what it did, and the text of
      the exception it raised, if any. */
  datatype Attempt = Attempt(actions: seq<Action>, fault: Option<string>)

  /** The oracles a run depends on: the two model answers (none when the
      call raised), `json.loads`, and the text of any AWS error. */
  datatype Services = Services(transcription: Option<string>, knowledge: Option<string>,
                               parse: string -> Result<Json>, awsError: string)

  function PromptKey(folderPath: string, jobId: string, kind: string): string
  {
    "Prompts/" + folderPath + "/" + jobId + "/" + kind + "_prompt.txt"
  }

  function TranscriptKey(folderPath: string, jobId: string, baseName: string): string
  {
    "Transcript/" + folderPath + "/" + jobId + "/" + baseName + TextSuffix
  }

  /** `process_direct_pdf`: the PDF itself becomes the knowledge file. */
  function DirectPdfRun(bucket: string, jobId: string, folderPath: string, fileKey: string, fileName: string,
                        objects: map<string, Body>, awsError: string): Attempt
  {
    var key := (jobId, SortKey(folderPath, fileName));
    var dest := KnowledgeDir(folderPath, jobId) + fileName;
    var start := [SetStatus(key, StatusUpdate(RunningStatus, DirectStarted, Some(fileKey), Some(DirectPdfMode), None))] +
                 [CopyObject(fileKey, dest)];
    if fileKey in objects then
      Attempt(start + [WriteAll([Put(dest + MetadataSuffix,
                                     Meta(MetadataAttributes(bucket, folderPath, jobId, fileName, fileKey, JStr("-"), DirectPdfMode)))])] +
                      [SetStatus(key, StatusUpdate(DoneStatus, DirectCompleted, None, Some(DirectPdfMode), None))],
              None)
    else
      Attempt(start + [SetStatus(key, Status(FailedStatus, DirectFailed + awsError))], Some(awsError))
  }

  /** `process_pdf_on_demand` (the definition with a folder path). */
  function FullRun(bucket: string, jobId: string, folderPath: string, fileKey: string, fileName: string,
                   objects: map<string, Body>, sv: Services): Attempt
  {
    var key := (jobId, SortKey(folderPath, fileName));
    var running := SetStatus(key, StatusUpdate(RunningStatus, FullStarted, Some(fileKey), Some(FullMode), None));
    if PromptKey(folderPath, jobId, "transcript") !in objects || PromptKey(folderPath, jobId, "knowledge") !in objects then
      var msg := PromptsFailed + sv.awsError;
      Attempt([running] + [SetStatus(key, Status(FailedStatus, msg))], Some(msg))
    else if fileKey !in objects || sv.transcription.None? then
      Attempt([running], Some(sv.awsError))
    else
      var base := BaseName(fileName);
      var transcript := WriteAll([Put(TranscriptKey(folderPath, jobId, base), Text(sv.transcription.value))]);
      if sv.knowledge.None? then Attempt([running] + [transcript], Some(sv.awsError))
      else
        var chunks := KnowledgePuts(bucket, sv.knowledge.value, jobId, ChunkArgs(folderPath, base, fileName, fileKey), sv.parse);
        var error := KnowledgeError(sv.knowledge.value, sv.parse);
        if error.Some? then Attempt([running] + [transcript] + [WriteAll(chunks)], error)
        else Attempt([running] + [transcript] + [WriteAll(chunks)] + [SetStatus(key, Status(DoneStatus, FullCompleted))], None)
  }

  /** The chunk writer's arguments in `process_reknowledge`: the folder,
      the base name, the file name and the PDF's key. */
  function ReknowledgeArgs(folderPath: string, fileName: string): ChunkArgs
  {
    ChunkArgs(folderPath, BaseName(fileName), fileName, "PDF/" + folderPath + "/" + fileName)
  }

  /** The same call as the source spells it, with the arguments shifted:
      the base name lands in the folder slot, the file name in the base
      name slot, the PDF's key in the file name slot and the folder in the
      key slot. */
  function ReknowledgeArgsAsWritten(folderPath: string, fileName: string): ChunkArgs
  {
    ChunkArgs(BaseName(fileName), fileName, "PDF/" + folderPath + "/" + fileName, folderPath)
  }

  /** `process_reknowledge`: the source job's transcript is reused and only
      the knowledge is regenerated. */
  function ReknowledgeRun(bucket: string, jobId: string, sourceJobId: string, folderPath: string, fileName: string,
                          objects: map<string, Body>, sv: Services): Attempt
  {
    var key := (jobId, SortKey(folderPath, fileName));
    var running := SetStatus(key, StatusUpdate(RunningStatus, ReknowledgeStarted + sourceJobId,
                                               None, Some(ReknowledgeMode), Some(sourceJobId)));
    if PromptKey(folderPath, jobId, "knowledge") !in objects then
      var msg := KnowledgePromptFailed + sv.awsError;
      Attempt([running] + [SetStatus(key, Status(FailedStatus, msg))], Some(msg))
    else
      var base := BaseName(fileName);
      var source := TranscriptKey(folderPath, sourceJobId, base);
      var copy := CopyObject(source, TranscriptKey(folderPath, jobId, base));
      if source !in objects then
        Attempt([running] + [copy] + [SetStatus(key, Status(FailedStatus, CopyFailed + sv.awsError))], Some(sv.awsError))
      else if sv.knowledge.None? then Attempt([running] + [copy], Some(sv.awsError))
      else
        var chunks := KnowledgePuts(bucket, sv.knowledge.value, jobId, ReknowledgeArgs(folderPath, fileName), sv.parse);
        var error := KnowledgeError(sv.knowledge.value, sv.parse);
        if error.Some? then Attempt([running] + [copy] + [WriteAll(chunks)], error)
        else Attempt([running] + [copy] + [WriteAll(chunks)] + [SetStatus(key, Status(DoneStatus, ReknowledgeCompleted))], None)
  }

  // ---------------------------------------------------------------------
  // The handler

  /** The fields of the state machine's event; an absent field is `None`. */
  datatype WorkerEvent = WorkerEvent(mode: Option<string>, jobId: Option<string>, fileName: Option<string>,
                                     pdfName: Option<string>, folderPath: Option<string>, fileKey: Option<string>,
                                     pdfKey: Option<string>, sourceJobId: Option<string>, triggerKbSync: Option<Json>)

  function ModeOf(ev: WorkerEvent): string
  {
    ev.mode.GetOr(FullMode)
  }

  /** `file_name`, or the older `pdf_name` when it is absent or empty. */
  function EventFileName(ev: WorkerEvent): Option<string>
  {
    if Truthy(ev.fileName) then ev.fileName else ev.pdfName
  }

  /** `file_key`, or the older `pdf_key`. */
  function EventFileKey(ev: WorkerEvent): Option<string>
  {
    if Truthy(ev.fileKey) then ev.fileKey else ev.pdfKey
  }

  /** What the handler goes on to do. */
  datatype Task =
    | ReknowledgeTask(jobId: string, sourceJobId: string, folderPath: string, fileName: string)
    | DirectPdfTask(jobId: string, folderPath: string, fileKey: string, fileName: string)
    | FullTask(jobId: string, folderPath: string, fileKey: string, fileName: string)
    | LegacyTask
    | Rejected(message: string)

  const MissingCommon := "Missing required parameters: job_id or file_name"
  const MissingReknowledge := "Missing required parameters for reknowledge mode: source_job_id and folder_path"
  const MissingDirectPdf := "Missing required parameters for direct_pdf mode: file_key and folder_path"
  const MissingFull := "Missing required parameter for full mode: file_key"
  /** A full-mode event without a folder path calls the four-argument
      `process_pdf_on_demand` with three arguments. */
  const LegacyCallError := "process_pdf_on_demand() missing 1 required positional argument: 'file_name'"

  /** The validation and dispatch of `lambda_handler`. */
  function Dispatch(ev: WorkerEvent): (t: Task)
    ensures t.Rejected? <==>
      !Truthy(ev.jobId) || !Truthy(EventFileName(ev)) ||
      (ModeOf(ev) == ReknowledgeMode && (!Truthy(ev.sourceJobId) || !Truthy(ev.folderPath))) ||
      (ModeOf(ev) == DirectPdfMode && (!Truthy(EventFileKey(ev)) || !Truthy(ev.folderPath))) ||
      (ModeOf(ev) != ReknowledgeMode && ModeOf(ev) != DirectPdfMode && !Truthy(EventFileKey(ev)))
    ensures !Truthy(ev.jobId) || !Truthy(EventFileName(ev)) ==> t == Rejected(MissingCommon)
    ensures t.ReknowledgeTask? <==> ModeOf(ev) == ReknowledgeMode && !t.Rejected?
    ensures t.DirectPdfTask? <==> ModeOf(ev) == DirectPdfMode && !t.Rejected?
    ensures t.LegacyTask? <==>
      ModeOf(ev) != ReknowledgeMode && ModeOf(ev) != DirectPdfMode && !t.Rejected? && !Truthy(ev.folderPath)
    ensures !t.Rejected? && !t.LegacyTask? ==>
      t.jobId == ev.jobId.value && t.fileName == EventFileName(ev).value && t.folderPath == ev.folderPath.value &&
      t.folderPath != "" && t.fileName != ""
    ensures t.DirectPdfTask? || t.FullTask? ==> t.fileKey == EventFileKey(ev).value
    ensures t.ReknowledgeTask? ==> t.sourceJobId == ev.sourceJobId.value
  {
    if !Truthy(ev.jobId) || !Truthy(EventFileName(ev)) then Rejected(MissingCommon)
    else
      var jobId, fileName := ev.jobId.value, EventFileName(ev).value;
      if ModeOf(ev) == ReknowledgeMode then
        if !Truthy(ev.sourceJobId) || !Truthy(ev.folderPath) then Rejected(MissingReknowledge)
        else ReknowledgeTask(jobId, ev.sourceJobId.value, ev.folderPath.value, fileName)
      else if ModeOf(ev) == DirectPdfMode then
        if !Truthy(EventFileKey(ev)) || !Truthy(ev.folderPath) then Rejected(MissingDirectPdf)
        else DirectPdfTask(jobId, ev.folderPath.value, EventFileKey(ev).value, fileName)
      else if !Truthy(EventFileKey(ev)) then Rejected(MissingFull)
      else if Truthy(ev.folderPath) then FullTask(jobId, ev.folderPath.value, EventFileKey(ev).value, fileName)
      else LegacyTask
  }

  function TaskRun(bucket: string, t: Task, objects: map<string, Body>, sv: Services): (r: Attempt)
    ensures t.Rejected? ==> r == Attempt([], Some(t.message))
    ensures t.LegacyTask? ==> r == Attempt([], Some(LegacyCallError))
  {
    match t
    case Rejected(msg) => Attempt([], Some(msg))
    case LegacyTask => Attempt([], Some(LegacyCallError))
    case ReknowledgeTask(jobId, sourceJobId, folderPath, fileName) =>
      ReknowledgeRun(bucket, jobId, sourceJobId, folderPath, fileName, objects, sv)
    case DirectPdfTask(jobId, folderPath, fileKey, fileName) =>
      DirectPdfRun(bucket, jobId, folderPath, fileKey, fileName, objects, sv.awsError)
    case FullTask(jobId, folderPath, fileKey, fileName) =>
      FullRun(bucket, jobId, folderPath, fileKey, fileName, objects, sv)
  }

  /** The handler's own `failed` update needs a job id, a file name and a
      folder path: without a folder path it calls `update_dynamodb_status`
      with too few arguments, and an empty or missing job id is not a valid
      table key; either error is logged and dropped. */
  predicate RecordsFailure(ev: WorkerEvent)
  {
    Truthy(ev.jobId) && Truthy(EventFileName(ev)) && Truthy(ev.folderPath)
  }

  function FailureKey(ev: WorkerEvent): JobKey
    requires RecordsFailure(ev)
  {
    (ev.jobId.value, SortKey(ev.folderPath.value, EventFileName(ev).value))
  }

  /** Everything one invocation does to the table and the bucket. */
  function HandlerActions(bucket: string, ev: WorkerEvent, objects: map<string, Body>, sv: Services): seq<Action>
  {
    var run := TaskRun(bucket, Dispatch(ev), objects, sv);
    if run.fault.Some? && RecordsFailure(ev) then
      run.actions + [SetStatus(FailureKey(ev), Status(FailedStatus, HandlerErrorPrefix + run.fault.value))]
    else run.actions
  }

  /** The success response. */
  datatype Completion = Completion(statusCode: int, jobId: string, fileName: string, folderPath: Option<string>,
                                   mode: string, status: string, triggerKbSync: Json, message: string)

  /** The handler's answer: the completion, or the text of the exception
      it re-raises so that the state machine can retry. */
  function HandlerResult(bucket: string, ev: WorkerEvent, objects: map<string, Body>, sv: Services): (r: Result<Completion>)
    ensures r.Ok? ==> r.value.statusCode == 200 && r.value.status == "completed" &&
                      r.value.triggerKbSync == ev.triggerKbSync.GetOr(JBool(false))
    ensures r.Ok? ==> !Dispatch(ev).Rejected? && !Dispatch(ev).LegacyTask?
  {
    var run := TaskRun(bucket, Dispatch(ev), objects, sv);
    if run.fault.Some? then Err(run.fault.value)
    else
      var fileName := EventFileName(ev).value;
      Ok(Completion(200, ev.jobId.value, fileName, ev.folderPath, ModeOf(ev), "completed",
                    ev.triggerKbSync.GetOr(JBool(false)),
                    "Successfully processed " + fileName + " in " + ModeOf(ev) + " mode"))
  }

  // ---------------------------------------------------------------------
  // The worker's view of the table and the bucket

  class WorkerStore {
    var jobs: map<JobKey, Item>
    var objects: map<string, Body>
    /** `S3_BUCKET`. */
    const bucket: string
    /** The timestamp status updates record. */
    const now: string

    constructor (jobs0: map<JobKey, Item>, objects0: map<string, Body>, bucket: string, now: string)
      ensures jobs == jobs0 && objects == objects0 && this.bucket == bucket && this.now == now
    {
      jobs := jobs0;
      objects := objects0;
      this.bucket := bucket;
      this.now := now;
    }

    function Snapshot(): State
      reads this
    {
      State(jobs, objects)
    }

    /** `update_dynamodb_status`: the attributes are collected one by one,
        then merged into the item. */
    method UpdateStatus(key: JobKey, u: StatusUpdate)
      modifies this
      ensures Snapshot() == Step(old(Snapshot()), SetStatus(key, u), now)
    {
      var values := map[StatusAttr := u.status, LastUpdateAttr := now, MessageAttr := u.message];
      if Truthy(u.fileKey) {
        values := values[FileKeyAttr := u.fileKey.value];
      }
      if Truthy(u.mode) {
        values := values[ModeAttr := u.mode.value];
      }
      if Truthy(u.sourceJobId) {
        values := values[SourceJobAttr := u.sourceJobId.value];
      }
      jobs := jobs[key := ItemAt(jobs, key) + values];
    }

    /** `save_to_s3`. */
    method SaveText(key: string, text: string)
      modifies this
      ensures Snapshot() == Step(old(Snapshot()), WriteAll([Put(key, Text(text))]), now)
    {
      StoredOne(objects, Put(key, Text(text)));
      objects := objects[key := Text(text)];
    }

    /** `save_metadata_to_s3`. */
    method SaveMetadata(key: string, folderPath: string, jobId: string, fileName: string, originalKey: string,
                        stated: Json, mode: string)
      modifies this
      ensures Snapshot() == Step(old(Snapshot()),
        WriteAll([Put(key, Meta(MetadataAttributes(bucket, folderPath, jobId, fileName, originalKey, stated, mode)))]), now)
    {
      var attrs := MetadataAttributes(bucket, folderPath, jobId, fileName, originalKey, stated, mode);
      StoredOne(objects, Put(key, Meta(attrs)));
      objects := objects[key := Meta(attrs)];
    }

    /** `copy_s3_object`; it fails when the source does not exist. */
    method Copy(source: string, dest: string) returns (ok: bool)
      modifies this
      ensures ok <==> source in old(objects)
      ensures Snapshot() == Step(old(Snapshot()), CopyObject(source, dest), now)
    {
      if source !in objects {
        return false;
      }
      objects := objects[dest := objects[source]];
      ok := true;
    }

    /** `save_knowledge_chunks`: one content file and one metadata file
        per chunk, or the whole answer when it does not split; it raises at
        the first chunk whose content is not a string. */
    method SaveKnowledgeChunks(text: string, jobId: string, a: ChunkArgs, parse: string -> Result<Json>)
      returns (r: Result<nat>)
      modifies this
      ensures r.Err? <==> KnowledgeError(text, parse).Some?
      ensures r.Err? ==> r.error == KnowledgeError(text, parse).value
      ensures r.Ok? ==> r.value == ChunkCount(text, parse)
      ensures Snapshot() == Step(old(Snapshot()), WriteAll(KnowledgePuts(bucket, text, jobId, a, parse)), now)
    {
      var extracted := ExtractJsonFromText(text, parse);
      if extracted.Ok? && |extracted.value| > 0 {
        var items := extracted.value;
        var idx := 0;
        while idx < |items|
          invariant 0 <= idx <= TextPrefix(items)
          invariant objects == Stored(old(objects), ChunkPuts(bucket, jobId, a, items, idx))
          invariant jobs == old(jobs)
        {
          var content := Get(items[idx], ContentField, JStr(""));
          if !content.JStr? {
            return Err(EncodeError(content));
          }
          var pair := ChunkPair(bucket, jobId, a, idx + 1, items[idx]);
          StoredTwo(old(objects), ChunkPuts(bucket, jobId, a, items, idx), pair[0], pair[1]);
          assert pair == [pair[0], pair[1]];
          objects := objects[pair[0].key := pair[0].body][pair[1].key := pair[1].body];
          idx := idx + 1;
        }
        r := Ok(|items|);
      } else {
        var whole := WholePuts(bucket, text, jobId, a);
        StoredTwo(old(objects), [], whole[0], whole[1]);
        assert [] + whole == whole;
        objects := objects[whole[0].key := whole[0].body][whole[1].key := whole[1].body];
        r := Ok(1);
      }
    }

    /** `process_direct_pdf`. */
    method ProcessDirectPdf(jobId: string, folderPath: string, fileKey: string, fileName: string, awsError: string)
      returns (fault: Option<string>)
      modifies this
      ensures fault == DirectPdfRun(bucket, jobId, folderPath, fileKey, fileName, old(objects), awsError).fault
      ensures Snapshot() == Run(old(Snapshot()),
                                DirectPdfRun(bucket, jobId, folderPath, fileKey, fileName, old(objects), awsError).actions, now)
    {
      ghost var s0 := Snapshot();
      var key := (jobId, SortKey(folderPath, fileName));
      var dest := KnowledgeDir(folderPath, jobId) + fileName;

      var running := StatusUpdate(RunningStatus, DirectStarted, Some(fileKey), Some(DirectPdfMode), None);
      UpdateStatus(key, running);
      RunSnoc(s0, [], SetStatus(key, running), now);
      assert [] + [SetStatus(key, running)] == [SetStatus(key, running)];
      ghost var trace := [SetStatus(key, running)];

      assert objects == old(objects);
      var ok := Copy(fileKey, dest);
      RunSnoc(s0, trace, CopyObject(fileKey, dest), now);
      trace := trace + [CopyObject(fileKey, dest)];

      if ok {
        SaveMetadata(dest + MetadataSuffix, folderPath, jobId, fileName, fileKey, JStr("-"), DirectPdfMode);
        var meta := WriteAll([Put(dest + MetadataSuffix,
                                  Meta(MetadataAttributes(bucket, folderPath, jobId, fileName, fileKey, JStr("-"), DirectPdfMode)))]);
        RunSnoc(s0, trace, meta, now);
        trace := trace + [meta];
        var done := StatusUpdate(DoneStatus, DirectCompleted, None, Some(DirectPdfMode), None);
        UpdateStatus(key, done);
        RunSnoc(s0, trace, SetStatus(key, done), now);
        trace := trace + [SetStatus(key, done)];
        assert trace == DirectPdfRun(bucket, jobId, folderPath, fileKey, fileName, old(objects), awsError).actions;
        fault := None;
      } else {
        var failed := Status(FailedStatus, DirectFailed + awsError);
        UpdateStatus(key, failed);
        RunSnoc(s0, trace, SetStatus(key, failed), now);
        trace := trace + [SetStatus(key, failed)];
        assert trace == DirectPdfRun(bucket, jobId, folderPath, fileKey, fileName, old(objects), awsError).actions;
        fault := Some(awsError);
      }
    }

    /** `process_pdf_on_demand` with a folder path. */
    method ProcessPdfOnDemand(jobId: string, folderPath: string, fileKey: string, fileName: string, sv: Services)
      returns (fault: Option<string>)
      modifies this
      ensures fault == FullRun(bucket, jobId, folderPath, fileKey, fileName, old(objects), sv).fault
      ensures Snapshot() == Run(old(Snapshot()), FullRun(bucket, jobId, folderPath, fileKey, fileName, old(objects), sv).actions, now)
    {
      ghost var s0 := Snapshot();
      var key := (jobId, SortKey(folderPath, fileName));

      var running := StatusUpdate(RunningStatus, FullStarted, Some(fileKey), Some(FullMode), None);
      UpdateStatus(key, running);
      RunSnoc(s0, [], SetStatus(key, running), now);
      assert [] + [SetStatus(key, running)] == [SetStatus(key, running)];
      ghost var trace := [SetStatus(key, running)];

      if PromptKey(folderPath, jobId, "transcript") !in objects || PromptKey(folderPath, jobId, "knowledge") !in objects {
        var msg := PromptsFailed + sv.awsError;
        UpdateStatus(key, Status(FailedStatus, msg));
        RunSnoc(s0, trace, SetStatus(key, Status(FailedStatus, msg)), now);
        trace := trace + [SetStatus(key, Status(FailedStatus, msg))];
        return Some(msg);
      }
      if fileKey !in objects || sv.transcription.None? {
        return Some(sv.awsError);
      }

      var base := BaseName(fileName);
      var transcript := Put(TranscriptKey(folderPath, jobId, base), Text(sv.transcription.value));
      SaveText(transcript.key, transcript.body.text);
      RunSnoc(s0, trace, WriteAll([transcript]), now);
      trace := trace + [WriteAll([transcript])];
      if sv.knowledge.None? {
        return Some(sv.awsError);
      }

      var a := ChunkArgs(folderPath, base, fileName, fileKey);
      var saved := SaveKnowledgeChunks(sv.knowledge.value, jobId, a, sv.parse);
      var chunks := WriteAll(KnowledgePuts(bucket, sv.knowledge.value, jobId, a, sv.parse));
      RunSnoc(s0, trace, chunks, now);
      trace := trace + [chunks];
      if saved.Err? {
        return Some(saved.error);
      }

      UpdateStatus(key, Status(DoneStatus, FullCompleted));
      RunSnoc(s0, trace, SetStatus(key, Status(DoneStatus, FullCompleted)), now);
      trace := trace + [SetStatus(key, Status(DoneStatus, FullCompleted))];
      assert trace == FullRun(bucket, jobId, folderPath, fileKey, fileName, old(objects), sv).actions;
      fault := None;
    }

    /** `process_reknowledge`, with the chunk writer called as intended
        (see `ReknowledgeArgs`). */
    method ProcessReknowledge(jobId: string, sourceJobId: string, folderPath: string, fileName: string, sv: Services)
      returns (fault: Option<string>)
      modifies this
      ensures fault == ReknowledgeRun(bucket, jobId, sourceJobId, folderPath, fileName, old(objects), sv).fault
      ensures Snapshot() == Run(old(Snapshot()),
                                ReknowledgeRun(bucket, jobId, sourceJobId, folderPath, fileName, old(objects), sv).actions, now)
    {
      ghost var s0 := Snapshot();
      var key := (jobId, SortKey(folderPath, fileName));

      var running := StatusUpdate(RunningStatus, ReknowledgeStarted + sourceJobId,
                                  None, Some(ReknowledgeMode), Some(sourceJobId));
      UpdateStatus(key, running);
      RunSnoc(s0, [], SetStatus(key, running), now);
      assert [] + [SetStatus(key, running)] == [SetStatus(key, running)];
      ghost var trace := [SetStatus(key, running)];

      if PromptKey(folderPath, jobId, "knowledge") !in objects {
        var msg := KnowledgePromptFailed + sv.awsError;
        UpdateStatus(key, Status(FailedStatus, msg));
        RunSnoc(s0, trace, SetStatus(key, Status(FailedStatus, msg)), now);
        trace := trace + [SetStatus(key, Status(FailedStatus, msg))];
        return Some(msg);
      }

      var base := BaseName(fileName);
      var source := TranscriptKey(folderPath, sourceJobId, base);
      var dest := TranscriptKey(folderPath, jobId, base);
      var ok := Copy(source, dest);
      RunSnoc(s0, trace, CopyObject(source, dest), now);
      trace := trace + [CopyObject(source, dest)];
      if !ok {
        var failed := Status(FailedStatus, CopyFailed + sv.awsError);
        UpdateStatus(key, failed);
        RunSnoc(s0, trace, SetStatus(key, failed), now);
        trace := trace + [SetStatus(key, failed)];
        return Some(sv.awsError);
      }
      if sv.knowledge.None? {
        return Some(sv.awsError);
      }

      var a := ReknowledgeArgs(folderPath, fileName);
      var saved := SaveKnowledgeChunks(sv.knowledge.value, jobId, a, sv.parse);
      var chunks := WriteAll(KnowledgePuts(bucket, sv.knowledge.value, jobId, a, sv.parse));
      RunSnoc(s0, trace, chunks, now);
      trace := trace + [chunks];
      if saved.Err? {
        return Some(saved.error);
      }

      UpdateStatus(key, Status(DoneStatus, ReknowledgeCompleted));
      RunSnoc(s0, trace, SetStatus(key, Status(DoneStatus, ReknowledgeCompleted)), now);
      trace := trace + [SetStatus(key, Status(DoneStatus, ReknowledgeCompleted))];
      assert trace == ReknowledgeRun(bucket, jobId, sourceJobId, folderPath, fileName, old(objects), sv).actions;
      fault := None;
    }

    /** `lambda_handler`: validate, run the mode's processing, and on an
        exception record it on the item when that is possible, then
        re-raise. */
    method HandleEvent(ev: WorkerEvent, sv: Services) returns (r: Result<Completion>)
      modifies this
      ensures r == HandlerResult(bucket, ev, old(objects), sv)
      ensures Snapshot() == Run(old(Snapshot()), HandlerActions(bucket, ev, old(objects), sv), now)
    {
      var task := Dispatch(ev);
      var fault: Option<string>;
      match task {
        case Rejected(msg) =>
          fault := Some(msg);
        case LegacyTask =>
          fault := Some(LegacyCallError);
        case ReknowledgeTask(jobId, sourceJobId, folderPath, fileName) =>
          fault := ProcessReknowledge(jobId, sourceJobId, folderPath, fileName, sv);
        case DirectPdfTask(jobId, folderPath, fileKey, fileName) =>
          fault := ProcessDirectPdf(jobId, folderPath, fileKey, fileName, sv.awsError);
        case FullTask(jobId, folderPath, fileKey, fileName) =>
          fault := ProcessPdfOnDemand(jobId, folderPath, fileKey, fileName, sv);
      }
      ghost var run := TaskRun(bucket, task, old(objects), sv);
      assert fault == run.fault && Snapshot() == Run(old(Snapshot()), run.actions, now);
      if fault.Some? {
        if RecordsFailure(ev) {
          var failed := Status(FailedStatus, HandlerErrorPrefix + fault.value);
          UpdateStatus(FailureKey(ev), failed);
          RunSnoc(old(Snapshot()), run.actions, SetStatus(FailureKey(ev), failed), now);
        }
        return Err(fault.value);
      }
      var fileName := EventFileName(ev).value;
      r := Ok(Completion(200, ev.jobId.value, fileName, ev.folderPath, ModeOf(ev), "completed",
                         ev.triggerKbSync.GetOr(JBool(false)),
                         "Successfully processed " + fileName + " in " + ModeOf(ev) + " mode"));
    }
  }

  // ---------------------------------------------------------------------
  // What a run leaves behind

  /** A direct PDF run copies the PDF into the knowledge folder next to a
      metadata file without a page reference and ends "done", keeping the
      key and the mode of its "running" update; when the PDF is missing
      the bucket is untouched and the item ends "failed". */
  lemma DirectPdfOutcome(s: State, bucket: string, jobId: string, folderPath: string, fileKey: string,
                         fileName: string, awsError: string, now: string)
    ensures var r := DirectPdfRun(bucket, jobId, folderPath, fileKey, fileName, s.objects, awsError);
      var after := Run(s, r.actions, now);
      var key := (jobId, SortKey(folderPath, fileName));
      var dest := KnowledgeDir(folderPath, jobId) + fileName;
      key in after.jobs && StatusAttr in after.jobs[key] && MessageAttr in after.jobs[key] &&
      (fileKey in s.objects ==>
        r.fault.None? &&
        dest in after.objects && after.objects[dest] == s.objects[fileKey] &&
        dest + MetadataSuffix in after.objects && after.objects[dest + MetadataSuffix].Meta? &&
        StatedField !in after.objects[dest + MetadataSuffix].attributes &&
        after.jobs[key][StatusAttr] == DoneStatus &&
        ModeAttr in after.jobs[key] && after.jobs[key][ModeAttr] == DirectPdfMode &&
        (fileKey != "" ==> FileKeyAttr in after.jobs[key] && after.jobs[key][FileKeyAttr] == fileKey)) &&
      (fileKey !in s.objects ==>
        r.fault == Some(awsError) && after.objects == s.objects &&
        after.jobs[key][StatusAttr] == FailedStatus &&
        after.jobs[key][MessageAttr] == DirectFailed + awsError)
  {
    var key := (jobId, SortKey(folderPath, fileName));
    var dest := KnowledgeDir(folderPath, jobId) + fileName;
    var a0 := SetStatus(key, StatusUpdate(RunningStatus, DirectStarted, Some(fileKey), Some(DirectPdfMode), None));
    var a1 := CopyObject(fileKey, dest);
    RunSnoc(s, [], a0, now);
    assert [] + [a0] == [a0];
    RunSnoc(s, [a0], a1, now);
    if fileKey in s.objects {
      var meta := Put(dest + MetadataSuffix,
                      Meta(MetadataAttributes(bucket, folderPath, jobId, fileName, fileKey, JStr("-"), DirectPdfMode)));
      var a3 := SetStatus(key, StatusUpdate(DoneStatus, DirectCompleted, None, Some(DirectPdfMode), None));
      RunSnoc(s, [a0] + [a1], WriteAll([meta]), now);
      StoredOne(Run(s, [a0] + [a1], now).objects, meta);
      RunSnoc(s, [a0] + [a1] + [WriteAll([meta])], a3, now);
      assert |dest + MetadataSuffix| > |dest|;
    } else {
      RunSnoc(s, [a0] + [a1], SetStatus(key, Status(FailedStatus, DirectFailed + awsError)), now);
    }
  }

  /** A full run completes exactly when both prompts, the PDF and both
      model answers are there and every chunk's content is a string; a
      missing prompt marks the item "failed" and writes nothing; any later
      error leaves the item "running" for the handler to record. */
  lemma FullOutcome(s: State, bucket: string, jobId: string, folderPath: string, fileKey: string,
                    fileName: string, sv: Services, now: string)
    ensures var r := FullRun(bucket, jobId, folderPath, fileKey, fileName, s.objects, sv);
      var after := Run(s, r.actions, now);
      var key := (jobId, SortKey(folderPath, fileName));
      var prompts := PromptKey(folderPath, jobId, "transcript") in s.objects && PromptKey(folderPath, jobId, "knowledge") in s.objects;
      key in after.jobs && StatusAttr in after.jobs[key] && MessageAttr in after.jobs[key] &&
      (r.fault.None? <==> prompts && fileKey in s.objects && sv.transcription.Some? && sv.knowledge.Some? &&
                          KnowledgeError(sv.knowledge.value, sv.parse).None?) &&
      (!prompts ==>
        after.objects == s.objects && after.jobs[key][StatusAttr] == FailedStatus &&
        after.jobs[key][MessageAttr] == PromptsFailed + sv.awsError) &&
      (prompts && r.fault.Some? ==> after.jobs[key][StatusAttr] == RunningStatus)
  {
    var key := (jobId, SortKey(folderPath, fileName));
    var running := SetStatus(key, StatusUpdate(RunningStatus, FullStarted, Some(fileKey), Some(FullMode), None));
    RunSnoc(s, [], running, now);
    assert [] + [running] == [running];
    var prompts := PromptKey(folderPath, jobId, "transcript") in s.objects && PromptKey(folderPath, jobId, "knowledge") in s.objects;
    if !prompts {
      RunSnoc(s, [running], SetStatus(key, Status(FailedStatus, PromptsFailed + sv.awsError)), now);
    } else if fileKey in s.objects && sv.transcription.Some? {
      var base := BaseName(fileName);
      var transcript := WriteAll([Put(TranscriptKey(folderPath, jobId, base), Text(sv.transcription.value))]);
      RunSnoc(s, [running], transcript, now);
      if sv.knowledge.Some? {
        var chunks := WriteAll(KnowledgePuts(bucket, sv.knowledge.value, jobId, ChunkArgs(folderPath, base, fileName, fileKey), sv.parse));
        RunSnoc(s, [running] + [transcript], chunks, now);
        if KnowledgeError(sv.knowledge.value, sv.parse).None? {
          RunSnoc(s, [running] + [transcript] + [chunks], SetStatus(key, Status(DoneStatus, FullCompleted)), now);
        }
      }
    }
  }

  /** What a full run whose model calls answer has written: the
      transcript under `Transcript/{folder}/{job}/` and every knowledge
      file up to the first chunk without text content; the item ends
      "done" when there is no such chunk and stays "running" otherwise. */
  lemma FullWrites(s: State, bucket: string, jobId: string, folderPath: string, fileKey: string,
                   fileName: string, sv: Services, now: string)
    requires PromptKey(folderPath, jobId, "transcript") in s.objects && PromptKey(folderPath, jobId, "knowledge") in s.objects
    requires fileKey in s.objects && sv.transcription.Some? && sv.knowledge.Some?
    ensures var after := Run(s, FullRun(bucket, jobId, folderPath, fileKey, fileName, s.objects, sv).actions, now);
      var base := BaseName(fileName);
      var tkey := TranscriptKey(folderPath, jobId, base);
      var puts := KnowledgePuts(bucket, sv.knowledge.value, jobId, ChunkArgs(folderPath, base, fileName, fileKey), sv.parse);
      var key := (jobId, SortKey(folderPath, fileName));
      tkey in after.objects && after.objects[tkey] == Text(sv.transcription.value) &&
      (forall i :: 0 <= i < |puts| ==> puts[i].key in after.objects && after.objects[puts[i].key] == puts[i].body) &&
      key in after.jobs && StatusAttr in after.jobs[key] &&
      (KnowledgeError(sv.knowledge.value, sv.parse).None? ==> after.jobs[key][StatusAttr] == DoneStatus) &&
      (KnowledgeError(sv.knowledge.value, sv.parse).Some? ==> after.jobs[key][StatusAttr] == RunningStatus) &&
      ModeAttr in after.jobs[key] && after.jobs[key][ModeAttr] == FullMode
  {
    var key := (jobId, SortKey(folderPath, fileName));
    var running := SetStatus(key, StatusUpdate(RunningStatus, FullStarted, Some(fileKey), Some(FullMode), None));
    var base := BaseName(fileName);
    var tkey := TranscriptKey(folderPath, jobId, base);
    var tput := Put(tkey, Text(sv.transcription.value));
    var a := ChunkArgs(folderPath, base, fileName, fileKey);
    var puts := KnowledgePuts(bucket, sv.knowledge.value, jobId, a, sv.parse);
    var done := SetStatus(key, Status(DoneStatus, FullCompleted));
    var acts := [running] + [WriteAll([tput])] + [WriteAll(puts)];
    RunSnoc(s, [], running, now);
    assert [] + [running] == [running];
    var s1 := Run(s, [running], now);
    RunSnoc(s, [running], WriteAll([tput]), now);
    var s2 := Step(s1, WriteAll([tput]), now);
    StoredOne(s1.objects, tput);
    RunSnoc(s, [running] + [WriteAll([tput])], WriteAll(puts), now);
    var s3 := Step(s2, WriteAll(puts), now);
    assert Run(s, acts, now) == s3;
    KnowledgeKeysDistinct(bucket, sv.knowledge.value, jobId, a, sv.parse);
    StoredAll(s2.objects, puts);
    OutsideKnowledge(s2.objects, bucket, sv.knowledge.value, jobId, a, sv.parse, tkey);
    assert ModeAttr in s3.jobs[key];
    if KnowledgeError(sv.knowledge.value, sv.parse).None? {
      assert FullRun(bucket, jobId, folderPath, fileKey, fileName, s.objects, sv).actions == acts + [done];
      RunSnoc(s, acts, done, now);
    } else {
      assert FullRun(bucket, jobId, folderPath, fileKey, fileName, s.objects, sv).actions == acts;
    }
  }

  /** A reknowledge run completes exactly when the knowledge prompt, the
      source job's transcript and the model's answer are all there and
      every chunk's content is a string; a
      missing prompt or a missing source transcript marks the item
      "failed" and leaves the bucket as it was. */
  lemma ReknowledgeOutcome(s: State, bucket: string, jobId: string, sourceJobId: string, folderPath: string,
                           fileName: string, sv: Services, now: string)
    ensures var r := ReknowledgeRun(bucket, jobId, sourceJobId, folderPath, fileName, s.objects, sv);
      var after := Run(s, r.actions, now);
      var key := (jobId, SortKey(folderPath, fileName));
      var prompt := PromptKey(folderPath, jobId, "knowledge");
      var source := TranscriptKey(folderPath, sourceJobId, BaseName(fileName));
      key in after.jobs && StatusAttr in after.jobs[key] && MessageAttr in after.jobs[key] &&
      (r.fault.None? <==> prompt in s.objects && source in s.objects && sv.knowledge.Some? &&
                          KnowledgeError(sv.knowledge.value, sv.parse).None?) &&
      (prompt !in s.objects ==>
        after.objects == s.objects && after.jobs[key][StatusAttr] == FailedStatus &&
        after.jobs[key][MessageAttr] == KnowledgePromptFailed + sv.awsError) &&
      (prompt in s.objects && source !in s.objects ==>
        after.objects == s.objects && after.jobs[key][StatusAttr] == FailedStatus &&
        after.jobs[key][MessageAttr] == CopyFailed + sv.awsError)
  {
    var key := (jobId, SortKey(folderPath, fileName));
    var running := SetStatus(key, StatusUpdate(RunningStatus, ReknowledgeStarted + sourceJobId,
                                               None, Some(ReknowledgeMode), Some(sourceJobId)));
    RunSnoc(s, [], running, now);
    assert [] + [running] == [running];
    var prompt := PromptKey(folderPath, jobId, "knowledge");
    if prompt !in s.objects {
      RunSnoc(s, [running], SetStatus(key, Status(FailedStatus, KnowledgePromptFailed + sv.awsError)), now);
    } else {
      var base := BaseName(fileName);
      var source := TranscriptKey(folderPath, sourceJobId, base);
      var copy := CopyObject(source, TranscriptKey(folderPath, jobId, base));
      RunSnoc(s, [running], copy, now);
      if source !in s.objects {
        RunSnoc(s, [running] + [copy], SetStatus(key, Status(FailedStatus, CopyFailed + sv.awsError)), now);
      } else if sv.knowledge.Some? {
        var puts := KnowledgePuts(bucket, sv.knowledge.value, jobId, ReknowledgeArgs(folderPath, fileName), sv.parse);
        RunSnoc(s, [running] + [copy], WriteAll(puts), now);
        if KnowledgeError(sv.knowledge.value, sv.parse).None? {
          RunSnoc(s, [running] + [copy] + [WriteAll(puts)], SetStatus(key, Status(DoneStatus, ReknowledgeCompleted)), now);
        }
      }
    }
  }

  /** A reknowledge run whose prompt, source transcript and model answer
      are there holds a copy of the source job's transcript under the new
      job and records the mode and the source job; it ends "done" when
      every chunk's content is a string and stays "running" otherwise. */
  lemma ReknowledgeCompletes(s: State, bucket: string, jobId: string, sourceJobId: string, folderPath: string,
                             fileName: string, sv: Services, now: string)
    requires PromptKey(folderPath, jobId, "knowledge") in s.objects && sv.knowledge.Some?
    requires TranscriptKey(folderPath, sourceJobId, BaseName(fileName)) in s.objects
    ensures var after := Run(s, ReknowledgeRun(bucket, jobId, sourceJobId, folderPath, fileName, s.objects, sv).actions, now);
      var key := (jobId, SortKey(folderPath, fileName));
      var source := TranscriptKey(folderPath, sourceJobId, BaseName(fileName));
      var dest := TranscriptKey(folderPath, jobId, BaseName(fileName));
      key in after.jobs && StatusAttr in after.jobs[key] && MessageAttr in after.jobs[key] &&
      (KnowledgeError(sv.knowledge.value, sv.parse).None? ==>
        after.jobs[key][StatusAttr] == DoneStatus && after.jobs[key][MessageAttr] == ReknowledgeCompleted) &&
      (KnowledgeError(sv.knowledge.value, sv.parse).Some? ==>
        after.jobs[key][StatusAttr] == RunningStatus && after.jobs[key][MessageAttr] == ReknowledgeStarted + sourceJobId) &&
      ModeAttr in after.jobs[key] && after.jobs[key][ModeAttr] == ReknowledgeMode &&
      (sourceJobId != "" ==> SourceJobAttr in after.jobs[key] && after.jobs[key][SourceJobAttr] == sourceJobId) &&
      dest in after.objects && after.objects[dest] == s.objects[source]
  {
    var key := (jobId, SortKey(folderPath, fileName));
    var running := SetStatus(key, StatusUpdate(RunningStatus, ReknowledgeStarted + sourceJobId,
                                               None, Some(ReknowledgeMode), Some(sourceJobId)));
    var base := BaseName(fileName);
    var source := TranscriptKey(folderPath, sourceJobId, base);
    var dest := TranscriptKey(folderPath, jobId, base);
    var copy := CopyObject(source, dest);
    var a := ReknowledgeArgs(folderPath, fileName);
    var puts := KnowledgePuts(bucket, sv.knowledge.value, jobId, a, sv.parse);
    var done := SetStatus(key, Status(DoneStatus, ReknowledgeCompleted));
    var acts := [running] + [copy] + [WriteAll(puts)];
    RunSnoc(s, [], running, now);
    assert [] + [running] == [running];
    var s1 := Run(s, [running], now);
    RunSnoc(s, [running], copy, now);
    var s2 := Step(s1, copy, now);
    RunSnoc(s, [running] + [copy], WriteAll(puts), now);
    var s3 := Step(s2, WriteAll(puts), now);
    assert Run(s, acts, now) == s3;
    OutsideKnowledge(s2.objects, bucket, sv.knowledge.value, jobId, a, sv.parse, dest);
    assert ModeAttr in s3.jobs[key];
    if KnowledgeError(sv.knowledge.value, sv.parse).None? {
      assert ReknowledgeRun(bucket, jobId, sourceJobId, folderPath, fileName, s.objects, sv).actions == acts + [done];
      RunSnoc(s, acts, done, now);
    } else {
      assert ReknowledgeRun(bucket, jobId, sourceJobId, folderPath, fileName, s.objects, sv).actions == acts;
    }
  }

  /** With the arguments in their intended order, a reknowledge run files
      every knowledge file under `Knowledge/{folder}/{job}/` and names that
      folder in each metadata file, like a full run. */
  lemma ReknowledgeFilesUnderFolder(bucket: string, text: string, jobId: string, folderPath: string,
                                    fileName: string, parse: string -> Result<Json>)
    ensures var puts := KnowledgePuts(bucket, text, jobId, ReknowledgeArgs(folderPath, fileName), parse);
      forall i :: 0 <= i < |puts| ==>
        Strs.StartsWith(puts[i].key, KnowledgeDir(folderPath, jobId)) &&
        (puts[i].body.Meta? ==> FolderPathField in puts[i].body.attributes &&
                                puts[i].body.attributes[FolderPathField] == JStr(folderPath))
  {
    KnowledgePutsUnderFolder(bucket, text, jobId, ReknowledgeArgs(folderPath, fileName), parse);
  }

  /** As the source spells the call, the base name takes the folder's
      place: every knowledge file lands under `Knowledge/{base}/{job}/`
      and its metadata names the base name as its folder, so a knowledge
      base filter on the real folder never finds it. */
  lemma ReknowledgeAsWrittenMisfiles(bucket: string, text: string, jobId: string, folderPath: string,
                                     fileName: string, parse: string -> Result<Json>)
    requires BaseName(fileName) != folderPath
    ensures var puts := KnowledgePuts(bucket, text, jobId, ReknowledgeArgsAsWritten(folderPath, fileName), parse);
      (KnowledgeError(text, parse).None? ==> |puts| > 0) &&
      forall i :: 0 <= i < |puts| ==>
        Strs.StartsWith(puts[i].key, KnowledgeDir(BaseName(fileName), jobId)) &&
        (puts[i].body.Meta? ==> FolderPathField in puts[i].body.attributes &&
                                puts[i].body.attributes[FolderPathField] != JStr(folderPath))
  {
    KnowledgePutsUnderFolder(bucket, text, jobId, ReknowledgeArgsAsWritten(folderPath, fileName), parse);
  }

  /** One invocation of the handler: a completed invocation leaves its
      item "done"; a rejected event or the legacy full-mode call writes
      nothing to the bucket; and whenever the event names a job, a file
      and a folder, the error the handler re-raises is also the item's
      final "failed" message. */
  lemma HandlerOutcome(s: State, bucket: string, ev: WorkerEvent, sv: Services, now: string)
    ensures var r := HandlerResult(bucket, ev, s.objects, sv);
      var after := Run(s, HandlerActions(bucket, ev, s.objects, sv), now);
      (Dispatch(ev).Rejected? || Dispatch(ev).LegacyTask? ==> r.Err? && after.objects == s.objects) &&
      (r.Err? && RecordsFailure(ev) ==>
        FailureKey(ev) in after.jobs &&
        StatusAttr in after.jobs[FailureKey(ev)] && after.jobs[FailureKey(ev)][StatusAttr] == FailedStatus &&
        MessageAttr in after.jobs[FailureKey(ev)] && after.jobs[FailureKey(ev)][MessageAttr] == HandlerErrorPrefix + r.error) &&
      (r.Ok? ==>
        RecordsFailure(ev) && FailureKey(ev) in after.jobs &&
        StatusAttr in after.jobs[FailureKey(ev)] && after.jobs[FailureKey(ev)][StatusAttr] == DoneStatus)
  {
    var t := Dispatch(ev);
    var run := TaskRun(bucket, t, s.objects, sv);
    if run.fault.Some? {
      if RecordsFailure(ev) {
        LastStatus(s, run.actions, FailureKey(ev), Status(FailedStatus, HandlerErrorPrefix + run.fault.value), now);
      }
    } else {
      match t
      case ReknowledgeTask(jobId, sourceJobId, folderPath, fileName) =>
        ReknowledgeOutcome(s, bucket, jobId, sourceJobId, folderPath, fileName, sv, now);
        ReknowledgeCompletes(s, bucket, jobId, sourceJobId, folderPath, fileName, sv, now);
      case DirectPdfTask(jobId, folderPath, fileKey, fileName) =>
        DirectPdfOutcome(s, bucket, jobId, folderPath, fileKey, fileName, sv.awsError, now);
      case FullTask(jobId, folderPath, fileKey, fileName) =>
        FullOutcome(s, bucket, jobId, folderPath, fileKey, fileName, sv, now);
        FullWrites(s, bucket, jobId, folderPath, fileKey, fileName, sv, now);
    }
  }
}
