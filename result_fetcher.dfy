/** `result_fetcher`: the knowledge text of one document reassembled from
    its chunk files, the job ids of a folder, and `GET /results`. */
module ResultFetcher {
  import opened Wrappers
  import Strs
  import Order
  import Worker
  import JobCreator

  /** The bucket as the fetcher sees it: each key's text. */
  type Bucket = map<string, string>

  /** `get_file_content`: the text of an object, or None when the read fails. */
  function Read(objects: Bucket, key: string): (r: Option<string>)
    ensures r.Some? <==> key in objects
    ensures r.Some? ==> r.value == objects[key]
  {
    if key in objects then Some(objects[key]) else None
  }

  /** The keys of a listing that satisfy `p`, in listing order. */
  function Filter(s: seq<string>, p: string -> bool): (r: seq<string>)
    ensures |r| <= |s|
    ensures forall x :: x in r <==> x in s && p(x)
  {
    if s == [] then []
    else
      var rest := Filter(s[..|s| - 1], p);
      assert s == s[..|s| - 1] + [s[|s| - 1]];
      if p(s[|s| - 1]) then rest + [s[|s| - 1]] else rest
  }

  lemma EmptyWhenNoMember(s: seq<string>)
    ensures (forall k :: k !in s) ==> s == []
  {
    if s != [] {
      assert s[0] in s;
    }
  }

  /** Python's `sep.join(parts)`. */
  function JoinWith(parts: seq<string>, sep: string): string
  {
    if |parts| == 0 then ""
    else if |parts| == 1 then parts[0]
    else JoinWith(parts[..|parts| - 1], sep) + sep + parts[|parts| - 1]
  }

  // ---------------------------------------------------------------------
  // Chunk selection

  const TextSuffix := Worker.TextSuffix

  /** Where a document's knowledge files start: under the folder when
      there is one, in the flat layout otherwise. */
  function KnowledgePrefix(jobId: string, baseName: string, folderPath: Option<string>): string
  {
    if Worker.Truthy(folderPath) then Worker.KnowledgeDir(folderPath.value, jobId) + baseName
    else Worker.KnowledgeRoot + jobId + "/" + baseName
  }

  /** A knowledge text file, not its metadata. */
  predicate IsText(key: string)
  {
    Strs.EndsWith(key, TextSuffix) && !Strs.EndsWith(key, Worker.MetadataSuffix)
  }

  /** The file name without its directory and with every ".txt" removed. */
  function Stem(key: string): string
  {
    Strs.ReplaceAll(Strs.LastSegment(key, '/'), TextSuffix, "")
  }

  /** How a listed text file is judged to be a chunk: as written, any
      underscore in its stem; as intended, the document's own prefix, an
      underscore and digits only. */
  datatype ChunkRule = AsWritten | Intended

  predicate IsChunkOf(key: string, prefix: string)
  {
    Strs.StartsWith(key, prefix + "_") && Strs.EndsWith(key, TextSuffix) &&
    |prefix| + 1 <= |key| - |TextSuffix| && Strs.IsDigits(key[|prefix| + 1..|key| - |TextSuffix|])
  }

  predicate Selects(rule: ChunkRule, key: string, prefix: string)
  {
    match rule
    case AsWritten => '_' in Stem(key)
    case Intended => IsChunkOf(key, prefix)
  }

  /** The text files listed under the prefix. */
  function TextFiles(listing: seq<string>, prefix: string): (r: seq<string>)
    ensures forall k :: k in r <==> k in listing && Strs.StartsWith(k, prefix) && IsText(k)
  {
    Filter(Filter(listing, k => Strs.StartsWith(k, prefix)), IsText)
  }

  /** The chunk files among the listed text files, sorted by key. */
  function ChunkFiles(rule: ChunkRule, listing: seq<string>, prefix: string): (r: seq<string>)
    ensures forall k :: k in r <==> k in TextFiles(listing, prefix) && Selects(rule, k, prefix)
    ensures Order.SortedBy(r, k => Order.Text(k), false)
  {
    var chunks := Filter(TextFiles(listing, prefix), k => Selects(rule, k, prefix));
    Order.SortBySorted(chunks, k => Order.Text(k), false);
    var r := Order.SortBy(chunks, k => Order.Text(k), false);
    assert forall k :: k in r <==> k in multiset(r);
    assert forall k :: k in chunks <==> k in multiset(chunks);
    r
  }

  // ---------------------------------------------------------------------
  // Reassembly

  function Dashes(n: nat): (r: string)
    ensures |r| == n && forall i :: 0 <= i < n ==> r[i] == '-'
  {
    if n == 0 then "" else Dashes(n - 1) + "-"
  }

  /** The line of dashes that opens every chunk section. */
  const SectionSplit: string := Dashes(297) + "\n"

  /** The section of one chunk file: the separator, then its stem and
      text; nothing when the file is empty or unreadable. */
  function Section(objects: Bucket, f: string): seq<string>
  {
    var content := Read(objects, f);
    if Worker.Truthy(content) then [SectionSplit, Stem(f) + "\n" + content.value] else []
  }

  /** The sections of the files, in order. */
  function Sections(objects: Bucket, files: seq<string>): seq<string>
  {
    if files == [] then []
    else Sections(objects, files[..|files| - 1]) + Section(objects, files[|files| - 1])
  }

  /** The combined text of the chunks, or None when none has text. */
  function Combined(objects: Bucket, files: seq<string>): Option<string>
  {
    var parts := Sections(objects, files);
    if parts == [] then None else Some(JoinWith(parts, "\n\n"))
  }

  /** `get_knowledge_chunks` under a chunk rule. */
  function KnowledgeText(rule: ChunkRule, objects: Bucket, listing: Option<seq<string>>,
                         jobId: string, baseName: string, folderPath: Option<string>): Option<string>
  {
    var prefix := KnowledgePrefix(jobId, baseName, folderPath);
    if listing.None? then None
    else
      if TextFiles(listing.value, prefix) == [] then None
      else
        var chunks := ChunkFiles(rule, listing.value, prefix);
        if chunks != [] then Combined(objects, chunks)
        else Read(objects, prefix + TextSuffix)
  }

  /** Sections are taken file by file: those of a list are those of its
      parts, in order. */
  lemma {:induction false} SectionsAppend(objects: Bucket, a: seq<string>, b: seq<string>)
    ensures Sections(objects, a + b) == Sections(objects, a) + Sections(objects, b)
    decreases |b|
  {
    if b == [] {
      assert a + b == a;
    } else {
      var init := b[..|b| - 1];
      assert (a + b)[..|a + b| - 1] == a + init;
      assert (a + b)[|a + b| - 1] == b[|b| - 1];
      SectionsAppend(objects, a, init);
    }
  }

  /** Each file contributes its own section at its own place. */
  lemma SectionsAt(objects: Bucket, files: seq<string>, i: nat)
    requires i < |files|
    ensures Sections(objects, files) ==
      Sections(objects, files[..i]) + Section(objects, files[i]) + Sections(objects, files[i + 1..])
  {
    assert files == files[..i] + [files[i]] + files[i + 1..];
    SectionsAppend(objects, files[..i] + [files[i]], files[i + 1..]);
    SectionsAppend(objects, files[..i], [files[i]]);
    assert Sections(objects, [files[i]]) == Section(objects, files[i]) by {
      assert [files[i]][..0] == [];
    }
  }

  /** There are no sections exactly when no file has text. */
  lemma {:induction false} SectionsNone(objects: Bucket, files: seq<string>)
    ensures Sections(objects, files) == [] <==> forall i :: 0 <= i < |files| ==> !Worker.Truthy(Read(objects, files[i]))
  {
    if files != [] {
      var init := files[..|files| - 1];
      SectionsNone(objects, init);
      assert forall i :: 0 <= i < |init| ==> init[i] == files[i];
    }
  }

  /** `combined_content`, built section by section. */
  method CombineChunks(objects: Bucket, files: seq<string>) returns (r: Option<string>)
    ensures r == Combined(objects, files)
  {
    var combined: seq<string> := [];
    for i := 0 to |files|
      invariant combined == Sections(objects, files[..i])
    {
      assert files[..i + 1][..i] == files[..i];
      var content := Read(objects, files[i]);
      if Worker.Truthy(content) {
        combined := combined + [SectionSplit];
        combined := combined + [Stem(files[i]) + "\n" + content.value];
      }
    }
    assert files[..|files|] == files;
    if combined == [] {
      return None;
    }
    r := Some(JoinWith(combined, "\n\n"));
  }

  /** `get_knowledge_chunks`, with the intended chunk rule. */
  method GetKnowledgeChunks(objects: Bucket, listing: Option<seq<string>>, jobId: string, baseName: string,
                            folderPath: Option<string>) returns (r: Option<string>)
    ensures r == KnowledgeText(Intended, objects, listing, jobId, baseName, folderPath)
  {
    var prefix := KnowledgePrefix(jobId, baseName, folderPath);
    if listing.None? || TextFiles(listing.value, prefix) == [] {
      return None;
    }
    var chunks := ChunkFiles(Intended, listing.value, prefix);
    if chunks != [] {
      r := CombineChunks(objects, chunks);
    } else {
      r := Read(objects, prefix + TextSuffix);
    }
  }

  /** With chunk files listed, the text is made of their sections in key
      order, and is missing only when none of them has text. */
  lemma KnowledgeFromChunks(objects: Bucket, listing: seq<string>, jobId: string, baseName: string,
                            folderPath: Option<string>)
    requires ChunkFiles(Intended, listing, KnowledgePrefix(jobId, baseName, folderPath)) != []
    ensures var chunks := ChunkFiles(Intended, listing, KnowledgePrefix(jobId, baseName, folderPath));
      var r := KnowledgeText(Intended, objects, Some(listing), jobId, baseName, folderPath);
      (r.None? <==> forall i :: 0 <= i < |chunks| ==> !Worker.Truthy(Read(objects, chunks[i]))) &&
      (r.Some? ==> r.value == JoinWith(Sections(objects, chunks), "\n\n"))
  {
    var prefix := KnowledgePrefix(jobId, baseName, folderPath);
    var chunks := ChunkFiles(Intended, listing, prefix);
    assert chunks[0] in TextFiles(listing, prefix);
    assert TextFiles(listing, prefix) != [];
    assert KnowledgeText(Intended, objects, Some(listing), jobId, baseName, folderPath) == Combined(objects, chunks);
    SectionsNone(objects, chunks);
  }

  /** When the worker wrote a document's knowledge as one file and no
      chunk of it is listed, that file is what is read. */
  lemma WorkerWholeFileRead(objects: Bucket, listing: seq<string>, a: Worker.ChunkArgs, jobId: string)
    requires a.folderPath != ""
    requires Worker.KnowledgeDir(a.folderPath, jobId) + a.baseName + TextSuffix in listing
    requires forall k :: k in listing ==> !IsChunkOf(k, Worker.KnowledgeDir(a.folderPath, jobId) + a.baseName)
    ensures KnowledgeText(Intended, objects, Some(listing), jobId, a.baseName, Some(a.folderPath)) ==
            Read(objects, Worker.KnowledgeDir(a.folderPath, jobId) + a.baseName + TextSuffix)
  {
    var prefix := KnowledgePrefix(jobId, a.baseName, Some(a.folderPath));
    var key := prefix + TextSuffix;
    assert key[..|prefix|] == prefix;
    assert key[|key| - |TextSuffix|..] == TextSuffix;
    assert key[|key| - 1] == 't';
    assert key in TextFiles(listing, prefix);
    var chunks := ChunkFiles(Intended, listing, prefix);
    assert forall k :: k !in chunks;
    EmptyWhenNoMember(chunks);
  }

  // ---------------------------------------------------------------------
  // The chunks the worker writes

  /** A number below 1000 is its hundreds, tens and units digits. */
  lemma ThreeDigits(m: nat)
    requires m < 1000
    ensures m == 100 * (m / 100) + 10 * (m / 10 % 10) + m % 10
    ensures m / 100 < 10 && m / 10 % 10 < 10 && m % 10 < 10
  {
    assert m == 10 * (m / 10) + m % 10;
    assert m / 10 == 10 * (m / 10 / 10) + m / 10 % 10;
    assert m / 10 / 10 == m / 100;
  }

  /** Three-digit numerals compare as their digit triples. */
  lemma TriplesLe(a: nat, b: nat, c: nat, d: nat, e: nat, f: nat)
    requires b < 10 && c < 10 && e < 10 && f < 10
    ensures 100 * a + 10 * b + c <= 100 * d + 10 * e + f <==>
      a < d || (a == d && (b < e || (b == e && c <= f)))
  {
  }

  /** Numbers below 1000 compare digit by digit, from the hundreds. */
  lemma DigitwiseLe(m: nat, n: nat)
    requires m < 1000 && n < 1000
    ensures m <= n <==>
      m / 100 < n / 100 || (m / 100 == n / 100 &&
        (m / 10 % 10 < n / 10 % 10 || (m / 10 % 10 == n / 10 % 10 && m % 10 <= n % 10)))
  {
    ThreeDigits(m);
    ThreeDigits(n);
    TriplesLe(m / 100, m / 10 % 10, m % 10, n / 100, n / 10 % 10, n % 10);
  }

  /** Three padded digits followed by the same text compare as the numbers. */
  lemma Pad3Order(m: nat, n: nat, t: string)
    requires m < 1000 && n < 1000
    ensures Order.LexLe(Strs.Pad3(m) + t, Strs.Pad3(n) + t) <==> m <= n
  {
    Strs.Pad3Digits(m);
    Strs.Pad3Digits(n);
    var x := Strs.Pad3(m) + t;
    var y := Strs.Pad3(n) + t;
    var x1, y1 := x[1..], y[1..];
    var x2, y2 := x1[1..], y1[1..];
    assert x2[1..] == t && y2[1..] == t;
    Order.LexLeRefl(t);
    assert Order.LexLe(x, y) == (x[0] < y[0] || (x[0] == y[0] && Order.LexLe(x1, y1)));
    assert Order.LexLe(x1, y1) == (x1[0] < y1[0] || (x1[0] == y1[0] && Order.LexLe(x2, y2)));
    assert Order.LexLe(x2, y2) == (x2[0] < y2[0] || (x2[0] == y2[0] && Order.LexLe(t, t)));
    DigitwiseLe(m, n);
  }

  /** Below 1000 chunks, a document's chunk keys sort in the order the
      worker numbered them. */
  lemma ChunkKeyOrder(a: Worker.ChunkArgs, jobId: string, m: nat, n: nat)
    requires m < 1000 && n < 1000
    ensures Order.LexLe(Worker.ChunkKey(a, jobId, m), Worker.ChunkKey(a, jobId, n)) <==> m <= n
  {
    var p := Worker.KnowledgeDir(a.folderPath, jobId) + a.baseName + "_";
    assert Worker.ChunkKey(a, jobId, m) == p + (Strs.Pad3(m) + TextSuffix);
    assert Worker.ChunkKey(a, jobId, n) == p + (Strs.Pad3(n) + TextSuffix);
    Order.LexLeCommonPrefix(p, Strs.Pad3(m) + TextSuffix, Strs.Pad3(n) + TextSuffix);
    Pad3Order(m, n, TextSuffix);
  }

  /** Whatever follows the last separator, agreeing strings agree before it. */
  lemma LastSeparator(x: string, p: string, y: string, q: string, c: char)
    requires x + [c] + p == y + [c] + q && c !in p && c !in q
    ensures x == y && p == q
  {
    var s := x + [c] + p;
    assert s[|x|] == c && s[|y|] == c;
    assert |x| == |y|;
    assert x == s[..|x|] == y;
    assert p == s[|x| + 1..] == q;
  }

  /** Every chunk the worker writes for a document is read back as one of
      that document's chunks; its metadata file is not a text file. */
  lemma WorkerChunkSelected(a: Worker.ChunkArgs, jobId: string, idx: nat, listing: seq<string>)
    requires a.folderPath != "" && Worker.ChunkKey(a, jobId, idx) in listing
    ensures Worker.ChunkKey(a, jobId, idx) in ChunkFiles(Intended, listing, KnowledgePrefix(jobId, a.baseName, Some(a.folderPath)))
    ensures !IsText(Worker.ChunkKey(a, jobId, idx) + Worker.MetadataSuffix)
  {
    var prefix := KnowledgePrefix(jobId, a.baseName, Some(a.folderPath));
    var key := Worker.ChunkKey(a, jobId, idx);
    var digits := Strs.Pad3(idx);
    assert key == prefix + "_" + digits + TextSuffix;
    assert key[..|prefix + "_"|] == prefix + "_";
    assert key[..|prefix|] == prefix;
    assert key[|key| - |TextSuffix|..] == TextSuffix;
    assert key[|prefix| + 1..|key| - |TextSuffix|] == digits;
    Strs.Pad3Value(idx);
    var meta := key + Worker.MetadataSuffix;
    assert meta[|meta| - 1] == 'n';
  }

  /** Digits hold no underscore. */
  lemma DigitsNoUnderscore(s: string)
    requires Strs.IsDigits(s)
    ensures '_' !in s
  {
    assert forall i :: 0 <= i < |s| ==> Strs.IsDigit(s[i]);
  }

  /** A chunk of a prefix is the prefix, an underscore, digits and ".txt". */
  lemma ChunkShape(key: string, prefix: string)
    requires IsChunkOf(key, prefix)
    ensures key == (prefix + "_" + key[|prefix| + 1..|key| - |TextSuffix|]) + TextSuffix
  {
    var digits := key[|prefix| + 1..|key| - |TextSuffix|];
    assert key[..|prefix + "_"|] == prefix + "_";
    assert key[|key| - |TextSuffix|..] == TextSuffix;
    assert key == key[..|prefix + "_"|] + digits + key[|key| - |TextSuffix|..];
  }

  /** Strings that agree around their middles agree in the middle. */
  lemma SameMiddle(d: string, u: string, v: string, t: string)
    requires d + u + t == d + v + t
    ensures u == v
  {
    var k := d + u + t;
    assert u == k[|d|..|k| - |t|];
  }

  /** A name, an underscore and digits is a chunk of no other name in the
      same directory. */
  lemma ChunkNameOwner(dir: string, x: string, p: string, y: string)
    requires Strs.IsDigits(p) && IsChunkOf(dir + x + "_" + p + TextSuffix, dir + y)
    ensures x == y
  {
    var key := dir + x + "_" + p + TextSuffix;
    var digits := key[|dir + y| + 1..|key| - |TextSuffix|];
    ChunkShape(key, dir + y);
    assert key == dir + (x + "_" + p) + TextSuffix;
    assert key == dir + (y + "_" + digits) + TextSuffix;
    SameMiddle(dir, x + "_" + p, y + "_" + digits, TextSuffix);
    DigitsNoUnderscore(p);
    DigitsNoUnderscore(digits);
    LastSeparator(x, p, y, digits, '_');
  }

  /** A chunk the worker writes for one document is a chunk of no other
      document of the same job and folder. */
  lemma ChunkOwner(a: Worker.ChunkArgs, jobId: string, idx: nat, baseName: string)
    requires IsChunkOf(Worker.ChunkKey(a, jobId, idx), Worker.KnowledgeDir(a.folderPath, jobId) + baseName)
    ensures baseName == a.baseName
  {
    var dir := Worker.KnowledgeDir(a.folderPath, jobId);
    assert Worker.ChunkKey(a, jobId, idx) == dir + a.baseName + "_" + Strs.Pad3(idx) + TextSuffix;
    Strs.Pad3Value(idx);
    ChunkNameOwner(dir, a.baseName, Strs.Pad3(idx), baseName);
  }

  /** A character outside the pattern survives its removal. */
  lemma {:induction false} ReplaceKeeps(s: string, pat: string, c: char, i: nat)
    requires |pat| > 0 && i < |s| && s[i] == c && c !in pat
    ensures c in Strs.ReplaceAll(s, pat, "")
    decreases |s|
  {
    if Strs.StartsWith(s, pat) {
      assert i >= |pat| by {
        assert forall j :: 0 <= j < |pat| ==> s[j] == pat[j];
      }
      ReplaceKeeps(s[|pat|..], pat, c, i - |pat|);
    } else if i > 0 {
      ReplaceKeeps(s[1..], pat, c, i - 1);
    }
  }

  /** The stem of a chunk file the worker writes keeps its underscore. */
  lemma ChunkStemHasUnderscore(a: Worker.ChunkArgs, jobId: string, idx: nat)
    requires '/' !in a.baseName
    ensures '_' in Stem(Worker.ChunkKey(a, jobId, idx))
  {
    var name := a.baseName + "_" + Strs.Pad3(idx) + TextSuffix;
    assert Worker.ChunkKey(a, jobId, idx) == (Worker.KnowledgeRoot + a.folderPath + "/" + jobId) + ['/'] + name;
    assert '/' !in name by {
      Strs.Pad3Value(idx);
      assert forall i :: 0 <= i < |Strs.Pad3(idx)| ==> Strs.IsDigit(Strs.Pad3(idx)[i]);
    }
    Strs.LastSegmentAfterLast(Worker.KnowledgeRoot + a.folderPath + "/" + jobId, '/', name);
    ReplaceKeeps(name, TextSuffix, '_', |a.baseName|);
  }

  /** A chunk file of a document is a text file under the prefix of any
      document whose base name starts its own. */
  lemma LongerNameText(a: Worker.ChunkArgs, jobId: string, idx: nat, baseName: string)
    requires Strs.StartsWith(a.baseName, baseName)
    ensures var key := Worker.ChunkKey(a, jobId, idx);
      Strs.StartsWith(key, Worker.KnowledgeDir(a.folderPath, jobId) + baseName) && IsText(key)
  {
    var dir := Worker.KnowledgeDir(a.folderPath, jobId);
    var key := Worker.ChunkKey(a, jobId, idx);
    var prefix := dir + baseName;
    assert key[..|prefix|] == prefix by {
      assert key == dir + a.baseName + ("_" + Strs.Pad3(idx) + TextSuffix);
      assert a.baseName[..|baseName|] == baseName;
    }
    assert key[|key| - |TextSuffix|..] == TextSuffix;
    assert key[|key| - 1] == 't';
  }

  /** As written, the chunks of a document whose base name extends another
      one's (`document.pdf` beside `doc.pdf`) are taken for chunks of the
      shorter one; as intended they are not. */
  lemma AsWrittenTakesLongerName(a: Worker.ChunkArgs, jobId: string, idx: nat, baseName: string, listing: seq<string>)
    requires a.folderPath != "" && '/' !in a.baseName
    requires Strs.StartsWith(a.baseName, baseName) && |a.baseName| > |baseName|
    requires Worker.ChunkKey(a, jobId, idx) in listing
    ensures var prefix := KnowledgePrefix(jobId, baseName, Some(a.folderPath));
      Worker.ChunkKey(a, jobId, idx) in ChunkFiles(AsWritten, listing, prefix) &&
      Worker.ChunkKey(a, jobId, idx) !in ChunkFiles(Intended, listing, prefix)
  {
    var key := Worker.ChunkKey(a, jobId, idx);
    var prefix := Worker.KnowledgeDir(a.folderPath, jobId) + baseName;
    ChunkStemHasUnderscore(a, jobId, idx);
    LongerNameText(a, jobId, idx, baseName);
    assert key in TextFiles(listing, prefix);
    if IsChunkOf(key, prefix) {
      ChunkOwner(a, jobId, idx, baseName);
    }
  }

  /** The chunks read back for a document come in the order the worker
      wrote them (up to chunk 999). */
  lemma WorkerChunksInOrder(listing: seq<string>, a: Worker.ChunkArgs, jobId: string, i: nat, j: nat, m: nat, n: nat)
    requires i < j < |ChunkFiles(Intended, listing, KnowledgePrefix(jobId, a.baseName, Some(a.folderPath)))|
    requires m < 1000 && n < 1000
    requires ChunkFiles(Intended, listing, KnowledgePrefix(jobId, a.baseName, Some(a.folderPath)))[i] == Worker.ChunkKey(a, jobId, m)
    requires ChunkFiles(Intended, listing, KnowledgePrefix(jobId, a.baseName, Some(a.folderPath)))[j] == Worker.ChunkKey(a, jobId, n)
    ensures m <= n
  {
    var chunks := ChunkFiles(Intended, listing, KnowledgePrefix(jobId, a.baseName, Some(a.folderPath)));
    assert Order.InOrder(Order.Text(chunks[i]), Order.Text(chunks[j]), false);
    ChunkKeyOrder(a, jobId, m, n);
  }

  // ---------------------------------------------------------------------
  // Job ids

  /** Sorting job ids and chunk keys compares the strings themselves. */
  function TextKey(k: string): Order.Key
  {
    Order.Text(k)
  }

  function PromptsPrefix(folderPath: string): string
  {
    "Prompts/" + folderPath + "/"
  }

  /** The folder directly under `prefix` that a key lies in, if any: the
      text between the prefix and the next '/'. */
  function FolderOf(key: string, prefix: string): Option<string>
  {
    if !Strs.StartsWith(key, prefix) then None
    else
      var rest := key[|prefix|..];
      var i := Strs.IndexOf(rest, '/');
      if i < 0 then None else Some(rest[..i])
  }

  lemma FolderOfIff(key: string, prefix: string, seg: string)
    ensures FolderOf(key, prefix) == Some(seg) <==> Strs.StartsWith(key, prefix + seg + "/") && '/' !in seg
  {
    if Strs.StartsWith(key, prefix + seg + "/") && '/' !in seg {
      var rest := key[|prefix|..];
      assert key[..|prefix|] == prefix;
      assert rest[..|seg| + 1] == key[..|prefix + seg + "/"|][|prefix|..] == seg + "/";
      assert rest[..|seg|] == seg && rest[|seg|] == '/';
      var i := Strs.IndexOf(rest, '/');
      assert i == |seg| by {
        assert forall j :: 0 <= j < |seg| ==> rest[j] == seg[j];
      }
    }
    if FolderOf(key, prefix) == Some(seg) {
      var rest := key[|prefix|..];
      var i := Strs.IndexOf(rest, '/');
      assert key == prefix + rest;
      assert rest[..i + 1] == seg + "/";
      assert (prefix + seg + "/") == key[..|prefix| + i + 1];
      assert forall j :: 0 <= j < |seg| ==> seg[j] == rest[j];
    }
  }

  /** What S3 answers for a listing with delimiter '/': one prefix per
      folder directly under `prefix`, once each. */
  function CommonPrefixes(keys: seq<string>, prefix: string): (r: seq<string>)
  {
    if keys == [] then []
    else
      var rest := CommonPrefixes(keys[..|keys| - 1], prefix);
      var f := FolderOf(keys[|keys| - 1], prefix);
      if f.None? || prefix + f.value + "/" in rest then rest else rest + [prefix + f.value + "/"]
  }

  lemma {:induction false} CommonPrefixesSound(keys: seq<string>, prefix: string, cp: string)
    requires cp in CommonPrefixes(keys, prefix)
    ensures exists i :: 0 <= i < |keys| && FolderOf(keys[i], prefix).Some? && cp == prefix + FolderOf(keys[i], prefix).value + "/"
  {
    var init := keys[..|keys| - 1];
    if cp in CommonPrefixes(init, prefix) {
      CommonPrefixesSound(init, prefix, cp);
      var i :| 0 <= i < |init| && FolderOf(init[i], prefix).Some? && cp == prefix + FolderOf(init[i], prefix).value + "/";
      assert init[i] == keys[i];
    } else {
      assert FolderOf(keys[|keys| - 1], prefix).Some?;
    }
  }

  lemma {:induction false} CommonPrefixesComplete(keys: seq<string>, prefix: string, i: nat)
    requires i < |keys| && FolderOf(keys[i], prefix).Some?
    ensures prefix + FolderOf(keys[i], prefix).value + "/" in CommonPrefixes(keys, prefix)
  {
    var init := keys[..|keys| - 1];
    if i < |init| {
      assert init[i] == keys[i];
      CommonPrefixesComplete(init, prefix, i);
    }
  }

  /** Python's `s.rstrip(c)`. */
  function RStrip(s: string, c: char): (r: string)
    ensures |r| <= |s| && r == s[..|r|]
    ensures |r| == 0 || r[|r| - 1] != c
  {
    if |s| > 0 && s[|s| - 1] == c then RStrip(s[..|s| - 1], c) else s
  }

  /** The job id read off one common prefix. */
  function JobIdOf(cp: string, prefix: string): string
    requires |prefix| > 0
  {
    Strs.Split(RStrip(Strs.ReplaceAll(cp, prefix, ""), '/'), '/')[0]
  }

  /** A folder name and its '/' cannot hold the prompts prefix, which has
      two '/' of its own. */
  lemma NoPromptsPrefixIn(folderPath: string, seg: string)
    requires '/' !in seg
    ensures !Strs.Contains(seg + "/", PromptsPrefix(folderPath))
  {
    var prefix := PromptsPrefix(folderPath);
    var t := seg + "/";
    var r := Strs.Find(t, prefix);
    assert prefix[7] == '/' && prefix[|prefix| - 1] == '/';
    assert forall j :: 0 <= j < |seg| ==> t[j] == seg[j];
    assert r >= 0 ==> t[r + 7] == '/' && t[r + |prefix| - 1] == '/' by {
      if r >= 0 {
        assert t[r..r + |prefix|][7] == prefix[7];
        assert t[r..r + |prefix|][|prefix| - 1] == prefix[|prefix| - 1];
      }
    }
  }

  /** A prompt folder's common prefix yields the folder's name. */
  lemma JobIdOfFolder(folderPath: string, seg: string)
    requires '/' !in seg
    ensures JobIdOf(PromptsPrefix(folderPath) + seg + "/", PromptsPrefix(folderPath)) == seg
  {
    var prefix := PromptsPrefix(folderPath);
    var t := seg + "/";
    assert prefix + seg + "/" == prefix + t;
    Strs.ReplaceLeading(prefix, t, "");
    NoPromptsPrefixIn(folderPath, seg);
    assert Strs.ReplaceAll(prefix + t, prefix, "") == t;
    assert t[..|t| - 1] == seg;
    assert RStrip(t, '/') == seg;
    Strs.SplitNoSep(seg, '/');
  }

  /** The non-empty job ids of the common prefixes, in their order. */
  /** The job id of each common prefix, in order. */
  function IdsOf(cps: seq<string>, prefix: string): (r: seq<string>)
    requires |prefix| > 0
    ensures |r| == |cps| && forall j :: 0 <= j < |cps| ==> r[j] == JobIdOf(cps[j], prefix)
  {
    seq(|cps|, j requires 0 <= j < |cps| => JobIdOf(cps[j], prefix))
  }

  predicate NonEmpty(id: string)
  {
    id != ""
  }

  /** The ids of the common prefixes, skipping empty ones. */
  function JobIdsOf(cps: seq<string>, prefix: string): seq<string>
    requires |prefix| > 0
  {
    Filter(IdsOf(cps, prefix), NonEmpty)
  }

  lemma JobIdsOfMembers(cps: seq<string>, prefix: string, id: string)
    requires |prefix| > 0
    ensures id in JobIdsOf(cps, prefix) <==> id != "" && exists j :: 0 <= j < |cps| && JobIdOf(cps[j], prefix) == id
  {
    var ids := IdsOf(cps, prefix);
    assert id in JobIdsOf(cps, prefix) <==> id in ids && NonEmpty(id);
    if id in ids {
      var j :| 0 <= j < |ids| && ids[j] == id;
      assert JobIdOf(cps[j], prefix) == id;
    }
  }

  /** `list_job_ids`: the job folders under the folder's prompts, newest
      (greatest) first; nothing when the listing fails. */
  function JobIds(listing: Option<seq<string>>, folderPath: string): (r: seq<string>)
    ensures Order.SortedBy(r, TextKey, true)
  {
    if listing.None? then []
    else
      var prefix := PromptsPrefix(folderPath);
      var ids := JobIdsOf(CommonPrefixes(listing.value, prefix), prefix);
      Order.SortBySorted(ids, TextKey, true);
      Order.SortBy(ids, TextKey, true)
  }

  /** Every job folder with a prompt file under it is listed. */
  lemma JobIdListed(keys: seq<string>, folderPath: string, key: string, id: string)
    requires key in keys && id != "" && '/' !in id
    requires Strs.StartsWith(key, PromptsPrefix(folderPath) + id + "/")
    ensures id in JobIds(Some(keys), folderPath)
  {
    var prefix := PromptsPrefix(folderPath);
    var i :| 0 <= i < |keys| && keys[i] == key;
    FolderOfIff(key, prefix, id);
    CommonPrefixesComplete(keys, prefix, i);
    var cps := CommonPrefixes(keys, prefix);
    var j :| 0 <= j < |cps| && cps[j] == prefix + id + "/";
    JobIdOfFolder(folderPath, id);
    JobIdsOfMembers(cps, prefix, id);
    var ids := JobIdsOf(cps, prefix);
    assert id in multiset(ids);
  }

  /** Every listed job id names a job folder with a key under it. */
  lemma JobIdFromListing(keys: seq<string>, folderPath: string, id: string)
    requires id in JobIds(Some(keys), folderPath)
    ensures id != "" && '/' !in id
    ensures exists key :: key in keys && Strs.StartsWith(key, PromptsPrefix(folderPath) + id + "/")
  {
    var prefix := PromptsPrefix(folderPath);
    var cps := CommonPrefixes(keys, prefix);
    var ids := JobIdsOf(cps, prefix);
    assert id in multiset(Order.SortBy(ids, TextKey, true));
    assert id in ids;
    JobIdsOfMembers(cps, prefix, id);
    var j :| 0 <= j < |cps| && JobIdOf(cps[j], prefix) == id;
    CommonPrefixesSound(keys, prefix, cps[j]);
    var i :| 0 <= i < |keys| && FolderOf(keys[i], prefix).Some? && cps[j] == prefix + FolderOf(keys[i], prefix).value + "/";
    var seg := FolderOf(keys[i], prefix).value;
    FolderOfIff(keys[i], prefix, seg);
    JobIdOfFolder(folderPath, seg);
  }

  /** `list_job_ids`: the ids collected prefix by prefix, then sorted. */
  method ListJobIds(listing: Option<seq<string>>, folderPath: string) returns (ids: seq<string>)
    ensures ids == JobIds(listing, folderPath)
  {
    if listing.None? {
      return [];
    }
    var prefix := PromptsPrefix(folderPath);
    var cps := CommonPrefixes(listing.value, prefix);
    var found: seq<string> := [];
    ghost var all := IdsOf(cps, prefix);
    for i := 0 to |cps|
      invariant found == Filter(all[..i], NonEmpty)
    {
      assert all[..i + 1][..i] == all[..i];
      var id := JobIdOf(cps[i], prefix);
      if id != "" {
        found := found + [id];
      }
    }
    assert all[..|cps|] == all;
    ids := Order.SortBy(found, TextKey, true);
  }

  // ---------------------------------------------------------------------
  // GET /results

  type JobKey = Worker.JobKey
  type Item = Worker.Item

  /** The request: the path's job id (None when there are no path
      parameters) and the query string (empty when there is none). */
  datatype ResultsRequest = ResultsRequest(pathJobId: Option<string>, query: map<string, string>)

  /** What the handler reads: the bucket's texts and its key listing (None
      when listing fails), the jobs table and the order a query returns its
      items in, whether the query fails, and the URL presigner (None when it
      fails). */
  datatype ResultsEnv = ResultsEnv(objects: Bucket, listing: Option<seq<string>>, jobs: map<JobKey, Item>,
                                   order: seq<JobKey>, queryFails: bool, presign: string -> Option<string>)

  /** One entry of `results`. */
  datatype ResultItem = ResultItem(fileName: string, status: string, lastUpdate: string, message: string,
                                   transcript: Option<string>, knowledge: Option<string>, fileUrl: Option<string>,
                                   folderPath: Option<string>, jobId: Option<string>)

  datatype ResultsBody =
    | FileContent(fileName: string, transcript: Option<string>, knowledge: Option<string>)
    | JobIdList(jobIds: seq<string>, listedFolder: string)
    | JobResults(jobId: string, folder: Option<string>, transcriptPrompt: Option<string>,
                 knowledgePrompt: Option<string>, results: seq<ResultItem>, totalFiles: nat, contentLoaded: bool)
    | ErrorBody(error: string)
    | Failure(error: string, message: string)

  datatype ResultsResponse = ResultsResponse(statusCode: int, body: ResultsBody)

  const FolderRequired := "folder_path is required"
  const JobNotFound := "Job not found"
  const InternalError := "Internal server error"
  /** The text of the `KeyError` an item without a status raises. */
  const MissingStatus := "'status'"
  /** The text of the `AttributeError` an item without a file name raises. */
  const MissingName := "'NoneType' object has no attribute 'lower'"
  /** Content is loaded only for this many items or fewer. */
  const MaxLoaded := 5

  /** Python's `d.get(k)` on a string map. */
  function Get(m: map<string, string>, k: string): (r: Option<string>)
    ensures r.Some? <==> k in m
  {
    if k in m then Some(m[k]) else None
  }

  /** Python's `a or b`. */
  function Or(a: Option<string>, b: Option<string>): (r: Option<string>)
    ensures Worker.Truthy(a) ==> r == a
    ensures !Worker.Truthy(a) ==> r == b
  {
    if Worker.Truthy(a) then a else b
  }

  /** An f-string of a possibly missing value. */
  function Show(s: Option<string>): string
  {
    if s.Some? then s.value else "None"
  }

  /** The job id the request asks for: the path's, unless it is missing or
      empty and the query has one. */
  function EffectiveJobId(req: ResultsRequest): (r: Option<string>)
    ensures Worker.Truthy(req.pathJobId) ==> r == req.pathJobId
    ensures Worker.Truthy(r) <==> Worker.Truthy(req.pathJobId) || Worker.Truthy(Get(req.query, "job_id"))
  {
    if !Worker.Truthy(req.pathJobId) && Worker.Truthy(Get(req.query, "job_id")) then Get(req.query, "job_id")
    else req.pathJobId
  }

  predicate KeyMatches(k: JobKey, jobId: string, skPrefix: string)
  {
    k.0 == jobId && Strs.StartsWith(k.1, skPrefix)
  }

  /** A query for one job's items whose sort key starts with `skPrefix`,
      in the order the table returns them. */
  function QueryItems(jobs: map<JobKey, Item>, order: seq<JobKey>, jobId: string, skPrefix: string): seq<Item>
  {
    if order == [] then []
    else
      var rest := QueryItems(jobs, order[..|order| - 1], jobId, skPrefix);
      var k := order[|order| - 1];
      if k in jobs && KeyMatches(k, jobId, skPrefix) then rest + [jobs[k]] else rest
  }

  lemma {:induction false} QueryItemsNone(jobs: map<JobKey, Item>, order: seq<JobKey>, jobId: string, skPrefix: string)
    ensures QueryItems(jobs, order, jobId, skPrefix) == [] <==>
      forall i :: 0 <= i < |order| ==> !(order[i] in jobs && KeyMatches(order[i], jobId, skPrefix))
  {
    if order != [] {
      var init := order[..|order| - 1];
      QueryItemsNone(jobs, init, jobId, skPrefix);
      assert forall i :: 0 <= i < |init| ==> init[i] == order[i];
    }
  }

  /** The transcript key of an item: under its folder when it has one. */
  function ItemTranscriptKey(folder: Option<string>, jobId: string, baseName: string): string
  {
    if Worker.Truthy(folder) then Worker.TranscriptKey(folder.value, jobId, baseName)
    else "Transcript/" + jobId + "/" + baseName + TextSuffix
  }

  /** One item of the loop: its fields, its file URL, and its texts when it
      is done and content is loaded; a missing status or name raises. */
  function ResultOf(item: Item, load: bool, env: ResultsEnv): (r: Result<ResultItem>)
    ensures r.Err? <==> Worker.StatusAttr !in item || Or(Get(item, JobCreator.FileNameAttr), Get(item, JobCreator.PdfNameAttr)).None?
    ensures r.Ok? ==> (r.value.status == item[Worker.StatusAttr] &&
                       Some(r.value.fileName) == Or(Get(item, JobCreator.FileNameAttr), Get(item, JobCreator.PdfNameAttr)))
    ensures r.Ok? && (r.value.transcript.Some? || r.value.knowledge.Some?) ==> load && item[Worker.StatusAttr] == Worker.DoneStatus
  {
    var fileName := Or(Get(item, JobCreator.FileNameAttr), Get(item, JobCreator.PdfNameAttr));
    if Worker.StatusAttr !in item then Err(MissingStatus)
    else if fileName.None? then Err(MissingName)
    else
      var status := item[Worker.StatusAttr];
      var base := Worker.BaseName(fileName.value);
      var fileKey := Or(Get(item, Worker.FileKeyAttr), Get(item, JobCreator.PdfKeyAttr));
      var folder := Get(item, JobCreator.FolderPathAttr);
      var job := Get(item, JobCreator.JobIdAttr);
      var url := if Worker.Truthy(fileKey) && Worker.Truthy(env.presign(fileKey.value)) then env.presign(fileKey.value) else None;
      var loaded := status == Worker.DoneStatus && load;
      var transcript := if loaded then Read(env.objects, ItemTranscriptKey(folder, Show(job), base)) else None;
      var knowledge := if loaded then KnowledgeText(Intended, env.objects, env.listing, Show(job), base, folder) else None;
      Ok(ResultItem(fileName.value, status, Get(item, Worker.LastUpdateAttr).GetOr(""), Get(item, Worker.MessageAttr).GetOr(""),
                    if Worker.Truthy(transcript) then transcript else None,
                    if Worker.Truthy(knowledge) then knowledge else None,
                    url, folder, job))
  }

  /** The results loop: the first item that raises ends the request. */
  function Results(items: seq<Item>, load: bool, env: ResultsEnv): Result<seq<ResultItem>>
  {
    if items == [] then Ok([])
    else
      var rest := Results(items[..|items| - 1], load, env);
      var r := ResultOf(items[|items| - 1], load, env);
      if rest.Err? then rest
      else if r.Err? then Err(r.error)
      else Ok(rest.value + [r.value])
  }

  /** The loop succeeds exactly when every item does. */
  lemma {:induction false} ResultsOk(items: seq<Item>, load: bool, env: ResultsEnv)
    ensures Results(items, load, env).Ok? <==> forall i :: 0 <= i < |items| ==> ResultOf(items[i], load, env).Ok?
  {
    if items != [] {
      var init := items[..|items| - 1];
      ResultsOk(init, load, env);
      assert forall i :: 0 <= i < |init| ==> init[i] == items[i];
    }
  }

  /** A loop that succeeds has one result per item, in order. */
  lemma {:induction false} ResultsEach(items: seq<Item>, load: bool, env: ResultsEnv)
    requires Results(items, load, env).Ok?
    ensures |Results(items, load, env).value| == |items|
    ensures forall i :: 0 <= i < |items| ==> ResultOf(items[i], load, env) == Ok(Results(items, load, env).value[i])
  {
    if items != [] {
      var init := items[..|items| - 1];
      var rest := Results(init, load, env);
      assert rest.Ok?;
      ResultsEach(init, load, env);
      assert Results(items, load, env).value == rest.value + [ResultOf(items[|items| - 1], load, env).value];
      assert forall i :: 0 <= i < |init| ==> init[i] == items[i];
    }
  }

  /** Once an item raises, the loop's outcome is that error. */
  lemma {:induction false} ResultsErrStays(items: seq<Item>, load: bool, env: ResultsEnv, n: nat)
    requires n <= |items| && Results(items[..n], load, env).Err?
    ensures Results(items, load, env) == Results(items[..n], load, env)
    decreases |items| - n
  {
    if n < |items| {
      assert items[..n + 1][..n] == items[..n];
      ResultsErrStays(items, load, env, n + 1);
    } else {
      assert items[..n] == items;
    }
  }

  /** `lambda_handler` of the result fetcher. */
  function FetchResults(req: ResultsRequest, env: ResultsEnv): ResultsResponse
  {
    var job := EffectiveJobId(req);
    var folder := Get(req.query, "folder_path");
    var fileName := Get(req.query, "file_name");
    if Worker.Truthy(job) && Worker.Truthy(folder) && Worker.Truthy(fileName) then
      var base := Worker.BaseName(fileName.value);
      ResultsResponse(200, FileContent(fileName.value,
                                       Read(env.objects, Worker.TranscriptKey(folder.value, job.value, base)),
                                       KnowledgeText(Intended, env.objects, env.listing, job.value, base, folder)))
    else if !Worker.Truthy(job) && !Worker.Truthy(folder) then ResultsResponse(400, ErrorBody(FolderRequired))
    else if !Worker.Truthy(job) then ResultsResponse(200, JobIdList(JobIds(env.listing, folder.value), folder.value))
    else
      var jobId := job.value;
      var v2 := Worker.Truthy(folder);
      var transcriptPrompt := Read(env.objects, if v2 then Worker.PromptKey(folder.value, jobId, "transcript")
                                                else "Prompts/" + jobId + "/transcript_prompt.txt");
      var knowledgePrompt := Read(env.objects, if v2 then Worker.PromptKey(folder.value, jobId, "knowledge")
                                               else "Prompts/" + jobId + "/knowledge_prompt.txt");
      var items := if env.queryFails then []
                   else QueryItems(env.jobs, env.order, jobId, if v2 then folder.value + "#" else "");
      if items == [] then ResultsResponse(404, ErrorBody(JobNotFound))
      else
        var load := |items| <= MaxLoaded;
        match Results(items, load, env)
        case Err(m) => ResultsResponse(500, Failure(InternalError, m))
        case Ok(results) =>
          ResultsResponse(200, JobResults(jobId, folder, transcriptPrompt, knowledgePrompt, results, |results|, load))
  }

  /** The routes: the single-file route needs all three parameters, a
      request with neither a job nor a folder is refused, a folder alone
      lists job ids, and anything else asks for a job's results. */
  lemma FetchResultsRoutes(req: ResultsRequest, env: ResultsEnv)
    ensures var r := FetchResults(req, env);
      var job := EffectiveJobId(req);
      var folder := Get(req.query, "folder_path");
      && (r.body.FileContent? <==> Worker.Truthy(job) && Worker.Truthy(folder) && Worker.Truthy(Get(req.query, "file_name")))
      && (r.statusCode == 400 <==> !Worker.Truthy(job) && !Worker.Truthy(folder))
      && (r.statusCode == 400 ==> r.body == ErrorBody(FolderRequired))
      && (r.body.JobIdList? <==> !Worker.Truthy(job) && Worker.Truthy(folder))
      && (r.body.JobIdList? ==> r.body == JobIdList(JobIds(env.listing, folder.value), folder.value))
  {
  }

  /** A job's results are "not found" exactly when the query fails or
      matches no item: under the folder when one is given. */
  lemma FetchResultsNotFound(req: ResultsRequest, env: ResultsEnv)
    ensures var r := FetchResults(req, env);
      var job := EffectiveJobId(req);
      var folder := Get(req.query, "folder_path");
      var skPrefix := if Worker.Truthy(folder) then folder.value + "#" else "";
      r.statusCode == 404 <==>
        Worker.Truthy(job) && !(Worker.Truthy(folder) && Worker.Truthy(Get(req.query, "file_name"))) &&
        (env.queryFails || forall i :: 0 <= i < |env.order| ==>
           !(env.order[i] in env.jobs && KeyMatches(env.order[i], job.value, skPrefix)))
  {
    var job := EffectiveJobId(req);
    if Worker.Truthy(job) {
      var folder := Get(req.query, "folder_path");
      QueryItemsNone(env.jobs, env.order, job.value, if Worker.Truthy(folder) then folder.value + "#" else "");
    }
  }

  /** A job's results: one per item the query returned, in its order;
      content is loaded only for five items or fewer, and only a finished
      item carries texts. */
  lemma FetchResultsContent(req: ResultsRequest, env: ResultsEnv)
    requires FetchResults(req, env).body.JobResults?
    ensures var b := FetchResults(req, env).body;
      var job := EffectiveJobId(req);
      var folder := Get(req.query, "folder_path");
      var items := QueryItems(env.jobs, env.order, job.value, if Worker.Truthy(folder) then folder.value + "#" else "");
      && Worker.Truthy(job) && b.jobId == job.value && !env.queryFails
      && |b.results| == b.totalFiles == |items| > 0
      && (b.contentLoaded <==> |items| <= MaxLoaded)
      && (forall i :: 0 <= i < |items| ==> ResultOf(items[i], b.contentLoaded, env) == Ok(b.results[i]))
      && (forall i :: 0 <= i < |items| && (b.results[i].transcript.Some? || b.results[i].knowledge.Some?) ==>
            b.contentLoaded && b.results[i].status == Worker.DoneStatus)
  {
    var job := EffectiveJobId(req);
    var folder := Get(req.query, "folder_path");
    var items := QueryItems(env.jobs, env.order, job.value, if Worker.Truthy(folder) then folder.value + "#" else "");
    ResultsEach(items, |items| <= MaxLoaded, env);
  }

  /** An item that raises turns the whole request into a 500 carrying its
      message. */
  lemma FetchResultsFails(req: ResultsRequest, env: ResultsEnv, i: nat)
    requires var job := EffectiveJobId(req);
      var folder := Get(req.query, "folder_path");
      Worker.Truthy(job) && !(Worker.Truthy(folder) && Worker.Truthy(Get(req.query, "file_name"))) && !env.queryFails &&
      var items := QueryItems(env.jobs, env.order, job.value, if Worker.Truthy(folder) then folder.value + "#" else "");
      i < |items| && ResultOf(items[i], |items| <= MaxLoaded, env).Err?
    ensures FetchResults(req, env).statusCode == 500 && FetchResults(req, env).body.Failure?
    ensures FetchResults(req, env).body.error == InternalError
  {
    var job := EffectiveJobId(req);
    var folder := Get(req.query, "folder_path");
    var items := QueryItems(env.jobs, env.order, job.value, if Worker.Truthy(folder) then folder.value + "#" else "");
    ResultsOk(items, |items| <= MaxLoaded, env);
  }

  /** An item the job creator registered, under its folder, is found by a
      query for the job and that folder. */
  lemma RegisteredItemFound(jobs: map<JobKey, Item>, order: seq<JobKey>, jobId: string, folderPath: string, fileName: string)
    requires (jobId, Worker.SortKey(folderPath, fileName)) in order
    requires (jobId, Worker.SortKey(folderPath, fileName)) in jobs
    ensures QueryItems(jobs, order, jobId, folderPath + "#") != []
  {
    var k := (jobId, Worker.SortKey(folderPath, fileName));
    var i :| 0 <= i < |order| && order[i] == k;
    assert Strs.StartsWith(k.1, folderPath + "#") by {
      assert k.1 == (folderPath + "#") + fileName;
    }
    QueryItemsNone(jobs, order, jobId, folderPath + "#");
  }

  /** A freshly registered item shows as queued, in its folder and job,
      under its own file name, with no texts loaded. */
  lemma QueuedItemShown(jobId: string, folderPath: string, f: JobCreator.PdfFile, mode: string, stamp: string,
                        load: bool, env: ResultsEnv)
    requires f.fileName != ""
    ensures var r := ResultOf(JobCreator.QueuedItem(jobId, folderPath, f, mode, stamp), load, env);
      && r.Ok? && r.value.fileName == f.fileName && r.value.status == JobCreator.QueuedStatus
      && r.value.lastUpdate == stamp && r.value.message == JobCreator.QueuedMessage
      && r.value.transcript.None? && r.value.knowledge.None?
      && r.value.folderPath == Some(folderPath) && r.value.jobId == Some(jobId)
  {
  }

  /** The body of the results loop for one item. */
  method BuildResult(item: Item, load: bool, env: ResultsEnv) returns (r: Result<ResultItem>)
    ensures r == ResultOf(item, load, env)
  {
    var fileName := Or(Get(item, JobCreator.FileNameAttr), Get(item, JobCreator.PdfNameAttr));
    if Worker.StatusAttr !in item {
      return Err(MissingStatus);
    }
    if fileName.None? {
      return Err(MissingName);
    }
    var status := item[Worker.StatusAttr];
    var base := Worker.BaseName(fileName.value);
    var fileKey := Or(Get(item, Worker.FileKeyAttr), Get(item, JobCreator.PdfKeyAttr));
    var folder := Get(item, JobCreator.FolderPathAttr);
    var job := Get(item, JobCreator.JobIdAttr);
    var url: Option<string> := None;
    if Worker.Truthy(fileKey) {
      var presigned := env.presign(fileKey.value);
      if Worker.Truthy(presigned) {
        url := presigned;
      }
    }
    var transcript: Option<string> := None;
    var knowledge: Option<string> := None;
    if status == Worker.DoneStatus && load {
      var t := Read(env.objects, ItemTranscriptKey(folder, Show(job), base));
      var k := GetKnowledgeChunks(env.objects, env.listing, Show(job), base, folder);
      if Worker.Truthy(t) {
        transcript := t;
      }
      if Worker.Truthy(k) {
        knowledge := k;
      }
    }
    r := Ok(ResultItem(fileName.value, status, Get(item, Worker.LastUpdateAttr).GetOr(""),
                       Get(item, Worker.MessageAttr).GetOr(""), transcript, knowledge, url, folder, job));
  }

  /** The results loop; the first item that raises ends it. */
  method CollectResults(items: seq<Item>, load: bool, env: ResultsEnv) returns (r: Result<seq<ResultItem>>)
    ensures r == Results(items, load, env)
  {
    var results: seq<ResultItem> := [];
    var i := 0;
    while i < |items|
      invariant 0 <= i <= |items|
      invariant Results(items[..i], load, env) == Ok(results)
    {
      assert items[..i + 1][..i] == items[..i];
      var one := BuildResult(items[i], load, env);
      if one.Err? {
        r := Err(one.error);
        assert Results(items[..i + 1], load, env) == r;
        ResultsErrStays(items, load, env, i + 1);
        return;
      }
      results := results + [one.value];
      i := i + 1;
    }
    assert items[..i] == items;
    r := Ok(results);
  }

  /** `lambda_handler` of the result fetcher, step by step. */
  method HandleResults(req: ResultsRequest, env: ResultsEnv) returns (resp: ResultsResponse)
    ensures resp == FetchResults(req, env)
  {
    var job := EffectiveJobId(req);
    var folder := Get(req.query, "folder_path");
    var fileName := Get(req.query, "file_name");
    if Worker.Truthy(job) && Worker.Truthy(folder) && Worker.Truthy(fileName) {
      var base := Worker.BaseName(fileName.value);
      var transcript := Read(env.objects, Worker.TranscriptKey(folder.value, job.value, base));
      var knowledge := GetKnowledgeChunks(env.objects, env.listing, job.value, base, folder);
      return ResultsResponse(200, FileContent(fileName.value, transcript, knowledge));
    }
    if !Worker.Truthy(job) && !Worker.Truthy(folder) {
      return ResultsResponse(400, ErrorBody(FolderRequired));
    }
    if !Worker.Truthy(job) {
      var ids := ListJobIds(env.listing, folder.value);
      return ResultsResponse(200, JobIdList(ids, folder.value));
    }
    var jobId := job.value;
    var v2 := Worker.Truthy(folder);
    var transcriptPrompt := Read(env.objects, if v2 then Worker.PromptKey(folder.value, jobId, "transcript")
                                              else "Prompts/" + jobId + "/transcript_prompt.txt");
    var knowledgePrompt := Read(env.objects, if v2 then Worker.PromptKey(folder.value, jobId, "knowledge")
                                             else "Prompts/" + jobId + "/knowledge_prompt.txt");
    var items := if env.queryFails then [] else QueryItems(env.jobs, env.order, jobId, if v2 then folder.value + "#" else "");
    if items == [] {
      return ResultsResponse(404, ErrorBody(JobNotFound));
    }
    var load := |items| <= MaxLoaded;
    var results := CollectResults(items, load, env);
    if results.Err? {
      return ResultsResponse(500, Failure(InternalError, results.error));
    }
    resp := ResultsResponse(200, JobResults(jobId, folder, transcriptPrompt, knowledgePrompt,
                                            results.value, |results.value|, load));
  }
}
