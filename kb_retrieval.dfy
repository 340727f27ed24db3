/** Knowledge-base retrieval pieces shared by the knowledge querier and the
    agent action lambda: parsing a knowledge file URI, the metadata filter
    over (folder_path, job_id) pairs, and the citation-source list. */
module KbRetrieval {
  import opened Wrappers
  import opened Strs

  /** Bucket used when `S3_BUCKET` is unset. */
  const DefaultBucket: string := "doctoknow-seigi25-data"

  function KnowledgeUriPrefix(bucket: string): string
  {
    "s3://" + bucket + "/Knowledge/"
  }

  /** The part of a source URI after its `Knowledge/` folder: every
      occurrence of the bucket's knowledge prefix is removed when the URI
      starts with it, otherwise the text after the first `/Knowledge/`. */
  function PathAfterKnowledge(uri: string, bucket: string): string
  {
    var prefix := KnowledgeUriPrefix(bucket);
    if StartsWith(uri, prefix) then ReplaceAll(uri, prefix, "")
    else
      var parts := SplitOnce(uri, "/Knowledge/");
      parts[|parts| - 1]
  }

  /** A knowledge text file name turned into its PDF name (every `.txt`
      replaced by `.pdf`). */
  function PdfName(txtName: string): string
  {
    ReplaceAll(txtName, ".txt", ".pdf")
  }

  /** `extract_job_id_and_pdf_from_uri`: `(job_id, pdf name)`, or nothing
      when the path after `Knowledge/` has no `/`. */
  function ExtractJobIdAndPdf(uri: string, bucket: string): (r: Option<(string, string)>)
    ensures r.None? <==> '/' !in PathAfterKnowledge(uri, bucket)
    ensures r.Some? ==>
      var p := PathAfterKnowledge(uri, bucket);
      var k := |r.value.0|;
      k < |p| && p[..k] == r.value.0 && p[k] == '/' && '/' !in r.value.0
      && r.value.1 == PdfName(LastSegment(p[k + 1..], '/'))
  {
    var path := PathAfterKnowledge(uri, bucket);
    var parts := SplitOnceChar(path, '/');
    if |parts| == 2 then
      assert path[..|parts[0]|] == parts[0] && path[|parts[0]| + 1..] == parts[1];
      Some((parts[0], PdfName(LastSegment(parts[1], '/'))))
    else None
  }

  /** A URI `s3://{bucket}/Knowledge/{job}/…/{name}.txt` yields the job id and
      the last segment with `.txt` replaced by `.pdf`. */
  lemma ExtractFromKnowledgeUri(bucket: string, job: string, rest: string)
    requires '/' !in job
    requires !Contains(job + "/" + rest, KnowledgeUriPrefix(bucket))
    ensures ExtractJobIdAndPdf(KnowledgeUriPrefix(bucket) + job + "/" + rest, bucket)
            == Some((job, PdfName(LastSegment(rest, '/'))))
  {
    var prefix := KnowledgeUriPrefix(bucket);
    var x := job + "/" + rest;
    assert prefix + job + "/" + rest == prefix + x;
    assert (prefix + x)[..|prefix|] == prefix;
    ReplaceLeading(prefix, x, "");
    assert PathAfterKnowledge(prefix + x, bucket) == x;
    SplitOnceCharFirst(job, '/', rest);
  }

  /** A URI whose path after `Knowledge/` has no `/` yields nothing. */
  lemma ExtractWithoutJobFolder(bucket: string, name: string)
    requires '/' !in name
    requires !Contains(name, KnowledgeUriPrefix(bucket))
    ensures ExtractJobIdAndPdf(KnowledgeUriPrefix(bucket) + name, bucket).None?
  {
    var prefix := KnowledgeUriPrefix(bucket);
    assert (prefix + name)[..|prefix|] == prefix;
    ReplaceLeading(prefix, name, "");
  }

  // ----- metadata filter -----

  datatype Pair = Pair(folderPath: string, jobId: string)

  datatype Condition = Equals(key: string, value: string)

  datatype Filter = AndAll(conditions: seq<Condition>) | OrAll(filters: seq<Filter>)

  function PairFilter(p: Pair): Filter
  {
    AndAll([Equals("folder_path", p.folderPath), Equals("job_id", p.jobId)])
  }

  /** The retrieval filter: one pair gives a single `andAll`, any other
      number an `orAll` of one `andAll` per pair, in order. */
  function BuildFilter(pairs: seq<Pair>): Filter
  {
    if |pairs| == 1 then PairFilter(pairs[0])
    else OrAll(seq(|pairs|, i requires 0 <= i < |pairs| => PairFilter(pairs[i])))
  }

  /** Which document metadata a filter admits (the knowledge base's reading
      of `equals`, `andAll` and `orAll`). */
  predicate Admits(f: Filter, meta: map<string, string>)
  {
    match f
    case AndAll(cs) => forall i :: 0 <= i < |cs| ==> cs[i].key in meta && meta[cs[i].key] == cs[i].value
    case OrAll(fs) => exists i :: 0 <= i < |fs| && Admits(fs[i], meta)
  }

  predicate Selects(p: Pair, meta: map<string, string>)
  {
    "folder_path" in meta && meta["folder_path"] == p.folderPath
    && "job_id" in meta && meta["job_id"] == p.jobId
  }

  lemma PairFilterAdmits(p: Pair, meta: map<string, string>)
    ensures Admits(PairFilter(p), meta) <==> Selects(p, meta)
  {
    var cs := PairFilter(p).conditions;
    if Selects(p, meta) {
      assert forall i :: 0 <= i < |cs| ==> cs[i].key in meta && meta[cs[i].key] == cs[i].value;
    }
    if Admits(PairFilter(p), meta) {
      assert cs[0].key in meta && meta[cs[0].key] == cs[0].value;
      assert cs[1].key in meta && meta[cs[1].key] == cs[1].value;
    }
  }

  /** A document passes the filter exactly when its folder_path and job_id
      equal those of one of the pairs (none passes for no pairs). */
  lemma BuildFilterSelectsPairs(pairs: seq<Pair>, meta: map<string, string>)
    ensures Admits(BuildFilter(pairs), meta) <==> exists i :: 0 <= i < |pairs| && Selects(pairs[i], meta)
  {
    if |pairs| == 1 {
      PairFilterAdmits(pairs[0], meta);
    } else {
      var fs := BuildFilter(pairs).filters;
      forall i | 0 <= i < |pairs| ensures Admits(fs[i], meta) <==> Selects(pairs[i], meta) {
        PairFilterAdmits(pairs[i], meta);
      }
    }
  }

  // ----- citation sources -----

  /** A retrieved reference: its S3 location URI and the `FileName` and
      `s3Key` metadata attributes (absent or null as `None`). */
  datatype Reference = Reference(uri: string, fileName: Option<string>, s3Key: Option<string>)

  datatype Citation = Citation(references: seq<Reference>)

  datatype Source = Source(fileName: string, s3Key: string, presignedUrl: Option<string>)

  function SourceKey(s: Source): string
  {
    s.s3Key
  }

  predicate Truthy(o: Option<string>)
  {
    o.Some? && o.value != ""
  }

  /** The source a reference contributes before de-duplication: metadata
      first, with the URI as fallback for a missing file name and, when a
      job id can be read from the URI, for a missing key. */
  function Candidate(r: Reference, bucket: string): (c: Option<Source>)
    ensures c.Some? ==> c.value.fileName != "" && c.value.s3Key != "" && c.value.presignedUrl.None?
    ensures Truthy(r.fileName) && Truthy(r.s3Key) ==> c == Some(Source(r.fileName.value, r.s3Key.value, None))
    ensures Truthy(r.s3Key) && c.Some? ==> c.value.s3Key == r.s3Key.value
    ensures !Truthy(r.s3Key) && c.Some? ==>
      var e := ExtractJobIdAndPdf(r.uri, bucket);
      e.Some? && e.value.0 != "" && c.value.s3Key == "PDF/" + e.value.0 + "/" + e.value.1
    ensures Truthy(r.fileName) && c.Some? ==> c.value.fileName == r.fileName.value
  {
    var extracted := if r.uri != "" && !(Truthy(r.fileName) && Truthy(r.s3Key))
                     then ExtractJobIdAndPdf(r.uri, bucket) else None;
    var name := if Truthy(r.fileName) then r.fileName
                else if extracted.Some? then Some(extracted.value.1) else r.fileName;
    var key := if Truthy(r.s3Key) then r.s3Key
               else if extracted.Some? && extracted.value.0 != ""
               then Some("PDF/" + extracted.value.0 + "/" + extracted.value.1)
               else r.s3Key;
    if Truthy(name) && Truthy(key) then Some(Source(name.value, key.value, None)) else None
  }

  /** All references of all citations, in response order. */
  function AllReferences(cs: seq<Citation>): seq<Reference>
  {
    if |cs| == 0 then [] else AllReferences(cs[..|cs| - 1]) + cs[|cs| - 1].references
  }

  function Candidates(rs: seq<Reference>, bucket: string): seq<Source>
  {
    if |rs| == 0 then []
    else
      var c := Candidate(rs[|rs| - 1], bucket);
      Candidates(rs[..|rs| - 1], bucket) + (if c.Some? then [c.value] else [])
  }

  lemma {:induction false} CandidatesWellFormed(rs: seq<Reference>, bucket: string)
    ensures forall i :: 0 <= i < |Candidates(rs, bucket)| ==>
      Candidates(rs, bucket)[i].fileName != "" && Candidates(rs, bucket)[i].s3Key != ""
  {
    if |rs| > 0 { CandidatesWellFormed(rs[..|rs| - 1], bucket); }
  }

  // ----- de-duplication by key, first occurrence wins -----

  predicate HasKey<T>(xs: seq<T>, key: T -> string, k: string)
  {
    exists i :: 0 <= i < |xs| && key(xs[i]) == k
  }

  /** The list built by appending each element whose key is not yet present. */
  function DedupBy<T>(xs: seq<T>, key: T -> string): seq<T>
  {
    if |xs| == 0 then []
    else
      var d := DedupBy(xs[..|xs| - 1], key);
      var x := xs[|xs| - 1];
      if HasKey(d, key, key(x)) then d else d + [x]
  }

  /** Index of the first element with key `k`, or -1. */
  function FirstIndex<T>(xs: seq<T>, key: T -> string, k: string): (r: int)
    ensures -1 <= r < |xs|
    ensures r >= 0 ==> key(xs[r]) == k
    ensures forall j :: 0 <= j < |xs| && (r < 0 || j < r) ==> key(xs[j]) != k
  {
    if |xs| == 0 then -1
    else
      var f := FirstIndex(xs[..|xs| - 1], key, k);
      if f >= 0 then f else if key(xs[|xs| - 1]) == k then |xs| - 1 else -1
  }

  /** No two kept elements share a key, and a key is kept iff it occurs. */
  lemma {:induction false} DedupByKeys<T>(xs: seq<T>, key: T -> string)
    ensures var d := DedupBy(xs, key);
      (forall i, j :: 0 <= i < j < |d| ==> key(d[i]) != key(d[j]))
      && (forall k :: HasKey(d, key, k) <==> HasKey(xs, key, k))
  {
    if |xs| > 0 {
      var ys := xs[..|xs| - 1];
      var x := xs[|xs| - 1];
      DedupByKeys(ys, key);
      var d := DedupBy(ys, key);
      forall k ensures HasKey(xs, key, k) <==> HasKey(ys, key, k) || key(x) == k {
        if HasKey(xs, key, k) && key(x) != k {
          var i :| 0 <= i < |xs| && key(xs[i]) == k;
          assert ys[i] == xs[i];
        }
        if HasKey(ys, key, k) {
          var i :| 0 <= i < |ys| && key(ys[i]) == k;
          assert xs[i] == ys[i];
        }
      }
      if !HasKey(d, key, key(x)) {
        var d' := d + [x];
        forall k ensures HasKey(d', key, k) <==> HasKey(d, key, k) || key(x) == k {
          if HasKey(d', key, k) && key(x) != k {
            var i :| 0 <= i < |d'| && key(d'[i]) == k;
            assert d[i] == d'[i];
          }
          if key(x) == k { assert d'[|d|] == x; }
          if HasKey(d, key, k) {
            var i :| 0 <= i < |d| && key(d[i]) == k;
            assert d'[i] == d[i];
          }
        }
        forall i | 0 <= i < |d| ensures key(d'[i]) != key(x) {
          assert d'[i] == d[i];
        }
      }
    }
  }

  lemma FirstIndexExtend<T>(ys: seq<T>, x: T, key: T -> string, k: string)
    ensures HasKey(ys, key, k) ==> FirstIndex(ys + [x], key, k) == FirstIndex(ys, key, k)
    ensures !HasKey(ys, key, k) && key(x) == k ==> FirstIndex(ys + [x], key, k) == |ys|
  {
    assert (ys + [x])[..|ys|] == ys;
    if HasKey(ys, key, k) {
      var i :| 0 <= i < |ys| && key(ys[i]) == k;
      assert FirstIndex(ys, key, k) >= 0;
    }
  }

  /** Each kept element is the first element of the input with its key, and
      kept elements appear in the order their keys first occur. */
  lemma {:induction false} DedupByFirstSeen<T>(xs: seq<T>, key: T -> string)
    ensures var d := DedupBy(xs, key);
      (forall i :: 0 <= i < |d| ==>
         0 <= FirstIndex(xs, key, key(d[i])) && xs[FirstIndex(xs, key, key(d[i]))] == d[i])
      && (forall i, j :: 0 <= i < j < |d| ==>
         FirstIndex(xs, key, key(d[i])) < FirstIndex(xs, key, key(d[j])))
  {
    if |xs| > 0 {
      var ys := xs[..|xs| - 1];
      var x := xs[|xs| - 1];
      assert xs == ys + [x];
      DedupByFirstSeen(ys, key);
      DedupByKeys(ys, key);
      var d := DedupBy(ys, key);
      forall i | 0 <= i < |d|
        ensures FirstIndex(xs, key, key(d[i])) == FirstIndex(ys, key, key(d[i]))
      {
        assert HasKey(d, key, key(d[i]));
        assert HasKey(ys, key, key(d[i]));
        FirstIndexExtend(ys, x, key, key(d[i]));
      }
      if !HasKey(d, key, key(x)) {
        FirstIndexExtend(ys, x, key, key(x));
        var d' := d + [x];
        forall i | 0 <= i < |d'|
          ensures 0 <= FirstIndex(xs, key, key(d'[i])) && xs[FirstIndex(xs, key, key(d'[i]))] == d'[i]
        {
          if i < |d| { assert d'[i] == d[i]; }
        }
        forall i, j | 0 <= i < j < |d'|
          ensures FirstIndex(xs, key, key(d'[i])) < FirstIndex(xs, key, key(d'[j]))
        {
          assert d'[i] == d[i];
          if j < |d| { assert d'[j] == d[j]; }
        }
      }
    }
  }

  /** `_extract_sources_from_response`: walk every reference of every
      citation and keep each candidate whose key is not yet listed. */
  method ExtractSources(citations: seq<Citation>, bucket: string) returns (sources: seq<Source>)
    ensures sources == DedupBy(Candidates(AllReferences(citations), bucket), SourceKey)
  {
    sources := [];
    for i := 0 to |citations|
      invariant sources == DedupBy(Candidates(AllReferences(citations[..i]), bucket), SourceKey)
    {
      sources := AddReferenceSources(sources, citations[i].references, AllReferences(citations[..i]), bucket);
      AllReferencesSnoc(citations, i);
    }
    assert citations[..|citations|] == citations;
  }

  /** The inner loop of `_extract_sources_from_response` over one citation. */
  method AddReferenceSources(sources0: seq<Source>, refs: seq<Reference>, ghost before: seq<Reference>, bucket: string)
    returns (sources: seq<Source>)
    requires sources0 == DedupBy(Candidates(before, bucket), SourceKey)
    ensures sources == DedupBy(Candidates(before + refs, bucket), SourceKey)
  {
    sources := sources0;
    assert before + refs[..0] == before;
    for j := 0 to |refs|
      invariant sources == DedupBy(Candidates(before + refs[..j], bucket), SourceKey)
    {
      var c := Candidate(refs[j], bucket);
      ghost var cands := Candidates(before + refs[..j], bucket);
      AddOne(before, refs, j, bucket);
      if c.Some? && !HasKey(sources, SourceKey, c.value.s3Key) {
        sources := sources + [c.value];
      }
    }
    assert refs[..|refs|] == refs;
  }

  lemma AddOne(before: seq<Reference>, refs: seq<Reference>, j: nat, bucket: string)
    requires j < |refs|
    ensures var c := Candidate(refs[j], bucket);
      var d := DedupBy(Candidates(before + refs[..j], bucket), SourceKey);
      DedupBy(Candidates(before + refs[..j + 1], bucket), SourceKey)
      == if c.Some? && !HasKey(d, SourceKey, c.value.s3Key) then d + [c.value] else d
  {
    var pre := before + refs[..j];
    assert before + refs[..j + 1] == pre + [refs[j]];
    AddOneSnoc(pre, refs[j], bucket);
  }

  lemma AddOneSnoc(pre: seq<Reference>, r: Reference, bucket: string)
    ensures var c := Candidate(r, bucket);
      var d := DedupBy(Candidates(pre, bucket), SourceKey);
      DedupBy(Candidates(pre + [r], bucket), SourceKey)
      == if c.Some? && !HasKey(d, SourceKey, c.value.s3Key) then d + [c.value] else d
  {
    var c := Candidate(r, bucket);
    CandidatesSnoc(pre, r, bucket);
    if c.Some? {
      DedupBySnoc(Candidates(pre, bucket), c.value, SourceKey);
    } else {
      assert Candidates(pre + [r], bucket) == Candidates(pre, bucket);
    }
  }

  lemma CandidatesSnoc(rs: seq<Reference>, r: Reference, bucket: string)
    ensures var c := Candidate(r, bucket);
      Candidates(rs + [r], bucket) == Candidates(rs, bucket) + (if c.Some? then [c.value] else [])
  {
    assert (rs + [r])[..|rs|] == rs;
  }

  lemma DedupBySnoc<T>(xs: seq<T>, x: T, key: T -> string)
    ensures DedupBy(xs + [x], key)
            == if HasKey(DedupBy(xs, key), key, key(x)) then DedupBy(xs, key) else DedupBy(xs, key) + [x]
  {
    assert (xs + [x])[..|xs|] == xs;
  }

  lemma AllReferencesSnoc(citations: seq<Citation>, i: nat)
    requires i < |citations|
    ensures AllReferences(citations[..i + 1]) == AllReferences(citations[..i]) + citations[i].references
  {
    assert citations[..i + 1][..i] == citations[..i];
  }

  /** The extracted sources have non-empty names and keys, distinct keys,
      and every candidate key is represented by its first candidate. */
  lemma ExtractedSourcesWellFormed(citations: seq<Citation>, bucket: string)
    ensures var cands := Candidates(AllReferences(citations), bucket);
      var s := DedupBy(cands, SourceKey);
      (forall i :: 0 <= i < |s| ==> s[i].fileName != "" && s[i].s3Key != "")
      && (forall i, j :: 0 <= i < j < |s| ==> s[i].s3Key != s[j].s3Key)
      && (forall k :: HasKey(s, SourceKey, k) <==> HasKey(cands, SourceKey, k))
  {
    var cands := Candidates(AllReferences(citations), bucket);
    CandidatesWellFormed(AllReferences(citations), bucket);
    DedupByKeys(cands, SourceKey);
    DedupByMembers(cands, SourceKey);
  }

  lemma {:induction false} DedupByMembers<T>(xs: seq<T>, key: T -> string)
    ensures forall i :: 0 <= i < |DedupBy(xs, key)| ==> DedupBy(xs, key)[i] in xs
  {
    if |xs| > 0 {
      DedupByMembers(xs[..|xs| - 1], key);
      var d := DedupBy(xs[..|xs| - 1], key);
      forall i | 0 <= i < |d| ensures d[i] in xs {
        assert d[i] in xs[..|xs| - 1];
      }
    }
  }
}
