/**
 * The project's code-embedding store (js/code_embeddings.js): an in-memory
 * list of records, one per chunk of a source file, each carrying the file's
 * path and a content hash; the hash check that skips unchanged files; the
 * filters that find, delete and prune records; and the search that keeps
 * good-enough hits, optionally reorders them by a model's ranking, and
 * truncates to the limit.
 *
 * File reading, text detection, SHA-256, language detection, chunking, the
 * embedding API, the vector similarity search and the background ranking
 * call are not modelled: their outcomes are parameters.
 */
module Embeddings {
  import opened Values
  import opened Seqs

  /** Appended to every content hash, so that a new chunking scheme invalidates old records. */
  const EmbeddingsVersion := "v3"

  /** One stored chunk: the file it came from, that file's hash, the chunk's text and its line range. */
  datatype EmbeddingRecord = EmbeddingRecord(filePath: string, hash: string, pageContent: string, lines: Json)

  /** A chunk as the splitter produces it, before the file's metadata is attached. */
  datatype Chunk = Chunk(pageContent: string, lines: Json)

  /**
   * `detectedLanguageToSplitterMapping[language] || 'other'`: the splitter
   * for a detected language; an unknown language, or none detected, is
   * `other`.
   */
  function MappedLanguage(detected: Option<string>): (r: string)
    ensures detected.None? ==> r == "other"
    ensures detected.Some? && detected.value in KnownLanguages ==> r != "other"
  {
    if detected.None? then "other"
    else
      match detected.value
      case "C++" => "cpp"
      case "Go" => "go"
      case "Java" => "java"
      case "JavaScript" => "js"
      case "PHP" => "php"
      case "Protocol Buffers" => "proto"
      case "Python" => "python"
      case "reStructuredText" => "rst"
      case "Ruby" => "ruby"
      case "Rust" => "rust"
      case "Scala" => "scala"
      case "Swift" => "swift"
      case "Markdown" => "markdown"
      case "LaTeX" => "latex"
      case "HTML" => "html"
      case "Solidity" => "sol"
      case _ => "other"
  }

  /** The languages the mapping knows. */
  const KnownLanguages: set<string> := {
    "C++", "Go", "Java", "JavaScript", "PHP", "Protocol Buffers", "Python", "reStructuredText",
    "Ruby", "Rust", "Scala", "Swift", "Markdown", "LaTeX", "HTML", "Solidity"}

  /** Exactly the known languages get a splitter of their own; every other name falls back to `other`. */
  lemma UnknownLanguageIsOther(language: string)
    ensures MappedLanguage(Some(language)) == "other" <==> language !in KnownLanguages
  {
  }

  /** The records of `filePath`. */
  function At(filePath: string): EmbeddingRecord -> bool {
    (r: EmbeddingRecord) => r.filePath == filePath
  }

  /** The records of every other file. */
  function NotAt(filePath: string): EmbeddingRecord -> bool {
    (r: EmbeddingRecord) => r.filePath != filePath
  }

  /** The records whose file is listed. */
  function Listed(files: set<string>): EmbeddingRecord -> bool {
    (r: EmbeddingRecord) => r.filePath in files
  }

  /** A chunk with the file's path and hash attached. */
  function ToRecord(filePath: string, hash: string, c: Chunk): EmbeddingRecord {
    EmbeddingRecord(filePath, hash, c.pageContent, c.lines)
  }

  function ToRecords(filePath: string, hash: string, chunks: seq<Chunk>): (r: seq<EmbeddingRecord>)
    ensures |r| == |chunks|
    ensures forall i :: 0 <= i < |r| ==> r[i] == ToRecord(filePath, hash, chunks[i])
  {
    seq(|chunks|, i requires 0 <= i < |chunks| => ToRecord(filePath, hash, chunks[i]))
  }

  /** The file has records and the first of them carries `hash`. */
  predicate Current(s: seq<EmbeddingRecord>, filePath: string, hash: string) {
    var records := Filter(s, At(filePath));
    records != [] && records[0].hash == hash
  }

  /** `vectorStore.memoryVectors`, the list every operation filters or extends. */
  class CodeEmbeddings {
    var memoryVectors: seq<EmbeddingRecord>

    constructor ()
      ensures memoryVectors == []
    {
      memoryVectors := [];
    }

    /** `findRecords`: the records of one file, in store order. */
    function FindRecords(filePath: string): (r: seq<EmbeddingRecord>)
      reads this
      ensures forall x :: x in r <==> x in memoryVectors && x.filePath == filePath
    {
      Filter(memoryVectors, At(filePath))
    }

    /** `isEmbededAndCurrent`: false without records, otherwise whether the first record has the given hash. */
    predicate IsEmbeddedAndCurrent(filePath: string, hash: string)
      reads this
      ensures (forall x :: x in memoryVectors ==> x.filePath != filePath) ==> !IsEmbeddedAndCurrent(filePath, hash)
      ensures IsEmbeddedAndCurrent(filePath, hash) ==> exists x :: x in memoryVectors && x.filePath == filePath && x.hash == hash
      ensures (exists x :: x in memoryVectors && x.filePath == filePath)
        && (forall x :: x in memoryVectors && x.filePath == filePath ==> x.hash == hash)
        ==> IsEmbeddedAndCurrent(filePath, hash)
    {
      Current(memoryVectors, filePath, hash)
    }

    /** `deleteRecords`: drops the records of one file and keeps the rest in order. */
    method DeleteRecords(filePath: string)
      modifies this
      ensures memoryVectors == Filter(old(memoryVectors), NotAt(filePath))
    {
      memoryVectors := Filter(memoryVectors, NotAt(filePath));
    }

    /** `deleteEmbeddingsForFilesNotInList`: keeps exactly the records of listed files, in order. */
    method DeleteEmbeddingsForFilesNotInList(filesList: seq<string>)
      modifies this
      ensures memoryVectors == Filter(old(memoryVectors), Listed(set f | f in filesList))
    {
      var filePathsToKeep := set f | f in filesList;
      memoryVectors := Filter(memoryVectors, Listed(filePathsToKeep));
    }

    /**
     * `updateEmbedding(filePath)`. The file's text (None when it cannot be
     * read), whether it is text, its SHA-256, the detected language, the
     * splitter's chunks (None when splitting failed) and whether the
     * embedding API accepted them are the outcomes of the calls the method
     * makes. Nothing changes for an unreadable or non-text file or for a file
     * whose first record already has the new hash; otherwise the old records
     * go, and the new chunks, stamped with path and hash, are appended when
     * there are any and the embedding call succeeds.
     */
    method UpdateEmbedding(filePath: string, fileContent: Option<string>, isTextFile: string -> bool,
                           sha256: string -> string, detected: Option<string>,
                           split: (string, string) -> Option<seq<Chunk>>, embedded: bool)
      modifies this
      ensures fileContent.None? || !isTextFile(fileContent.value) ==> memoryVectors == old(memoryVectors)
      ensures fileContent.Some? && isTextFile(fileContent.value)
        && Current(old(memoryVectors), filePath, sha256(fileContent.value) + EmbeddingsVersion)
        ==> memoryVectors == old(memoryVectors)
      ensures fileContent.Some? && isTextFile(fileContent.value)
        && !Current(old(memoryVectors), filePath, sha256(fileContent.value) + EmbeddingsVersion)
        ==> var hash := sha256(fileContent.value) + EmbeddingsVersion;
            var chunks := split(fileContent.value, MappedLanguage(detected));
            memoryVectors == Filter(old(memoryVectors), NotAt(filePath))
              + if chunks.Some? && chunks.value != [] && embedded then ToRecords(filePath, hash, chunks.value) else []
    {
      if fileContent.None? {
        return;
      }
      var content := fileContent.value;
      if !isTextFile(content) {
        return;
      }
      var hash := sha256(content) + EmbeddingsVersion;
      var fileRecords := FindRecords(filePath);
      if |fileRecords| > 0 {
        if fileRecords[0].hash == hash {
          return;
        }
        DeleteRecords(filePath);
      } else {
        NothingToDelete(memoryVectors, filePath);
      }
      var language := MappedLanguage(detected);
      var documents := split(content, language);
      if documents.Some? && |documents.value| > 0 && embedded {
        memoryVectors := memoryVectors + ToRecords(filePath, hash, documents.value);
      } else {
        AfterPrefix(memoryVectors, []);
      }
    }
  }

  /** A file without records loses nothing to `deleteRecords`. */
  lemma NothingToDelete(s: seq<EmbeddingRecord>, filePath: string)
    requires Filter(s, At(filePath)) == []
    ensures Filter(s, NotAt(filePath)) == s
  {
    FilterAll(s, NotAt(filePath));
  }

  /** After `deleteRecords(p)` no record of `p` is left, and every other file's records are exactly as before. */
  lemma DeleteRecordsEffect(s: seq<EmbeddingRecord>, p: string, q: string)
    ensures Filter(Filter(s, NotAt(p)), At(p)) == []
    ensures q != p ==> Filter(Filter(s, NotAt(p)), At(q)) == Filter(s, At(q))
  {
    FilterFilter(s, NotAt(p), At(p), (r: EmbeddingRecord) => false);
    FilterNone(s, (r: EmbeddingRecord) => false);
    if q != p {
      FilterFilter(s, NotAt(p), At(q), At(q));
    }
  }

  /** After pruning to a file list, every record belongs to a listed file; listed files keep all their records, unlisted ones have none. */
  lemma PruneEffect(s: seq<EmbeddingRecord>, files: set<string>, q: string)
    ensures forall x :: x in Filter(s, Listed(files)) ==> x.filePath in files
    ensures q in files ==> Filter(Filter(s, Listed(files)), At(q)) == Filter(s, At(q))
    ensures q !in files ==> Filter(Filter(s, Listed(files)), At(q)) == []
  {
    if q in files {
      FilterFilter(s, Listed(files), At(q), At(q));
    } else {
      FilterFilter(s, Listed(files), At(q), (r: EmbeddingRecord) => false);
      FilterNone(s, (r: EmbeddingRecord) => false);
    }
  }

  /** Once a file has been embedded with new chunks, it counts as embedded and current for that hash. */
  lemma CurrentAfterUpdate(s: seq<EmbeddingRecord>, filePath: string, hash: string, chunks: seq<Chunk>)
    requires chunks != []
    ensures Current(Filter(s, NotAt(filePath)) + ToRecords(filePath, hash, chunks), filePath, hash)
  {
    var rest := Filter(s, NotAt(filePath));
    var added := ToRecords(filePath, hash, chunks);
    FilterAppend(rest, added, At(filePath));
    DeleteRecordsEffect(s, filePath, filePath);
    FilterAll(added, At(filePath));
  }

  // ---------------------------------------------------------------------
  // Search
  // ---------------------------------------------------------------------

  /** A similarity hit: a record and its score. */
  datatype Hit = Hit(record: EmbeddingRecord, score: real)

  /** A search result: the path relative to the project, the chunk's text and its lines. */
  datatype SearchResult = SearchResult(filePath: string, fileContent: string, lines: Json)

  /** A hit worth showing: score at least the minimum and more than five characters of text. */
  function Keeps(minScore: real): Hit -> bool {
    (h: Hit) => h.score >= minScore && |h.record.pageContent| > 5
  }

  function FormatHit(h: Hit, basePath: string, relative: (string, string) -> string): SearchResult {
    SearchResult(relative(basePath, h.record.filePath), h.record.pageContent, h.record.lines)
  }

  /** The kept hits, formatted, in the store's order of similarity. */
  function Candidates(hits: seq<Hit>, minScore: real, basePath: string, relative: (string, string) -> string)
    : (r: seq<SearchResult>)
    ensures forall x :: x in r ==> exists h :: h in hits && Keeps(minScore)(h) && x == FormatHit(h, basePath, relative)
  {
    var kept := Filter(hits, Keeps(minScore));
    seq(|kept|, i requires 0 <= i < |kept| => FormatHit(kept[i], basePath, relative))
  }

  /** `slice(0, limit)`: a prefix; as long as `limit` allows when `limit` is not negative. */
  function FirstN<T>(s: seq<T>, limit: int): (r: seq<T>)
    ensures |r| <= |s| && r == s[..|r|]
    ensures limit >= 0 ==> |r| == if limit < |s| then limit else |s|
  {
    JsSlice(s, 0, limit)
  }

  /** `index in searchResults` for an integer index: a position of the array. */
  function InRange(n: nat): int -> bool {
    (i: int) => 0 <= i < n
  }

  /**
   * `rerankSearchResults`: the results at the model's indexes, in the
   * model's order, out-of-range indexes dropped; all results, unchanged,
   * when the ranking call or its parse failed (`None`).
   */
  function Rerank(results: seq<SearchResult>, rankings: Option<seq<int>>): (r: seq<SearchResult>)
    ensures rankings.None? ==> r == results
    ensures rankings.Some? ==>
      var valid := Filter(rankings.value, InRange(|results|));
      |r| == |valid| && forall k :: 0 <= k < |r| ==> 0 <= valid[k] < |results| && r[k] == results[valid[k]]
    ensures forall x :: x in r ==> x in results
  {
    if rankings.None? then results
    else
      var valid := Filter(rankings.value, InRange(|results|));
      seq(|valid|, k requires 0 <= k < |valid| => results[valid[k]])
  }

  /**
   * `search`: the kept hits, formatted, then reranked when asked and when
   * the reranking yields something, and truncated to `limit`. A failed
   * similarity search (`None`) or one without hits gives nothing.
   */
  function Search(hits: Option<seq<Hit>>, limit: int, basePath: string, minScore: real, rerank: bool,
                  relative: (string, string) -> string, rankings: Option<seq<int>>): (r: seq<SearchResult>)
    ensures hits.None? || hits.value == [] ==> r == []
    ensures limit >= 0 ==> |r| <= limit
    ensures hits.Some? ==> forall x :: x in r ==> x in Candidates(hits.value, minScore, basePath, relative)
    ensures hits.Some? && !rerank ==>
      var c := Candidates(hits.value, minScore, basePath, relative); |r| <= |c| && r == c[..|r|]
    ensures hits.Some? && hits.value != [] ==>
      var c := Candidates(hits.value, minScore, basePath, relative);
      var shown := if rerank && |Rerank(c, rankings)| > 0 then Rerank(c, rankings) else c;
      |r| <= |shown| && r == shown[..|r|]
      && (limit >= 0 ==> |r| == if limit < |shown| then limit else |shown|)
  {
    if hits.None? || |hits.value| == 0 then []
    else
      var formatted := Candidates(hits.value, minScore, basePath, relative);
      if !rerank then FirstN(formatted, limit)
      else
        var reranked := Rerank(formatted, rankings);
        if |reranked| > 0 then FirstN(reranked, limit) else FirstN(formatted, limit)
  }

  /** Every result comes from a hit that scored at least the minimum and has more than five characters of text. */
  lemma SearchResultsQualify(hits: seq<Hit>, limit: int, basePath: string, minScore: real, rerank: bool,
                             relative: (string, string) -> string, rankings: Option<seq<int>>, x: SearchResult)
    requires x in Search(Some(hits), limit, basePath, minScore, rerank, relative, rankings)
    ensures exists h :: (h in hits && h.score >= minScore && |h.record.pageContent| > 5
      && x == FormatHit(h, basePath, relative))
  {
    var h :| h in hits && Keeps(minScore)(h) && x == FormatHit(h, basePath, relative);
  }
}
