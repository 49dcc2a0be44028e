/**
 * The lazily built passage index: the module-level `vector_store` is loaded
 * from disk or built from the PDFs under the data directory the first time a
 * query finds it unset, and kept once it is set. PDF conversion, chunking,
 * embedding and similarity search are oracles.
 */
module PdfQueryTools {
  import opened Records

  const NoDocumentsMessage := "No documents available to answer this query."

  /** `similarity_search(query, k=3)`. */
  const TopK := 3

  const PassageSeparator := "\n\n"

  /** `Document(page_content=md_text, metadata={"source": filename})`. */
  datatype Document = Document(pageContent: string, source: string)

  /** A FAISS index over the chunks of these documents. */
  datatype Index = Index(documents: seq<Document>)

  predicate EndsWith(s: string, suffix: string) {
    |suffix| <= |s| && s[|s| - |suffix|..] == suffix
  }

  /** `part` occurs in `s` starting at index `i`. */
  predicate OccursAt(s: string, part: string, i: int) {
    0 <= i && i + |part| <= |s| && s[i..i + |part|] == part
  }

  /** Python's `part in s` on strings. */
  predicate Contains(s: string, part: string) {
    exists i :: 0 <= i <= |s| - |part| && OccursAt(s, part, i)
  }

  /** The file is a PDF and not one of the excluded finance files (case-sensitive). */
  predicate Indexable(name: string) {
    EndsWith(name, ".pdf") && !Contains(name, "Finance") && !Contains(name, "budget")
  }

  /** The documents built from the directory entries `names`, in listing order. */
  function Corpus(names: seq<string>, toMarkdown: string -> string): (docs: seq<Document>)
    ensures |docs| <= |names|
    decreases |names|
  {
    if names == [] then []
    else
      var name := names[|names| - 1];
      Corpus(names[..|names| - 1], toMarkdown) + (if Indexable(name) then [Document(toMarkdown(name), name)] else [])
  }

  /** Exactly the indexable entries become documents, each from its own file. */
  lemma {:induction false} CorpusSelects(names: seq<string>, toMarkdown: string -> string)
    ensures forall d :: d in Corpus(names, toMarkdown) ==>
              d.source in names && Indexable(d.source) && d.pageContent == toMarkdown(d.source)
    ensures forall n :: n in names && Indexable(n) ==> Document(toMarkdown(n), n) in Corpus(names, toMarkdown)
    decreases |names|
  {
    if names != [] {
      var init := names[..|names| - 1];
      CorpusSelects(init, toMarkdown);
      assert forall n :: n in init ==> n in names;
      assert forall n :: n in names ==> n in init || n == names[|names| - 1];
    }
  }

  /** No document is selected exactly when no entry is indexable. */
  lemma CorpusEmptyIff(names: seq<string>, toMarkdown: string -> string)
    ensures Corpus(names, toMarkdown) == [] <==> forall n :: n in names ==> !Indexable(n)
  {
    CorpusSelects(names, toMarkdown);
  }

  /** The filter on sample names: the suffix and the exclusions are case-sensitive. */
  lemma FilterExamples()
    ensures Indexable("os_concepts.pdf")
    ensures !Indexable("os_concepts.PDF")
    ensures !Indexable("Finance_2024.pdf") && !Indexable("annual_budget.pdf")
    ensures Indexable("Budget.pdf")
  {
    assert OccursAt("Finance_2024.pdf", "Finance", 0);
    assert OccursAt("annual_budget.pdf", "budget", 7);
    assert "os_concepts.PDF"[11..] != ".pdf" by { assert "os_concepts.PDF"[12] == 'P'; }
    forall i | 0 <= i <= |"os_concepts.pdf"| - 7
      ensures !OccursAt("os_concepts.pdf", "Finance", i)
    {
      assert "os_concepts.pdf"[i..i + 7][0] != 'F';
    }
    forall i | 0 <= i <= |"os_concepts.pdf"| - 6
      ensures !OccursAt("os_concepts.pdf", "budget", i)
    {
      assert "os_concepts.pdf"[i..i + 6][0] != 'b';
    }
    forall i | 0 <= i <= |"Budget.pdf"| - 7
      ensures !OccursAt("Budget.pdf", "Finance", i)
    {
      assert "Budget.pdf"[i..i + 7][0] != 'F';
    }
    forall i | 0 <= i <= |"Budget.pdf"| - 6
      ensures !OccursAt("Budget.pdf", "budget", i)
    {
      assert "Budget.pdf"[i..i + 6][0] != 'b';
    }
  }

  /** What initialisation leaves in `vector_store`, when it sets it at all. */
  function Initialised(savedIndex: Option<Index>, dataDir: Option<seq<string>>, loadSucceeds: bool,
                       toMarkdown: string -> string): (r: Option<Index>)
    ensures r.None? <==>
              !(savedIndex.Some? && loadSucceeds) && forall n :: n in GetOr(dataDir, []) ==> !Indexable(n)
  {
    CorpusEmptyIff(GetOr(dataDir, []), toMarkdown);
    if savedIndex.Some? && loadSucceeds then savedIndex
    else
      var docs := Corpus(GetOr(dataDir, []), toMarkdown);
      if docs == [] then None else Some(Index(docs))
  }

  /** The first `k` ranked results, fewer when the ranking is shorter. */
  function Take(ranked: seq<string>, k: nat): (r: seq<string>)
    ensures |r| <= k && |r| <= |ranked| && r == ranked[..|r|]
    ensures |ranked| >= k ==> |r| == k
  {
    if |ranked| <= k then ranked else ranked[..k]
  }

  /** `sep.join(parts)`. */
  function Join(parts: seq<string>, sep: string): string
    decreases |parts|
  {
    if parts == [] then ""
    else if |parts| == 1 then parts[0]
    else parts[0] + sep + Join(parts[1..], sep)
  }

  /** Where the `i`-th part starts in `Join(parts, sep)`. */
  function Offset(parts: seq<string>, sep: string, i: nat): nat
    requires i <= |parts|
    decreases i
  {
    if i == 0 then 0 else |parts[0]| + |sep| + Offset(parts[1..], sep, i - 1)
  }

  /** Each part sits in the joined text at its offset: the parts keep their order. */
  lemma {:induction false} JoinPlacesPart(parts: seq<string>, sep: string, i: nat)
    requires i < |parts|
    ensures Offset(parts, sep, i) + |parts[i]| <= |Join(parts, sep)|
    ensures Join(parts, sep)[Offset(parts, sep, i)..Offset(parts, sep, i) + |parts[i]|] == parts[i]
    decreases i
  {
    if |parts| == 1 {
      assert Join(parts, sep) == parts[0];
    } else if i == 0 {
      assert Join(parts, sep) == parts[0] + sep + Join(parts[1..], sep);
    } else {
      var rest := Join(parts[1..], sep);
      var head := parts[0] + sep;
      JoinPlacesPart(parts[1..], sep, i - 1);
      var o := Offset(parts[1..], sep, i - 1);
      assert Join(parts, sep) == head + rest;
      assert Offset(parts, sep, i) == |head| + o;
      assert (head + rest)[|head| + o..|head| + o + |parts[i]|] == rest[o..o + |parts[i]|];
    }
  }

  /** The module-level state of `tools/pdf_query_tools.py` and the files it touches. */
  class PdfIndexCache {
    /** The global `vector_store`. */
    var vectorStore: Option<Index>
    /** What `INDEX_PATH` holds; `None` while the path does not exist. */
    var savedIndex: Option<Index>
    /** The entries of `DATA_DIR`, in `os.listdir` order; `None` while it does not exist. */
    var dataDir: Option<seq<string>>
    /** Whether `IMAGES_DIR` exists. */
    var imagesDir: bool

    /** The state at import time: no index in memory. */
    constructor (savedIndex: Option<Index>, dataDir: Option<seq<string>>, imagesDir: bool)
      ensures vectorStore == None
      ensures this.savedIndex == savedIndex && this.dataDir == dataDir && this.imagesDir == imagesDir
    {
      vectorStore := None;
      this.savedIndex := savedIndex;
      this.dataDir := dataDir;
      this.imagesDir := imagesDir;
    }

    /**
     * `initialize_vector_store()`. `loadSucceeds` says whether
     * `FAISS.load_local` returns; `toMarkdown` is `pymupdf4llm.to_markdown`.
     */
    method InitializeVectorStore(loadSucceeds: bool, toMarkdown: string -> string)
      modifies this
      ensures old(savedIndex).Some? && loadSucceeds ==>
                vectorStore == old(savedIndex) && savedIndex == old(savedIndex)
                && dataDir == old(dataDir) && imagesDir == old(imagesDir)
      ensures !(old(savedIndex).Some? && loadSucceeds) ==>
                var docs := Corpus(GetOr(old(dataDir), []), toMarkdown);
                && dataDir == Some(GetOr(old(dataDir), [])) && imagesDir
                && (docs == [] ==> vectorStore == old(vectorStore) && savedIndex == old(savedIndex))
                && (docs != [] ==> vectorStore == Some(Index(docs)) && savedIndex == vectorStore)
      ensures var built := Initialised(old(savedIndex), old(dataDir), loadSucceeds, toMarkdown);
              vectorStore == if built.Some? then built else old(vectorStore)
    {
      if savedIndex.Some? {
        if loadSucceeds {
          vectorStore := savedIndex;
          return;
        }
      }
      var documents: seq<Document> := [];
      if dataDir.None? {
        dataDir := Some([]);
      }
      if !imagesDir {
        imagesDir := true;
      }
      var names := dataDir.value;
      for i := 0 to |names|
        invariant documents == Corpus(names[..i], toMarkdown)
      {
        var filename := names[i];
        assert names[..i + 1][..i] == names[..i];
        if EndsWith(filename, ".pdf") {
          if Contains(filename, "Finance") || Contains(filename, "budget") {
            continue;
          }
          documents := documents + [Document(toMarkdown(filename), filename)];
        }
      }
      assert names[..|names|] == names;
      if documents == [] {
        return;
      }
      var index := Index(documents);
      vectorStore := Some(index);
      savedIndex := Some(index);
    }

    /**
     * `query_pdfs(query)`. `search` is the index's ranking of page contents
     * for a query, best first.
     */
    method QueryPdfs(query: string, loadSucceeds: bool, toMarkdown: string -> string,
                     search: (Index, string) -> seq<string>)
      returns (result: string)
      modifies this
      ensures old(vectorStore).Some? ==>
                vectorStore == old(vectorStore) && savedIndex == old(savedIndex)
                && dataDir == old(dataDir) && imagesDir == old(imagesDir)
      ensures old(vectorStore).None? ==>
                vectorStore == Initialised(old(savedIndex), old(dataDir), loadSucceeds, toMarkdown)
      ensures old(vectorStore).None? && old(savedIndex).Some? && loadSucceeds ==>
                savedIndex == old(savedIndex) && dataDir == old(dataDir) && imagesDir == old(imagesDir)
      ensures old(vectorStore).None? && !(old(savedIndex).Some? && loadSucceeds) ==>
                && dataDir == Some(GetOr(old(dataDir), [])) && imagesDir
                && savedIndex == (if vectorStore.Some? then vectorStore else old(savedIndex))
      ensures vectorStore.None? ==> result == NoDocumentsMessage
      ensures vectorStore.Some? ==> result == Join(Take(search(vectorStore.value, query), TopK), PassageSeparator)
    {
      if vectorStore.None? {
        InitializeVectorStore(loadSucceeds, toMarkdown);
      }
      if vectorStore.None? {
        return NoDocumentsMessage;
      }
      var docs := Take(search(vectorStore.value, query), TopK);
      result := Join(docs, PassageSeparator);
    }
  }
}
