/**
 * The document side of the AI router: the checks `upload_pdf` makes before
 * its (simulated) extraction, the fallback strategies and the size-based
 * chunker of `extract_document_sections`, and the output caps of the
 * section and topic extractors.
 *
 * The title detection (regular expressions) and the topic ranking
 * (`Counter`) are not modelled: their results enter as parameters.
 */
module AiDocuments {
  import opened Basics
  import opened Text
  import opened AiP2P

  // ---------------------------------------------------------------------------
  // upload_pdf
  // ---------------------------------------------------------------------------

  const MaxPdfSize := 50 * MiB
  const SimulatedPages := 5

  /** The detail of the 400 a PDF upload is refused with, if any: first the type, then the size. */
  function PdfRefusal(contentType: Option<String>, size: nat): Option<String>
  {
    if contentType != Some("application/pdf") then Some("Only PDF files are allowed")
    else if size > MaxPdfSize then Some("File too large. Maximum size: 50MB")
    else None
  }

  /** What `upload_pdf` answers, apart from the simulated text and its word count. */
  datatype PdfSummary = PdfSummary(filename: String, size: nat, pages: nat, message: String)

  /**
   * `upload_pdf`: a refusal is a 400 raised inside the handler's `try`, so the
   * client sees a 500 whose detail embeds the 400's text.
   */
  function UploadPdf(contentType: Option<String>, filename: String, size: nat): (r: Response<PdfSummary>)
    ensures r.Ok? <==> contentType == Some("application/pdf") && size <= MaxPdfSize
    ensures r.Ok? ==> r.value.pages == SimulatedPages && r.value.size == size && r.value.filename == filename
    ensures r.HttpError? ==> r.status == 500
    ensures contentType != Some("application/pdf") ==>
      r == HttpError(500, "Error processing PDF: " + ExceptionText(400, "Only PDF files are allowed"))
  {
    match PdfRefusal(contentType, size)
    case Some(detail) => HttpError(500, "Error processing PDF: " + ExceptionText(400, detail))
    case None => Ok(PdfSummary(filename, size, SimulatedPages, "PDF processed successfully (simulated extraction)"))
  }

  /** A file that is not a PDF is answered with a 500 whose detail reads as the 400 it wraps. */
  lemma NonPdfText(contentType: Option<String>, filename: String, size: nat)
    requires contentType != Some("application/pdf")
    ensures UploadPdf(contentType, filename, size) ==
      HttpError(500, "Error processing PDF: " + "400" + ": " + "Only PDF files are allowed")
  {
    FourHundred();
  }

  lemma FourHundred()
    ensures NatToString(400) == "400"
  {
    assert NatToString(4) == "4";
    assert NatToString(40) == "40";
  }

  // ---------------------------------------------------------------------------
  // The size-based chunker
  // ---------------------------------------------------------------------------

  /** Consecutive runs of `size` words; the last run holds what is left. */
  function Chunks(words: seq<String>, size: nat): seq<seq<String>>
    requires size >= 1
    decreases |words|
  {
    if |words| == 0 then []
    else if |words| <= size then [words]
    else [words[..size]] + Chunks(words[size..], size)
  }

  /** The chunks put back together are the words, in order: nothing is lost, repeated or moved. */
  lemma {:induction false} ChunksCover(words: seq<String>, size: nat)
    requires size >= 1
    ensures Flatten(Chunks(words, size)) == words
    decreases |words|
  {
    if |words| > size {
      ChunksCover(words[size..], size);
      assert words == words[..size] + words[size..];
    } else if |words| > 0 {
      assert Flatten(Chunks(words, size)) == words + Flatten([]);
    }
  }

  /** Every chunk holds between one and `size` words, and all but the last hold exactly `size`. */
  lemma {:induction false} ChunksSizes(words: seq<String>, size: nat)
    requires size >= 1
    ensures forall i :: 0 <= i < |Chunks(words, size)| ==> 1 <= |Chunks(words, size)[i]| <= size
    ensures forall i :: 0 <= i < |Chunks(words, size)| - 1 ==> |Chunks(words, size)[i]| == size
    decreases |words|
  {
    if |words| > size {
      ChunksSizes(words[size..], size);
    }
  }

  /** The number of chunks is the least c with c * size >= |words|. */
  lemma {:induction false} ChunksCount(words: seq<String>, size: nat)
    requires size >= 1
    ensures |Chunks(words, size)| * size >= |words|
    ensures |Chunks(words, size)| * size < |words| + size
    decreases |words|
  {
    if |words| > size {
      ChunksCount(words[size..], size);
    }
  }

  /** The chunk size as written: at least 200, else the floor of a fifth of the words. */
  function ChunkSizeAsWritten(n: nat): (size: nat)
    ensures size >= 200
    ensures n >= 1000 ==> 5 * size <= n < 5 * size + 5
    ensures n < 1000 ==> size == 200
  {
    Max(200, n / 5)
  }

  /**
   * The chunk size the "at most 5 sections" intent needs: at least 200, else
   * the ceiling of a fifth of the words.
   */
  function ChunkSize(n: nat): (size: nat)
    ensures size >= 200 && 5 * size >= n
  {
    Max(200, (n + 4) / 5)
  }

  /** Cancelling a positive factor: c * size < k * size means c < k. */
  lemma FewerThan(c: nat, k: nat, size: nat)
    requires size >= 1 && c * size < k * size
    ensures c < k
  {
  }

  /** With the corrected size the chunker never gives more than five chunks. */
  lemma ChunkSizeGivesAtMostFive(words: seq<String>)
    ensures |Chunks(words, ChunkSize(|words|))| <= 5
  {
    var size := ChunkSize(|words|);
    ChunksCount(words, size);
    FewerThan(|Chunks(words, size)|, 6, size);
  }

  /**
   * With the size as written, any word count of at least 1000 that is not a
   * multiple of five gives six chunks or more (1001 words: chunks of 200,
   * the sixth holding one word).
   */
  lemma AsWrittenGivesMoreThanFive(words: seq<String>)
    requires |words| >= 1000 && |words| % 5 != 0
    ensures |Chunks(words, ChunkSizeAsWritten(|words|))| > 5
  {
    var size := ChunkSizeAsWritten(|words|);
    assert size == |words| / 5;
    assert 5 * size < |words|;
    ChunksCount(words, size);
    var c := |Chunks(words, size)|;
    assert (c - 5) * size == c * size - 5 * size;
  }

  /** The smallest instance: 1001 words, six sections. */
  lemma AsWrittenSixSections(words: seq<String>)
    requires |words| == 1001
    ensures |Chunks(words, ChunkSizeAsWritten(|words|))| == 6
  {
    var size := ChunkSizeAsWritten(|words|);
    assert size == 200;
    ChunksCount(words, size);
  }

  /** The bound the size as written does keep: never more than six chunks. */
  lemma AsWrittenAtMostSix(words: seq<String>)
    ensures |Chunks(words, ChunkSizeAsWritten(|words|))| <= 6
  {
    var size := ChunkSizeAsWritten(|words|);
    ChunksCount(words, size);
    if |words| >= 1000 {
      assert |words| + size <= 7 * size;
      FewerThan(|Chunks(words, size)|, 7, size);
    } else {
      FewerThan(|Chunks(words, size)|, 6, size);
    }
  }

  /** Each chunk rendered as `' '.join(...)`. */
  function JoinEach(chunks: seq<seq<String>>): (r: seq<String>)
    ensures |r| == |chunks|
    decreases |chunks|
  {
    if |chunks| == 0 then [] else [Join(chunks[0], " ")] + JoinEach(chunks[1..])
  }

  /** One section per chunk: the i-th section is the i-th chunk joined by single spaces. */
  lemma {:induction false} JoinEachPointwise(chunks: seq<seq<String>>)
    ensures forall i :: 0 <= i < |chunks| ==> JoinEach(chunks)[i] == Join(chunks[i], " ")
    decreases |chunks|
  {
    if |chunks| > 0 {
      JoinEachPointwise(chunks[1..]);
    }
  }

  /** The sections the chunker of `extract_document_sections` produces for the given words. */
  function Chunked(words: seq<String>): seq<String>
  {
    JoinEach(Chunks(words, ChunkSizeAsWritten(|words|)))
  }

  /** The chunks from position i on: the slice `words[i:i + size]`, then the chunks after it. */
  lemma ChunksFrom(words: seq<String>, size: nat, i: nat)
    requires size >= 1 && i < |words|
    ensures var end := if i + size <= |words| then i + size else |words|;
      Chunks(words[i..], size) == [words[i..end]] + Chunks(words[end..], size)
  {
    var end := if i + size <= |words| then i + size else |words|;
    var rest := words[i..];
    if |rest| <= size {
      assert rest == words[i..end] && words[end..] == [];
    } else {
      assert rest[..size] == words[i..end] && rest[size..] == words[end..];
    }
  }

  /** The chunking loop of `extract_document_sections`, with the chunk size as written. */
  method ChunkSections(words: seq<String>) returns (sections: seq<String>)
    ensures sections == Chunked(words)
    ensures |sections| <= 6
  {
    var size := ChunkSizeAsWritten(|words|);
    sections := [];
    var i := 0;
    while i < |words|
      invariant 0 <= i <= |words|
      invariant sections + JoinEach(Chunks(words[i..], size)) == JoinEach(Chunks(words, size))
    {
      // `range(0, n, size)` steps by `size`; stepping to `end` is the same except after the last chunk.
      var end := if i + size <= |words| then i + size else |words|;
      ChunksFrom(words, size, i);
      assert JoinEach(Chunks(words[i..], size)) == [Join(words[i..end], " ")] + JoinEach(Chunks(words[end..], size));
      sections := sections + [Join(words[i..end], " ")];
      i := end;
    }
    AsWrittenAtMostSix(words);
  }

  // ---------------------------------------------------------------------------
  // extract_document_sections and extract_topics
  // ---------------------------------------------------------------------------

  const MaxSections := 10
  const MaxTopics := 8

  /** `s[:k]`. */
  function Take<T>(s: seq<T>, k: nat): (r: seq<T>)
    ensures |r| == if |s| <= k then |s| else k
    ensures r == s[..|r|]
  {
    if |s| <= k then s else s[..k]
  }

  function IsLong(p: String): bool
  {
    WordCount(p) > 50
  }

  /** The paragraph strategy: `[p.strip() for p in paragraphs if len(p.split()) > 50]`. */
  function LongParagraphs(paragraphs: seq<String>): (r: seq<String>)
    ensures |r| <= |paragraphs|
    decreases |paragraphs|
  {
    if |paragraphs| == 0 then []
    else
      var kept := if IsLong(paragraphs[0]) then [Trim(Python, paragraphs[0])] else [];
      kept + LongParagraphs(paragraphs[1..])
  }

  /**
   * The paragraph strategy keeps exactly the paragraphs of more than 50
   * words, in their order, each stripped.
   */
  lemma {:induction false} LongParagraphsExactly(paragraphs: seq<String>)
    ensures |LongParagraphs(paragraphs)| == |Filter(paragraphs, IsLong)|
    ensures forall i :: 0 <= i < |Filter(paragraphs, IsLong)| ==>
      LongParagraphs(paragraphs)[i] == Trim(Python, Filter(paragraphs, IsLong)[i])
    decreases |paragraphs|
  {
    if |paragraphs| > 0 {
      var rest := paragraphs[1..];
      LongParagraphsExactly(rest);
      if IsLong(paragraphs[0]) {
        assert Filter(paragraphs, IsLong) == [paragraphs[0]] + Filter(rest, IsLong);
        assert LongParagraphs(paragraphs) == [Trim(Python, paragraphs[0])] + LongParagraphs(rest);
      } else {
        assert Filter(paragraphs, IsLong) == Filter(rest, IsLong);
        assert LongParagraphs(paragraphs) == LongParagraphs(rest);
      }
    }
  }

  /**
   * `extract_document_sections`, given the sections the title detection
   * found: fewer than two of those fall back to the long paragraphs, fewer
   * than two of those to the chunker, and at most ten are kept.
   */
  function ExtractSections(content: String, titled: seq<String>): seq<String>
  {
    var byParagraph := if |titled| <= 1 then LongParagraphs(SplitOn(content, "\n\n")) else titled;
    var sections := if |byParagraph| <= 1 then Chunked(Words(content)) else byParagraph;
    Take(sections, MaxSections)
  }

  /**
   * At most ten sections; two titled sections or more are kept as found; when
   * both earlier strategies fail, the sections are the chunks of the
   * document's words with the size as written, one per started run of
   * `size` words and at most six.
   */
  lemma ExtractSectionsShape(content: String, titled: seq<String>)
    ensures |ExtractSections(content, titled)| <= MaxSections
    ensures |titled| >= 2 ==> ExtractSections(content, titled) == Take(titled, MaxSections)
    ensures |titled| <= 1 && |LongParagraphs(SplitOn(content, "\n\n"))| <= 1 ==>
      var words := Words(content);
      var size := ChunkSizeAsWritten(|words|);
      ExtractSections(content, titled) == JoinEach(Chunks(words, size))
      && |ExtractSections(content, titled)| <= 6
      && |ExtractSections(content, titled)| * size >= |words|
      && |ExtractSections(content, titled)| * size < |words| + size
  {
    var words := Words(content);
    AsWrittenAtMostSix(words);
    ChunksCount(words, ChunkSizeAsWritten(|words|));
  }

  /** `extract_topics`: the ranked words, then the ranked word pairs, at most eight in all. */
  function Topics(topWords: seq<String>, topBigrams: seq<String>): (r: seq<String>)
  {
    Take(topWords + topBigrams, MaxTopics)
  }

  /** At most eight topics; the words come before the pairs, and nothing is reordered. */
  lemma TopicsShape(topWords: seq<String>, topBigrams: seq<String>)
    ensures |Topics(topWords, topBigrams)| == if |topWords| + |topBigrams| <= MaxTopics then |topWords| + |topBigrams| else MaxTopics
    ensures |topWords| >= MaxTopics ==> Topics(topWords, topBigrams) == topWords[..MaxTopics]
    ensures |topWords| < MaxTopics ==> Topics(topWords, topBigrams)[..|topWords|] == topWords
  {
    var all := topWords + topBigrams;
    if |topWords| >= MaxTopics {
      assert all[..MaxTopics] == topWords[..MaxTopics];
    } else {
      assert Take(all, MaxTopics)[..|topWords|] == all[..|topWords|];
    }
  }
}
