/**
 * The language-model service: "gist memory" cuts a document into pages of
 * roughly 500 words along its blank-line paragraphs and asks the model for a
 * one- or two-sentence summary of each page; `complete` answers
 * "Cerebras not configured" when there is no API key.
 *
 * The model's HTTP round trip is abstract: `Reply` is what the request
 * produced, and `GistMemory` takes the outcome of `complete` for each prompt
 * as a function (`None` when the call raised).
 */
module CerebrasService {
  import opened Basics
  import opened Text

  const ParagraphBreak: String := "\n\n"
  const PageWords := 500
  const GistFailed: String := "Erro ao gerar resumo"
  const NotConfigured: String := "Cerebras not configured"

  /** The words of a group of paragraphs, counted as `len(para.split())` summed. */
  function GroupWords(g: seq<String>): nat
    decreases |g|
  {
    if |g| == 0 then 0 else GroupWords(g[..|g| - 1]) + WordCount(g[|g| - 1])
  }

  /**
   * The packing loop from a state where `current` (holding `words` words) is
   * the page being filled: each paragraph joins the page, and the page closes
   * as soon as its count passes 500; an unfinished page is closed at the end.
   */
  function PackFrom(paragraphs: seq<String>, current: seq<String>, words: nat): seq<seq<String>>
    decreases |paragraphs|
  {
    if |paragraphs| == 0 then (if current == [] then [] else [current])
    else
      var page := current + [paragraphs[0]];
      var count := words + WordCount(paragraphs[0]);
      if count > PageWords then [page] + PackFrom(paragraphs[1..], [], 0)
      else PackFrom(paragraphs[1..], page, count)
  }

  /** The pages, as lists of paragraphs. */
  function Pack(paragraphs: seq<String>): seq<seq<String>>
  {
    PackFrom(paragraphs, [], 0)
  }

  function JoinPages(groups: seq<seq<String>>): (pages: seq<String>)
    ensures |pages| == |groups|
    ensures forall i :: 0 <= i < |groups| ==> pages[i] == Join(groups[i], ParagraphBreak)
  {
    seq(|groups|, i requires 0 <= i < |groups| => Join(groups[i], ParagraphBreak))
  }

  lemma GroupWordsAppend(g: seq<String>, p: String)
    ensures GroupWords(g + [p]) == GroupWords(g) + WordCount(p)
  {
    assert (g + [p])[..|g|] == g;
  }

  /** The pages hold the paragraphs in order: concatenated, they give back the list. */
  lemma {:induction false} PackFromPartition(paragraphs: seq<String>, current: seq<String>, words: nat)
    ensures Flatten(PackFrom(paragraphs, current, words)) == current + paragraphs
    decreases |paragraphs|
  {
    if |paragraphs| == 0 {
      if current != [] {
        assert Flatten([current]) == current + Flatten([]);
      }
    } else {
      var page := current + [paragraphs[0]];
      var count := words + WordCount(paragraphs[0]);
      assert page + paragraphs[1..] == current + paragraphs;
      if count > PageWords {
        PackFromPartition(paragraphs[1..], [], 0);
        var rest := PackFrom(paragraphs[1..], [], 0);
        assert ([page] + rest)[1..] == rest;
      } else {
        PackFromPartition(paragraphs[1..], page, count);
      }
    }
  }

  /**
   * The page sizes: no page is empty, every page but the last passed 500
   * words, and a page without its last paragraph had not yet passed 500, so
   * it closed as soon as it did.
   */
  predicate WellSized(pages: seq<seq<String>>)
    decreases |pages|
  {
    |pages| == 0
    || (|pages[0]| > 0 && GroupWords(pages[0][..|pages[0]| - 1]) <= PageWords
        && (|pages| > 1 ==> GroupWords(pages[0]) > PageWords)
        && WellSized(pages[1..]))
  }

  /** The sizes of well-sized pages, page by page. */
  lemma {:induction false} WellSizedAt(pages: seq<seq<String>>, i: nat)
    requires WellSized(pages) && i < |pages|
    ensures |pages[i]| > 0 && GroupWords(pages[i][..|pages[i]| - 1]) <= PageWords
    ensures i < |pages| - 1 ==> GroupWords(pages[i]) > PageWords
    decreases i
  {
    if i > 0 {
      WellSizedAt(pages[1..], i - 1);
    }
  }

  lemma {:induction false} PackFromSizes(paragraphs: seq<String>, current: seq<String>, words: nat)
    requires words == GroupWords(current) && words <= PageWords
    ensures WellSized(PackFrom(paragraphs, current, words))
    decreases |paragraphs|
  {
    if |paragraphs| > 0 {
      var page := current + [paragraphs[0]];
      var count := words + WordCount(paragraphs[0]);
      GroupWordsAppend(current, paragraphs[0]);
      assert page[..|page| - 1] == current;
      if count > PageWords {
        PackFromSizes(paragraphs[1..], [], 0);
        var rest := PackFrom(paragraphs[1..], [], 0);
        assert ([page] + rest)[1..] == rest;
      } else {
        PackFromSizes(paragraphs[1..], page, count);
      }
    }
  }

  /** A non-empty list of paragraphs gives at least one page. */
  lemma {:induction false} PackFromNonEmpty(paragraphs: seq<String>, current: seq<String>, words: nat)
    requires |paragraphs| > 0 || current != []
    ensures |PackFrom(paragraphs, current, words)| >= 1
    decreases |paragraphs|
  {
    if |paragraphs| > 0 {
      var count := words + WordCount(paragraphs[0]);
      if count <= PageWords {
        PackFromNonEmpty(paragraphs[1..], current + [paragraphs[0]], count);
      }
    }
  }

  /**
   * The pages of a paragraph list hold its paragraphs in order, there is one
   * at least when there are paragraphs, no page is empty, every page but the
   * last passed 500 words, and every page had at most 500 words before its
   * last paragraph was added.
   */
  lemma PackProperties(paragraphs: seq<String>)
    ensures Flatten(Pack(paragraphs)) == paragraphs
    ensures |paragraphs| > 0 ==> |Pack(paragraphs)| >= 1
    ensures forall i :: 0 <= i < |Pack(paragraphs)| ==>
      |Pack(paragraphs)[i]| > 0 && GroupWords(Pack(paragraphs)[i][..|Pack(paragraphs)[i]| - 1]) <= PageWords
    ensures forall i :: 0 <= i < |Pack(paragraphs)| - 1 ==> GroupWords(Pack(paragraphs)[i]) > PageWords
  {
    var r := Pack(paragraphs);
    PackFromPartition(paragraphs, [], 0);
    assert [] + paragraphs == paragraphs;
    PackFromSizes(paragraphs, [], 0);
    forall i | 0 <= i < |r|
      ensures |r[i]| > 0 && GroupWords(r[i][..|r[i]| - 1]) <= PageWords
      ensures i < |r| - 1 ==> GroupWords(r[i]) > PageWords
    {
      WellSizedAt(r, i);
    }
    if |paragraphs| > 0 {
      PackFromNonEmpty(paragraphs, [], 0);
    }
  }

  /** Joining each group and then the results is joining the concatenated groups, when no group is empty. */
  lemma {:induction false} JoinPagesFlatten(groups: seq<seq<String>>)
    requires forall i :: 0 <= i < |groups| ==> |groups[i]| > 0
    ensures Join(JoinPages(groups), ParagraphBreak) == Join(Flatten(groups), ParagraphBreak)
    decreases |groups|
  {
    if |groups| > 1 {
      var rest := groups[1..];
      JoinPagesFlatten(rest);
      assert JoinPages(groups)[1..] == JoinPages(rest);
      assert |Flatten(rest)| > 0 by {
        assert Flatten(rest) == rest[0] + Flatten(rest[1..]);
      }
      JoinAppend(groups[0], Flatten(rest), ParagraphBreak);
    } else if |groups| == 1 {
      assert JoinPages(groups) == [Join(groups[0], ParagraphBreak)];
      assert Flatten(groups) == groups[0] + Flatten(groups[1..]);
      assert groups[0] + Flatten(groups[1..]) == groups[0];
    }
  }

  /** The pages, joined again with blank lines, give back the document. */
  lemma PagesRebuildDocument(document: String)
    ensures Join(JoinPages(Pack(SplitOn(document, ParagraphBreak))), ParagraphBreak) == document
  {
    var paragraphs := SplitOn(document, ParagraphBreak);
    PackProperties(paragraphs);
    JoinPagesFlatten(Pack(paragraphs));
    JoinSplitOn(document, ParagraphBreak);
  }

  /** An empty document still has one paragraph, the empty one, and so exactly one empty page. */
  lemma EmptyDocumentHasOnePage()
    ensures JoinPages(Pack(SplitOn("", ParagraphBreak))) == [""]
  {
    assert SplitOn("", ParagraphBreak) == [""];
    assert WordCount("") == 0;
    assert [""][1..] == [] && [] + [""] == [""];
    assert PackFrom([""], [], 0) == PackFrom([], [""], 0);
  }

  /** The loop of `gist_memory` that packs the paragraphs into pages. */
  method Paginate(paragraphs: seq<String>) returns (pages: seq<String>)
    ensures pages == JoinPages(Pack(paragraphs))
  {
    pages := [];
    ghost var done: seq<seq<String>> := [];
    var currentPage: seq<String> := [];
    var currentWords: nat := 0;
    for i := 0 to |paragraphs|
      invariant pages == JoinPages(done)
      invariant done + PackFrom(paragraphs[i..], currentPage, currentWords) == Pack(paragraphs)
    {
      assert paragraphs[i..][1..] == paragraphs[i + 1..];
      currentWords := currentWords + WordCount(paragraphs[i]);
      currentPage := currentPage + [paragraphs[i]];
      if currentWords > PageWords {
        done := done + [currentPage];
        pages := pages + [Join(currentPage, ParagraphBreak)];
        currentPage := [];
        currentWords := 0;
      }
    }
    if currentPage != [] {
      done := done + [currentPage];
      pages := pages + [Join(currentPage, ParagraphBreak)];
    }
  }

  /** The prompt for one page: its first 500 characters followed by "...". */
  function Prompt(page: String): String
  {
    "Resuma este texto em 1-2 frases:\n\n" + page[..if |page| < 500 then |page| else 500] + "..."
  }

  /** A page's summary: the model's answer, or the fixed text when the call raised. */
  function Gist(outcome: Option<String>): String
  {
    if outcome.Some? then outcome.value else GistFailed
  }

  datatype GistResult = GistResult(totalPages: nat, pages: seq<String>, gists: seq<String>)

  /** The summary loop of `gist_memory`: one summary per page, in page order. */
  method Summarize(pages: seq<String>, complete: String -> Option<String>) returns (gists: seq<String>)
    ensures |gists| == |pages|
    ensures forall i :: 0 <= i < |pages| ==> gists[i] == Gist(complete(Prompt(pages[i])))
  {
    gists := [];
    for i := 0 to |pages|
      invariant |gists| == i
      invariant forall j :: 0 <= j < i ==> gists[j] == Gist(complete(Prompt(pages[j])))
    {
      gists := gists + [Gist(complete(Prompt(pages[i])))];
    }
  }

  /**
   * `gist_memory`: the document's pages with one summary each. There is
   * always at least one page, and the pages joined with blank lines are the
   * document.
   */
  method GistMemory(document: String, complete: String -> Option<String>) returns (r: GistResult)
    ensures r.pages == JoinPages(Pack(SplitOn(document, ParagraphBreak)))
    ensures r.totalPages == |r.pages| == |r.gists| && r.totalPages >= 1
    ensures forall i :: 0 <= i < |r.pages| ==> r.gists[i] == Gist(complete(Prompt(r.pages[i])))
    ensures Join(r.pages, ParagraphBreak) == document
  {
    var paragraphs := SplitOn(document, ParagraphBreak);
    var pages := Paginate(paragraphs);
    PackFromNonEmpty(paragraphs, [], 0);
    PagesRebuildDocument(document);
    var gists := Summarize(pages, complete);
    r := GistResult(|pages|, pages, gists);
  }

  /** What the HTTP request of `complete` produced: the answer's content, or the error it raised. */
  datatype Reply = Content(text: String) | Failure(message: String)

  class Service {
    const apiKey: String
    var hasClient: bool

    constructor (apiKey: String)
      ensures this.apiKey == apiKey && !hasClient
    {
      this.apiKey := apiKey;
      hasClient := false;
    }

    /** `initialize`: without an API key the client stays unset. */
    method Initialize()
      modifies this
      ensures hasClient == (old(hasClient) || apiKey != [])
    {
      if apiKey == [] {
        return;
      }
      hasClient := true;
    }

    /** `complete`: creates the client on first use; reports a missing key and any failure as text. */
    method Complete(prompt: String, reply: Reply) returns (text: String)
      modifies this
      ensures hasClient == (old(hasClient) || apiKey != [])
      ensures !hasClient ==> text == NotConfigured
      ensures hasClient && reply.Content? ==> text == reply.text
      ensures hasClient && reply.Failure? ==> text == "Error: " + reply.message
    {
      if !hasClient {
        Initialize();
      }
      if !hasClient {
        return NotConfigured;
      }
      match reply
      case Content(t) => text := t;
      case Failure(m) => text := "Error: " + m;
    }
  }
}
