/** The text stage driver (robots/text.js): fetch the article for the search
    term, sanitize it, split it into sentence records, keep the first
    `maximumSentences` of them, fetch keywords for each, then save.
    The article service, the sentence splitter and the keyword service are
    parameters: total functions standing for their answers in this run. */
module TextRobot {
  import opened Outcomes
  import opened Sanitize
  import opened ContentState

  /** The language sent to both external services. */
  const Language: string := "pt"

  /** The keyword count requested from the keyword service. The answer is
      not checked against it. */
  const KeywordLimit: nat := 2

  /** One keyword of the keyword service's answer, reduced to its `text`. */
  datatype KeywordHit = KeywordHit(text: string)

  /** The external requests of a run, in the order they are made. */
  datatype Request =
    | FetchArticle(articleName: string, lang: string)
    | AnalyzeKeywords(text: string, language: string, limit: nat)
    | SaveState(doc: Document)

  /** The article service: article name and language to article text. */
  type ArticleService = (string, string) -> Result<string>

  /** The sentence boundary splitter. */
  type SentenceSplitter = string -> seq<string>

  /** The keyword service: sentence text to its keyword list. */
  type KeywordService = string -> Result<seq<KeywordHit>>

  // ---------------------------------------------------------------------
  // Pure pieces
  // ---------------------------------------------------------------------

  /** `response.result.keywords.map((keyword) => keyword.text)` */
  function KeywordTexts(hits: seq<KeywordHit>): (texts: seq<string>)
    ensures |texts| == |hits|
    ensures forall i :: 0 <= i < |hits| ==> texts[i] == hits[i].text
    decreases |hits|
  {
    if hits == [] then [] else [hits[0].text] + KeywordTexts(hits[1..])
  }

  /** The request fetchWatsonAndReturnKeywords sends for one sentence. */
  function AnalyzeRequest(text: string): (r: Request)
    ensures r.AnalyzeKeywords? && r.text == text && r.language == "pt" && r.limit == 2
  {
    AnalyzeKeywords(text, Language, KeywordLimit)
  }

  /** fetchWatsonAndReturnKeywords: the keyword texts of the answer, in the
      answer's order and as many as it holds; a rejection passes through. */
  function FetchWatsonAndReturnKeywords(text: string, nlu: KeywordService): (r: Result<seq<string>>)
    ensures nlu(text).Err? ==> r == Err(nlu(text).error)
    ensures nlu(text).Ok? ==> r.Ok? && |r.value| == |nlu(text).value|
    ensures nlu(text).Ok? ==> forall i :: 0 <= i < |r.value| ==> r.value[i] == nlu(text).value[i].text
  {
    match nlu(text)
    case Err(e) => Err(e)
    case Ok(hits) => Ok(KeywordTexts(hits))
  }

  /** One fresh record per sentence of the splitter, in order. */
  function FreshSentences(parts: seq<string>): (r: seq<Sentence>)
    ensures |r| == |parts|
    ensures forall i :: 0 <= i < |r| ==> r[i].text == parts[i] && r[i].keywords == [] && r[i].images == []
  {
    seq(|parts|, i requires 0 <= i < |parts| => Sentence(parts[i], [], []))
  }

  function Min(a: int, b: int): int {
    if a <= b then a else b
  }

  /** `xs.slice(0, end)` for an integer `end`: a prefix of `xs`; a negative
      `end` counts from the back. */
  function SliceTo<T>(xs: seq<T>, end: int): (r: seq<T>)
    ensures |r| <= |xs| && r == xs[..|r|]
    ensures end >= 0 ==> |r| == Min(end, |xs|)
    ensures end < 0 ==> |r| == if |xs| + end > 0 then |xs| + end else 0
  {
    if end < 0 then (if |xs| + end > 0 then xs[..|xs| + end] else [])
    else if end < |xs| then xs[..end]
    else xs
  }

  /** What the keyword loop produces: its settlement, the sentence list it
      leaves behind and the keyword requests it made. */
  datatype KeywordPass = KeywordPass(outcome: Outcome, sentences: seq<Sentence>, requests: seq<Request>)

  /** The keyword loop as a function: one request per sentence, front to
      back; each answer overwrites that sentence's keywords; the first
      rejection stops the loop and leaves the rest untouched. */
  function AnalyzeAll(sentences: seq<Sentence>, nlu: KeywordService): (r: KeywordPass)
    ensures |r.sentences| == |sentences|
    ensures |r.requests| <= |sentences|
    ensures r.outcome.Pass? ==> |r.requests| == |sentences|
    ensures r.outcome.Fail? ==> r.requests != []
    decreases |sentences|
  {
    if sentences == [] then KeywordPass(Pass, [], [])
    else
      var request := AnalyzeRequest(sentences[0].text);
      match FetchWatsonAndReturnKeywords(sentences[0].text, nlu)
      case Err(e) => KeywordPass(Fail(e), sentences, [request])
      case Ok(keywords) =>
        var rest := AnalyzeAll(sentences[1..], nlu);
        KeywordPass(rest.outcome, [sentences[0].(keywords := keywords)] + rest.sentences, [request] + rest.requests)
  }

  /** The index of the first sentence the keyword service rejects, or the
      number of sentences when it rejects none. */
  function FirstRejected(sentences: seq<Sentence>, nlu: KeywordService): (f: nat)
    ensures f <= |sentences|
    ensures forall j :: 0 <= j < f ==> nlu(sentences[j].text).Ok?
    ensures f < |sentences| ==> nlu(sentences[f].text).Err?
    decreases |sentences|
  {
    if sentences == [] || nlu(sentences[0].text).Err? then 0
    else 1 + FirstRejected(sentences[1..], nlu)
  }

  /** The keyword loop keeps the number of sentences and every text and
      image list; every sentence before the first rejected one gets the
      keyword texts of its answer, and the others are left as they were. */
  lemma {:induction false} AnalyzeAllSentences(s: seq<Sentence>, nlu: KeywordService)
    ensures var p, f := AnalyzeAll(s, nlu).sentences, FirstRejected(s, nlu);
      && |p| == |s|
      && (forall i :: 0 <= i < |s| ==> p[i].text == s[i].text && p[i].images == s[i].images)
      && (forall i :: 0 <= i < f ==> p[i].keywords == KeywordTexts(nlu(s[i].text).value))
      && (forall i :: f <= i < |s| ==> p[i] == s[i])
    decreases |s|
  {
    if s != [] && nlu(s[0].text).Ok? {
      AnalyzeAllSentences(s[1..], nlu);
      AnalyzeAllHead(s, nlu);
      var rest, p := AnalyzeAll(s[1..], nlu).sentences, AnalyzeAll(s, nlu).sentences;
      var f := FirstRejected(s, nlu);
      forall i | 1 <= i < |s|
        ensures p[i] == rest[i - 1] && s[i] == s[1..][i - 1]
      {
      }
      forall i | 0 <= i < f
        ensures p[i].keywords == KeywordTexts(nlu(s[i].text).value)
      {
      }
      forall i | f <= i < |s|
        ensures p[i] == s[i]
      {
      }
    }
  }

  /** An answered first sentence gets its keyword texts, the loop goes on
      with the others, and the first rejection lies among the others. */
  lemma AnalyzeAllHead(s: seq<Sentence>, nlu: KeywordService)
    requires s != [] && nlu(s[0].text).Ok?
    ensures AnalyzeAll(s, nlu).sentences
         == [s[0].(keywords := KeywordTexts(nlu(s[0].text).value))] + AnalyzeAll(s[1..], nlu).sentences
    ensures FirstRejected(s, nlu) == 1 + FirstRejected(s[1..], nlu)
  {
  }

  /** The keyword loop succeeds exactly when no answer is a rejection, and
      otherwise fails with the first rejection's reason. */
  lemma {:induction false} AnalyzeAllOutcome(s: seq<Sentence>, nlu: KeywordService)
    ensures var f := FirstRejected(s, nlu);
      AnalyzeAll(s, nlu).outcome == if f == |s| then Pass else Fail(nlu(s[f].text).error)
    decreases |s|
  {
    if s != [] && nlu(s[0].text).Ok? {
      AnalyzeAllOutcome(s[1..], nlu);
      assert s[1..][FirstRejected(s[1..], nlu)..] == s[FirstRejected(s, nlu)..];
    }
  }

  /** The keyword loop asks about the sentences in order, from the first up
      to and including the first rejected one, and about nothing else. */
  lemma {:induction false} AnalyzeAllRequests(s: seq<Sentence>, nlu: KeywordService)
    ensures var p, f := AnalyzeAll(s, nlu).requests, FirstRejected(s, nlu);
      && |p| == (if f == |s| then f else f + 1)
      && (forall i :: 0 <= i < |p| ==> p[i] == AnalyzeRequest(s[i].text))
    decreases |s|
  {
    if s != [] && nlu(s[0].text).Ok? {
      AnalyzeAllRequests(s[1..], nlu);
      var rest := AnalyzeAll(s[1..], nlu).requests;
      var p := AnalyzeAll(s, nlu).requests;
      assert p == [AnalyzeRequest(s[0].text)] + rest;
      forall i | 1 <= i < |p|
        ensures p[i] == rest[i - 1] && s[i] == s[1..][i - 1]
      {
      }
    }
  }

  // ---------------------------------------------------------------------
  // The stages, on the live content object
  // ---------------------------------------------------------------------

  /** fetchContentFromWikipedia: ask for the article named by the search
      term, in Portuguese; on success store its text as the original. */
  method FetchContentFromWikipedia(c: Content, fetch: ArticleService) returns (outcome: Outcome, request: Request)
    modifies c`sourceContentOriginal
    ensures request == FetchArticle(c.searchTerm, Language)
    ensures fetch(c.searchTerm, Language).Ok? ==>
      outcome == Pass && c.sourceContentOriginal == fetch(c.searchTerm, Language).value
    ensures fetch(c.searchTerm, Language).Err? ==>
      outcome == Fail(fetch(c.searchTerm, Language).error) && c.sourceContentOriginal == old(c.sourceContentOriginal)
  {
    request := FetchArticle(c.searchTerm, Language);
    var response := fetch(c.searchTerm, Language);
    if response.Err? {
      return Fail(response.error), request;
    }
    c.sourceContentOriginal := response.value;
    outcome := Pass;
  }

  /** sanitizeContent */
  method SanitizeContent(c: Content)
    modifies c`sourceContentSanitized
    ensures c.sourceContentSanitized == SanitizeText(c.sourceContentOriginal)
  {
    var withoutBlankLinesAndMarkdown := RemoveBlankLinesAndMarkdown(c.sourceContentOriginal);
    var withoutDatesInParentheses := RemoveDatesInParentheses(withoutBlankLinesAndMarkdown);
    c.sourceContentSanitized := withoutDatesInParentheses;
  }

  /** breakContentIntoSentences: reset the list, then push one fresh record
      per sentence of the splitter, in order. */
  method BreakContentIntoSentences(c: Content, sbd: SentenceSplitter)
    modifies c`sentences
    ensures var parts := sbd(c.sourceContentSanitized);
      && |c.sentences| == |parts|
      && forall i :: 0 <= i < |parts| ==> c.sentences[i] == Sentence(parts[i], [], [])
    ensures c.sentences == FreshSentences(sbd(c.sourceContentSanitized))
  {
    c.sentences := [];
    var parts := sbd(c.sourceContentSanitized);
    var i := 0;
    while i < |parts|
      invariant 0 <= i <= |parts|
      invariant |c.sentences| == i
      invariant forall k :: 0 <= k < i ==> c.sentences[k] == Sentence(parts[k], [], [])
    {
      c.sentences := c.sentences + [Sentence(parts[i], [], [])];
      i := i + 1;
    }
  }

  /** limitMaximumSentences */
  method LimitMaximumSentences(c: Content)
    modifies c`sentences
    ensures c.sentences == SliceTo(old(c.sentences), c.maximumSentences)
  {
    c.sentences := SliceTo(c.sentences, c.maximumSentences);
  }

  /** One step of the keyword loop: when the answer for the sentence at `i`
      is not a rejection, the loop from `i` is that sentence with its keywords
      followed by the loop from `i + 1`. */
  lemma AnalyzeAllStep(s: seq<Sentence>, i: nat, nlu: KeywordService)
    requires i < |s| && nlu(s[i].text).Ok?
    ensures var here, next := AnalyzeAll(s[i..], nlu), AnalyzeAll(s[i + 1..], nlu);
      here == KeywordPass(next.outcome,
        [s[i].(keywords := KeywordTexts(nlu(s[i].text).value))] + next.sentences,
        [AnalyzeRequest(s[i].text)] + next.requests)
  {
    assert s[i..][0] == s[i];
    assert s[i..][1..] == s[i + 1..];
  }

  /** fetchKeywordsOfAllSentences: for each sentence in order, overwrite its
      keywords with the service's answer; the first rejection stops the loop. */
  method FetchKeywordsOfAllSentences(c: Content, nlu: KeywordService) returns (outcome: Outcome, requests: seq<Request>)
    modifies c`sentences
    ensures AnalyzeAll(old(c.sentences), nlu) == KeywordPass(outcome, c.sentences, requests)
  {
    ghost var s0 := c.sentences;
    ghost var whole := AnalyzeAll(s0, nlu);
    requests := [];
    var i := 0;
    assert s0[0..] == s0;
    while i < |c.sentences|
      invariant 0 <= i <= |c.sentences| == |s0|
      invariant c.sentences[i..] == s0[i..]
      invariant whole.outcome == AnalyzeAll(s0[i..], nlu).outcome
      invariant whole.sentences == c.sentences[..i] + AnalyzeAll(s0[i..], nlu).sentences
      invariant whole.requests == requests + AnalyzeAll(s0[i..], nlu).requests
    {
      var sentence := c.sentences[i];
      assert sentence == s0[i] by { assert c.sentences[i..][0] == s0[i..][0]; }
      requests := requests + [AnalyzeRequest(sentence.text)];
      var keywords := FetchWatsonAndReturnKeywords(sentence.text, nlu);
      if keywords.Err? {
        AnalyzeAllStop(s0, i, nlu);
        Rejoin(c.sentences, i);
        return Fail(keywords.error), requests;
      }
      AnalyzeAllStep(s0, i, nlu);
      ghost var next := AnalyzeAll(s0[i + 1..], nlu);
      var updated := sentence.(keywords := keywords.value);
      UpdateAt(c.sentences, i, updated, next.sentences);
      SameTail(c.sentences, s0, i);
      c.sentences := c.sentences[i := updated];
      i := i + 1;
    }
    assert c.sentences[..i] == c.sentences;
    outcome := Pass;
  }

  // ---------------------------------------------------------------------
  // The driver
  // ---------------------------------------------------------------------

  /** Where the service rejects the sentence at `i`, the loop from `i`
      stops at once with that rejection and leaves the sentences alone. */
  lemma AnalyzeAllStop(s: seq<Sentence>, i: nat, nlu: KeywordService)
    requires i < |s| && nlu(s[i].text).Err?
    ensures AnalyzeAll(s[i..], nlu) == KeywordPass(Fail(nlu(s[i].text).error), s[i..], [AnalyzeRequest(s[i].text)])
  {
    assert s[i..][0] == s[i];
  }

  lemma Rejoin(xs: seq<Sentence>, i: nat)
    requires i <= |xs|
    ensures xs[..i] + xs[i..] == xs
  {
  }

  lemma SameTail(xs: seq<Sentence>, ys: seq<Sentence>, i: nat)
    requires i < |xs| == |ys| && xs[i..] == ys[i..]
    ensures xs[i + 1..] == ys[i + 1..]
  {
    assert xs[i + 1..] == xs[i..][1..] && ys[i + 1..] == ys[i..][1..];
  }

  /** Overwriting the record at `i` extends the done part by that record
      and leaves the rest alone. */
  lemma UpdateAt(xs: seq<Sentence>, i: nat, updated: Sentence, tail: seq<Sentence>)
    requires i < |xs|
    ensures xs[i := updated][i + 1..] == xs[i + 1..]
    ensures xs[i := updated][..i + 1] + tail == xs[..i] + ([updated] + tail)
  {
    assert xs[i := updated][..i + 1] == xs[..i] + [updated];
  }

  /** The document after the fetch, sanitize, split and limit stages. */
  function PreparedDocument(doc: Document, article: string, sbd: SentenceSplitter): (r: Document)
    ensures r.searchTerm == doc.searchTerm && r.maximumSentences == doc.maximumSentences
    ensures r.sourceContentOriginal == article && r.sourceContentSanitized == SanitizeText(article)
    ensures r.sentences <= FreshSentences(sbd(SanitizeText(article)))
    ensures doc.maximumSentences >= 0 ==> |r.sentences| == Min(doc.maximumSentences, |sbd(SanitizeText(article))|)
  {
    var sanitized := SanitizeText(article);
    doc.(sourceContentOriginal := article,
         sourceContentSanitized := sanitized,
         sentences := SliceTo(FreshSentences(sbd(sanitized)), doc.maximumSentences))
  }

  /** How a run settles and the requests it makes, in order. */
  datatype TextRunResult = TextRunResult(outcome: Outcome, requests: seq<Request>)

  /** The run after a successful fetch: the keyword loop over the prepared
      document, then the save only when the loop passes. */
  function FinishRun(fetchRequest: Request, prepared: Document, nlu: KeywordService): (r: TextRunResult)
    ensures r.requests != [] && r.requests[0] == fetchRequest
    ensures r.outcome == AnalyzeAll(prepared.sentences, nlu).outcome
    ensures r.outcome.Pass? ==>
      r.requests[|r.requests| - 1] == SaveState(prepared.(sentences := AnalyzeAll(prepared.sentences, nlu).sentences))
  {
    var pass := AnalyzeAll(prepared.sentences, nlu);
    if pass.outcome.Fail? then TextRunResult(pass.outcome, [fetchRequest] + pass.requests)
    else TextRunResult(Pass, [fetchRequest] + pass.requests + [SaveState(prepared.(sentences := pass.sentences))])
  }

  /** The text stage as a function of the loaded document and the answers of
      the external services: fetch, sanitize, split, limit, keywords, save;
      the first rejection ends the run before the save. */
  function TextRun(doc: Document, fetch: ArticleService, sbd: SentenceSplitter, nlu: KeywordService): (r: TextRunResult)
    ensures r.requests != [] && r.requests[0] == FetchArticle(doc.searchTerm, Language)
    ensures fetch(doc.searchTerm, Language).Err? ==>
      r.outcome == Fail(fetch(doc.searchTerm, Language).error) && |r.requests| == 1
  {
    var fetchRequest := FetchArticle(doc.searchTerm, Language);
    match fetch(doc.searchTerm, Language)
    case Err(e) => TextRunResult(Fail(e), [fetchRequest])
    case Ok(article) => FinishRun(fetchRequest, PreparedDocument(doc, article, sbd), nlu)
  }

  /** The stages before the keyword loop leave the prepared document. */
  lemma PreparedByStages(stored: Document, article: string, sbd: SentenceSplitter, d: Document)
    requires d.searchTerm == stored.searchTerm && d.maximumSentences == stored.maximumSentences
    requires d.sourceContentOriginal == article && d.sourceContentSanitized == SanitizeText(article)
    requires d.sentences == SliceTo(FreshSentences(sbd(d.sourceContentSanitized)), d.maximumSentences)
    ensures d == PreparedDocument(stored, article, sbd)
  {
  }

  /** The rest of a run, given what the keyword loop produced. */
  lemma FinishRunAfter(fetchRequest: Request, prepared: Document, nlu: KeywordService,
                       outcome: Outcome, sentences: seq<Sentence>, requests: seq<Request>)
    requires AnalyzeAll(prepared.sentences, nlu) == KeywordPass(outcome, sentences, requests)
    ensures FinishRun(fetchRequest, prepared, nlu) ==
      if outcome.Fail? then TextRunResult(outcome, [fetchRequest] + requests)
      else TextRunResult(Pass, [fetchRequest] + requests + [SaveState(prepared.(sentences := sentences))])
  {
  }

  /** robot(): load the stored document, run the stages in their fixed order
      on the live object, and save it only when all of them succeed. */
  method Run(stored: Document, fetch: ArticleService, sbd: SentenceSplitter, nlu: KeywordService)
    returns (outcome: Outcome, requests: seq<Request>)
    ensures TextRun(stored, fetch, sbd, nlu) == TextRunResult(outcome, requests)
  {
    var content := new Content.Load(stored);
    var fetchRequest;
    outcome, fetchRequest := FetchContentFromWikipedia(content, fetch);
    requests := [fetchRequest];
    if outcome.Fail? {
      return;
    }
    SanitizeContent(content);
    BreakContentIntoSentences(content, sbd);
    LimitMaximumSentences(content);
    ghost var prepared := content.Snapshot();
    PreparedByStages(stored, fetch(stored.searchTerm, Language).value, sbd, prepared);
    var keywordRequests;
    outcome, keywordRequests := FetchKeywordsOfAllSentences(content, nlu);
    FinishRunAfter(fetchRequest, prepared, nlu, outcome, content.sentences, keywordRequests);
    requests := requests + keywordRequests;
    if outcome.Fail? {
      return;
    }
    requests := requests + [SaveState(content.Snapshot())];
  }

  // ---------------------------------------------------------------------
  // Properties of a run
  // ---------------------------------------------------------------------

  /** After the fetch, the save is the last request and happens exactly
      when no keyword request is rejected; otherwise the run fails with the
      first rejection's reason. */
  lemma FinishRunSavesOnlyOnSuccess(fetchRequest: Request, prepared: Document, nlu: KeywordService)
    requires !fetchRequest.SaveState?
    ensures var r, kept := FinishRun(fetchRequest, prepared, nlu), prepared.sentences;
      var f := FirstRejected(kept, nlu);
      && |r.requests| >= 1
      && r.requests[0] == fetchRequest
      && (r.outcome.Pass? <==> forall i :: 0 <= i < |kept| ==> nlu(kept[i].text).Ok?)
      && (r.outcome.Fail? ==> f < |kept| && r.outcome == Fail(nlu(kept[f].text).error))
      && (forall k :: 0 <= k < |r.requests| ==>
            (r.requests[k].SaveState? <==> r.outcome.Pass? && k == |r.requests| - 1))
  {
    var kept := prepared.sentences;
    AnalyzeAllOutcome(kept, nlu);
    AnalyzeAllRequests(kept, nlu);
    var pass := AnalyzeAll(kept, nlu);
    var f := FirstRejected(kept, nlu);
    var head := [fetchRequest] + pass.requests;
    assert forall k :: 0 <= k < |head| ==> !head[k].SaveState? by {
      forall k | 1 <= k < |head| ensures head[k] == pass.requests[k - 1] { }
    }
    if f < |kept| {
      assert !nlu(kept[f].text).Ok?;
    }
  }

  /** The save is the last request of a run and happens exactly when every
      stage succeeds: the article is fetched and no keyword request for the
      kept sentences is rejected. The first request is always the fetch. */
  lemma TextRunSavesOnlyOnSuccess(doc: Document, fetch: ArticleService, sbd: SentenceSplitter, nlu: KeywordService)
    ensures var r := TextRun(doc, fetch, sbd, nlu);
      && |r.requests| >= 1
      && r.requests[0] == FetchArticle(doc.searchTerm, Language)
      && (r.outcome.Pass? <==>
            && fetch(doc.searchTerm, Language).Ok?
            && var kept := PreparedDocument(doc, fetch(doc.searchTerm, Language).value, sbd).sentences;
               forall i :: 0 <= i < |kept| ==> nlu(kept[i].text).Ok?)
      && (forall k :: 0 <= k < |r.requests| ==>
            (r.requests[k].SaveState? <==> r.outcome.Pass? && k == |r.requests| - 1))
  {
    if fetch(doc.searchTerm, Language).Ok? {
      var prepared := PreparedDocument(doc, fetch(doc.searchTerm, Language).value, sbd);
      FinishRunSavesOnlyOnSuccess(FetchArticle(doc.searchTerm, Language), prepared, nlu);
    }
  }

  /** What a passing keyword loop hands to the save: the prepared document
      with each sentence carrying the keyword texts of its answer. */
  lemma FinishRunSavedDocument(fetchRequest: Request, prepared: Document, nlu: KeywordService)
    requires FinishRun(fetchRequest, prepared, nlu).outcome.Pass?
    ensures var r, kept := FinishRun(fetchRequest, prepared, nlu), prepared.sentences;
      var saved := r.requests[|r.requests| - 1];
      && saved.SaveState?
      && saved.doc.(sentences := kept) == prepared
      && |saved.doc.sentences| == |kept|
      && forall i :: 0 <= i < |kept| ==>
           && nlu(kept[i].text).Ok?
           && saved.doc.sentences[i] == kept[i].(keywords := KeywordTexts(nlu(kept[i].text).value))
  {
    var kept := prepared.sentences;
    AnalyzeAllOutcome(kept, nlu);
    AnalyzeAllSentences(kept, nlu);
  }

  /** What a successful run saves: the loaded document with the fetched
      article as the original, its sanitized form, and one record per
      sentence of the splitter, the first `maximumSentences` of them in
      order, each with the keyword texts of its answer and no images. */
  lemma TextRunSavedDocument(doc: Document, fetch: ArticleService, sbd: SentenceSplitter, nlu: KeywordService)
    requires TextRun(doc, fetch, sbd, nlu).outcome.Pass?
    requires doc.maximumSentences >= 0
    ensures fetch(doc.searchTerm, Language).Ok?
    ensures var r := TextRun(doc, fetch, sbd, nlu);
      var article := fetch(doc.searchTerm, Language).value;
      var parts := sbd(SanitizeText(article));
      var saved := r.requests[|r.requests| - 1];
      && saved.SaveState?
      && saved.doc.searchTerm == doc.searchTerm
      && saved.doc.maximumSentences == doc.maximumSentences
      && saved.doc.sourceContentOriginal == article
      && saved.doc.sourceContentSanitized == SanitizeText(article)
      && |saved.doc.sentences| == Min(doc.maximumSentences, |parts|)
      && forall i :: 0 <= i < |saved.doc.sentences| ==>
           && nlu(parts[i]).Ok?
           && saved.doc.sentences[i] == Sentence(parts[i], KeywordTexts(nlu(parts[i]).value), [])
  {
    var article := fetch(doc.searchTerm, Language).value;
    var prepared := PreparedDocument(doc, article, sbd);
    var kept := prepared.sentences;
    FinishRunSavedDocument(FetchArticle(doc.searchTerm, Language), prepared, nlu);
    var parts := sbd(SanitizeText(article));
    var records := FreshSentences(parts);
    assert |kept| == Min(doc.maximumSentences, |parts|);
    forall i | 0 <= i < |kept| ensures kept[i] == Sentence(parts[i], [], []) {
      assert kept[i] == records[i];
    }
  }

  /** After the fetch, the run asks for the keywords of the prepared
      sentences one by one, in sentence order, and of nothing else. */
  lemma FinishRunKeywordRequestsInOrder(fetchRequest: Request, prepared: Document, nlu: KeywordService)
    ensures var r, kept := FinishRun(fetchRequest, prepared, nlu), prepared.sentences;
      var asked := if r.outcome.Pass? then |r.requests| - 2 else |r.requests| - 1;
      && 0 <= asked <= |kept|
      && (r.outcome.Pass? ==> asked == |kept|)
      && forall k :: 0 <= k < asked ==> r.requests[k + 1] == AnalyzeRequest(kept[k].text)
  {
    var kept := prepared.sentences;
    AnalyzeAllOutcome(kept, nlu);
    AnalyzeAllRequests(kept, nlu);
  }

  /** Between the fetch and the save, a run asks for the keywords of the kept
      sentences one by one, in sentence order, and of nothing else. */
  lemma TextRunKeywordRequestsInOrder(doc: Document, fetch: ArticleService, sbd: SentenceSplitter, nlu: KeywordService)
    requires fetch(doc.searchTerm, Language).Ok?
    ensures var r := TextRun(doc, fetch, sbd, nlu);
      var kept := PreparedDocument(doc, fetch(doc.searchTerm, Language).value, sbd).sentences;
      var asked := if r.outcome.Pass? then |r.requests| - 2 else |r.requests| - 1;
      && 0 <= asked <= |kept|
      && (r.outcome.Pass? ==> asked == |kept|)
      && forall k :: 0 <= k < asked ==> r.requests[k + 1] == AnalyzeRequest(kept[k].text)
  {
    var prepared := PreparedDocument(doc, fetch(doc.searchTerm, Language).value, sbd);
    FinishRunKeywordRequestsInOrder(FetchArticle(doc.searchTerm, Language), prepared, nlu);
  }
}
