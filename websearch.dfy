/** The web-search answer pipeline: decompose the user's query into sub-queries, search
    each one, deduplicate the hits by link, scrape the first three, and ask the language
    model for an answer grounded in what was found.

    The three outside services are parameters: the language model (`Llm`), the search
    provider (`SearchProvider`) and the page fetch with its HTML-to-text extraction
    (`PageFetcher`). Each may fail, which the model writes as `None`. */
module WebSearch {
  import opened PyValues
  import opened PyStrings
  import opened Records
  import opened Lists

  /** `num_results` that `web_search_task` passes to each search. */
  const SearchLimit: nat := 2
  /** How many deduplicated results are scraped and sent to the model. */
  const TopK: nat := 3
  /** The longest text `scrape_content` returns. */
  const MaxContentLength: nat := 2000

  /** The two prompts the pipeline sends; their instruction wording is not modelled. */
  datatype Prompt =
    | DecomposePrompt(userQuery: string)
    | AnswerPrompt(userQuery: string, context: string)

  /** One call to an outside service, in the order the pipeline makes them. */
  datatype Call =
    | Complete(prompt: Prompt)                   // generate_response
    | TextSearch(query: string, maxResults: nat) // DDGS().text
    | Scrape(url: PyVal)                         // scrape_content

  /** `generate_response`: the model's text, or `None` when the call raised. */
  type Llm = Prompt -> Option<string>
  /** `DDGS().text(query, max_results=n)`: the provider's hits, or `None` when it raised. */
  type SearchProvider = (string, nat) -> Option<seq<Hit>>
  /** `requests.get` with `raise_for_status` and BeautifulSoup's
      `get_text(separator=' ', strip=True)` after dropping script and style:
      the page's text, or `None` when any of them raised. */
  type PageFetcher = string -> Option<string>

  // ---------------------------------------------------------------------------
  // decompose_query

  /** A reply line with nothing but whitespace, which the parser skips. */
  predicate IsBlank(line: string) {
    Strip(line, IsSpace) == []
  }

  /** `q.strip().strip('"')`: the line with its surrounding whitespace and then its
      surrounding double quotes removed, so it neither starts nor ends with `"`. */
  function CleanLine(line: string): (q: string)
    ensures q == [] || (q[0] != '"' && q[|q| - 1] != '"')
  {
    Strip(Strip(line, IsSpace), IsQuote)
  }

  /** What one reply line contributes: nothing when blank, else its cleaned text. */
  function LineQueries(line: string): seq<string> {
    if IsBlank(line) then [] else [CleanLine(line)]
  }

  /** The list comprehension over the reply's lines: blank lines dropped, the others
      cleaned, in line order. */
  function ParseLines(lines: seq<string>): seq<string> {
    ConcatMap(lines, LineQueries)
  }

  /** A line gives at most one sub-query: its cleaned text, and only when it is not blank. */
  lemma LineQueriesOfLine(line: string)
    ensures |LineQueries(line)| <= 1
    ensures LineQueries(line) != [] <==> !IsBlank(line)
    ensures forall j :: 0 <= j < |LineQueries(line)| ==> LineQueries(line)[j] == CleanLine(line)
  {
  }

  /** Each sub-query is the cleaned text of one non-blank line, so none starts or ends
      with a double quote. */
  lemma ParseLinesFromLines(lines: seq<string>)
    ensures var queries := ParseLines(lines);
            forall k :: 0 <= k < |queries| ==>
              && (exists i :: 0 <= i < |lines| && !IsBlank(lines[i]) && queries[k] == CleanLine(lines[i]))
              && (queries[k] == [] || (queries[k][0] != '"' && queries[k][|queries[k]| - 1] != '"'))
  {
    var queries := ParseLines(lines);
    forall k | 0 <= k < |queries|
      ensures exists i :: 0 <= i < |lines| && !IsBlank(lines[i]) && queries[k] == CleanLine(lines[i])
      ensures queries[k] == [] || (queries[k][0] != '"' && queries[k][|queries[k]| - 1] != '"')
    {
      ConcatMapMember(lines, LineQueries, k);
      var i, j :| 0 <= i < |lines| && 0 <= j < |LineQueries(lines[i])| && queries[k] == LineQueries(lines[i])[j];
      LineQueriesOfLine(lines[i]);
    }
  }

  /** The sub-queries read from a reply of the model. */
  function ParseReply(reply: string): seq<string> {
    ParseLines(Split(reply, '\n'))
  }

  /** `decompose_query` once the model has replied: the parsed lines, or the user's query
      alone when the call failed, the reply was empty, or no line survived. */
  function SubQueriesFrom(userQuery: string, reply: Option<string>): (queries: seq<string>)
    ensures |queries| >= 1
    ensures queries == if reply.Some? && ParseReply(reply.value) != [] then ParseReply(reply.value)
                       else [userQuery]
  {
    if reply.None? || reply.value == "" then [userQuery]
    else
      var queries := ParseReply(reply.value);
      if queries != [] then queries else [userQuery]
  }

  /** `decompose_query`: one model call, then the parsing above. */
  function DecomposeQuery(userQuery: string, llm: Llm): (queries: seq<string>)
    ensures |queries| >= 1
    ensures var reply := llm(DecomposePrompt(userQuery));
            queries == if reply.Some? && ParseReply(reply.value) != [] then ParseReply(reply.value)
                       else [userQuery]
  {
    SubQueriesFrom(userQuery, llm(DecomposePrompt(userQuery)))
  }

  /** A failed call and an empty reply both fall back to the user's query alone. */
  lemma NoReplyFallsBack(userQuery: string)
    ensures SubQueriesFrom(userQuery, None) == [userQuery]
    ensures SubQueriesFrom(userQuery, Some("")) == [userQuery]
  {
  }

  /** A reply of blank lines only also falls back to the user's query. */
  lemma BlankReplyFallsBack(userQuery: string, reply: string)
    requires forall i :: 0 <= i < |Split(reply, '\n')| ==> IsBlank(Split(reply, '\n')[i])
    ensures SubQueriesFrom(userQuery, Some(reply)) == [userQuery]
  {
    var lines := Split(reply, '\n');
    if ParseLines(lines) != [] {
      ConcatMapMember(lines, LineQueries, 0);
    }
  }

  /** The sub-queries of two blocks of lines joined by a line break are those of the
      first block followed by those of the second. */
  lemma ParseReplyAppend(a: string, b: string)
    ensures ParseReply(a + "\n" + b) == ParseReply(a) + ParseReply(b)
  {
    SplitAppend(a, b, '\n');
    ConcatMapAppend(Split(a, '\n'), Split(b, '\n'), LineQueries);
  }

  /** A single line gives no sub-query when blank and its cleaned text otherwise. */
  lemma ParseReplyLine(line: string)
    requires '\n' !in line
    ensures ParseReply(line) == if IsBlank(line) then [] else [CleanLine(line)]
  {
    SplitWithout(line, '\n');
    assert [line][..0] == [];
    assert ParseLines([line]) == ParseLines([]) + LineQueries(line);
  }

  /** Sub-queries may be empty: a line holding only `""` gives the sub-query "". */
  lemma QuotesOnlyLineGivesEmptyQuery(userQuery: string)
    ensures SubQueriesFrom(userQuery, Some("\"\"")) == [""]
  {
    ParseReplyLine("\"\"");
    assert !IsBlank("\"\"");
    assert Strip("\"\"", IsSpace) == "\"\"" by { StripFixes("\"\"", IsSpace); }
    assert TrimStart("\"\"", IsQuote) == "";
  }

  // ---------------------------------------------------------------------------
  // perform_search

  /** The records `perform_search` returns for one provider reply. */
  function SearchResults(reply: Option<seq<Hit>>): (rs: seq<Record>)
    ensures forall j :: 0 <= j < |rs| ==> rs[j].Keys == SearchKeys
  {
    match reply
    case None => []
    case Some(hits) => seq(|hits|, i requires 0 <= i < |hits| => HitToRecord(hits[i]))
  }

  /** `perform_search`: one record per provider hit, in provider order, `[]` when the
      provider raised. */
  method PerformSearch(query: string, numResults: nat, provider: SearchProvider)
    returns (results: seq<Record>)
    ensures provider(query, numResults).None? ==> results == []
    ensures provider(query, numResults).Some? ==>
              var hits := provider(query, numResults).value;
              && |results| == |hits|
              && forall i :: 0 <= i < |hits| ==>
                   && results[i].Keys == SearchKeys
                   && results[i][TitleKey] == Get(hits[i], "title")
                   && results[i][LinkKey] == Get(hits[i], "href")
                   && results[i][DescriptionKey] == Get(hits[i], "body")
    ensures results == SearchResults(provider(query, numResults))
  {
    match provider(query, numResults)
    case None =>
      results := [];
    case Some(hits) =>
      results := [];
      for i := 0 to |hits|
        invariant |results| == i
        invariant forall k :: 0 <= k < i ==> results[k] == HitToRecord(hits[k])
      {
        results := results + [map[TitleKey := Get(hits[i], "title"),
                                  LinkKey := Get(hits[i], "href"),
                                  DescriptionKey := Get(hits[i], "body")]];
      }
  }

  // ---------------------------------------------------------------------------
  // scrape_content

  /** `scrape_content`: the page text with its whitespace collapsed, cut to 2000
      characters; "" when the link is `None` (requests refuses it) or the fetch failed. */
  function ScrapeContent(url: PyVal, fetch: PageFetcher): (text: string)
    ensures |text| <= MaxContentLength
    ensures (url.PyNone? || fetch(url.s).None?) ==> text == ""
    ensures url.PyStr? && fetch(url.s).Some? ==>
              var cleaned := Collapse(fetch(url.s).value);
              && text <= cleaned
              && |text| == Min(|cleaned|, MaxContentLength)
    ensures NoLeadingSpace(text) && OnlyPlainSpaces(text) && NoDoubleSpace(text)
  {
    match url
    case PyNone => ""
    case PyStr(u) =>
      match fetch(u)
      case None => ""
      case Some(page) =>
        CanonicalPrefix(Collapse(page), MaxContentLength);
        Take(Collapse(page), MaxContentLength)
  }

  // ---------------------------------------------------------------------------
  // get_relevant_answer

  /** `res.get('title', 'Unknown')` as the f-string writes it. */
  function ShownTitle(r: Record): string {
    Format(GetOr(r, TitleKey, PyStr("Unknown")))
  }

  /** `res.get('description', '')` as the f-string writes it. */
  function ShownDescription(r: Record): string {
    Format(GetOr(r, DescriptionKey, PyStr("")))
  }

  /** The `Source:` line of a block, without its line break. */
  function SourceLine(r: Record): string
    requires LinkKey in r
  {
    "Source: " + ShownTitle(r) + " (" + Format(Link(r)) + ")"
  }

  /** The `Description:` line of a block, without its line break. */
  function DescriptionLine(r: Record): string {
    "Description: " + ShownDescription(r)
  }

  /** The `Content:` line of a record that has a `content` key, without its line break. */
  function ContentLine(r: Record): string
    requires ContentKey in r
  {
    "Content: " + Format(r[ContentKey])
  }

  /** The lines the third f-string contributes: one when the record has a `content` key,
      none otherwise. */
  function ContentLines(r: Record): seq<string> {
    if ContentKey in r then [ContentLine(r)] else []
  }

  /** The first f-string of the loop: the `Source:` line with its line break. */
  function SourceEntry(r: Record): string
    requires LinkKey in r
  {
    SourceLine(r) + "\n"
  }

  /** The second f-string: the `Description:` line with its line break. */
  function DescriptionEntry(r: Record): string {
    DescriptionLine(r) + "\n"
  }

  /** The third f-string, appended only when the record has a `content` key. */
  function ContentEntry(r: Record): string {
    if ContentKey in r then ContentLine(r) + "\n" else ""
  }

  /** What one pass of the loop in `get_relevant_answer` appends to the context: it opens
      with the `Source:` line and closes with the `---` separator line. */
  function Block(r: Record): (b: string)
    requires LinkKey in r
    ensures |b| >= 12 && b[..8] == "Source: " && b[|b| - 4..] == "---\n"
  {
    var b := SourceEntry(r) + DescriptionEntry(r) + ContentEntry(r) + "---\n";
    assert b[..8] == SourceEntry(r)[..8];
    b
  }

  /** A record built from a provider hit always has a `title` key, so its block shows the
      hit's title, or "None" when the hit had none, and never "Unknown". */
  lemma HitTitleShown(h: Hit)
    ensures ShownTitle(HitToRecord(h)) == if "title" in h then Format(h["title"]) else "None"
  {
  }

  /** The context after the loop has gone over all of `rs`: empty exactly when there are
      no results, and otherwise closed by the `---` separator of the last block. */
  function Context(rs: seq<Record>): (c: string)
    requires Linked(rs)
    ensures c == [] <==> rs == []
    ensures rs != [] ==> |c| >= 4 && c[|c| - 4..] == "---\n"
  {
    var c := ConcatMap(rs, Block);
    if rs == [] then c
    else
      var head, b := ConcatMap(rs[..|rs| - 1], Block), Block(rs[|rs| - 1]);
      assert c == head + b;
      assert c[|c| - 4..] == b[|b| - 4..];
      c
  }

  /** `get_relevant_answer`: builds the context block by block, then makes exactly one
      model call with it, whatever the number of results. */
  method GetRelevantAnswer(userQuery: string, searchResults: seq<Record>, llm: Llm)
    returns (answer: Option<string>, prompt: Prompt)
    requires Linked(searchResults)
    ensures prompt == AnswerPrompt(userQuery, Context(searchResults))
    ensures answer == llm(prompt)
  {
    var context := "";
    for i := 0 to |searchResults|
      invariant context == Context(searchResults[..i])
    {
      var res := searchResults[i];
      ghost var before := context;
      assert searchResults[..i + 1][..i] == searchResults[..i];
      assert Context(searchResults[..i + 1]) == before + Block(res);
      context := context + ("Source: " + Format(GetOr(res, TitleKey, PyStr("Unknown")))
                            + " (" + Format(res[LinkKey]) + ")\n");
      assert context == before + SourceEntry(res);
      context := context + ("Description: " + Format(GetOr(res, DescriptionKey, PyStr(""))) + "\n");
      assert context == before + SourceEntry(res) + DescriptionEntry(res);
      if ContentKey in res {
        context := context + ("Content: " + Format(res[ContentKey]) + "\n");
      }
      assert context == before + SourceEntry(res) + DescriptionEntry(res) + ContentEntry(res);
      context := context + "---\n";
      AppendPieces(before, SourceEntry(res), DescriptionEntry(res), ContentEntry(res), "---\n");
    }
    assert searchResults[..|searchResults|] == searchResults;
    prompt := AnswerPrompt(userQuery, context);
    answer := llm(prompt);
  }

  /** The context of two lists of results is the context of the first followed by that
      of the second: one block per result, in input order. */
  lemma ContextAppend(a: seq<Record>, b: seq<Record>)
    requires Linked(a) && Linked(b)
    ensures Linked(a + b) && Context(a + b) == Context(a) + Context(b)
  {
    ConcatMapAppend(a, b, Block);
  }

  /** Read back line by line, a block gives the `Source:` line, the `Description:` line,
      a `Content:` line exactly when the record has a `content` key, and the `---`
      separator, provided no field holds a line break. */
  lemma BlockLines(r: Record)
    requires LinkKey in r
    requires '\n' !in ShownTitle(r) && '\n' !in Format(Link(r)) && '\n' !in ShownDescription(r)
    requires ContentKey in r ==> '\n' !in Format(r[ContentKey])
    ensures |Split(Block(r), '\n')| == if ContentKey in r then 5 else 4
    ensures var third := Split(Block(r), '\n')[2];
            ContentKey in r <==> (|third| >= 9 && third[..9] == "Content: ")
  {
    BlockSplit(r);
    var lines := Split(Block(r), '\n');
    if ContentKey in r {
      assert lines[2] == "Content: " + Format(r[ContentKey]);
    } else {
      assert lines[2] == "---";
    }
  }

  /** The lines of a block, provided no field holds a line break. */
  lemma BlockSplit(r: Record)
    requires LinkKey in r
    requires '\n' !in ShownTitle(r) && '\n' !in Format(Link(r)) && '\n' !in ShownDescription(r)
    requires ContentKey in r ==> '\n' !in Format(r[ContentKey])
    ensures Split(Block(r), '\n') == [SourceLine(r), DescriptionLine(r)] + ContentLines(r) + ["---", ""]
  {
    var src, desc, rest := SourceLine(r), DescriptionLine(r), ContentEntry(r) + "---\n";
    BlockShape(r);
    assert '\n' !in src;
    assert '\n' !in desc;
    TailSplit(r);
    SplitFirst(desc, rest, '\n');
    SplitFirst(src, desc + "\n" + rest, '\n');
  }

  /** A block is the `Source:` line, a line break, the `Description:` line, a line break,
      then the optional `Content:` entry and the separator. */
  lemma BlockShape(r: Record)
    requires LinkKey in r
    ensures Block(r) == SourceLine(r) + "\n" + (DescriptionLine(r) + "\n" + (ContentEntry(r) + "---\n"))
  {
    var src, desc := SourceLine(r), DescriptionLine(r);
    assert SourceEntry(r) == src + "\n";
    assert DescriptionEntry(r) == desc + "\n";
    var x, y, z, w := src + "\n", desc + "\n", ContentEntry(r), "---\n";
    assert x + y + z + w == x + (y + (z + w));
  }

  /** The end of a block splits into the optional `Content:` line, the separator and
      the empty piece after the last line break. */
  lemma TailSplit(r: Record)
    requires ContentKey in r ==> '\n' !in Format(r[ContentKey])
    ensures Split(ContentEntry(r) + "---\n", '\n') == ContentLines(r) + ["---", ""]
  {
    var sep := "---\n";
    assert sep == "---" + ['\n'] + "";
    SplitFirst("---", "", '\n');
    if ContentKey in r {
      var c := "Content: " + Format(r[ContentKey]);
      assert '\n' !in c;
      assert ContentEntry(r) + sep == c + ['\n'] + sep;
      SplitFirst(c, sep, '\n');
    } else {
      assert ContentEntry(r) + sep == sep;
    }
  }

  // ---------------------------------------------------------------------------
  // web_search_task

  /** The results of one search of at most two results, as `perform_search` gives them. */
  function Searcher(provider: SearchProvider): string -> seq<Record> {
    q => SearchResults(provider(q, SearchLimit))
  }

  predicate HasSearchKeys(r: Record) {
    r.Keys == SearchKeys
  }

  /** All results of searching each sub-query in turn, concatenated in sub-query order;
      each is a record built by `perform_search`, with a `link` key. */
  function Fanout(subQueries: seq<string>, provider: SearchProvider): (rs: seq<Record>)
    ensures Linked(rs)
    ensures forall i :: 0 <= i < |rs| ==> rs[i].Keys == SearchKeys
  {
    assert forall i :: 0 <= i < |subQueries| ==>
             Searcher(provider)(subQueries[i]) == SearchResults(provider(subQueries[i], SearchLimit));
    ConcatMapAll(subQueries, Searcher(provider), HasSearchKeys);
    ConcatMap(subQueries, Searcher(provider))
  }

  /** Searching two lists of sub-queries one after the other gives the results of the
      first followed by those of the second. */
  lemma FanoutAppend(a: seq<string>, b: seq<string>, provider: SearchProvider)
    ensures Fanout(a + b, provider) == Fanout(a, provider) + Fanout(b, provider)
  {
    ConcatMapAppend(a, b, Searcher(provider));
  }

  /** `unique_results[:3]`. */
  function Select(unique: seq<Record>): (selected: seq<Record>)
    ensures |selected| == Min(TopK, |unique|)
    ensures forall j :: 0 <= j < |selected| ==> selected[j] == unique[j]
  {
    if |unique| <= TopK then unique else unique[..TopK]
  }

  /** `res['content'] = scrape_content(res['link'])`: the record gains or replaces its
      `content` key, which holds at most 2000 characters, and keeps every other key. */
  function WithContent(r: Record, fetch: PageFetcher): (updated: Record)
    requires LinkKey in r
    ensures updated.Keys == r.Keys + {ContentKey}
    ensures forall k :: k in r && k != ContentKey ==> updated[k] == r[k]
    ensures updated[ContentKey].PyStr? && |updated[ContentKey].s| <= MaxContentLength
  {
    r[ContentKey := PyStr(ScrapeContent(Link(r), fetch))]
  }

  /** The selected results, each with its scraped content attached: one record per
      selected result, in order, with the same link and a `content` key. */
  function Enrich(selected: seq<Record>, fetch: PageFetcher): (enriched: seq<Record>)
    requires Linked(selected)
    ensures |enriched| == |selected| && Linked(enriched)
    ensures forall i :: 0 <= i < |enriched| ==>
              LinkKey in enriched[i] && Link(enriched[i]) == Link(selected[i]) && ContentKey in enriched[i]
  {
    seq(|selected|, i requires 0 <= i < |selected| => WithContent(selected[i], fetch))
  }

  function SearchCalls(subQueries: seq<string>): seq<Call> {
    seq(|subQueries|, i requires 0 <= i < |subQueries| => TextSearch(subQueries[i], SearchLimit))
  }

  function ScrapeCalls(selected: seq<Record>): seq<Call>
    requires Linked(selected)
  {
    seq(|selected|, i requires 0 <= i < |selected| => Scrape(Link(selected[i])))
  }

  /** One more pass of the search loop: the next sub-query's results are appended and
      one more search is made. */
  lemma FanoutStep(subQueries: seq<string>, i: nat, provider: SearchProvider)
    requires i < |subQueries|
    ensures Fanout(subQueries[..i + 1], provider)
            == Fanout(subQueries[..i], provider) + SearchResults(provider(subQueries[i], SearchLimit))
    ensures SearchCalls(subQueries[..i + 1]) == SearchCalls(subQueries[..i]) + [TextSearch(subQueries[i], SearchLimit)]
  {
    assert subQueries[..i + 1][..i] == subQueries[..i];
  }

  /** One more pass of the scraping loop: one more scrape, one more enriched record. */
  lemma EnrichStep(selected: seq<Record>, i: nat, fetch: PageFetcher)
    requires Linked(selected) && i < |selected|
    ensures Linked(selected[..i]) && Linked(selected[..i + 1])
    ensures Enrich(selected[..i + 1], fetch) == Enrich(selected[..i], fetch) + [WithContent(selected[i], fetch)]
    ensures ScrapeCalls(selected[..i + 1]) == ScrapeCalls(selected[..i]) + [Scrape(Link(selected[i]))]
  {
  }

  /** Everything one run of `web_search_task` computes, stage by stage. */
  datatype Run = Run(
    subQueries: seq<string>,
    allResults: seq<Record>,
    uniqueResults: seq<Record>,
    finalResults: seq<Record>,
    answer: Option<string>,
    calls: seq<Call>)

  /** The run of the pipeline on one user query with the given services: at least one
      sub-query, no more unique results than results, at most three final results, and
      one outside call per sub-query and per final result besides the two model calls. */
  function Pipeline(userQuery: string, llm: Llm, provider: SearchProvider, fetch: PageFetcher): (run: Run)
    ensures |run.subQueries| >= 1
    ensures |run.uniqueResults| <= |run.allResults|
    ensures |run.finalResults| == Min(TopK, |run.uniqueResults|)
    ensures |run.calls| == |run.subQueries| + |run.finalResults| + 2
  {
    var subQueries := DecomposeQuery(userQuery, llm);
    var all := Fanout(subQueries, provider);
    var unique := Dedup(all);
    var selected := Select(unique);
    var final := Enrich(selected, fetch);
    var context := Context(final);
    Run(subQueries, all, unique, final, llm(AnswerPrompt(userQuery, context)),
        Trace(userQuery, subQueries, selected, context))
  }

  /** The outside calls of a run, in order. */
  function Trace(userQuery: string, subQueries: seq<string>, selected: seq<Record>, context: string): seq<Call>
    requires Linked(selected)
  {
    [Complete(DecomposePrompt(userQuery))] + SearchCalls(subQueries)
    + ScrapeCalls(selected) + [Complete(AnswerPrompt(userQuery, context))]
  }

  /** The shape of a trace: the decomposing call, the searches in sub-query order, the
      scrapes in result order, and the answering call; only the first and the last are
      model calls. */
  lemma TraceShape(userQuery: string, subQueries: seq<string>, selected: seq<Record>, context: string)
    requires Linked(selected)
    ensures var calls, n, m := Trace(userQuery, subQueries, selected, context), |subQueries|, |selected|;
            && |calls| == n + m + 2
            && calls[0] == Complete(DecomposePrompt(userQuery))
            && (forall i :: 0 <= i < n ==> calls[1 + i] == TextSearch(subQueries[i], SearchLimit))
            && (forall j :: 0 <= j < m ==> calls[1 + n + j] == Scrape(Link(selected[j])))
            && calls[n + m + 1] == Complete(AnswerPrompt(userQuery, context))
            && (forall k :: 0 < k < n + m + 1 ==> !calls[k].Complete?)
  {
  }

  /** The outside calls of a run begin with one model call to decompose, then one
      search of at most two results per sub-query, in sub-query order. */
  lemma PipelineSearches(userQuery: string, llm: Llm, provider: SearchProvider, fetch: PageFetcher)
    ensures var run := Pipeline(userQuery, llm, provider, fetch);
            var n := |run.subQueries|;
            && |run.calls| == n + |run.finalResults| + 2
            && run.calls[0] == Complete(DecomposePrompt(userQuery))
            && (forall i :: 0 <= i < n ==> run.calls[1 + i] == TextSearch(run.subQueries[i], SearchLimit))
  {
    var run := Pipeline(userQuery, llm, provider, fetch);
    TraceShape(userQuery, run.subQueries, Select(run.uniqueResults), Context(run.finalResults));
  }

  /** The scrapes of a trace are those of the links of the first deduplicated results,
      in their order. */
  lemma TraceScrapes(userQuery: string, subQueries: seq<string>, unique: seq<Record>, context: string)
    requires Linked(unique)
    ensures var selected := Select(unique);
            var calls, n := Trace(userQuery, subQueries, selected, context), |subQueries|;
            && |selected| <= |unique| && 1 + n + |selected| < |calls|
            && forall j :: 0 <= j < |selected| ==> calls[1 + n + j] == Scrape(Link(unique[j]))
  {
    var selected := Select(unique);
    TraceShape(userQuery, subQueries, selected, context);
    assert forall j :: 0 <= j < |selected| ==> selected[j] == unique[j];
  }

  /** After the searches come the scrapes, one per final result, of the links of the
      first deduplicated results in their order. */
  lemma PipelineScrapes(userQuery: string, llm: Llm, provider: SearchProvider, fetch: PageFetcher)
    ensures var run := Pipeline(userQuery, llm, provider, fetch);
            var n, m := |run.subQueries|, |run.finalResults|;
            && Linked(run.uniqueResults)
            && m <= |run.uniqueResults| && 1 + n + m < |run.calls|
            && (forall j :: 0 <= j < m ==> run.calls[1 + n + j] == Scrape(Link(run.uniqueResults[j])))
  {
    var run := Pipeline(userQuery, llm, provider, fetch);
    var selected := Select(run.uniqueResults);
    var context := Context(run.finalResults);
    assert run.calls == Trace(userQuery, run.subQueries, selected, context);
    assert |run.finalResults| == |selected|;
    TraceScrapes(userQuery, run.subQueries, run.uniqueResults, context);
  }

  /** The model is called exactly twice, first and last; the last call, made even when
      nothing was found, carries the context of the enriched results, and its reply is
      the answer. */
  lemma PipelineAnswer(userQuery: string, llm: Llm, provider: SearchProvider, fetch: PageFetcher)
    ensures var run := Pipeline(userQuery, llm, provider, fetch);
            var last := |run.calls| - 1;
            && Linked(run.finalResults)
            && |run.calls| >= 3
            && run.calls[0].Complete? && run.calls[last].Complete?
            && (forall k :: 0 < k < last ==> !run.calls[k].Complete?)
            && run.calls[last] == Complete(AnswerPrompt(userQuery, Context(run.finalResults)))
            && run.answer == llm(AnswerPrompt(userQuery, Context(run.finalResults)))
  {
    var run := Pipeline(userQuery, llm, provider, fetch);
    TraceShape(userQuery, run.subQueries, Select(run.uniqueResults), Context(run.finalResults));
  }

  /** Scraping the selection: `min(3, n)` records, in order, each one unchanged but for
      the scraped text of its link under `content`; distinct links stay distinct. */
  lemma EnrichSelection(unique: seq<Record>, fetch: PageFetcher)
    requires Linked(unique) && DistinctLinks(unique)
    requires forall j :: 0 <= j < |unique| ==> unique[j].Keys == SearchKeys
    ensures var final := Enrich(Select(unique), fetch);
            && Linked(final)
            && |final| == Min(TopK, |unique|)
            && (forall j :: 0 <= j < |final| ==>
                  final[j] == unique[j][ContentKey := PyStr(ScrapeContent(Link(unique[j]), fetch))])
            && (forall j :: 0 <= j < |final| ==>
                  final[j].Keys == SearchKeys + {ContentKey}
                  && |Format(final[j][ContentKey])| <= MaxContentLength)
            && DistinctLinks(final)
  {
    var selected := Select(unique);
    var final := Enrich(selected, fetch);
    assert forall j :: 0 <= j < |selected| ==> selected[j] == unique[j];
    assert forall j :: 0 <= j < |final| ==> Link(final[j]) == Link(unique[j]);
  }

  /** The deduplicated records of a run carry every link found, no link twice, and
      keep the order of the search. */
  lemma PipelineUnique(userQuery: string, llm: Llm, provider: SearchProvider, fetch: PageFetcher)
    ensures var run := Pipeline(userQuery, llm, provider, fetch);
            && |run.subQueries| >= 1
            && Linked(run.allResults) && Linked(run.uniqueResults)
            && Links(run.uniqueResults) == Links(run.allResults)
            && DistinctLinks(run.uniqueResults)
            && IsSubsequence(run.uniqueResults, run.allResults)
  {
    var run := Pipeline(userQuery, llm, provider, fetch);
    DedupLinks(run.allResults);
    DedupSubsequence(run.allResults);
    DedupDistinct(run.allResults);
  }

  /** The final records of a run are the first `min(3, n)` deduplicated ones with their
      scraped text attached, and no two share a link. */
  lemma PipelineFinal(userQuery: string, llm: Llm, provider: SearchProvider, fetch: PageFetcher)
    ensures var run := Pipeline(userQuery, llm, provider, fetch);
            var unique, final := run.uniqueResults, run.finalResults;
            && Linked(unique) && Linked(final)
            && |final| == Min(TopK, |unique|)
            && (forall j :: 0 <= j < |final| ==>
                  final[j] == unique[j][ContentKey := PyStr(ScrapeContent(Link(unique[j]), fetch))])
            && (forall j :: 0 <= j < |final| ==>
                  final[j].Keys == SearchKeys + {ContentKey}
                  && |Format(final[j][ContentKey])| <= MaxContentLength)
            && DistinctLinks(final)
  {
    var run := Pipeline(userQuery, llm, provider, fetch);
    var all := run.allResults;
    assert run.uniqueResults == Dedup(all);
    assert run.finalResults == Enrich(Select(Dedup(all)), fetch);
    DedupSelection(all, fetch);
  }

  /** Deduplicating the results found and scraping the first three gives the first
      `min(3, n)` unique records with their scraped text, and no two share a link. */
  lemma DedupSelection(all: seq<Record>, fetch: PageFetcher)
    requires Linked(all)
    requires forall i :: 0 <= i < |all| ==> all[i].Keys == SearchKeys
    ensures var unique := Dedup(all);
            var final := Enrich(Select(unique), fetch);
            && Linked(final)
            && |final| == Min(TopK, |unique|)
            && (forall j :: 0 <= j < |final| ==>
                  final[j] == unique[j][ContentKey := PyStr(ScrapeContent(Link(unique[j]), fetch))])
            && (forall j :: 0 <= j < |final| ==>
                  final[j].Keys == SearchKeys + {ContentKey}
                  && |Format(final[j][ContentKey])| <= MaxContentLength)
            && DistinctLinks(final)
  {
    DedupDistinct(all);
    DedupMember(all);
    EnrichSelection(Dedup(all), fetch);
  }

  /** With no search results at all, nothing is scraped and the model is still asked,
      once, with an empty context. */
  lemma NothingFoundStillAsks(userQuery: string, llm: Llm, provider: SearchProvider, fetch: PageFetcher)
    requires Pipeline(userQuery, llm, provider, fetch).allResults == []
    ensures var run := Pipeline(userQuery, llm, provider, fetch);
            && run.finalResults == []
            && run.calls == [Complete(DecomposePrompt(userQuery))] + SearchCalls(run.subQueries)
                            + [Complete(AnswerPrompt(userQuery, ""))]
            && run.answer == llm(AnswerPrompt(userQuery, ""))
  {
    var run := Pipeline(userQuery, llm, provider, fetch);
    assert Dedup(run.allResults) == [];
    assert Context([]) == "";
  }

  /** When the decomposing call fails, the user's query is searched as it is. */
  lemma DecomposeFailureSearchesQuery(userQuery: string, llm: Llm, provider: SearchProvider, fetch: PageFetcher)
    requires llm(DecomposePrompt(userQuery)).None?
    ensures var run := Pipeline(userQuery, llm, provider, fetch);
            && run.subQueries == [userQuery]
            && run.calls[1] == TextSearch(userQuery, SearchLimit)
            && run.allResults == SearchResults(provider(userQuery, SearchLimit))
  {
    var run := Pipeline(userQuery, llm, provider, fetch);
    assert [userQuery][..0] == [];
    assert Fanout([userQuery], provider) == Fanout([], provider) + SearchResults(provider(userQuery, SearchLimit));
  }

  /** Step 2 of `web_search_task`: one search of at most two results per sub-query, in
      sub-query order, all results kept in one list. */
  method SearchAll(subQueries: seq<string>, provider: SearchProvider)
    returns (allResults: seq<Record>, searches: seq<Call>)
    ensures allResults == Fanout(subQueries, provider)
    ensures searches == SearchCalls(subQueries)
  {
    allResults, searches := [], [];
    for i := 0 to |subQueries|
      invariant allResults == Fanout(subQueries[..i], provider)
      invariant searches == SearchCalls(subQueries[..i])
    {
      FanoutStep(subQueries, i, provider);
      var results := PerformSearch(subQueries[i], SearchLimit, provider);
      searches := searches + [TextSearch(subQueries[i], SearchLimit)];
      allResults := allResults + results;
    }
    assert subQueries[..|subQueries|] == subQueries;
  }

  /** The deduplication loop of `web_search_task`: a set of seen links, and a record kept
      exactly when its link is not yet in the set. */
  method DedupByLink(allResults: seq<Record>) returns (uniqueResults: seq<Record>)
    requires Linked(allResults)
    ensures uniqueResults == Dedup(allResults)
    ensures Linked(uniqueResults) && DistinctLinks(uniqueResults)
    ensures Links(uniqueResults) == Links(allResults)
  {
    var uniqueLinks: set<PyVal> := {};
    uniqueResults := [];
    for i := 0 to |allResults|
      invariant Linked(allResults[..i])
      invariant uniqueLinks == Links(allResults[..i])
      invariant uniqueResults == Dedup(allResults[..i])
    {
      DedupStep(allResults, i);
      var r := allResults[i];
      if r[LinkKey] !in uniqueLinks {
        uniqueLinks := uniqueLinks + {r[LinkKey]};
        uniqueResults := uniqueResults + [r];
      }
    }
    assert allResults[..|allResults|] == allResults;
    DedupDistinct(allResults);
    DedupLinks(allResults);
  }

  /** Step 3 of `web_search_task`: the first three unique results, each given the scraped
      text of its link under `content`, scraped in order. */
  method ScrapeTop(uniqueResults: seq<Record>, fetch: PageFetcher)
    returns (finalResults: seq<Record>, scrapes: seq<Call>)
    requires Linked(uniqueResults)
    ensures finalResults == Enrich(Select(uniqueResults), fetch)
    ensures scrapes == ScrapeCalls(Select(uniqueResults))
  {
    var selected := Select(uniqueResults);
    finalResults, scrapes := [], [];
    for i := 0 to |selected|
      invariant Linked(selected[..i])
      invariant finalResults == Enrich(selected[..i], fetch)
      invariant scrapes == ScrapeCalls(selected[..i])
    {
      EnrichStep(selected, i, fetch);
      var res := selected[i];
      scrapes := scrapes + [Scrape(res[LinkKey])];
      var content := ScrapeContent(res[LinkKey], fetch);
      res := res[ContentKey := PyStr(content)];
      finalResults := finalResults + [res];
    }
    assert selected[..|selected|] == selected;
  }

  /** `web_search_task`: the answer it returns and the outside calls it makes. */
  method WebSearchTask(userQuery: string, llm: Llm, provider: SearchProvider, fetch: PageFetcher)
    returns (answer: Option<string>, calls: seq<Call>)
    ensures answer == Pipeline(userQuery, llm, provider, fetch).answer
    ensures calls == Pipeline(userQuery, llm, provider, fetch).calls
  {
    // 1. Decompose
    var subQueries := DecomposeQuery(userQuery, llm);
    // 2. Search for each sub-query
    var allResults, searches := SearchAll(subQueries, provider);
    // Deduplicate by link
    var uniqueResults := DedupByLink(allResults);
    // 3. Scrape content (select top 3 from unique results)
    var finalResults, scrapes := ScrapeTop(uniqueResults, fetch);
    // 4. Generate the answer
    var answerPrompt;
    answer, answerPrompt := GetRelevantAnswer(userQuery, finalResults, llm);
    calls := [Complete(DecomposePrompt(userQuery))] + searches + scrapes + [Complete(answerPrompt)];
  }
}
