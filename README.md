# Web-search answer pipeline, modelled in Dafny

This project models the web-search answer pipeline of the chatbot back end, found in
`modules/websearch.py`. The pipeline has five parts:

- `decompose_query` asks the language model to split the user's query into sub-queries.
  It reads one sub-query per non-blank reply line. It falls back to the query itself.
- `perform_search` turns the search provider's hits into `{title, link, description}`
  records.
- `scrape_content` fetches a page. It collapses the page text's whitespace and cuts it
  to 2000 characters.
- `get_relevant_answer` folds the records into a prompt context, block by block. It
  then makes one model call.
- `web_search_task` runs these in order:
  - one search of two results per sub-query;
  - deduplication by link, first occurrence wins;
  - selection of the first three results;
  - attachment of the scraped text under `content`;
  - the final model call.

The outside services are function-typed parameters that may fail (`None`):

- the language model: `Llm`, from prompt to optional text;
- the search provider: `SearchProvider`, from query and limit to optional hits;
- the page fetch with its HTML-to-text extraction: `PageFetcher`, from URL to optional
  text.

The Python dicts are maps from `str` keys to `str`-or-`None` values. A missing key and
a key holding `None` stay distinct. This matters for `res.get('title', 'Unknown')`.
Python's `str.split`, `str.strip` and whitespace set are written out in `PyStrings`.

`web_search_task` returns only the answer. The method `WebSearchTask` that models it
also returns the trace of outside calls it made, so that the calls can be stated about.
`Pipeline` is the reference definition of one run: its sub-queries, results, answer and
calls. `WebSearchTask` is proved equal to it. The lemmas state what every run satisfies.

Modules:

| file | module | content |
|---|---|---|
| `pyvalues.dfy` | `PyValues` | `Option`, Python values, dicts, `dict.get`, f-string formatting |
| `pystrings.dfy` | `PyStrings` | `isspace`, `strip`, `split('\n')`, `split()`, `' '.join`, slicing |
| `lists.dfy` | `Lists` | concatenating map over a list, its append and membership laws |
| `records.dfy` | `Records` | search records, links, first-occurrence deduplication |
| `websearch.dfy` | `WebSearch` | the five functions of `modules/websearch.py` and the run |

Three points of the code that a reader might expect otherwise:

- **`link` may be `None`.** The code builds a result's `link` with `r.get('href')`, so
  it is `None` when a hit has no `href`. All such records then share the link `None`,
  and only the first survives deduplication (`Records.NoneLinksCollapse`).
- **More than two hits per search may be kept.** The code passes `max_results=2` to the
  provider but does not check the reply: every hit the provider returns is kept. So the
  model makes no such bound.
- **Only double quotes are stripped.** The code strips `"` from both ends of a line,
  after the whitespace. Single quotes and other quote characters stay.

## Model

| member | source | states |
|---|---|---|
| `PyStrings.Strip` | modules/websearch.py:22 | `s.strip(chars)`: the result neither starts nor ends with a dropped character |
| `PyStrings.StripInfix` | modules/websearch.py:22 | the stripped text is a contiguous slice of the input, and only dropped characters lie outside it |
| `PyStrings.StripFixes` | modules/websearch.py:22 | stripping leaves a string unchanged exactly when neither of its ends is a dropped character |
| `PyStrings.Split` | modules/websearch.py:22 | `split('\n')` gives at least one piece, and no piece holds the separator |
| `PyStrings.JoinSplit` | modules/websearch.py:22 | joining the pieces of a split with the separator gives back the input |
| `PyStrings.SplitJoin` | modules/websearch.py:22 | splitting a join of separator-free pieces gives back the pieces |
| `PyStrings.SplitAppend` | modules/websearch.py:22 | splitting `a + sep + b` gives the pieces of `a` followed by those of `b` |
| `PyStrings.Words` | modules/websearch.py:63 | `split()` gives non-empty pieces with no whitespace in them |
| `PyStrings.WordsSpace` | modules/websearch.py:63 | any whitespace character separates words: the words of `a + c + b` are those of `a` followed by those of `b` |
| `PyStrings.WordsAfterSpaces` | modules/websearch.py:63 | leading whitespace adds no words |
| `PyStrings.WordsOfWord` | modules/websearch.py:63 | a single word splits into itself |
| `PyStrings.CollapseKeepsText` | modules/websearch.py:63 | `' '.join(text.split())` keeps every non-whitespace character, in order |
| `PyStrings.Collapse` | modules/websearch.py:63 | `' '.join(text.split())` has no leading or trailing whitespace, no whitespace but `' '`, and no two spaces in a row |
| `PyStrings.WordsOfJoin` | modules/websearch.py:63 | `split()` recovers the words that `' '.join` glued together |
| `PyStrings.CollapseIdempotent` | modules/websearch.py:63 | applying the cleanup twice is applying it once |
| `PyStrings.CollapseSpaceRun` | modules/websearch.py:63 | a run of whitespace of any kind between two words becomes one `' '` |
| `PyStrings.CollapseTabsExample` | modules/websearch.py:63 | `"a\t\tb"` is cleaned to `"a b"` |
| `PyStrings.CollapseFixes` | modules/websearch.py:63 | the cleanup leaves a string unchanged exactly when it already has the canonical shape |
| `PyStrings.Take` | modules/websearch.py:64 | `text[:n]` is a prefix of the text: the whole text when it has at most `n` characters, otherwise exactly `n` characters |
| `PyStrings.CanonicalPrefix` | modules/websearch.py:63-64 | a prefix of a cleaned text still has no leading whitespace, only plain spaces and no double space |
| `WebSearch.ParseLinesFromLines` | modules/websearch.py:22 | each sub-query is the cleaned text of some non-blank reply line, and none starts or ends with `"` |
| `WebSearch.CleanLine` | modules/websearch.py:22 | `q.strip().strip('"')` neither starts nor ends with `"` |
| `WebSearch.ParseReplyAppend` | modules/websearch.py:22 | the sub-queries of two reply blocks are those of the first followed by those of the second (line order is kept) |
| `WebSearch.ParseReplyLine` | modules/websearch.py:22 | one line gives no sub-query when blank and its stripped, unquoted text otherwise |
| `WebSearch.SubQueriesFrom` | modules/websearch.py:18-23 | never empty; the parsed lines when any survive, otherwise exactly `[user_query]` |
| `WebSearch.DecomposeQuery` | modules/websearch.py:8-23 | one model call on the user's query; never empty; the parsed reply lines when the reply gives any, otherwise exactly `[user_query]` |
| `WebSearch.NoReplyFallsBack` | modules/websearch.py:18-20 | a failed model call and an empty reply both give exactly `[user_query]` |
| `WebSearch.BlankReplyFallsBack` | modules/websearch.py:22-23 | a reply of blank lines only gives exactly `[user_query]` |
| `WebSearch.QuotesOnlyLineGivesEmptyQuery` | modules/websearch.py:22-23 | sub-queries may be empty: a reply line `""` gives the sub-query `""` |
| `WebSearch.SearchResults` | modules/websearch.py:35-40 | every record built from the provider's hits has exactly the keys title, link and description |
| `Records.HitToRecord` | modules/websearch.py:36-40 | a record has exactly the keys title, link and description; the link is the hit's `href`, or `None` when it has none |
| `WebSearch.PerformSearch` | modules/websearch.py:29-44 | one record per hit in provider order, taken from `title`/`href`/`body` with `None` for a missing key; `[]` when the provider fails |
| `WebSearch.ScrapeContent` | modules/websearch.py:50-67 | at most 2000 characters; `""` on any failure; otherwise the prefix of length `min(2000, n)` of the collapsed page text: no leading whitespace, only plain spaces, no two spaces in a row; a trailing space can remain after the cut |
| `WebSearch.HitTitleShown` | modules/websearch.py:37 | a record from a hit shows the hit's title, or `None`, never the `Unknown` default |
| `WebSearch.GetRelevantAnswer` | modules/websearch.py:73-91 | the loop builds the context of all results, block by block, and then makes exactly one model call with it, whose reply is returned |
| `WebSearch.Block` | modules/websearch.py:75-79 | what one result adds to the context starts with `Source: ` and ends with the `---` separator line |
| `WebSearch.ContextAppend` | modules/websearch.py:74-79 | the context of two lists is that of the first followed by that of the second: one block per result, in input order |
| `WebSearch.Context` | modules/websearch.py:73-79 | the context is empty exactly when there are no results, and otherwise ends with the `---` separator line |
| `WebSearch.BlockLines` | modules/websearch.py:75-79 | read back by lines, a block has 5 lines with a `Content:` third line exactly when the record has a `content` key, and 4 otherwise |
| `WebSearch.BlockSplit` | modules/websearch.py:75-79 | read back by lines, a block gives its source, description and optional content lines, then `---` |
| `WebSearch.TailSplit` | modules/websearch.py:77-79 | the end of a block gives the `Content:` line only when the record has a `content` key, then `---` |
| `WebSearch.Fanout` | modules/websearch.py:101-107 | all results carry the keys title, link and description, so `r['link']` cannot fail |
| `WebSearch.FanoutAppend` | modules/websearch.py:104-107 | the results of two lists of sub-queries are those of the first followed by those of the second |
| `WebSearch.FanoutStep` | modules/websearch.py:104-107 | one pass of the search loop appends the next sub-query's results and one search with limit 2 |
| `WebSearch.SearchAll` | modules/websearch.py:101-107 | the loop builds the concatenation of each sub-query's results in sub-query order, with one search of limit 2 per sub-query |
| `WebSearch.DedupByLink` | modules/websearch.py:110-115 | the seen-set loop computes first-occurrence deduplication: distinct links, and every link of the input kept |
| `Records.Dedup` | modules/websearch.py:110-115 | deduplication never lengthens the list and keeps every record linked |
| `Records.DedupStep` | modules/websearch.py:112-115 | one pass of the loop adds the link to the seen set and keeps the record exactly when the link was unseen |
| `Records.LinksMember` | modules/websearch.py:113-114 | a link is in the seen set exactly when some record carries it |
| `Records.DedupLinks` | modules/websearch.py:110-115 | every link of the input appears in the output, and no other |
| `Records.DedupDistinct` | modules/websearch.py:110-115 | no two deduplicated records share a link |
| `Records.DedupMember` | modules/websearch.py:110-115 | every deduplicated record is a record of the input |
| `Records.DedupSubsequence` | modules/websearch.py:110-115 | the output is the input with records left out, in input order |
| `Records.DedupKeepsFirst` | modules/websearch.py:110-115 | a record is kept exactly when it is the first occurrence of its link |
| `Records.FirstOccurrences` | modules/websearch.py:112-115 | the positions of first occurrences of links all lie within the list |
| `Records.FirstOccurrencesSpec` | modules/websearch.py:112-115 | those positions are exactly the first occurrences, in increasing order |
| `Records.DedupInOrder` | modules/websearch.py:110-115 | the unique results are exactly the records at the first-occurrence positions, in the order of those positions, so equal duplicates cannot reorder them |
| `Records.DedupOfDistinct` | modules/websearch.py:110-115 | a list whose links are distinct is left as it is |
| `Records.DedupIdempotent` | modules/websearch.py:110-115 | deduplicating twice is deduplicating once |
| `Records.DedupExample` | modules/websearch.py:110-119 | links a, b, a, c give a, b, c, whatever the second a's other fields; the first two are a, b |
| `Records.NoneLinksCollapse` | modules/websearch.py:38 | two records built from hits without `href` both have the link `None`, and the link deduplication of `web_search_task` keeps only the first |
| `WebSearch.Select` | modules/websearch.py:119 | `unique_results[:3]` has `min(3, n)` records, the first ones in order |
| `WebSearch.EnrichStep` | modules/websearch.py:119-123 | one pass of the scraping loop scrapes the next link and appends its record with `content` set |
| `WebSearch.ScrapeTop` | modules/websearch.py:118-123 | the loop gives the first three unique results with their scraped text, scraping each link once, in order |
| `WebSearch.WithContent` | modules/websearch.py:121-122 | `res['content'] = ...` adds or replaces the `content` key, with at most 2000 characters, and keeps every other key and value |
| `WebSearch.Enrich` | modules/websearch.py:118-123 | one record per selected result, in order, each with the same link and a `content` key |
| `WebSearch.EnrichSelection` | modules/websearch.py:118-123 | `min(3, n)` records, each unchanged but for `content`, which holds at most 2000 characters; distinct links stay distinct |
| `WebSearch.DedupSelection` | modules/websearch.py:110-123 | scraping the first three unique results gives `min(3, n)` records, each the unique record plus its scraped `content`, with distinct links |
| `WebSearch.TraceShape` | modules/websearch.py:98-126 | the calls are the decomposing model call, one search per sub-query in order, one scrape per selected result in order and the answering model call; only the first and last are model calls |
| `WebSearch.Pipeline` | modules/websearch.py:93-127 | a run has at least one sub-query, no more unique results than results, `min(3, n)` final results, and one call per sub-query and per final result besides the two model calls |
| `WebSearch.PipelineSearches` | modules/websearch.py:98-107 | a run starts with the decomposing call, then one search of limit 2 per sub-query in order |
| `WebSearch.TraceScrapes` | modules/websearch.py:119-121 | the scrape calls of a trace are of the links of the first unique results, in order |
| `WebSearch.PipelineScrapes` | modules/websearch.py:118-121 | then one scrape per final result, of the links of the first deduplicated results in order |
| `WebSearch.PipelineAnswer` | modules/websearch.py:125-127 | the model is called exactly twice; the last call carries the context of the final results and its reply is the answer |
| `WebSearch.PipelineUnique` | modules/websearch.py:98-115 | at least one sub-query; the unique results keep every link found, no link twice, in search order |
| `WebSearch.PipelineFinal` | modules/websearch.py:117-123 | the final results are the first `min(3, n)` unique ones, each given `content` and otherwise unchanged, with distinct links |
| `WebSearch.NothingFoundStillAsks` | modules/websearch.py:73-91 | with no search results, nothing is scraped and the model is still asked once, with an empty context |
| `WebSearch.DecomposeFailureSearchesQuery` | modules/websearch.py:18-20 | when the decomposing call fails, the user's query itself is the one search |
| `WebSearch.WebSearchTask` | modules/websearch.py:93-127 | the method's answer and call trace are those of the reference run |

## Left out

- Network, HTML and the model. The search provider, the page fetch and the language
  model are parameters. Inside the fetch oracle are the 5-second timeout,
  `raise_for_status`, the user-agent header, and BeautifulSoup's script/style removal and
  `get_text`. The oracles are deterministic within one run: the same arguments give the
  same reply.
- Exceptions are the `None` of the oracles. Python's broad `except` clauses become the
  `None` branches.
- A `None` link passed to `scrape_content` is modelled as a failed fetch. The requests
  library refuses it.
- `print` logging, and `async`/`await`. The code awaits each stage in turn, so nothing is
  concurrent.
- Prompt wording. The two prompts are the datatype `Prompt`: the user's query, and for
  the answer the context string, which is modelled character by character. The
  instruction text around them is not modelled.
- The in-place `res['content'] = content` is modelled on values. The updated dict is
  appended to the final list. The aliased dicts in `all_results` and `unique_results` are
  not read again, so the aliasing itself is not modelled.
- `GetRelevantAnswer`: requires every record to have a `link` key. `res['link']` would
  raise `KeyError` otherwise. Every record the pipeline builds has one (`Fanout`).
- `WebSearch.ScrapeTop`, `WebSearch.SearchAll` and `WebSearch.DedupByLink` are the three
  loops of `web_search_task`, written as methods of their own. The call trace is then
  assembled in the same order as the calls are made.
- `app/main.py`, `modules/chat.py`, `modules/auth.py`, `modules/database.py` and
  `modules/llm.py` are HTTP routing, database access and SDK wrappers, and are not part of
  this model. `generate_response` appears only as the `Llm` oracle.
