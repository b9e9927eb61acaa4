# Documentation traversal of the crawl4ai MCP server, in Dafny

This project models the knowledge-graph builder of the crawl4ai MCP server
(`mcp-server/src/crawl4ai_mcp/server.py`). The model has three parts:

- the link filter `should_crawl_link`;
- the extraction-type dispatch and response shaping of `crawl_documentation`;
- the breadth-first traversal `extend_knowledge_graph`. It keeps a FIFO queue of
  `(url, depth)` entries, a visited set, a node map keyed by URL and an append-only
  list of "references" relationships. It stops when the queue is empty or when 50
  URLs have been visited.

The crawler (`AsyncWebCrawler.arun`, with the browser and the language-model
extraction behind it) is a parameter `arun: (string, Config) -> CrawlOutcome`.
It is a deterministic function from a URL and one of the three configurations
to either a result or a raised exception.

Modules:

- `Wrappers` (`wrappers.dfy`): `Option`.
- `LinkFilter` (`link_filter.dfy`): `should_crawl_link`. Python's `in` is
  computed by `Contains`. It is proved against a reference definition `OccursIn`
  ("occurs at some offset").
- `Dispatch` (`dispatch.dfy`): the configuration table, `crawl_documentation`,
  and `TraversalPage`, the page the traversal evidently needs (see Findings).
- `Frontier` (`frontier.dfy`): the traversal as a state machine over values.
  - `Step` is one iteration of the `while` loop.
  - `Run` iterates to the end, with the measure `(50 - |visited|, |queue|)`.
  - `Extend` builds the returned graph.
  - The loop invariant is split into small predicates, each with a preservation lemma.
  - `TraversalFacts` and `ExtendFacts` collect what the finished traversal promises.
- `KnowledgeGraph` (`knowledge_graph.dfy`): the imperative loop itself.
  - `ExtendKnowledgeGraph`, `Traverse` and `Advance` perform the loop.
  - `RecordPage` and `QueueLinks` are the body of `if result.get("success")` and the
    inner `for` loop.
  - These methods are proved to compute `Extend`.
  - The module also holds the lemmas of the finding.

Behaviour of the code that the model keeps, although a reader might expect otherwise:

- A URL is marked visited when its entry is popped (server.py:125-128), not when it
  is queued. So the queue may hold duplicates, and they are dropped when popped.
- Scope is a raw `startswith` on the strings (server.py:157). No URL is normalised,
  and a query or fragment is not ignored.
- The base URL is not always eligible. Under the default patterns
  `should_crawl_link("https://ex.org/", "https://ex.org/")` is false
  (`LinkFilter.BaseUrlNotAlwaysEligible`). The root is still fetched, because it is
  queued without passing the filter.
- The page bound is the constant 50 (server.py:122), not a parameter.
- The bound is checked only by the loop guard. The page that brings the count to 50
  still queues its eligible links and records their edges. So a relationship may
  point to a URL that is never fetched.
- The traversal reads its pages from `crawl_documentation(url, "structured")`, whose
  `links` is always empty (server.py:77, 131). So, as written, no link is ever
  followed. See "## Findings". The traversal methods take the page source as a
  parameter. `KnowledgeGraph.ExtendAsWritten` instantiates it with the page source as
  written, and `KnowledgeGraph.CorrectedFetch` is the page source with the links
  put back.
- `extend_knowledge_graph` has no `try` of its own and returns no success flag. A
  failure of a fetch is absorbed by `crawl_documentation`, but any other exception
  would leave the tool (see "## Left out").

## Model

| member | source | states |
|---|---|---|
| LinkFilter.Contains | mcp-server/src/crawl4ai_mcp/server.py:161 | Python's `sub in s` holds exactly when `sub` starts at some offset of `s` |
| LinkFilter.AnyOccurs | mcp-server/src/crawl4ai_mcp/server.py:161 | `any(pattern in link for pattern in patterns)` holds exactly when some pattern of the list occurs in the link |
| LinkFilter.StartsWith | mcp-server/src/crawl4ai_mcp/server.py:157 | `link.startswith(base_url)` holds exactly when the base URL is no longer than the link and equals the link's first characters |
| LinkFilter.ShouldCrawlLink | mcp-server/src/crawl4ai_mcp/server.py:157-158 | a link that is accepted always starts with the base URL, whatever the patterns |
| LinkFilter.ShouldCrawlLinkWithPatterns | mcp-server/src/crawl4ai_mcp/server.py:157-161 | with a non-empty pattern list, a link is accepted if and only if it starts with the base URL and one of the caller's patterns occurs in it |
| LinkFilter.ShouldCrawlLinkWithDefaults | mcp-server/src/crawl4ai_mcp/server.py:160-165 | with no patterns or an empty list, a link is accepted if and only if it starts with the base URL and one of the five defaults `/api/ /guide/ /docs/ /reference/ /tutorial/` occurs in it; this is the same as passing the defaults explicitly |
| LinkFilter.CallerPatternsReplaceDefaults | mcp-server/src/crawl4ai_mcp/server.py:160-165 | caller patterns replace the defaults rather than adding to them: a link accepted under the defaults is refused under `["/guide/"]` |
| LinkFilter.NoDefaultPatternInSiteRoot | mcp-server/src/crawl4ai_mcp/server.py:164 | none of the five default patterns occurs in the site root `https://ex.org/` |
| LinkFilter.BaseUrlNotAlwaysEligible | mcp-server/src/crawl4ai_mcp/server.py:155-165 | under the defaults the base URL itself can be refused |
| Dispatch.TitleOf | mcp-server/src/crawl4ai_mcp/server.py:75 | `metadata.get("title", "")`: the metadata's title when it has one, and "" otherwise |
| Dispatch.Response.Succeeded | mcp-server/src/crawl4ai_mcp/server.py:133 | `result.get("success")` is true only for the normal shape, and there exactly when its success flag is set; the error shape is never a success |
| Dispatch.Response.LinksOf | mcp-server/src/crawl4ai_mcp/server.py:144 | `result.get("links", [])`: the response's links, or none for the error shape |
| Dispatch.Response.Concepts | mcp-server/src/crawl4ai_mcp/server.py:137 | `result.get("content", {}).get("main_concepts", [])`: the extracted main concepts when present, and none otherwise |
| Dispatch.Response.Apis | mcp-server/src/crawl4ai_mcp/server.py:138 | `result.get("content", {}).get("api_methods", [])`: the extracted API methods when present, and none otherwise |
| Dispatch.ConfigFor | mcp-server/src/crawl4ai_mcp/server.py:47-68 | "structured" and "links" select their own configurations; every other type, including an unknown one, selects the markdown configuration |
| Dispatch.CrawlDocumentation | mcp-server/src/crawl4ai_mcp/server.py:68-88 | the response carries the url. It is the error shape exactly when the crawler raises, and then holds the message and is not a success. Otherwise it holds the crawler's success flag, its metadata and the metadata's title (default ""). Its links are empty unless the type is "links", in which case they are the crawler's links. Its content is the markdown exactly when the type is "markdown", and the extracted content otherwise |
| Dispatch.UnknownTypeCrawlsAsMarkdown | mcp-server/src/crawl4ai_mcp/server.py:68-77 | an unrecognised type calls the crawler with the markdown configuration, and answers as "markdown" does except that the content is the extracted content |
| Dispatch.StructuredResponseHasNoLinks | mcp-server/src/crawl4ai_mcp/server.py:77 | the "structured" response never carries a link, whatever the crawler found |
| Dispatch.TraversalPage | mcp-server/src/crawl4ai_mcp/server.py:131 | the corrected page is the structured response with the crawler's links in it; it is a success exactly when the structured response is |
| Frontier.NodeOf | mcp-server/src/crawl4ai_mcp/server.py:135-140 | a node holds its page's title, concepts and API methods, and the depth of the entry it was fetched at |
| Frontier.Init | mcp-server/src/crawl4ai_mcp/server.py:109-118 | the loop starts with only `(base_url, 0)` queued and nothing visited, recorded or fetched, so it runs at least once |
| Frontier.InitInvariant | mcp-server/src/crawl4ai_mcp/server.py:109-118 | the starting state satisfies the whole loop invariant |
| Frontier.Followed | mcp-server/src/crawl4ai_mcp/server.py:133-145 | a page contributes links only when its fetch succeeded and it lies above the depth bound |
| Frontier.EligibleMembers | mcp-server/src/crawl4ai_mcp/server.py:144-146 | the links queued from a page are exactly its links that pass `should_crawl_link`, and there are no more of them than links |
| Frontier.Step | mcp-server/src/crawl4ai_mcp/server.py:123-151 | one iteration. A popped entry that is already visited, or deeper than `depth`, is discarded: nothing but the queue changes and nothing is fetched. Otherwise the URL joins the visited set (which grows by one) and the fetch log |
| Frontier.Run | mcp-server/src/crawl4ai_mcp/server.py:122 | the loop terminates with at most 50 visited URLs, and it stops only when the queue is empty or 50 URLs are visited |
| Frontier.StepKeepsFetchedOnce | mcp-server/src/crawl4ai_mcp/server.py:125-128 | no URL is fetched twice, and the visited set is exactly the set of fetched URLs |
| Frontier.StepKeepsNodesAreSuccesses | mcp-server/src/crawl4ai_mcp/server.py:128-135 | every node key is visited, and a visited URL has a node exactly when its fetch succeeded; a failed URL stays visited with no node |
| Frontier.StepKeepsNodesHoldPages | mcp-server/src/crawl4ai_mcp/server.py:133-140 | every node holds the title, concepts and APIs of its own page, at a depth between 0 and `depth` |
| Frontier.StepKeepsNodeDepthsFromLog | mcp-server/src/crawl4ai_mcp/server.py:135-139 | a node's depth is the depth of the entry at which its URL was fetched |
| Frontier.StepKeepsQueueDepths | mcp-server/src/crawl4ai_mcp/server.py:117-146 | queued depths are never negative, and every queued entry except the root has depth at most `depth` |
| Frontier.StepKeepsEdges | mcp-server/src/crawl4ai_mcp/server.py:143-151 | every relationship is a "references" edge from a node above the depth bound to a link of that page that passes `should_crawl_link` |
| Frontier.StepKeepsLogSorted | mcp-server/src/crawl4ai_mcp/server.py:117-146 | pages are fetched in non-decreasing depth |
| Frontier.StepKeepsQueueSorted | mcp-server/src/crawl4ai_mcp/server.py:123-146 | the queue is sorted by depth and spans at most two consecutive levels |
| Frontier.StepKeepsLogBeforeQueue | mcp-server/src/crawl4ai_mcp/server.py:123-146 | nothing queued is shallower than anything already fetched |
| Frontier.StepKeepsInScope | mcp-server/src/crawl4ai_mcp/server.py:117-146 | every queued entry and every visited URL is the base URL or a link that passes `should_crawl_link` |
| Frontier.StepKeepsEdgesFromLog | mcp-server/src/crawl4ai_mcp/server.py:143-151 | the relationships are exactly, page by page in fetch order, one "references" edge to each link each fetched page contributes |
| Frontier.StepKeepsInvariant | mcp-server/src/crawl4ai_mcp/server.py:122-151 | each iteration preserves the whole invariant: page bound, fetched once, nodes from pages, queue depths, edges, breadth-first order, scope, and edges from the fetch log |
| Frontier.RunKeepsInvariant | mcp-server/src/crawl4ai_mcp/server.py:122-151 | the invariant holds when the loop ends |
| Frontier.TraversalFacts | mcp-server/src/crawl4ai_mcp/server.py:117-151 | the finished traversal stopped because the queue ran out or 50 URLs were visited. It fetched each URL at most once, in breadth-first order, and at most 50 of them, each the base URL or a link that passes the filter. It holds at most 50 nodes: one for exactly each visited URL whose fetch succeeded, each holding that page at the depth it was fetched at, within the bound. Every relationship is valid as in `StepKeepsEdges`, and the relationships are exactly the edges of the fetched pages, in fetch order |
| Frontier.ExtendFacts | mcp-server/src/crawl4ai_mcp/server.py:109-153 | the returned graph carries the framework name and base URL. It has at most 50 nodes, each the base URL or an eligible link, from a successful fetch of its URL, holding that page at a depth within the bound. Each relationship runs from a node above the bound to an eligible link of its page |
| Frontier.Extend | mcp-server/src/crawl4ai_mcp/server.py:109-114 | the returned dictionary carries the caller's framework name and base URL; its nodes and relationships are those of the finished loop, as stated by `ExtendFacts` and `ExtendOrder` |
| Frontier.LoggedUrls | mcp-server/src/crawl4ai_mcp/server.py:125-135 | under the invariant, every fetched URL is admitted, and has a node exactly when its fetch succeeded |
| Frontier.FetchedFacts | mcp-server/src/crawl4ai_mcp/server.py:117-146 | the fetches are at most 50, of distinct URLs, by non-decreasing depth, each of the base URL or an eligible link |
| Frontier.ExtendOrder | mcp-server/src/crawl4ai_mcp/server.py:131-151 | each fetched URL has a node exactly when its fetch succeeded, at the depth it was fetched at, and every node is a fetched URL. The relationships are one "references" edge to each eligible link of each successful page above the bound, page by page in fetch order and link by link in page order |
| Frontier.RunWithoutLinks | mcp-server/src/crawl4ai_mcp/server.py:122-151 | when no page carries a link, nothing but the base URL is ever queued or recorded, and no edge is added |
| Frontier.WithoutLinksOnlyRoot | mcp-server/src/crawl4ai_mcp/server.py:109-153 | when no page carries a link, the graph has no relationship and no node other than the base URL's |
| Frontier.RunExtendsRelationships | mcp-server/src/crawl4ai_mcp/server.py:147-151 | relationships are append-only: each state's list is a prefix of the final one |
| Frontier.RootEdgesFirst | mcp-server/src/crawl4ai_mcp/server.py:117-151 | the graph's relationships begin with the edges from the base URL to its followed links, in link order |
| KnowledgeGraph.QueueLinks | mcp-server/src/crawl4ai_mcp/server.py:144-151 | the inner loop appends, in order, one entry one level deeper and one "references" edge for each link that passes the filter, and nothing else |
| KnowledgeGraph.RecordPage | mcp-server/src/crawl4ai_mcp/server.py:133-151 | a successful page gets its node; its eligible links are queued and linked only when the page lies above the depth bound; a failed page changes nothing |
| KnowledgeGraph.Advance | mcp-server/src/crawl4ai_mcp/server.py:123-151 | one iteration of the imperative loop, over any page source, leaves exactly the state `Frontier.Step` describes |
| KnowledgeGraph.Traverse | mcp-server/src/crawl4ai_mcp/server.py:116-151 | the `while` loop, over any page source, ends with the nodes and relationships of the finished `Frontier.Run` |
| KnowledgeGraph.ExtendKnowledgeGraph | mcp-server/src/crawl4ai_mcp/server.py:91-153 | over any page source, the method returns `Frontier.Extend`. So the graph has at most 50 admitted nodes, each a successful page within the depth bound. Its relationships are valid and are exactly the edges of the fetched pages in fetch order, and every node is a fetched URL |
| KnowledgeGraph.ExtendAsWritten | mcp-server/src/crawl4ai_mcp/server.py:91-153 | the tool with each page from `crawl_documentation(url, "structured")`, as written, returns a graph with no relationship and no node other than the base URL's |
| KnowledgeGraph.AsWrittenFetch | mcp-server/src/crawl4ai_mcp/server.py:131 | the page source as written answers for the URL asked, is a success exactly when the structured crawl returns with success, and never carries a link |
| KnowledgeGraph.CorrectedFetch | mcp-server/src/crawl4ai_mcp/server.py:131 | the corrected page source answers for the URL asked, succeeds exactly when the structured crawl does, and carries the links the crawler found |
| KnowledgeGraph.AsWrittenStopsAtRoot | mcp-server/src/crawl4ai_mcp/server.py:131-146 | as written, whatever the crawler returns and whatever the depth, the graph has no relationship and no node other than the base URL's |
| KnowledgeGraph.CorrectedFollowsRootLinks | mcp-server/src/crawl4ai_mcp/server.py:131-151 | with the links put back, a successful root under a positive depth gets an edge to each of its eligible links, in order |
| KnowledgeGraph.DocsPageEligible | mcp-server/src/crawl4ai_mcp/server.py:163-165 | `https://ex.org/docs/a` passes the filter under base `https://ex.org/` and the default patterns |
| KnowledgeGraph.LinksLostAsWritten | mcp-server/src/crawl4ai_mcp/server.py:131-151 | on a site whose root links to `https://ex.org/docs/a`, with depth 1 and the defaults, the traversal as written records no relationship, while the corrected one records at least one |

## Left out

- The crawler call `AsyncWebCrawler.arun`, `init_crawler` and its global singleton, the browser, and `LLMExtractionStrategy` with its schema (server.py:18-29, 51-63). They are third-party browser and language-model calls, so together they are the parameter `arun`.
- The configuration dictionaries' contents (`output_format`, `extract_links`, the schema) are not modelled. They are three named configurations, which is all the dispatch tells apart.
- `result.extracted_content` is modelled as a record whose `main_concepts` and `api_methods` may be missing. The crawler's own encoding of it is third-party. `ApiMethod` objects are opaque maps.
- `result.links` is modelled as a sequence of URL strings. The shape the crawler really returns belongs to the third-party library.
- `async`/`await`: the loop awaits one fetch at a time, so it is modelled as sequential code.
- Logging (server.py:10-12, 83), the FastMCP server, its decorators and its transport are left out. They have no effect on the values computed.
- `get_knowledge_graph` (server.py:168-181) is left out. It returns a fixed placeholder string, and no store exists.
- `analyze_framework_prompt` (server.py:184-211) is left out. It is a formatting template.
- `mcp-server/test_server.py` is left out. It drives the server process over pipes and has no logic of its own.
- JSON serialisation of the graph and of the metadata dictionaries is left out. Metadata is carried as a `map<string, string>`.
- An exception raised inside `extend_knowledge_graph` itself, outside `crawl_documentation`, is not modelled, for example `.get` on content that is not a dictionary.
- The default argument values are not modelled: `depth = 2` and `patterns = None` (server.py:94-95), `extract_type = "markdown"` (server.py:32), and `patterns = None` in `should_crawl_link` (server.py:155). Every member takes these arguments explicitly. A caller that omits them behaves as one that passes those values.

## Findings

| source | as written | input that shows it | evidently intended | confidence | as-written member | corrected member |
|---|---|---|---|---|---|---|
| mcp-server/src/crawl4ai_mcp/server.py:77 | the traversal reads `result.get("links", [])` from `crawl_documentation(url, "structured")` (server.py:131, 144), but that response's `links` is `[]` for every type except "links", so no link is ever queued: the graph holds at most the root node and never a relationship | a site whose root `https://ex.org/` links to `https://ex.org/docs/a`, with `depth=1` and default patterns: no relationship is recorded | the traversal follows the links the crawler found on each structured page | not executed | KnowledgeGraph.AsWrittenStopsAtRoot | KnowledgeGraph.CorrectedFollowsRootLinks |
