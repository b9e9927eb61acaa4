/**
 * The `extend_knowledge_graph` tool as the loop it is: a FIFO queue of
 * `(url, depth)` entries, a visited set, the node map and the append-only
 * relationship list, updated in place until the queue is empty or 50 URLs
 * are visited. The method is proved to compute `Frontier.Extend`, whose
 * properties are proved in module Frontier.
 */
module KnowledgeGraph {
  import opened Wrappers
  import opened LinkFilter
  import opened Dispatch
  import opened Frontier

  /**
   * The page source as written: `crawl_documentation(url, "structured")`,
   * which answers for the URL asked and never carries a link.
   */
  function AsWrittenFetch(arun: (string, Config) -> CrawlOutcome): (r: string -> Response)
    ensures forall u :: r(u).url == u && r(u).LinksOf() == []
    ensures forall u :: r(u).Succeeded() <==> arun(u, StructuredConfig).Returned? && arun(u, StructuredConfig).result.success
  {
    url => CrawlDocumentation(url, "structured", arun)
  }

  /**
   * The page source the traversal evidently intends: the structured page,
   * successful when the structured crawl is, carrying the crawler's links.
   */
  function CorrectedFetch(arun: (string, Config) -> CrawlOutcome): (r: string -> Response)
    ensures forall u :: r(u).url == u
    ensures forall u :: r(u).Succeeded() <==> arun(u, StructuredConfig).Returned? && arun(u, StructuredConfig).result.success
    ensures forall u :: arun(u, StructuredConfig).Returned? ==> r(u).LinksOf() == arun(u, StructuredConfig).result.links
  {
    url => TraversalPage(url, arun)
  }

  /**
   * As written, the traversal never gets past the base URL: the structured
   * response carries no links, so nothing is ever queued and no edge is
   * recorded, whatever the depth and whatever the crawler finds.
   */
  lemma AsWrittenStopsAtRoot(frameworkName: string, baseUrl: string, depth: int,
                             patterns: Option<seq<string>>, arun: (string, Config) -> CrawlOutcome)
    ensures var g := Extend(frameworkName, baseUrl, depth, patterns, AsWrittenFetch(arun));
      g.relationships == [] && g.nodes.Keys <= {baseUrl}
  {
    WithoutLinksOnlyRoot(frameworkName, baseUrl, depth, patterns, AsWrittenFetch(arun));
  }

  /**
   * With the links put back, a successful root above the depth bound has an
   * edge to each of its eligible links, in order, before any other edge.
   */
  lemma CorrectedFollowsRootLinks(frameworkName: string, baseUrl: string, depth: int,
                                  patterns: Option<seq<string>>, arun: (string, Config) -> CrawlOutcome)
    requires depth > 0
    requires arun(baseUrl, StructuredConfig).Returned? && arun(baseUrl, StructuredConfig).result.success
    ensures EdgesFrom(baseUrl, Eligible(arun(baseUrl, StructuredConfig).result.links, baseUrl, patterns))
         <= Extend(frameworkName, baseUrl, depth, patterns, CorrectedFetch(arun)).relationships
  {
    RootEdgesFirst(frameworkName, baseUrl, depth, patterns, CorrectedFetch(arun));
  }

  /** A site whose root links to one documentation page, and whose pages all succeed. */
  function OneLinkSite(): (string, Config) -> CrawlOutcome {
    (url: string, c: Config) =>
      Returned(CrawlerResult(true, "", Extraction(None, None),
                             if url == "https://ex.org/" then ["https://ex.org/docs/a"] else [], map[]))
  }

  /**
   * On that site, with depth 1 and the default patterns, the traversal as
   * written records no relationship, while the corrected one records the
   * root's link.
   */
  lemma LinksLostAsWritten()
    ensures Extend("ex", "https://ex.org/", 1, None, AsWrittenFetch(OneLinkSite())).relationships == []
    ensures Extend("ex", "https://ex.org/", 1, None, CorrectedFetch(OneLinkSite())).relationships != []
  {
    var root, docs := "https://ex.org/", "https://ex.org/docs/a";
    AsWrittenStopsAtRoot("ex", root, 1, None, OneLinkSite());
    DocsPageEligible();
    CorrectedFollowsRootLinks("ex", root, 1, None, OneLinkSite());
    assert EdgesFrom(root, [docs])[0] == Edge(root, docs, References);
  }

  /** The documentation page of that site passes the filter under the default patterns. */
  lemma DocsPageEligible()
    ensures Eligible(["https://ex.org/docs/a"], "https://ex.org/", None) == ["https://ex.org/docs/a"]
  {
    var root, docs := "https://ex.org/", "https://ex.org/docs/a";
    assert "/docs/" <= docs[14..];
    ShouldCrawlLinkWithDefaults(docs, root, None);
    assert ShouldCrawlLink(docs, root, None);
  }

  /**
   * The inner `for link in links` loop: append an entry one level deeper and a
   * "references" edge for each link that passes the filter, in order.
   */
  method QueueLinks(from: string, fromDepth: int, links: seq<string>, baseUrl: string,
                    patterns: Option<seq<string>>, queue0: seq<Entry>, relationships0: seq<Edge>)
    returns (queue: seq<Entry>, relationships: seq<Edge>)
    ensures queue == queue0 + EntriesAt(Eligible(links, baseUrl, patterns), fromDepth + 1)
    ensures relationships == relationships0 + EdgesFrom(from, Eligible(links, baseUrl, patterns))
  {
    queue, relationships := queue0, relationships0;
    for i := 0 to |links|
      invariant queue == queue0 + EntriesAt(Eligible(links[..i], baseUrl, patterns), fromDepth + 1)
      invariant relationships == relationships0 + EdgesFrom(from, Eligible(links[..i], baseUrl, patterns))
    {
      ghost var found := Eligible(links[..i], baseUrl, patterns);
      assert links[..i + 1][..i] == links[..i];
      if ShouldCrawlLink(links[i], baseUrl, patterns) {
        queue := queue + [Entry(links[i], fromDepth + 1)];
        relationships := relationships + [Edge(from, links[i], References)];
        assert EntriesAt(found + [links[i]], fromDepth + 1)
            == EntriesAt(found, fromDepth + 1) + [Entry(links[i], fromDepth + 1)];
        assert EdgesFrom(from, found + [links[i]])
            == EdgesFrom(from, found) + [Edge(from, links[i], References)];
      }
    }
    assert links[..|links|] == links;
  }

  /**
   * The body of `if result.get("success")`: record the node, and when the
   * page lies above the depth bound queue its eligible links.
   */
  method RecordPage(current: Entry, result: Response, baseUrl: string, depth: int, patterns: Option<seq<string>>,
                    nodes0: map<string, Node>, queue0: seq<Entry>, relationships0: seq<Edge>)
    returns (nodes: map<string, Node>, queue: seq<Entry>, relationships: seq<Edge>)
    ensures nodes == if result.Succeeded() then nodes0[current.url := NodeOf(result, current.depth)] else nodes0
    ensures queue == queue0 + EntriesAt(Followed(result, current.depth, baseUrl, depth, patterns), current.depth + 1)
    ensures relationships
         == relationships0 + EdgesFrom(current.url, Followed(result, current.depth, baseUrl, depth, patterns))
  {
    nodes, queue, relationships := nodes0, queue0, relationships0;
    if result.Succeeded() {
      nodes := nodes[current.url := NodeOf(result, current.depth)];
      if current.depth < depth {
        queue, relationships := QueueLinks(current.url, current.depth, result.LinksOf(), baseUrl, patterns,
                                           queue, relationships);
      }
    }
  }

  /**
   * One iteration of the `while` loop: dequeue the head entry; skip it when its
   * URL is visited or it lies below the depth bound; otherwise mark it visited,
   * fetch it from `fetch` and record it.
   */
  method Advance(baseUrl: string, depth: int, patterns: Option<seq<string>>, fetch: string -> Response,
                 queue0: seq<Entry>, visited0: set<string>, nodes0: map<string, Node>, relationships0: seq<Edge>,
                 ghost log0: seq<Entry>)
    returns (queue: seq<Entry>, visited: set<string>, nodes: map<string, Node>, relationships: seq<Edge>,
             ghost log: seq<Entry>)
    requires queue0 != []
    ensures var next := Step(State(queue0, visited0, nodes0, relationships0, log0), baseUrl, depth, patterns, fetch);
      && queue == next.queue && visited == next.visited && nodes == next.nodes
      && relationships == next.relationships
    ensures log == Step(State(queue0, visited0, nodes0, relationships0, log0), baseUrl, depth, patterns, fetch).log
  {
    ghost var before := State(queue0, visited0, nodes0, relationships0, log0);
    var current := queue0[0];
    queue, visited, nodes, relationships, log := queue0[1..], visited0, nodes0, relationships0, log0;
    if current.url in visited || current.depth > depth {
      return;
    }
    visited := visited + {current.url};
    log := log + [current];
    var result := fetch(current.url);
    StepFetches(before, baseUrl, depth, patterns, fetch, result);
    nodes, queue, relationships := RecordPage(current, result, baseUrl, depth, patterns,
                                              nodes, queue, relationships);
  }

  /**
   * The `while queue and len(visited) < 50` loop of `extend_knowledge_graph`
   * over the page source `fetch`. It leaves the nodes and relationships of the
   * final state of `Run`.
   */
  method Traverse(baseUrl: string, depth: int, patterns: Option<seq<string>>, fetch: string -> Response)
    returns (nodes: map<string, Node>, relationships: seq<Edge>)
    ensures var last := Run(Init(baseUrl), baseUrl, depth, patterns, fetch);
      nodes == last.nodes && relationships == last.relationships
  {
    var queue := [Entry(baseUrl, 0)];
    var visited: set<string> := {};
    nodes, relationships := map[], [];
    ghost var log: seq<Entry> := [];
    while queue != [] && |visited| < PageLimit
      invariant |visited| <= PageLimit
      invariant Run(State(queue, visited, nodes, relationships, log), baseUrl, depth, patterns, fetch)
             == Run(Init(baseUrl), baseUrl, depth, patterns, fetch)
      decreases PageLimit - |visited|, |queue|
    {
      queue, visited, nodes, relationships, log
        := Advance(baseUrl, depth, patterns, fetch, queue, visited, nodes, relationships, log);
    }
  }

  /**
   * `extend_knowledge_graph(framework_name, base_url, depth, patterns)` over
   * the page source `fetch`: the graph of `Extend`, with the properties of
   * `ExtendFacts` and `ExtendOrder`.
   */
  method ExtendKnowledgeGraph(frameworkName: string, baseUrl: string, depth: int,
                              patterns: Option<seq<string>>, fetch: string -> Response)
    returns (graph: Graph)
    ensures graph == Extend(frameworkName, baseUrl, depth, patterns, fetch)
    ensures graph.framework == frameworkName && graph.baseUrl == baseUrl
    ensures |graph.nodes| <= PageLimit
    ensures forall u :: u in graph.nodes ==>
      && Admitted(u, baseUrl, patterns)
      && fetch(u).Succeeded()
      && graph.nodes[u] == NodeOf(fetch(u), graph.nodes[u].depth)
      && 0 <= graph.nodes[u].depth <= depth
    ensures forall e :: e in graph.relationships ==>
      && e.from in graph.nodes && graph.nodes[e.from].depth < depth && e.kind == References
      && e.to in fetch(e.from).LinksOf() && ShouldCrawlLink(e.to, baseUrl, patterns)
    ensures graph.nodes.Keys <= UrlsOf(Fetched(baseUrl, depth, patterns, fetch))
    ensures graph.relationships == EdgesOfLog(Fetched(baseUrl, depth, patterns, fetch), baseUrl, depth, patterns, fetch)
  {
    var nodes, relationships := Traverse(baseUrl, depth, patterns, fetch);
    graph := Graph(frameworkName, baseUrl, nodes, relationships);
    ExtendFacts(frameworkName, baseUrl, depth, patterns, fetch);
    ExtendOrder(frameworkName, baseUrl, depth, patterns, fetch);
  }

  /**
   * The tool exactly as written, each page from `crawl_documentation(url,
   * "structured")`: the graph has no relationship and at most the root node.
   */
  method ExtendAsWritten(frameworkName: string, baseUrl: string, depth: int,
                         patterns: Option<seq<string>>, arun: (string, Config) -> CrawlOutcome)
    returns (graph: Graph)
    ensures graph == Extend(frameworkName, baseUrl, depth, patterns, AsWrittenFetch(arun))
    ensures graph.relationships == [] && graph.nodes.Keys <= {baseUrl}
  {
    graph := ExtendKnowledgeGraph(frameworkName, baseUrl, depth, patterns, AsWrittenFetch(arun));
    AsWrittenStopsAtRoot(frameworkName, baseUrl, depth, patterns, arun);
  }
}
