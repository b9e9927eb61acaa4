/**
 * The breadth-first traversal of `extend_knowledge_graph`, as a state machine
 * over values. One `Step` is one iteration of its `while` loop; `Run` iterates
 * until the queue is empty or 50 URLs are visited. The page source `fetch`
 * stands for the page dictionary the loop obtains for a URL.
 *
 * A URL is marked visited when its entry is popped, not when it is queued,
 * so the queue may hold duplicates; they are dropped when popped. The `log`
 * component records the fetched entries in order (it is not part of the
 * returned graph).
 */
module Frontier {
  import opened Wrappers
  import opened LinkFilter
  import opened Dispatch

  /** The hard bound on visited pages. */
  const PageLimit: nat := 50

  /** The relation kind of every edge. */
  const References: string := "references"

  /** A queue entry `(url, depth)`. */
  datatype Entry = Entry(url: string, depth: int)

  /** A node of the graph, keyed by its URL. */
  datatype Node = Node(title: string, concepts: seq<string>, apis: seq<ApiMethod>, depth: int)

  /** A relationship `{"from", "to", "type"}`. */
  datatype Edge = Edge(from: string, to: string, kind: string)

  /** The returned dictionary `{framework, base_url, nodes, relationships}`. */
  datatype Graph = Graph(framework: string, baseUrl: string, nodes: map<string, Node>, relationships: seq<Edge>)

  /** The loop's variables, with the log of fetched entries. */
  datatype State = State(
    queue: seq<Entry>,
    visited: set<string>,
    nodes: map<string, Node>,
    relationships: seq<Edge>,
    log: seq<Entry>)

  /** The node recorded for a successful page fetched at `depth`. */
  function NodeOf(page: Response, depth: int): (n: Node)
    requires page.Crawled?
    ensures n.title == page.title && n.concepts == page.Concepts() && n.apis == page.Apis() && n.depth == depth
  {
    Node(page.title, page.Concepts(), page.Apis(), depth)
  }

  /** The links of `links` that pass the filter, in order. */
  function Eligible(links: seq<string>, baseUrl: string, patterns: Option<seq<string>>): seq<string> {
    if links == [] then []
    else
      var init := Eligible(links[..|links| - 1], baseUrl, patterns);
      var last := links[|links| - 1];
      if ShouldCrawlLink(last, baseUrl, patterns) then init + [last] else init
  }

  /** `Eligible` keeps exactly the links that pass the filter. */
  lemma {:induction false} EligibleMembers(links: seq<string>, baseUrl: string, patterns: Option<seq<string>>)
    ensures var r := Eligible(links, baseUrl, patterns);
      && |r| <= |links|
      && forall l :: l in r <==> l in links && ShouldCrawlLink(l, baseUrl, patterns)
  {
    if links != [] {
      var init := links[..|links| - 1];
      EligibleMembers(init, baseUrl, patterns);
      assert links == init + [links[|links| - 1]];
    }
  }

  /** The queue entries for `urls`, all at `depth`. */
  function EntriesAt(urls: seq<string>, depth: int): seq<Entry> {
    seq(|urls|, i requires 0 <= i < |urls| => Entry(urls[i], depth))
  }

  /** The edges from `from` to each of `urls`. */
  function EdgesFrom(from: string, urls: seq<string>): seq<Edge> {
    seq(|urls|, i requires 0 <= i < |urls| => Edge(from, urls[i], References))
  }

  /** The state before the first iteration: only the base URL, at depth 0, is queued. */
  function Init(baseUrl: string): (r: State)
    ensures Continues(r) && r.queue == [Entry(baseUrl, 0)]
    ensures r.visited == {} && r.nodes == map[] && r.relationships == [] && r.log == []
  {
    State([Entry(baseUrl, 0)], {}, map[], [], [])
  }

  /** A URL the traversal may queue: the base URL itself, or a link that passes the filter. */
  predicate Admitted(u: string, baseUrl: string, patterns: Option<seq<string>>) {
    u == baseUrl || ShouldCrawlLink(u, baseUrl, patterns)
  }

  /** Whether the popped entry is dropped without a fetch. */
  predicate Skipped(e: Entry, visited: set<string>, depth: int) {
    e.url in visited || e.depth > depth
  }

  /**
   * The links a fetched page contributes: its eligible links when the fetch
   * succeeded and the page lies above the depth bound, and none otherwise.
   */
  function Followed(page: Response, pageDepth: int, baseUrl: string, depth: int,
                    patterns: Option<seq<string>>): (r: seq<string>)
    ensures r != [] ==> page.Succeeded() && pageDepth < depth
  {
    if page.Succeeded() && pageDepth < depth then Eligible(page.LinksOf(), baseUrl, patterns) else []
  }

  /** One iteration of the loop: pop, then skip, or fetch, record the node and queue the eligible links. */
  function Step(s: State, baseUrl: string, depth: int, patterns: Option<seq<string>>,
                fetch: string -> Response): (r: State)
    requires s.queue != []
    ensures Skipped(s.queue[0], s.visited, depth) ==> r == s.(queue := s.queue[1..])
    ensures !Skipped(s.queue[0], s.visited, depth) ==>
      && r.visited == s.visited + {s.queue[0].url}
      && |r.visited| == |s.visited| + 1
      && r.log == s.log + [s.queue[0]]
  {
    var e := s.queue[0];
    if Skipped(e, s.visited, depth) then
      s.(queue := s.queue[1..])
    else
      var page := fetch(e.url);
      var found := Followed(page, e.depth, baseUrl, depth, patterns);
      State(s.queue[1..] + EntriesAt(found, e.depth + 1),
            s.visited + {e.url},
            if page.Succeeded() then s.nodes[e.url := NodeOf(page, e.depth)] else s.nodes,
            s.relationships + EdgesFrom(e.url, found),
            s.log + [e])
  }

  /** `Step` on an entry that is fetched, component by component. */
  lemma StepFetches(s: State, baseUrl: string, depth: int, patterns: Option<seq<string>>,
                    fetch: string -> Response, page: Response)
    requires s.queue != [] && !Skipped(s.queue[0], s.visited, depth) && page == fetch(s.queue[0].url)
    ensures var e := s.queue[0];
      var found := Followed(page, e.depth, baseUrl, depth, patterns);
      Step(s, baseUrl, depth, patterns, fetch)
        == State(s.queue[1..] + EntriesAt(found, e.depth + 1),
                 s.visited + {e.url},
                 if page.Succeeded() then s.nodes[e.url := NodeOf(page, e.depth)] else s.nodes,
                 s.relationships + EdgesFrom(e.url, found),
                 s.log + [e])
  {
  }

  /** Whether the loop goes on: the queue is not empty and fewer than 50 URLs are visited. */
  predicate Continues(s: State) {
    s.queue != [] && |s.visited| < PageLimit
  }

  /** The loop run to completion from `s`. */
  function Run(s: State, baseUrl: string, depth: int, patterns: Option<seq<string>>,
               fetch: string -> Response): (r: State)
    requires |s.visited| <= PageLimit
    ensures |r.visited| <= PageLimit
    ensures !Continues(r)
    decreases PageLimit - |s.visited|, |s.queue|
  {
    if !Continues(s) then s
    else Run(Step(s, baseUrl, depth, patterns, fetch), baseUrl, depth, patterns, fetch)
  }

  /** `extend_knowledge_graph(framework_name, base_url, depth, patterns)` over the page source `fetch`. */
  function Extend(frameworkName: string, baseUrl: string, depth: int, patterns: Option<seq<string>>,
                  fetch: string -> Response): (g: Graph)
    ensures g.framework == frameworkName && g.baseUrl == baseUrl
  {
    var last := Run(Init(baseUrl), baseUrl, depth, patterns, fetch);
    Graph(frameworkName, baseUrl, last.nodes, last.relationships)
  }

  /** The entries `extend_knowledge_graph` fetches, in the order it fetches them. */
  function Fetched(baseUrl: string, depth: int, patterns: Option<seq<string>>, fetch: string -> Response): seq<Entry> {
    Run(Init(baseUrl), baseUrl, depth, patterns, fetch).log
  }

  // ---------------------------------------------------------------------
  // Invariants of the loop

  /** The URLs of a sequence of entries. */
  function UrlsOf(entries: seq<Entry>): (r: set<string>)
    ensures forall u :: u in r <==> exists i :: 0 <= i < |entries| && entries[i].url == u
  {
    if entries == [] then {}
    else UrlsOf(entries[..|entries| - 1]) + {entries[|entries| - 1].url}
  }

  /** No URL is fetched twice, and the fetched URLs are exactly the visited ones. */
  ghost predicate FetchedOnce(s: State) {
    && (forall i, j :: 0 <= i < j < |s.log| ==> s.log[i].url != s.log[j].url)
    && s.visited == UrlsOf(s.log)
    && |s.log| == |s.visited|
  }

  /** Nodes exist exactly for the visited URLs whose fetch succeeded. */
  ghost predicate NodesAreSuccesses(s: State, fetch: string -> Response) {
    && s.nodes.Keys <= s.visited
    && (forall u :: u in s.visited ==> (u in s.nodes <==> fetch(u).Succeeded()))
  }

  /** Each node holds its page, at a depth within the bound. */
  ghost predicate NodesHoldPages(s: State, depth: int, fetch: string -> Response) {
    forall u :: u in s.nodes ==>
      fetch(u).Crawled? && s.nodes[u] == NodeOf(fetch(u), s.nodes[u].depth) && 0 <= s.nodes[u].depth <= depth
  }

  /** Each node's depth is the depth at which its URL was fetched. */
  ghost predicate NodeDepthsFromLog(s: State) {
    forall i :: 0 <= i < |s.log| && s.log[i].url in s.nodes ==> s.nodes[s.log[i].url].depth == s.log[i].depth
  }

  ghost predicate NodesFromPages(s: State, depth: int, fetch: string -> Response) {
    NodesAreSuccesses(s, fetch) && NodesHoldPages(s, depth, fetch) && NodeDepthsFromLog(s)
  }

  /** Queued depths are never negative, and only the root entry may be deeper than `depth`. */
  ghost predicate QueueDepths(s: State, depth: int) {
    forall i :: 0 <= i < |s.queue| ==> 0 <= s.queue[i].depth && (s.queue[i].depth <= depth || s.queue[i].depth == 0)
  }

  /** Every edge starts at a node above the depth bound and ends at an eligible link of that page. */
  ghost predicate EdgesValid(s: State, baseUrl: string, depth: int, patterns: Option<seq<string>>,
                             fetch: string -> Response) {
    forall e :: e in s.relationships ==>
      && e.from in s.nodes
      && s.nodes[e.from].depth < depth
      && e.kind == References
      && e.to in fetch(e.from).LinksOf()
      && ShouldCrawlLink(e.to, baseUrl, patterns)
  }

  /** Fetches happen by non-decreasing depth. */
  ghost predicate LogSorted(s: State) {
    forall i, j :: 0 <= i < j < |s.log| ==> s.log[i].depth <= s.log[j].depth
  }

  /** The queue is sorted by depth and spans at most two consecutive levels. */
  ghost predicate QueueSorted(s: State) {
    forall i, j :: 0 <= i < j < |s.queue| ==> s.queue[i].depth <= s.queue[j].depth <= s.queue[i].depth + 1
  }

  /** Nothing queued is shallower than anything already fetched. */
  ghost predicate LogBeforeQueue(s: State) {
    forall i, j :: 0 <= i < |s.log| && 0 <= j < |s.queue| ==> s.log[i].depth <= s.queue[j].depth
  }

  /** Breadth-first order. */
  ghost predicate BreadthFirst(s: State) {
    LogSorted(s) && QueueSorted(s) && LogBeforeQueue(s)
  }

  /** Every queued entry and every visited URL is admitted. */
  ghost predicate InScope(s: State, baseUrl: string, patterns: Option<seq<string>>) {
    && (forall i :: 0 <= i < |s.queue| ==> Admitted(s.queue[i].url, baseUrl, patterns))
    && (forall u :: u in s.visited ==> Admitted(u, baseUrl, patterns))
  }

  /**
   * The edges contributed by the fetches of `log`, in fetch order: for each
   * fetched page, one edge to each link it contributes, in link order.
   */
  function EdgesOfLog(log: seq<Entry>, baseUrl: string, depth: int, patterns: Option<seq<string>>,
                      fetch: string -> Response): seq<Edge> {
    if log == [] then []
    else
      var e := log[|log| - 1];
      EdgesOfLog(log[..|log| - 1], baseUrl, depth, patterns, fetch)
        + EdgesFrom(e.url, Followed(fetch(e.url), e.depth, baseUrl, depth, patterns))
  }

  /** The relationships are exactly the edges of the fetches so far. */
  ghost predicate EdgesFromLog(s: State, baseUrl: string, depth: int, patterns: Option<seq<string>>,
                               fetch: string -> Response) {
    s.relationships == EdgesOfLog(s.log, baseUrl, depth, patterns, fetch)
  }

  ghost predicate Invariant(s: State, baseUrl: string, depth: int, patterns: Option<seq<string>>,
                            fetch: string -> Response) {
    && |s.visited| <= PageLimit
    && FetchedOnce(s)
    && NodesFromPages(s, depth, fetch)
    && QueueDepths(s, depth)
    && EdgesValid(s, baseUrl, depth, patterns, fetch)
    && BreadthFirst(s)
    && InScope(s, baseUrl, patterns)
    && EdgesFromLog(s, baseUrl, depth, patterns, fetch)
  }

  /** The queue after a step that fetched the head and found `found`. */
  lemma {:induction false} QueueAfterFetch(q: seq<Entry>, found: seq<string>, d: int)
    requires q != []
    ensures var q' := q[1..] + EntriesAt(found, d);
      && |q'| == |q| - 1 + |found|
      && forall k :: 0 <= k < |q'| ==> q'[k] == if k < |q| - 1 then q[k + 1] else Entry(found[k - |q| + 1], d)
  {
  }

  /** The edges built for `urls` all start at `from`, are references, and end in `urls`. */
  lemma EdgesFromMembers(from: string, urls: seq<string>)
    ensures forall x :: x in EdgesFrom(from, urls) ==> x.from == from && x.kind == References && x.to in urls
  {
    forall x | x in EdgesFrom(from, urls)
      ensures x.from == from && x.kind == References && x.to in urls
    {
      var k :| 0 <= k < |urls| && EdgesFrom(from, urls)[k] == x;
    }
  }

  lemma {:induction false} StepKeepsFetchedOnce(s: State, baseUrl: string, depth: int, patterns: Option<seq<string>>,
                                               fetch: string -> Response)
    requires s.queue != [] && FetchedOnce(s)
    ensures FetchedOnce(Step(s, baseUrl, depth, patterns, fetch))
  {
    var e := s.queue[0];
    if !Skipped(e, s.visited, depth) {
      StepFetches(s, baseUrl, depth, patterns, fetch, fetch(e.url));
      var log' := s.log + [e];
      assert log'[..|log'| - 1] == s.log;
      assert UrlsOf(log') == UrlsOf(s.log) + {e.url};
      assert e.url !in s.visited;
      assert |s.visited + {e.url}| == |s.visited| + 1;
      forall i, j | 0 <= i < j < |log'|
        ensures log'[i].url != log'[j].url
      {
        if j == |s.log| {
          assert log'[i].url in UrlsOf(s.log);
        }
      }
    }
  }

  lemma {:induction false} StepKeepsNodesAreSuccesses(s: State, baseUrl: string, depth: int,
                                                    patterns: Option<seq<string>>, fetch: string -> Response)
    requires s.queue != [] && NodesAreSuccesses(s, fetch)
    ensures NodesAreSuccesses(Step(s, baseUrl, depth, patterns, fetch), fetch)
  {
    var e := s.queue[0];
    if !Skipped(e, s.visited, depth) {
      StepFetches(s, baseUrl, depth, patterns, fetch, fetch(e.url));
    }
  }

  lemma {:induction false} StepKeepsNodesHoldPages(s: State, baseUrl: string, depth: int,
                                                  patterns: Option<seq<string>>, fetch: string -> Response)
    requires s.queue != [] && NodesHoldPages(s, depth, fetch) && QueueDepths(s, depth)
    ensures NodesHoldPages(Step(s, baseUrl, depth, patterns, fetch), depth, fetch)
  {
    var e := s.queue[0];
    if !Skipped(e, s.visited, depth) {
      StepFetches(s, baseUrl, depth, patterns, fetch, fetch(e.url));
      assert 0 <= e.depth <= depth;
    }
  }

  lemma {:induction false} StepKeepsNodeDepthsFromLog(s: State, baseUrl: string, depth: int,
                                                     patterns: Option<seq<string>>, fetch: string -> Response)
    requires s.queue != [] && FetchedOnce(s) && NodesAreSuccesses(s, fetch) && NodeDepthsFromLog(s)
    ensures NodeDepthsFromLog(Step(s, baseUrl, depth, patterns, fetch))
  {
    var e := s.queue[0];
    if !Skipped(e, s.visited, depth) {
      StepFetches(s, baseUrl, depth, patterns, fetch, fetch(e.url));
      var r := Step(s, baseUrl, depth, patterns, fetch);
      forall i | 0 <= i < |r.log| && r.log[i].url in r.nodes
        ensures r.nodes[r.log[i].url].depth == r.log[i].depth
      {
        if i < |s.log| {
          assert r.log[i] == s.log[i];
          assert s.log[i].url in s.visited;
        }
      }
    }
  }

  lemma {:induction false} StepKeepsQueueDepths(s: State, baseUrl: string, depth: int, patterns: Option<seq<string>>,
                                               fetch: string -> Response)
    requires s.queue != [] && QueueDepths(s, depth)
    ensures QueueDepths(Step(s, baseUrl, depth, patterns, fetch), depth)
  {
    var e := s.queue[0];
    if !Skipped(e, s.visited, depth) {
      var found := Followed(fetch(e.url), e.depth, baseUrl, depth, patterns);
      QueueAfterFetch(s.queue, found, e.depth + 1);
      assert found != [] ==> e.depth < depth;
    }
  }

  lemma {:induction false} StepKeepsEdges(s: State, baseUrl: string, depth: int, patterns: Option<seq<string>>,
                                         fetch: string -> Response)
    requires s.queue != [] && FetchedOnce(s) && NodesFromPages(s, depth, fetch)
    requires EdgesValid(s, baseUrl, depth, patterns, fetch)
    ensures EdgesValid(Step(s, baseUrl, depth, patterns, fetch), baseUrl, depth, patterns, fetch)
  {
    var e := s.queue[0];
    if !Skipped(e, s.visited, depth) {
      var page := fetch(e.url);
      var r := Step(s, baseUrl, depth, patterns, fetch);
      var found := Followed(page, e.depth, baseUrl, depth, patterns);
      assert e.url !in s.nodes;
      EdgesFromMembers(e.url, found);
      if found != [] {
        EligibleMembers(page.LinksOf(), baseUrl, patterns);
      }
      forall x | x in r.relationships
        ensures x.from in r.nodes && r.nodes[x.from].depth < depth && x.kind == References
        ensures x.to in fetch(x.from).LinksOf() && ShouldCrawlLink(x.to, baseUrl, patterns)
      {
        if x !in s.relationships {
          assert x in EdgesFrom(e.url, found);
        }
      }
    }
  }

  lemma {:induction false} StepKeepsLogSorted(s: State, baseUrl: string, depth: int, patterns: Option<seq<string>>,
                                             fetch: string -> Response)
    requires s.queue != [] && LogSorted(s) && LogBeforeQueue(s)
    ensures LogSorted(Step(s, baseUrl, depth, patterns, fetch))
  {
    var e := s.queue[0];
    if !Skipped(e, s.visited, depth) {
      StepFetches(s, baseUrl, depth, patterns, fetch, fetch(e.url));
    }
  }

  lemma {:induction false} StepKeepsQueueSorted(s: State, baseUrl: string, depth: int, patterns: Option<seq<string>>,
                                               fetch: string -> Response)
    requires s.queue != [] && QueueSorted(s)
    ensures QueueSorted(Step(s, baseUrl, depth, patterns, fetch))
  {
    var e := s.queue[0];
    if !Skipped(e, s.visited, depth) {
      StepFetches(s, baseUrl, depth, patterns, fetch, fetch(e.url));
      assert forall j :: 0 <= j < |s.queue| ==> e.depth <= s.queue[j].depth <= e.depth + 1;
      QueueAfterFetch(s.queue, Followed(fetch(e.url), e.depth, baseUrl, depth, patterns), e.depth + 1);
    }
  }

  lemma {:induction false} StepKeepsLogBeforeQueue(s: State, baseUrl: string, depth: int,
                                                  patterns: Option<seq<string>>, fetch: string -> Response)
    requires s.queue != [] && QueueSorted(s) && LogBeforeQueue(s)
    ensures LogBeforeQueue(Step(s, baseUrl, depth, patterns, fetch))
  {
    var e := s.queue[0];
    if !Skipped(e, s.visited, depth) {
      StepFetches(s, baseUrl, depth, patterns, fetch, fetch(e.url));
      assert forall j :: 0 <= j < |s.queue| ==> e.depth <= s.queue[j].depth;
      QueueAfterFetch(s.queue, Followed(fetch(e.url), e.depth, baseUrl, depth, patterns), e.depth + 1);
    }
  }

  lemma {:induction false} StepKeepsInScope(s: State, baseUrl: string, depth: int, patterns: Option<seq<string>>,
                                           fetch: string -> Response)
    requires s.queue != [] && InScope(s, baseUrl, patterns)
    ensures InScope(Step(s, baseUrl, depth, patterns, fetch), baseUrl, patterns)
  {
    var e := s.queue[0];
    if !Skipped(e, s.visited, depth) {
      var page := fetch(e.url);
      var found := Followed(page, e.depth, baseUrl, depth, patterns);
      StepFetches(s, baseUrl, depth, patterns, fetch, page);
      QueueAfterFetch(s.queue, found, e.depth + 1);
      EligibleMembers(page.LinksOf(), baseUrl, patterns);
      assert forall k :: 0 <= k < |found| ==> found[k] in found;
    }
  }

  lemma {:induction false} StepKeepsEdgesFromLog(s: State, baseUrl: string, depth: int,
                                                patterns: Option<seq<string>>, fetch: string -> Response)
    requires s.queue != [] && EdgesFromLog(s, baseUrl, depth, patterns, fetch)
    ensures EdgesFromLog(Step(s, baseUrl, depth, patterns, fetch), baseUrl, depth, patterns, fetch)
  {
    var e := s.queue[0];
    if !Skipped(e, s.visited, depth) {
      StepFetches(s, baseUrl, depth, patterns, fetch, fetch(e.url));
      var log' := s.log + [e];
      assert log'[..|log'| - 1] == s.log;
    }
  }

  /** The state before the first iteration satisfies the invariant. */
  lemma InitInvariant(baseUrl: string, depth: int, patterns: Option<seq<string>>, fetch: string -> Response)
    ensures Invariant(Init(baseUrl), baseUrl, depth, patterns, fetch)
  {
    assert UrlsOf(Init(baseUrl).log) == {};
  }

  lemma {:induction false} StepKeepsInvariant(s: State, baseUrl: string, depth: int, patterns: Option<seq<string>>,
                                             fetch: string -> Response)
    requires Continues(s) && Invariant(s, baseUrl, depth, patterns, fetch)
    ensures Invariant(Step(s, baseUrl, depth, patterns, fetch), baseUrl, depth, patterns, fetch)
  {
    StepKeepsFetchedOnce(s, baseUrl, depth, patterns, fetch);
    StepKeepsNodesAreSuccesses(s, baseUrl, depth, patterns, fetch);
    StepKeepsNodesHoldPages(s, baseUrl, depth, patterns, fetch);
    StepKeepsNodeDepthsFromLog(s, baseUrl, depth, patterns, fetch);
    StepKeepsQueueDepths(s, baseUrl, depth, patterns, fetch);
    StepKeepsEdges(s, baseUrl, depth, patterns, fetch);
    StepKeepsLogSorted(s, baseUrl, depth, patterns, fetch);
    StepKeepsQueueSorted(s, baseUrl, depth, patterns, fetch);
    StepKeepsLogBeforeQueue(s, baseUrl, depth, patterns, fetch);
    StepKeepsInScope(s, baseUrl, depth, patterns, fetch);
    StepKeepsEdgesFromLog(s, baseUrl, depth, patterns, fetch);
  }

  /** The loop preserves the invariant all the way to its end. */
  lemma {:induction false} RunKeepsInvariant(s: State, baseUrl: string, depth: int, patterns: Option<seq<string>>,
                                            fetch: string -> Response)
    requires Invariant(s, baseUrl, depth, patterns, fetch)
    ensures Invariant(Run(s, baseUrl, depth, patterns, fetch), baseUrl, depth, patterns, fetch)
    decreases PageLimit - |s.visited|, |s.queue|
  {
    if Continues(s) {
      StepKeepsInvariant(s, baseUrl, depth, patterns, fetch);
      RunKeepsInvariant(Step(s, baseUrl, depth, patterns, fetch), baseUrl, depth, patterns, fetch);
    }
  }

  /** A set inside another is no larger. */
  lemma {:induction false} SubsetNoLarger<T>(a: set<T>, b: set<T>)
    requires a <= b
    ensures |a| <= |b|
    decreases |b|
  {
    if a != {} {
      var x :| x in a;
      SubsetNoLarger(a - {x}, b - {x});
    }
  }

  /**
   * What the finished traversal promises: it stopped because the queue ran out
   * or 50 URLs were visited; each URL was fetched at most once, in breadth-first
   * order, and is the base URL or a link that passes the filter; a node exists
   * for exactly the visited URLs whose fetch succeeded, holds that page at the
   * depth it was fetched at, within the bound; and the relationships are
   * exactly the edges of the fetched pages, in fetch order.
   */
  lemma TraversalFacts(baseUrl: string, depth: int, patterns: Option<seq<string>>, fetch: string -> Response)
    ensures var last := Run(Init(baseUrl), baseUrl, depth, patterns, fetch);
      && (last.queue == [] || |last.visited| == PageLimit)
      && |last.log| == |last.visited| <= PageLimit
      && last.visited == UrlsOf(last.log)
      && (forall i, j :: 0 <= i < j < |last.log| ==> last.log[i].url != last.log[j].url)
      && (forall i, j :: 0 <= i < j < |last.log| ==> last.log[i].depth <= last.log[j].depth)
      && (forall u :: u in last.visited ==> Admitted(u, baseUrl, patterns))
      && |last.nodes| <= PageLimit
      && (forall u :: u in last.visited ==> (u in last.nodes <==> fetch(u).Succeeded()))
      && (forall u :: u in last.nodes ==>
            && u in last.visited && fetch(u).Crawled?
            && last.nodes[u] == NodeOf(fetch(u), last.nodes[u].depth) && 0 <= last.nodes[u].depth <= depth)
      && (forall i :: 0 <= i < |last.log| && last.log[i].url in last.nodes ==>
            last.nodes[last.log[i].url].depth == last.log[i].depth)
      && EdgesValid(last, baseUrl, depth, patterns, fetch)
      && last.relationships == EdgesOfLog(last.log, baseUrl, depth, patterns, fetch)
  {
    InitInvariant(baseUrl, depth, patterns, fetch);
    RunKeepsInvariant(Init(baseUrl), baseUrl, depth, patterns, fetch);
    var last := Run(Init(baseUrl), baseUrl, depth, patterns, fetch);
    SubsetNoLarger(last.nodes.Keys, last.visited);
  }

  /** The returned graph: its nodes and relationships are those of the finished traversal. */
  lemma ExtendFacts(frameworkName: string, baseUrl: string, depth: int, patterns: Option<seq<string>>,
                    fetch: string -> Response)
    ensures var g := Extend(frameworkName, baseUrl, depth, patterns, fetch);
      && g.framework == frameworkName && g.baseUrl == baseUrl
      && |g.nodes| <= PageLimit
      && (forall u :: u in g.nodes ==>
            && Admitted(u, baseUrl, patterns)
            && fetch(u).Succeeded()
            && g.nodes[u] == NodeOf(fetch(u), g.nodes[u].depth) && 0 <= g.nodes[u].depth <= depth)
      && (forall e :: e in g.relationships ==>
            && e.from in g.nodes && g.nodes[e.from].depth < depth && e.kind == References
            && e.to in fetch(e.from).LinksOf() && ShouldCrawlLink(e.to, baseUrl, patterns))
  {
    TraversalFacts(baseUrl, depth, patterns, fetch);
  }

  /** Under the invariant, every fetched URL is visited, hence admitted, and has a node exactly on success. */
  lemma {:induction false} LoggedUrls(s: State, baseUrl: string, depth: int, patterns: Option<seq<string>>,
                                      fetch: string -> Response)
    requires FetchedOnce(s) && NodesAreSuccesses(s, fetch) && InScope(s, baseUrl, patterns)
    ensures forall i :: 0 <= i < |s.log| ==>
      && Admitted(s.log[i].url, baseUrl, patterns)
      && (s.log[i].url in s.nodes <==> fetch(s.log[i].url).Succeeded())
  {
    forall i | 0 <= i < |s.log|
      ensures s.log[i].url in s.visited
    {
      assert s.log[i].url in UrlsOf(s.log);
    }
  }

  /**
   * The fetches of the traversal: at most 50 distinct URLs, fetched by
   * non-decreasing depth, each the base URL or a link that passes the filter.
   */
  lemma FetchedFacts(baseUrl: string, depth: int, patterns: Option<seq<string>>, fetch: string -> Response)
    ensures var order := Fetched(baseUrl, depth, patterns, fetch);
      && |order| <= PageLimit
      && (forall i, j :: 0 <= i < j < |order| ==> order[i].url != order[j].url)
      && (forall i, j :: 0 <= i < j < |order| ==> order[i].depth <= order[j].depth)
      && (forall i :: 0 <= i < |order| ==> Admitted(order[i].url, baseUrl, patterns))
  {
    InitInvariant(baseUrl, depth, patterns, fetch);
    RunKeepsInvariant(Init(baseUrl), baseUrl, depth, patterns, fetch);
    ghost var last := Run(Init(baseUrl), baseUrl, depth, patterns, fetch);
    LoggedUrls(last, baseUrl, depth, patterns, fetch);
  }

  /**
   * The returned graph against the order of the fetches: each fetched URL has
   * a node exactly when its fetch succeeded, at the depth it was fetched at,
   * and every node is a fetched URL; the relationships are, page by page in
   * fetch order, one edge to each link the page contributes.
   */
  lemma ExtendOrder(frameworkName: string, baseUrl: string, depth: int, patterns: Option<seq<string>>,
                    fetch: string -> Response)
    ensures var g, order := Extend(frameworkName, baseUrl, depth, patterns, fetch), Fetched(baseUrl, depth, patterns, fetch);
      && (forall i :: 0 <= i < |order| ==> (order[i].url in g.nodes <==> fetch(order[i].url).Succeeded()))
      && (forall i :: 0 <= i < |order| && order[i].url in g.nodes ==> g.nodes[order[i].url].depth == order[i].depth)
      && g.nodes.Keys <= UrlsOf(order)
      && g.relationships == EdgesOfLog(order, baseUrl, depth, patterns, fetch)
  {
    InitInvariant(baseUrl, depth, patterns, fetch);
    RunKeepsInvariant(Init(baseUrl), baseUrl, depth, patterns, fetch);
    ghost var last := Run(Init(baseUrl), baseUrl, depth, patterns, fetch);
    LoggedUrls(last, baseUrl, depth, patterns, fetch);
  }

  // ---------------------------------------------------------------------
  // What pages without links and the first iteration contribute

  /** A page source whose pages never carry a link. */
  ghost predicate NoLinks(fetch: string -> Response) {
    forall u :: fetch(u).LinksOf() == []
  }

  /** Nothing beyond the base URL is queued or recorded, and no edge exists. */
  ghost predicate RootOnly(s: State, baseUrl: string) {
    && s.relationships == []
    && s.nodes.Keys <= {baseUrl}
    && forall i :: 0 <= i < |s.queue| ==> s.queue[i].url == baseUrl
  }

  /** Without links the loop never leaves the base URL. */
  lemma {:induction false} RunWithoutLinks(s: State, baseUrl: string, depth: int, patterns: Option<seq<string>>,
                                           fetch: string -> Response)
    requires |s.visited| <= PageLimit && NoLinks(fetch) && RootOnly(s, baseUrl)
    ensures RootOnly(Run(s, baseUrl, depth, patterns, fetch), baseUrl)
    decreases PageLimit - |s.visited|, |s.queue|
  {
    if Continues(s) {
      var e := s.queue[0];
      if !Skipped(e, s.visited, depth) {
        StepFetches(s, baseUrl, depth, patterns, fetch, fetch(e.url));
        assert fetch(e.url).LinksOf() == [];
        assert Followed(fetch(e.url), e.depth, baseUrl, depth, patterns) == [];
      }
      RunWithoutLinks(Step(s, baseUrl, depth, patterns, fetch), baseUrl, depth, patterns, fetch);
    }
  }

  /** For a page source without links the graph has no edge and no node but the base URL's. */
  lemma WithoutLinksOnlyRoot(frameworkName: string, baseUrl: string, depth: int, patterns: Option<seq<string>>,
                             fetch: string -> Response)
    requires NoLinks(fetch)
    ensures var g := Extend(frameworkName, baseUrl, depth, patterns, fetch);
      g.relationships == [] && g.nodes.Keys <= {baseUrl}
  {
    RunWithoutLinks(Init(baseUrl), baseUrl, depth, patterns, fetch);
  }

  /** Relationships are only ever appended. */
  lemma {:induction false} RunExtendsRelationships(s: State, baseUrl: string, depth: int,
                                                   patterns: Option<seq<string>>, fetch: string -> Response)
    requires |s.visited| <= PageLimit
    ensures s.relationships <= Run(s, baseUrl, depth, patterns, fetch).relationships
    decreases PageLimit - |s.visited|, |s.queue|
  {
    if Continues(s) {
      var t := Step(s, baseUrl, depth, patterns, fetch);
      if !Skipped(s.queue[0], s.visited, depth) {
        StepFetches(s, baseUrl, depth, patterns, fetch, fetch(s.queue[0].url));
      }
      assert s.relationships <= t.relationships;
      RunExtendsRelationships(t, baseUrl, depth, patterns, fetch);
    }
  }

  /** The first edges of the graph are those from the base URL to its followed links, in order. */
  lemma RootEdgesFirst(frameworkName: string, baseUrl: string, depth: int, patterns: Option<seq<string>>,
                       fetch: string -> Response)
    ensures EdgesFrom(baseUrl, Followed(fetch(baseUrl), 0, baseUrl, depth, patterns))
         <= Extend(frameworkName, baseUrl, depth, patterns, fetch).relationships
  {
    var s := Init(baseUrl);
    var t := Step(s, baseUrl, depth, patterns, fetch);
    if !Skipped(s.queue[0], s.visited, depth) {
      StepFetches(s, baseUrl, depth, patterns, fetch, fetch(baseUrl));
    }
    RunExtendsRelationships(t, baseUrl, depth, patterns, fetch);
  }
}
