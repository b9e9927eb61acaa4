/**
 * The extraction-type dispatch of `crawl_documentation`: choose a crawler
 * configuration by extraction type, call the crawler once, and shape the
 * response. The crawler (`AsyncWebCrawler.arun`, with the browser and the
 * language-model extraction behind it) is the oracle `arun`: a function from
 * a URL and a configuration to what the call produced, a result or an
 * exception.
 */
module Dispatch {
  import opened Wrappers

  /** The three entries of the configuration table. */
  datatype Config = MarkdownConfig | StructuredConfig | LinksConfig

  /** The configuration table, keyed by extraction type. */
  const ExtractionConfigs: map<string, Config> :=
    map["markdown" := MarkdownConfig, "structured" := StructuredConfig, "links" := LinksConfig]

  /** An API method object of the structured extraction schema, kept opaque. */
  datatype ApiMethod = ApiMethod(attributes: map<string, string>)

  /** The structured extraction; a key the extractor did not fill is `None`. */
  datatype Extraction = Extraction(mainConcepts: Option<seq<string>>, apiMethods: Option<seq<ApiMethod>>)

  /** What a crawler call returns when it does not raise. */
  datatype CrawlerResult = CrawlerResult(
    success: bool,
    markdown: string,
    extracted: Extraction,
    links: seq<string>,
    metadata: map<string, string>)

  /** A crawler call either returns a result or raises an exception with a message. */
  datatype CrawlOutcome = Returned(result: CrawlerResult) | Raised(message: string)

  /** The `content` field of a response: the page's markdown or the extracted content. */
  datatype Content = MarkdownText(text: string) | ExtractedContent(extraction: Extraction)

  /** The dictionary `crawl_documentation` returns: the normal shape, or the exception shape. */
  datatype Response =
    | Crawled(url: string, title: string, content: Content, links: seq<string>,
              metadata: map<string, string>, success: bool)
    | Failed(url: string, error: string)
  {
    /** `result.get("success")`: the exception shape carries `success = False`. */
    predicate Succeeded()
      ensures Succeeded() ==> Crawled?
      ensures Crawled? ==> (Succeeded() <==> success)
    {
      Crawled? && success
    }

    /** `result.get("links", [])`: the exception shape has no links. */
    function LinksOf(): (r: seq<string>)
      ensures Failed? ==> r == []
      ensures Crawled? ==> r == links
    {
      if Crawled? then links else []
    }

    /** `result.get("content", {}).get("main_concepts", [])`. */
    function Concepts(): (r: seq<string>)
      ensures Crawled? && content.ExtractedContent? && content.extraction.mainConcepts.Some? ==>
        r == content.extraction.mainConcepts.value
      ensures !(Crawled? && content.ExtractedContent? && content.extraction.mainConcepts.Some?) ==> r == []
    {
      if Crawled? && content.ExtractedContent? then content.extraction.mainConcepts.GetOr([]) else []
    }

    /** `result.get("content", {}).get("api_methods", [])`. */
    function Apis(): (r: seq<ApiMethod>)
      ensures Crawled? && content.ExtractedContent? && content.extraction.apiMethods.Some? ==>
        r == content.extraction.apiMethods.value
      ensures !(Crawled? && content.ExtractedContent? && content.extraction.apiMethods.Some?) ==> r == []
    {
      if Crawled? && content.ExtractedContent? then content.extraction.apiMethods.GetOr([]) else []
    }
  }

  /** The configuration picked for an extraction type: unknown types fall back to markdown. */
  function ConfigFor(extractType: string): (c: Config)
    ensures c == StructuredConfig <==> extractType == "structured"
    ensures c == LinksConfig <==> extractType == "links"
    ensures c == MarkdownConfig <==> extractType != "structured" && extractType != "links"
  {
    if extractType in ExtractionConfigs then ExtractionConfigs[extractType] else ExtractionConfigs["markdown"]
  }

  /** `result.metadata.get("title", "")`. */
  function TitleOf(metadata: map<string, string>): (title: string)
    ensures "title" in metadata ==> title == metadata["title"]
    ensures "title" !in metadata ==> title == ""
  {
    if "title" in metadata then metadata["title"] else ""
  }

  /**
   * `crawl_documentation(url, extract_type)`: one crawler call with the
   * configuration of `extract_type`; an exception becomes the error shape.
   */
  function CrawlDocumentation(url: string, extractType: string, arun: (string, Config) -> CrawlOutcome): (r: Response)
    ensures r.url == url
    ensures r.Failed? <==> arun(url, ConfigFor(extractType)).Raised?
    ensures r.Failed? ==> !r.Succeeded() && r.error == arun(url, ConfigFor(extractType)).message
    ensures r.Crawled? ==> r.success == arun(url, ConfigFor(extractType)).result.success
    ensures r.Crawled? ==> r.metadata == arun(url, ConfigFor(extractType)).result.metadata
    ensures r.Crawled? ==> r.title == TitleOf(r.metadata)
    ensures extractType != "links" ==> r.LinksOf() == []
    ensures r.Crawled? && extractType == "links" ==> r.links == arun(url, LinksConfig).result.links
    ensures r.Crawled? ==> (r.content.MarkdownText? <==> extractType == "markdown")
    ensures r.Crawled? && extractType == "markdown" ==> r.content.text == arun(url, MarkdownConfig).result.markdown
    ensures r.Crawled? && extractType != "markdown" ==>
      r.content.extraction == arun(url, ConfigFor(extractType)).result.extracted
  {
    match arun(url, ConfigFor(extractType))
    case Raised(message) => Failed(url, message)
    case Returned(res) =>
      Crawled(url, TitleOf(res.metadata),
              if extractType == "markdown" then MarkdownText(res.markdown) else ExtractedContent(res.extracted),
              if extractType == "links" then res.links else [],
              res.metadata, res.success)
  }

  /**
   * An unrecognised extraction type calls the crawler exactly as "markdown"
   * does, yet answers with the extracted content instead of the markdown.
   */
  lemma UnknownTypeCrawlsAsMarkdown(url: string, extractType: string, arun: (string, Config) -> CrawlOutcome)
    requires extractType !in ExtractionConfigs
    ensures ConfigFor(extractType) == ConfigFor("markdown")
    ensures var r, m := CrawlDocumentation(url, extractType, arun), CrawlDocumentation(url, "markdown", arun);
      && (m.Failed? ==> r == m)
      && (m.Crawled? ==> r == m.(content := ExtractedContent(arun(url, MarkdownConfig).result.extracted)))
  {
  }

  /**
   * The page a traversal needs: the structured response together with the
   * links the crawler found. `crawl_documentation(url, "structured")` itself
   * drops those links (its `links` is empty for every type but "links").
   */
  function TraversalPage(url: string, arun: (string, Config) -> CrawlOutcome): (r: Response)
    ensures var s := CrawlDocumentation(url, "structured", arun);
      && (s.Failed? ==> r == s)
      && (s.Crawled? ==> r == s.(links := arun(url, StructuredConfig).result.links))
    ensures r.Succeeded() <==> CrawlDocumentation(url, "structured", arun).Succeeded()
  {
    var s := CrawlDocumentation(url, "structured", arun);
    match arun(url, StructuredConfig)
    case Raised(_) => s
    case Returned(res) => s.(links := res.links)
  }

  /** As written, the structured response a traversal reads never carries a link. */
  lemma StructuredResponseHasNoLinks(url: string, arun: (string, Config) -> CrawlOutcome)
    ensures CrawlDocumentation(url, "structured", arun).LinksOf() == []
    ensures arun(url, StructuredConfig).Returned? ==>
      TraversalPage(url, arun).LinksOf() == arun(url, StructuredConfig).result.links
  {
  }
}
