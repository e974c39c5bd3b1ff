/** The paper-source layer of paper_sources.py: the two source adapters
    (ArXiv and Semantic Scholar), the aggregator that fans a query out to
    the requested adapters, and the enricher that prefixes every document
    with its provenance.

    Network access is not modelled: the ArXiv loader and the Semantic
    Scholar HTTP request are parameters whose answers are given. */
module PaperSources {
  import opened Wrappers
  import opened Strings

  /** A LangChain `Document`: the page content and a string-keyed metadata
      dictionary. A metadata slot that Python fills with `None` holds
      "None", the text the enricher's f-string prints for it. */
  type Metadata = map<string, string>
  datatype Document = Document(content: string, metadata: Metadata)

  /** A source adapter: `(query, max_results) -> List[Document]`. */
  type Adapter = (string, int) -> seq<Document>

  /** The registry `source_functions` of `search_all_sources`. */
  datatype Adapters = Adapters(arxiv: Adapter, semanticScholar: Adapter)

  const ArxivId: string := "arxiv"
  const SemanticScholarId: string := "semantic_scholar"

  // ================================================================ ArXiv

  /** `ArxivLoader(query, load_max_docs).load()`: the loaded documents, or
      the message of the exception it raised. */
  type Loader = (string, int) -> Result<seq<Document>, string>

  /** The url chosen for an ArXiv document, written as the source writes it:
      a falsy "Entry ID" (missing or empty) reads the key again with an
      empty default, a truthy one is copied. */
  function ArxivUrl(m: Metadata): string {
    if Get(m, "Entry ID", "") == "" then Get(m, "Entry ID", "") else m["Entry ID"]
  }

  /** The metadata stamping `search_arxiv` applies to each loaded document. */
  function StampArxiv(d: Document): (r: Document)
    ensures r.content == d.content
    ensures r.metadata.Keys == d.metadata.Keys + {"source", "source_name", "url"}
    ensures r.metadata["source"] == ArxivId && r.metadata["source_name"] == "ArXiv"
    ensures r.metadata["url"] == (if "Entry ID" in d.metadata then d.metadata["Entry ID"] else "")
    ensures forall k :: k in d.metadata && k != "source" && k != "source_name" && k != "url" ==>
              r.metadata[k] == d.metadata[k]
  {
    Document(d.content, d.metadata["source" := ArxivId]["source_name" := "ArXiv"]["url" := ArxivUrl(d.metadata)])
  }

  /** `search_arxiv(query, max_results)`: the loaded documents stamped one by
      one, or nothing when loading raised. */
  function SearchArxiv(loader: Loader, query: string, maxResults: int): (r: seq<Document>)
    ensures loader(query, maxResults).Failure? ==> r == []
    ensures loader(query, maxResults).Success? ==>
              var docs := loader(query, maxResults).value;
              && |r| == |docs|
              && forall i :: 0 <= i < |r| ==> r[i] == StampArxiv(docs[i])
  {
    match loader(query, maxResults)
    case Failure(_) => []
    case Success(docs) => seq(|docs|, i requires 0 <= i < |docs| => StampArxiv(docs[i]))
  }

  // ================================================================ Semantic Scholar

  /** A JSON field of a search hit as `item.get(key, default)` sees it. */
  datatype Field = Absent | Null | Text(text: string)

  /** The `year` field: absent, `null`, or a number. */
  datatype Year = YearAbsent | YearNull | YearValue(n: int)

  /** The `authors` field: absent, `null`, or a list of author objects,
      each given by its `name` field. */
  datatype AuthorList = NoAuthors | NullAuthors | AuthorNames(names: seq<Field>)

  /** One element of the response's `data` list. */
  datatype Item = Item(title: Field, authors: AuthorList, year: Year,
                       abstractText: Field, paperId: Field, url: Field)

  /** The `data` member of the parsed JSON body. */
  datatype Body = NoData | NullData | Items(items: seq<Item>)

  /** `requests.get(...)` followed by `response.json()`: either an exception
      (network failure, timeout, unparsable body) or a status and body. */
  datatype Reply = Raised(message: string) | Http(status: int, body: Body)

  /** The HTTP request, as a function of (query, limit parameter). */
  type Fetcher = (string, int) -> Reply

  const ApiCap: int := 100
  const PaperUrlPrefix: string := "https://www.semanticscholar.org/paper/"

  /** The `limit` request parameter: `min(max_results, 100)`. */
  function RequestLimit(maxResults: int): (r: int)
    ensures r <= ApiCap && r <= maxResults
    ensures r == ApiCap || r == maxResults
  {
    if maxResults < ApiCap then maxResults else ApiCap
  }

  /** Python's `s[:n]`, including a negative `n` (which counts from the end). */
  function PyPrefix<T>(s: seq<T>, n: int): (r: seq<T>)
    ensures r <= s
    ensures n >= 0 ==> |r| == (if n < |s| then n else |s|)
    ensures n < 0 ==> |r| == (if |s| + n > 0 then |s| + n else 0)
  {
    if n >= 0 then s[..(if n < |s| then n else |s|)]
    else s[..(if |s| + n > 0 then |s| + n else 0)]
  }

  /** `f"{item.get(key, default)}"`. */
  function Render(f: Field, default: string): string {
    match f
    case Absent => default
    case Null => "None"
    case Text(t) => t
  }

  /** Python truthiness of `item.get("paperId", "")`. */
  predicate PaperIdTruthy(f: Field) {
    f.Text? && f.text != ""
  }

  /** Python truthiness of `item.get("year", "")`. */
  predicate YearTruthy(y: Year) {
    y.YearValue? && y.n != 0
  }

  /** `f"{year}"` for the content. */
  function YearText(y: Year): string {
    match y
    case YearAbsent => ""
    case YearNull => "None"
    case YearValue(n) => IntToString(n)
  }

  /** `item.get("url", fallback)` with the fallback built from the paper id. */
  function ItemUrl(item: Item): string {
    match item.url
    case Absent => if PaperIdTruthy(item.paperId) then PaperUrlPrefix + item.paperId.text else ""
    case Null => "None"
    case Text(u) => u
  }

  /** The author names; `None` when `", ".join` or the iteration would
      raise `TypeError` (a `null` list or a `null` name). */
  function AuthorNamesOf(authors: AuthorList): (r: Option<seq<string>>)
    ensures r.Some? <==> (authors.NoAuthors? ||
                          (authors.AuthorNames? && forall i :: 0 <= i < |authors.names| ==> !authors.names[i].Null?))
    ensures r.Some? && authors.AuthorNames? ==> |r.value| == |authors.names|
    ensures r.Some? && authors.AuthorNames? ==>
              forall i :: 0 <= i < |r.value| ==>
                r.value[i] == (if authors.names[i].Text? then authors.names[i].text else "")
    ensures r.Some? && authors.NoAuthors? ==> r.value == []
  {
    match authors
    case NoAuthors => Some([])
    case NullAuthors => None
    case AuthorNames(names) =>
      if forall i :: 0 <= i < |names| ==> !names[i].Null?
      then Some(seq(|names|, i requires 0 <= i < |names| => Render(names[i], "")))
      else None
  }

  function SemanticScholarContent(item: Item, authors: string): string {
    "TÍTULO: " + Render(item.title, "") + "\nAUTORES: " + authors + "\nANO: " + YearText(item.year)
    + "\n\nRESUMO: " + Render(item.abstractText, "")
  }

  /** The document built from one search hit, or `None` when building it
      raises (which makes the whole adapter return nothing). */
  function ItemToDocument(item: Item): (r: Option<Document>)
    ensures r.Some? <==> AuthorNamesOf(item.authors).Some?
    ensures r.Some? ==>
              var m := r.value.metadata;
              && m.Keys == {"Title", "Authors", "Published", "source", "source_name", "url", "paperId"}
              && m["source"] == SemanticScholarId && m["source_name"] == "Semantic Scholar"
              && (m["Published"] == "" <==> !YearTruthy(item.year))
              && (YearTruthy(item.year) ==> m["Published"] == IntToString(item.year.n))
              && (item.url.Text? ==> m["url"] == item.url.text)
              && (item.url.Absent? && PaperIdTruthy(item.paperId) ==> m["url"] == PaperUrlPrefix + item.paperId.text)
              && (item.url.Absent? && !PaperIdTruthy(item.paperId) ==> m["url"] == "")
              && (item.url.Null? ==> m["url"] == "None")
              && m["Title"] == Render(item.title, "")
              && m["Authors"] == Join(AuthorNamesOf(item.authors).value, ", ")
              && m["paperId"] == Render(item.paperId, "")
              && r.value.content == SemanticScholarContent(item, m["Authors"])
  {
    match AuthorNamesOf(item.authors)
    case None => None
    case Some(names) =>
      var authors := Join(names, ", ");
      var published := if YearTruthy(item.year) then IntToString(item.year.n) else "";
      Some(Document(
        SemanticScholarContent(item, authors),
        map["Title" := Render(item.title, ""), "Authors" := authors, "Published" := published,
            "source" := SemanticScholarId, "source_name" := "Semantic Scholar",
            "url" := ItemUrl(item), "paperId" := Render(item.paperId, "")]))
  }

  /** The loop over the hits: all of them converted, or `None` as soon as
      one raises. */
  function ConvertItems(items: seq<Item>): (r: Option<seq<Document>>)
    ensures r.Some? <==> forall i :: 0 <= i < |items| ==> ItemToDocument(items[i]).Some?
    ensures r.Some? ==> |r.value| == |items|
    ensures r.Some? ==> forall i :: 0 <= i < |items| ==> r.value[i] == ItemToDocument(items[i]).value
  {
    if |items| == 0 then Some([])
    else
      match ItemToDocument(items[0])
      case None => None
      case Some(d) =>
        match ConvertItems(items[1..])
        case None => None
        case Some(ds) => Some([d] + ds)
  }

  /** `search_semantic_scholar(query, max_results)`. */
  function SearchSemanticScholar(fetch: Fetcher, query: string, maxResults: int): (r: seq<Document>)
    ensures fetch(query, RequestLimit(maxResults)).Raised? ==> r == []
    ensures fetch(query, RequestLimit(maxResults)).Http? && fetch(query, RequestLimit(maxResults)).status != 200 ==> r == []
    ensures maxResults >= 0 ==> |r| <= maxResults
    ensures forall i :: 0 <= i < |r| ==>
              r[i].metadata.Keys >= {"source", "source_name"} &&
              r[i].metadata["source"] == SemanticScholarId && r[i].metadata["source_name"] == "Semantic Scholar"
    ensures var reply := fetch(query, RequestLimit(maxResults));
            reply.Http? && reply.status == 200 && reply.body.Items? ==>
              var hits := PyPrefix(reply.body.items, maxResults);
              && (ConvertItems(hits).Some? ==> r == ConvertItems(hits).value)
              && (ConvertItems(hits).None? ==> r == [])
    ensures var reply := fetch(query, RequestLimit(maxResults));
            reply.Http? && reply.status == 200 && !reply.body.Items? ==> r == []
  {
    match fetch(query, RequestLimit(maxResults))
    case Raised(_) => []
    case Http(status, body) =>
      if status != 200 then []
      else
        match body
        case NoData => []
        case NullData => []
        case Items(items) =>
          match ConvertItems(PyPrefix(items, maxResults))
          case None => []
          case Some(docs) => docs
  }

  /** The two real adapters, over a given loader and HTTP fetcher. */
  function StandardAdapters(loader: Loader, fetch: Fetcher): Adapters {
    Adapters((q, n) => SearchArxiv(loader, q, n), (q, n) => SearchSemanticScholar(fetch, q, n))
  }

  // ================================================================ aggregation

  /** `source.lower() in source_functions`. */
  predicate IsKnownSource(source: string) {
    Lower(source) == ArxivId || Lower(source) == SemanticScholarId
  }

  /** The documents one requested source id contributes. */
  function Dispatch(adapters: Adapters, query: string, source: string, limit: int): (r: seq<Document>)
    ensures Lower(source) == ArxivId ==> r == adapters.arxiv(query, limit)
    ensures Lower(source) == SemanticScholarId ==> r == adapters.semanticScholar(query, limit)
    ensures !IsKnownSource(source) ==> r == []
  {
    var id := Lower(source);
    if id == ArxivId then adapters.arxiv(query, limit)
    else if id == SemanticScholarId then adapters.semanticScholar(query, limit)
    else []
  }

  /** `search_all_sources(query, sources, max_per_source)`. */
  function SearchAllSources(adapters: Adapters, query: string, sources: seq<string>, maxPerSource: int): (r: seq<Document>)
    ensures forall d :: d in r ==>
              exists i :: 0 <= i < |sources| && IsKnownSource(sources[i]) && d in Dispatch(adapters, query, sources[i], maxPerSource)
    ensures |sources| == 1 ==> r == Dispatch(adapters, query, sources[0], maxPerSource)
    decreases |sources|
  {
    if |sources| == 0 then []
    else Dispatch(adapters, query, sources[0], maxPerSource) + SearchAllSources(adapters, query, sources[1..], maxPerSource)
  }

  /** Requesting `a` then `b` yields `a`'s documents followed by `b`'s. */
  lemma {:induction false} SearchAllSourcesAppend(adapters: Adapters, query: string, a: seq<string>, b: seq<string>, limit: int)
    ensures SearchAllSources(adapters, query, a + b, limit)
         == SearchAllSources(adapters, query, a, limit) + SearchAllSources(adapters, query, b, limit)
  {
    if |a| > 0 {
      assert (a + b)[1..] == a[1..] + b;
      SearchAllSourcesAppend(adapters, query, a[1..], b, limit);
    } else {
      assert a + b == b;
    }
  }

  /** A document is in the aggregate exactly when some requested source
      contributed it. */
  lemma {:induction false} SearchAllSourcesMembership(adapters: Adapters, query: string, sources: seq<string>, limit: int, d: Document)
    ensures d in SearchAllSources(adapters, query, sources, limit)
        <==> exists i :: 0 <= i < |sources| && d in Dispatch(adapters, query, sources[i], limit)
  {
    if |sources| > 0 {
      SearchAllSourcesMembership(adapters, query, sources[1..], limit, d);
      if d in SearchAllSources(adapters, query, sources[1..], limit) {
        var i :| 0 <= i < |sources[1..]| && d in Dispatch(adapters, query, sources[1..][i], limit);
        assert d in Dispatch(adapters, query, sources[i + 1], limit);
      }
      if exists i :: 0 <= i < |sources| && d in Dispatch(adapters, query, sources[i], limit) {
        var i :| 0 <= i < |sources| && d in Dispatch(adapters, query, sources[i], limit);
        if i > 0 {
          assert sources[1..][i - 1] == sources[i];
        }
      }
    }
  }

  /** When no requested id names a known adapter, nothing is found. */
  lemma {:induction false} SearchAllSourcesNoneKnown(adapters: Adapters, query: string, sources: seq<string>, limit: int)
    requires forall i :: 0 <= i < |sources| ==> !IsKnownSource(sources[i])
    ensures SearchAllSources(adapters, query, sources, limit) == []
  {
    if |sources| > 0 {
      SearchAllSourcesNoneKnown(adapters, query, sources[1..], limit);
    }
  }

  /** An unknown id anywhere in the request adds nothing and disturbs
      nothing around it. */
  lemma SearchAllSourcesSkipsUnknown(adapters: Adapters, query: string, a: seq<string>, unknown: string, b: seq<string>, limit: int)
    requires !IsKnownSource(unknown)
    ensures SearchAllSources(adapters, query, a + [unknown] + b, limit) == SearchAllSources(adapters, query, a + b, limit)
  {
    SearchAllSourcesAppend(adapters, query, a + [unknown], b, limit);
    SearchAllSourcesAppend(adapters, query, a, [unknown], limit);
    SearchAllSourcesAppend(adapters, query, a, b, limit);
  }

  /** Requests that agree up to letter case find the same documents. */
  lemma {:induction false} SearchAllSourcesCaseInsensitive(adapters: Adapters, query: string, s: seq<string>, t: seq<string>, limit: int)
    requires |s| == |t|
    requires forall i :: 0 <= i < |s| ==> Lower(s[i]) == Lower(t[i])
    ensures SearchAllSources(adapters, query, s, limit) == SearchAllSources(adapters, query, t, limit)
  {
    if |s| > 0 {
      SearchAllSourcesCaseInsensitive(adapters, query, s[1..], t[1..], limit);
    }
  }

  /** "ArXiv" is served by the ArXiv adapter. */
  lemma MixedCaseArxiv(adapters: Adapters, query: string, limit: int)
    ensures SearchAllSources(adapters, query, ["ArXiv"], limit) == adapters.arxiv(query, limit)
  {
    assert Lower("ArXiv") == ArxivId;
    assert ["ArXiv"][1..] == [];
  }

  /** Over the two real adapters every document found carries the stamp of
      the adapter that produced it. */
  lemma {:induction false} StandardSourcesStamped(loader: Loader, fetch: Fetcher, query: string, sources: seq<string>, limit: int)
    ensures forall d :: d in SearchAllSources(StandardAdapters(loader, fetch), query, sources, limit) ==>
              && d.metadata.Keys >= {"source", "source_name"}
              && ((d.metadata["source"] == ArxivId && d.metadata["source_name"] == "ArXiv")
                  || (d.metadata["source"] == SemanticScholarId && d.metadata["source_name"] == "Semantic Scholar"))
  {
    var adapters := StandardAdapters(loader, fetch);
    forall d | d in SearchAllSources(adapters, query, sources, limit)
      ensures d.metadata.Keys >= {"source", "source_name"}
      ensures (d.metadata["source"] == ArxivId && d.metadata["source_name"] == "ArXiv")
              || (d.metadata["source"] == SemanticScholarId && d.metadata["source_name"] == "Semantic Scholar")
    {
      var i :| 0 <= i < |sources| && IsKnownSource(sources[i]) && d in Dispatch(adapters, query, sources[i], limit);
      if Lower(sources[i]) == ArxivId {
        var found := SearchArxiv(loader, query, limit);
        assert adapters.arxiv(query, limit) == found;
        var j :| 0 <= j < |found| && found[j] == d;
      } else {
        var found := SearchSemanticScholar(fetch, query, limit);
        assert adapters.semanticScholar(query, limit) == found;
        var j :| 0 <= j < |found| && found[j] == d;
      }
    }
  }

  // ================================================================ enrichment

  /** `source`, defaulting to "unknown". */
  function SourceOf(m: Metadata): string {
    Get(m, "source", "unknown")
  }

  /** `source_name`, defaulting to the upper case of the source. */
  function SourceNameOf(m: Metadata): string {
    Get(m, "source_name", Upper(SourceOf(m)))
  }

  /** The provenance header layout. */
  function Header(sourceName: string, title: string, date: string, link: string): string {
    "FONTE: " + sourceName + "\nTÍTULO: " + title + "\nDATA: " + date + "\nLINK: " + link + "\nRESUMO: "
  }

  /** The provenance header `enrich_documents` writes before the old content. */
  function Provenance(m: Metadata): string {
    Header(SourceNameOf(m), Get(m, "Title", ""), Get(m, "Published", ""), Get(m, "url", ""))
  }

  /** Every provenance header begins with "FONTE", so an enriched document
      is never blank. */
  lemma ProvenanceBegins(m: Metadata)
    ensures |Provenance(m)| > 0 && Provenance(m)[0] == 'F'
  {
    HeaderBegins(SourceNameOf(m), Get(m, "Title", ""), Get(m, "Published", ""), Get(m, "url", ""));
  }

  lemma HeaderBegins(sourceName: string, title: string, date: string, link: string)
    ensures |Header(sourceName, title, date, link)| > 0 && Header(sourceName, title, date, link)[0] == 'F'
  {
    var h := "FONTE: " + sourceName;
    assert h[0] == 'F';
  }

  /** The rewrite of one document: the header, then the old content;
      metadata untouched. */
  function Enrich(d: Document): (r: Document)
    ensures r.metadata == d.metadata
    ensures StartsWith(r.content, Provenance(d.metadata))
    ensures |r.content| == |Provenance(d.metadata)| + |d.content|
    ensures r.content[|Provenance(d.metadata)|..] == d.content
  {
    Document(Provenance(d.metadata) + d.content, d.metadata)
  }

  /** `enrich_documents(docs)`: one rewritten document per input, in order. */
  function EnrichDocuments(docs: seq<Document>): (r: seq<Document>)
    ensures |r| == |docs|
    ensures forall i :: 0 <= i < |docs| ==> r[i].metadata == docs[i].metadata
    ensures forall i :: 0 <= i < |docs| ==> r[i].content == Provenance(docs[i].metadata) + docs[i].content
  {
    seq(|docs|, i requires 0 <= i < |docs| => Enrich(docs[i]))
  }

  /** Removing the header recovers the original document. */
  function Unenrich(d: Document): Document
    requires StartsWith(d.content, Provenance(d.metadata))
  {
    Document(d.content[|Provenance(d.metadata)|..], d.metadata)
  }

  lemma UnenrichEnrich(docs: seq<Document>)
    ensures forall i :: 0 <= i < |docs| ==> Unenrich(EnrichDocuments(docs)[i]) == docs[i]
  {
  }

  /** The defaults: no source gives "UNKNOWN", and missing title, date and
      link print as empty. */
  lemma EnrichDefaults(m: Metadata)
    requires "source" !in m && "source_name" !in m && "Title" !in m && "Published" !in m && "url" !in m
    ensures Provenance(m) == Header("UNKNOWN", "", "", "")
  {
    assert Upper("unknown") == "UNKNOWN";
  }

  /** A present source with no display name is shown in upper case. */
  lemma EnrichSourceNameDefault(m: Metadata)
    requires "source" in m && "source_name" !in m
    ensures StartsWith(Provenance(m), "FONTE: " + Upper(m["source"]) + "\n")
  {
    var p := "FONTE: " + Upper(m["source"]) + "\n";
    assert Provenance(m)[..|p|] == p;
  }

  /** An ArXiv document, once enriched, names ArXiv and links its entry id. */
  lemma EnrichedArxivDocument(d: Document)
    ensures Provenance(StampArxiv(d).metadata)
         == Header("ArXiv", Get(d.metadata, "Title", ""), Get(d.metadata, "Published", ""), Get(d.metadata, "Entry ID", ""))
  {
    var m := StampArxiv(d).metadata;
    var title, date := Get(d.metadata, "Title", ""), Get(d.metadata, "Published", "");
    assert SourceNameOf(m) == "ArXiv";
    assert Get(m, "Title", "") == title by {
      if "Title" in d.metadata { assert m["Title"] == d.metadata["Title"]; }
    }
    assert Get(m, "Published", "") == date by {
      if "Published" in d.metadata { assert m["Published"] == d.metadata["Published"]; }
    }
    assert Get(m, "url", "") == Get(d.metadata, "Entry ID", "");
  }

  /** A Semantic Scholar hit, once enriched, names Semantic Scholar and shows
      the hit's title, its year (empty when missing or zero) and its link. */
  lemma EnrichedSemanticScholarDocument(item: Item)
    requires ItemToDocument(item).Some?
    ensures Provenance(ItemToDocument(item).value.metadata)
         == Header("Semantic Scholar", Render(item.title, ""),
                   if YearTruthy(item.year) then IntToString(item.year.n) else "", ItemUrl(item))
  {
  }
}
