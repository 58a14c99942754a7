/** The tool and resource handlers of the server. Each takes the arguments of
    the call and the Notion client's answers (a value or a raised exception),
    and gives the envelope it returns together with the client calls it made,
    in order. */
module Handlers {
  import opened Json
  import opened Notion
  import opened Titles
  import opened Content
  import opened Payloads

  /** A handler's reply. */
  datatype Envelope<+T> =
    | Succeeded(payload: T)     // {"success": True, ...}
    | Failed(error: string)     // {"success": False, "error": error}
    | BareError(error: string)  // {"error": error}, with no "success" key

  datatype Run<+T> = Run(reply: Envelope<T>, calls: seq<Call>)

  /** The text a handler puts under "error" for an exception it caught: the
      client's `APIResponseError` gets a prefix, any other exception is `str(e)`. */
  function ErrorText(fault: Fault): (text: string)
    ensures |fault.message| <= |text| && text[|text| - |fault.message|..] == fault.message
    ensures fault.ApiResponseError? ==> text == "Notion API error: " + fault.message
    ensures fault.OtherError? ==> text == fault.message
  {
    match fault
    case ApiResponseError(message) => "Notion API error: " + message
    case OtherError(message) => message
  }

  /** Python truthiness of an optional string. */
  predicate Truthy(s: Option<string>) {
    s.Some? && s.value != ""
  }

  // ---------------------------------------------------------------- create_page

  /** The `id`, `url` and message of a created or updated page. */
  datatype Confirmation = Confirmation(pageId: string, url: string, message: string)

  const NoParentError := "No parent page specified and no existing pages found. Please provide a parent_page_id."

  function CreatedMessage(title: string): string {
    "Page '" + title + "' created successfully"
  }

  /** `create_page`. A truthy `parentPageId` is the parent and no search is
      made; otherwise the parent is the first page a one-result search returns,
      and with no result the handler answers an error without creating
      anything. Whatever the parent, the page is created with the title as its
      one title span and `content` as its one paragraph. */
  function CreatePage(title: string, content: string, parentPageId: Option<string>,
                      search: Outcome<seq<Page>>, created: Outcome<PageRef>): (run: Run<Confirmation>)
    ensures Truthy(parentPageId) ==>
      run.calls == [CreateCall(PageParent(parentPageId.value), TitleProperties(title), ParagraphChildren(content))]
    ensures !Truthy(parentPageId) ==> |run.calls| >= 1 && run.calls[0] == SearchCall(None, 1, false)
    ensures !Truthy(parentPageId) && search.Ok? && search.value != [] ==>
      run.calls[1..] == [CreateCall(PageParent(search.value[0].id), TitleProperties(title), ParagraphChildren(content))]
    ensures !Truthy(parentPageId) && search == Ok([]) ==>
      run == Run(BareError(NoParentError), [SearchCall(None, 1, false)])
    ensures !Truthy(parentPageId) && search.Raise? ==>
      run == Run(Failed(ErrorText(search.fault)), [SearchCall(None, 1, false)])
    ensures forall c :: c in run.calls && c.CreateCall? ==>
      TitleOf(c.properties) == Some(title) && |c.children| == 1 && ParagraphTextOf(c.children[0]) == Some(content)
    ensures run.reply.Succeeded? <==> created.Ok? && exists c :: c in run.calls && c.CreateCall?
    ensures run.reply.Succeeded? ==>
      run.reply.payload == Confirmation(created.value.id, created.value.url, CreatedMessage(title))
    ensures created.Raise? && (exists c :: c in run.calls && c.CreateCall?) ==>
      run.reply == Failed(ErrorText(created.fault))
  {
    var properties := TitleProperties(title);
    var children := ParagraphChildren(content);
    var reply := match created
      case Ok(page) => Succeeded(Confirmation(page.id, page.url, CreatedMessage(title)))
      case Raise(fault) => Failed(ErrorText(fault));
    if Truthy(parentPageId) then
      var create := CreateCall(PageParent(parentPageId.value), properties, children);
      assert create in [create];
      Run(reply, [create])
    else
      var searchCall := SearchCall(None, 1, false);
      match search
      case Raise(fault) => Run(Failed(ErrorText(fault)), [searchCall])
      case Ok(hits) =>
        if hits != [] then
          var create := CreateCall(PageParent(hits[0].id), properties, children);
          assert create in [searchCall, create];
          Run(reply, [searchCall, create])
        else
          Run(BareError(NoParentError), [searchCall])
  }

  // ------------------------------------------------------------- append_to_page

  /** `append_to_page`: one append of a single paragraph block holding `content`. */
  function AppendToPage(pageId: string, content: string, appended: Outcome<()>): (run: Run<string>)
    ensures |run.calls| == 1 && run.calls[0].AppendCall? && run.calls[0].blockId == pageId
    ensures |run.calls[0].children| == 1 && ParagraphTextOf(run.calls[0].children[0]) == Some(content)
    ensures run.reply.Succeeded? <==> appended.Ok?
    ensures run.reply.Succeeded? ==> run.reply.payload == "Content appended to page " + pageId
    ensures appended.Raise? ==> run.reply == Failed(ErrorText(appended.fault))
  {
    var calls := [AppendCall(pageId, ParagraphChildren(content))];
    match appended
    case Ok(_) => Run(Succeeded("Content appended to page " + pageId), calls)
    case Raise(fault) => Run(Failed(ErrorText(fault)), calls)
  }

  // ---------------------------------------------------------------- update_page

  const NoUpdateError := "No update parameters provided"

  /** `update_page`: with neither `title` nor `archived` it answers an error
      and calls nothing; otherwise it sends one update carrying exactly the
      arguments given. */
  method UpdatePage(pageId: string, title: Option<string>, archived: Option<bool>, updated: Outcome<PageRef>)
    returns (run: Run<Confirmation>)
    ensures run.calls == [] <==> title.None? && archived.None?
    ensures run.calls == [] ==> run.reply == Failed(NoUpdateError)
    ensures run.calls != [] ==>
      && |run.calls| == 1 && run.calls[0].UpdateCall? && run.calls[0].pageId == pageId
      && DescribesUpdate(run.calls[0].data, title, archived)
    ensures run.calls != [] && updated.Ok? ==>
      run.reply == Succeeded(Confirmation(updated.value.id, updated.value.url, "Page updated successfully"))
    ensures run.calls != [] && updated.Raise? ==> run.reply == Failed(ErrorText(updated.fault))
  {
    var data := BuildUpdateData(title, archived);
    if data == map[] {
      return Run(Failed(NoUpdateError), []);
    }
    var calls := [UpdateCall(pageId, data)];
    match updated
    case Ok(page) =>
      run := Run(Succeeded(Confirmation(page.id, page.url, "Page updated successfully")), calls);
    case Raise(fault) =>
      run := Run(Failed(ErrorText(fault)), calls);
  }

  // --------------------------------------------------------------- search_pages

  /** One element of the `results` list of `search_pages`. */
  datatype Listing = Listing(id: string, title: string, url: string, lastEdited: string)

  datatype SearchListing = SearchListing(count: int, results: seq<Listing>)

  /** No page of the list makes the `search_pages` title step raise. */
  predicate AllSearchTitled(pages: seq<Page>) {
    forall i :: 0 <= i < |pages| ==> SearchTitle(pages[i].properties).Ok?
  }

  /** `search_pages` (whose `page_size` defaults to 10 when the caller omits it):
      one listing per result page, in the search's order, with
      `count` the number of listings and "Unknown" for a missing edit time. A
      title step that raises turns the whole reply into the error envelope. */
  method SearchPages(query: string, pageSize: int, response: Outcome<seq<Page>>) returns (run: Run<SearchListing>)
    ensures run.calls == [SearchCall(Some(query), pageSize, false)]
    ensures response.Raise? ==> run.reply == Failed(ErrorText(response.fault))
    ensures response.Ok? && !AllSearchTitled(response.value) ==>
      run.reply == Failed(ErrorText(KeyError("plain_text")))
    ensures response.Ok? && AllSearchTitled(response.value) ==>
      var pages := response.value;
      && run.reply.Succeeded?
      && run.reply.payload.count == |run.reply.payload.results| == |pages|
      && forall i :: 0 <= i < |pages| ==>
           run.reply.payload.results[i] ==
             Listing(pages[i].id, SearchTitle(pages[i].properties).value, pages[i].url, pages[i].lastEdited.GetOr("Unknown"))
  {
    var calls := [SearchCall(Some(query), pageSize, false)];
    if response.Raise? {
      return Run(Failed(ErrorText(response.fault)), calls);
    }
    var pages := response.value;
    var results: seq<Listing> := [];
    var i := 0;
    while i < |pages|
      invariant 0 <= i <= |pages|
      invariant |results| == i
      invariant forall j :: 0 <= j < i ==>
        && SearchTitle(pages[j].properties).Ok?
        && results[j] == Listing(pages[j].id, SearchTitle(pages[j].properties).value, pages[j].url, pages[j].lastEdited.GetOr("Unknown"))
    {
      var page := pages[i];
      var title := FindSearchTitle(page.properties);
      if title.Raise? {
        return Run(Failed(ErrorText(title.fault)), calls);
      }
      results := results + [Listing(page.id, title.value, page.url, page.lastEdited.GetOr("Unknown"))];
      i := i + 1;
    }
    run := Run(Succeeded(SearchListing(|results|, results)), calls);
  }

  // ----------------------------------------------------------- get_page_content

  datatype PageContent = PageContent(pageId: string, title: string, url: string,
                                     content: seq<ContentEntry>, lastEdited: Option<string>)

  /** `get_page_content`: retrieve the page, take its title by the scan, then
      list its blocks and keep their texts. A failure at any step ends the
      handler there, so the block list is fetched only once the title is known. */
  method GetPageContent(pageId: string, page: Outcome<Page>, blocks: Outcome<seq<Block>>) returns (run: Run<PageContent>)
    ensures page.Raise? ==> run == Run(Failed(ErrorText(page.fault)), [RetrieveCall(pageId)])
    ensures page.Ok? && ScanTitle(page.value.properties).Raise? ==>
      run == Run(Failed(ErrorText(KeyError("plain_text"))), [RetrieveCall(pageId)])
    ensures page.Ok? && ScanTitle(page.value.properties).Ok? ==>
      && run.calls == [RetrieveCall(pageId), ListCall(pageId)]
      && (blocks.Raise? ==> run.reply == Failed(ErrorText(blocks.fault)))
      && (blocks.Ok? ==> run.reply == Succeeded(PageContent(pageId, ScanTitle(page.value.properties).value,
                                                            page.value.url, ContentEntries(blocks.value),
                                                            page.value.lastEdited)))
  {
    var calls := [RetrieveCall(pageId)];
    if page.Raise? {
      return Run(Failed(ErrorText(page.fault)), calls);
    }
    var title := FindTitle(page.value.properties);
    if title.Raise? {
      return Run(Failed(ErrorText(title.fault)), calls);
    }
    calls := calls + [ListCall(pageId)];
    if blocks.Raise? {
      return Run(Failed(ErrorText(blocks.fault)), calls);
    }
    var content := ExtractContent(blocks.value);
    run := Run(Succeeded(PageContent(pageId, title.value, page.value.url, content, page.value.lastEdited)), calls);
  }

  // ----------------------------------------------------------- get_recent_pages

  const RecentHeader := "# Recently Edited Pages\n"
  const RecentError := "Error retrieving recent pages: "

  /** The four lines `get_recent_pages` writes for one page. */
  function PageLines(page: Page, title: string): seq<string> {
    [ "- **" + title + "**",
      "  - ID: `" + page.id + "`",
      "  - URL: " + page.url,
      "  - Last edited: " + page.lastEdited.GetOr("Unknown") + "\n" ]
  }

  /** No page of the list makes the title scan raise. */
  predicate AllTitled(pages: seq<Page>) {
    forall i :: 0 <= i < |pages| ==> ScanTitle(pages[i].properties).Ok?
  }

  /** The `output` list after the pages have been written, one after another. */
  function RecentLines(pages: seq<Page>): seq<string>
    requires AllTitled(pages)
  {
    if pages == [] then [RecentHeader]
    else
      var last := pages[|pages| - 1];
      RecentLines(pages[..|pages| - 1]) + PageLines(last, ScanTitle(last.properties).value)
  }

  /** The output is the header line followed by four lines per page, page `i`
      at lines `1 + 4i` to `4 + 4i`. */
  lemma {:induction false} RecentLinesShape(pages: seq<Page>)
    requires AllTitled(pages)
    ensures |RecentLines(pages)| == 1 + 4 * |pages|
    ensures RecentLines(pages)[0] == RecentHeader
    ensures forall i :: 0 <= i < |pages| ==>
      RecentLines(pages)[1 + 4 * i .. 5 + 4 * i] == PageLines(pages[i], ScanTitle(pages[i].properties).value)
  {
    if pages != [] {
      var n := |pages| - 1;
      var front := pages[..n];
      RecentLinesShape(front);
      var lines := RecentLines(pages);
      assert lines == RecentLines(front) + PageLines(pages[n], ScanTitle(pages[n].properties).value);
      forall i | 0 <= i < |pages|
        ensures lines[1 + 4 * i .. 5 + 4 * i] == PageLines(pages[i], ScanTitle(pages[i].properties).value)
      {
        if i < n {
          assert front[i] == pages[i];
          assert lines[1 + 4 * i .. 5 + 4 * i] == RecentLines(front)[1 + 4 * i .. 5 + 4 * i];
        } else {
          assert lines[1 + 4 * i .. 5 + 4 * i] == lines[|RecentLines(front)|..];
        }
      }
    }
  }

  /** `"\n".join(lines)`. */
  function JoinLines(lines: seq<string>): string {
    if lines == [] then ""
    else if |lines| == 1 then lines[0]
    else lines[0] + "\n" + JoinLines(lines[1..])
  }

  /** Joining two non-empty runs of lines puts exactly one newline between them. */
  lemma {:induction false} JoinLinesAppend(a: seq<string>, b: seq<string>)
    requires a != [] && b != []
    ensures JoinLines(a + b) == JoinLines(a) + "\n" + JoinLines(b)
  {
    assert (a + b)[0] == a[0];
    if |a| > 1 {
      assert (a + b)[1..] == a[1..] + b;
      JoinLinesAppend(a[1..], b);
    } else {
      assert (a + b)[1..] == b;
    }
  }

  /** Writing one more page appends a newline and that page's four lines to
      the text written so far. */
  lemma RecentTextExtends(pages: seq<Page>, page: Page)
    requires AllTitled(pages + [page])
    ensures AllTitled(pages)
    ensures JoinLines(RecentLines(pages + [page]))
         == JoinLines(RecentLines(pages)) + "\n" + JoinLines(PageLines(page, ScanTitle(page.properties).value))
  {
    assert forall i :: 0 <= i < |pages| ==> (pages + [page])[i] == pages[i];
    assert (pages + [page])[|pages|] == page;
    assert (pages + [page])[..|pages|] == pages;
    JoinLinesAppend(RecentLines(pages), PageLines(page, ScanTitle(page.properties).value));
  }

  /** `get_recent_pages`: one search for the 20 most recently edited pages,
      rendered as the header line plus four lines per page, joined by
      newlines. Any exception, the client's included, gives the error text. */
  method GetRecentPages(response: Outcome<seq<Page>>) returns (text: string, calls: seq<Call>)
    ensures calls == [SearchCall(None, 20, true)]
    ensures response.Raise? ==> text == RecentError + response.fault.message
    ensures response.Ok? && !AllTitled(response.value) ==> text == RecentError + KeyError("plain_text").message
    ensures response.Ok? && AllTitled(response.value) ==> text == JoinLines(RecentLines(response.value))
  {
    calls := [SearchCall(None, 20, true)];
    if response.Raise? {
      return RecentError + response.fault.message, calls;
    }
    var pages := response.value;
    var output := [RecentHeader];
    for i := 0 to |pages|
      invariant AllTitled(pages[..i])
      invariant output == RecentLines(pages[..i])
    {
      var title := FindTitle(pages[i].properties);
      if title.Raise? {
        return RecentError + title.fault.message, calls;
      }
      assert pages[..i + 1] == pages[..i] + [pages[i]];
      output := output + PageLines(pages[i], title.value);
    }
    assert pages[..|pages|] == pages;
    text := JoinLines(output);
  }
}
