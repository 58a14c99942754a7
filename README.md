# Notion MCP server: request building and response shaping

This project models the logic inside the tool and resource handlers of the
Notion MCP server (`notion_mcp/server.py`). The handlers sit between an AI
assistant and the Notion API. They do five things, and the model covers all five:

- **Title extraction.** `get_page_content` and the `notion://recent-pages`
  resource scan a page's property map for the first `title`-typed property
  that has a non-empty span list. `search_pages` first looks for a property
  literally keyed `"title"`.
- **Block text.** `get_page_content` joins the `plain_text` of each block's
  `rich_text` spans. It keeps only blocks that have text, tagged with their type.
- **Update payload.** `update_page` builds a partial update from the optional
  `title` and `archived`. It refuses the call when both are missing.
- **Parent resolution and payloads.** `create_page` uses an explicit parent,
  or else the first page a search returns, or else answers an error. It and
  `append_to_page` send one paragraph block holding the caller's text.
- **Result shaping.** `search_pages` lists its results and counts them.
  `get_recent_pages` renders them as Markdown lines. Every tool answers with a
  success or error envelope.

The Notion client is not modelled. Each handler receives the client's answers
as parameters of type `Outcome<T>`: a value (`Ok`) or a raised exception
(`Raise`). It returns its reply envelope together with the list of client calls
it made, in order (`Run`). So "no update request is sent" is a statement about
that list.

Modules, one per concern:

- `Json`: JSON values (objects are maps, as Python dicts are) and accessors.
- `Notion`: the parts of pages, properties, spans and blocks the handlers read.
  Also exceptions (`Fault`), client answers (`Outcome`) and client calls (`Call`).
- `Titles`: the title scan and the `search_pages` title rule.
- `Content`: block text extraction.
- `Payloads`: the request bodies, each paired with a reader that takes it apart again.
- `Handlers`: the six handlers and the reply envelope.

The loops of the source (`search_pages`, `get_page_content`, `get_recent_pages`,
the property scan that `break`s) are methods with `while`/`for` loops. Each one
is proved against a specification function (`ScanTitle`, `ContentEntries`,
`RecentLines`). The properties are proved as lemmas about those functions.
`update_page` fills its dictionary step by step, so it is a method too. The
literal payloads and `create_page` / `append_to_page` are functions.

Behaviour of the code that the model keeps:

- Errors are plain strings: `"Notion API error: " + str(e)` for the client's
  `APIResponseError`, and `str(e)` for any other exception.
- When `create_page` has no parent, it takes the first hit of an unsorted
  one-result search as the parent.
- `create_page`'s "no parent" error carries no `success` key (`BareError`).
  Every other error envelope has `"success": False`.

Modelling choices that do not change behaviour:

- An absent `properties` map counts as the empty map. An absent `title` span
  list counts as the empty list. An absent `results` list counts as the empty
  list. The code treats each absent value exactly like the empty one.
- A title span without `plain_text` makes `title[0]["plain_text"]` raise
  `KeyError`. The model raises `OtherError("'plain_text'")`, which is `str(e)`
  for that exception.
- A block span without `plain_text` counts as `""`, as `rt.get("plain_text", "")` does.

## Model

| member | source | states |
|---|---|---|
| Titles.ScanTitleFindsFirst | notion_mcp/server.py:220-225 | The scan returns the first span's `plain_text` of the first property, in map order, whose type is "title" and whose span list is non-empty. With no such property it returns "Untitled". |
| Titles.ScanTitleFault | notion_mcp/server.py:224 | The only exception the scan raises is the KeyError for a missing `plain_text`. |
| Titles.FindTitle | notion_mcp/server.py:454-459 | The loop that breaks at the first title property computes the scan. Any exception it yields is the missing-`plain_text` KeyError. |
| Titles.LookupFinds | notion_mcp/server.py:166-167 | Looking up a property key finds a property stored under that key, and finds nothing only when no entry has that key. |
| Titles.FindSearchTitle | notion_mcp/server.py:165-175 | In `search_pages` a property keyed "title" takes precedence. When that key holds an empty span list the title stays "Untitled" and the scan is not tried. Without the key the scan decides. |
| Titles.SearchTitleMatchesScan | notion_mcp/server.py:165-175 | On a page with unique keys whose title-typed properties are exactly those keyed "title", `search_pages` and the scan give the same title. |
| Titles.SearchTitleShadowsScan | notion_mcp/server.py:166-169 | A database page with a title column "Name" and a text column "title" is "Untitled" for `search_pages` but gets its real title from the scan. |
| Content.JoinedTextAppend | notion_mcp/server.py:238-241 | Joining span texts distributes over concatenation of span lists. |
| Content.JoinedTextAround | notion_mcp/server.py:238-241 | Each span's text (`""` when `plain_text` is missing) appears unchanged between the texts of the spans before it and after it. Nothing is added, dropped or reordered. |
| Content.JoinedTextEmpty | notion_mcp/server.py:238-242 | The joined text is empty exactly when every span's text is empty. |
| Content.KeptIndicesAreKeptPositions | notion_mcp/server.py:232-243 | The positions `KeptIndices` lists are within the input, strictly increasing, and are exactly the blocks that yield an entry (payload with `rich_text` and non-empty joined text). |
| Content.ContentEntriesFollowKeptIndices | notion_mcp/server.py:231-246 | The content list has one entry per listed position, so it is no longer than the input. Entry i is the entry of the block at the i-th listed position: its type tag and its joined text. With the lemma above, the list is exactly the blocks whose payload has `rich_text` with non-empty joined text, in input order. |
| Content.ContentEntriesNonEmpty | notion_mcp/server.py:242-246 | No content entry has empty text. |
| Content.ExtractContent | notion_mcp/server.py:231-246 | The extraction loop computes the content list. |
| Payloads.TitleProperties | notion_mcp/server.py:66-76 | The title property payload reads back as exactly the given title. |
| Payloads.ParagraphBlock | notion_mcp/server.py:285-298 | The paragraph block reads back as a paragraph block with one text span holding the content verbatim. |
| Payloads.ParagraphChildren | notion_mcp/server.py:79-94 | The children list is exactly one paragraph block whose one text span holds the content verbatim. |
| Payloads.PageParent | notion_mcp/server.py:59-60 | The parent payload is an object with the single key `page_id` holding the given id. |
| Payloads.BuildUpdateData | notion_mcp/server.py:339-355 | The update data has `properties` iff a title is given (an empty title included), holding that title. It has `archived` iff `archived` is given (False included), holding it unchanged. It has no other key. It is empty exactly when both are absent. |
| Handlers.ErrorText | notion_mcp/server.py:128-139 | For an `APIResponseError` the error text is exactly "Notion API error: " followed by its message. For any other exception it is the message itself. Either way it ends with the message. |
| Handlers.CreatePage | notion_mcp/server.py:57-139 | A truthy parent id is used directly and the only call is the create. Otherwise a one-result search comes first and the parent is its first hit. With no hit the reply is the "No parent page specified…" error and nothing is created. A failing search gives the error envelope. Every create carries the title as its one title span and the content as its one paragraph. Success means a create was made and answered, and the reply carries its id, url and message. |
| Handlers.AppendToPage | notion_mcp/server.py:283-322 | One append to the page of a single paragraph block holding the content. Success iff the append is answered, with the "Content appended to page" message. Otherwise the error envelope. |
| Handlers.UpdatePage | notion_mcp/server.py:338-383 | With neither `title` nor `archived` the reply is "No update parameters provided" and no call is made. In every other case exactly one update is sent for the page, carrying exactly the given arguments, and the reply reflects its answer. |
| Handlers.SearchPages | notion_mcp/server.py:154-201 | One search with the query and page size. The reply has one listing per result, in order, with id, title, url and last-edited time ("Unknown" when missing). Its count equals the number of listings. A title step that raises, or a failing search, gives the error envelope instead. |
| Handlers.GetPageContent | notion_mcp/server.py:215-268 | The page is retrieved and titled by the scan. Only then are its blocks listed. The reply holds the page id, scanned title, url, the content list and the last-edited time. A failure at any step ends the handler there with the error envelope. |
| Handlers.RecentLinesShape | notion_mcp/server.py:451-464 | The output has one header line plus four lines per page. Page i is at lines 1+4i to 4+4i, with its title, id, url and last-edited time ("Unknown" when missing). |
| Handlers.JoinLinesAppend | notion_mcp/server.py:466 | Newline-joining two non-empty runs of lines puts exactly one newline between them. |
| Handlers.RecentTextExtends | notion_mcp/server.py:453-466 | Each further page appends one newline and that page's four lines to the text written so far. |
| Handlers.GetRecentPages | notion_mcp/server.py:444-470 | One search for the 20 most recently edited pages, rendered as the newline-joined output lines. Any exception, including the client's, gives "Error retrieving recent pages: " followed by its message. |

## Left out

- The Notion client calls (`pages.create`, `pages.retrieve`, `pages.update`, `search`, `blocks.children.list`, `blocks.children.append`) are foreign HTTP calls. Their answers are parameters. Each call the handler makes is recorded, with its arguments, except the search filter, which is always "page objects".
- `create_database_entry` forwards the caller's `properties` unchanged, with no logic of its own to state.
- FastMCP registration, the `@mcp.tool` / `@mcp.resource` decorators and `main` are transport plumbing.
- Loading `.env`, the startup `NOTION_API_KEY` check and all logging are process configuration and I/O.
- The dead assignment of `parent` in `create_page`'s no-parent branch is always overwritten or unused.
- `page["id"]`, `page["url"]` and `response["id"]` / `response["url"]` are taken to be present: the Notion API always returns them. The `KeyError` they would raise is not modelled.
- JSON of unexpected shapes (a `title` or `rich_text` that is not a list, a `null` `plain_text`, a block payload that is not an object) is not represented.
- Retries, pagination, typed error kinds and a remote transport do not exist in the code and are not modelled.
- Handlers.SearchPages: takes `pageSize` explicitly; the Python default of 10 for an omitted `page_size` belongs to the tool's call signature and is not modelled.
