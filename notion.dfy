/** The parts of the Notion API's objects that the server's handlers read, the
    exceptions a handler can meet, and the client calls a handler issues. */
module Notion {
  import opened Json

  /** A rich-text span as the API returns it. Only `plain_text` is read, and a
      span may lack it. */
  datatype Span = Span(plainText: Option<string>)

  /** One page property: its `type` tag and the span list under its `title`
      key. An absent list is the empty list: every handler tests it for
      truthiness only, and both are falsy. */
  datatype Property = Property(kind: Option<string>, title: seq<Span>)

  /** A page's property map in its iteration order. An absent map is the
      empty map: every handler falls back to "Untitled" for both. */
  type Properties = seq<(string, Property)>

  /** Python dicts hold each key once. */
  ghost predicate UniqueKeys(props: Properties) {
    forall i, j :: 0 <= i < j < |props| ==> props[i].0 != props[j].0
  }

  /** A page object from `search` or `pages.retrieve`. */
  datatype Page = Page(id: string, url: string, lastEdited: Option<string>, properties: Properties)

  /** The payload a block keeps under its own type key; `rich_text` may be absent. */
  datatype Payload = Payload(richText: Option<seq<Span>>)

  /** A block from `blocks.children.list`: its `type` tag and the payloads
      stored under the other keys of the block object. */
  datatype Block = Block(kind: Option<string>, payloads: map<string, Payload>)

  /** The `id` and `url` of the page that `pages.create` or `pages.update` returns. */
  datatype PageRef = PageRef(id: string, url: string)

  /** An exception escaping a handler's body: the client's `APIResponseError`,
      or any other exception, both carrying the text `str(e)`. */
  datatype Fault = ApiResponseError(message: string) | OtherError(message: string)

  /** The `KeyError` raised by `d[key]` on a missing key; `str(e)` quotes the key. */
  function KeyError(key: string): Fault {
    OtherError("'" + key + "'")
  }

  /** What a client call or a step of a handler produced: a value, or a raised exception. */
  datatype Outcome<+T> = Ok(value: T) | Raise(fault: Fault)

  /** One request the handler makes through the Notion client. Every search the
      server issues filters on page objects, so the filter is not recorded. */
  datatype Call =
    | SearchCall(query: Option<string>, pageSize: int, newestFirst: bool)
    | CreateCall(parent: Value, properties: Value, children: seq<Value>)
    | RetrieveCall(pageId: string)
    | UpdateCall(pageId: string, data: map<string, Value>)
    | ListCall(blockId: string)
    | AppendCall(blockId: string, children: seq<Value>)
}
