/** The request bodies the handlers send: the single-span title property used by
    `create_page` and `update_page`, the single-paragraph children of
    `create_page` and `append_to_page`, the page parent, and the partial update
    of `update_page`. Each builder is paired with a reader that takes the
    payload apart again. */
module Payloads {
  import opened Json

  /** `{"text": {"content": content}}`, the span of a title property. */
  function TextSpan(content: string): Value {
    Obj(map["text" := Obj(map["content" := Str(content)])])
  }

  /** `{"title": {"title": [{"text": {"content": title}}]}}`. */
  function TitleProperties(title: string): (properties: Value)
    ensures TitleOf(properties) == Some(title)
  {
    Obj(map["title" := Obj(map["title" := Arr([TextSpan(title)])])])
  }

  /** Reads the title back: the `content` of the only span of the `title`
      property's span list. */
  function TitleOf(properties: Value): Option<string> {
    var property :- Field(properties, "title");
    var spans :- Field(property, "title");
    var span :- OnlyItem(spans);
    var text :- Field(span, "text");
    var content :- Field(text, "content");
    Text(content)
  }

  /** `{"object": "block", "type": "paragraph", "paragraph": {"rich_text":
      [{"type": "text", "text": {"content": content}}]}}`. */
  function ParagraphBlock(content: string): (block: Value)
    ensures ParagraphTextOf(block) == Some(content)
  {
    var span := Obj(map["type" := Str("text"), "text" := Obj(map["content" := Str(content)])]);
    Obj(map[
      "object" := Str("block"),
      "type" := Str("paragraph"),
      "paragraph" := Obj(map["rich_text" := Arr([span])])
    ])
  }

  /** Reads a block back when it is a paragraph block holding exactly one text
      span: that span's content. */
  function ParagraphTextOf(block: Value): Option<string> {
    if Field(block, "object") != Some(Str("block")) || Field(block, "type") != Some(Str("paragraph")) then None
    else
      var paragraph :- Field(block, "paragraph");
      var spans :- Field(paragraph, "rich_text");
      var span :- OnlyItem(spans);
      if Field(span, "type") != Some(Str("text")) then None
      else
        var text :- Field(span, "text");
        var content :- Field(text, "content");
        Text(content)
  }

  /** The `children` list: exactly one paragraph block whose one text span
      holds `content` verbatim. */
  function ParagraphChildren(content: string): (children: seq<Value>)
    ensures |children| == 1 && ParagraphTextOf(children[0]) == Some(content)
  {
    [ParagraphBlock(content)]
  }

  /** `{"page_id": id}`. */
  function PageParent(id: string): (parent: Value)
    ensures Field(parent, "page_id") == Some(Str(id)) && parent.Obj? && |parent.fields| == 1
  {
    Obj(map["page_id" := Str(id)])
  }

  /** `update_data` of `update_page` describes the optional arguments: it has
      `properties` exactly when a title is given (the empty title included),
      holding that title, and `archived` exactly when `archived` is given,
      holding it unchanged (False included), and nothing else. */
  predicate DescribesUpdate(data: map<string, Value>, title: Option<string>, archived: Option<bool>) {
    && ("properties" in data <==> title.Some?)
    && ("archived" in data <==> archived.Some?)
    && (forall key :: key in data ==> key == "properties" || key == "archived")
    && (title.Some? ==> data["properties"] == TitleProperties(title.value))
    && (archived.Some? ==> data["archived"] == Bool(archived.value))
  }

  /** The step-by-step filling of `update_data`. */
  method BuildUpdateData(title: Option<string>, archived: Option<bool>) returns (data: map<string, Value>)
    ensures DescribesUpdate(data, title, archived)
    ensures title.Some? ==> TitleOf(data["properties"]) == title
    ensures data == map[] <==> title.None? && archived.None?
  {
    data := map[];
    if title.Some? {
      data := data["properties" := TitleProperties(title.value)];
    }
    if archived.Some? {
      data := data["archived" := Bool(archived.value)];
    }
  }
}
