/** Reading a page's title out of its property map. `get_page_content` and
    `get_recent_pages` scan the map for the first title-typed property;
    `search_pages` first looks for a property literally named "title". */
module Titles {
  import opened Json
  import opened Notion

  const Untitled := "Untitled"

  /** The property the scan stops at: its `type` is "title" and its `title`
      span list is non-empty (truthy). */
  predicate IsTitleProperty(p: Property) {
    p.kind == Some("title") && |p.title| > 0
  }

  /** `spans[0]["plain_text"]`, which raises `KeyError` when the first span has
      no `plain_text`. */
  function LeadText(spans: seq<Span>): Outcome<string>
    requires |spans| > 0
  {
    match spans[0].plainText
    case Some(text) => Ok(text)
    case None => Raise(KeyError("plain_text"))
  }

  /** The title scan, property by property in map order. */
  function ScanTitle(props: Properties): Outcome<string> {
    if props == [] then Ok(Untitled)
    else if IsTitleProperty(props[0].1) then LeadText(props[0].1.title)
    else ScanTitle(props[1..])
  }

  /** Index `k` holds the first title property of the map. */
  predicate FirstTitleAt(props: Properties, k: int) {
    && 0 <= k < |props|
    && IsTitleProperty(props[k].1)
    && forall j :: 0 <= j < k ==> !IsTitleProperty(props[j].1)
  }

  /** The scan yields the lead text of the first title property in map order,
      and "Untitled" when the map has none. */
  lemma {:induction false} ScanTitleFindsFirst(props: Properties)
    ensures (forall j :: 0 <= j < |props| ==> !IsTitleProperty(props[j].1)) ==> ScanTitle(props) == Ok(Untitled)
    ensures forall k :: FirstTitleAt(props, k) ==> ScanTitle(props) == LeadText(props[k].1.title)
  {
    if props != [] {
      ScanTitleFindsFirst(props[1..]);
      forall k | FirstTitleAt(props, k)
        ensures ScanTitle(props) == LeadText(props[k].1.title)
      {
        if k > 0 {
          assert FirstTitleAt(props[1..], k - 1);
        }
      }
      if forall j :: 0 <= j < |props| ==> !IsTitleProperty(props[j].1) {
        assert forall j :: 0 <= j < |props| - 1 ==> !IsTitleProperty(props[1..][j].1) by {
          forall j | 0 <= j < |props| - 1 ensures !IsTitleProperty(props[1..][j].1) {
            assert props[1..][j] == props[j + 1];
          }
        }
      }
    }
  }

  /** The only exception the scan raises is the `KeyError` for a missing `plain_text`. */
  lemma {:induction false} ScanTitleFault(props: Properties)
    ensures ScanTitle(props).Raise? ==> ScanTitle(props).fault == KeyError("plain_text")
  {
    if props != [] && !IsTitleProperty(props[0].1) {
      ScanTitleFault(props[1..]);
    }
  }

  /** The scan as `get_page_content` and `get_recent_pages` run it: a loop
      over the properties that breaks at the first title property. */
  method FindTitle(props: Properties) returns (title: Outcome<string>)
    ensures title == ScanTitle(props)
    ensures title.Raise? ==> title.fault == KeyError("plain_text")
  {
    ScanTitleFault(props);
    title := Ok(Untitled);
    var i := 0;
    while i < |props|
      invariant 0 <= i <= |props|
      invariant ScanTitle(props[i..]) == ScanTitle(props)
    {
      var (_, value) := props[i];
      if value.kind == Some("title") && |value.title| > 0 {
        title := LeadText(value.title);
        break;
      }
      assert props[i..][1..] == props[i + 1..];
      i := i + 1;
    }
  }

  /** `props[key]`: the value stored under `key`, or None when the key is absent. */
  function Lookup(props: Properties, key: string): Option<Property> {
    if props == [] then None
    else if props[0].0 == key then Some(props[0].1)
    else Lookup(props[1..], key)
  }

  lemma {:induction false} LookupFinds(props: Properties, key: string)
    ensures Lookup(props, key).None? ==> forall k :: 0 <= k < |props| ==> props[k].0 != key
    ensures Lookup(props, key).Some? ==> exists k :: 0 <= k < |props| && props[k] == (key, Lookup(props, key).value)
  {
    if props != [] && props[0].0 != key {
      LookupFinds(props[1..], key);
      if Lookup(props, key).Some? {
        var k :| 0 <= k < |props| - 1 && props[1..][k] == (key, Lookup(props, key).value);
        assert props[k + 1] == props[1..][k];
      } else {
        forall k | 0 <= k < |props| ensures props[k].0 != key {
          if k > 0 {
            assert props[k] == props[1..][k - 1];
          }
        }
      }
    }
  }

  /** The title as `search_pages` computes it: a property named "title" takes
      precedence, and when its span list is empty the title stays "Untitled"
      without trying the scan. */
  function SearchTitle(props: Properties): Outcome<string> {
    match Lookup(props, "title")
    case Some(p) => if |p.title| > 0 then LeadText(p.title) else Ok(Untitled)
    case None => ScanTitle(props)
  }

  /** On a page whose properties named "title" are exactly its title-typed
      ones (a page outside any database), `search_pages` and the scan agree. */
  lemma {:induction false} SearchTitleMatchesScan(props: Properties)
    requires UniqueKeys(props)
    requires forall j :: 0 <= j < |props| ==> (props[j].0 == "title" <==> props[j].1.kind == Some("title"))
    ensures SearchTitle(props) == ScanTitle(props)
  {
    LookupFinds(props, "title");
    ScanTitleFindsFirst(props);
    match Lookup(props, "title")
    case None =>
    case Some(p) =>
      var k :| 0 <= k < |props| && props[k] == ("title", p);
      assert forall j :: 0 <= j < |props| && j != k ==> !IsTitleProperty(props[j].1) by {
        forall j | 0 <= j < |props| && j != k ensures !IsTitleProperty(props[j].1) {
          if j < k {
            assert props[j].0 != props[k].0;
          } else {
            assert props[k].0 != props[j].0;
          }
        }
      }
      if |p.title| > 0 {
        assert FirstTitleAt(props, k);
      }
  }

  /** A database page whose title column is "Name" and that also has a text
      column called "title": `search_pages` reports it as "Untitled" while the
      scan finds its real title. */
  lemma SearchTitleShadowsScan()
    ensures var props := [("Name", Property(Some("title"), [Span(Some("Tasks"))])),
                          ("title", Property(Some("rich_text"), []))];
            SearchTitle(props) == Ok(Untitled) && ScanTitle(props) == Ok("Tasks")
  {
  }

  /** The `search_pages` title step as its loop body runs it. */
  method FindSearchTitle(props: Properties) returns (title: Outcome<string>)
    ensures title == SearchTitle(props)
    ensures Lookup(props, "title").Some? && Lookup(props, "title").value.title == [] ==> title == Ok(Untitled)
    ensures Lookup(props, "title").None? ==> title == ScanTitle(props)
    ensures title.Raise? ==> title.fault == KeyError("plain_text")
  {
    var named := Lookup(props, "title");
    if named.Some? {
      title := Ok(Untitled);
      if |named.value.title| > 0 {
        title := LeadText(named.value.title);
      }
    } else {
      title := FindTitle(props);
    }
  }
}
