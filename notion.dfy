/**
 * Publishing the classification to Notion (backend_logic.py lines 115-124):
 * one `append_update(title=domain, content=...)` call per domain key, in the
 * order of `classified_data`. The calls are recorded as `Update` values.
 */
module Notion {
  import opened Dicts
  import opened Strings
  import opened Records
  import opened Domains

  /** One `notion.append_update(title=..., content=...)` call. */
  datatype Update = Update(title: string, content: string)

  /** The text after the domain on the first line of every update (line 119). */
  const TitleSuffix: string := " \U{2014} Latest classified updates:"

  /** Line 119: the domain with "_" shown as "." followed by the fixed suffix. */
  function TitleLine(domain: string): string {
    DisplayName(domain) + TitleSuffix
  }

  /** Line 121: one bullet per classified item. */
  function Bullet(item: Item): string {
    "- [" + item.category + "] " + item.text
  }

  function Bullets(items: seq<Item>): seq<string> {
    seq(|items|, k requires 0 <= k < |items| => Bullet(items[k]))
  }

  /** Line 122: the title line and the bullets, joined by newlines. */
  function Content(domain: string, items: seq<Item>): string {
    Join([TitleLine(domain)] + Bullets(items), '\n')
  }

  /** The calls the publishing loop makes, one per entry of `classified`, in its order. */
  function Updates(classified: Dict<string, seq<Item>>): seq<Update> {
    var entries := Items(classified);
    seq(|entries|, k requires 0 <= k < |entries| => Update(entries[k].0, Content(entries[k].0, entries[k].1)))
  }

  function Titles(updates: seq<Update>): seq<string> {
    seq(|updates|, k requires 0 <= k < |updates| => updates[k].title)
  }

  /** Lines 119-122: build the summary lines one by one and join them. */
  method Format(domain: string, items: seq<Item>) returns (formatted: string)
    ensures formatted == Content(domain, items)
  {
    var summaryLines := [TitleLine(domain)];
    var k := 0;
    while k < |items|
      invariant 0 <= k <= |items|
      invariant summaryLines == [TitleLine(domain)] + Bullets(items[..k])
    {
      assert Bullets(items[..k + 1]) == Bullets(items[..k]) + [Bullet(items[k])];
      summaryLines := summaryLines + [Bullet(items[k])];
      k := k + 1;
    }
    assert items[..k] == items;
    formatted := Join(summaryLines, '\n');
  }

  /** The publishing loop (lines 118-123). */
  method PushUpdates(classified: Dict<string, seq<Item>>) returns (calls: seq<Update>)
    ensures calls == Updates(classified)
  {
    ghost var all := Updates(classified);
    calls := [];
    var i := 0;
    while i < |classified.keys|
      invariant 0 <= i <= |classified.keys|
      invariant calls == all[..i]
    {
      var domain := classified.keys[i];
      var formatted := Format(domain, classified.items[domain]);
      assert all[..i + 1] == all[..i] + [Update(domain, formatted)];
      calls := calls + [Update(domain, formatted)];
      i := i + 1;
    }
    assert all[..i] == all;
  }

  /**
   * Exactly one call per domain key: the titles are the keys of `classified`
   * in its order, and each call carries the content made from that key's items.
   */
  lemma OneUpdatePerDomain(classified: Dict<string, seq<Item>>)
    ensures Titles(Updates(classified)) == classified.keys
    ensures forall domain :: domain in classified.items <==> domain in Titles(Updates(classified))
    ensures forall k | 0 <= k < |Updates(classified)| ::
      Updates(classified)[k].title in classified.items &&
      Updates(classified)[k].content == Content(Updates(classified)[k].title, classified.items[Updates(classified)[k].title])
  {
    var titles := Titles(Updates(classified));
    assert titles == classified.keys;
  }

  /** Every update opens with its title line, whatever the items hold. */
  lemma ContentStartsWithTitle(domain: string, items: seq<Item>)
    ensures |TitleLine(domain)| <= |Content(domain, items)|
    ensures Content(domain, items)[..|TitleLine(domain)|] == TitleLine(domain)
  {
    JoinStartsWithFirst([TitleLine(domain)] + Bullets(items), '\n');
  }

  lemma NoNewlineInTitle(domain: string)
    requires '\n' !in domain
    ensures '\n' !in TitleLine(domain)
  {
    var name := DisplayName(domain);
    assert forall k | 0 <= k < |name| :: name[k] == '.' || name[k] == domain[k];
    assert '\n' !in TitleSuffix;
  }

  lemma NoNewlineInBullet(item: Item)
    requires '\n' !in item.category && '\n' !in item.text
    ensures '\n' !in Bullet(item)
  {
  }

  /**
   * When no domain, category or text holds a newline, the content splits back
   * into the title line and one bullet per item: 1 + |items| lines.
   */
  lemma ContentLines(domain: string, items: seq<Item>)
    requires '\n' !in domain
    requires forall k | 0 <= k < |items| :: '\n' !in items[k].category && '\n' !in items[k].text
    ensures Split(Content(domain, items), '\n') == [TitleLine(domain)] + Bullets(items)
    ensures |Split(Content(domain, items), '\n')| == 1 + |items|
  {
    var lines := [TitleLine(domain)] + Bullets(items);
    NoNewlineInTitle(domain);
    forall k | 0 <= k < |items|
      ensures '\n' !in Bullet(items[k])
    {
      NoNewlineInBullet(items[k]);
    }
    assert forall k | 0 <= k < |lines| :: '\n' !in lines[k];
    SplitJoin(lines, '\n');
  }

  /** The title names the URL's host again exactly when the host held no "_" of its own. */
  lemma TitleShowsHost(url: string)
    ensures '_' !in Host(url) ==> TitleLine(DomainKey(url)) == Host(url) + TitleSuffix
    ensures '_' in Host(url) ==> TitleLine(DomainKey(url)) != Host(url) + TitleSuffix
  {
    if '_' in Host(url) {
      DisplayNameLosesUnderscores(url);
      var name := DisplayName(DomainKey(url));
      assert (name + TitleSuffix)[..|name|] == name;
    } else {
      DisplayNameRestoresHost(url);
    }
  }
}
