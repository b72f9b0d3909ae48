/**
 * Comps catalogs as structured values, the callback events a catalog of
 * that shape produces, and what the comps callbacks collect from them.
 *
 * A catalog here is a list of groups, categories and other top-level
 * elements (environments, langpacks, ...) in any order; the other elements
 * are given as their events, which open no group or category. Each group
 * and category opens with its `id` and then its `name`, as comps files are
 * laid out; then come any number of other child elements (translated names,
 * descriptions, `default`, `uservisible`, `display_order`, ...), then the
 * `packagelist` or `grouplist`. Every opening tag of a container and every closing tag is
 * followed by a text of its own (the line break and indentation a catalog
 * has there, which differ from place to place); the only one the callbacks
 * can act on is the text after `</id>`, which is read while the id state is
 * still current, and the theorems require it to differ from the query.
 *
 * The theorems say that on such catalogs the state machine of
 * comps_machine.dfy does what the comps format means: a group lookup
 * collects the `packagereq` names of the groups whose id is the query, and a
 * category lookup the `groupid`s of the categories whose id is the query, in
 * document order, with repetitions, and nothing else.
 */
module Catalog {
  import opened Markup
  import opened CompsMachine

  /** A child element with text only, such as `<name xml:lang="de">…</name>`,
      and the text that follows it. */
  datatype Field = Field(tag: string, attrValues: seq<string>, text: string, gap: string)

  /** `<packagereq type="…">name</packagereq>` and the text that follows it. */
  datatype PackageReq = PackageReq(attrValues: seq<string>, name: string, gap: string)

  /** `<groupid>id</groupid>` and the text that follows it. */
  datatype GroupRef = GroupRef(id: string, gap: string)

  /** The texts after the opening tag, after `</id>`, after `</name>`, after
      the opening and the closing tag of the list, and after the closing tag
      of a group or category. */
  datatype Spacing = Spacing(
    afterOpen: string,
    afterId: string,
    afterName: string,
    afterListOpen: string,
    afterListClose: string,
    afterClose: string)

  datatype CompsGroup = CompsGroup(id: string, name: string, fields: seq<Field>,
                                   packages: seq<PackageReq>, spacing: Spacing)

  datatype CompsCategory = CompsCategory(id: string, name: string, fields: seq<Field>,
                                         groupIds: seq<GroupRef>, spacing: Spacing)

  /** A top-level element of a catalog. `OtherItem` is any other element,
      such as an `environment` (whose `grouplist` and `optionlist` hold
      `groupid`s of their own) or `langpacks`, given as its events. */
  datatype Item =
    | GroupItem(group: CompsGroup)
    | CategoryItem(category: CompsCategory)
    | OtherItem(events: seq<Event>)

  /** A catalog: its top-level elements, and the text after `<comps>`. */
  datatype Document = Document(items: seq<Item>, afterOpen: string)

  /** Element names that carry structure; the other child elements of a
      group or category are not allowed to use them. */
  const StructuralTags: set<string> := {"category", "group", "id", "groupid", "packagereq"}

  predicate FieldsOk(fields: seq<Field>)
  {
    forall i :: 0 <= i < |fields| ==> fields[i].tag !in StructuralTags
  }

  predicate ItemOk(item: Item)
  {
    match item
    case GroupItem(g) => FieldsOk(g.fields)
    case CategoryItem(c) => FieldsOk(c.fields)
    case OtherItem(events) => NoStartOf(events, "group") && NoStartOf(events, "category")
  }

  predicate WellFormed(doc: Document)
  {
    forall i :: 0 <= i < |doc.items| ==> ItemOk(doc.items[i])
  }

  predicate AllWellFormed(docs: seq<Document>)
  {
    forall i :: 0 <= i < |docs| ==> WellFormed(docs[i])
  }

  /** A walk of kind `query` for `q` cannot take the text after the `</id>`
      of a unit of the kind it looks for as that id. */
  predicate Separated(item: Item, query: CompsQuery, q: string)
  {
    match item
    case GroupItem(g) => query == QueryGroup ==> g.spacing.afterId != q
    case CategoryItem(c) => query == QueryCategory ==> c.spacing.afterId != q
    case OtherItem(_) => true
  }

  predicate DocSeparated(doc: Document, query: CompsQuery, q: string)
  {
    forall i :: 0 <= i < |doc.items| ==> Separated(doc.items[i], query, q)
  }

  predicate AllSeparated(docs: seq<Document>, query: CompsQuery, q: string)
  {
    forall i :: 0 <= i < |docs| ==> DocSeparated(docs[i], query, q)
  }

  /** Every id of `ids` is separated in every catalog, for a group walk. */
  predicate GroupIdsSeparated(docs: seq<Document>, ids: seq<string>)
  {
    forall j :: 0 <= j < |ids| ==> AllSeparated(docs, QueryGroup, ids[j])
  }

  // ---------------------------------------------------------------------
  // What the comps format means
  // ---------------------------------------------------------------------

  function ReqNames(reqs: seq<PackageReq>): (r: seq<string>)
    ensures |r| == |reqs|
    decreases |reqs|
  {
    if reqs == [] then [] else [reqs[0].name] + ReqNames(reqs[1..])
  }

  function RefIds(refs: seq<GroupRef>): (r: seq<string>)
    ensures |r| == |refs|
    decreases |refs|
  {
    if refs == [] then [] else [refs[0].id] + RefIds(refs[1..])
  }

  function ItemPackages(item: Item, q: string): seq<string>
  {
    if item.GroupItem? && item.group.id == q then ReqNames(item.group.packages) else []
  }

  function ItemGroupIds(item: Item, q: string): seq<string>
  {
    if item.CategoryItem? && item.category.id == q then RefIds(item.category.groupIds) else []
  }

  /** The package names of every group with id `q`, in document order. */
  function PackagesOf(items: seq<Item>, q: string): seq<string>
    decreases |items|
  {
    if items == [] then [] else ItemPackages(items[0], q) + PackagesOf(items[1..], q)
  }

  /** The group ids listed by every category with id `q`, in document order. */
  function GroupIdsOf(items: seq<Item>, q: string): seq<string>
    decreases |items|
  {
    if items == [] then [] else ItemGroupIds(items[0], q) + GroupIdsOf(items[1..], q)
  }

  function AllPackages(docs: seq<Document>, q: string): seq<string>
    decreases |docs|
  {
    if docs == [] then [] else PackagesOf(docs[0].items, q) + AllPackages(docs[1..], q)
  }

  function AllGroupIds(docs: seq<Document>, q: string): seq<string>
    decreases |docs|
  {
    if docs == [] then [] else GroupIdsOf(docs[0].items, q) + AllGroupIds(docs[1..], q)
  }

  /** The packages of the groups `ids`, id by id, file by file. */
  function PackagesForIds(docs: seq<Document>, ids: seq<string>): seq<string>
    decreases |ids|
  {
    if ids == [] then [] else AllPackages(docs, ids[0]) + PackagesForIds(docs, ids[1..])
  }

  /** The group ids a PackageKit group name stands for in these catalogs. */
  function MappedIds(name: string, docs: seq<Document>): seq<string>
  {
    match Alias(name)
    case Groups(ids) => ids
    case FromCategory(category) => AllGroupIds(docs, category)
  }

  // ---------------------------------------------------------------------
  // The events a catalog produces
  // ---------------------------------------------------------------------

  function Leaf(tag: string, attrValues: seq<string>, text: string, gap: string): seq<Event>
  {
    [Start(tag, attrValues), Text(text), End(tag), Text(gap)]
  }

  function RenderFields(fields: seq<Field>): seq<Event>
    decreases |fields|
  {
    if fields == [] then []
    else Leaf(fields[0].tag, fields[0].attrValues, fields[0].text, fields[0].gap) + RenderFields(fields[1..])
  }

  function RenderReqs(reqs: seq<PackageReq>): seq<Event>
    decreases |reqs|
  {
    if reqs == [] then []
    else Leaf("packagereq", reqs[0].attrValues, reqs[0].name, reqs[0].gap) + RenderReqs(reqs[1..])
  }

  function RenderGroupIds(refs: seq<GroupRef>): seq<Event>
    decreases |refs|
  {
    if refs == [] then [] else Leaf("groupid", [], refs[0].id, refs[0].gap) + RenderGroupIds(refs[1..])
  }

  /** The opening of a group or category: its tag, its id and its name. */
  function Head(tag: string, id: string, name: string, s: Spacing): seq<Event>
  {
    [Start(tag, []), Text(s.afterOpen)] + (Leaf("id", [], id, s.afterId) + Leaf("name", [], name, s.afterName))
  }

  /** What follows the name of a group. */
  function GroupBody(g: CompsGroup): seq<Event>
  {
    RenderFields(g.fields)
    + ([Start("packagelist", []), Text(g.spacing.afterListOpen)]
       + (RenderReqs(g.packages)
          + [End("packagelist"), Text(g.spacing.afterListClose), End("group"), Text(g.spacing.afterClose)]))
  }

  /** What follows the name of a category. */
  function CategoryBody(c: CompsCategory): seq<Event>
  {
    RenderFields(c.fields)
    + ([Start("grouplist", []), Text(c.spacing.afterListOpen)]
       + (RenderGroupIds(c.groupIds)
          + [End("grouplist"), Text(c.spacing.afterListClose), End("category"), Text(c.spacing.afterClose)]))
  }

  function RenderGroup(g: CompsGroup): seq<Event>
  {
    Head("group", g.id, g.name, g.spacing) + GroupBody(g)
  }

  function RenderCategory(c: CompsCategory): seq<Event>
  {
    Head("category", c.id, c.name, c.spacing) + CategoryBody(c)
  }

  function RenderItem(item: Item): seq<Event>
  {
    match item
    case GroupItem(g) => RenderGroup(g)
    case CategoryItem(c) => RenderCategory(c)
    case OtherItem(events) => events
  }

  function RenderItems(items: seq<Item>): seq<Event>
    decreases |items|
  {
    if items == [] then [] else RenderItem(items[0]) + RenderItems(items[1..])
  }

  function Render(doc: Document): seq<Event>
  {
    [Start("comps", []), Text(doc.afterOpen)] + (RenderItems(doc.items) + [End("comps")])
  }

  /** The catalogs as the driver reads them: every file loads and parses. */
  function Files(docs: seq<Document>): (r: seq<CompsFile>)
    ensures |r| == |docs|
    ensures forall i :: 0 <= i < |r| ==> Succeeds(r[i])
    decreases |docs|
  {
    if docs == [] then [] else [Loaded(Render(docs[0]), true)] + Files(docs[1..])
  }

  // ---------------------------------------------------------------------
  // Walking the events
  // ---------------------------------------------------------------------

  /** Between two groups or categories: unmatched, and in no state that an
      `id` element or the text of one could act on. */
  predicate Settled(d: Data)
  {
    !d.queryMatch && d.state !in {StateCategory, StateCategoryId, StateGroup, StateGroupId}
  }

  /** The element that opens a unit of the kind the walk looks for. */
  function ScopeTag(q: CompsQuery): string
  {
    match q
    case QueryGroup => "group"
    case QueryCategory => "category"
  }

  /** The state an `id` element acts in, for each kind of walk. */
  function ScopeState(q: CompsQuery): CompsState
  {
    match q
    case QueryGroup => StateGroup
    case QueryCategory => StateCategory
  }

  /** The state the text of an `id` element is read in. */
  function IdState(q: CompsQuery): CompsState
  {
    match q
    case QueryGroup => StateGroupId
    case QueryCategory => StateCategoryId
  }

  predicate NoStartOf(events: seq<Event>, tag: string)
  {
    forall e :: e in events ==> !(e.Start? && e.name == tag)
  }

  lemma Concat(a: seq<string>, b: seq<string>, c: seq<string>)
    ensures a + b + c == a + (b + c)
  {
  }

  lemma FeedLeaf(d: Data, locale: string, tag: string, attrValues: seq<string>, text: string, gap: string)
    ensures Feed(d, locale, Leaf(tag, attrValues, text, gap)) ==
            OnText(OnEnd(OnText(OnStart(d, locale, tag, attrValues), text), tag), gap)
  {
    var d1 := OnStart(d, locale, tag, attrValues);
    var d2 := OnText(d1, text);
    var d3 := OnEnd(d2, tag);
    FeedCons(d3, locale, Text(gap), []);
    FeedCons(d2, locale, End(tag), [Text(gap)]);
    FeedCons(d1, locale, Text(text), [End(tag), Text(gap)]);
    FeedCons(d, locale, Start(tag, attrValues), [Text(text), End(tag), Text(gap)]);
  }

  /** Outside any unit of the kind looked for, nothing is matched or
      collected, whatever elements pass. */
  lemma {:induction false} FeedCalm(d: Data, locale: string, events: seq<Event>)
    requires Settled(d)
    requires NoStartOf(events, ScopeTag(d.query))
    ensures Settled(Feed(d, locale, events))
    ensures Feed(d, locale, events).groups == d.groups
    ensures Feed(d, locale, events).packages == d.packages
    decreases |events|
  {
    if events != [] {
      assert events == [events[0]] + events[1..];
      assert events[0] in events;
      FeedCalm(OnEvent(d, locale, events[0]), locale, events[1..]);
    }
  }

  lemma {:induction false} NoStartFields(fields: seq<Field>, tag: string)
    requires FieldsOk(fields) && tag in StructuralTags
    ensures NoStartOf(RenderFields(fields), tag)
    decreases |fields|
  {
    if fields != [] {
      NoStartFields(fields[1..], tag);
    }
  }

  lemma {:induction false} NoStartReqs(reqs: seq<PackageReq>, tag: string)
    requires tag != "packagereq"
    ensures NoStartOf(RenderReqs(reqs), tag)
    decreases |reqs|
  {
    if reqs != [] {
      NoStartReqs(reqs[1..], tag);
    }
  }

  lemma {:induction false} NoStartGroupIds(refs: seq<GroupRef>, tag: string)
    requires tag != "groupid"
    ensures NoStartOf(RenderGroupIds(refs), tag)
    decreases |refs|
  {
    if refs != [] {
      NoStartGroupIds(refs[1..], tag);
    }
  }

  lemma FeedScopeOpen(d: Data, locale: string, gap: string)
    requires Settled(d)
    ensures Feed(d, locale, [Start(ScopeTag(d.query), []), Text(gap)]) == d.(state := ScopeState(d.query))
  {
    var d1 := OnStart(d, locale, ScopeTag(d.query), []);
    FeedCons(d1, locale, Text(gap), []);
    FeedCons(d, locale, Start(ScopeTag(d.query), []), [Text(gap)]);
  }

  lemma FeedIdLeaf(d: Data, locale: string, id: string, gap: string)
    requires !d.queryMatch && d.state == ScopeState(d.query) && gap != d.currentQuery
    ensures Feed(d, locale, Leaf("id", [], id, gap)) ==
            d.(state := IdState(d.query), queryMatch := id == d.currentQuery)
  {
    FeedLeaf(d, locale, "id", [], id, gap);
  }

  lemma FeedNameLeaf(d: Data, locale: string, name: string, gap: string)
    requires d.state == IdState(d.query)
    ensures Feed(d, locale, Leaf("name", [], name, gap)) == d.(state := StateIgnore)
  {
    FeedLeaf(d, locale, "name", [], name, gap);
  }

  /** After the opening of a unit of the kind looked for, the walk is in
      the ignore state and matched exactly when the unit's id is the query. */
  lemma FeedHead(d: Data, locale: string, id: string, name: string, s: Spacing)
    requires Settled(d) && s.afterId != d.currentQuery
    ensures Feed(d, locale, Head(ScopeTag(d.query), id, name, s)) ==
            d.(state := StateIgnore, queryMatch := id == d.currentQuery)
  {
    var open := [Start(ScopeTag(d.query), []), Text(s.afterOpen)];
    var idLeaf := Leaf("id", [], id, s.afterId);
    var nameLeaf := Leaf("name", [], name, s.afterName);
    FeedAppend(d, locale, open, idLeaf + nameLeaf);
    FeedScopeOpen(d, locale, s.afterOpen);
    var d1 := d.(state := ScopeState(d.query));
    FeedAppend(d1, locale, idLeaf, nameLeaf);
    FeedIdLeaf(d1, locale, id, s.afterId);
    FeedNameLeaf(d1.(state := IdState(d.query), queryMatch := id == d.currentQuery), locale, name, s.afterName);
  }

  lemma FeedMatchedField(d: Data, locale: string, f: Field)
    requires d.queryMatch && d.state == StateIgnore && f.tag !in StructuralTags
    ensures Feed(d, locale, Leaf(f.tag, f.attrValues, f.text, f.gap)) == d
  {
    FeedLeaf(d, locale, f.tag, f.attrValues, f.text, f.gap);
  }

  /** Inside a matched unit, the other child elements change nothing. */
  lemma {:induction false} MatchedFields(d: Data, locale: string, fields: seq<Field>)
    requires d.queryMatch && d.state == StateIgnore && FieldsOk(fields)
    ensures Feed(d, locale, RenderFields(fields)) == d
    decreases |fields|
  {
    if fields != [] {
      var f := fields[0];
      FeedAppend(d, locale, Leaf(f.tag, f.attrValues, f.text, f.gap), RenderFields(fields[1..]));
      FeedMatchedField(d, locale, f);
      MatchedFields(d, locale, fields[1..]);
    }
  }

  lemma FeedMatchedReq(d: Data, locale: string, p: PackageReq)
    requires d.queryMatch && d.state == StateIgnore && d.query == QueryGroup
    ensures Feed(d, locale, Leaf("packagereq", p.attrValues, p.name, p.gap)) == d.(packages := d.packages + [p.name])
  {
    FeedLeaf(d, locale, "packagereq", p.attrValues, p.name, p.gap);
  }

  /** Inside a matched group, every `packagereq` adds its name. */
  lemma {:induction false} MatchedReqs(d: Data, locale: string, reqs: seq<PackageReq>)
    requires d.queryMatch && d.state == StateIgnore && d.query == QueryGroup
    ensures Feed(d, locale, RenderReqs(reqs)) == d.(packages := d.packages + ReqNames(reqs))
    decreases |reqs|
  {
    if reqs == [] {
      assert d.packages + ReqNames(reqs) == d.packages;
    } else {
      var p := reqs[0];
      FeedAppend(d, locale, Leaf("packagereq", p.attrValues, p.name, p.gap), RenderReqs(reqs[1..]));
      FeedMatchedReq(d, locale, p);
      var d1 := d.(packages := d.packages + [p.name]);
      MatchedReqs(d1, locale, reqs[1..]);
      Concat(d.packages, [p.name], ReqNames(reqs[1..]));
    }
  }

  lemma FeedMatchedGroupId(d: Data, locale: string, r: GroupRef)
    requires d.queryMatch && d.state == StateIgnore && d.query == QueryCategory
    ensures Feed(d, locale, Leaf("groupid", [], r.id, r.gap)) == d.(groups := d.groups + [r.id])
  {
    FeedLeaf(d, locale, "groupid", [], r.id, r.gap);
  }

  /** Inside a matched category, every `groupid` adds its text. */
  lemma {:induction false} MatchedGroupIds(d: Data, locale: string, refs: seq<GroupRef>)
    requires d.queryMatch && d.state == StateIgnore && d.query == QueryCategory
    ensures Feed(d, locale, RenderGroupIds(refs)) == d.(groups := d.groups + RefIds(refs))
    decreases |refs|
  {
    if refs == [] {
      assert d.groups + RefIds(refs) == d.groups;
    } else {
      var r := refs[0];
      FeedAppend(d, locale, Leaf("groupid", [], r.id, r.gap), RenderGroupIds(refs[1..]));
      FeedMatchedGroupId(d, locale, r);
      var d1 := d.(groups := d.groups + [r.id]);
      MatchedGroupIds(d1, locale, refs[1..]);
      Concat(d.groups, [r.id], RefIds(refs[1..]));
    }
  }

  lemma FeedClose(d: Data, locale: string, list: string, tag: string, gap1: string, gap2: string)
    requires d.queryMatch && d.state == StateIgnore && tag in ScopeCloseTags
    requires list == "packagelist" || list == "grouplist"
    ensures Feed(d, locale, [End(list), Text(gap1), End(tag), Text(gap2)]) == d.(queryMatch := false)
  {
    var d1 := OnEnd(d, tag);
    FeedCons(d1, locale, Text(gap2), []);
    FeedCons(d, locale, End(tag), [Text(gap2)]);
    FeedCons(d, locale, Text(gap1), [End(tag), Text(gap2)]);
    FeedCons(d, locale, End(list), [Text(gap1), End(tag), Text(gap2)]);
  }

  lemma FeedOpen(d: Data, locale: string, list: string, gap: string)
    requires d.queryMatch && d.state == StateIgnore
    requires (d.query == QueryGroup && list == "packagelist") || (d.query == QueryCategory && list == "grouplist")
    ensures Feed(d, locale, [Start(list, []), Text(gap)]) == d
  {
    FeedCons(d, locale, Text(gap), []);
    FeedCons(d, locale, Start(list, []), [Text(gap)]);
  }

  /** What follows the name of a group opens no group or category. */
  lemma NoStartGroupBody(g: CompsGroup, tag: string)
    requires FieldsOk(g.fields) && (tag == "group" || tag == "category")
    ensures NoStartOf(GroupBody(g), tag)
  {
    NoStartFields(g.fields, tag);
    NoStartReqs(g.packages, tag);
  }

  /** What follows the name of a category opens no group or category. */
  lemma NoStartCategoryBody(c: CompsCategory, tag: string)
    requires FieldsOk(c.fields) && (tag == "group" || tag == "category")
    ensures NoStartOf(CategoryBody(c), tag)
  {
    NoStartFields(c.fields, tag);
    NoStartGroupIds(c.groupIds, tag);
  }

  /** The rest of the matching group, after its name. */
  lemma MatchedGroupBody(h: Data, locale: string, g: CompsGroup)
    requires h.queryMatch && h.state == StateIgnore && h.query == QueryGroup && FieldsOk(g.fields)
    ensures Feed(h, locale, GroupBody(g)) == h.(queryMatch := false, packages := h.packages + ReqNames(g.packages))
  {
    var s := g.spacing;
    var fields := RenderFields(g.fields);
    var open := [Start("packagelist", []), Text(s.afterListOpen)];
    var reqs := RenderReqs(g.packages);
    var close := [End("packagelist"), Text(s.afterListClose), End("group"), Text(s.afterClose)];
    assert GroupBody(g) == fields + (open + (reqs + close));
    FeedAppend(h, locale, fields, open + (reqs + close));
    MatchedFields(h, locale, g.fields);
    FeedAppend(h, locale, open, reqs + close);
    FeedOpen(h, locale, "packagelist", s.afterListOpen);
    FeedAppend(h, locale, reqs, close);
    MatchedReqs(h, locale, g.packages);
    FeedClose(h.(packages := h.packages + ReqNames(g.packages)), locale, "packagelist", "group",
              s.afterListClose, s.afterClose);
  }

  /** A group seen by a group walk. */
  lemma GroupInGroupWalk(d: Data, locale: string, g: CompsGroup)
    requires d.query == QueryGroup && Settled(d) && g.spacing.afterId != d.currentQuery && FieldsOk(g.fields)
    ensures var r := Feed(d, locale, RenderGroup(g));
            Settled(r) && r.groups == d.groups &&
            r.packages == d.packages + (if g.id == d.currentQuery then ReqNames(g.packages) else [])
  {
    var head := Head("group", g.id, g.name, g.spacing);
    var rest := GroupBody(g);
    FeedAppend(d, locale, head, rest);
    FeedHead(d, locale, g.id, g.name, g.spacing);
    var h := d.(state := StateIgnore, queryMatch := g.id == d.currentQuery);
    if g.id == d.currentQuery {
      MatchedGroupBody(h, locale, g);
    } else {
      NoStartGroupBody(g, "group");
      FeedCalm(h, locale, rest);
      assert d.packages + [] == d.packages;
    }
  }

  /** The rest of the matching category, after its name. */
  lemma MatchedCategoryBody(h: Data, locale: string, c: CompsCategory)
    requires h.queryMatch && h.state == StateIgnore && h.query == QueryCategory && FieldsOk(c.fields)
    ensures Feed(h, locale, CategoryBody(c)) == h.(queryMatch := false, groups := h.groups + RefIds(c.groupIds))
  {
    var s := c.spacing;
    var fields := RenderFields(c.fields);
    var open := [Start("grouplist", []), Text(s.afterListOpen)];
    var ids := RenderGroupIds(c.groupIds);
    var close := [End("grouplist"), Text(s.afterListClose), End("category"), Text(s.afterClose)];
    assert CategoryBody(c) == fields + (open + (ids + close));
    FeedAppend(h, locale, fields, open + (ids + close));
    MatchedFields(h, locale, c.fields);
    FeedAppend(h, locale, open, ids + close);
    FeedOpen(h, locale, "grouplist", s.afterListOpen);
    FeedAppend(h, locale, ids, close);
    MatchedGroupIds(h, locale, c.groupIds);
    FeedClose(h.(groups := h.groups + RefIds(c.groupIds)), locale, "grouplist", "category",
              s.afterListClose, s.afterClose);
  }

  /** A category seen by a category walk. */
  lemma CategoryInCategoryWalk(d: Data, locale: string, c: CompsCategory)
    requires d.query == QueryCategory && Settled(d) && c.spacing.afterId != d.currentQuery && FieldsOk(c.fields)
    ensures var r := Feed(d, locale, RenderCategory(c));
            Settled(r) && r.packages == d.packages &&
            r.groups == d.groups + (if c.id == d.currentQuery then RefIds(c.groupIds) else [])
  {
    var head := Head("category", c.id, c.name, c.spacing);
    var rest := CategoryBody(c);
    FeedAppend(d, locale, head, rest);
    FeedHead(d, locale, c.id, c.name, c.spacing);
    var h := d.(state := StateIgnore, queryMatch := c.id == d.currentQuery);
    if c.id == d.currentQuery {
      MatchedCategoryBody(h, locale, c);
    } else {
      NoStartCategoryBody(c, "category");
      FeedCalm(h, locale, rest);
      assert d.groups + [] == d.groups;
    }
  }

  /** A group seen by a category walk: nothing happens. */
  lemma GroupInCategoryWalk(d: Data, locale: string, g: CompsGroup)
    requires d.query == QueryCategory && Settled(d) && FieldsOk(g.fields)
    ensures Settled(Feed(d, locale, RenderGroup(g)))
    ensures Feed(d, locale, RenderGroup(g)).groups == d.groups
    ensures Feed(d, locale, RenderGroup(g)).packages == d.packages
  {
    NoStartGroupBody(g, "category");
    FeedCalm(d, locale, RenderGroup(g));
  }

  /** A category seen by a group walk: nothing happens. */
  lemma CategoryInGroupWalk(d: Data, locale: string, c: CompsCategory)
    requires d.query == QueryGroup && Settled(d) && FieldsOk(c.fields)
    ensures Settled(Feed(d, locale, RenderCategory(c)))
    ensures Feed(d, locale, RenderCategory(c)).groups == d.groups
    ensures Feed(d, locale, RenderCategory(c)).packages == d.packages
  {
    NoStartCategoryBody(c, "group");
    FeedCalm(d, locale, RenderCategory(c));
  }

  /** How the outputs of two consecutive stretches of a walk add up. */
  lemma Accumulate(d: Data, d1: Data, r: Data, g1: seq<string>, g2: seq<string>, p1: seq<string>, p2: seq<string>)
    requires d1.query == d.query
    requires d1.groups == d.groups + (if d.query == QueryCategory then g1 else [])
    requires d1.packages == d.packages + (if d.query == QueryGroup then p1 else [])
    requires r.groups == d1.groups + (if d.query == QueryCategory then g2 else [])
    requires r.packages == d1.packages + (if d.query == QueryGroup then p2 else [])
    ensures r.groups == d.groups + (if d.query == QueryCategory then g1 + g2 else [])
    ensures r.packages == d.packages + (if d.query == QueryGroup then p1 + p2 else [])
  {
    if d.query == QueryCategory {
      assert d.packages + [] == d.packages;
    } else {
      assert d.groups + [] == d.groups;
    }
  }

  /** One group or category, seen by a walk of either kind. */
  lemma FeedItem(d: Data, locale: string, item: Item)
    requires Settled(d) && ItemOk(item) && Separated(item, d.query, d.currentQuery)
    ensures var r := Feed(d, locale, RenderItem(item));
            Settled(r) &&
            r.groups == d.groups + (if d.query == QueryCategory then ItemGroupIds(item, d.currentQuery) else []) &&
            r.packages == d.packages + (if d.query == QueryGroup then ItemPackages(item, d.currentQuery) else [])
  {
    var r := Feed(d, locale, RenderItem(item));
    match item
    case GroupItem(g) =>
      assert r == Feed(d, locale, RenderGroup(g));
      if d.query == QueryGroup {
        GroupInGroupWalk(d, locale, g);
        assert d.groups + [] == d.groups;
      } else {
        GroupInCategoryWalk(d, locale, g);
        assert d.groups + [] == d.groups && d.packages + [] == d.packages;
      }
    case CategoryItem(c) =>
      assert r == Feed(d, locale, RenderCategory(c));
      if d.query == QueryCategory {
        CategoryInCategoryWalk(d, locale, c);
        assert d.packages + [] == d.packages;
      } else {
        CategoryInGroupWalk(d, locale, c);
        assert d.groups + [] == d.groups && d.packages + [] == d.packages;
      }
    case OtherItem(events) =>
      FeedCalm(d, locale, events);
      assert d.groups + [] == d.groups && d.packages + [] == d.packages;
  }

  lemma {:induction false} FeedItems(d: Data, locale: string, items: seq<Item>)
    requires Settled(d)
    requires forall i :: 0 <= i < |items| ==> ItemOk(items[i]) && Separated(items[i], d.query, d.currentQuery)
    ensures var r := Feed(d, locale, RenderItems(items));
            Settled(r) &&
            r.groups == d.groups + (if d.query == QueryCategory then GroupIdsOf(items, d.currentQuery) else []) &&
            r.packages == d.packages + (if d.query == QueryGroup then PackagesOf(items, d.currentQuery) else [])
    decreases |items|
  {
    if items == [] {
      assert d.packages + [] == d.packages && d.groups + [] == d.groups;
    } else {
      var q := d.currentQuery;
      var first := RenderItem(items[0]);
      var rest := RenderItems(items[1..]);
      FeedAppend(d, locale, first, rest);
      FeedItem(d, locale, items[0]);
      var d1 := Feed(d, locale, first);
      FeedItems(d1, locale, items[1..]);
      Accumulate(d, d1, Feed(d1, locale, rest),
                 ItemGroupIds(items[0], q), GroupIdsOf(items[1..], q),
                 ItemPackages(items[0], q), PackagesOf(items[1..], q));
    }
  }

  /** One catalog walked from a settled record: a group walk collects
      exactly PackagesOf, a category walk exactly GroupIdsOf. */
  lemma FeedDocument(d: Data, locale: string, doc: Document)
    requires Settled(d) && WellFormed(doc) && DocSeparated(doc, d.query, d.currentQuery)
    ensures var r := Feed(d, locale, Render(doc));
            Settled(r) &&
            r.groups == d.groups + (if d.query == QueryCategory then GroupIdsOf(doc.items, d.currentQuery) else []) &&
            r.packages == d.packages + (if d.query == QueryGroup then PackagesOf(doc.items, d.currentQuery) else [])
  {
    var open := [Start("comps", []), Text(doc.afterOpen)];
    var body := RenderItems(doc.items);
    var close := [End("comps")];
    assert Render(doc) == open + (body + close);
    FeedAppend(d, locale, open, body + close);
    FeedCalm(d, locale, open);
    var d1 := Feed(d, locale, open);
    FeedAppend(d1, locale, body, close);
    FeedItems(d1, locale, doc.items);
    FeedCalm(Feed(d1, locale, body), locale, close);
  }

  /** The events of several catalogs, one after the other. */
  function RenderAll(docs: seq<Document>): seq<Event>
    decreases |docs|
  {
    if docs == [] then [] else Render(docs[0]) + RenderAll(docs[1..])
  }

  lemma {:induction false} AllEventsOfFiles(docs: seq<Document>)
    ensures AllEvents(Files(docs)) == RenderAll(docs)
    decreases |docs|
  {
    if docs != [] {
      var files := Files(docs);
      assert files[0] == Loaded(Render(docs[0]), true);
      assert files[1..] == Files(docs[1..]);
      AllEventsOfFiles(docs[1..]);
    }
  }

  lemma {:induction false} FeedDocuments(d: Data, locale: string, docs: seq<Document>)
    requires Settled(d) && AllWellFormed(docs) && AllSeparated(docs, d.query, d.currentQuery)
    ensures var r := Feed(d, locale, RenderAll(docs));
            Settled(r) &&
            r.groups == d.groups + (if d.query == QueryCategory then AllGroupIds(docs, d.currentQuery) else []) &&
            r.packages == d.packages + (if d.query == QueryGroup then AllPackages(docs, d.currentQuery) else [])
    decreases |docs|
  {
    if docs == [] {
      assert d.packages + [] == d.packages && d.groups + [] == d.groups;
    } else {
      var q := d.currentQuery;
      FeedAppend(d, locale, Render(docs[0]), RenderAll(docs[1..]));
      assert WellFormed(docs[0]) && DocSeparated(docs[0], d.query, q);
      FeedDocument(d, locale, docs[0]);
      var d1 := Feed(d, locale, Render(docs[0]));
      assert AllWellFormed(docs[1..]) && AllSeparated(docs[1..], d.query, q) by {
        forall i | 0 <= i < |docs[1..]|
          ensures WellFormed(docs[1..][i]) && DocSeparated(docs[1..][i], d.query, q)
        {
          assert docs[1..][i] == docs[i + 1];
        }
      }
      FeedDocuments(d1, locale, docs[1..]);
      Accumulate(d, d1, Feed(d1, locale, RenderAll(docs[1..])),
                 GroupIdsOf(docs[0].items, q), AllGroupIds(docs[1..], q),
                 PackagesOf(docs[0].items, q), AllPackages(docs[1..], q));
    }
  }

  /** The driver over well-formed catalogs, entered unmatched: it succeeds,
      leaves the walk unmatched, and a group walk collects exactly the
      packages of the groups whose id is the query, a category walk exactly
      the groupids of the categories whose id is the query, file by file in
      document order. */
  lemma ParseCatalogs(d: Data, locale: string, docs: seq<Document>)
    requires !d.queryMatch && AllWellFormed(docs) && AllSeparated(docs, d.query, d.currentQuery)
    ensures var r := Parse(d, locale, Files(docs));
            r.ok && !r.data.queryMatch &&
            r.data.groups == d.groups + (if d.query == QueryCategory then AllGroupIds(docs, d.currentQuery) else []) &&
            r.data.packages == d.packages + (if d.query == QueryGroup then AllPackages(docs, d.currentQuery) else [])
  {
    ParseSharesState(d, locale, Files(docs));
    AllEventsOfFiles(docs);
    FeedDocuments(d.(state := StateIgnore), locale, docs);
  }

  lemma {:induction false} PackagesLoopCatalogs(d: Data, locale: string, docs: seq<Document>, ids: seq<string>)
    requires d.query == QueryGroup && !d.queryMatch && AllWellFormed(docs) && GroupIdsSeparated(docs, ids)
    ensures var r := PackagesLoop(d, locale, Files(docs), ids);
            !r.queryMatch && r.packages == d.packages + PackagesForIds(docs, ids)
    decreases |ids|
  {
    var files := Files(docs);
    if ids == [] {
      assert d.packages + [] == d.packages;
    } else {
      var d0 := d.(currentQuery := ids[0]);
      assert AllSeparated(docs, QueryGroup, ids[0]);
      ParseCatalogs(d0, locale, docs);
      var d1 := Parse(d0, locale, files).data;
      assert GroupIdsSeparated(docs, ids[1..]) by {
        forall j | 0 <= j < |ids[1..]| ensures AllSeparated(docs, QueryGroup, ids[1..][j]) {
          assert ids[1..][j] == ids[j + 1];
        }
      }
      PackagesLoopCatalogs(d1, locale, docs, ids[1..]);
      var r1 := PackagesLoop(d1, locale, files, ids[1..]);
      assert PackagesLoop(d, locale, files, ids) == r1;
      Concat(d.packages, AllPackages(docs, ids[0]), PackagesForIds(docs, ids[1..]));
    }
  }

  /** The package lookup over well-formed catalogs: the packages of the
      requested groups in requested-id order, then file order, then
      document order, repetitions kept; an id no catalog defines adds
      nothing. */
  lemma PackagesFromGroupCatalogs(d: Data, locale: string, docs: seq<Document>, ids: seq<string>)
    requires !d.queryMatch && AllWellFormed(docs) && GroupIdsSeparated(docs, ids)
    ensures GetPackagesFromGroup(d, locale, Files(docs), ids).packages == PackagesForIds(docs, ids)
    ensures !GetPackagesFromGroup(d, locale, Files(docs), ids).queryMatch
  {
    PackagesLoopCatalogs(d.(query := QueryGroup, packages := []), locale, docs, ids);
  }

  /** The category lookup over well-formed catalogs: the groupids of the
      matching categories, file by file, in document order. */
  lemma GroupsFromCategoryCatalogs(d: Data, locale: string, docs: seq<Document>, category: string)
    requires !d.queryMatch && AllWellFormed(docs) && AllSeparated(docs, QueryCategory, category)
    ensures GetGroupsFromCategory(d, locale, Files(docs), category).groups == AllGroupIds(docs, category)
    ensures !GetGroupsFromCategory(d, locale, Files(docs), category).queryMatch
  {
    var d0 := d.(query := QueryCategory, currentQuery := category, groups := []);
    ParseCatalogs(d0, locale, docs);
  }

  /** The mapping over well-formed catalogs: a category alias yields the
      group ids its category lists. */
  lemma GroupMappingCatalogs(d: Data, locale: string, docs: seq<Document>, name: string)
    requires !d.queryMatch && AllWellFormed(docs)
    requires Alias(name).FromCategory? ==> AllSeparated(docs, QueryCategory, Alias(name).category)
    ensures GroupMapping(d, locale, Files(docs), name).groups == MappedIds(name, docs)
    ensures !GroupMapping(d, locale, Files(docs), name).data.queryMatch
  {
    if Alias(name).FromCategory? {
      GroupsFromCategoryCatalogs(d, locale, docs, Alias(name).category);
    }
  }

  /** End to end: the packages a PackageKit group name resolves to over
      well-formed catalogs are those of the groups it maps to. */
  lemma ResolveGroupCatalogs(name: string, locale: string, docs: seq<Document>)
    requires AllWellFormed(docs)
    requires Alias(name).FromCategory? ==> AllSeparated(docs, QueryCategory, Alias(name).category)
    requires GroupIdsSeparated(docs, MappedIds(name, docs))
    ensures ResolveGroup(name, locale, Files(docs)) == PackagesForIds(docs, MappedIds(name, docs))
  {
    var files := Files(docs);
    GroupMappingCatalogs(Initial, locale, docs, name);
    var m := GroupMapping(Initial, locale, files, name);
    PackagesFromGroupCatalogs(m.data, locale, docs, m.groups);
  }

  // ---------------------------------------------------------------------
  // A match left open
  // ---------------------------------------------------------------------

  /** The opening of any group, whatever its id and whatever the texts
      between its tags, in a group walk that is already matched: the match
      stays. */
  lemma MatchSurvivesId(d: Data, locale: string, id: string, name: string, s: Spacing)
    requires d.queryMatch && d.query == QueryGroup
    ensures Feed(d, locale, Head("group", id, name, s)) == d.(state := StateIgnore)
  {
    var open := [Start("group", []), Text(s.afterOpen)];
    var idLeaf := Leaf("id", [], id, s.afterId);
    var nameLeaf := Leaf("name", [], name, s.afterName);
    FeedAppend(d, locale, open, idLeaf + nameLeaf);
    var d1 := d.(state := StateGroup);
    FeedCons(OnStart(d, locale, "group", []), locale, Text(s.afterOpen), []);
    FeedCons(d, locale, Start("group", []), [Text(s.afterOpen)]);
    FeedAppend(d1, locale, idLeaf, nameLeaf);
    FeedLeaf(d1, locale, "id", [], id, s.afterId);
    FeedNameLeaf(d1.(state := StateGroupId), locale, name, s.afterName);
  }

  /** The units of a catalog walked by a group walk that is matched when it
      reaches them: the first group gives all its packages whatever its id,
      the rest give what the comps format says. */
  lemma MatchedItemsWalk(d: Data, locale: string, g: CompsGroup, rest: seq<Item>)
    requires d.queryMatch && d.query == QueryGroup && d.state == StateIgnore && FieldsOk(g.fields)
    requires forall i :: 0 <= i < |rest| ==> ItemOk(rest[i]) && Separated(rest[i], QueryGroup, d.currentQuery)
    ensures var r := Feed(d, locale, RenderItems([GroupItem(g)] + rest));
            Settled(r) && r.packages == d.packages + ReqNames(g.packages) + PackagesOf(rest, d.currentQuery)
  {
    var items := [GroupItem(g)] + rest;
    assert items[0] == GroupItem(g) && items[1..] == rest;
    assert RenderItems(items) == Head("group", g.id, g.name, g.spacing) + (GroupBody(g) + RenderItems(rest));
    FeedAppend(d, locale, Head("group", g.id, g.name, g.spacing), GroupBody(g) + RenderItems(rest));
    MatchSurvivesId(d, locale, g.id, g.name, g.spacing);
    FeedAppend(d, locale, GroupBody(g), RenderItems(rest));
    MatchedGroupBody(d, locale, g);
    var d1 := d.(queryMatch := false, packages := d.packages + ReqNames(g.packages));
    FeedItems(d1, locale, rest);
  }

  /** A whole catalog whose first unit is a group, walked by a group walk
      that is matched when it begins. */
  lemma MatchedDocumentWalk(d: Data, locale: string, g: CompsGroup, rest: seq<Item>, afterOpen: string)
    requires d.queryMatch && d.query == QueryGroup && d.state == StateIgnore && FieldsOk(g.fields)
    requires forall i :: 0 <= i < |rest| ==> ItemOk(rest[i]) && Separated(rest[i], QueryGroup, d.currentQuery)
    ensures var r := Feed(d, locale, Render(Document([GroupItem(g)] + rest, afterOpen)));
            !r.queryMatch && r.packages == d.packages + ReqNames(g.packages) + PackagesOf(rest, d.currentQuery)
  {
    var doc := Document([GroupItem(g)] + rest, afterOpen);
    var open := [Start("comps", []), Text(afterOpen)];
    var body := RenderItems(doc.items);
    var close := [End("comps")];
    assert Render(doc) == open + (body + close);
    FeedAppend(d, locale, open, body + close);
    FeedRootOpen(d, locale, afterOpen);
    FeedAppend(d, locale, body, close);
    MatchedItemsWalk(d, locale, g, rest);
    var d1 := Feed(d, locale, body);
    FeedCalm(d1, locale, close);
  }

  /** The root element's opening leaves a matched group walk as it was. */
  lemma FeedRootOpen(d: Data, locale: string, afterOpen: string)
    requires d.query == QueryGroup && d.state == StateIgnore
    ensures Feed(d, locale, [Start("comps", []), Text(afterOpen)]) == d
  {
    FeedCons(d, locale, Text(afterOpen), []);
    FeedCons(d, locale, Start("comps", []), [Text(afterOpen)]);
  }

  /** A match still open when a driver call begins is used by that call: a
      group walk that starts matched (say, after a category walk that
      stopped inside its matching category, or a file that ended inside its
      matching group) collects all the packages of the first group it
      meets, whatever that group's id, and then what the comps format says
      of the rest. */
  lemma MatchCarriesOver(d: Data, locale: string, g: CompsGroup, rest: seq<Item>, afterOpen: string)
    requires d.queryMatch && d.query == QueryGroup && FieldsOk(g.fields)
    requires forall i :: 0 <= i < |rest| ==> ItemOk(rest[i]) && Separated(rest[i], QueryGroup, d.currentQuery)
    ensures var r := Parse(d, locale, Files([Document([GroupItem(g)] + rest, afterOpen)]));
            r.ok && !r.data.queryMatch &&
            r.data.packages == d.packages + ReqNames(g.packages) + PackagesOf(rest, d.currentQuery)
  {
    var doc := Document([GroupItem(g)] + rest, afterOpen);
    var files := Files([doc]);
    ParseSharesState(d, locale, files);
    AllEventsOfFiles([doc]);
    assert RenderAll([doc]) == Render(doc) + [];
    assert Render(doc) + [] == Render(doc);
    MatchedDocumentWalk(d.(state := StateIgnore), locale, g, rest, afterOpen);
  }
}
