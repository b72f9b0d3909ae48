/**
 * The comps group-resolution logic of the hif backend as pure functions:
 * the three markup callbacks as transitions on one record, the driver that
 * feeds every catalog file through them, the two lookups built on the
 * driver, and the table that maps PackageKit's coarse group names onto comps
 * groups and categories.
 *
 * The class in comps_data.dfy performs the same steps in place; its methods
 * are specified by the functions here.
 */
module CompsMachine {
  import opened Markup

  /** PkCompsState: where in the catalog the callbacks currently are. */
  datatype CompsState =
    | StateCategory
    | StateCategoryId
    | StateCategoryGroupId
    | StateGroup
    | StateGroupId
    | StateGroupPkgReq
    | StateGroupDescription
    | StateIgnore

  /** PkCompsQuery: which kind of element a walk is looking for. */
  datatype CompsQuery = QueryCategory | QueryGroup

  /** The fields of PkCompsData that the callbacks read and write. The list
      of catalog files, which nothing changes once it is built, is passed
      alongside instead. */
  datatype Data = Data(
    currentQuery: string,
    queryMatch: bool,
    groups: seq<string>,
    packages: seq<string>,
    state: CompsState,
    query: CompsQuery)

  /** The record as g_new0 leaves it: every field zero, so the state is the
      first enumerator (COMPS_STATE_CATEGORY), the query is a category query,
      and the NULL query string and NULL arrays are empty. */
  const Initial := Data("", false, [], [], StateCategory, QueryCategory)

  /** Element names that put a category walk into the ignore state. */
  const CategoryIgnoreTags: set<string> := {"name", "description", "display_order", "grouplist"}

  /** Element names that put a group walk into the ignore state. */
  const GroupIgnoreTags: set<string> := {"name", "default", "uservisible", "packagelist"}

  /** Closing one of these while matched leaves the field it opened. */
  const FieldCloseTags: set<string> := {"groupid", "packagereq", "description"}

  /** Closing one of these while matched ends the matched unit. */
  const ScopeCloseTags: set<string> := {"category", "group"}

  const CategoryStates: set<CompsState> := {StateCategory, StateCategoryId, StateCategoryGroupId}
  const GroupStates: set<CompsState> := {StateGroup, StateGroupId, StateGroupPkgReq, StateGroupDescription}

  /** A description is read only when its FIRST attribute value is the
      caller's first locale; with no attributes the comparison is against
      NULL and fails. No attribute name is consulted. */
  predicate DescriptionInLocale(attrValues: seq<string>, locale: string)
  {
    |attrValues| > 0 && attrValues[0] == locale
  }

  // ---------------------------------------------------------------------
  // The three callbacks
  // ---------------------------------------------------------------------

  /** pk_comps_start_element: only the state can move. */
  function OnStart(d: Data, locale: string, name: string, attrValues: seq<string>): (r: Data)
    ensures r == d.(state := r.state)
    // an id state is entered only by an `id` element met in the bare
    // category or group state, and always then
    ensures r.state == StateCategoryId && d.state != StateCategoryId ==>
              d.query == QueryCategory && name == "id" && d.state == StateCategory
    ensures r.state == StateGroupId && d.state != StateGroupId ==>
              d.query == QueryGroup && name == "id" && d.state == StateGroup
    ensures d.query == QueryCategory && name == "id" && d.state == StateCategory ==> r.state == StateCategoryId
    ensures d.query == QueryGroup && name == "id" && d.state == StateGroup ==> r.state == StateGroupId
    // the description rule of a group walk
    ensures d.query == QueryGroup && name == "description" ==>
              r.state == (if DescriptionInLocale(attrValues, locale) then StateGroupDescription else StateIgnore)
    // a category walk never enters a group state, nor a group walk a category state
    ensures d.query == QueryCategory && r.state != d.state ==> r.state !in GroupStates
    ensures d.query == QueryGroup && r.state != d.state ==> r.state !in CategoryStates
  {
    match d.query
    case QueryCategory =>
      if name == "category" then d.(state := StateCategory)
      else if name == "id" && d.state == StateCategory then d.(state := StateCategoryId)
      else if name == "groupid" then d.(state := StateCategoryGroupId)
      else if name in CategoryIgnoreTags then d.(state := StateIgnore)
      else d
    case QueryGroup =>
      if name == "group" then d.(state := StateGroup)
      else if name == "id" && d.state == StateGroup then d.(state := StateGroupId)
      else if name == "packagereq" then d.(state := StateGroupPkgReq)
      else if name == "description" then
        d.(state := if DescriptionInLocale(attrValues, locale) then StateGroupDescription else StateIgnore)
      else if name in GroupIgnoreTags then d.(state := StateIgnore)
      else d
  }

  /** pk_comps_element_text: may confirm the match, then may collect. */
  function OnText(d: Data, text: string): (r: Data)
    ensures r.state == d.state && r.currentQuery == d.currentQuery && r.query == d.query
    // the match is confirmed only by the whole text of an id element
    ensures r.queryMatch <==>
              d.queryMatch || ((d.state == StateCategoryId || d.state == StateGroupId) && text == d.currentQuery)
    // groups grow only by the text of a groupid seen while matched, and always then
    ensures r.groups == (if r.queryMatch && d.state == StateCategoryGroupId then d.groups + [text] else d.groups)
    // packages grow only by the text of a packagereq seen while matched, and always then
    ensures r.packages == (if r.queryMatch && d.state == StateGroupPkgReq then d.packages + [text] else d.packages)
  {
    var d1 := if (d.state == StateCategoryId || d.state == StateGroupId) && d.currentQuery == text
              then d.(queryMatch := true) else d;
    if d1.queryMatch && d1.state == StateCategoryGroupId then d1.(groups := d1.groups + [text])
    else if d1.queryMatch && d1.state == StateGroupPkgReq then d1.(packages := d1.packages + [text])
    else d1
  }

  /** pk_comps_end_element: acts only while matched. */
  function OnEnd(d: Data, name: string): (r: Data)
    ensures r.groups == d.groups && r.packages == d.packages
    ensures r.currentQuery == d.currentQuery && r.query == d.query
    ensures !d.queryMatch ==> r == d
    ensures d.queryMatch && name in FieldCloseTags ==> r.queryMatch && r.state == StateIgnore
    ensures d.queryMatch && name in ScopeCloseTags ==> !r.queryMatch && r.state == d.state
    ensures name !in FieldCloseTags && name !in ScopeCloseTags ==> r == d
  {
    if !d.queryMatch then d
    else if name in FieldCloseTags then d.(state := StateIgnore)
    else if name in ScopeCloseTags then d.(queryMatch := false)
    else d
  }

  /** The callback GMarkup invokes for one event: the query is left alone,
      and an output array grows only by the text of a text event. */
  function OnEvent(d: Data, locale: string, e: Event): (r: Data)
    ensures r.currentQuery == d.currentQuery && r.query == d.query
    ensures r.groups == d.groups || (e.Text? && r.groups == d.groups + [e.text])
    ensures r.packages == d.packages || (e.Text? && r.packages == d.packages + [e.text])
  {
    match e
    case Start(name, attrValues) => OnStart(d, locale, name, attrValues)
    case Text(text) => OnText(d, text)
    case End(name) => OnEnd(d, name)
  }

  /** The callbacks run over a sequence of events, in order, on one record. */
  function Feed(d: Data, locale: string, events: seq<Event>): (r: Data)
    ensures r.currentQuery == d.currentQuery && r.query == d.query
    // both output arrays are append-only
    ensures d.groups <= r.groups && d.packages <= r.packages
    decreases |events|
  {
    if events == [] then d
    else Feed(OnEvent(d, locale, events[0]), locale, events[1..])
  }

  lemma {:induction false} FeedAppend(d: Data, locale: string, a: seq<Event>, b: seq<Event>)
    ensures Feed(d, locale, a + b) == Feed(Feed(d, locale, a), locale, b)
    decreases |a|
  {
    if a == [] {
      assert a + b == b;
    } else {
      assert (a + b)[0] == a[0];
      assert (a + b)[1..] == a[1..] + b;
      FeedAppend(OnEvent(d, locale, a[0]), locale, a[1..], b);
    }
  }

  lemma FeedCons(d: Data, locale: string, e: Event, rest: seq<Event>)
    ensures Feed(d, locale, [e] + rest) == Feed(OnEvent(d, locale, e), locale, rest)
  {
    assert ([e] + rest)[0] == e;
    assert ([e] + rest)[1..] == rest;
  }

  /** Everything collected is the text of some text event of the walk. */
  lemma {:induction false} FeedCollectsOnlyTexts(d: Data, locale: string, events: seq<Event>)
    ensures forall k :: |d.groups| <= k < |Feed(d, locale, events).groups| ==>
              Text(Feed(d, locale, events).groups[k]) in events
    ensures forall k :: |d.packages| <= k < |Feed(d, locale, events).packages| ==>
              Text(Feed(d, locale, events).packages[k]) in events
    decreases |events|
  {
    if events != [] {
      var d1 := OnEvent(d, locale, events[0]);
      var r := Feed(d, locale, events);
      assert r == Feed(d1, locale, events[1..]);
      FeedCollectsOnlyTexts(d1, locale, events[1..]);
      forall k | |d.groups| <= k < |r.groups| ensures Text(r.groups[k]) in events {
        if k < |d1.groups| {
          assert d1.groups == d.groups + [events[0].text];
        } else {
          assert Text(r.groups[k]) in events[1..];
        }
      }
      forall k | |d.packages| <= k < |r.packages| ensures Text(r.packages[k]) in events {
        if k < |d1.packages| {
          assert d1.packages == d.packages + [events[0].text];
        } else {
          assert Text(r.packages[k]) in events[1..];
        }
      }
    }
  }

  /** A walk over events that never carry the query text, starting
      unmatched, stays unmatched and collects nothing. */
  lemma {:induction false} FeedAbsentQuery(d: Data, locale: string, events: seq<Event>)
    requires !d.queryMatch
    requires Text(d.currentQuery) !in events
    ensures !Feed(d, locale, events).queryMatch
    ensures Feed(d, locale, events).groups == d.groups
    ensures Feed(d, locale, events).packages == d.packages
    decreases |events|
  {
    if events != [] {
      var d1 := OnEvent(d, locale, events[0]);
      assert events[0] != Text(d.currentQuery);
      assert Text(d1.currentQuery) !in events[1..];
      FeedAbsentQuery(d1, locale, events[1..]);
    }
  }

  /** A group walk that does not start in the groupid state never adds to
      `groups`; a category walk that does not start in the packagereq state
      never adds to `packages`. */
  lemma {:induction false} FeedKeepsOtherOutput(d: Data, locale: string, events: seq<Event>)
    ensures d.query == QueryGroup && d.state != StateCategoryGroupId ==>
              Feed(d, locale, events).groups == d.groups
    ensures d.query == QueryCategory && d.state != StateGroupPkgReq ==>
              Feed(d, locale, events).packages == d.packages
    decreases |events|
  {
    if events != [] {
      FeedKeepsOtherOutput(OnEvent(d, locale, events[0]), locale, events[1..]);
    }
  }

  // ---------------------------------------------------------------------
  // The driver, pk_backend_comps_parser
  // ---------------------------------------------------------------------

  /** What the driver leaves behind: the record and its return value. */
  datatype ParseOutcome = ParseOutcome(data: Data, ok: bool)

  /** The loop over the catalog files, on the record as it stands: one
      parse context for all files, so the state runs on from one file into
      the next; the first file that cannot be read or parsed ends the loop. */
  function ParseFrom(d: Data, locale: string, files: seq<CompsFile>): (r: ParseOutcome)
    ensures r.ok <==> forall i :: 0 <= i < |files| ==> Succeeds(files[i])
    ensures r.data.currentQuery == d.currentQuery && r.data.query == d.query
    ensures d.groups <= r.data.groups && d.packages <= r.data.packages
    decreases |files|
  {
    if files == [] then ParseOutcome(d, true)
    else
      match files[0]
      case Unreadable => ParseOutcome(d, false)
      case Loaded(events, parsed) =>
        if !parsed then ParseOutcome(Feed(d, locale, events), false)
        else ParseFrom(Feed(d, locale, events), locale, files[1..])
  }

  /** pk_backend_comps_parser: the state is reset to IGNORE once, the match
      flag is left as it was, and the files are walked in order. */
  function Parse(d: Data, locale: string, files: seq<CompsFile>): (r: ParseOutcome)
    ensures r.ok <==> forall i :: 0 <= i < |files| ==> Succeeds(files[i])
    ensures r.data.currentQuery == d.currentQuery && r.data.query == d.query
    ensures d.groups <= r.data.groups && d.packages <= r.data.packages
    ensures files == [] ==> r == ParseOutcome(d.(state := StateIgnore), true)
  {
    ParseFrom(d.(state := StateIgnore), locale, files)
  }

  lemma {:induction false} ParseFromStopsAtFailure(d: Data, locale: string, files: seq<CompsFile>, k: nat)
    requires k < |files| && !Succeeds(files[k])
    ensures ParseFrom(d, locale, files) == ParseFrom(d, locale, files[..k + 1])
    decreases k
  {
    if k > 0 && Succeeds(files[0]) {
      assert files[..k + 1][0] == files[0];
      assert files[..k + 1][1..] == files[1..][..k];
      ParseFromStopsAtFailure(Feed(d, locale, files[0].events), locale, files[1..], k - 1);
    } else {
      assert files[..k + 1][0] == files[0];
    }
  }

  /** The driver reads no file after the first one it cannot read or parse,
      and then reports failure. */
  lemma ParseStopsAtFailure(d: Data, locale: string, files: seq<CompsFile>, k: nat)
    requires k < |files| && !Succeeds(files[k])
    ensures Parse(d, locale, files) == Parse(d, locale, files[..k + 1])
    ensures !Parse(d, locale, files).ok
  {
    ParseFromStopsAtFailure(d.(state := StateIgnore), locale, files, k);
  }

  /** All events of a list of files, in file order. */
  function AllEvents(files: seq<CompsFile>): (r: seq<Event>)
    requires forall i :: 0 <= i < |files| ==> files[i].Loaded?
    decreases |files|
  {
    if files == [] then [] else files[0].events + AllEvents(files[1..])
  }

  lemma {:induction false} ParseFromSharesState(d: Data, locale: string, files: seq<CompsFile>)
    requires forall i :: 0 <= i < |files| ==> Succeeds(files[i])
    ensures ParseFrom(d, locale, files) == ParseOutcome(Feed(d, locale, AllEvents(files)), true)
    decreases |files|
  {
    if files != [] {
      ParseFromSharesState(Feed(d, locale, files[0].events), locale, files[1..]);
      FeedAppend(d, locale, files[0].events, AllEvents(files[1..]));
    }
  }

  /** When every file is read and parsed, the driver is one walk over all
      their events on one record: neither the state nor the match flag is
      reset between files. */
  lemma ParseSharesState(d: Data, locale: string, files: seq<CompsFile>)
    requires forall i :: 0 <= i < |files| ==> Succeeds(files[i])
    ensures Parse(d, locale, files) == ParseOutcome(Feed(d.(state := StateIgnore), locale, AllEvents(files)), true)
  {
    ParseFromSharesState(d.(state := StateIgnore), locale, files);
  }

  /** No walk started unmatched collects anything from files none of whose
      events carry the query text. */
  lemma {:induction false} ParseFromAbsentQuery(d: Data, locale: string, files: seq<CompsFile>)
    requires !d.queryMatch
    requires forall i :: 0 <= i < |files| && files[i].Loaded? ==> Text(d.currentQuery) !in files[i].events
    ensures !ParseFrom(d, locale, files).data.queryMatch
    ensures ParseFrom(d, locale, files).data.groups == d.groups
    ensures ParseFrom(d, locale, files).data.packages == d.packages
    decreases |files|
  {
    if files != [] && files[0].Loaded? {
      FeedAbsentQuery(d, locale, files[0].events);
      if files[0].parsed {
        ParseFromAbsentQuery(Feed(d, locale, files[0].events), locale, files[1..]);
      }
    }
  }

  /** The text of a text event of one of the files that could be read. */
  predicate InFiles(t: string, files: seq<CompsFile>)
  {
    exists i :: 0 <= i < |files| && files[i].Loaded? && Text(t) in files[i].events
  }

  /** Everything the driver collects is the text of a text event of a file
      it read. */
  lemma {:induction false} ParseFromCollectsOnlyTexts(d: Data, locale: string, files: seq<CompsFile>)
    ensures var r := ParseFrom(d, locale, files).data;
            forall k :: |d.packages| <= k < |r.packages| ==> InFiles(r.packages[k], files)
    ensures var r := ParseFrom(d, locale, files).data;
            forall k :: |d.groups| <= k < |r.groups| ==> InFiles(r.groups[k], files)
    decreases |files|
  {
    if files != [] && files[0].Loaded? {
      var d1 := Feed(d, locale, files[0].events);
      var r := ParseFrom(d, locale, files).data;
      FeedCollectsOnlyTexts(d, locale, files[0].events);
      if files[0].parsed {
        ParseFromCollectsOnlyTexts(d1, locale, files[1..]);
        forall k | |d.packages| <= k < |r.packages| ensures InFiles(r.packages[k], files) {
          if k < |d1.packages| {
            assert r.packages[k] == d1.packages[k] && files[0].Loaded?;
          } else {
            assert r == ParseFrom(d1, locale, files[1..]).data;
            var i :| 0 <= i < |files[1..]| && files[1..][i].Loaded? && Text(r.packages[k]) in files[1..][i].events;
            assert files[1..][i] == files[i + 1];
          }
        }
        forall k | |d.groups| <= k < |r.groups| ensures InFiles(r.groups[k], files) {
          if k < |d1.groups| {
            assert r.groups[k] == d1.groups[k] && files[0].Loaded?;
          } else {
            assert r == ParseFrom(d1, locale, files[1..]).data;
            var i :| 0 <= i < |files[1..]| && files[1..][i].Loaded? && Text(r.groups[k]) in files[1..][i].events;
            assert files[1..][i] == files[i + 1];
          }
        }
      }
    }
  }

  lemma ParseKeepsOtherOutput(d: Data, locale: string, files: seq<CompsFile>)
    ensures d.query == QueryGroup ==> Parse(d, locale, files).data.groups == d.groups
    ensures d.query == QueryCategory ==> Parse(d, locale, files).data.packages == d.packages
  {
    ParseFromKeepsOtherOutput(d.(state := StateIgnore), locale, files);
  }

  lemma {:induction false} ParseFromKeepsOtherOutput(d: Data, locale: string, files: seq<CompsFile>)
    ensures d.query == QueryGroup && d.state !in CategoryStates ==>
              ParseFrom(d, locale, files).data.groups == d.groups
    ensures d.query == QueryCategory && d.state !in GroupStates ==>
              ParseFrom(d, locale, files).data.packages == d.packages
    decreases |files|
  {
    if files != [] && files[0].Loaded? {
      FeedKeepsOtherOutput(d, locale, files[0].events);
      FeedModeStates(d, locale, files[0].events);
      if files[0].parsed {
        ParseFromKeepsOtherOutput(Feed(d, locale, files[0].events), locale, files[1..]);
      }
    }
  }

  /** A walk never enters a state of the other query kind. */
  lemma {:induction false} FeedModeStates(d: Data, locale: string, events: seq<Event>)
    ensures d.query == QueryGroup && d.state !in CategoryStates ==>
              Feed(d, locale, events).state !in CategoryStates
    ensures d.query == QueryCategory && d.state !in GroupStates ==>
              Feed(d, locale, events).state !in GroupStates
    decreases |events|
  {
    if events != [] {
      FeedModeStates(OnEvent(d, locale, events[0]), locale, events[1..]);
    }
  }

  // ---------------------------------------------------------------------
  // The lookups
  // ---------------------------------------------------------------------

  /** The loop of pk_backend_get_packages_from_group: one driver call per
      requested id, in order, on the same record; a false return is only
      logged, so the loop goes on. */
  function PackagesLoop(d: Data, locale: string, files: seq<CompsFile>, ids: seq<string>): (r: Data)
    ensures r.query == d.query
    ensures d.packages <= r.packages
    ensures ids == [] ==> r == d
    ensures ids != [] ==> r.currentQuery == ids[|ids| - 1]
    decreases |ids|
  {
    if ids == [] then d
    else PackagesLoop(Parse(d.(currentQuery := ids[0]), locale, files).data, locale, files, ids[1..])
  }

  /** pk_backend_get_packages_from_group: a group walk into a fresh package
      array; the result is that array. */
  function GetPackagesFromGroup(d: Data, locale: string, files: seq<CompsFile>, ids: seq<string>): (r: Data)
    ensures r.query == QueryGroup
    ensures ids == [] ==> r.packages == []
  {
    PackagesLoop(d.(query := QueryGroup, packages := []), locale, files, ids)
  }

  /** pk_backend_get_groups_from_category: one category walk into a fresh
      group array. The source ends with `if (!parse (...));`: the stray
      semicolon makes the following `return comps_data->groups;` run on
      every path, so the collected groups are returned whether or not the
      walk succeeded, and the NULL-terminated copy below it is never
      reached. That return hands back the GPtrArray itself where a string
      vector is declared; this model returns what was evidently meant, the
      collected group ids. */
  function GetGroupsFromCategory(d: Data, locale: string, files: seq<CompsFile>, category: string): (r: Data)
    ensures r.query == QueryCategory && r.currentQuery == category
    ensures r.packages == d.packages
  {
    var d0 := d.(query := QueryCategory, currentQuery := category, groups := []);
    ParseKeepsOtherOutput(d0, locale, files);
    Parse(d0, locale, files).data
  }

  lemma {:induction false} PackagesLoopAppend(d: Data, locale: string, files: seq<CompsFile>, a: seq<string>, b: seq<string>)
    ensures PackagesLoop(d, locale, files, a + b) ==
            PackagesLoop(PackagesLoop(d, locale, files, a), locale, files, b)
    decreases |a|
  {
    if a == [] {
      assert a + b == b;
    } else {
      assert (a + b)[0] == a[0];
      assert (a + b)[1..] == a[1..] + b;
      PackagesLoopAppend(Parse(d.(currentQuery := a[0]), locale, files).data, locale, files, a[1..], b);
    }
  }

  lemma {:induction false} PackagesLoopKeepsGroups(d: Data, locale: string, files: seq<CompsFile>, ids: seq<string>)
    requires d.query == QueryGroup
    ensures PackagesLoop(d, locale, files, ids).groups == d.groups
    decreases |ids|
  {
    if ids != [] {
      ParseKeepsOtherOutput(d.(currentQuery := ids[0]), locale, files);
      PackagesLoopKeepsGroups(Parse(d.(currentQuery := ids[0]), locale, files).data, locale, files, ids[1..]);
    }
  }

  /** Every package the loop collects is the text of a text event of a
      file the driver read. */
  lemma {:induction false} PackagesLoopCollectsOnlyTexts(d: Data, locale: string, files: seq<CompsFile>, ids: seq<string>)
    ensures var r := PackagesLoop(d, locale, files, ids);
            forall k :: |d.packages| <= k < |r.packages| ==> InFiles(r.packages[k], files)
    decreases |ids|
  {
    if ids != [] {
      var d0 := d.(currentQuery := ids[0]);
      var d1 := Parse(d0, locale, files).data;
      ParseFromCollectsOnlyTexts(d0.(state := StateIgnore), locale, files);
      PackagesLoopCollectsOnlyTexts(d1, locale, files, ids[1..]);
      assert d1 == ParseFrom(d0.(state := StateIgnore), locale, files).data;
      var r := PackagesLoop(d, locale, files, ids);
      assert r == PackagesLoop(d1, locale, files, ids[1..]);
      forall k | |d.packages| <= k < |r.packages| ensures InFiles(r.packages[k], files) {
        if k < |d1.packages| {
          assert r.packages[k] == d1.packages[k];
        }
      }
    }
  }

  /** The two lookups write separate arrays: a package lookup never changes
      the collected groups, a category lookup never the packages. */
  lemma LookupsKeepEachOther(d: Data, locale: string, files: seq<CompsFile>, ids: seq<string>, category: string)
    ensures GetPackagesFromGroup(d, locale, files, ids).groups == d.groups
    ensures GetGroupsFromCategory(d, locale, files, category).packages == d.packages
  {
    PackagesLoopKeepsGroups(d.(query := QueryGroup, packages := []), locale, files, ids);
  }

  /** A requested id that no file mentions adds no package, and the ids
      after it are still looked up: the package lookup for
      `before + [id] + after` gives what the lookup for `before + after`
      gives. */
  lemma LookupSkipsAbsentId(d: Data, locale: string, files: seq<CompsFile>,
                            before: seq<string>, id: string, after: seq<string>)
    requires !PackagesLoop(d.(query := QueryGroup, packages := []), locale, files, before).queryMatch
    requires forall i :: 0 <= i < |files| && files[i].Loaded? ==> Text(id) !in files[i].events
    ensures GetPackagesFromGroup(d, locale, files, before + [id] + after).packages ==
            GetPackagesFromGroup(d, locale, files, before + after).packages
  {
    var d0 := d.(query := QueryGroup, packages := []);
    var m := PackagesLoop(d0, locale, files, before);
    PackagesLoopAppend(d0, locale, files, before + [id], after);
    PackagesLoopAppend(d0, locale, files, before, [id]);
    PackagesLoopAppend(d0, locale, files, before, after);
    var m1 := m.(currentQuery := id);
    ParseFromAbsentQuery(m1.(state := StateIgnore), locale, files);
    var m2 := Parse(m1, locale, files).data;
    assert PackagesLoop(m, locale, files, [id]) == PackagesLoop(m2, locale, files, []);
    if after == [] {
    } else {
      // The next driver call overwrites the query and resets the state, so
      // what the absent id left behind is the record it started from.
      assert m2.(currentQuery := after[0], state := StateIgnore) == m.(currentQuery := after[0], state := StateIgnore);
      assert Parse(m2.(currentQuery := after[0]), locale, files) == Parse(m.(currentQuery := after[0]), locale, files);
    }
  }

  // ---------------------------------------------------------------------
  // The alias table, pk_backend_group_mapping
  // ---------------------------------------------------------------------

  /** What a PackageKit group name stands for: comps group ids to look up
      directly, or one comps category whose groups are to be looked up. */
  datatype Mapping = Groups(ids: seq<string>) | FromCategory(category: string)

  /** The ten names the backend knows, as a table. */
  const AliasTable: map<string, Mapping> := map[
    "internet" := Groups(["graphical-internet", "text-internet"]),
    "legacy" := Groups(["legacy-software-support"]),
    "publishing" := Groups(["authoring-and-publishing"]),
    "desktop-kde" := FromCategory("kde-desktop-environment"),
    "desktop-gnome" := FromCategory("gnome-desktop-environment"),
    "desktop-xfce" := FromCategory("xfce-desktop-environment"),
    "desktop-other" := FromCategory("lxde-desktop-environment"),
    "programming" := FromCategory("development"),
    "servers" := FromCategory("servers"),
    "system" := FromCategory("base-system")
  ]

  /** The if-chain of pk_backend_group_mapping, by exact (case-sensitive)
      string comparison; any other name is taken as a comps group id. */
  function Alias(name: string): (r: Mapping)
    ensures name in AliasTable ==> r == AliasTable[name]
    ensures name !in AliasTable ==> r == Groups([name])
    ensures r.Groups? ==> |r.ids| > 0
  {
    if name == "internet" then Groups(["graphical-internet", "text-internet"])
    else if name == "legacy" then Groups(["legacy-software-support"])
    else if name == "publishing" then Groups(["authoring-and-publishing"])
    else if name == "desktop-kde" then FromCategory("kde-desktop-environment")
    else if name == "desktop-gnome" then FromCategory("gnome-desktop-environment")
    else if name == "desktop-xfce" then FromCategory("xfce-desktop-environment")
    else if name == "desktop-other" then FromCategory("lxde-desktop-environment")
    else if name == "programming" then FromCategory("development")
    else if name == "servers" then FromCategory("servers")
    else if name == "system" then FromCategory("base-system")
    else Groups([name])
  }

  /** What the mapping leaves behind: the record and the group ids. */
  datatype MappingOutcome = MappingOutcome(data: Data, groups: seq<string>)

  /** pk_backend_group_mapping: the direct ids, or the groups of the
      category copied into a fresh array. */
  function GroupMapping(d: Data, locale: string, files: seq<CompsFile>, name: string): (r: MappingOutcome)
    // a direct alias or an unknown name does not touch the record
    ensures Alias(name).Groups? ==> r == MappingOutcome(d, Alias(name).ids)
    // a category alias yields exactly what its category walk collected
    ensures Alias(name).FromCategory? ==>
              r.groups == r.data.groups && r.data.packages == d.packages &&
              r.data.query == QueryCategory && r.data.currentQuery == Alias(name).category
  {
    match Alias(name)
    case Groups(ids) => MappingOutcome(d, ids)
    case FromCategory(category) =>
      var d1 := GetGroupsFromCategory(d, locale, files, category);
      MappingOutcome(d1, d1.groups)
  }

  /** Line 410 of pk_backend_search_groups: the requested name is mapped on
      a zeroed record, and the ids it maps to are looked up as groups. */
  function ResolveGroup(name: string, locale: string, files: seq<CompsFile>): (r: seq<string>)
    // every package comes from a catalog; with no catalog there is none
    ensures forall k :: 0 <= k < |r| ==> InFiles(r[k], files)
    ensures files == [] ==> r == []
  {
    var m := GroupMapping(Initial, locale, files, name);
    var d0 := m.data.(query := QueryGroup, packages := []);
    PackagesLoopCollectsOnlyTexts(d0, locale, files, m.groups);
    assert GetPackagesFromGroup(m.data, locale, files, m.groups) == PackagesLoop(d0, locale, files, m.groups);
    GetPackagesFromGroup(m.data, locale, files, m.groups).packages
  }

  /** Names outside the table, including the known ones spelt with other
      letter cases, are looked up as the one group id they spell. */
  lemma MappingFallback(d: Data, locale: string, files: seq<CompsFile>, name: string)
    requires name !in AliasTable
    ensures GroupMapping(d, locale, files, name) == MappingOutcome(d, [name])
    ensures GroupMapping(d, locale, files, "Internet") == MappingOutcome(d, ["Internet"])
  {
  }

  /** The three direct aliases need no catalog walk and give fixed ids in a
      fixed order. */
  lemma MappingDirect(d: Data, locale: string, files: seq<CompsFile>)
    ensures GroupMapping(d, locale, files, "internet") ==
            MappingOutcome(d, ["graphical-internet", "text-internet"])
    ensures GroupMapping(d, locale, files, "legacy") == MappingOutcome(d, ["legacy-software-support"])
    ensures GroupMapping(d, locale, files, "publishing") == MappingOutcome(d, ["authoring-and-publishing"])
  {
  }
}
