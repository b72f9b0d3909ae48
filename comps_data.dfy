/**
 * PkCompsData and the functions of the hif backend that update it in place:
 * the three markup callbacks, the driver, the two lookups and the group
 * mapping. Every method is specified by the function of comps_machine.dfy
 * that describes the same step, so what is proved there about the
 * functions holds for these methods.
 */
module CompsBackend {
  import opened Markup
  import opened CompsMachine

  datatype Option<T> = None | Some(value: T)

  /** PkCompsData. `comps` lists the catalog files, given here as what
      reading and parsing each of them yields; a NULL query string is
      modelled as "" (every driver call is preceded by setting the query). */
  class CompsData {
    var currentQuery: string
    var queryMatch: bool
    var groups: seq<string>
    var packages: seq<string>
    var comps: seq<CompsFile>
    var categoryState: CompsState
    var query: CompsQuery

    /** The fields the callbacks work on, as one value. */
    function Snapshot(): Data
      reads this
    {
      Data(currentQuery, queryMatch, groups, packages, categoryState, query)
    }

    /** g_new0 (PkCompsData, 1) followed by filling in the catalog list. */
    constructor (comps: seq<CompsFile>)
      ensures Snapshot() == Initial
      ensures this.comps == comps
    {
      currentQuery := "";
      queryMatch := false;
      groups := [];
      packages := [];
      this.comps := comps;
      categoryState := StateCategory;
      query := QueryCategory;
    }

    /** pk_comps_start_element; `locale` is the first of the caller's
        language names. An absent first attribute compares unequal. */
    method StartElement(locale: string, elementName: string, attributeValues: seq<string>)
      modifies this
      ensures Snapshot() == OnStart(old(Snapshot()), locale, elementName, attributeValues)
      ensures comps == old(comps)
    {
      if query == QueryCategory {
        if elementName == "category" {
          categoryState := StateCategory;
        }
        if elementName == "id" && categoryState == StateCategory {
          categoryState := StateCategoryId;
        }
        if elementName == "groupid" {
          categoryState := StateCategoryGroupId;
        }
        if elementName == "name" {
          categoryState := StateIgnore;
        }
        if elementName == "description" {
          categoryState := StateIgnore;
        }
        if elementName == "display_order" {
          categoryState := StateIgnore;
        }
        if elementName == "grouplist" {
          categoryState := StateIgnore;
        }
      }
      if query == QueryGroup {
        if elementName == "group" {
          categoryState := StateGroup;
        }
        if elementName == "id" && categoryState == StateGroup {
          categoryState := StateGroupId;
        }
        if elementName == "packagereq" {
          categoryState := StateGroupPkgReq;
        }
        if elementName == "name" {
          categoryState := StateIgnore;
        }
        if elementName == "description" {
          if |attributeValues| > 0 && attributeValues[0] == locale {
            categoryState := StateGroupDescription;
          } else {
            categoryState := StateIgnore;
          }
        }
        if elementName == "default" {
          categoryState := StateIgnore;
        }
        if elementName == "uservisible" {
          categoryState := StateIgnore;
        }
        if elementName == "packagelist" {
          categoryState := StateIgnore;
        }
      }
    }

    /** pk_comps_element_text */
    method ElementText(text: string)
      modifies this
      ensures Snapshot() == OnText(old(Snapshot()), text)
      ensures comps == old(comps)
    {
      if categoryState == StateCategoryId && currentQuery == text {
        queryMatch := true;
      }
      if categoryState == StateGroupId && currentQuery == text {
        queryMatch := true;
      }
      if queryMatch {
        if categoryState == StateCategoryGroupId {
          groups := groups + [text];
        }
        // a description in the caller's language is only logged
        if categoryState == StateGroupPkgReq {
          packages := packages + [text];
        }
      }
    }

    /** pk_comps_end_element */
    method EndElement(elementName: string)
      modifies this
      ensures Snapshot() == OnEnd(old(Snapshot()), elementName)
      ensures comps == old(comps)
    {
      if queryMatch {
        if elementName == "groupid" {
          categoryState := StateIgnore;
        }
        if elementName == "packagereq" {
          categoryState := StateIgnore;
        }
        if elementName == "description" {
          categoryState := StateIgnore;
        }
        if elementName == "category" {
          queryMatch := false;
        }
        if elementName == "group" {
          queryMatch := false;
        }
      }
    }

    /** GMarkup invoking the callbacks (the comps_parser table) for the
        events of one file, in order. */
    method DeliverEvents(locale: string, events: seq<Event>)
      modifies this
      ensures Snapshot() == Feed(old(Snapshot()), locale, events)
      ensures comps == old(comps)
    {
      var i := 0;
      while i < |events|
        invariant 0 <= i <= |events|
        invariant comps == old(comps)
        invariant Feed(Snapshot(), locale, events[i..]) == Feed(old(Snapshot()), locale, events)
      {
        ghost var before := Snapshot();
        match events[i] {
          case Start(name, attrValues) => StartElement(locale, name, attrValues);
          case Text(text) => ElementText(text);
          case End(name) => EndElement(name);
        }
        assert Snapshot() == OnEvent(before, locale, events[i]);
        assert events[i..] == [events[i]] + events[i + 1..];
        FeedCons(before, locale, events[i], events[i + 1..]);
        i := i + 1;
      }
    }

    /** pk_backend_comps_parser: reset the state, then read and parse the
        catalog files in order with one parse context, giving up at the
        first file that cannot be read or parsed. */
    method Parser(locale: string) returns (ok: bool)
      modifies this
      ensures Snapshot() == Parse(old(Snapshot()), locale, comps).data
      ensures ok == Parse(old(Snapshot()), locale, comps).ok
      ensures comps == old(comps)
    {
      categoryState := StateIgnore;
      var i := 0;
      while i < |comps|
        invariant 0 <= i <= |comps|
        invariant comps == old(comps)
        invariant ParseFrom(Snapshot(), locale, comps[i..]) == Parse(old(Snapshot()), locale, comps)
      {
        assert comps[i..][0] == comps[i] && comps[i..][1..] == comps[i + 1..];
        match comps[i] {
          case Unreadable =>
            return false;
          case Loaded(events, parsed) =>
            DeliverEvents(locale, events);
            if !parsed {
              return false;
            }
        }
        i := i + 1;
      }
      return true;
    }

    /** pk_backend_get_packages_from_group: a group walk per requested id
        into a fresh package array; a failing walk is only logged. */
    method GetPackagesFromGroup(locale: string, groupIds: seq<string>) returns (result: seq<string>)
      modifies this
      ensures Snapshot() == CompsMachine.GetPackagesFromGroup(old(Snapshot()), locale, comps, groupIds)
      ensures result == packages
      ensures comps == old(comps)
    {
      query := QueryGroup;
      packages := [];
      var i := 0;
      while i < |groupIds|
        invariant 0 <= i <= |groupIds|
        invariant comps == old(comps)
        invariant PackagesLoop(Snapshot(), locale, comps, groupIds[i..]) ==
                  CompsMachine.GetPackagesFromGroup(old(Snapshot()), locale, comps, groupIds)
      {
        assert groupIds[i..][0] == groupIds[i] && groupIds[i..][1..] == groupIds[i + 1..];
        currentQuery := groupIds[i];
        var ok := Parser(locale);
        i := i + 1;
      }
      result := packages;
    }

    /** pk_backend_get_groups_from_category: one category walk into a fresh
        group array, whose contents are returned whether or not the walk
        succeeded. */
    method GetGroupsFromCategory(locale: string, category: string) returns (result: seq<string>)
      modifies this
      ensures Snapshot() == CompsMachine.GetGroupsFromCategory(old(Snapshot()), locale, comps, category)
      ensures result == groups
      ensures comps == old(comps)
    {
      query := QueryCategory;
      currentQuery := category;
      groups := [];
      var ok := Parser(locale);
      result := groups;
    }

    /** pk_backend_group_mapping: the alias table, then (for a category
        alias) a copy of the category's groups into the result array. */
    method GroupMapping(locale: string, mappgroup: string) returns (result: seq<string>)
      modifies this
      ensures Snapshot() == CompsMachine.GroupMapping(old(Snapshot()), locale, comps, mappgroup).data
      ensures result == CompsMachine.GroupMapping(old(Snapshot()), locale, comps, mappgroup).groups
      ensures comps == old(comps)
    {
      var categoryGroups: Option<seq<string>> := None;
      result := [];
      match Alias(mappgroup) {
        case Groups(ids) =>
          result := ids;
        case FromCategory(category) =>
          var found := GetGroupsFromCategory(locale, category);
          categoryGroups := Some(found);
      }
      if categoryGroups.Some? {
        var source := categoryGroups.value;
        var i := 0;
        while i < |source|
          invariant 0 <= i <= |source|
          invariant result == source[..i]
        {
          result := result + [source[i]];
          i := i + 1;
        }
        assert source[..|source|] == source;
      }
    }
  }

  /** The comps part of pk_backend_search_groups up to line 410: nothing is
      searched without a value; otherwise the first value is mapped and its
      groups' packages are collected on a zeroed PkCompsData. */
  method SearchGroupPackages(values: seq<string>, comps: seq<CompsFile>, locale: string)
    returns (packages: Option<seq<string>>)
    ensures values == [] <==> packages == None
    ensures values != [] ==> packages == Some(ResolveGroup(values[0], locale, comps))
  {
    if |values| == 0 {
      return None;
    }
    var data := new CompsData(comps);
    var ids := data.GroupMapping(locale, values[0]);
    var found := data.GetPackagesFromGroup(locale, ids);
    packages := Some(found);
  }
}
