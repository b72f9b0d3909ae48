# Comps group resolution of the PackageKit hif backend

PackageKit's hif backend answers "search by group" requests by reading the
repositories' comps catalogs: XML files that list package *groups* (an id, a
name, and a `packagelist` of `packagereq` entries) and *categories* (an id, a
name, and a `grouplist` of `groupid` entries). A PackageKit group name such as
`desktop-gnome` is first mapped onto comps group ids (directly, or through one
comps category whose `groupid`s are collected), and then the `packagereq`
names of those groups are collected, catalog file by catalog file.

The backend does this with three GMarkup callbacks driving a small state
machine over one mutable record, `PkCompsData`, a driver that feeds every
catalog file through them, two lookups built on the driver, and an if-chain
of alias names. This project models all of it and proves what it does.

- `markup.dfy` (module `Markup`): the callback events a catalog file produces
  (`Start`, `Text`, `End`) and a catalog file as the driver meets it
  (unreadable, or loaded with its events and whether it parsed).
- `comps_machine.dfy` (module `CompsMachine`): the callbacks, the driver, the
  lookups and the alias table as pure functions on a value `Data` holding the
  fields of `PkCompsData`, with the lemmas about them.
- `comps_data.dfy` (module `CompsBackend`): the class `CompsData` with the
  fields of `PkCompsData`; its methods do what the C functions do, step by
  step and in place, and each one's postcondition says that the new state
  (and result) is what the function of `CompsMachine` for that step gives.
  `SearchGroupPackages` is the comps part of `pk_backend_search_groups`.
- `catalog.dfy` (module `Catalog`): catalogs as structured values (groups and
  categories with their ids, names, other child elements and lists, and any
  other top-level elements such as environments and langpacks, given as
  their events, which open no group or category), the events such a catalog
  produces, and the theorems that on such catalogs a
  group lookup collects exactly the `packagereq` names of the groups whose id
  is asked for, a category lookup exactly the `groupid`s of the matching
  categories, in request order, then file order, then document order, with
  repetitions. `ResolveGroupCatalogs` states the whole resolution of a
  PackageKit group name end to end. Every text between elements (line
  breaks and indentation) is a value of its own and may be anything, except
  that the text right after a unit's `</id>` must differ from the id looked
  for: the callbacks read that text while the id state is still current, so
  a catalog where it equals the query does match (see "Left out").

Where the behaviour one would expect and the code differ, the model follows
the code:

- The driver gives up at the first catalog file that cannot be read or
  parsed: later files are not read, and the events GMarkup delivered from a
  malformed file before its error have already been acted on. It does not
  skip a bad file and go on with the rest.
- The driver resets the state to IGNORE once per call but never resets the
  match flag, and one parse context is used for all files, so a match left
  open (by a file that ends inside a matching group, or by the previous
  driver call) carries on into what follows (`MatchCarriesOver`).
- `pk_backend_get_groups_from_category` ends in `if (!parse (...));` with a
  stray semicolon, so it returns the collected groups on every path.
- Results are sequences with duplicates kept, in the order collected.
- Name comparisons are exact: `Internet` is not the alias `internet` and is
  looked up as a group id of its own.

## Model

| member | source | states |
|---|---|---|
| `CompsMachine.OnStart` | backends/hif/pk-backend-hif-comps.c:107-159 | only the state moves; an id state is entered exactly by an `id` element met in the bare category or group state of the matching walk; in a group walk `description` selects the description state exactly when its first attribute value is the first locale, else ignore; a category walk never enters a group state and vice versa |
| `CompsMachine.OnText` | backends/hif/pk-backend-hif-comps.c:161-191 | state, query and mode unchanged; the match flag becomes set exactly when it was set or the text equals the query in an id state; groups grow by the text exactly when matched in the groupid state, packages exactly when matched in the packagereq state |
| `CompsMachine.OnEnd` | backends/hif/pk-backend-hif-comps.c:193-213 | outputs never change; nothing happens unmatched; closing groupid, packagereq or description while matched returns to ignore; closing category or group while matched ends the match; other names change nothing |
| `CompsMachine.OnEvent` | backends/hif/pk-backend-hif-comps.c:215-221 | the callback table dispatches one event: the query and mode are kept, and each output array is either unchanged or grows by exactly the text of a text event |
| `CompsMachine.Feed` | backends/hif/pk-backend-hif-comps.c:215-221 | running the callbacks over events keeps the query and mode, and only appends to the two output arrays |
| `CompsMachine.FeedAppend` | backends/hif/pk-backend-hif-comps.c:237-249 | one parse context over consecutive inputs is the walk over the first continued by the walk over the second |
| `CompsMachine.FeedCollectsOnlyTexts` | backends/hif/pk-backend-hif-comps.c:178-189 | every name appended to either output is the text of some text event of the walk |
| `CompsMachine.FeedAbsentQuery` | backends/hif/pk-backend-hif-comps.c:170-177 | a walk started unmatched over events that never carry the query text stays unmatched and collects nothing |
| `CompsMachine.FeedKeepsOtherOutput` | backends/hif/pk-backend-hif-comps.c:178-190 | a group walk not started in the groupid state never adds groups; a category walk not started in the packagereq state never adds packages |
| `CompsMachine.FeedModeStates` | backends/hif/pk-backend-hif-comps.c:119-157 | a walk started outside the other kind's states never enters them |
| `CompsMachine.ParseFrom` | backends/hif/pk-backend-hif-comps.c:239-251 | the file loop succeeds exactly when every file is readable and parses; query and mode kept; outputs only grow |
| `CompsMachine.Parse` | backends/hif/pk-backend-hif-comps.c:226-252 | the driver resets the state to IGNORE, succeeds exactly when every file reads and parses, and with no files changes nothing else |
| `CompsMachine.ParseFromStopsAtFailure` | backends/hif/pk-backend-hif-comps.c:240-247 | the file loop's result does not depend on the files after the first bad one |
| `CompsMachine.ParseStopsAtFailure` | backends/hif/pk-backend-hif-comps.c:239-248 | the driver reads nothing after the first unreadable or unparsable file, and then returns false |
| `CompsMachine.ParseFromSharesState` | backends/hif/pk-backend-hif-comps.c:237-249 | when all files read and parse, the file loop is one walk over all their events |
| `CompsMachine.ParseSharesState` | backends/hif/pk-backend-hif-comps.c:235-249 | when all files read and parse, the driver is one walk over all their events from the IGNORE state, with the match flag as it was |
| `CompsMachine.ParseFromAbsentQuery` | backends/hif/pk-backend-hif-comps.c:239-251 | files that never mention the query text leave an unmatched walk unmatched and collect nothing |
| `CompsMachine.ParseFromCollectsOnlyTexts` | backends/hif/pk-backend-hif-comps.c:239-248 | every package or group the file loop appends is the text of a text event of a file it read |
| `CompsMachine.ParseKeepsOtherOutput` | backends/hif/pk-backend-hif-comps.c:226-252 | a group walk never changes the groups, a category walk never the packages |
| `CompsMachine.PackagesLoop` | backends/hif/pk-backend-hif-comps.c:267-271 | one driver call per requested id, whose failure is ignored: mode kept, packages only grow, no ids changes nothing, the last id is left as the query |
| `CompsMachine.GetPackagesFromGroup` | backends/hif/pk-backend-hif-comps.c:257-275 | the package lookup runs in group mode into a fresh array, empty when no ids are given |
| `CompsMachine.GetGroupsFromCategory` | backends/hif/pk-backend-hif-comps.c:280-296 | the category lookup runs in category mode on the category id and never touches the packages |
| `CompsMachine.PackagesLoopAppend` | backends/hif/pk-backend-hif-comps.c:267-271 | looking up `a + b` is looking up `a` and then `b` on the record left behind |
| `CompsMachine.PackagesLoopKeepsGroups` | backends/hif/pk-backend-hif-comps.c:267-271 | the package loop never changes the collected groups |
| `CompsMachine.PackagesLoopCollectsOnlyTexts` | backends/hif/pk-backend-hif-comps.c:267-271 | every package the loop appends is the text of a text event of a catalog file that could be read |
| `CompsMachine.LookupsKeepEachOther` | backends/hif/pk-backend-hif-comps.c:257-296 | a package lookup leaves the groups, a category lookup the packages, as they were |
| `CompsMachine.LookupSkipsAbsentId` | backends/hif/pk-backend-hif-comps.c:264-271 | an id no file mentions adds no package and does not disturb the ids after it |
| `CompsMachine.Alias` | backends/hif/pk-backend-hif-comps.c:311-333 | the ten alias names map as the table says; every other name maps to itself as the only group id |
| `CompsMachine.GroupMapping` | backends/hif/pk-backend-hif-comps.c:301-341 | a direct alias or an unknown name gives its ids without touching the record; a category alias gives exactly the groups its category walk collected, leaving the packages alone |
| `CompsMachine.ResolveGroup` | backends/hif/pk-backend-hif-comps.c:410 | the packages a group name resolves to all come from text in the catalog files, so with no catalog there are none; `Catalog.ResolveGroupCatalogs` says exactly which they are on well-formed catalogs |
| `CompsMachine.MappingFallback` | backends/hif/pk-backend-hif-comps.c:333 | a name outside the table, `Internet` included, is looked up as the one group id it spells |
| `CompsMachine.MappingDirect` | backends/hif/pk-backend-hif-comps.c:311-318 | `internet`, `legacy` and `publishing` give their fixed ids in fixed order |
| `Catalog.Files` | backends/hif/pk-backend-hif-comps.c:239-248 | the catalogs as the driver reads them: one file per catalog, all of which read and parse |
| `Catalog.FeedCalm` | backends/hif/pk-backend-hif-comps.c:119-139 | outside any unit of the kind looked for, elements that open none leave the walk unmatched and collect nothing |
| `Catalog.FeedHead` | backends/hif/pk-backend-hif-comps.c:119-143 | after the opening tag, id and name of a group (category) in a group (category) walk, whatever the texts between them except that the one after `</id>` is not the query, the walk is in IGNORE and matched exactly when the id is the query |
| `Catalog.MatchedReqs` | backends/hif/pk-backend-hif-comps.c:186-189 | inside a matched group, the list of `packagereq`s appends exactly their names, in order |
| `Catalog.MatchedGroupIds` | backends/hif/pk-backend-hif-comps.c:178-182 | inside a matched category, the list of `groupid`s appends exactly their texts, in order |
| `Catalog.MatchedFields` | backends/hif/pk-backend-hif-comps.c:119-157 | inside a matched unit, the other child elements change nothing |
| `Catalog.GroupInGroupWalk` | backends/hif/pk-backend-hif-comps.c:135-157 | a group met by a group walk adds its package names exactly when its id is the query, and leaves the walk settled |
| `Catalog.CategoryInCategoryWalk` | backends/hif/pk-backend-hif-comps.c:119-134 | a category met by a category walk adds its group ids exactly when its id is the query, and leaves the walk settled |
| `Catalog.FeedItem` | backends/hif/pk-backend-hif-comps.c:107-213 | one group, category or other top-level element (an environment, langpacks), met by a walk of either kind, adds exactly what the comps format says it contributes; the other elements add nothing |
| `Catalog.FeedItems` | backends/hif/pk-backend-hif-comps.c:107-213 | a run of top-level elements adds exactly the packages (group walk) or group ids (category walk) of the units whose id is the query, in document order |
| `Catalog.FeedDocument` | backends/hif/pk-backend-hif-comps.c:107-213 | a whole catalog adds exactly the packages or group ids of its matching units |
| `Catalog.FeedDocuments` | backends/hif/pk-backend-hif-comps.c:237-249 | several catalogs in a row add exactly those of all matching units, file by file |
| `Catalog.ParseCatalogs` | backends/hif/pk-backend-hif-comps.c:226-252 | the driver over well-formed catalogs entered unmatched succeeds, ends unmatched and collects exactly the packages or group ids of the matching units |
| `Catalog.PackagesLoopCatalogs` | backends/hif/pk-backend-hif-comps.c:267-271 | the package loop over well-formed catalogs appends, id by id, exactly the packages of the groups with that id |
| `Catalog.PackagesFromGroupCatalogs` | backends/hif/pk-backend-hif-comps.c:257-275 | the package lookup gives the packages of the requested groups in requested-id order, then file and document order, duplicates kept; an id no catalog defines adds nothing |
| `Catalog.GroupsFromCategoryCatalogs` | backends/hif/pk-backend-hif-comps.c:280-296 | the category lookup gives exactly the group ids the matching categories list, file by file, in document order |
| `Catalog.GroupMappingCatalogs` | backends/hif/pk-backend-hif-comps.c:301-341 | the mapping gives the direct ids, or the group ids of the alias's category |
| `Catalog.MatchSurvivesId` | backends/hif/pk-backend-hif-comps.c:170-177 | in a group walk that is already matched, the opening, id and name of any group, whatever its id and the texts between its tags, leave the walk matched in IGNORE |
| `Catalog.MatchedItemsWalk` | backends/hif/pk-backend-hif-comps.c:135-213 | a group walk matched when it reaches a run of units collects all packages of the first group, whatever its id, then exactly the packages of the later groups whose id is the query |
| `Catalog.MatchCarriesOver` | backends/hif/pk-backend-hif-comps.c:235 | a driver call that starts matched, since the match flag is not reset, over a catalog whose first unit is any group collects all that group's packages whatever its id, then exactly those of the later matching groups, and succeeds unmatched |
| `Catalog.ResolveGroupCatalogs` | backends/hif/pk-backend-hif-comps.c:410 | a PackageKit group name resolves to the packages of the comps groups it maps to, id by id |
| `CompsBackend.CompsData.constructor` | backends/hif/pk-backend-hif-comps.c:363 | a zeroed record: category state, category query, no query text, no match, empty arrays, with the given catalog list |
| `CompsBackend.CompsData.StartElement` | backends/hif/pk-backend-hif-comps.c:107-159 | the record after the callback is what `OnStart` gives |
| `CompsBackend.CompsData.ElementText` | backends/hif/pk-backend-hif-comps.c:161-191 | the record after the callback is what `OnText` gives |
| `CompsBackend.CompsData.EndElement` | backends/hif/pk-backend-hif-comps.c:193-213 | the record after the callback is what `OnEnd` gives |
| `CompsBackend.CompsData.DeliverEvents` | backends/hif/pk-backend-hif-comps.c:215-221 | dispatching one file's events through the callback table leaves the record that `Feed` gives |
| `CompsBackend.CompsData.Parser` | backends/hif/pk-backend-hif-comps.c:226-252 | the record after the driver and its return value are what `Parse` gives; the catalog list is unchanged |
| `CompsBackend.CompsData.GetPackagesFromGroup` | backends/hif/pk-backend-hif-comps.c:257-275 | the record is what the package lookup gives and the result is its package array |
| `CompsBackend.CompsData.GetGroupsFromCategory` | backends/hif/pk-backend-hif-comps.c:280-296 | the record is what the category lookup gives and the result is its group array, whatever the driver returned |
| `CompsBackend.CompsData.GroupMapping` | backends/hif/pk-backend-hif-comps.c:301-341 | the record and the result are what the mapping gives; a category's groups are copied one by one |
| `CompsBackend.SearchGroupPackages` | backends/hif/pk-backend-hif-comps.c:363-410 | no values, no search; otherwise the packages are those the first value resolves to on a zeroed record |

## Left out

- Tokenising the XML and checking that it is well formed (GMarkup): a
  catalog file is given as the callback events GMarkup delivers for it and
  whether it parsed. The catalog theorems (module `Catalog`) take every text
  of a catalog, an empty one included, as exactly one text event; GMarkup may
  split one text over several callbacks and may deliver none for an empty
  text, and such event sequences are outside those theorems (the functions
  of `CompsMachine` take any events).
- `Catalog.ParseCatalogs` and the lookups built on it require the text after
  a unit's `</id>` to differ from the id looked for; when it equals it, the
  source matches on that text too, which those theorems do not describe.
- Reading files (`g_file_get_contents`) and their paths: a file is given as
  what reading it yields.
- `g_get_language_names`: the first language name is a parameter, `locale`.
- Logging (`g_debug`), including the description text that is only logged.
- Memory: string copies, arrays that are never freed, the parse context not
  freed on the error paths, NULL terminators and `pk_ptr_array_to_strv`.
- `CompsMachine.GetGroupsFromCategory`: the C function returns the
  `GPtrArray` itself where a string vector is declared, so the caller's
  `g_strv_length` reads the array's header; the model returns the collected
  group ids, as evidently meant.
- `CompsBackend.CompsData`: the NULL query string of a zeroed record is
  modelled as the empty string; every driver call is preceded by setting the
  query, so the two are never compared with text.
- `CompsBackend.SearchGroupPackages`: the rest of `pk_backend_search_groups`
  (creating the package sack, listing the repositories and its two error
  exits, building the catalog list from each repository's group metadata,
  filtering the sack by the names found and reporting packages, job status
  and cancellation) is outside the comps logic; the catalog list is a
  parameter and the result is the package names.
- GMarkup's own state carried in the shared parse context from one file into
  the next (a file ending in the middle of a tag) is not modelled; only the
  callbacks' record carries over.
- `g_markup_parse_context_end_parse` is never called by the driver, so
  GMarkup's final check of a document's end does not take place in the
  source either.
- `backends/dnf5/pk-backend-dnf5.cpp` has no group search: it searches by
  package name only, through libdnf5 (`pk_backend_search_names` and
  `dnf5_emit_pkg`), and is not part of this model.
- The sack cache (`HifSackCacheItem`, `sack_cache`, `sack_mutex` in
  `PkBackendHifPrivate`) is only declared in this file; nothing in the comps
  logic reads or writes it, so it is not modelled.
