# Universal Tracker: verified model of the location-classification layer

This project models, in Dafny, the part of the Archipelago Universal Tracker
that decides which locations a player can check now. The tracker replays the
items the player has received into a fresh collection state and asks the
world's reachability engine which locations it reaches. It keeps the
outstanding ones that are neither ignored nor hidden, and reports their
names, addresses, regions and display lines. A second, speculative pass
collects the world's "glitches" item and lists the locations reachable only
with it.

The model covers seven files:

- `common.dfy` (module `Common`): option and result types and small string
  helpers.
- `base.dfy` (module `Base`): the `BaseClasses` interface the tracker uses.
  It holds items, locations and network items, plus a `World` whose
  reachability queries are oracle functions of the items collected so far.
- `tracker_init.dfy` (module `TrackerInit`): the returned snapshot
  `CurrentTrackerState` and the map-tab settings class `UTMapTabData`, with
  its argument normalisation.
- `tracker_core.dfy` (module `TrackerCore`): `TrackerCore.updateTracker`.
  - Item replay and counting.
  - The two listing loops as one step function folded over the reachable
    locations.
  - The glitch pass.
  - The host settings and the setters, as a class whose fields the methods
    update.
- `tracker_client.dfy` (module `TrackerClient`): the client.
  - The received-item merge.
  - The older `updateTracker` with its map-icon status loop.
  - The colour decision tables of mixed and split map icons.
  - Logical-path pairing.
  - The ignore commands.
  - `load_map`'s map selection, pack path and coordinate merge.
- `fuzzer_hook.py` is modelled in `fuzzer_hook.dfy` (module `FuzzerHook`):
  after a single-world generation, the hook replays the sendable spheres
  through the tracker and fails on any mismatch. The tracker call is an
  oracle parameter.
- `TrackerKivy.py` is modelled in `tracker_kivy.dfy` (module `TrackerKivy`):
  the `ap:zip:` image-path parser and the loader dispatch.

Imperative code stays imperative. `updateTracker` and the item replay become
methods with loops proved against recursive specification functions. The
ignore commands and `load_map` become methods of a `TrackerGameContext`
class with field-level `modifies` frames. `after_generate` becomes a method
over its sphere loop.

Two behaviours of the code shape the model:

- Both tracker variants fail on any unknown received item id. The core
  lists every unknown id and raises (worlds/tracker/TrackerCore.py:307-312).
  The older client variant raises a `KeyError` at the first one, while
  building its replay list (worlds/tracker/TrackerClient.py:1145).
- `CurrentTrackerState` is declared with four fields at
  worlds/tracker/__init__.py:15-19. It is built with ten values at
  worlds/tracker/TrackerCore.py:442 and with five at
  worlds/tracker/TrackerClient.py:1322.
  - The snapshot here follows the ten-value call of the core.
  - The older client's five-value result is a separate record,
    `ClientTrackerState`.
- `load_map` ends by reading `tracker_world.location_setting_key`
  (worlds/tracker/TrackerClient.py:392). `UTMapTabData` neither declares
  nor assigns that attribute (worlds/tracker/__init__.py:52-106).
  - `__init__` discards its extra keyword arguments
    (worlds/tracker/__init__.py:84), so a world's `tracker_world` dict
    cannot supply the attribute either. Every load that gets that far
    raises `AttributeError` after the map id, pack root, image, sizes and
    pins are set.
  - The two message handlers read the attribute themselves. `Connected`
    reads it at worlds/tracker/TrackerClient.py:833, after `load_pack`
    has called `load_map` (line 300), so it raises there even when
    `load_map` returned early. `SetReply` reads it at line 861, before
    the `load_map(None)` and `updateTracker` of lines 864-865, so neither
    is reached. These handlers are not part of this model.
  - The model keeps the attribute as an optional field, which is absent
    after construction. Such a load ends with the outcome
    `LoadedIconKeyMissing` and the fields set.

## Model

| member | source | states |
|---|---|---|
| TrackerInit.PageList | worlds/tracker/__init__.py:86-93 | a single page name becomes a one-element list holding it; a list is kept as given |
| TrackerInit.SettingKey | worlds/tracker/__init__.py:94-96 | an absent key stays absent; a given key becomes its formatting with player and team, and a template that `str.format` rejects gives that error |
| TrackerInit.FormatKeyWithoutFields | worlds/tracker/__init__.py:95-96 | a key with no brace at all formats to itself |
| TrackerInit.FormatKeyFillsPlayer | worlds/tracker/__init__.py:95-96 | a `{player}` field between brace-free texts is replaced by the player number and the surrounding text is kept |
| TrackerInit.FormatKeyFillsTeam | worlds/tracker/__init__.py:95-96 | a `{team}` field between brace-free texts is replaced by the team number and the surrounding text is kept |
| TrackerInit.FormatKeyPlayerHead | worlds/tracker/__init__.py:95-96 | a leading `{player}` field becomes the player number in front of the formatted rest |
| TrackerInit.FormatKeyTeamHead | worlds/tracker/__init__.py:95-96 | a leading `{team}` field becomes the team number in front of the formatted rest |
| TrackerInit.FormatKeyOpenEscapeHead | worlds/tracker/__init__.py:95-96 | a leading `{{` becomes one `{` in front of the formatted rest |
| TrackerInit.FormatKeyCloseEscapeHead | worlds/tracker/__init__.py:95-96 | a leading `}}` becomes one `}` in front of the formatted rest |
| TrackerInit.FormatKeyBetweenPlain | worlds/tracker/__init__.py:95-96 | a piece that formats to a value, between brace-free texts, gives the texts around that value |
| TrackerInit.FormatKeyDoubledBraces | worlds/tracker/__init__.py:95-96 | a doubled `{{` or `}}` between brace-free texts is unescaped to one brace |
| TrackerInit.FormatKeyLoneClosingBrace | worlds/tracker/__init__.py:95-96 | a `}` after brace-free text that is not doubled makes formatting fail, as `str.format` raises on a single `}` |
| TrackerInit.FormatKeyOtherField | worlds/tracker/__init__.py:95-96 | a `{` after brace-free text that opens neither `{{`, `{player}` nor `{team}` makes formatting fail |
| TrackerInit.FormatKeyAfterPlain | worlds/tracker/__init__.py:95-96 | brace-free text is copied in front of the formatted remainder; an error of the remainder is the error of the whole |
| TrackerInit.FormatKeyPlainHead | worlds/tracker/__init__.py:95-96 | a template that does not start with a brace keeps its first character and formats the rest |
| TrackerInit.FormatKeyPlainCons | worlds/tracker/__init__.py:95-96 | a character other than a brace put in front of a template is copied in front of its formatting |
| TrackerInit.PageIndexOrDefault | worlds/tracker/__init__.py:97-100 | a missing index function becomes the function that returns 0 for every stored value; a given one is kept |
| TrackerInit.NameMappingOrEmpty | worlds/tracker/__init__.py:101-104 | a missing or empty name mapping becomes the empty map; a non-empty one is kept |
| TrackerInit.UTMapTabData.constructor | worlds/tracker/__init__.py:85-106 | every field holds the value it is given, and `location_setting_key` is left unassigned |
| TrackerInit.NewMapTabData | worlds/tracker/__init__.py:79-106 | a setting key that cannot be formatted fails with its error and makes no object; otherwise a new object holds the folder, both page lists normalised, the formatted key, the index function or the constant 0, the name mapping or the empty map, the pack key and the glitches item name, with `location_setting_key` unassigned |
| TrackerCore.ReportTypeOf | worlds/tracker/TrackerCore.py:142-149 | Region iff location names are off; Location iff location names are on and region names off; Both iff both are on |
| TrackerCore.SetHostSettings | worlds/tracker/TrackerCore.py:139-156 | each setting is passed through; a known deferred-entrance mode is kept; an unknown one is replaced by the default, both in the result and in the stored settings |
| TrackerCore.TrackerCore.constructor | worlds/tracker/TrackerCore.py:29-60 | a new tracker has no player, world, slot or team, empty item, hint, ignore and missing collections, glitched logic enabled and the default deferred mode |
| TrackerCore.TrackerCore.SetMissingLocations | worlds/tracker/TrackerCore.py:91-92 | the missing set becomes the argument and nothing else changes |
| TrackerCore.TrackerCore.SetItemsReceived | worlds/tracker/TrackerCore.py:94-95 | the received list becomes the argument and nothing else changes |
| TrackerCore.TrackerCore.SetHints | worlds/tracker/TrackerCore.py:97-98 | the hint list becomes the argument and nothing else changes |
| TrackerCore.TrackerCore.SetSlotParams | worlds/tracker/TrackerCore.py:114-118 | game, slot, slot name and team become the arguments and nothing else changes |
| TrackerCore.TrackerCore.LoadHostSettings | worlds/tracker/TrackerCore.py:139-156 | the report type, hide-excluded, split-icon, deferred-mode and glitched-logic fields take the values `SetHostSettings` returns |
| TrackerCore.UnknownItemIds | worlds/tracker/TrackerCore.py:307-312 | the listed ids are exactly the received ids missing from the item table; the list is empty iff every received id is known |
| TrackerCore.FirstUnknownItemId | worlds/tracker/TrackerCore.py:307-312 | the first listed unknown id is the first received item whose id is unknown, and every earlier one is known |
| TrackerCore.Requests | worlds/tracker/TrackerCore.py:314 | entry i is received item i under its table name, with its flags, location and sender; after them each manual name is a progression request from location -1 and player -1 |
| TrackerCore.Origin | worlds/tracker/TrackerCore.py:317 | an item is attached to the request's location only if that location is positive and in the location table and, where the rule checks the slot, the sender is the own slot; otherwise it gets none |
| TrackerCore.Collected | worlds/tracker/TrackerCore.py:314-326 | the replay collects at most one item per request |
| TrackerCore.CollectedFromRequests | worlds/tracker/TrackerCore.py:314-326 | every collected item comes from a request whose name the world creates and whose attached location `get_location` finds, with the request's flags or-ed into its classification and the location attached by the origin rule; when every request passes both lookups, one item is collected per request |
| TrackerCore.OriginFound | worlds/tracker/TrackerCore.py:317-318 | the origin rule attaches no location, or one the player's world generated, so `get_location` does not raise (definition; CollectedStep states its effect) |
| TrackerCore.Tally | worlds/tracker/TrackerCore.py:321-324 | the counter of the collected items a counter admits (definition; TallyCountsOccurrences, TallyAppend and TallyBounds state what it holds) |
| TrackerCore.Occurrences | worlds/tracker/TrackerCore.py:321-324 | a positive count of a name comes from an item of that name that the counter admits |
| TrackerCore.OccurrencesAppend | worlds/tracker/TrackerCore.py:321-324 | collecting one more item raises its name's count by one exactly when the counter admits it |
| TrackerCore.TallyCountsOccurrences | worlds/tracker/TrackerCore.py:321-324 | a name is in the counter iff it occurs, and then its count is its number of admitted occurrences: advancement items for `prog_items`, items with a code for `all_items` |
| TrackerCore.TallyAppend | worlds/tracker/TrackerCore.py:321-324 | the counter after one more item is the old counter bumped at that name if admitted, else the old counter |
| TrackerCore.TallyBounds | worlds/tracker/TrackerCore.py:321-324 | every counted name has a count between one and the number of collected items |
| TrackerCore.CollectedStep | worlds/tracker/TrackerCore.py:314-326 | one more request adds the item the world creates for it, with the OR-ed flags and the allowed origin, or nothing when `create_item` does not know the name or `get_location` does not find the attached location |
| TrackerCore.CountItem | worlds/tracker/TrackerCore.py:319-324 | collecting one item appends it to the state and keeps both counters equal to the tallies of the collected items |
| TrackerCore.ReplayItems | worlds/tracker/TrackerCore.py:314-326 | the replay loop collects `Collected` and builds both counters as the tallies of the collected items |
| TrackerCore.Listable | worlds/tracker/TrackerCore.py:337-342 | the `continue` guards both loops share: scalar address, not hidden as excluded, not ignored (definition; SelectionMembers states the selection it makes) |
| TrackerCore.Admitted | worlds/tracker/TrackerCore.py:337-344 | a listable location that is missing and, in the glitch loop, not already in logic (definition; SelectionMembers and GlitchedNeverInLogic state it) |
| TrackerCore.Step | worlds/tracker/TrackerCore.py:336-376 | one iteration of either listing loop (definition; StepExtends, InLogicStep and StepRegions state what it does) |
| TrackerCore.StepExtends | worlds/tracker/TrackerCore.py:336-379 | a location that is not admitted leaves every list as it was; an admitted one only appends, at most one name and one glitched location |
| TrackerCore.Scan | worlds/tracker/TrackerCore.py:336-379 | both listing loops as a fold of `Step` over the reachable locations (definition; ScanExtends and the scan lemmas below state it) |
| TrackerCore.ScanExtends | worlds/tracker/TrackerCore.py:336-379 | a loop only appends to each list, and adds at most one name and one glitched location per reachable location |
| TrackerCore.ScanLocations | worlds/tracker/TrackerCore.py:336-379 | the listing loop computes the fold of the listing step over the reachable locations |
| TrackerCore.Selection | worlds/tracker/TrackerCore.py:336-345 | the admitted locations are a subsequence of the reachable ones |
| TrackerCore.SelectionMembers | worlds/tracker/TrackerCore.py:336-345 | a location is selected iff it is reachable and admitted: scalar address, not hidden as excluded, not ignored, missing and, in the glitch pass, not already in logic |
| TrackerCore.NamesOf | worlds/tracker/TrackerCore.py:375 | the names of the given locations, position by position |
| TrackerCore.AddressesOf | worlds/tracker/TrackerCore.py:376 | the addresses of the given locations, position by position |
| TrackerCore.RegionsOf | worlds/tracker/TrackerCore.py:370-371 | the parent-region names of the given locations, position by position |
| TrackerCore.NamesOfAppend | worlds/tracker/TrackerCore.py:375 | naming one more location appends its name |
| TrackerCore.AddressesOfAppend | worlds/tracker/TrackerCore.py:376 | one more location appends its address |
| TrackerCore.RegionsOfAppend | worlds/tracker/TrackerCore.py:370-371 | one more location appends its region name |
| TrackerCore.InLogicStep | worlds/tracker/TrackerCore.py:336-376 | one in-logic step appends the name and the address exactly when the location is admitted, and adds nothing glitched |
| TrackerCore.InLogicScanNames | worlds/tracker/TrackerCore.py:336-375 | the in-logic loop appends exactly the names of the selected locations to `callback_list` |
| TrackerCore.InLogicScanAddresses | worlds/tracker/TrackerCore.py:336-376 | the in-logic loop appends exactly the addresses of the selected locations to `locations` |
| TrackerCore.InLogicScanKeepsGlitched | worlds/tracker/TrackerCore.py:336-379 | the in-logic loop lists nothing as glitched |
| TrackerCore.InLogicScanLists | worlds/tracker/TrackerCore.py:336-379 | the in-logic loop appends exactly the selected names to `callback_list` and their addresses to `locations`, and adds nothing to the glitched list |
| TrackerCore.InLogicScanFromEmpty | worlds/tracker/TrackerCore.py:336-376 | from empty lists, `callback_list` and `locations` are exactly the names and the addresses of the selected locations |
| TrackerCore.GlitchScanLists | worlds/tracker/TrackerCore.py:395-439 | the glitch loop leaves the names and addresses alone and appends exactly the selected locations to the glitched list |
| TrackerCore.ScanAddressesFixed | worlds/tracker/TrackerCore.py:395-439 | the glitch loop never changes the in-logic address list |
| TrackerCore.InLogicAddressesExactly | worlds/tracker/TrackerCore.py:336-376 | an address is in logic iff some reachable location has it as scalar address, is not hidden as excluded, and the address is not ignored and is missing |
| TrackerCore.InLogicListsAligned | worlds/tracker/TrackerCore.py:375-376 | both lists are as long as the selection, and position k of each is the name and the address of the k-th selected location, which is reachable and admitted |
| TrackerCore.StepRegions | worlds/tracker/TrackerCore.py:370-374 | an admitted location adds its region once, only if not yet listed |
| TrackerCore.ScanRegionsDistinct | worlds/tracker/TrackerCore.py:370-374 | the region list never holds a duplicate and extends the starting list |
| TrackerCore.ScanRegions | worlds/tracker/TrackerCore.py:370-374 | a region is listed iff it was listed before or is the region of a selected location |
| TrackerCore.AdmittedRegionListed | worlds/tracker/TrackerCore.py:370-374 | the region of every admitted location ends up listed |
| TrackerCore.GlitchedNeverInLogic | worlds/tracker/TrackerCore.py:395-406 | every location the glitch loop adds is reachable, has a scalar address that is not in logic, is missing and is not ignored |
| TrackerCore.GlitchDisplayOnlyGated | worlds/tracker/TrackerCore.py:406-436 | turning glitched logic display off changes only the display lines and hinted list: glitched list, regions, names and addresses are the same, and nothing is displayed |
| TrackerCore.ScanHinted | worlds/tracker/TrackerCore.py:351-366 | the hinted list only grows, and only by admitted, hinted, non-excluded locations, never in Region mode |
| TrackerCore.RegionModeListsRegions | worlds/tracker/TrackerCore.py:370-374 | in Region mode the display lines added are exactly the newly listed regions |
| TrackerCore.GlitchItem | worlds/tracker/TrackerCore.py:385-392 | the glitch pass has an item iff the world names a glitches item that it can create |
| TrackerCore.RunTracker | worlds/tracker/TrackerCore.py:298-439 | the in-logic loop scans the locations reachable with the collected items, under the state's partial-entrance flag; with a glitches item, that item is collected into the same state, and the glitch loop scans what that state reaches; without one, nothing more is done |
| TrackerCore.RunSeparatesLogicAndGlitches | worlds/tracker/TrackerCore.py:336-440 | no location is both in logic and glitched; nothing ignored is listed; every in-logic address is missing; no glitches item means no glitched locations |
| TrackerCore.ComputeUpdate | worlds/tracker/TrackerCore.py:298-442 | the addresses, the glitched names and the snapshot are those of `RunTracker` with the given partial-entrance flag |
| TrackerCore.TrackerCore.UpdateTracker | worlds/tracker/TrackerCore.py:292-442 | unbound: the empty snapshot and no change. Unknown received ids: a failure listing them and no change. Otherwise the state allows partial entrances unless the deferred mode is `disabled`; `locations_available` becomes the in-logic addresses and `glitched_locations` the glitched names. The snapshot returned holds the tallies, events, names, regions, unconnected exits, display lines, hinted locations and the state including the glitches item |
| TrackerClient.TrackerItemsReceived | worlds/tracker/TrackerClient.py:219-224 | with items-handling bit 0b010 clear, the received items followed by the local items; otherwise the received items alone |
| TrackerClient.LocalItems | worlds/tracker/TrackerClient.py:226-229 | at most one local item per checked location, none without a slot |
| TrackerClient.LocalItemsExactly | worlds/tracker/TrackerClient.py:226-229 | an item is local iff it is the scouted item of a checked location and belongs to the own slot |
| TrackerClient.LocalItemsSingle | worlds/tracker/TrackerClient.py:227-229 | one checked location contributes its scouted item iff that item belongs to the own slot, and nothing otherwise |
| TrackerClient.LocalItemsAppend | worlds/tracker/TrackerClient.py:227-229 | the local items of two runs of checked locations are those of the first followed by those of the second, so the list keeps the checked order |
| TrackerClient.TrackerGameContext.UpdateTrackerItems | worlds/tracker/TrackerClient.py:226-229 | the local item list becomes `LocalItems` of the checked locations and nothing else changes |
| TrackerClient.ActiveHints | worlds/tracker/TrackerClient.py:1168-1170 | at most one hinted location per stored hint |
| TrackerClient.SlotConcernsSelf | worlds/tracker/TrackerClient.py:1170 | the finding player is the own slot or a group the slot belongs to (definition; ActiveHintsExactly states the hint filter it makes) |
| TrackerClient.ActiveHintsExactly | worlds/tracker/TrackerClient.py:1168-1170 | a location is hinted iff some stored hint for it is not found and concerns the player |
| TrackerClient.LocationStatus | worlds/tracker/TrackerClient.py:1292-1301 | the base status, prefixed with "hinted_" for a hinted location (definition; BaseStatus and LocationStatusShape state it) |
| TrackerClient.BaseStatus | worlds/tracker/TrackerClient.py:1292-1299 | completed iff checked or ignored; in_logic iff not completed and available; glitched iff neither and glitched; out_of_logic iff none of these |
| TrackerClient.LocationStatusShape | worlds/tracker/TrackerClient.py:1292-1301 | an icon status starts with "hinted" iff the location is hinted and always ends with its base status |
| TrackerClient.StatusEndings | worlds/tracker/TrackerClient.py:1300-1301 | the in_logic, out_of_logic and glitched ending tests of the icon colours see exactly the base status, despite the "hinted_" prefix |
| TrackerClient.CategoriesOf | worlds/tracker/TrackerClient.py:523-526 | each category flag holds iff some section status ends with (or, for hinted, starts with) its name |
| TrackerClient.StatusCategories | worlds/tracker/TrackerClient.py:1292-1301 | one location's status falls in exactly its base category, plus hinted iff the location is hinted |
| TrackerClient.MixedColor | worlds/tracker/TrackerClient.py:528-547 | mixed_logic iff in logic and (out of logic or glitched and hinted); collected iff no category; a hinted icon otherwise shows hinted_glitched, hinted_out_of_logic or hinted, in that priority |
| TrackerClient.MixedColorNamesCategories | worlds/tracker/TrackerClient.py:536-547 | an unhinted, unmixed icon shows the present categories joined with "_" in the fixed order, or collected when none is present |
| TrackerClient.GlitchedColorNamesCategories | worlds/tracker/TrackerClient.py:536-545 | an unhinted, unmixed glitched icon shows its categories joined with underscores |
| TrackerClient.PlainColorNamesCategories | worlds/tracker/TrackerClient.py:540-547 | an unhinted, unmixed icon without glitches shows its one category, or collected |
| TrackerClient.CategoryList | worlds/tracker/TrackerClient.py:565-573 | each of the four categories is listed iff it is present, in at most four entries |
| TrackerClient.CategoryListRanked | worlds/tracker/TrackerClient.py:565-573 | the present categories appear in the fixed order in_logic, out_of_logic, glitched, hinted |
| TrackerClient.CategoryListOrdered | worlds/tracker/TrackerClient.py:565-573 | the list is in the fixed order and holds no category twice |
| TrackerClient.Repeat | worlds/tracker/TrackerClient.py:575 | list repetition multiplies the length |
| TrackerClient.RepeatSmall | worlds/tracker/TrackerClient.py:575 | two and four repetitions are the concatenations |
| TrackerClient.RepeatCycle | worlds/tracker/TrackerClient.py:575 | `max(2, 4 // n)` copies reach four entries, and entry i is colour i mod n |
| TrackerClient.SplitColors | worlds/tracker/TrackerClient.py:574-584 | always exactly four colours, all collected when no category is present |
| TrackerClient.SplitColorsCycle | worlds/tracker/TrackerClient.py:574-579 | colour i is present category i mod n, so every present category shows |
| TrackerClient.FlistToSeq | worlds/tracker/TrackerClient.py:1109-1112 | walking the nested pairs yields the names in list order |
| TrackerClient.Reverse | worlds/tracker/TrackerClient.py:1116 | the reversed list has the same length, read back to front |
| TrackerClient.Pairs | worlds/tracker/TrackerClient.py:1118-1120 | consecutive names are paired, with an odd tail paired with None and only there |
| TrackerClient.UnpairPairs | worlds/tracker/TrackerClient.py:1118-1120 | flattening the pairs gives the names back |
| TrackerClient.GetPath | worlds/tracker/TrackerClient.py:1114-1120 | the pairs of the reversed path; an unreached region gives `[(region, None)]`; only the last pair can lack an exit |
| TrackerClient.MapNames | worlds/tracker/TrackerClient.py:315-318 | the names of the map pages, position by position |
| TrackerClient.IsDecimal | worlds/tracker/TrackerClient.py:314 | `str.isdecimal` on ASCII text: non-empty and all digits (definition; DecimalValueOfNatToString and ResolveMap use it) |
| TrackerClient.DecimalValue | worlds/tracker/TrackerClient.py:324-325 | `int` of a digit string (definition; DecimalValueOfNatToString states that it reads back the decimal text of a number) |
| TrackerClient.DecimalValueOfNatToString | worlds/tracker/TrackerClient.py:324-325 | the decimal text of a number is decimal and `int` reads the number back |
| TrackerClient.FirstIndex | worlds/tracker/TrackerClient.py:315-319 | none iff no page has the name; otherwise the first page with that name |
| TrackerClient.FindMap | worlds/tracker/TrackerClient.py:315-322 | the search loop finds `FirstIndex` |
| TrackerClient.MapSettingKey | worlds/tracker/TrackerClient.py:307 | a non-empty configured key is used as is; otherwise the slot-and-team key ending in `_UT_MAP` |
| TrackerClient.ResolveMap | worlds/tracker/TrackerClient.py:306-329 | a stored index loads only with auto-tab, in range and not current; the current index is kept; out-of-range or unknown maps are missing; a decimal text loads its value and a name its first page; a text is never taken for the loaded map |
| TrackerClient.MergedCoords | worlds/tracker/TrackerClient.py:386-390 | the merged positions are those of both maps |
| TrackerClient.MergedCoordsKeepsBoth | worlds/tracker/TrackerClient.py:386-390 | at a shared position the compat list is appended to the section list; elsewhere each list is kept |
| TrackerClient.MergeCompatCoords | worlds/tracker/TrackerClient.py:386-390 | the merge loop computes `MergedCoords` |
| TrackerClient.MergeStep | worlds/tracker/TrackerClient.py:387-390 | merging one more compatibility entry appends its pins at that position, or adds the position, and changes no other position |
| TrackerClient.Stamped | worlds/tracker/TrackerClient.py:1302-1303 | stamping a status never adds or drops an icon section |
| TrackerClient.RefreshedIcons | worlds/tracker/TrackerClient.py:1289-1303 | the status loop never adds or drops an icon section |
| TrackerClient.RefreshedIconsShowStatus | worlds/tracker/TrackerClient.py:1289-1303 | an icon section of a server location at one of its coordinates shows that location's status; every other section keeps its status |
| TrackerClient.RefreshIcons | worlds/tracker/TrackerClient.py:1289-1303 | the status loop over the server locations computes `RefreshedIcons` |
| TrackerClient.StampIcons | worlds/tracker/TrackerClient.py:1302-1303 | the loop over one location's coordinates computes `Stamped` |
| TrackerClient.OldUpdate | worlds/tracker/TrackerClient.py:1131-1272 | the older update as a function of its inputs (definition; OldUpdateOutcome and OldUpdateSeparates state it) |
| TrackerClient.OldUpdateOutcome | worlds/tracker/TrackerClient.py:1131-1145 | nothing iff no world is bound; a failure iff a received id is unknown, and then it names the first received item whose id is unknown, every earlier id being known |
| TrackerClient.ComputeOldUpdate | worlds/tracker/TrackerClient.py:1131-1272 | the older update computes its specification: nothing when unbound, the first unknown id as failure, otherwise the in-logic addresses and the five-value record with glitched addresses |
| TrackerClient.ReplayAndScan | worlds/tracker/TrackerClient.py:1137-1271 | replay and both loops give the in-logic addresses, the glitched addresses and the record of the run that attaches every known found location |
| TrackerClient.OldUpdateSeparates | worlds/tracker/TrackerClient.py:1171-1239 | after a completed older update, available locations are missing and not ignored, and glitched ones are neither available nor ignored |
| TrackerClient.TrackerGameContext.UpdateTracker | worlds/tracker/TrackerClient.py:1131-1303 | result, `locations_available` and `glitched_locations` are those of the older update under the current ignore set. Without a completed update nothing changes. With a map view the icons show the refreshed statuses; without one they are unchanged |
| TrackerClient.TrackerGameContext.RefreshMapIcons | worlds/tracker/TrackerClient.py:1287-1303 | the icon statuses become `RefreshedIcons` of the current lists and hints |
| TrackerClient.TrackerGameContext.GameLoaded | worlds/tracker/TrackerClient.py:104 | `if not self.ctx.game`: a game is loaded iff its name is set and not empty (definition) |
| TrackerClient.TrackerGameContext.RefreshEffect | worlds/tracker/TrackerClient.py:1287-1303 | a completed update with a map view stamps the refreshed statuses; an update that did not complete keeps both lists; without a completed update and a map view the icons are kept (definition used by the refresh contracts) |
| TrackerClient.TrackerGameContext.RefreshWithIgnored | worlds/tracker/TrackerClient.py:152-155 | the ignore set becomes the given one, the update computed with it is stored, and the icons follow `RefreshEffect` |
| TrackerClient.TrackerGameContext.Ignore | worlds/tracker/TrackerClient.py:102-115 | no game (no name or the empty name) or an unknown name changes nothing and refreshes nothing; a known name adds its id to the ignore set, stores the update computed with that set, and updates the icons as a refresh does, keeping lists and icons when the update does not complete |
| TrackerClient.TrackerGameContext.Unignore | worlds/tracker/TrackerClient.py:118-136 | no game (no name or the empty name), an unknown name or an id not ignored changes nothing; otherwise the id leaves the ignore set, the update with the smaller set is stored, and the icons are updated as a refresh does |
| TrackerClient.TrackerGameContext.ResetIgnored | worlds/tracker/TrackerClient.py:152-156 | the ignore set becomes empty, the update with no ignored location is stored, and the icons are updated as a refresh does |
| TrackerClient.TrackerGameContext.LoadMap | worlds/tracker/TrackerClient.py:302-392 | no map view: nothing. Kept or missing map: nothing changes. A resolved index becomes the map id. A missing external pack stops there. Otherwise root path, image source, sizes (defaults 65, icon = location size, border 8) and coordinates are set, merged with the compat coordinates iff a name mapping exists; the load then ends with `AttributeError` when `location_setting_key` is unassigned, and completes otherwise |
| TrackerClient.TrackerGameContext.ResolveRequest | worlds/tracker/TrackerClient.py:306-329 | the requested map resolves as `ResolveMap` with the stored index of the configured setting key |
| TrackerClient.TrackerGameContext.ShowMap | worlds/tracker/TrackerClient.py:330-392 | an external pack that is not a zip changes nothing; otherwise the root path is `ap:zip:` plus the pack or `ap:` plus module and folder, the image is under it, sizes and coordinates are set as in `LoadMap`, and the outcome is the `AttributeError` of an unassigned `location_setting_key` or a completed load |
| FuzzerHook.Addressed | worlds/tracker/fuzzer_hook.py:37 | the remaining addresses are exactly the world's non-None addresses |
| FuzzerHook.Precollected | worlds/tracker/fuzzer_hook.py:38 | the starting inventory has one network item per precollected item, at location -2 |
| FuzzerHook.SetOf | worlds/tracker/fuzzer_hook.py:48 | the missing set holds exactly the remaining addresses |
| FuzzerHook.RemoveFirst | worlds/tracker/fuzzer_hook.py:55 | removing an address takes out exactly one occurrence |
| FuzzerHook.SphereIndex | worlds/tracker/fuzzer_hook.py:42-45 | each indexed name maps to a sphere location of that name with an address |
| FuzzerHook.SphereIndexKeys | worlds/tracker/fuzzer_hook.py:42-45 | a name is indexed iff some addressed sphere location has it |
| FuzzerHook.SphereIndexLastWins | worlds/tracker/fuzzer_hook.py:43-45 | a repeated name maps to its last addressed location |
| FuzzerHook.IndexSphere | worlds/tracker/fuzzer_hook.py:42-45 | the indexing loop builds `SphereIndex` |
| FuzzerHook.ClaimSphere | worlds/tracker/fuzzer_hook.py:51-67 | an unmatched outcome names at least one sphere location |
| FuzzerHook.ClaimSphereClearedNames | worlds/tracker/fuzzer_hook.py:51-67 | a sphere is cleared only if the tracker listed each of its names exactly once and nothing else |
| FuzzerHook.ClaimedItems | worlds/tracker/fuzzer_hook.py:53-54 | one found item per listed name, in listing order |
| FuzzerHook.ClaimedAddresses | worlds/tracker/fuzzer_hook.py:55 | one address per listed name, in listing order |
| FuzzerHook.ClaimSphereHead | worlds/tracker/fuzzer_hook.py:51-56 | in a cleared sphere the first listed name is in the sphere with a remaining address; its item is appended, its address removed, and the rest is matched without it |
| FuzzerHook.ClaimSphereClearedInventory | worlds/tracker/fuzzer_hook.py:51-54 | clearing a sphere appends the listed locations' items, in listing order, to the inventory |
| FuzzerHook.ClaimSphereClearedRemaining | worlds/tracker/fuzzer_hook.py:51-55 | clearing a sphere removes the listed locations' addresses, one occurrence each, from the remaining ones |
| FuzzerHook.ClaimSphereClearedCount | worlds/tracker/fuzzer_hook.py:51-55 | clearing a sphere shortens the remaining addresses by the number of listed names |
| FuzzerHook.ClaimSphereClearedProgress | worlds/tracker/fuzzer_hook.py:51-56 | clearing a sphere appends to the inventory the items of the listed locations in listing order, and removes from the remaining addresses exactly the multiset of their addresses, one per listed name |
| FuzzerHook.ClaimSphereExact | worlds/tracker/fuzzer_hook.py:51-67 | with distinct, still remaining addresses, a tracker that lists each name of the sphere exactly once and nothing else clears it |
| FuzzerHook.ClaimSphereUnexpected | worlds/tracker/fuzzer_hook.py:51-61 | an unexpected name is one the tracker listed |
| FuzzerHook.ClaimSphereLoop | worlds/tracker/fuzzer_hook.py:51-67 | the matching loop computes `ClaimSphere` |
| FuzzerHook.ReplaySpheres | worlds/tracker/fuzzer_hook.py:41-69 | the sphere replay never yields OptionError |
| FuzzerHook.ClaimAt | worlds/tracker/fuzzer_hook.py:48-51 | matching one sphere against what the tracker lists for the current progress (definition) |
| FuzzerHook.Reached | worlds/tracker/fuzzer_hook.py:41-67 | the progress with which the replay arrives at a sphere, none once it stopped (definition; ReachedStep states it) |
| FuzzerHook.ReachedStep | worlds/tracker/fuzzer_hook.py:41-67 | the next sphere is reached iff this one is reached, not empty and cleared, and then with the progress that clearing leaves |
| FuzzerHook.SphereAgrees | worlds/tracker/fuzzer_hook.py:47-67 | the replay does not reach the sphere, the sphere is empty, or the tracker clears it (definition) |
| FuzzerHook.ReplaySucceedsIff | worlds/tracker/fuzzer_hook.py:41-69 | the replay succeeds iff at every sphere the tracker agrees: the sphere is not reached, empty, or cleared |
| FuzzerHook.StopsAt | worlds/tracker/fuzzer_hook.py:51-67 | the replay reaches a non-empty sphere and ends there with a failure for an unexpected or unlisted name, or with the exception for an address no longer remaining (definition) |
| FuzzerHook.ReplayStopsAtSphere | worlds/tracker/fuzzer_hook.py:41-69 | a replay that does not succeed stops at some reached, non-empty sphere, with a failure where the tracker listed a name outside it or missed one, or with the exception of `remove` |
| FuzzerHook.ReplayLoop | worlds/tracker/fuzzer_hook.py:41-69 | the sphere loop computes `ReplaySpheres`, asking the tracker with the remaining addresses as missing and the inventory as received |
| FuzzerHook.AfterGenerateSpec | worlds/tracker/fuzzer_hook.py:22-69 | no multiworld or more than one world leaves OptionError and raises nothing; a single world never ends in OptionError |
| FuzzerHook.Hook.AfterGenerate | worlds/tracker/fuzzer_hook.py:22-69 | the status and the raised error are those of `AfterGenerateSpec` |
| TrackerKivy.Drop | worlds/tracker/TrackerKivy.py:8 | dropping a prefix gives the suffix, or empty text for a shorter name |
| TrackerKivy.FindFrom | worlds/tracker/TrackerKivy.py:10 | the first occurrence of the separator at or after a position, none iff there is none |
| TrackerKivy.FirstOccurrence | worlds/tracker/TrackerKivy.py:10 | an occurrence with none before it is the one found |
| TrackerKivy.OccursInPrefix | worlds/tracker/TrackerKivy.py:10 | a "zip/" lying inside the first part of a concatenation occurs in that part |
| TrackerKivy.StripLeadingSlashes | worlds/tracker/TrackerKivy.py:11 | the result is a suffix that does not start with a slash, and only slashes were removed |
| TrackerKivy.Load | worlds/tracker/TrackerKivy.py:5-15 | fails iff the name after its seven-character scheme holds no "zip/" |
| TrackerKivy.SplitReassembles | worlds/tracker/TrackerKivy.py:10-13 | splitting at a "zip/" gives an archive ending in "zip", followed in the path by a slash, then only slashes, then the member |
| TrackerKivy.LoadDecomposes | worlds/tracker/TrackerKivy.py:5-15 | what `load` opens reassembles the path; the member does not start with a slash; no "zip/" starts before the archive's final "zip" |
| TrackerKivy.LoadOverride | worlds/tracker/TrackerKivy.py:22-26 | names with the `ap:zip:` scheme go to the zip loader, all others unchanged to the default loader |
| TrackerKivy.ZipPathFirstSeparator | worlds/tracker/TrackerClient.py:333-344 | in a pack path ending in "zip" with no "zip/" of its own, followed by "/" and the image, the first "zip/" is the pack's final "zip" and that slash |
| TrackerKivy.ZipPathRoundTrip | worlds/tracker/TrackerClient.py:333-344 | the image path built for an external pack ending in "zip" with no "zip/" of its own parses back to that pack and the image without leading slashes |
| TrackerKivy.LoadSplitsAtFirstZipDirectory | worlds/tracker/TrackerKivy.py:10 | a pack inside a directory named "zip" is split at that directory, which is then taken for the archive |

## Left out

- The reachability engine (collecting into a state, the advancement sweep, reachable locations, regions and exits, events) is foreign code. It is modelled as oracle functions of the items collected so far, with the sweep inside them.
- The try/except around each listed location: a failing location is assumed not to occur, so each loop step always completes.
- Logging, colour markup, `set_page`/`clear_page`/`log_to_tab`, the status labels, the update callbacks and the print-and-exit path of `quit_after_update` are display side effects. They are not modelled; the display lines are kept without markup.
- `get_ut_color` and the `set_set_page`, `set_log_to_tab`, `set_clear_page` and `set_get_ut_color` setters are UI callbacks. `set_stored_data` feeds nothing the update reads.
- `DeferredEntranceMode` is not part of this model. The modes its constructor accepts, its default and its `disabled` value are parameters of `SetHostSettings` and `UpdateTracker`. The older client builds `CollectionState(ctx.multiworld)` with the constructor's default, taken here as not allowing partial entrances (worlds/tracker/TrackerClient.py:1137); `BaseClasses` is not part of this model.
- `_cmd_list_ignored` only logs the ignored names and changes nothing.
- The game's location-name table is a parameter of the ignore commands, and the zip test of the pack path is a parameter of `LoadMap`.
- The client's server locations are a sequence in the iteration order of the server set.
- The JSON walk of `load_map` over the pack's locations is not modelled. Its two coordinate maps are parameters. The icon-widget map built from them and `update_location_icon_coords` are UI.
- TrackerClient.TrackerGameContext.UpdateTracker: a map icon section is a (coordinate, location) key whose status is kept in one map, rather than a widget with its own dictionary.
- FuzzerHook.Hook.AfterGenerate: `fill_slot_data`, `set_slot_params`, `initalize_tracker_core` and the tracker's update are folded into the oracle. The hook's assertions and prints are not modelled.
- Opening the zip archive and decoding the image are not modelled; `Load` ends at the archive and member names.
- TrackerClient.ResolveMap: only ASCII digits count as decimal. Python's `str.isdecimal` also accepts other Unicode decimal digits.
- TrackerInit.FormatKey: only `{player}`, `{team}`, `{{` and `}}` are formatted. Any other replacement field, including a format spec, conversion, attribute or index on `player` or `team` (`{player:03}`, `{player!r}`), is an error in the model, where Python would format some of them. Python's error kinds are folded into two.
- Generation, the network session, the Kivy UI, file and JSON loading and the command line are outside the modelled layer.
