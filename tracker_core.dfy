/** The tracker core (worlds/tracker/TrackerCore.py): replaying the received
    items into a fresh collection state, listing the reachable outstanding
    locations, and the speculative pass that collects the world's glitches
    item to find locations reachable only with it. */
module TrackerCore {
  import opened Common
  import opened Base
  import opened TrackerInit

  // ---------------------------------------------------------------------
  // Host settings
  // ---------------------------------------------------------------------

  /** How the tracker tab reports a location: "Both", "Location" or "Region". */
  datatype ReportType = ShowBoth | ShowLocation | ShowRegion

  /** The `universal_tracker` settings group the host file provides. */
  datatype TrackerSettings = TrackerSettings(
    playerFilesPath: string,
    includeRegionName: bool,
    includeLocationName: bool,
    hideExcludedLocations: bool,
    useSplitMapIcons: bool,
    enforceDeferredEntrances: int,
    displayGlitchedLogic: bool)

  /** The tuple `_set_host_settings` returns. */
  datatype HostSettings = HostSettings(
    playerFilesPath: string,
    reportType: ReportType,
    hideExcluded: bool,
    useSplit: bool,
    deferredMode: int,
    displayGlitchedLogic: bool)

  /** Region names only when location names are off; locations only when
      region names are off; both otherwise. */
  function ReportTypeOf(includeLocationName: bool, includeRegionName: bool): (r: ReportType)
    ensures r == ShowRegion <==> !includeLocationName
    ensures r == ShowLocation <==> includeLocationName && !includeRegionName
    ensures r == ShowBoth <==> includeLocationName && includeRegionName
  {
    if includeLocationName then
      if includeRegionName then ShowBoth else ShowLocation
    else
      ShowRegion
  }

  /** `_set_host_settings`.  `DeferredEntranceMode` is not part of this model:
      `deferredModes` stands for the values its constructor accepts and
      `defaultMode` for its default.  A stored value it rejects is replaced,
      in the returned settings, by the default. */
  function SetHostSettings(settings: TrackerSettings, deferredModes: set<int>, defaultMode: int)
    : (r: (HostSettings, TrackerSettings))
    ensures r.0.reportType == ReportTypeOf(settings.includeLocationName, settings.includeRegionName)
    ensures r.0.playerFilesPath == settings.playerFilesPath
    ensures r.0.hideExcluded == settings.hideExcludedLocations
    ensures r.0.useSplit == settings.useSplitMapIcons
    ensures r.0.displayGlitchedLogic == settings.displayGlitchedLogic
    ensures settings.enforceDeferredEntrances in deferredModes ==>
              r.0.deferredMode == settings.enforceDeferredEntrances && r.1 == settings
    ensures settings.enforceDeferredEntrances !in deferredModes ==>
              r.0.deferredMode == defaultMode && r.1 == settings.(enforceDeferredEntrances := defaultMode)
  {
    var reportType := ReportTypeOf(settings.includeLocationName, settings.includeRegionName);
    var known := settings.enforceDeferredEntrances in deferredModes;
    var mode := if known then settings.enforceDeferredEntrances else defaultMode;
    var stored := if known then settings else settings.(enforceDeferredEntrances := defaultMode);
    (HostSettings(settings.playerFilesPath, reportType, settings.hideExcludedLocations,
                  settings.useSplitMapIcons, mode, settings.displayGlitchedLogic),
     stored)
  }

  // ---------------------------------------------------------------------
  // Replaying the received items
  // ---------------------------------------------------------------------

  /** One entry of the replay list: an item name with its flags, the
      location it was found at and the player who found it. */
  datatype ItemRequest = ItemRequest(name: string, flags: Classification, location: int, player: int)

  /** Why an update failed: the core reports every unknown item id; the older
      client variant fails on the first unknown id with a `KeyError`. */
  datatype UpdateError = UnknownItems(ids: seq<int>) | UnknownItemId(id: int)

  /** The received item ids missing from the world's item table, in order. */
  function UnknownItemIds(received: seq<NetworkItem>, itemIdToName: map<int, string>): (r: seq<int>)
    ensures |r| <= |received|
    ensures forall id :: id in r ==> id !in itemIdToName && exists it :: it in received && it.item == id
    ensures r == [] <==> forall it :: it in received ==> it.item in itemIdToName
    decreases |received|
  {
    if |received| == 0 then []
    else
      var n := |received| - 1;
      var prefix := UnknownItemIds(received[..n], itemIdToName);
      assert forall it :: it in received[..n] ==> it in received;
      prefix + (if received[n].item in itemIdToName then [] else [received[n].item])
  }

  /** The first unknown id is the id of the first received item that the
      table does not know. */
  lemma {:induction false} FirstUnknownItemId(received: seq<NetworkItem>, itemIdToName: map<int, string>)
    requires UnknownItemIds(received, itemIdToName) != []
    ensures exists i :: 0 <= i < |received| && received[i].item == UnknownItemIds(received, itemIdToName)[0]
                        && received[i].item !in itemIdToName
                        && forall j :: 0 <= j < i ==> received[j].item in itemIdToName
    decreases |received|
  {
    var n := |received| - 1;
    var prefix := UnknownItemIds(received[..n], itemIdToName);
    var last := if received[n].item in itemIdToName then [] else [received[n].item];
    assert UnknownItemIds(received, itemIdToName) == prefix + last;
    var i: int;
    if prefix != [] {
      FirstUnknownItemId(received[..n], itemIdToName);
      i :| 0 <= i < n && received[..n][i].item == prefix[0] && received[..n][i].item !in itemIdToName
           && forall j :: 0 <= j < i ==> received[..n][j].item in itemIdToName;
      assert received[i] == received[..n][i];
      assert forall j :: 0 <= j < i ==> received[j] == received[..n][j];
    } else {
      i := n;
      assert forall j :: 0 <= j < n ==> received[j] in received[..n];
    }
    assert received[i].item == UnknownItemIds(received, itemIdToName)[0];
  }

  /** The replay list: the received items, then the manually collected names
      as progression items found nowhere. */
  function Requests(received: seq<NetworkItem>, manualItems: seq<string>, itemIdToName: map<int, string>)
    : (r: seq<ItemRequest>)
    requires forall it :: it in received ==> it.item in itemIdToName
    ensures |r| == |received| + |manualItems|
    ensures forall i :: 0 <= i < |received| ==>
              r[i] == ItemRequest(itemIdToName[received[i].item], received[i].flags, received[i].location,
                                  received[i].player)
    ensures forall j :: 0 <= j < |manualItems| ==> r[|received| + j] == ItemRequest(manualItems[j], PROGRESSION, -1, -1)
  {
    seq(|received|, i requires 0 <= i < |received| =>
          assert received[i] in received;
          ItemRequest(itemIdToName[received[i].item], received[i].flags, received[i].location, received[i].player))
    + seq(|manualItems|, j requires 0 <= j < |manualItems| => ItemRequest(manualItems[j], PROGRESSION, -1, -1))
  }

  /** Which finders make the tracker attach the location an item was found at. */
  datatype OriginRule = AnyPlayer | OwnSlot(slot: Option<int>)

  /** The location attached to a replayed item: a positive address the world
      knows, found by a player the rule accepts. */
  function Origin(req: ItemRequest, locationIdToName: map<int, string>, rule: OriginRule): (r: Option<int>)
    ensures r.Some? ==> r.value == req.location && r.value > 0 && r.value in locationIdToName
    ensures r.None? ==> req.location <= 0 || req.location !in locationIdToName
                        || (rule.OwnSlot? && rule.slot != Some(req.player))
  {
    if req.location > 0 && (rule.AnyPlayer? || rule.slot == Some(req.player)) && req.location in locationIdToName
    then Some(req.location)
    else None
  }

  /** `get_location` succeeds on the location the origin rule attaches to a
      request, or the rule attaches none. */
  predicate OriginFound(world: World, req: ItemRequest, rule: OriginRule)
  {
    var origin := Origin(req, world.locationIdToName, rule);
    origin.None? || world.HasLocation(world.locationIdToName[origin.value])
  }

  /** The items the replay collects: each request whose name `create_item`
      accepts and whose attached location `get_location` finds, with the
      request's flags merged into its classification; the others raise
      inside the `try`, are logged and skipped. */
  function Collected(world: World, reqs: seq<ItemRequest>, rule: OriginRule): (r: seq<Item>)
    ensures |r| <= |reqs|
    decreases |reqs|
  {
    if |reqs| == 0 then []
    else
      var n := |reqs| - 1;
      var prefix := Collected(world, reqs[..n], rule);
      match world.CreateItem(reqs[n].name)
      case None => prefix
      case Some(created) =>
        if !OriginFound(world, reqs[n], rule) then prefix
        else
          prefix + [created.(classification := created.classification | reqs[n].flags,
                             origin := Origin(reqs[n], world.locationIdToName, rule))]
  }

  /** Every collected item comes from a request the item table knows and
      whose attached location was generated, with the table's code, the
      table's flags OR-ed with the request's, and the location the origin
      rule allows; requests that pass both lookups are never dropped. */
  lemma {:induction false} CollectedFromRequests(world: World, reqs: seq<ItemRequest>, rule: OriginRule)
    ensures var r := Collected(world, reqs, rule);
            && (forall it :: it in r ==>
                  exists q :: q in reqs && q.name == it.name && q.name in world.itemTable
                              && it.classification == world.itemTable[q.name].classification | q.flags
                              && it.code == world.itemTable[q.name].code
                              && it.origin == Origin(q, world.locationIdToName, rule)
                              && OriginFound(world, q, rule))
            && ((forall q :: q in reqs ==> q.name in world.itemTable && OriginFound(world, q, rule)) ==> |r| == |reqs|)
    decreases |reqs|
  {
    if |reqs| > 0 {
      var n := |reqs| - 1;
      CollectedFromRequests(world, reqs[..n], rule);
      assert forall q :: q in reqs[..n] ==> q in reqs;
      assert reqs[n] in reqs;
    }
  }

  /** Which `Counter` an item is counted in. */
  datatype TallyKind = Progression | Coded

  /** `prog_items` counts advancement items; `all_items` items with a code. */
  predicate Counted(kind: TallyKind, it: Item)
  {
    match kind
    case Progression => it.Advancement()
    case Coded => it.code.Some?
  }

  /** `counter[name] += 1` on a `Counter`. */
  function Bump(counter: map<string, nat>, name: string): map<string, nat>
  {
    counter[name := (if name in counter then counter[name] else 0) + 1]
  }

  /** The counter built while collecting `items` in order. */
  function Tally(items: seq<Item>, kind: TallyKind): map<string, nat>
    decreases |items|
  {
    if |items| == 0 then map[]
    else
      var n := |items| - 1;
      if Counted(kind, items[n]) then Bump(Tally(items[..n], kind), items[n].name)
      else Tally(items[..n], kind)
  }

  /** A counter holds no zero entry and no count above the number of items. */
  lemma {:induction false} TallyBounds(items: seq<Item>, kind: TallyKind)
    ensures forall name :: name in Tally(items, kind) ==> 0 < Tally(items, kind)[name] <= |items|
    decreases |items|
  {
    if |items| > 0 {
      TallyBounds(items[..|items| - 1], kind);
    }
  }

  /** How many of `items` are named `name` and belong to the counter. */
  function Occurrences(items: seq<Item>, kind: TallyKind, name: string): (r: nat)
    ensures r <= |items|
    ensures r > 0 ==> exists i :: 0 <= i < |items| && items[i].name == name && Counted(kind, items[i])
    decreases |items|
  {
    if |items| == 0 then 0
    else
      var rest := Occurrences(items[1..], kind, name);
      assert rest > 0 ==> exists i :: 0 < i < |items| && items[i].name == name && Counted(kind, items[i]) by {
        if rest > 0 {
          var i :| 0 <= i < |items[1..]| && items[1..][i].name == name && Counted(kind, items[1..][i]);
          assert items[i + 1] == items[1..][i];
        }
      }
      (if items[0].name == name && Counted(kind, items[0]) then 1 else 0) + rest
  }

  lemma {:induction false} OccurrencesAppend(items: seq<Item>, last: Item, kind: TallyKind, name: string)
    ensures Occurrences(items + [last], kind, name)
            == Occurrences(items, kind, name) + (if last.name == name && Counted(kind, last) then 1 else 0)
    decreases |items|
  {
    if |items| == 0 {
      assert (items + [last])[1..] == [];
    } else {
      assert (items + [last])[1..] == items[1..] + [last];
      OccurrencesAppend(items[1..], last, kind, name);
    }
  }

  /** A counter holds a name exactly when some counted item has it, and then
      holds the number of such items. */
  lemma {:induction false} TallyCountsOccurrences(items: seq<Item>, kind: TallyKind, name: string)
    ensures name in Tally(items, kind) <==> Occurrences(items, kind, name) > 0
    ensures name in Tally(items, kind) ==> Tally(items, kind)[name] == Occurrences(items, kind, name)
    ensures name in Tally(items, kind) ==>
              exists i :: 0 <= i < |items| && items[i].name == name && Counted(kind, items[i])
    decreases |items|
  {
    if |items| > 0 {
      var n := |items| - 1;
      TallyCountsOccurrences(items[..n], kind, name);
      assert items == items[..n] + [items[n]];
      OccurrencesAppend(items[..n], items[n], kind, name);
    }
  }

  lemma TallyAppend(items: seq<Item>, last: Item, kind: TallyKind)
    ensures Tally(items + [last], kind)
            == if Counted(kind, last) then Bump(Tally(items, kind), last.name) else Tally(items, kind)
  {
    assert (items + [last])[..|items|] == items;
  }

  /** One more request adds the item it creates, if the table knows it. */
  lemma CollectedStep(world: World, reqs: seq<ItemRequest>, i: nat, rule: OriginRule)
    requires i < |reqs|
    ensures var prefix := Collected(world, reqs[..i], rule);
            var created := world.CreateItem(reqs[i].name);
            Collected(world, reqs[..i + 1], rule)
            == if created.None? || !OriginFound(world, reqs[i], rule) then prefix
               else prefix + [created.value.(classification := created.value.classification | reqs[i].flags,
                                             origin := Origin(reqs[i], world.locationIdToName, rule))]
  {
    assert reqs[..i + 1][..i] == reqs[..i];
    assert reqs[..i + 1][i] == reqs[i];
  }

  /** The end of one replay `try` body: collect the item into the state and
      bump its name in the counters that admit it. */
  method CountItem(collected: seq<Item>, progItems: map<string, nat>, allItems: map<string, nat>, item: Item)
    returns (collected': seq<Item>, progItems': map<string, nat>, allItems': map<string, nat>)
    requires progItems == Tally(collected, Progression) && allItems == Tally(collected, Coded)
    ensures collected' == collected + [item]
    ensures progItems' == Tally(collected', Progression) && allItems' == Tally(collected', Coded)
  {
    TallyAppend(collected, item, Progression);
    TallyAppend(collected, item, Coded);
    collected', progItems', allItems' := collected + [item], progItems, allItems;
    if item.Advancement() {
      progItems' := Bump(progItems, item.name);
    }
    if item.code.Some? {
      allItems' := Bump(allItems, item.name);
    }
  }

  /** The item replay loop: collect every item that is created and whose
      attached location is found, and count it. */
  method ReplayItems(world: World, reqs: seq<ItemRequest>, rule: OriginRule)
    returns (collected: seq<Item>, progItems: map<string, nat>, allItems: map<string, nat>)
    ensures collected == Collected(world, reqs, rule)
    ensures progItems == Tally(collected, Progression)
    ensures allItems == Tally(collected, Coded)
  {
    collected, progItems, allItems := [], map[], map[];
    var i := 0;
    while i < |reqs|
      invariant 0 <= i <= |reqs|
      invariant collected == Collected(world, reqs[..i], rule)
      invariant progItems == Tally(collected, Progression)
      invariant allItems == Tally(collected, Coded)
    {
      var req := reqs[i];
      CollectedStep(world, reqs, i, rule);
      var created := world.CreateItem(req.name);
      if created.Some? {
        var origin := Origin(req, world.locationIdToName, rule);
        if origin.None? || world.HasLocation(world.locationIdToName[origin.value]) {
          var item := created.value.(classification := created.value.classification | req.flags, origin := origin);
          collected, progItems, allItems := CountItem(collected, progItems, allItems, item);
        }
      }
      i := i + 1;
    }
    assert reqs[..|reqs|] == reqs;
  }

  // ---------------------------------------------------------------------
  // Listing reachable locations
  // ---------------------------------------------------------------------

  /** What the listing loops read from the tracker's settings. */
  datatype ScanConfig = ScanConfig(
    hideExcluded: bool,
    ignored: set<int>,
    missing: set<int>,
    hints: seq<int>,
    aliases: map<int, string>,
    format: ReportType,
    showGlitched: bool)

  /** The loop over the base reachable locations, or the loop over those
      reachable once the glitches item is collected. */
  datatype Pass = InLogicPass | GlitchPass

  /** The lists the two loops build: `callback_list` (names) and `locations`
      (addresses) of the in-logic locations, the de-duplicated `regions`, the
      display lines, the hinted locations and the glitched locations. */
  datatype Listing = Listing(
    callback: seq<string>,
    addresses: seq<int>,
    regions: seq<string>,
    readable: seq<string>,
    hinted: seq<Location>,
    glitched: seq<Location>)

  const EmptyListing := Listing([], [], [], [], [], [])

  /** The `continue` guards both loops share: a scalar address, not hidden as
      excluded, not ignored. */
  predicate Listable(loc: Location, cfg: ScanConfig)
  {
    loc.address.At? && !(cfg.hideExcluded && loc.excluded) && loc.address.id !in cfg.ignored
  }

  /** A location a loop lists: listable, outstanding, and for the glitch
      loop not already in logic. */
  predicate Admitted(loc: Location, cfg: ScanConfig, pass: Pass, inLogic: seq<int>)
  {
    Listable(loc, cfg) && loc.address.id in cfg.missing
    && (pass == GlitchPass ==> loc.address.id !in inLogic)
  }

  /** The parent region's name, or "" for a location without one. */
  function RegionName(loc: Location): string
  {
    if loc.parentRegion.Some? then loc.parentRegion.value else ""
  }

  /** The location's name followed by its alias in parentheses, if any. */
  function DisplayName(loc: Location, aliases: map<int, string>): string
  {
    if loc.address.At? && loc.address.id in aliases then loc.name + " (" + aliases[loc.address.id] + ")"
    else loc.name
  }

  /** Every list of `acc` is a prefix of the same list of `r`. */
  predicate Extends(acc: Listing, r: Listing)
  {
    && acc.callback <= r.callback && acc.addresses <= r.addresses && acc.regions <= r.regions
    && acc.readable <= r.readable && acc.hinted <= r.hinted && acc.glitched <= r.glitched
  }

  /** One iteration of either listing loop. */
  function Step(acc: Listing, loc: Location, cfg: ScanConfig, pass: Pass): Listing
  {
    if !Admitted(loc, cfg, pass, acc.addresses) then acc
    else
      var region := RegionName(loc);
      var name := DisplayName(loc, cfg.aliases);
      var shown := pass == InLogicPass || cfg.showGlitched;
      var line := if !shown then []
                  else if cfg.format == ShowBoth then [region + " | " + name]
                  else if cfg.format == ShowLocation then [name]
                  else [];
      var hinted := shown && cfg.format != ShowRegion && !loc.excluded && loc.address.id in cfg.hints;
      var newRegion := region !in acc.regions;
      Listing(
        if pass == InLogicPass then acc.callback + [loc.name] else acc.callback,
        if pass == InLogicPass then acc.addresses + [loc.address.id] else acc.addresses,
        if newRegion then acc.regions + [region] else acc.regions,
        acc.readable + line + (if newRegion && shown && cfg.format == ShowRegion then [region] else []),
        acc.hinted + (if hinted then [loc] else []),
        if pass == GlitchPass then acc.glitched + [loc] else acc.glitched)
  }

  /** The listing after a loop has visited `locs` in order, from `start`. */
  function Scan(start: Listing, locs: seq<Location>, cfg: ScanConfig, pass: Pass): Listing
    decreases |locs|
  {
    if |locs| == 0 then start
    else Step(Scan(start, locs[..|locs| - 1], cfg, pass), locs[|locs| - 1], cfg, pass)
  }

  /** A location the guards skip changes nothing; an admitted one only
      appends, at most one name and one glitched location. */
  lemma StepExtends(acc: Listing, loc: Location, cfg: ScanConfig, pass: Pass)
    ensures var r := Step(acc, loc, cfg, pass);
            && (!Admitted(loc, cfg, pass, acc.addresses) ==> r == acc)
            && Extends(acc, r)
            && |r.callback| <= |acc.callback| + 1 && |r.glitched| <= |acc.glitched| + 1
  {
  }

  /** A loop only appends to the lists it starts from, at most one name and
      one glitched location per visited location. */
  lemma {:induction false} ScanExtends(start: Listing, locs: seq<Location>, cfg: ScanConfig, pass: Pass)
    ensures var r := Scan(start, locs, cfg, pass);
            && Extends(start, r)
            && |r.callback| <= |start.callback| + |locs| && |r.glitched| <= |start.glitched| + |locs|
    decreases |locs|
  {
    if |locs| > 0 {
      var n := |locs| - 1;
      ScanExtends(start, locs[..n], cfg, pass);
      StepExtends(Scan(start, locs[..n], cfg, pass), locs[n], cfg, pass);
    }
  }

  /** A listing loop over the reachable locations. */
  method ScanLocations(start: Listing, locs: seq<Location>, cfg: ScanConfig, pass: Pass)
    returns (r: Listing)
    ensures r == Scan(start, locs, cfg, pass)
  {
    r := start;
    var i := 0;
    while i < |locs|
      invariant 0 <= i <= |locs|
      invariant r == Scan(start, locs[..i], cfg, pass)
    {
      assert locs[..i + 1][..i] == locs[..i];
      r := Step(r, locs[i], cfg, pass);
      i := i + 1;
    }
    assert locs[..|locs|] == locs;
  }

  /** The admitted locations, in visiting order: the reference definition the
      loops are checked against. */
  function Selection(locs: seq<Location>, cfg: ScanConfig, pass: Pass, inLogic: seq<int>): (r: seq<Location>)
    ensures |r| <= |locs|
    decreases |locs|
  {
    if |locs| == 0 then []
    else
      var n := |locs| - 1;
      Selection(locs[..n], cfg, pass, inLogic) + (if Admitted(locs[n], cfg, pass, inLogic) then [locs[n]] else [])
  }

  /** The selection holds exactly the admitted locations. */
  lemma {:induction false} SelectionMembers(locs: seq<Location>, cfg: ScanConfig, pass: Pass, inLogic: seq<int>)
    ensures forall l :: l in Selection(locs, cfg, pass, inLogic) <==> l in locs && Admitted(l, cfg, pass, inLogic)
    decreases |locs|
  {
    if |locs| > 0 {
      var n := |locs| - 1;
      SelectionMembers(locs[..n], cfg, pass, inLogic);
      assert locs == locs[..n] + [locs[n]];
    }
  }

  /** The scalar address of a location, 0 for the others. */
  function IdOf(loc: Location): int
  {
    match loc.address
    case At(id) => id
    case _ => 0
  }

  function NamesOf(locs: seq<Location>): (r: seq<string>)
    ensures |r| == |locs|
    ensures forall k :: 0 <= k < |locs| ==> r[k] == locs[k].name
    decreases |locs|
  {
    if |locs| == 0 then [] else NamesOf(locs[..|locs| - 1]) + [locs[|locs| - 1].name]
  }

  function AddressesOf(locs: seq<Location>): (r: seq<int>)
    ensures |r| == |locs|
    ensures forall k :: 0 <= k < |locs| ==> r[k] == IdOf(locs[k])
    decreases |locs|
  {
    if |locs| == 0 then [] else AddressesOf(locs[..|locs| - 1]) + [IdOf(locs[|locs| - 1])]
  }

  function RegionsOf(locs: seq<Location>): (r: seq<string>)
    ensures |r| == |locs|
    ensures forall k :: 0 <= k < |locs| ==> r[k] == RegionName(locs[k])
    decreases |locs|
  {
    if |locs| == 0 then [] else RegionsOf(locs[..|locs| - 1]) + [RegionName(locs[|locs| - 1])]
  }

  lemma NamesOfAppend(locs: seq<Location>, loc: Location)
    ensures NamesOf(locs + [loc]) == NamesOf(locs) + [loc.name]
  {
    assert (locs + [loc])[..|locs|] == locs;
  }

  lemma AddressesOfAppend(locs: seq<Location>, loc: Location)
    ensures AddressesOf(locs + [loc]) == AddressesOf(locs) + [IdOf(loc)]
  {
    assert (locs + [loc])[..|locs|] == locs;
  }

  lemma RegionsOfAppend(locs: seq<Location>, loc: Location)
    ensures RegionsOf(locs + [loc]) == RegionsOf(locs) + [RegionName(loc)]
  {
    assert (locs + [loc])[..|locs|] == locs;
  }

  /** One in-logic step appends the location's name and address exactly
      when it is admitted; the in-logic test does not read the addresses
      collected so far. */
  lemma InLogicStep(acc: Listing, loc: Location, cfg: ScanConfig, inLogic: seq<int>)
    ensures var r := Step(acc, loc, cfg, InLogicPass);
            var admitted := Admitted(loc, cfg, InLogicPass, inLogic);
            && r.callback == acc.callback + (if admitted then [loc.name] else [])
            && r.addresses == acc.addresses + (if admitted then [IdOf(loc)] else [])
            && r.glitched == acc.glitched
  {
  }

  /** The in-logic loop appends exactly the names of the admitted locations. */
  lemma {:induction false} InLogicScanNames(start: Listing, locs: seq<Location>, cfg: ScanConfig)
    ensures Scan(start, locs, cfg, InLogicPass).callback
            == start.callback + NamesOf(Selection(locs, cfg, InLogicPass, start.addresses))
    decreases |locs|
  {
    if |locs| > 0 {
      var n := |locs| - 1;
      var loc := locs[n];
      var prior := Selection(locs[..n], cfg, InLogicPass, start.addresses);
      var before := Scan(start, locs[..n], cfg, InLogicPass).callback;
      InLogicScanNames(start, locs[..n], cfg);
      InLogicStep(Scan(start, locs[..n], cfg, InLogicPass), loc, cfg, start.addresses);
      if Admitted(loc, cfg, InLogicPass, start.addresses) {
        NamesOfAppend(prior, loc);
        assert before + [loc.name] == start.callback + NamesOf(prior + [loc]);
      }
    }
  }

  /** The in-logic loop lists nothing as glitched. */
  lemma {:induction false} InLogicScanKeepsGlitched(start: Listing, locs: seq<Location>, cfg: ScanConfig)
    ensures Scan(start, locs, cfg, InLogicPass).glitched == start.glitched
    decreases |locs|
  {
    if |locs| > 0 {
      InLogicScanKeepsGlitched(start, locs[..|locs| - 1], cfg);
    }
  }

  /** The in-logic loop appends exactly the addresses of the admitted
      locations. */
  lemma {:induction false} InLogicScanAddresses(start: Listing, locs: seq<Location>, cfg: ScanConfig)
    ensures Scan(start, locs, cfg, InLogicPass).addresses
            == start.addresses + AddressesOf(Selection(locs, cfg, InLogicPass, start.addresses))
    decreases |locs|
  {
    if |locs| > 0 {
      var n := |locs| - 1;
      var loc := locs[n];
      var prior := Selection(locs[..n], cfg, InLogicPass, start.addresses);
      var before := Scan(start, locs[..n], cfg, InLogicPass).addresses;
      InLogicScanAddresses(start, locs[..n], cfg);
      InLogicStep(Scan(start, locs[..n], cfg, InLogicPass), loc, cfg, start.addresses);
      if Admitted(loc, cfg, InLogicPass, start.addresses) {
        AddressesOfAppend(prior, loc);
        assert before + [IdOf(loc)] == start.addresses + AddressesOf(prior + [loc]);
      }
    }
  }

  /** The in-logic loop appends exactly the names and addresses of the
      admitted locations, and lists nothing as glitched. */
  lemma InLogicScanLists(start: Listing, locs: seq<Location>, cfg: ScanConfig)
    ensures var r := Scan(start, locs, cfg, InLogicPass);
            var chosen := Selection(locs, cfg, InLogicPass, start.addresses);
            && r.callback == start.callback + NamesOf(chosen)
            && r.addresses == start.addresses + AddressesOf(chosen)
            && r.glitched == start.glitched
  {
    InLogicScanNames(start, locs, cfg);
    InLogicScanAddresses(start, locs, cfg);
    InLogicScanKeepsGlitched(start, locs, cfg);
  }

  /** The glitch loop appends exactly the admitted locations to the glitched
      list and leaves the in-logic lists alone. */
  lemma {:induction false} GlitchScanLists(start: Listing, locs: seq<Location>, cfg: ScanConfig)
    ensures var r := Scan(start, locs, cfg, GlitchPass);
            && r.callback == start.callback
            && r.addresses == start.addresses
            && r.glitched == start.glitched + Selection(locs, cfg, GlitchPass, start.addresses)
    decreases |locs|
  {
    if |locs| > 0 {
      GlitchScanLists(start, locs[..|locs| - 1], cfg);
    }
  }

  /** The glitch loop leaves the in-logic address list, which its own
      admission test reads, as it found it. */
  lemma ScanAddressesFixed(start: Listing, locs: seq<Location>, cfg: ScanConfig, pass: Pass)
    ensures pass == GlitchPass ==> Scan(start, locs, cfg, pass).addresses == start.addresses
  {
    if pass == GlitchPass {
      GlitchScanLists(start, locs, cfg);
    }
  }

  /** An address is in the in-logic list exactly when a reachable location
      has it as its scalar address, is not hidden as excluded, is not
      ignored, and is still missing. */
  lemma InLogicAddressesExactly(locs: seq<Location>, cfg: ScanConfig, a: int)
    ensures a in Scan(EmptyListing, locs, cfg, InLogicPass).addresses <==>
            exists l :: l in locs && l.address == At(a) && !(cfg.hideExcluded && l.excluded)
                        && a !in cfg.ignored && a in cfg.missing
  {
    InLogicScanLists(EmptyListing, locs, cfg);
    SelectionMembers(locs, cfg, InLogicPass, []);
    var chosen := Selection(locs, cfg, InLogicPass, []);
    var addrs := AddressesOf(chosen);
    assert Scan(EmptyListing, locs, cfg, InLogicPass).addresses == [] + addrs;
    if a in addrs {
      var k :| 0 <= k < |addrs| && addrs[k] == a;
      assert chosen[k] in chosen;
    }
    if exists l :: l in locs && l.address == At(a) && !(cfg.hideExcluded && l.excluded)
                   && a !in cfg.ignored && a in cfg.missing {
      var l :| l in locs && l.address == At(a) && !(cfg.hideExcluded && l.excluded)
               && a !in cfg.ignored && a in cfg.missing;
      assert l in chosen;
      var k :| 0 <= k < |chosen| && chosen[k] == l;
      assert addrs[k] == a;
    }
  }

  /** From an empty listing the in-logic loop's lists are exactly the
      selection's names and addresses. */
  lemma InLogicScanFromEmpty(locs: seq<Location>, cfg: ScanConfig)
    ensures var r := Scan(EmptyListing, locs, cfg, InLogicPass);
            var chosen := Selection(locs, cfg, InLogicPass, []);
            r.callback == NamesOf(chosen) && r.addresses == AddressesOf(chosen)
  {
    var chosen := Selection(locs, cfg, InLogicPass, []);
    InLogicScanNames(EmptyListing, locs, cfg);
    InLogicScanAddresses(EmptyListing, locs, cfg);
    assert [] + NamesOf(chosen) == NamesOf(chosen);
    assert [] + AddressesOf(chosen) == AddressesOf(chosen);
  }

  /** `callback_list` and `locations` are appended together: both are as
      long as the selection, and entry `k` of each is the name and the
      address of the selection's `k`-th location, a reachable location that
      is admitted. */
  lemma InLogicListsAligned(locs: seq<Location>, cfg: ScanConfig)
    ensures var r := Scan(EmptyListing, locs, cfg, InLogicPass);
            var chosen := Selection(locs, cfg, InLogicPass, []);
            && |r.callback| == |chosen| && |r.addresses| == |chosen|
            && forall k :: 0 <= k < |chosen| ==>
                 chosen[k] in locs && Admitted(chosen[k], cfg, InLogicPass, [])
                 && r.callback[k] == chosen[k].name && chosen[k].address == At(r.addresses[k])
  {
    var chosen := Selection(locs, cfg, InLogicPass, []);
    InLogicScanFromEmpty(locs, cfg);
    SelectionMembers(locs, cfg, InLogicPass, []);
    forall k | 0 <= k < |chosen|
      ensures chosen[k] in locs && Admitted(chosen[k], cfg, InLogicPass, [])
    {
      assert chosen[k] in chosen;
    }
  }

  /** One step adds the location's region when it is admitted and new. */
  lemma StepRegions(acc: Listing, loc: Location, cfg: ScanConfig, pass: Pass)
    ensures Step(acc, loc, cfg, pass).regions
            == acc.regions + (if Admitted(loc, cfg, pass, acc.addresses) && RegionName(loc) !in acc.regions
                              then [RegionName(loc)] else [])
  {
  }

  /** The region list never holds a name twice and keeps what it held. */
  lemma {:induction false} ScanRegionsDistinct(start: Listing, locs: seq<Location>, cfg: ScanConfig, pass: Pass)
    requires NoDup(start.regions)
    ensures var r := Scan(start, locs, cfg, pass);
            && NoDup(r.regions)
            && |start.regions| <= |r.regions| && r.regions[..|start.regions|] == start.regions
    decreases |locs|
  {
    if |locs| > 0 {
      var n := |locs| - 1;
      ScanRegionsDistinct(start, locs[..n], cfg, pass);
      var acc := Scan(start, locs[..n], cfg, pass);
      StepRegions(acc, locs[n], cfg, pass);
      var r := Step(acc, locs[n], cfg, pass);
      if r.regions != acc.regions {
        assert r.regions[..|acc.regions|] == acc.regions;
        assert r.regions[..|start.regions|] == acc.regions[..|start.regions|];
      }
    }
  }

  /** The region list gains exactly the regions of the admitted locations. */
  lemma {:induction false} ScanRegions(start: Listing, locs: seq<Location>, cfg: ScanConfig, pass: Pass)
    ensures forall g :: g in Scan(start, locs, cfg, pass).regions <==>
              g in start.regions || g in RegionsOf(Selection(locs, cfg, pass, start.addresses))
    decreases |locs|
  {
    if |locs| > 0 {
      var n := |locs| - 1;
      ScanRegions(start, locs[..n], cfg, pass);
      ScanAddressesFixed(start, locs[..n], cfg, pass);
      var acc := Scan(start, locs[..n], cfg, pass);
      StepRegions(acc, locs[n], cfg, pass);
      var prior := Selection(locs[..n], cfg, pass, start.addresses);
      assert Scan(start, locs, cfg, pass) == Step(acc, locs[n], cfg, pass);
      if Admitted(locs[n], cfg, pass, start.addresses) {
        assert Selection(locs, cfg, pass, start.addresses) == prior + [locs[n]];
        RegionsOfAppend(prior, locs[n]);
        assert Admitted(locs[n], cfg, pass, acc.addresses);
        assert forall g :: g in RegionsOf(prior + [locs[n]]) <==> g in RegionsOf(prior) || g == RegionName(locs[n]);
      } else {
        assert Selection(locs, cfg, pass, start.addresses) == prior;
        assert !Admitted(locs[n], cfg, pass, acc.addresses);
      }
    }
  }

  /** Each admitted location's region is in the region list. */
  lemma AdmittedRegionListed(locs: seq<Location>, cfg: ScanConfig, pass: Pass, start: Listing, l: Location)
    requires l in locs && Admitted(l, cfg, pass, start.addresses)
    ensures RegionName(l) in Scan(start, locs, cfg, pass).regions
  {
    ScanRegions(start, locs, cfg, pass);
    SelectionMembers(locs, cfg, pass, start.addresses);
    var chosen := Selection(locs, cfg, pass, start.addresses);
    var k :| 0 <= k < |chosen| && chosen[k] == l;
    assert RegionsOf(chosen)[k] == RegionName(l);
  }

  /** Every location the glitch loop lists has a scalar address that the
      in-logic list does not hold, is outstanding and is not ignored. */
  lemma GlitchedNeverInLogic(base: Listing, locs: seq<Location>, cfg: ScanConfig)
    ensures var r := Scan(base, locs, cfg, GlitchPass);
            && r.addresses == base.addresses
            && |base.glitched| <= |r.glitched|
            && forall l :: l in r.glitched[|base.glitched|..] ==>
                 l in locs && l.address.At? && l.address.id !in base.addresses
                 && l.address.id in cfg.missing && l.address.id !in cfg.ignored
  {
    GlitchScanLists(base, locs, cfg);
    SelectionMembers(locs, cfg, GlitchPass, base.addresses);
    var r := Scan(base, locs, cfg, GlitchPass);
    assert r.glitched[|base.glitched|..] == Selection(locs, cfg, GlitchPass, base.addresses);
  }

  /** Whether glitched locations are displayed changes only the display
      lines and hinted list: the glitched list and the regions are the same
      either way, and with display off nothing is displayed. */
  lemma {:induction false} GlitchDisplayOnlyGated(start: Listing, locs: seq<Location>, cfg: ScanConfig)
    ensures var on := Scan(start, locs, cfg.(showGlitched := true), GlitchPass);
            var off := Scan(start, locs, cfg.(showGlitched := false), GlitchPass);
            && on.glitched == off.glitched && on.regions == off.regions
            && on.addresses == off.addresses && on.callback == off.callback
            && off.readable == start.readable && off.hinted == start.hinted
    decreases |locs|
  {
    if |locs| > 0 {
      GlitchDisplayOnlyGated(start, locs[..|locs| - 1], cfg);
    }
  }

  /** A location enters the hinted list only when it is listed, not
      excluded, hinted, and the report names locations. */
  lemma {:induction false} ScanHinted(start: Listing, locs: seq<Location>, cfg: ScanConfig, pass: Pass)
    ensures var r := Scan(start, locs, cfg, pass);
            && |start.hinted| <= |r.hinted| && r.hinted[..|start.hinted|] == start.hinted
            && forall l :: l in r.hinted[|start.hinted|..] ==>
                 l in locs && Admitted(l, cfg, pass, start.addresses) && !l.excluded
                 && l.address.id in cfg.hints && cfg.format != ShowRegion
    decreases |locs|
  {
    if |locs| > 0 {
      var n := |locs| - 1;
      ScanHinted(start, locs[..n], cfg, pass);
      ScanAddressesFixed(start, locs[..n], cfg, pass);
      var acc := Scan(start, locs[..n], cfg, pass);
      assert Admitted(locs[n], cfg, pass, acc.addresses) == Admitted(locs[n], cfg, pass, start.addresses);
      var r := Step(acc, locs[n], cfg, pass);
      assert acc.hinted[..|start.hinted|] == start.hinted;
      if r.hinted != acc.hinted {
        assert r.hinted == acc.hinted + [locs[n]];
        assert r.hinted[..|acc.hinted|] == acc.hinted;
        assert r.hinted[|start.hinted|..] == acc.hinted[|start.hinted|..] + [locs[n]];
      }
    }
  }

  /** In "Region" mode the display lines are exactly the newly listed
      regions, in order. */
  lemma {:induction false} RegionModeListsRegions(start: Listing, locs: seq<Location>, cfg: ScanConfig, pass: Pass)
    requires cfg.format == ShowRegion && (pass == InLogicPass || cfg.showGlitched)
    ensures var r := Scan(start, locs, cfg, pass);
            && |start.regions| <= |r.regions|
            && r.readable == start.readable + r.regions[|start.regions|..]
    decreases |locs|
  {
    if |locs| > 0 {
      var n := |locs| - 1;
      RegionModeListsRegions(start, locs[..n], cfg, pass);
      var acc := Scan(start, locs[..n], cfg, pass);
      var r := Step(acc, locs[n], cfg, pass);
      if r.regions != acc.regions {
        assert r.regions[|start.regions|..] == acc.regions[|start.regions|..] + [RegionName(locs[n])];
      }
    }
  }

  // ---------------------------------------------------------------------
  // The tracker
  // ---------------------------------------------------------------------

  /** The world's glitches item, when it names one that `create_item` builds. */
  function GlitchItem(world: World): (r: Option<Item>)
    ensures r.Some? <==> world.glitchesItemName != "" && world.glitchesItemName in world.itemTable
  {
    if world.glitchesItemName != "" then world.CreateItem(world.glitchesItemName) else None
  }

  /** One complete update over a bound world: the items collected by the
      replay, the in-logic listing, the state after the glitches item (if
      any) was collected, and the listing after the glitch loop. */
  datatype Run = Run(collected: seq<Item>, base: Listing, state: seq<Item>, listing: Listing)

  function RunTracker(world: World, partial: bool, reqs: seq<ItemRequest>, rule: OriginRule, cfg: ScanConfig): (r: Run)
    ensures r.collected == Collected(world, reqs, rule)
    ensures r.base == Scan(EmptyListing, world.reachableLocations(partial, r.collected), cfg, InLogicPass)
    ensures GlitchItem(world).None? ==> r.state == r.collected && r.listing == r.base
    ensures GlitchItem(world).Some? ==>
              r.state == r.collected + [GlitchItem(world).value]
              && r.listing == Scan(r.base, world.reachableLocations(partial, r.state), cfg, GlitchPass)
  {
    var collected := Collected(world, reqs, rule);
    var base := Scan(EmptyListing, world.reachableLocations(partial, collected), cfg, InLogicPass);
    match GlitchItem(world)
    case None => Run(collected, base, collected, base)
    case Some(glitch) =>
      var state := collected + [glitch];
      Run(collected, base, state, Scan(base, world.reachableLocations(partial, state), cfg, GlitchPass))
  }

  /** Over a whole update: the glitch loop leaves the in-logic lists as the
      first loop built them, nothing is both in logic and glitched, nothing
      ignored is listed, and the glitched list is empty when the world has
      no creatable glitches item. */
  lemma RunSeparatesLogicAndGlitches(world: World, partial: bool, reqs: seq<ItemRequest>, rule: OriginRule, cfg: ScanConfig)
    ensures var r := RunTracker(world, partial, reqs, rule, cfg);
            && r.listing.callback == r.base.callback && r.listing.addresses == r.base.addresses
            && (GlitchItem(world).None? ==> r.listing.glitched == [])
            && (forall l :: l in r.listing.glitched ==>
                  l.address.At? && l.address.id !in r.base.addresses && l.address.id !in cfg.ignored)
            && (forall a :: a in r.base.addresses ==> a !in cfg.ignored && a in cfg.missing)
  {
    var r := RunTracker(world, partial, reqs, rule, cfg);
    InLogicScanLists(EmptyListing, world.reachableLocations(partial, r.collected), cfg);
    SelectionMembers(world.reachableLocations(partial, r.collected), cfg, InLogicPass, []);
    var chosen := Selection(world.reachableLocations(partial, r.collected), cfg, InLogicPass, []);
    assert r.base.glitched == [];
    forall a | a in r.base.addresses
      ensures a !in cfg.ignored && a in cfg.missing
    {
      assert r.base.addresses == [] + AddressesOf(chosen);
      var k :| 0 <= k < |chosen| && AddressesOf(chosen)[k] == a;
      assert chosen[k] in chosen;
    }
    if GlitchItem(world).Some? {
      GlitchedNeverInLogic(r.base, world.reachableLocations(partial, r.state), cfg);
      GlitchScanLists(r.base, world.reachableLocations(partial, r.state), cfg);
      assert r.listing.glitched[|r.base.glitched|..] == r.listing.glitched;
    }
  }

  /** The body of `updateTracker` once the items are known: replay the
      requests, list the in-logic locations, and run the glitch pass when
      the world has a glitches item. */
  method ComputeUpdate(world: World, partial: bool, reqs: seq<ItemRequest>, rule: OriginRule, cfg: ScanConfig)
    returns (available: seq<int>, glitched: seq<string>, snapshot: CurrentTrackerState)
    ensures var run := RunTracker(world, partial, reqs, rule, cfg);
            && available == run.base.addresses
            && glitched == NamesOf(run.listing.glitched)
            && snapshot == CurrentTrackerState(
                 Tally(run.collected, Coded), Tally(run.collected, Progression), glitched,
                 world.advancementEvents(partial, run.collected), run.listing.callback, run.listing.regions,
                 world.unconnectedExits(partial, run.collected), run.listing.readable, run.listing.hinted,
                 CollectionState(run.state, partial))
  {
    var collected, progItems, allItems := ReplayItems(world, reqs, rule);
    var listing := ScanLocations(EmptyListing, world.reachableLocations(partial, collected), cfg, InLogicPass);
    var events := world.advancementEvents(partial, collected);
    var unconnected := world.unconnectedExits(partial, collected);
    available := listing.addresses;
    var state := collected;
    var glitch := GlitchItem(world);
    if glitch.Some? {
      state := state + [glitch.value];
      listing := ScanLocations(listing, world.reachableLocations(partial, state), cfg, GlitchPass);
    }
    glitched := NamesOf(listing.glitched);
    snapshot := CurrentTrackerState(allItems, progItems, glitched, events, listing.callback,
                                    listing.regions, unconnected, listing.readable, listing.hinted,
                                    CollectionState(state, partial));
  }

  class TrackerCore {
    var playerId: Option<int>
    var multiworld: Option<World>
    var game: Option<string>
    var slot: Option<int>
    var slotName: Option<string>
    var team: Option<int>
    var trackerItemsReceived: seq<NetworkItem>
    var manualItems: seq<string>
    var ignoredLocations: set<int>
    var missingLocations: set<int>
    var hints: seq<int>
    var locationAliasMap: map<int, string>
    var outputFormat: ReportType
    var hideExcluded: bool
    var useSplit: bool
    var enforceDeferredConnections: int
    var enableGlitchedLogic: bool
    var locationsAvailable: seq<int>
    var glitchedLocations: seq<string>

    /** A tracker with no world bound.  `defaultMode` is the default
        deferred-entrance mode. */
    constructor (defaultMode: int)
      ensures playerId.None? && multiworld.None? && game.None? && slot.None?
      ensures slotName.None? && team.None?
      ensures trackerItemsReceived == [] && manualItems == [] && hints == []
      ensures ignoredLocations == {} && missingLocations == {} && locationAliasMap == map[]
      ensures locationsAvailable == [] && glitchedLocations == []
      ensures enableGlitchedLogic && enforceDeferredConnections == defaultMode
    {
      playerId, multiworld, game, slot, slotName, team := None, None, None, None, None, None;
      trackerItemsReceived, manualItems, hints := [], [], [];
      ignoredLocations, missingLocations, locationAliasMap := {}, {}, map[];
      outputFormat, hideExcluded, useSplit := ShowBoth, false, false;
      enforceDeferredConnections, enableGlitchedLogic := defaultMode, true;
      locationsAvailable, glitchedLocations := [], [];
    }

    method SetMissingLocations(missing: set<int>)
      modifies this`missingLocations
      ensures missingLocations == missing
    {
      missingLocations := missing;
    }

    method SetItemsReceived(items: seq<NetworkItem>)
      modifies this`trackerItemsReceived
      ensures trackerItemsReceived == items
    {
      trackerItemsReceived := items;
    }

    method SetHints(hinted: seq<int>)
      modifies this`hints
      ensures hints == hinted
    {
      hints := hinted;
    }

    method SetSlotParams(game: Option<string>, slot: Option<int>, slotName: Option<string>, team: Option<int>)
      modifies this`game, this`slot, this`slotName, this`team
      ensures this.game == game && this.slot == slot && this.slotName == slotName && this.team == team
    {
      this.game, this.slot, this.slotName, this.team := game, slot, slotName, team;
    }

    /** The generator run's first step: read the host settings into the
        tracker; returns the players folder and the settings as stored back. */
    method LoadHostSettings(settings: TrackerSettings, deferredModes: set<int>, defaultMode: int)
      returns (playerFilesPath: string, stored: TrackerSettings)
      modifies this`outputFormat, this`hideExcluded, this`useSplit, this`enforceDeferredConnections,
               this`enableGlitchedLogic
      ensures var (host, kept) := SetHostSettings(settings, deferredModes, defaultMode);
              && playerFilesPath == host.playerFilesPath && stored == kept
              && outputFormat == host.reportType && hideExcluded == host.hideExcluded
              && useSplit == host.useSplit && enforceDeferredConnections == host.deferredMode
              && enableGlitchedLogic == host.displayGlitchedLogic
    {
      var (host, kept) := SetHostSettings(settings, deferredModes, defaultMode);
      playerFilesPath, stored := host.playerFilesPath, kept;
      outputFormat, hideExcluded, useSplit := host.reportType, host.hideExcluded, host.useSplit;
      enforceDeferredConnections, enableGlitchedLogic := host.deferredMode, host.displayGlitchedLogic;
    }

    /** The settings the listing loops read. */
    function ScanSettings(): ScanConfig
      reads this
    {
      ScanConfig(hideExcluded, ignoredLocations, missingLocations, hints, locationAliasMap,
                 outputFormat, enableGlitchedLogic)
    }

    /** `updateTracker`: rebuild the collection state from the received and
        manual items, list the in-logic locations, then, when the world has a
        glitches item, collect it into the same state and list the locations
        reachable only with it.  The state allows partial entrances unless
        the deferred-entrance mode is `disabledMode`, the enum's `disabled`. */
    method UpdateTracker(disabledMode: int) returns (r: Result<CurrentTrackerState, UpdateError>)
      modifies this`locationsAvailable, this`glitchedLocations
      ensures playerId.None? || multiworld.None? ==>
                r == Success(EmptyTrackerState) && unchanged(this)
      ensures playerId.Some? && multiworld.Some?
              && UnknownItemIds(trackerItemsReceived, multiworld.value.itemIdToName) != [] ==>
                r == Failure(UnknownItems(UnknownItemIds(trackerItemsReceived, multiworld.value.itemIdToName)))
                && unchanged(this)
      ensures playerId.Some? && multiworld.Some?
              && UnknownItemIds(trackerItemsReceived, multiworld.value.itemIdToName) == [] ==>
                var world := multiworld.value;
                var partial := enforceDeferredConnections != disabledMode;
                var run := RunTracker(world, partial, Requests(trackerItemsReceived, manualItems, world.itemIdToName),
                                      OwnSlot(slot), ScanSettings());
                && locationsAvailable == run.base.addresses
                && glitchedLocations == NamesOf(run.listing.glitched)
                && r == Success(CurrentTrackerState(
                          Tally(run.collected, Coded), Tally(run.collected, Progression), glitchedLocations,
                          world.advancementEvents(partial, run.collected), run.listing.callback, run.listing.regions,
                          world.unconnectedExits(partial, run.collected), run.listing.readable, run.listing.hinted,
                          CollectionState(run.state, partial)))
    {
      if playerId.None? || multiworld.None? {
        return Success(EmptyTrackerState);
      }
      var world := multiworld.value;
      var invalid := UnknownItemIds(trackerItemsReceived, world.itemIdToName);
      if invalid != [] {
        return Failure(UnknownItems(invalid));
      }
      var partial := enforceDeferredConnections != disabledMode;
      var reqs := Requests(trackerItemsReceived, manualItems, world.itemIdToName);
      var available, glitched, snapshot := ComputeUpdate(world, partial, reqs, OwnSlot(slot), ScanSettings());
      locationsAvailable, glitchedLocations := available, glitched;
      r := Success(snapshot);
    }
  }
}
