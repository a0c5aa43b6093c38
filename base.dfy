/** The part of the Archipelago core (BaseClasses, NetUtils) that the tracker
    reads.  The reachability engine is not modelled: a generated world carries
    it as three functions of the items collected so far, standing for
    `sweep_for_advancements` followed by `get_reachable_locations`,
    `state.advancements` and the reachable exits of `state.reachable_regions`. */
module Base {
  import opened Common

  /** `ItemClassification` flags (progression = 1, useful = 2, trap = 4, ...). */
  type Classification = bv8

  const PROGRESSION: Classification := 1

  /** A received item record as the server sends it. */
  datatype NetworkItem = NetworkItem(item: int, location: int, player: int, flags: Classification)

  /** What `create_item` builds for a known item name. */
  datatype ItemTemplate = ItemTemplate(classification: Classification, code: Option<int>)

  /** An item handed to `CollectionState.collect`; `origin` is the address of
      the location it was found at, when the tracker attached one. */
  datatype Item = Item(name: string, classification: Classification, code: Option<int>, origin: Option<int>)
  {
    /** `Item.advancement`: the progression flag is set. */
    predicate Advancement()
    {
      classification & PROGRESSION != 0
    }
  }

  /** A location's `address`: `None` for an event, a scalar id, or a list. */
  datatype Address = NoAddress | At(id: int) | Several(ids: seq<int>)

  datatype Location = Location(name: string, address: Address, parentRegion: Option<string>, excluded: bool)

  /** The collection state handed back to callers: every item collected into
      it, in collection order (the event items the sweep adds are part of the
      reachability functions below), and the `allow_partial_entrances` flag
      it was built with. */
  datatype CollectionState = CollectionState(collected: seq<Item>, partialEntrances: bool)

  /** One player's generated world, as far as the tracker uses it.  The id
      tables belong to the game, `generatedLocations` names the locations
      this multiworld actually holds for the player.  Each reachability
      function takes the state's `allow_partial_entrances` flag and the items
      collected so far. */
  datatype World = World(
    itemIdToName: map<int, string>,
    locationIdToName: map<int, string>,
    generatedLocations: set<string>,
    itemTable: map<string, ItemTemplate>,
    glitchesItemName: string,
    reachableLocations: (bool, seq<Item>) -> seq<Location>,
    advancementEvents: (bool, seq<Item>) -> seq<string>,
    unconnectedExits: (bool, seq<Item>) -> seq<string>)
  {
    /** `multiworld.create_item(name, player)`; `None` where it raises. */
    function CreateItem(name: string): (r: Option<Item>)
      ensures r.Some? <==> name in itemTable
      ensures r.Some? ==> r.value.name == name && r.value.origin.None?
                          && r.value.classification == itemTable[name].classification
                          && r.value.code == itemTable[name].code
    {
      if name in itemTable then
        Some(Item(name, itemTable[name].classification, itemTable[name].code, None))
      else
        None
    }

    /** `multiworld.get_location(name, player)` finds only a location the
        player's world generated; for any other name it raises. */
    predicate HasLocation(name: string)
    {
      name in generatedLocations
    }
  }
}
