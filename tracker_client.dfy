/** The tracker client (worlds/tracker/TrackerClient.py): the received-item
    list the client feeds its tracker, the ignore commands, the older
    `updateTracker` variant with the map-icon status loop, the colour
    decision tables of the map icons, the logical-path pairing and the map
    selection of `load_map`. */
module TrackerClient {
  import opened Common
  import opened Base
  import opened TrackerInit
  import opened TrackerCore

  // ---------------------------------------------------------------------
  // Received items
  // ---------------------------------------------------------------------

  /** `tracker_items_received`: when the server does not send the player's
      own items (items-handling bit 0b010 clear), the items found in the
      player's own checked locations are appended. */
  function TrackerItemsReceived(itemsHandling: bv8, itemsReceived: seq<NetworkItem>, localItems: seq<NetworkItem>)
    : (r: seq<NetworkItem>)
    ensures |itemsReceived| <= |r| && r[..|itemsReceived|] == itemsReceived
    ensures itemsHandling & 2 == 0 ==> r[|itemsReceived|..] == localItems
    ensures itemsHandling & 2 != 0 ==> r == itemsReceived
  {
    if itemsHandling & 2 == 0 then itemsReceived + localItems else itemsReceived
  }

  /** `update_tracker_items`: the scouted items of the checked locations that
      belong to the player's own slot, in checked order. */
  function LocalItems(checked: seq<int>, info: map<int, NetworkItem>, slot: Option<int>): (r: seq<NetworkItem>)
    ensures |r| <= |checked|
    ensures slot.None? ==> r == []
    decreases |checked|
  {
    if |checked| == 0 then []
    else
      var n := |checked| - 1;
      var loc := checked[n];
      LocalItems(checked[..n], info, slot)
      + (if loc in info && slot == Some(info[loc].player) then [info[loc]] else [])
  }

  /** One checked location contributes its scouted item exactly when the
      item belongs to the own slot. */
  lemma LocalItemsSingle(loc: int, info: map<int, NetworkItem>, slot: Option<int>)
    ensures LocalItems([loc], info, slot) == if loc in info && slot == Some(info[loc].player) then [info[loc]] else []
  {
    assert [loc][..0] == [];
  }

  /** The local items of two runs of checked locations are those of the
      first run followed by those of the second: with `LocalItemsSingle`,
      the list keeps the checked order and holds one entry per qualifying
      location. */
  lemma {:induction false} LocalItemsAppend(a: seq<int>, b: seq<int>, info: map<int, NetworkItem>, slot: Option<int>)
    ensures LocalItems(a + b, info, slot) == LocalItems(a, info, slot) + LocalItems(b, info, slot)
    decreases |b|
  {
    if |b| == 0 {
      assert a + b == a;
    } else {
      var n := |b| - 1;
      LocalItemsAppend(a, b[..n], info, slot);
      assert (a + b)[..|a + b| - 1] == a + b[..n];
      assert (a + b)[|a + b| - 1] == b[n];
    }
  }

  /** Every local item is the scouted item of a checked location of the own
      slot, and every such location's item is a local item. */
  lemma {:induction false} LocalItemsExactly(checked: seq<int>, info: map<int, NetworkItem>, slot: Option<int>)
    ensures forall it :: it in LocalItems(checked, info, slot) <==>
              exists loc :: loc in checked && loc in info && info[loc] == it && slot == Some(it.player)
    decreases |checked|
  {
    if |checked| > 0 {
      var n := |checked| - 1;
      LocalItemsExactly(checked[..n], info, slot);
      assert checked == checked[..n] + [checked[n]];
    }
  }

  // ---------------------------------------------------------------------
  // Hints and the map status of a location
  // ---------------------------------------------------------------------

  /** One stored hint: the hinted location, whether it was found, and the
      slot that finds it. */
  datatype Hint = Hint(location: int, found: bool, findingPlayer: int)

  /** `slot_concerns_self`: the slot is the player's own, or a group the
      player belongs to. */
  predicate SlotConcernsSelf(finder: int, slot: Option<int>, groupMembers: map<int, seq<int>>)
  {
    slot.Some? && (finder == slot.value || (finder in groupMembers && slot.value in groupMembers[finder]))
  }

  /** The locations of the hints not yet found that concern the player. */
  function ActiveHints(hints: seq<Hint>, slot: Option<int>, groupMembers: map<int, seq<int>>): (r: seq<int>)
    ensures |r| <= |hints|
    decreases |hints|
  {
    if |hints| == 0 then []
    else
      var n := |hints| - 1;
      var h := hints[n];
      ActiveHints(hints[..n], slot, groupMembers)
      + (if !h.found && SlotConcernsSelf(h.findingPlayer, slot, groupMembers) then [h.location] else [])
  }

  lemma {:induction false} ActiveHintsExactly(hints: seq<Hint>, slot: Option<int>, groupMembers: map<int, seq<int>>)
    ensures forall a :: a in ActiveHints(hints, slot, groupMembers) <==>
              exists h :: h in hints && h.location == a && !h.found
                          && SlotConcernsSelf(h.findingPlayer, slot, groupMembers)
    decreases |hints|
  {
    if |hints| > 0 {
      var n := |hints| - 1;
      ActiveHintsExactly(hints[..n], slot, groupMembers);
      assert hints == hints[..n] + [hints[n]];
    }
  }

  /** Python's `str()` of an optional number. */
  function OptionalNumber(n: Option<int>): string
  {
    match n
    case None => "None"
    case Some(v) => IntToString(v)
  }

  /** The data-storage key of the player's hints. */
  function HintsKey(team: Option<int>, slot: Option<int>): string
  {
    "_read_hints_" + OptionalNumber(team) + "_" + OptionalNumber(slot)
  }

  /** The status before the hint marker: completed, in logic, glitched or
      out of logic, in that order of precedence. */
  function BaseStatus(loc: int, checked: seq<int>, ignored: set<int>, available: seq<int>, glitched: seq<int>)
    : (r: string)
    ensures r == "completed" <==> loc in checked || loc in ignored
    ensures r == "in_logic" <==> !(loc in checked || loc in ignored) && loc in available
    ensures r == "glitched" <==> !(loc in checked || loc in ignored) && loc !in available && loc in glitched
    ensures r == "out_of_logic" <==>
              !(loc in checked || loc in ignored) && loc !in available && loc !in glitched
  {
    if loc in checked || loc in ignored then "completed"
    else if loc in available then "in_logic"
    else if loc in glitched then "glitched"
    else "out_of_logic"
  }

  /** The status a map icon shows for one server location: the base status,
      prefixed with "hinted_" when the location is hinted. */
  function LocationStatus(loc: int, checked: seq<int>, ignored: set<int>, available: seq<int>,
                          glitched: seq<int>, hints: seq<int>): string
  {
    (if loc in hints then "hinted_" else "") + BaseStatus(loc, checked, ignored, available, glitched)
  }

  /** A status starts with "hinted" exactly for a hinted location and ends
      with the base status. */
  lemma LocationStatusShape(loc: int, checked: seq<int>, ignored: set<int>, available: seq<int>,
                            glitched: seq<int>, hints: seq<int>)
    ensures var r := LocationStatus(loc, checked, ignored, available, glitched, hints);
            && (StartsWith(r, "hinted") <==> loc in hints)
            && EndsWith(r, BaseStatus(loc, checked, ignored, available, glitched))
  {
    var base := BaseStatus(loc, checked, ignored, available, glitched);
    var r := LocationStatus(loc, checked, ignored, available, glitched, hints);
    assert r[|r| - |base|..] == base;
    assert loc in hints ==> r[..6] == "hinted";
    assert loc !in hints ==> r[0] != 'h';
  }

  /** The ending checks of the icon colours see exactly the base status. */
  lemma StatusEndings(loc: int, checked: seq<int>, ignored: set<int>, available: seq<int>,
                      glitched: seq<int>, hints: seq<int>)
    ensures var s := LocationStatus(loc, checked, ignored, available, glitched, hints);
            var base := BaseStatus(loc, checked, ignored, available, glitched);
            && (EndsWith(s, "in_logic") <==> base == "in_logic")
            && (EndsWith(s, "out_of_logic") <==> base == "out_of_logic")
            && (EndsWith(s, "glitched") <==> base == "glitched")
  {
    var s := LocationStatus(loc, checked, ignored, available, glitched, hints);
    var base := BaseStatus(loc, checked, ignored, available, glitched);
    var p := if loc in hints then "hinted_" else "";
    assert s == p + base;
    if base == "completed" {
      assert s[|s| - 8..] == "ompleted";
      assert |s| >= 12 ==> s[|s| - 12] == p[|p| - 3] != 'o';
    } else if base == "in_logic" {
      assert |s| >= 12 ==> s[|s| - 12] == p[|p| - 4] != 'o';
    } else if base == "glitched" {
      assert |s| >= 12 ==> s[|s| - 12] == p[|p| - 4] != 'o';
    } else {
      assert s[|s| - 8..] == "of_logic";
    }
  }

  // ---------------------------------------------------------------------
  // Map icon colours
  // ---------------------------------------------------------------------

  /** Which status categories occur among an icon's section statuses. */
  datatype Categories = Categories(glitched: bool, inLogic: bool, outOfLogic: bool, hinted: bool)

  function CategoriesOf(statuses: seq<string>): (c: Categories)
    ensures c.glitched <==> exists s :: s in statuses && EndsWith(s, "glitched")
    ensures c.inLogic <==> exists s :: s in statuses && EndsWith(s, "in_logic")
    ensures c.outOfLogic <==> exists s :: s in statuses && EndsWith(s, "out_of_logic")
    ensures c.hinted <==> exists s :: s in statuses && StartsWith(s, "hinted")
    decreases |statuses|
  {
    if |statuses| == 0 then Categories(false, false, false, false)
    else
      var n := |statuses| - 1;
      var rest := CategoriesOf(statuses[..n]);
      var s := statuses[n];
      assert statuses == statuses[..n] + [s];
      Categories(rest.glitched || EndsWith(s, "glitched"), rest.inLogic || EndsWith(s, "in_logic"),
                 rest.outOfLogic || EndsWith(s, "out_of_logic"), rest.hinted || StartsWith(s, "hinted"))
  }

  /** The categories of one location's status: exactly its base category,
      with "hinted" added when the location is hinted. */
  lemma StatusCategories(loc: int, checked: seq<int>, ignored: set<int>, available: seq<int>,
                         glitched: seq<int>, hints: seq<int>)
    ensures var done := loc in checked || loc in ignored;
            CategoriesOf([LocationStatus(loc, checked, ignored, available, glitched, hints)])
            == Categories(!done && loc !in available && loc in glitched, !done && loc in available,
                          !done && loc !in available && loc !in glitched, loc in hints)
  {
    var s := LocationStatus(loc, checked, ignored, available, glitched, hints);
    StatusEndings(loc, checked, ignored, available, glitched, hints);
    LocationStatusShape(loc, checked, ignored, available, glitched, hints);
    assert forall t :: t in [s] <==> t == s;
  }

  /** The single colour of a mixed icon, by fixed priority. */
  function MixedColor(c: Categories): (r: string)
    ensures r == "mixed_logic" <==> c.inLogic && (c.outOfLogic || (c.glitched && c.hinted))
    ensures r == "collected" <==> !c.inLogic && !c.outOfLogic && !c.glitched && !c.hinted
    ensures c.hinted && r != "mixed_logic" ==>
              r == (if c.glitched then "hinted_glitched" else if c.outOfLogic then "hinted_out_of_logic" else "hinted")
  {
    if c.inLogic && (c.outOfLogic || (c.glitched && c.hinted)) then "mixed_logic"
    else if c.glitched && c.hinted then "hinted_glitched"
    else if c.hinted && c.outOfLogic then "hinted_out_of_logic"
    else if c.hinted then "hinted"
    else if c.glitched && c.inLogic then "in_logic_glitched"
    else if c.glitched && c.outOfLogic then "out_of_logic_glitched"
    else if c.inLogic then "in_logic"
    else if c.outOfLogic then "out_of_logic"
    else if c.glitched then "glitched"
    else "collected"
  }

  /** Names joined with underscores. */
  function Joined(parts: seq<string>): string
    decreases |parts|
  {
    if |parts| == 0 then ""
    else if |parts| == 1 then parts[0]
    else parts[0] + "_" + Joined(parts[1..])
  }

  /** Without a hint and without a mix, the icon's colour names the present
      categories, joined in the fixed order; with none present, "collected". */
  lemma MixedColorNamesCategories(c: Categories)
    requires !c.hinted && MixedColor(c) != "mixed_logic"
    ensures MixedColor(c) == if CategoryList(c) == [] then "collected" else Joined(CategoryList(c))
  {
    if c.glitched {
      GlitchedColorNamesCategories(c);
    } else {
      PlainColorNamesCategories(c);
    }
  }

  /** The glitched half of `MixedColorNamesCategories`. */
  lemma GlitchedColorNamesCategories(c: Categories)
    requires !c.hinted && c.glitched && MixedColor(c) != "mixed_logic"
    ensures MixedColor(c) == Joined(CategoryList(c))
  {
    if c.inLogic {
      assert CategoryList(c) == ["in_logic", "glitched"];
      JoinedPair("in_logic", "glitched");
      assert "in_logic" + "_" + "glitched" == "in_logic_glitched";
    } else if c.outOfLogic {
      assert CategoryList(c) == ["out_of_logic", "glitched"];
      JoinedPair("out_of_logic", "glitched");
      assert "out_of_logic" + "_" + "glitched" == "out_of_logic_glitched";
    } else {
      assert CategoryList(c) == ["glitched"];
    }
  }

  /** The half of `MixedColorNamesCategories` without glitches. */
  lemma PlainColorNamesCategories(c: Categories)
    requires !c.hinted && !c.glitched && MixedColor(c) != "mixed_logic"
    ensures MixedColor(c) == if CategoryList(c) == [] then "collected" else Joined(CategoryList(c))
  {
    if c.inLogic {
      assert CategoryList(c) == ["in_logic"];
    } else if c.outOfLogic {
      assert CategoryList(c) == ["out_of_logic"];
    } else {
      assert CategoryList(c) == [];
    }
  }

  lemma JoinedPair(a: string, b: string)
    ensures Joined([a, b]) == a + "_" + b
  {
    assert [a, b][1..] == [b];
  }

  /** The present categories, in the fixed order in_logic, out_of_logic,
      glitched, hinted. */
  function CategoryList(c: Categories): (r: seq<string>)
    ensures |r| <= 4
    ensures "in_logic" in r <==> c.inLogic
    ensures "out_of_logic" in r <==> c.outOfLogic
    ensures "glitched" in r <==> c.glitched
    ensures "hinted" in r <==> c.hinted
  {
    var withInLogic := if c.inLogic then ["in_logic"] else [];
    var withOutOfLogic := if c.outOfLogic then withInLogic + ["out_of_logic"] else withInLogic;
    var withGlitched := if c.glitched then withOutOfLogic + ["glitched"] else withOutOfLogic;
    if c.hinted then withGlitched + ["hinted"] else withGlitched
  }

  /** Categories listed in strictly increasing position of the fixed order. */
  predicate RankOrdered(r: seq<string>)
  {
    forall i, j :: 0 <= i < j < |r| ==> CategoryRank(r[i]) < CategoryRank(r[j])
  }

  /** A category ranked after every listed one can be appended. */
  lemma AppendRanked(prefix: seq<string>, x: string)
    requires RankOrdered(prefix)
    requires forall i :: 0 <= i < |prefix| ==> CategoryRank(prefix[i]) < CategoryRank(x)
    ensures RankOrdered(prefix + [x])
  {
    var r := prefix + [x];
    forall i, j | 0 <= i < j < |r|
      ensures CategoryRank(r[i]) < CategoryRank(r[j])
    {
      assert r[i] == prefix[i];
      if j < |prefix| {
        assert r[j] == prefix[j];
      }
    }
  }

  /** The present categories are listed in the fixed order. */
  lemma CategoryListRanked(c: Categories)
    ensures RankOrdered(CategoryList(c))
  {
    assert CategoryRank("in_logic") == 0 && CategoryRank("out_of_logic") == 1;
    assert CategoryRank("glitched") == 2 && CategoryRank("hinted") == 3;
    var withInLogic: seq<string> := if c.inLogic then ["in_logic"] else [];
    var withOutOfLogic := if c.outOfLogic then withInLogic + ["out_of_logic"] else withInLogic;
    if c.outOfLogic {
      AppendRanked(withInLogic, "out_of_logic");
    }
    var withGlitched := if c.glitched then withOutOfLogic + ["glitched"] else withOutOfLogic;
    if c.glitched {
      assert forall i :: 0 <= i < |withOutOfLogic| ==> CategoryRank(withOutOfLogic[i]) <= 1;
      AppendRanked(withOutOfLogic, "glitched");
    }
    if c.hinted {
      assert forall i :: 0 <= i < |withGlitched| ==> CategoryRank(withGlitched[i]) <= 2;
      AppendRanked(withGlitched, "hinted");
    }
  }

  /** Categories in strictly increasing rank are all different. */
  lemma RankOrderedNoDup(r: seq<string>)
    requires RankOrdered(r)
    ensures NoDup(r)
  {
    forall i, j | 0 <= i < j < |r|
      ensures r[i] != r[j]
    {
      assert CategoryRank(r[i]) < CategoryRank(r[j]);
    }
  }

  /** The present categories are listed in the fixed order, so none twice. */
  lemma CategoryListOrdered(c: Categories)
    ensures RankOrdered(CategoryList(c)) && NoDup(CategoryList(c))
  {
    CategoryListRanked(c);
    RankOrderedNoDup(CategoryList(c));
  }

  /** The position of a category in the split icon's fixed order. */
  function CategoryRank(category: string): nat
  {
    if category == "in_logic" then 0
    else if category == "out_of_logic" then 1
    else if category == "glitched" then 2
    else 3
  }

  /** `colours * k` in Python. */
  function Repeat(colours: seq<string>, k: nat): (r: seq<string>)
    ensures |r| == |colours| * k
    decreases k
  {
    if k == 0 then [] else colours + Repeat(colours, k - 1)
  }

  lemma RepeatSmall(colours: seq<string>)
    ensures Repeat(colours, 2) == colours + colours
    ensures Repeat(colours, 4) == colours + colours + colours + colours
  {
    assert Repeat(colours, 1) == colours;
    assert Repeat(colours, 3) == colours + colours + colours;
  }

  /** The four colours of a split icon: the present categories repeated
      `max(2, 4 // n)` times, cut to four. */
  function SplitColors(c: Categories): (r: seq<string>)
    ensures |r| == 4
    ensures CategoryList(c) == [] ==> r == ["collected", "collected", "collected", "collected"]
  {
    var present := CategoryList(c);
    if present == [] then ["collected", "collected", "collected", "collected"]
    else
      var k := if 4 / |present| > 2 then 4 / |present| else 2;
      assert |present| * k >= 4;
      Repeat(present, k)[..4]
  }

  /** `max(2, 4 // n)` copies of a list of one to four colours, read at
      `i < 4`, give colour `i mod n`. */
  lemma RepeatCycle(present: seq<string>)
    requires 1 <= |present| <= 4
    ensures var k := if 4 / |present| > 2 then 4 / |present| else 2;
            && |present| * k >= 4
            && forall i :: 0 <= i < 4 ==> Repeat(present, k)[i] == present[i % |present|]
  {
    var n := |present|;
    RepeatSmall(present);
    forall i | 0 <= i < 4
      ensures Repeat(present, if 4 / n > 2 then 4 / n else 2)[i] == present[i % n]
    {
      if n == 1 {
        assert i % n == 0;
      } else if i < n {
        assert i % n == i;
      } else {
        assert i - n < n && i % n == i - n;
      }
    }
  }

  /** Colour `i` of a split icon is present category `i mod n`: every
      present category shows, cycling in the fixed order. */
  lemma SplitColorsCycle(c: Categories)
    requires CategoryList(c) != []
    ensures forall i :: 0 <= i < 4 ==> SplitColors(c)[i] == CategoryList(c)[i % |CategoryList(c)|]
  {
    RepeatCycle(CategoryList(c));
  }

  // ---------------------------------------------------------------------
  // The logical path to a region
  // ---------------------------------------------------------------------

  /** The nested `(name, rest)` pairs a collection state records as the path
      to a region, most recent name first; `Nil` stands for `None`. */
  datatype PathList = Nil | Cons(name: string, rest: PathList)

  /** The names of a path list, in list order. */
  function Heads(path: PathList): (r: seq<string>)
  {
    match path
    case Nil => []
    case Cons(name, rest) => [name] + Heads(rest)
  }

  /** `flist_to_iter`: walk the nested pairs, collecting each name. */
  method FlistToSeq(path: PathList) returns (names: seq<string>)
    ensures names == Heads(path)
  {
    names := [];
    var rest := path;
    while rest.Cons?
      invariant names + Heads(rest) == Heads(path)
      decreases rest
    {
      names := names + [rest.name];
      rest := rest.rest;
    }
  }

  function Reverse<T>(s: seq<T>): (r: seq<T>)
    ensures |r| == |s|
    ensures forall i :: 0 <= i < |s| ==> r[i] == s[|s| - 1 - i]
    decreases |s|
  {
    if |s| == 0 then [] else [s[|s| - 1]] + Reverse(s[..|s| - 1])
  }

  /** `zip_longest(it, it)`: consecutive names paired up, an odd last name
      paired with `None`. */
  function Pairs(names: seq<string>): (r: seq<(string, Option<string>)>)
    ensures |r| == (|names| + 1) / 2
    ensures forall k :: 0 <= k < |r| ==> r[k].0 == names[2 * k]
    ensures forall k :: 0 <= k < |r| && 2 * k + 1 < |names| ==> r[k].1 == Some(names[2 * k + 1])
    ensures forall k :: 0 <= k < |r| ==> (r[k].1.None? <==> 2 * k + 1 == |names|)
    decreases |names|
  {
    if |names| == 0 then []
    else if |names| == 1 then [(names[0], None)]
    else [(names[0], Some(names[1]))] + Pairs(names[2..])
  }

  /** Flattening the pairs back, dropping the padding. */
  function Unpair(pairs: seq<(string, Option<string>)>): seq<string>
    decreases |pairs|
  {
    if |pairs| == 0 then []
    else [pairs[0].0] + (if pairs[0].1.Some? then [pairs[0].1.value] else []) + Unpair(pairs[1..])
  }

  /** Pairing loses nothing: flattening the pairs gives the names back. */
  lemma {:induction false} UnpairPairs(names: seq<string>)
    ensures Unpair(Pairs(names)) == names
    decreases |names|
  {
    if |names| >= 2 {
      UnpairPairs(names[2..]);
      var p := Pairs(names);
      assert p[1..] == Pairs(names[2..]);
      assert names == [names[0], names[1]] + names[2..];
    }
  }

  /** `get_path`: the path to a region as (region, exit) pairs from the
      start; a region without a recorded path is paired with `None`. */
  method GetPath(paths: map<string, PathList>, region: string) returns (r: seq<(string, Option<string>)>)
    ensures r == Pairs(Reverse(Heads(if region in paths then paths[region] else Cons(region, Nil))))
    ensures region !in paths ==> r == [(region, None)]
    ensures Unpair(r) == Reverse(Heads(if region in paths then paths[region] else Cons(region, Nil)))
    ensures forall k :: 0 <= k < |r| - 1 ==> r[k].1.Some?
  {
    var reversedPath := if region in paths then paths[region] else Cons(region, Nil);
    var names := FlistToSeq(reversedPath);
    var forward := Reverse(names);
    r := Pairs(forward);
    UnpairPairs(forward);
  }

  // ---------------------------------------------------------------------
  // Map selection
  // ---------------------------------------------------------------------

  /** A map-pin position of the pack. */
  type Coord = (int, int)

  /** A map page of the pack: its name, its image and the optional sizes. */
  datatype MapPage = MapPage(name: string, img: string, locationSize: Option<int>,
                             locationIconSize: Option<int>, borderThickness: Option<int>)

  /** `location_size`, 65 when the page gives none. */
  function LocationSizeOf(page: MapPage): int
  {
    if page.locationSize.Some? then page.locationSize.value else 65
  }

  /** `location_icon_size`, the location size when the page gives none. */
  function IconSizeOf(page: MapPage): int
  {
    if page.locationIconSize.Some? then page.locationIconSize.value else LocationSizeOf(page)
  }

  /** `location_border_thickness`, 8 when the page gives none. */
  function BorderOf(page: MapPage): int
  {
    if page.borderThickness.Some? then page.borderThickness.value else 8
  }

  /** The `name` of every map page, the list `load_map` searches. */
  function MapNames(maps: seq<MapPage>): (r: seq<string>)
    ensures |r| == |maps|
    ensures forall k :: 0 <= k < |maps| ==> r[k] == maps[k].name
  {
    seq(|maps|, k requires 0 <= k < |maps| => maps[k].name)
  }

  /** What `load_map` is asked to show: the map the data storage selects
      (`None`), a map index, or a text that is either a decimal index or a
      map name. */
  datatype MapRequest = StoredMap | MapIndex(index: int) | MapText(text: string)

  datatype Resolution = KeepMap | NoSuchMap | LoadIndex(index: nat)

  /** Python's `str.isdecimal` on ASCII text. */
  predicate IsDecimal(s: string)
  {
    |s| > 0 && forall i :: 0 <= i < |s| ==> '0' <= s[i] <= '9'
  }

  /** Python's `int()` of a decimal text. */
  function DecimalValue(s: string): nat
    requires forall i :: 0 <= i < |s| ==> '0' <= s[i] <= '9'
    decreases |s|
  {
    if |s| == 0 then 0
    else DecimalValue(s[..|s| - 1]) * 10 + (s[|s| - 1] as int - '0' as int)
  }

  /** Reading back a written number gives the number. */
  lemma {:induction false} DecimalValueOfNatToString(n: nat)
    ensures IsDecimal(NatToString(n)) && DecimalValue(NatToString(n)) == n
    decreases n
  {
    var s := NatToString(n);
    DigitValue(n % 10);
    if n >= 10 {
      DecimalValueOfNatToString(n / 10);
      var prefix := NatToString(n / 10);
      assert s == prefix + [DigitChar(n % 10)];
      assert s[..|s| - 1] == prefix;
    }
  }

  lemma DigitValue(d: nat)
    requires d < 10
    ensures DigitChar(d) as int - '0' as int == d
  {
  }

  /** The first position of a name, if any. */
  function FirstIndex(names: seq<string>, name: string): (r: Option<nat>)
    ensures r.None? <==> name !in names
    ensures r.Some? ==> r.value < |names| && names[r.value] == name
                        && forall j :: 0 <= j < r.value ==> names[j] != name
    decreases |names|
  {
    if |names| == 0 then None
    else if names[0] == name then Some(0)
    else
      var rest := FirstIndex(names[1..], name);
      assert forall j :: 1 <= j < |names| ==> names[j] == names[1..][j - 1];
      if rest.None? then None else Some(rest.value + 1)
  }

  /** The `for ... else` search of `load_map` over the map names. */
  method FindMap(names: seq<string>, name: string) returns (r: Option<nat>)
    ensures r == FirstIndex(names, name)
  {
    var i := 0;
    while i < |names|
      invariant 0 <= i <= |names|
      invariant forall j :: 0 <= j < i ==> names[j] != name
    {
      if names[i] == name {
        FirstIndexIs(names, name, i);
        return Some(i);
      }
      i := i + 1;
    }
    return None;
  }

  lemma FirstIndexIs(names: seq<string>, name: string, i: nat)
    requires i < |names| && names[i] == name && forall j :: 0 <= j < i ==> names[j] != name
    ensures FirstIndex(names, name) == Some(i)
  {
    assert name in names;
  }

  /** The id resolution of `load_map`.  A stored index is used only with
      auto-tabbing on and in range; the loaded map is kept when an index
      names it again (a text never equals the stored number); a non-decimal
      text selects the first map of that name; a decimal text is read as an
      index; an index must be in range. */
  function ResolveMap(request: MapRequest, names: seq<string>, current: Option<int>, autoTab: bool,
                      storedIndex: int): (r: Resolution)
    ensures r.LoadIndex? ==> r.index < |names|
    ensures r.LoadIndex? && !request.MapText? ==> current != Some(r.index)
    ensures request.StoredMap? ==>
              (r.LoadIndex? <==> autoTab && 0 <= storedIndex < |names| && current != Some(storedIndex))
              && (r.LoadIndex? ==> r.index == storedIndex)
              && r != NoSuchMap
    ensures request.MapIndex? ==>
              (current == Some(request.index) ==> r == KeepMap)
              && (current != Some(request.index) && !(0 <= request.index < |names|) ==> r == NoSuchMap)
              && (r.LoadIndex? ==> r.index == request.index)
    ensures request.MapText? && !IsDecimal(request.text) ==>
              (r.LoadIndex? <==> request.text in names)
              && (r.LoadIndex? ==> r == LoadIndex(FirstIndex(names, request.text).value))
              && r != KeepMap
    ensures request.MapText? && IsDecimal(request.text) ==>
              (r.LoadIndex? <==> DecimalValue(request.text) < |names|)
              && (r.LoadIndex? ==> r.index == DecimalValue(request.text))
              && r != KeepMap
  {
    match request
    case StoredMap =>
      if !autoTab || storedIndex < 0 || storedIndex >= |names| then KeepMap
      else if current == Some(storedIndex) then KeepMap
      else LoadIndex(storedIndex)
    case MapIndex(index) =>
      if current == Some(index) then KeepMap
      else if index < 0 || index >= |names| then NoSuchMap
      else LoadIndex(index)
    case MapText(text) =>
      if !IsDecimal(text) then
        match FirstIndex(names, text)
        case None => NoSuchMap
        case Some(k) => LoadIndex(k)
      else
        var index := DecimalValue(text);
        if index >= |names| then NoSuchMap else LoadIndex(index)
  }

  /** The data-storage key of the selected map: the world's formatted key,
      or `"{slot}_{team}_UT_MAP"` when it has none or an empty one. */
  function MapSettingKey(settingKey: Option<string>, slot: Option<int>, team: Option<int>): (r: string)
    ensures settingKey.Some? && settingKey.value != "" ==> r == settingKey.value
    ensures settingKey.None? || settingKey.value == "" ==> EndsWith(r, "_UT_MAP")
  {
    if settingKey.Some? && settingKey.value != "" then settingKey.value
    else
      var r := OptionalNumber(slot) + "_" + OptionalNumber(team) + "_UT_MAP";
      assert r[|r| - 7..] == "_UT_MAP";
      r
  }

  /** The coordinates after the compatibility pins are merged in: a shared
      position gets both lists, the compatibility list last. */
  function MergedCoords(coords: map<Coord, seq<int>>, compat: map<Coord, seq<int>>): (r: map<Coord, seq<int>>)
    ensures r.Keys == coords.Keys + compat.Keys
  {
    map pos | pos in coords.Keys + compat.Keys ::
      if pos in coords && pos in compat then coords[pos] + compat[pos]
      else if pos in compat then compat[pos]
      else coords[pos]
  }

  /** Merging loses no pin: a position's section pins come first, its
      compatibility pins last, and a position only one table has keeps that
      table's list. */
  lemma MergedCoordsKeepsBoth(coords: map<Coord, seq<int>>, compat: map<Coord, seq<int>>, pos: Coord)
    requires pos in coords || pos in compat
    ensures var r := MergedCoords(coords, compat);
            && (pos in coords ==> |coords[pos]| <= |r[pos]| && r[pos][..|coords[pos]|] == coords[pos])
            && (pos in compat ==> |compat[pos]| <= |r[pos]| && r[pos][|r[pos]| - |compat[pos]|..] == compat[pos])
            && (pos !in compat ==> r[pos] == coords[pos])
            && (pos !in coords ==> r[pos] == compat[pos])
            && |r[pos]| == (if pos in coords then |coords[pos]| else 0) + (if pos in compat then |compat[pos]| else 0)
  {
  }

  /** The compatibility entries outside `todo`: those the loop has merged. */
  function MergedSoFar(compat: map<Coord, seq<int>>, todo: set<Coord>): map<Coord, seq<int>>
  {
    map pos | pos in compat.Keys - todo :: compat[pos]
  }

  /** The merge loop of `load_map` over the compatibility pins. */
  method MergeCompatCoords(coords: map<Coord, seq<int>>, compat: map<Coord, seq<int>>)
    returns (merged: map<Coord, seq<int>>)
    ensures merged == MergedCoords(coords, compat)
  {
    merged := coords;
    var todo := compat.Keys;
    MergeStart(coords, compat);
    while todo != {}
      invariant todo <= compat.Keys
      invariant merged == MergedCoords(coords, MergedSoFar(compat, todo))
      decreases |todo|
    {
      var pos :| pos in todo;
      MergeStep(coords, compat, todo, merged, pos);
      if pos in merged {
        merged := merged[pos := merged[pos] + compat[pos]];
      } else {
        merged := merged[pos := compat[pos]];
      }
      todo := todo - {pos};
    }
    assert MergedSoFar(compat, {}) == compat;
  }

  /** Before the loop nothing is merged. */
  lemma MergeStart(coords: map<Coord, seq<int>>, compat: map<Coord, seq<int>>)
    ensures MergedCoords(coords, MergedSoFar(compat, compat.Keys)) == coords
  {
    assert MergedSoFar(compat, compat.Keys) == map[];
  }

  /** Merging one more compatibility entry appends its pins at that
      position, or adds the position, and changes nothing else. */
  lemma MergeStep(coords: map<Coord, seq<int>>, compat: map<Coord, seq<int>>, todo: set<Coord>,
                  merged: map<Coord, seq<int>>, pos: Coord)
    requires pos in todo && todo <= compat.Keys
    requires merged == MergedCoords(coords, MergedSoFar(compat, todo))
    ensures MergedCoords(coords, MergedSoFar(compat, todo - {pos}))
            == if pos in merged then merged[pos := merged[pos] + compat[pos]] else merged[pos := compat[pos]]
  {
    var done := MergedSoFar(compat, todo);
    assert MergedSoFar(compat, todo - {pos}) == done[pos := compat[pos]];
    assert pos in merged <==> pos in coords;
    if pos in merged {
      assert merged[pos] == coords[pos];
    }
  }

  // ---------------------------------------------------------------------
  // The client
  // ---------------------------------------------------------------------

  /** The record the older `updateTracker` builds. */
  datatype ClientTrackerState = ClientTrackerState(
    allItems: map<string, nat>,
    progItems: map<string, nat>,
    glitchedLocations: seq<int>,
    events: seq<string>,
    state: CollectionState)

  /** The coordinates a location's icons sit at. */
  function CoordsOf(coordDict: map<int, seq<Coord>>, loc: int): seq<Coord>
  {
    if loc in coordDict then coordDict[loc] else []
  }

  /** The icons after one location's entries at the given positions show
      `status`. */
  function Stamped(icons: map<(Coord, int), string>, loc: int, positions: seq<Coord>, status: string)
    : (r: map<(Coord, int), string>)
    ensures r.Keys == icons.Keys
  {
    map key | key in icons :: if key.1 == loc && key.0 in positions then status else icons[key]
  }

  lemma StampStep(icons: map<(Coord, int), string>, loc: int, positions: seq<Coord>, j: nat, status: string)
    requires j < |positions|
    ensures var prior := Stamped(icons, loc, positions[..j], status);
            var key := (positions[j], loc);
            Stamped(icons, loc, positions[..j + 1], status)
            == if key in prior then prior[key := status] else prior
  {
    assert positions[..j + 1] == positions[..j] + [positions[j]];
  }

  /** The icon statuses after the status loop over `server`: each
      location in turn stamps its status on its icons. */
  function RefreshedIcons(icons: map<(Coord, int), string>, server: seq<int>, coordDict: map<int, seq<Coord>>,
                          checked: seq<int>, ignored: set<int>, available: seq<int>, glitched: seq<int>,
                          hints: seq<int>): (r: map<(Coord, int), string>)
    ensures r.Keys == icons.Keys
    decreases |server|
  {
    if |server| == 0 then icons
    else
      var loc := server[|server| - 1];
      Stamped(RefreshedIcons(icons, server[..|server| - 1], coordDict, checked, ignored, available, glitched, hints),
              loc, CoordsOf(coordDict, loc), LocationStatus(loc, checked, ignored, available, glitched, hints))
  }

  /** After the status loop, every (position, location) entry of a server
      location whose icons include that position shows the location's
      status, and every other entry keeps its status. */
  lemma {:induction false} RefreshedIconsShowStatus(icons: map<(Coord, int), string>, server: seq<int>,
                                                    coordDict: map<int, seq<Coord>>, checked: seq<int>,
                                                    ignored: set<int>, available: seq<int>, glitched: seq<int>,
                                                    hints: seq<int>, key: (Coord, int))
    requires key in icons
    ensures RefreshedIcons(icons, server, coordDict, checked, ignored, available, glitched, hints)[key]
            == if key.1 in server && key.0 in CoordsOf(coordDict, key.1)
               then LocationStatus(key.1, checked, ignored, available, glitched, hints)
               else icons[key]
    decreases |server|
  {
    if |server| > 0 {
      var loc := server[|server| - 1];
      var prefix := server[..|server| - 1];
      var before := RefreshedIcons(icons, prefix, coordDict, checked, ignored, available, glitched, hints);
      RefreshedIconsShowStatus(icons, prefix, coordDict, checked, ignored, available, glitched, hints, key);
      assert key in before;
      assert server == prefix + [loc];
      assert key.1 in server <==> key.1 in prefix || key.1 == loc;
    }
  }

  lemma RefreshedIconsSnoc(icons: map<(Coord, int), string>, server: seq<int>, i: nat,
                           coordDict: map<int, seq<Coord>>, checked: seq<int>, ignored: set<int>,
                           available: seq<int>, glitched: seq<int>, hints: seq<int>)
    requires i < |server|
    ensures RefreshedIcons(icons, server[..i + 1], coordDict, checked, ignored, available, glitched, hints)
            == Stamped(RefreshedIcons(icons, server[..i], coordDict, checked, ignored, available, glitched, hints),
                       server[i], CoordsOf(coordDict, server[i]),
                       LocationStatus(server[i], checked, ignored, available, glitched, hints))
  {
    assert server[..i + 1][..i] == server[..i];
  }

  /** The older `updateTracker`: nothing without a bound world, a
      `KeyError` on the first unknown item id (before anything is
      collected), otherwise the new `locations_available` and the returned
      record of an update that attaches every positive known location to
      its item and always lists glitched locations.  Its state is built
      without the partial-entrance flag, so it does not allow partial
      entrances. */
  function OldUpdate(playerId: Option<int>, multiworld: Option<World>, received: seq<NetworkItem>,
                     manual: seq<string>, cfg: ScanConfig): (r: Result<Option<(seq<int>, ClientTrackerState)>, UpdateError>)
  {
    if playerId.None? || multiworld.None? then Success(None)
    else
      var world := multiworld.value;
      var unknown := UnknownItemIds(received, world.itemIdToName);
      if unknown != [] then Failure(UnknownItemId(unknown[0]))
      else
        var run := RunTracker(world, false, Requests(received, manual, world.itemIdToName), AnyPlayer, cfg);
        var glitched := AddressesOf(run.listing.glitched);
        Success(Some((run.base.addresses,
                      ClientTrackerState(Tally(run.collected, Coded), Tally(run.collected, Progression), glitched,
                                         world.advancementEvents(false, run.collected), CollectionState(run.state, false)))))
  }

  /** The older update returns nothing exactly without a bound world, and
      fails exactly when a received item id is unknown, naming the id of
      the first such item. */
  lemma OldUpdateOutcome(playerId: Option<int>, multiworld: Option<World>, received: seq<NetworkItem>,
                         manual: seq<string>, cfg: ScanConfig)
    ensures var r := OldUpdate(playerId, multiworld, received, manual, cfg);
            && (r == Success(None) <==> playerId.None? || multiworld.None?)
            && (r.Failure? <==> playerId.Some? && multiworld.Some?
                                && UnknownItemIds(received, multiworld.value.itemIdToName) != [])
            && (r.Failure? ==> r.error.UnknownItemId?
                               && exists i :: 0 <= i < |received| && received[i].item == r.error.id
                                              && received[i].item !in multiworld.value.itemIdToName
                                              && forall j :: 0 <= j < i ==> received[j].item in multiworld.value.itemIdToName)
  {
    if playerId.Some? && multiworld.Some? && UnknownItemIds(received, multiworld.value.itemIdToName) != [] {
      FirstUnknownItemId(received, multiworld.value.itemIdToName);
    }
  }

  /** `r` is the value an update returns, and `available` and `glitched`
      are what a completed update leaves in the client. */
  predicate Stored(update: Result<Option<(seq<int>, ClientTrackerState)>, UpdateError>,
                   r: Result<Option<ClientTrackerState>, UpdateError>, available: seq<int>, glitched: seq<int>)
  {
    match update
    case Failure(e) => r == Failure(e)
    case Success(None) => r == Success(None)
    case Success(Some(result)) =>
      r == Success(Some(result.1)) && available == result.0 && glitched == result.1.glitchedLocations
  }

  /** What a completed update stores keeps logic and glitches apart: every
      available location is outstanding and not ignored, and every glitched
      location is neither available nor ignored. */
  lemma OldUpdateSeparates(playerId: Option<int>, multiworld: Option<World>, received: seq<NetworkItem>,
                           manual: seq<string>, cfg: ScanConfig, r: Result<Option<ClientTrackerState>, UpdateError>,
                           available: seq<int>, glitched: seq<int>)
    requires Stored(OldUpdate(playerId, multiworld, received, manual, cfg), r, available, glitched)
    requires r.Success? && r.value.Some?
    ensures forall a :: a in available ==> a !in cfg.ignored && a in cfg.missing
    ensures forall a :: a in glitched ==> a !in available && a !in cfg.ignored
  {
    var world := multiworld.value;
    var reqs := Requests(received, manual, world.itemIdToName);
    var run := RunTracker(world, false, reqs, AnyPlayer, cfg);
    RunSeparatesLogicAndGlitches(world, false, reqs, AnyPlayer, cfg);
    assert available == run.base.addresses && glitched == AddressesOf(run.listing.glitched);
    forall a | a in glitched
      ensures a !in available && a !in cfg.ignored
    {
      var k :| 0 <= k < |glitched| && glitched[k] == a;
      assert run.listing.glitched[k] in run.listing.glitched;
    }
  }

  method ComputeOldUpdate(playerId: Option<int>, multiworld: Option<World>, received: seq<NetworkItem>,
                          manual: seq<string>, cfg: ScanConfig)
    returns (r: Result<Option<(seq<int>, ClientTrackerState)>, UpdateError>)
    ensures r == OldUpdate(playerId, multiworld, received, manual, cfg)
  {
    if playerId.None? || multiworld.None? {
      return Success(None);
    }
    var world := multiworld.value;
    var unknown := UnknownItemIds(received, world.itemIdToName);
    if unknown != [] {
      return Failure(UnknownItemId(unknown[0]));
    }
    var available, glitched, snapshot := ReplayAndScan(world, Requests(received, manual, world.itemIdToName), cfg);
    return Success(Some((available, snapshot)));
  }

  /** The body of the older `updateTracker` once the items are known: both
      passes of the listing over the items collected from every player's
      locations. */
  method ReplayAndScan(world: World, reqs: seq<ItemRequest>, cfg: ScanConfig)
    returns (available: seq<int>, glitched: seq<int>, snapshot: ClientTrackerState)
    ensures var run := RunTracker(world, false, reqs, AnyPlayer, cfg);
            && available == run.base.addresses
            && glitched == AddressesOf(run.listing.glitched)
            && snapshot == ClientTrackerState(Tally(run.collected, Coded), Tally(run.collected, Progression), glitched,
                                              world.advancementEvents(false, run.collected), CollectionState(run.state, false))
  {
    var collected, progItems, allItems := ReplayItems(world, reqs, AnyPlayer);
    var listing := ScanLocations(EmptyListing, world.reachableLocations(false, collected), cfg, InLogicPass);
    var events := world.advancementEvents(false, collected);
    available := listing.addresses;
    var state := collected;
    var glitch := GlitchItem(world);
    if glitch.Some? {
      state := state + [glitch.value];
      listing := ScanLocations(listing, world.reachableLocations(false, state), cfg, GlitchPass);
    }
    glitched := AddressesOf(listing.glitched);
    snapshot := ClientTrackerState(allItems, progItems, glitched, events, CollectionState(state, false));
  }

  /** The status loop over the server locations, on the icon entries. */
  method RefreshIcons(icons: map<(Coord, int), string>, server: seq<int>, coordDict: map<int, seq<Coord>>,
                      checked: seq<int>, ignored: set<int>, available: seq<int>, glitched: seq<int>,
                      hints: seq<int>)
    returns (r: map<(Coord, int), string>)
    ensures r == RefreshedIcons(icons, server, coordDict, checked, ignored, available, glitched, hints)
  {
    r := icons;
    var i := 0;
    assert server[..0] == [];
    while i < |server|
      invariant 0 <= i <= |server|
      invariant r == RefreshedIcons(icons, server[..i], coordDict, checked, ignored, available, glitched, hints)
    {
      var loc := server[i];
      var status := LocationStatus(loc, checked, ignored, available, glitched, hints);
      r := StampIcons(r, loc, CoordsOf(coordDict, loc), status);
      RefreshedIconsSnoc(icons, server, i, coordDict, checked, ignored, available, glitched, hints);
      i := i + 1;
    }
    assert server[..i] == server;
  }

  /** The inner loop: each icon at one of `positions` that has an entry for
      `loc` gets `status`. */
  method StampIcons(icons: map<(Coord, int), string>, loc: int, positions: seq<Coord>, status: string)
    returns (r: map<(Coord, int), string>)
    ensures r == Stamped(icons, loc, positions, status)
  {
    r := icons;
    var j := 0;
    assert Stamped(icons, loc, positions[..0], status) == icons;
    while j < |positions|
      invariant 0 <= j <= |positions|
      invariant r == Stamped(icons, loc, positions[..j], status)
    {
      StampStep(icons, loc, positions, j, status);
      var key := (positions[j], loc);
      if key in r {
        r := r[key := status];
      }
      j := j + 1;
    }
    assert positions[..j] == positions;
  }

  /** Outcome of an ignore command. */
  datatype CommandOutcome = GameNotLoaded | UnknownLocation | NotIgnored | Done

  /** Outcome of `load_map`.  `LoadedIconKeyMissing`: every field of the
      loaded map is set, then reading the unassigned `location_setting_key`
      raises `AttributeError`. */
  datatype LoadOutcome = NoMapView | MapKept | MapMissing | PackMissing | MapLoaded | LoadedIconKeyMissing

  class TrackerGameContext {
    var playerId: Option<int>
    var multiworld: Option<World>
    var game: Option<string>
    var slot: Option<int>
    var team: Option<int>
    var groupMembers: map<int, seq<int>>
    var itemsHandling: bv8
    var itemsReceived: seq<NetworkItem>
    var localItems: seq<NetworkItem>
    var checkedLocations: seq<int>
    var locationsInfo: map<int, NetworkItem>
    var manualItems: seq<string>
    var ignoredLocations: set<int>
    var missingLocations: set<int>
    var serverLocations: seq<int>
    var storedHints: map<string, seq<Hint>>
    var storedText: map<string, string>
    var locationAliasMap: map<int, string>
    var outputFormat: ReportType
    var hideExcluded: bool
    var locationsAvailable: seq<int>
    var glitchedLocations: seq<int>
    var hasUi: bool
    var trackerWorld: UTMapTabData?
    var coordDict: map<int, seq<Coord>>
    var iconStatus: map<(Coord, int), string>
    var autoTab: bool
    var mapId: Option<int>
    var maps: seq<MapPage>
    var rootPackPath: string
    var uiSource: string
    var locSize: int
    var locIconSize: int
    var locBorder: int
    var coords: map<Coord, seq<int>>

    /** The `tracker_items_received` property. */
    function ReceivedItems(): seq<NetworkItem>
      reads this`itemsHandling, this`itemsReceived, this`localItems
    {
      TrackerItemsReceived(itemsHandling, itemsReceived, localItems)
    }

    /** The hinted locations read from the data storage. */
    function ClientHints(): seq<int>
      reads this`team, this`slot, this`storedHints, this`groupMembers
    {
      var key := HintsKey(team, slot);
      if key in storedHints then ActiveHints(storedHints[key], slot, groupMembers) else []
    }

    /** The listing settings of this variant, for a given ignore list:
        glitched locations are always displayed. */
    function ScanSettingsWith(ignored: set<int>): ScanConfig
      reads this`hideExcluded, this`missingLocations, this`locationAliasMap, this`outputFormat, this`team,
            this`slot, this`storedHints, this`groupMembers
    {
      ScanConfig(hideExcluded, ignored, missingLocations, ClientHints(), locationAliasMap, outputFormat, true)
    }

    /** The update over the current fields and a given ignore list. */
    function UpdateWithIgnored(ignored: set<int>): Result<Option<(seq<int>, ClientTrackerState)>, UpdateError>
      reads this`playerId, this`multiworld, this`manualItems, this`itemsHandling, this`itemsReceived,
            this`localItems, this`hideExcluded, this`missingLocations, this`locationAliasMap, this`outputFormat,
            this`team, this`slot, this`storedHints, this`groupMembers
    {
      OldUpdate(playerId, multiworld, ReceivedItems(), manualItems, ScanSettingsWith(ignored))
    }

    /** `if not self.ctx.game`: a game is loaded when the name is set and
        not empty (the class default is the empty name). */
    predicate GameLoaded()
      reads this`game
    {
      game.Some? && game.value != ""
    }

    /** What a refresh that returned `r` did to the lists and the icons:
        a completed update with a map view shown stamps the icon statuses,
        and an update that did not complete leaves the lists and the icons
        as they were. */
    twostate predicate RefreshEffect(r: Result<Option<ClientTrackerState>, UpdateError>)
      reads this
    {
      && (r.Success? && r.value.Some? && hasUi && trackerWorld != null ==>
            iconStatus == RefreshedIcons(old(iconStatus), serverLocations, coordDict, checkedLocations,
                                         ignoredLocations, locationsAvailable, glitchedLocations, ClientHints()))
      && (!(r.Success? && r.value.Some?) ==>
            locationsAvailable == old(locationsAvailable) && glitchedLocations == old(glitchedLocations))
      && (!(r.Success? && r.value.Some? && hasUi && trackerWorld != null) ==> iconStatus == old(iconStatus))
    }

    /** `update_tracker_items`. */
    method UpdateTrackerItems()
      modifies this`localItems
      ensures localItems == LocalItems(checkedLocations, locationsInfo, slot)
    {
      localItems := LocalItems(checkedLocations, locationsInfo, slot);
    }

    /** The older `updateTracker`, followed by the map-icon status loop when
        a map view is shown. */
    method UpdateTracker() returns (r: Result<Option<ClientTrackerState>, UpdateError>)
      modifies this`locationsAvailable, this`glitchedLocations, this`iconStatus
      ensures Stored(old(UpdateWithIgnored(ignoredLocations)), r, locationsAvailable, glitchedLocations)
      ensures !r.Success? || r.value.None? ==> unchanged(this)
      ensures RefreshEffect(r)
    {
      var update := ComputeOldUpdate(playerId, multiworld, ReceivedItems(), manualItems,
                                     ScanSettingsWith(ignoredLocations));
      assert update == UpdateWithIgnored(ignoredLocations);
      match update {
        case Failure(e) =>
          r := Failure(e);
        case Success(None) =>
          r := Success(None);
        case Success(Some(result)) =>
          locationsAvailable := result.0;
          glitchedLocations := result.1.glitchedLocations;
          r := Success(Some(result.1));
          if hasUi && trackerWorld != null {
            RefreshMapIcons();
          }
      }
    }

    /** The map status loop: every icon entry of a server location gets the
        location's status. */
    method RefreshMapIcons()
      modifies this`iconStatus
      ensures iconStatus == RefreshedIcons(old(iconStatus), serverLocations, coordDict, checkedLocations,
                                           ignoredLocations, locationsAvailable, glitchedLocations, ClientHints())
    {
      iconStatus := RefreshIcons(iconStatus, serverLocations, coordDict, checkedLocations, ignoredLocations,
                                 locationsAvailable, glitchedLocations, ClientHints());
    }

    /** The step the ignore commands share: store a new ignore list, then
        run the update against it. */
    method RefreshWithIgnored(ignored: set<int>) returns (r: Result<Option<ClientTrackerState>, UpdateError>)
      modifies this`ignoredLocations, this`locationsAvailable, this`glitchedLocations, this`iconStatus
      ensures ignoredLocations == ignored
      ensures Stored(old(UpdateWithIgnored(ignored)), r, locationsAvailable, glitchedLocations)
      ensures RefreshEffect(r)
    {
      ghost var expected := UpdateWithIgnored(ignored);
      ignoredLocations := ignored;
      assert UpdateWithIgnored(ignoredLocations) == expected;
      label BeforeRefresh:
      r := UpdateTracker();
      assert RefreshEffect@BeforeRefresh(r);
    }

    /** `_cmd_ignore`: add a known location of the loaded game to the ignore
        list and refresh.  `locationNameToId` is the game's name table. */
    method Ignore(locationName: string, locationNameToId: map<string, int>)
      returns (outcome: CommandOutcome, refresh: Option<Result<Option<ClientTrackerState>, UpdateError>>)
      modifies this`ignoredLocations, this`locationsAvailable, this`glitchedLocations, this`iconStatus
      ensures !GameLoaded() ==> outcome == GameNotLoaded && refresh.None? && unchanged(this)
      ensures GameLoaded() && locationName !in locationNameToId ==>
                outcome == UnknownLocation && refresh.None? && unchanged(this)
      ensures GameLoaded() && locationName in locationNameToId ==>
                outcome == Done && ignoredLocations == old(ignoredLocations) + {locationNameToId[locationName]}
                && refresh.Some?
                && Stored(old(UpdateWithIgnored(ignoredLocations + {locationNameToId[locationName]})),
                          refresh.value, locationsAvailable, glitchedLocations)
                && RefreshEffect(refresh.value)
    {
      if !GameLoaded() {
        return GameNotLoaded, None;
      }
      if locationName !in locationNameToId {
        return UnknownLocation, None;
      }
      var r := RefreshWithIgnored(ignoredLocations + {locationNameToId[locationName]});
      return Done, Some(r);
    }

    /** `_cmd_unignore`: take a known, ignored location off the ignore list
        and refresh. */
    method Unignore(locationName: string, locationNameToId: map<string, int>)
      returns (outcome: CommandOutcome, refresh: Option<Result<Option<ClientTrackerState>, UpdateError>>)
      modifies this`ignoredLocations, this`locationsAvailable, this`glitchedLocations, this`iconStatus
      ensures !GameLoaded() ==> outcome == GameNotLoaded && refresh.None? && unchanged(this)
      ensures GameLoaded() && locationName !in locationNameToId ==>
                outcome == UnknownLocation && refresh.None? && unchanged(this)
      ensures GameLoaded() && locationName in locationNameToId
              && locationNameToId[locationName] !in old(ignoredLocations) ==>
                outcome == NotIgnored && refresh.None? && unchanged(this)
      ensures GameLoaded() && locationName in locationNameToId
              && locationNameToId[locationName] in old(ignoredLocations) ==>
                outcome == Done && ignoredLocations == old(ignoredLocations) - {locationNameToId[locationName]}
                && refresh.Some?
                && Stored(old(UpdateWithIgnored(ignoredLocations - {locationNameToId[locationName]})),
                          refresh.value, locationsAvailable, glitchedLocations)
                && RefreshEffect(refresh.value)
    {
      if !GameLoaded() {
        return GameNotLoaded, None;
      }
      if locationName !in locationNameToId {
        return UnknownLocation, None;
      }
      var location := locationNameToId[locationName];
      if location !in ignoredLocations {
        return NotIgnored, None;
      }
      var r := RefreshWithIgnored(ignoredLocations - {location});
      return Done, Some(r);
    }

    /** `_cmd_reset_ignored`: empty the ignore list and refresh. */
    method ResetIgnored() returns (refresh: Result<Option<ClientTrackerState>, UpdateError>)
      modifies this`ignoredLocations, this`locationsAvailable, this`glitchedLocations, this`iconStatus
      ensures ignoredLocations == {}
      ensures Stored(old(UpdateWithIgnored({})), refresh, locationsAvailable, glitchedLocations)
      ensures RefreshEffect(refresh)
    {
      refresh := RefreshWithIgnored({});
    }

    /** The index the data storage selects, through the world's index
        function. */
    function StoredIndex(): int
      reads this, trackerWorld
      requires trackerWorld != null
    {
      var key := MapSettingKey(trackerWorld.mapPageSettingKey, slot, team);
      trackerWorld.mapPageIndex(if key in storedText then storedText[key] else "")
    }

    /** `load_map`: resolve the requested map, record its index, point the
        view at its image in the pack, and merge the compatibility pins into
        the section pins.  The pack location, whether it is a zip file, and
        the two pin tables built from the pack's JSON are parameters. */
    method LoadMap(request: MapRequest, packName: string, packRef: string, packIsZip: bool,
                   sectionCoords: map<Coord, seq<int>>, compatCoords: map<Coord, seq<int>>)
      returns (outcome: LoadOutcome)
      modifies this`mapId, this`rootPackPath, this`uiSource, this`locSize, this`locIconSize, this`locBorder,
               this`coords
      ensures !hasUi || trackerWorld == null ==> outcome == NoMapView && unchanged(this)
      ensures hasUi && trackerWorld != null ==>
                var res := old(ResolveMap(request, MapNames(maps), mapId, autoTab, StoredIndex()));
                && (res == KeepMap ==> outcome == MapKept && unchanged(this))
                && (res == NoSuchMap ==> outcome == MapMissing && unchanged(this))
                && (res.LoadIndex? ==> mapId == Some(res.index))
                && (res.LoadIndex? && trackerWorld.externalPackKey != "" && !(packRef != "" && packIsZip) ==>
                      outcome == PackMissing && rootPackPath == old(rootPackPath) && uiSource == old(uiSource)
                      && locSize == old(locSize) && locIconSize == old(locIconSize) && locBorder == old(locBorder)
                      && coords == old(coords))
                && (res.LoadIndex? && (trackerWorld.externalPackKey == "" || (packRef != "" && packIsZip)) ==>
                      var page := maps[res.index];
                      && outcome == (if trackerWorld.locationSettingKey.None? then LoadedIconKeyMissing else MapLoaded)
                      && rootPackPath == (if trackerWorld.externalPackKey != "" then "ap:zip:" + packRef
                                          else "ap:" + packName + "/" + trackerWorld.mapPageFolder)
                      && uiSource == rootPackPath + "/" + page.img
                      && locSize == LocationSizeOf(page)
                      && locIconSize == IconSizeOf(page)
                      && locBorder == BorderOf(page)
                      && coords == (if |trackerWorld.poptrackerNameMapping| > 0
                                    then MergedCoords(sectionCoords, compatCoords) else sectionCoords))
    {
      if !hasUi || trackerWorld == null {
        return NoMapView;
      }
      var res := ResolveRequest(request);
      match res {
        case KeepMap =>
          return MapKept;
        case NoSuchMap =>
          return MapMissing;
        case LoadIndex(index) =>
          mapId := Some(index);
          outcome := ShowMap(index, packName, packRef, packIsZip, sectionCoords, compatCoords);
      }
    }

    /** The id resolution of `load_map`, searching the map names in order. */
    method ResolveRequest(request: MapRequest) returns (res: Resolution)
      requires trackerWorld != null
      ensures res == ResolveMap(request, MapNames(maps), mapId, autoTab, StoredIndex())
    {
      var names := MapNames(maps);
      match request {
        case StoredMap =>
          var stored := StoredIndex();
          if !autoTab || stored < 0 || stored >= |maps| {
            return KeepMap;
          }
          if mapId == Some(stored) {
            return KeepMap;
          }
          return LoadIndex(stored);
        case MapIndex(requested) =>
          if mapId == Some(requested) {
            return KeepMap;
          }
          if requested < 0 || requested >= |maps| {
            return NoSuchMap;
          }
          return LoadIndex(requested);
        case MapText(text) =>
          if !IsDecimal(text) {
            var found := FindMap(names, text);
            if found.None? {
              return NoSuchMap;
            }
            return LoadIndex(found.value);
          }
          var requested := DecimalValue(text);
          if requested >= |maps| {
            return NoSuchMap;
          }
          return LoadIndex(requested);
      }
    }

    /** The loading part of `load_map` once the index is recorded: the pack
        root, the image path, the sizes with their defaults, and the pins. */
    method ShowMap(index: nat, packName: string, packRef: string, packIsZip: bool,
                   sectionCoords: map<Coord, seq<int>>, compatCoords: map<Coord, seq<int>>)
      returns (outcome: LoadOutcome)
      requires trackerWorld != null && index < |maps|
      modifies this`rootPackPath, this`uiSource, this`locSize, this`locIconSize, this`locBorder, this`coords
      ensures trackerWorld.externalPackKey != "" && !(packRef != "" && packIsZip) ==>
                outcome == PackMissing && unchanged(this)
      ensures trackerWorld.externalPackKey == "" || (packRef != "" && packIsZip) ==>
                var page := maps[index];
                && outcome == (if trackerWorld.locationSettingKey.None? then LoadedIconKeyMissing else MapLoaded)
                && rootPackPath == (if trackerWorld.externalPackKey != "" then "ap:zip:" + packRef
                                    else "ap:" + packName + "/" + trackerWorld.mapPageFolder)
                && uiSource == rootPackPath + "/" + page.img
                && locSize == LocationSizeOf(page)
                && locIconSize == IconSizeOf(page)
                && locBorder == BorderOf(page)
                && coords == (if |trackerWorld.poptrackerNameMapping| > 0
                              then MergedCoords(sectionCoords, compatCoords) else sectionCoords)
    {
      var folder, external := trackerWorld.mapPageFolder, trackerWorld.externalPackKey;
      if external != "" && !(packRef != "" && packIsZip) {
        return PackMissing;
      }
      var root := if external != "" then "ap:zip:" + packRef else "ap:" + packName + "/" + folder;
      var page := maps[index];
      var size := LocationSizeOf(page);
      var iconSize := IconSizeOf(page);
      var border := BorderOf(page);
      var pins := sectionCoords;
      if |trackerWorld.poptrackerNameMapping| > 0 {
        pins := MergeCompatCoords(sectionCoords, compatCoords);
      }
      rootPackPath, uiSource, locSize, locIconSize, locBorder, coords := root, root + "/" + page.img, size, iconSize, border, pins;
      if trackerWorld.locationSettingKey.None? {
        return LoadedIconKeyMissing;
      }
      return MapLoaded;
    }
  }
}
