/** The fuzzer hook of the tracker (worlds/tracker/fuzzer_hook.py): after a
    single-world generation it replays the world's spheres through the
    tracker and checks that each sphere is exactly what the tracker reports
    as in logic.  The tracker call is an oracle: `set_missing_locations`,
    `set_items_received` and `updateTracker().in_logic_locations` together
    are one function of the missing addresses and the inventory. */
module FuzzerHook {
  import Common
  import opened Base

  /** The fuzzer's verdict on one generation. */
  datatype GenOutcome = Success | Failure | OptionError

  /** An item as placed by generation. */
  datatype PlacedItem = PlacedItem(code: int, player: int, classification: Classification)

  /** A location of a sendable sphere, with the item generation put there. */
  datatype SphereLocation = SphereLocation(name: string, address: Common.Option<int>, item: PlacedItem)

  /** Player 1's world after generation: its location addresses, its
      precollected items and the sendable spheres of the multiworld. */
  datatype GeneratedWorld = GeneratedWorld(
    addresses: seq<Common.Option<int>>,
    precollected: seq<PlacedItem>,
    spheres: seq<seq<SphereLocation>>)

  /** The generated multiworld: `worlds[k]` is the world of player `k + 1`. */
  datatype MultiWorld = MultiWorld(worlds: seq<GeneratedWorld>)

  /** The exceptions the hook can raise once it has passed its checks. */
  datatype HookError =
    | NoSlotOne                    // `mw.worlds[1]` with no world at all
    | AddressNotRemaining(address: int)  // `remaining_locations.remove` of an absent address

  /** `updateTracker().in_logic_locations` for the given missing addresses
      and received items. */
  type TrackerOracle = (set<int>, seq<NetworkItem>) -> seq<string>

  /** The addressed locations of the world, in order. */
  function Addressed(addresses: seq<Common.Option<int>>): (r: seq<int>)
    ensures |r| <= |addresses|
    ensures forall a :: a in r <==> Common.Some(a) in addresses
    decreases |addresses|
  {
    if |addresses| == 0 then []
    else
      var n := |addresses| - 1;
      var prefix := Addressed(addresses[..n]);
      assert addresses == addresses[..n] + [addresses[n]];
      match addresses[n]
      case None => prefix
      case Some(a) => prefix + [a]
  }

  /** The starting inventory: every precollected item, found at location -2. */
  function Precollected(items: seq<PlacedItem>): (r: seq<NetworkItem>)
    ensures |r| == |items|
    ensures forall k :: 0 <= k < |items| ==>
              r[k] == NetworkItem(items[k].code, -2, items[k].player, items[k].classification)
    decreases |items|
  {
    if |items| == 0 then []
    else
      var n := |items| - 1;
      Precollected(items[..n]) + [NetworkItem(items[n].code, -2, items[n].player, items[n].classification)]
  }

  function SetOf(s: seq<int>): (r: set<int>)
    ensures forall x :: x in r <==> x in s
  {
    set x | x in s
  }

  /** Python's `list.remove`: drop the first occurrence. */
  function RemoveFirst(s: seq<int>, x: int): (r: seq<int>)
    requires x in s
    ensures |r| == |s| - 1
    ensures multiset(r) == multiset(s) - multiset{x}
    decreases |s|
  {
    if s[0] == x then
      assert s == [s[0]] + s[1..];
      s[1..]
    else
      assert s == [s[0]] + s[1..];
      [s[0]] + RemoveFirst(s[1..], x)
  }

  // ---------------------------------------------------------------------
  // One sphere
  // ---------------------------------------------------------------------

  /** The sphere as a name-keyed dict of its addressed locations; a later
      location of the same name replaces an earlier one. */
  function SphereIndex(sphere: seq<SphereLocation>): (r: map<string, SphereLocation>)
    ensures forall name :: name in r ==> r[name].name == name && r[name].address.Some? && r[name] in sphere
    decreases |sphere|
  {
    if |sphere| == 0 then map[]
    else
      var n := |sphere| - 1;
      var prior := SphereIndex(sphere[..n]);
      if sphere[n].address.Some? then prior[sphere[n].name := sphere[n]] else prior
  }

  /** The dict holds exactly the names of the addressed locations. */
  lemma {:induction false} SphereIndexKeys(sphere: seq<SphereLocation>, name: string)
    ensures name in SphereIndex(sphere) <==>
              exists k :: 0 <= k < |sphere| && sphere[k].name == name && sphere[k].address.Some?
    decreases |sphere|
  {
    if |sphere| > 0 {
      var n := |sphere| - 1;
      var prior := sphere[..n];
      SphereIndexKeys(prior, name);
      if name in SphereIndex(sphere) {
        if !(sphere[n].name == name && sphere[n].address.Some?) {
          var k :| 0 <= k < n && prior[k].name == name && prior[k].address.Some?;
          assert sphere[k] == prior[k];
        }
      } else {
        forall k | 0 <= k < |sphere|
          ensures !(sphere[k].name == name && sphere[k].address.Some?)
        {
          if k < n {
            assert sphere[k] == prior[k];
          }
        }
      }
    }
  }

  /** Each name is bound to the last addressed location of that name. */
  lemma {:induction false} SphereIndexLastWins(sphere: seq<SphereLocation>, name: string)
    requires name in SphereIndex(sphere)
    ensures exists k :: 0 <= k < |sphere| && SphereIndex(sphere)[name] == sphere[k]
                        && forall j :: k < j < |sphere| ==> !(sphere[j].name == name && sphere[j].address.Some?)
    decreases |sphere|
  {
    var n := |sphere| - 1;
    var prior := sphere[..n];
    if sphere[n].name == name && sphere[n].address.Some? {
      assert SphereIndex(sphere)[name] == sphere[n];
    } else {
      SphereIndexLastWins(prior, name);
      var k :| 0 <= k < n && SphereIndex(prior)[name] == prior[k]
               && forall j :: k < j < n ==> !(prior[j].name == name && prior[j].address.Some?);
      assert SphereIndex(sphere)[name] == sphere[k];
      forall j | k < j < |sphere|
        ensures !(sphere[j].name == name && sphere[j].address.Some?)
      {
        if j < n {
          assert sphere[j] == prior[j];
        }
      }
    }
  }

  /** The dict-building loop over one sphere. */
  method IndexSphere(sphere: seq<SphereLocation>) returns (current: map<string, SphereLocation>)
    ensures current == SphereIndex(sphere)
  {
    current := map[];
    var i := 0;
    while i < |sphere|
      invariant 0 <= i <= |sphere|
      invariant current == SphereIndex(sphere[..i])
    {
      assert sphere[..i + 1][..i] == sphere[..i];
      if sphere[i].address.Some? {
        current := current[sphere[i].name := sphere[i]];
      }
      i := i + 1;
    }
    assert sphere[..i] == sphere;
  }

  /** The inventory and the addresses still missing, between tracker calls. */
  datatype Progress = Progress(inventory: seq<NetworkItem>, remaining: seq<int>)

  /** How matching one sphere against the tracker's in-logic list ends. */
  datatype SphereResult =
    | Cleared(progress: Progress)       // every in-logic name was in the sphere and nothing is left
    | Unexpected(name: string)          // an in-logic name is not (or no longer) in the sphere
    | Unreached(names: set<string>)     // sphere locations the tracker did not list
    | RemoveFailed(address: int)        // the address was no longer remaining

  /** The item a matched sphere location adds to the inventory. */
  function Found(loc: SphereLocation): NetworkItem
    requires loc.address.Some?
  {
    NetworkItem(loc.item.code, loc.address.value, loc.item.player, loc.item.classification)
  }

  /** The inner loop: each in-logic name must still be in the sphere; it
      adds its item to the inventory, removes its address once, and leaves
      the sphere. */
  function ClaimSphere(inLogic: seq<string>, current: map<string, SphereLocation>, p: Progress): (r: SphereResult)
    requires forall name :: name in current ==> current[name].address.Some?
    ensures r.Unreached? ==> r.names != {}
    decreases |inLogic|
  {
    if |inLogic| == 0 then
      if |current| > 0 then Unreached(current.Keys) else Cleared(p)
    else
      var name := inLogic[0];
      if name !in current then Unexpected(name)
      else
        var loc := current[name];
        var address := loc.address.value;
        if address !in p.remaining then RemoveFailed(address)
        else
          ClaimSphere(inLogic[1..], current - {name},
                      Progress(p.inventory + [Found(loc)], RemoveFirst(p.remaining, address)))
  }

  /** A sphere is cleared only when the tracker listed each of its names
      exactly once and nothing else. */
  lemma {:induction false} ClaimSphereClearedNames(inLogic: seq<string>, current: map<string, SphereLocation>,
                                                   p: Progress)
    requires forall name :: name in current ==> current[name].address.Some?
    requires ClaimSphere(inLogic, current, p).Cleared?
    ensures Common.NoDup(inLogic)
    ensures forall name :: name in inLogic <==> name in current
    decreases |inLogic|
  {
    if |inLogic| > 0 {
      var name := inLogic[0];
      var loc := current[name];
      var next := Progress(p.inventory + [Found(loc)], RemoveFirst(p.remaining, loc.address.value));
      var rest := current - {name};
      var tail := inLogic[1..];
      ClaimSphereClearedNames(tail, rest, next);
      assert inLogic == [name] + tail;
      forall k | 1 <= k < |inLogic|
        ensures inLogic[k] != name
      {
        assert inLogic[k] == tail[k - 1] && tail[k - 1] in rest;
      }
      forall n
        ensures n in inLogic <==> n in current
      {
        if n != name {
          assert n in inLogic <==> n in tail;
        }
      }
    }
  }

  /** The items the listed names add, in the order they are listed. */
  function ClaimedItems(names: seq<string>, current: map<string, SphereLocation>): (r: seq<NetworkItem>)
    requires forall name :: name in names ==> name in current && current[name].address.Some?
    ensures |r| == |names|
    decreases |names|
  {
    if |names| == 0 then [] else [Found(current[names[0]])] + ClaimedItems(names[1..], current)
  }

  /** The addresses the listed names remove, in the order they are listed. */
  function ClaimedAddresses(names: seq<string>, current: map<string, SphereLocation>): (r: seq<int>)
    requires forall name :: name in names ==> name in current && current[name].address.Some?
    ensures |r| == |names|
    decreases |names|
  {
    if |names| == 0 then [] else [current[names[0]].address.value] + ClaimedAddresses(names[1..], current)
  }

  /** Dropping a name the list does not hold changes neither claim. */
  lemma {:induction false} ClaimedWithout(names: seq<string>, current: map<string, SphereLocation>, gone: string)
    requires gone !in names
    requires forall name :: name in names ==> name in current && current[name].address.Some?
    ensures ClaimedItems(names, current - {gone}) == ClaimedItems(names, current)
    ensures ClaimedAddresses(names, current - {gone}) == ClaimedAddresses(names, current)
    decreases |names|
  {
    if |names| > 0 {
      assert names[0] in names;
      assert forall name :: name in names[1..] ==> name in names;
      ClaimedWithout(names[1..], current, gone);
    }
  }

  /** The first listed name of a sphere is matched: its item is appended,
      its address removed, and it leaves the sphere. */
  lemma ClaimSphereHead(inLogic: seq<string>, current: map<string, SphereLocation>, p: Progress)
    requires forall name :: name in current ==> current[name].address.Some?
    requires ClaimSphere(inLogic, current, p).Cleared? && |inLogic| > 0
    ensures inLogic[0] in current && current[inLogic[0]].address.value in p.remaining
    ensures var loc := current[inLogic[0]];
            ClaimSphere(inLogic, current, p)
            == ClaimSphere(inLogic[1..], current - {inLogic[0]},
                           Progress(p.inventory + [Found(loc)], RemoveFirst(p.remaining, loc.address.value)))
  {
  }

  /** Clearing a sphere appends, name by name, the item of each listed
      location at that location's address. */
  lemma {:induction false} ClaimSphereClearedInventory(inLogic: seq<string>, current: map<string, SphereLocation>,
                                                       p: Progress)
    requires forall name :: name in current ==> current[name].address.Some?
    requires ClaimSphere(inLogic, current, p).Cleared?
    ensures forall name :: name in inLogic ==> name in current
    ensures ClaimSphere(inLogic, current, p).progress.inventory == p.inventory + ClaimedItems(inLogic, current)
    decreases |inLogic|
  {
    ClaimSphereClearedNames(inLogic, current, p);
    if |inLogic| == 0 {
      assert p.inventory + [] == p.inventory;
    } else {
      ClaimSphereHead(inLogic, current, p);
      var name := inLogic[0];
      var loc := current[name];
      var next := Progress(p.inventory + [Found(loc)], RemoveFirst(p.remaining, loc.address.value));
      var tail := inLogic[1..];
      ClaimSphereClearedInventory(tail, current - {name}, next);
      ClaimSphereClearedNames(tail, current - {name}, next);
      ClaimedWithout(tail, current, name);
      assert p.inventory + [Found(loc)] + ClaimedItems(tail, current) == p.inventory + ClaimedItems(inLogic, current);
    }
  }

  /** Clearing a sphere removes each listed location's address once from
      the remaining ones. */
  lemma {:induction false} ClaimSphereClearedRemaining(inLogic: seq<string>, current: map<string, SphereLocation>,
                                                       p: Progress)
    requires forall name :: name in current ==> current[name].address.Some?
    requires ClaimSphere(inLogic, current, p).Cleared?
    ensures forall name :: name in inLogic ==> name in current
    ensures multiset(ClaimSphere(inLogic, current, p).progress.remaining)
            == multiset(p.remaining) - multiset(ClaimedAddresses(inLogic, current))
    decreases |inLogic|
  {
    ClaimSphereClearedNames(inLogic, current, p);
    if |inLogic| > 0 {
      ClaimSphereHead(inLogic, current, p);
      var name := inLogic[0];
      var address := current[name].address.value;
      var next := Progress(p.inventory + [Found(current[name])], RemoveFirst(p.remaining, address));
      var tail := inLogic[1..];
      ClaimSphereClearedRemaining(tail, current - {name}, next);
      ClaimSphereClearedNames(tail, current - {name}, next);
      ClaimedWithout(tail, current, name);
      var later := multiset(ClaimedAddresses(tail, current));
      assert multiset(ClaimedAddresses(inLogic, current)) == multiset{address} + later;
      assert (multiset(p.remaining) - multiset{address}) - later == multiset(p.remaining) - (multiset{address} + later);
    }
  }

  /** Clearing a sphere appends the listed locations' items in listing
      order and removes their addresses, one per listed name. */
  lemma ClaimSphereClearedProgress(inLogic: seq<string>, current: map<string, SphereLocation>, p: Progress)
    requires forall name :: name in current ==> current[name].address.Some?
    requires ClaimSphere(inLogic, current, p).Cleared?
    ensures forall name :: name in inLogic ==> name in current
    ensures var q := ClaimSphere(inLogic, current, p).progress;
            && q.inventory == p.inventory + ClaimedItems(inLogic, current)
            && multiset(q.remaining) == multiset(p.remaining) - multiset(ClaimedAddresses(inLogic, current))
            && |q.remaining| + |inLogic| == |p.remaining|
  {
    ClaimSphereClearedInventory(inLogic, current, p);
    ClaimSphereClearedRemaining(inLogic, current, p);
    ClaimSphereClearedCount(inLogic, current, p);
  }

  /** Clearing a sphere removes one address per listed name. */
  lemma {:induction false} ClaimSphereClearedCount(inLogic: seq<string>, current: map<string, SphereLocation>,
                                                   p: Progress)
    requires forall name :: name in current ==> current[name].address.Some?
    requires ClaimSphere(inLogic, current, p).Cleared?
    ensures |ClaimSphere(inLogic, current, p).progress.remaining| + |inLogic| == |p.remaining|
    decreases |inLogic|
  {
    if |inLogic| > 0 {
      ClaimSphereHead(inLogic, current, p);
      var name := inLogic[0];
      var address := current[name].address.value;
      ClaimSphereClearedCount(inLogic[1..], current - {name},
                              Progress(p.inventory + [Found(current[name])], RemoveFirst(p.remaining, address)));
    }
  }

  /** The converse for one sphere: a tracker that lists each name of the
      sphere once and nothing else clears it, when the sphere's addresses
      are distinct and all still remaining. */
  lemma {:induction false} ClaimSphereExact(inLogic: seq<string>, current: map<string, SphereLocation>, p: Progress)
    requires forall name :: name in current ==> current[name].address.Some? && current[name].address.value in p.remaining
    requires forall a, b :: a in current && b in current && a != b ==> current[a].address != current[b].address
    requires Common.NoDup(inLogic)
    requires forall name :: name in inLogic <==> name in current
    ensures ClaimSphere(inLogic, current, p).Cleared?
    decreases |inLogic|
  {
    if |inLogic| == 0 {
      assert current.Keys == {};
    } else {
      var name := inLogic[0];
      assert name in inLogic;
      var loc := current[name];
      var address := loc.address.value;
      var remaining := RemoveFirst(p.remaining, address);
      var next := Progress(p.inventory + [Found(loc)], remaining);
      var rest := current - {name};
      var tail := inLogic[1..];
      forall other | other in rest
        ensures rest[other].address.value in remaining
      {
        var x := rest[other].address.value;
        assert x != address;
        assert multiset(remaining)[x] == multiset(p.remaining)[x];
      }
      forall other
        ensures other in tail <==> other in rest
      {
        if other in tail {
          var k :| 0 <= k < |tail| && tail[k] == other;
          assert inLogic[k + 1] == other;
        }
        if other in rest {
          assert other in inLogic && other != inLogic[0];
        }
      }
      assert Common.NoDup(tail) by {
        forall a, b | 0 <= a < b < |tail| ensures tail[a] != tail[b] {
          assert tail[a] == inLogic[a + 1] && tail[b] == inLogic[b + 1];
        }
      }
      ClaimSphereExact(tail, rest, next);
    }
  }

  /** A name the tracker lists that is not in the sphere is reported. */
  lemma {:induction false} ClaimSphereUnexpected(inLogic: seq<string>, current: map<string, SphereLocation>,
                                                 p: Progress)
    requires forall name :: name in current ==> current[name].address.Some?
    requires ClaimSphere(inLogic, current, p).Unexpected?
    ensures ClaimSphere(inLogic, current, p).name in inLogic
    decreases |inLogic|
  {
    var name := inLogic[0];
    if name in current {
      var loc := current[name];
      ClaimSphereUnexpected(inLogic[1..], current - {name},
                            Progress(p.inventory + [Found(loc)], RemoveFirst(p.remaining, loc.address.value)));
    }
  }

  /** The inner loop of `after_generate`. */
  method ClaimSphereLoop(inLogic: seq<string>, sphere: map<string, SphereLocation>, start: Progress)
    returns (r: SphereResult)
    requires forall name :: name in sphere ==> sphere[name].address.Some?
    ensures r == ClaimSphere(inLogic, sphere, start)
  {
    var current := sphere;
    var inventory, remaining := start.inventory, start.remaining;
    var i := 0;
    while i < |inLogic|
      invariant 0 <= i <= |inLogic|
      invariant current.Keys <= sphere.Keys && forall name :: name in current ==> current[name] == sphere[name]
      invariant ClaimSphere(inLogic, sphere, start)
                == ClaimSphere(inLogic[i..], current, Progress(inventory, remaining))
    {
      var name := inLogic[i];
      assert inLogic[i..][1..] == inLogic[i + 1..];
      if name !in current {
        return Unexpected(name);
      }
      var loc := current[name];
      if loc.address.value !in remaining {
        return RemoveFailed(loc.address.value);
      }
      inventory := inventory + [Found(loc)];
      remaining := RemoveFirst(remaining, loc.address.value);
      current := current - {name};
      i := i + 1;
    }
    if |current| > 0 {
      return Unreached(current.Keys);
    }
    return Cleared(Progress(inventory, remaining));
  }

  // ---------------------------------------------------------------------
  // All spheres
  // ---------------------------------------------------------------------

  /** How the sphere replay ends: a verdict, or an exception. */
  datatype Replay = Verdict(status: GenOutcome) | Raised(error: HookError)

  /** The sphere loop: an empty sphere (no addressed location) ends the
      check; otherwise the tracker is asked with the remaining addresses as
      missing and the inventory as received, and the sphere must be cleared. */
  function ReplaySpheres(spheres: seq<seq<SphereLocation>>, p: Progress, oracle: TrackerOracle): (r: Replay)
    ensures r != Verdict(OptionError)
    decreases |spheres|
  {
    if |spheres| == 0 then Verdict(Success)
    else
      var current := SphereIndex(spheres[0]);
      if |current| == 0 then Verdict(Success)
      else
        match ClaimSphere(oracle(SetOf(p.remaining), p.inventory), current, p)
        case Cleared(next) => ReplaySpheres(spheres[1..], next, oracle)
        case Unexpected(_) => Verdict(Failure)
        case Unreached(_) => Verdict(Failure)
        case RemoveFailed(address) => Raised(AddressNotRemaining(address))
  }

  /** Matching one sphere against the tracker's answer for a progress. */
  function ClaimAt(sphere: seq<SphereLocation>, p: Progress, oracle: TrackerOracle): SphereResult
  {
    ClaimSphere(oracle(SetOf(p.remaining), p.inventory), SphereIndex(sphere), p)
  }

  /** The progress with which the replay arrives at sphere `k`: every
      earlier sphere was non-empty and cleared; `None` when the replay
      stopped before it. */
  function Reached(spheres: seq<seq<SphereLocation>>, p: Progress, oracle: TrackerOracle, k: nat)
    : Common.Option<Progress>
    decreases k
  {
    if k == 0 then Common.Some(p)
    else if |spheres| == 0 || |SphereIndex(spheres[0])| == 0 then Common.None
    else
      match ClaimAt(spheres[0], p, oracle)
      case Cleared(next) => Reached(spheres[1..], next, oracle, k - 1)
      case _ => Common.None
  }

  /** Sphere `k + 1` is reached exactly when sphere `k` was reached, is not
      empty and is cleared, and then with the progress that clearing left. */
  lemma {:induction false} ReachedStep(spheres: seq<seq<SphereLocation>>, p: Progress, oracle: TrackerOracle, k: nat)
    requires k < |spheres|
    ensures var at := Reached(spheres, p, oracle, k);
            Reached(spheres, p, oracle, k + 1)
            == if at.Some? && |SphereIndex(spheres[k])| > 0 && ClaimAt(spheres[k], at.value, oracle).Cleared?
               then Common.Some(ClaimAt(spheres[k], at.value, oracle).progress)
               else Common.None
    decreases k
  {
    if k > 0 && |SphereIndex(spheres[0])| > 0 && ClaimAt(spheres[0], p, oracle).Cleared? {
      var next := ClaimAt(spheres[0], p, oracle).progress;
      ReachedStep(spheres[1..], next, oracle, k - 1);
      assert spheres[1..][k - 1] == spheres[k];
    }
  }

  /** The tracker agrees at sphere `k`: the replay does not get there, the
      sphere is empty, or the sphere is cleared. */
  predicate SphereAgrees(spheres: seq<seq<SphereLocation>>, p: Progress, oracle: TrackerOracle, k: nat)
    requires k < |spheres|
  {
    var at := Reached(spheres, p, oracle, k);
    at.None? || |SphereIndex(spheres[k])| == 0 || ClaimAt(spheres[k], at.value, oracle).Cleared?
  }

  /** The replay succeeds exactly when the tracker agrees at every sphere
      it reaches: it lists each reached, non-empty sphere exactly (see
      ClaimSphereClearedNames and ClaimSphereExact). */
  lemma {:induction false} ReplaySucceedsIff(spheres: seq<seq<SphereLocation>>, p: Progress, oracle: TrackerOracle)
    ensures ReplaySpheres(spheres, p, oracle) == Verdict(Success)
            <==> forall k :: 0 <= k < |spheres| ==> SphereAgrees(spheres, p, oracle, k)
    decreases |spheres|
  {
    if |spheres| > 0 {
      if |SphereIndex(spheres[0])| == 0 {
        forall k | 0 <= k < |spheres|
          ensures SphereAgrees(spheres, p, oracle, k)
        {
          if k > 0 {
            assert Reached(spheres, p, oracle, k).None?;
          }
        }
      } else {
        var claim := ClaimAt(spheres[0], p, oracle);
        if !claim.Cleared? {
          assert !SphereAgrees(spheres, p, oracle, 0);
        } else {
          var tail := spheres[1..];
          var next := claim.progress;
          ReplaySucceedsIff(tail, next, oracle);
          assert SphereAgrees(spheres, p, oracle, 0);
          forall k | 0 <= k < |tail|
            ensures SphereAgrees(spheres, p, oracle, k + 1) <==> SphereAgrees(tail, next, oracle, k)
          {
            assert Reached(spheres, p, oracle, k + 1) == Reached(tail, next, oracle, k);
            assert spheres[k + 1] == tail[k];
          }
          if forall k :: 0 <= k < |tail| ==> SphereAgrees(tail, next, oracle, k) {
            forall k | 0 <= k < |spheres|
              ensures SphereAgrees(spheres, p, oracle, k)
            {
              if k > 0 {
                assert SphereAgrees(tail, next, oracle, k - 1);
              }
            }
          } else {
            var k :| 0 <= k < |tail| && !SphereAgrees(tail, next, oracle, k);
            assert !SphereAgrees(spheres, p, oracle, k + 1);
          }
        }
      }
    }
  }

  /** The replay stops at sphere `k` with outcome `r`: it reaches the
      sphere, the sphere is not empty, and the tracker's answer there ends
      the replay with `r`. */
  predicate StopsAt(spheres: seq<seq<SphereLocation>>, p: Progress, oracle: TrackerOracle, k: nat, r: Replay)
    requires k < |spheres|
  {
    var at := Reached(spheres, p, oracle, k);
    && at.Some? && |SphereIndex(spheres[k])| > 0
    && var claim := ClaimAt(spheres[k], at.value, oracle);
       || (r == Verdict(Failure) && (claim.Unexpected? || claim.Unreached?))
       || (claim.RemoveFailed? && r == Raised(AddressNotRemaining(claim.address)))
  }

  /** A replay that does not succeed stopped at a sphere it reached: a
      failure where the tracker listed a name outside the sphere or left
      one of its names out, an exception where a listed address was no
      longer remaining. */
  lemma {:induction false} ReplayStopsAtSphere(spheres: seq<seq<SphereLocation>>, p: Progress, oracle: TrackerOracle)
    requires ReplaySpheres(spheres, p, oracle) != Verdict(Success)
    ensures exists k :: 0 <= k < |spheres| && StopsAt(spheres, p, oracle, k, ReplaySpheres(spheres, p, oracle))
    decreases |spheres|
  {
    var r := ReplaySpheres(spheres, p, oracle);
    var claim := ClaimAt(spheres[0], p, oracle);
    if claim.Cleared? {
      var tail := spheres[1..];
      var next := claim.progress;
      assert r == ReplaySpheres(tail, next, oracle);
      ReplayStopsAtSphere(tail, next, oracle);
      var k :| 0 <= k < |tail| && StopsAt(tail, next, oracle, k, r);
      assert Reached(spheres, p, oracle, k + 1) == Reached(tail, next, oracle, k);
      assert spheres[k + 1] == tail[k];
      assert StopsAt(spheres, p, oracle, k + 1, r);
    } else {
      assert StopsAt(spheres, p, oracle, 0, r);
    }
  }

  /** The sphere loop of `after_generate`. */
  method ReplayLoop(spheres: seq<seq<SphereLocation>>, start: Progress, oracle: TrackerOracle) returns (r: Replay)
    ensures r == ReplaySpheres(spheres, start, oracle)
  {
    var inventory, remaining := start.inventory, start.remaining;
    var i := 0;
    while i < |spheres|
      invariant 0 <= i <= |spheres|
      invariant ReplaySpheres(spheres, start, oracle) == ReplaySpheres(spheres[i..], Progress(inventory, remaining), oracle)
    {
      assert spheres[i..][1..] == spheres[i + 1..];
      var current := IndexSphere(spheres[i]);
      if |current| == 0 {
        return Verdict(Success);
      }
      // set_missing_locations, set_items_received, then updateTracker
      var inLogic := oracle(SetOf(remaining), inventory);
      var claim := ClaimSphereLoop(inLogic, current, Progress(inventory, remaining));
      match claim {
        case Cleared(next) =>
          inventory, remaining := next.inventory, next.remaining;
        case Unexpected(_) =>
          return Verdict(Failure);
        case Unreached(_) =>
          return Verdict(Failure);
        case RemoveFailed(address) =>
          return Raised(AddressNotRemaining(address));
      }
      i := i + 1;
    }
    return Verdict(Success);
  }

  /** What `after_generate` leaves in `status`, and the exception it raises
      if any. */
  datatype HookRun = HookRun(status: GenOutcome, error: Common.Option<HookError>)

  function AfterGenerateSpec(mw: Common.Option<MultiWorld>, oracle: TrackerOracle): (r: HookRun)
    ensures mw.None? || |mw.value.worlds| > 1 ==> r == HookRun(OptionError, Common.None)
    ensures mw.Some? && |mw.value.worlds| <= 1 ==> r.status != OptionError
  {
    if mw.None? || |mw.value.worlds| > 1 then HookRun(OptionError, Common.None)
    else if |mw.value.worlds| == 0 then HookRun(Success, Common.Some(NoSlotOne))
    else
      var world := mw.value.worlds[0];
      match ReplaySpheres(world.spheres, Progress(Precollected(world.precollected), Addressed(world.addresses)), oracle)
      case Verdict(status) => HookRun(status, Common.None)
      case Raised(error) => HookRun(Success, Common.Some(error))
  }

  class Hook {
    var status: Common.Option<GenOutcome>

    /** `after_generate`: only a single generated world is checked; its
        spheres are replayed through the tracker in order. */
    method AfterGenerate(mw: Common.Option<MultiWorld>, oracle: TrackerOracle) returns (error: Common.Option<HookError>)
      modifies this`status
      ensures status == Common.Some(AfterGenerateSpec(mw, oracle).status)
      ensures error == AfterGenerateSpec(mw, oracle).error
    {
      status := Common.Some(OptionError);
      if mw.None? {
        return Common.None;
      }
      if |mw.value.worlds| > 1 {
        return Common.None;
      }
      status := Common.Some(Success);
      if |mw.value.worlds| == 0 {
        return Common.Some(NoSlotOne);
      }
      var world := mw.value.worlds[0];
      var replay := ReplayLoop(world.spheres, Progress(Precollected(world.precollected), Addressed(world.addresses)),
                               oracle);
      match replay {
        case Verdict(verdict) =>
          status := Common.Some(verdict);
          return Common.None;
        case Raised(e) =>
          return Common.Some(e);
      }
    }
  }
}
