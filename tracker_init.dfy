/** The tracker package's shared records: the snapshot `updateTracker`
    returns and the map-tab settings a world hands to the tracker
    (worlds/tracker/__init__.py). */
module TrackerInit {
  import opened Common
  import opened Base

  /** The snapshot returned by `TrackerCore.updateTracker`, field for field in
      the order of its constructor call. */
  datatype CurrentTrackerState = CurrentTrackerState(
    allItems: map<string, nat>,
    progItems: map<string, nat>,
    glitchedLocations: seq<string>,
    events: seq<string>,
    inLogicLocations: seq<string>,
    inLogicRegions: seq<string>,
    unconnectedEntrances: seq<string>,
    readableLocations: seq<string>,
    hintedLocations: seq<Location>,
    state: CollectionState)

  /** The snapshot of a tracker that has no world bound yet. */
  const EmptyTrackerState: CurrentTrackerState :=
    CurrentTrackerState(map[], map[], [], [], [], [], [], [], [], CollectionState([], false))

  /** A `str | list[str]` argument. */
  datatype StrOrList = Str(text: string) | StrList(items: seq<string>)

  /** A single page name becomes a one-page list; a list is kept as given. */
  function PageList(pages: StrOrList): (r: seq<string>)
    ensures pages.Str? ==> |r| == 1 && r[0] == pages.text
    ensures pages.StrList? ==> r == pages.items
  {
    match pages
    case Str(text) => [text]
    case StrList(items) => items
  }

  /** Why `str.format` raises: a `}` that is not doubled, or a replacement
      field other than `{player}` and `{team}` (a `{` left open included). */
  datatype FormatError = LoneClosingBrace | UnsupportedField

  /** Text put in front of a formatting result; an error stays an error. */
  function Prepend(text: string, r: Result<string, FormatError>): Result<string, FormatError>
  {
    if r.Success? then Success(text + r.value) else r
  }

  /** `template.format(player=..., team=...)`: `{{` and `}}` stand for one
      brace, `{player}` and `{team}` for the decimal numbers, and other text
      is copied; a lone `}` or any other field raises. */
  function FormatKey(template: string, player: int, team: int): Result<string, FormatError>
    decreases |template|
  {
    if |template| == 0 then Success("")
    else if StartsWith(template, "{{") then Prepend("{", FormatKey(template[2..], player, team))
    else if StartsWith(template, "}}") then Prepend("}", FormatKey(template[2..], player, team))
    else if StartsWith(template, "{player}") then Prepend(IntToString(player), FormatKey(template[8..], player, team))
    else if StartsWith(template, "{team}") then Prepend(IntToString(team), FormatKey(template[6..], player, team))
    else if template[0] == '{' then Failure(UnsupportedField)
    else if template[0] == '}' then Failure(LoneClosingBrace)
    else Prepend([template[0]], FormatKey(template[1..], player, team))
  }

  /** Text holding neither brace. */
  predicate Plain(s: string)
  {
    '{' !in s && '}' !in s
  }

  /** A template that does not start with a brace copies its first character. */
  lemma FormatKeyPlainHead(template: string, player: int, team: int)
    requires |template| > 0 && template[0] != '{' && template[0] != '}'
    ensures FormatKey(template, player, team) == Prepend([template[0]], FormatKey(template[1..], player, team))
  {
    assert !StartsWith(template, "{{") && !StartsWith(template, "}}") by {
      if |template| >= 2 { assert template[..2][0] == template[0]; }
    }
    assert !StartsWith(template, "{player}") by {
      if |template| >= 8 { assert template[..8][0] == template[0]; }
    }
    assert !StartsWith(template, "{team}") by {
      if |template| >= 6 { assert template[..6][0] == template[0]; }
    }
  }

  /** The same, for a character put in front of a template. */
  lemma FormatKeyPlainCons(c: char, tail: string, player: int, team: int)
    requires c != '{' && c != '}'
    ensures FormatKey([c] + tail, player, team) == Prepend([c], FormatKey(tail, player, team))
  {
    var template := [c] + tail;
    FormatKeyPlainHead(template, player, team);
    assert template[1..] == tail;
  }

  /** A template with no brace comes back unchanged. */
  lemma {:induction false} FormatKeyWithoutFields(template: string, player: int, team: int)
    requires Plain(template)
    ensures FormatKey(template, player, team) == Success(template)
    decreases |template|
  {
    if |template| > 0 {
      FormatKeyPlainHead(template, player, team);
      FormatKeyWithoutFields(template[1..], player, team);
      assert [template[0]] + template[1..] == template;
    }
  }

  /** Text put in front in two steps is the two texts put in front at once. */
  lemma PrependTwice(a: string, b: string, r: Result<string, FormatError>)
    ensures Prepend(a, Prepend(b, r)) == Prepend(a + b, r)
  {
    if r.Success? {
      assert a + (b + r.value) == (a + b) + r.value;
    }
  }

  /** Text without a brace is copied in front of whatever follows it, and
      an error after it is the error of the whole. */
  lemma {:induction false} FormatKeyAfterPlain(prefix: string, rest: string, player: int, team: int)
    requires Plain(prefix)
    ensures FormatKey(prefix + rest, player, team) == Prepend(prefix, FormatKey(rest, player, team))
    decreases |prefix|
  {
    if |prefix| > 0 {
      var c := prefix[0];
      var tail := prefix[1..];
      assert prefix + rest == [c] + (tail + rest);
      assert c in prefix;
      FormatKeyPlainCons(c, tail + rest, player, team);
      assert Plain(tail) by {
        assert forall x :: x in tail ==> x in prefix;
      }
      FormatKeyAfterPlain(tail, rest, player, team);
      PrependTwice([c], tail, FormatKey(rest, player, team));
      assert [c] + tail == prefix;
    } else {
      assert prefix + rest == rest;
      if FormatKey(rest, player, team).Success? {
        assert prefix + FormatKey(rest, player, team).value == FormatKey(rest, player, team).value;
      }
    }
  }

  /** The escapes and the two fields, each at the head of a template. */
  lemma FormatKeyPlayerHead(suffix: string, player: int, team: int)
    ensures FormatKey("{player}" + suffix, player, team) == Prepend(IntToString(player), FormatKey(suffix, player, team))
  {
    var t := "{player}" + suffix;
    assert t[1] == 'p';
    assert t[..8] == "{player}";
    assert t[8..] == suffix;
  }

  lemma FormatKeyTeamHead(suffix: string, player: int, team: int)
    ensures FormatKey("{team}" + suffix, player, team) == Prepend(IntToString(team), FormatKey(suffix, player, team))
  {
    var t := "{team}" + suffix;
    assert t[1] == 't';
    assert !StartsWith(t, "{player}") by {
      if |t| >= 8 { assert t[..8][1] == 't'; }
    }
    assert t[..6] == "{team}";
    assert t[6..] == suffix;
  }

  lemma FormatKeyOpenEscapeHead(suffix: string, player: int, team: int)
    ensures FormatKey("{{" + suffix, player, team) == Prepend("{", FormatKey(suffix, player, team))
  {
    var t := "{{" + suffix;
    assert t[..2] == "{{";
    assert t[2..] == suffix;
  }

  lemma FormatKeyCloseEscapeHead(suffix: string, player: int, team: int)
    ensures FormatKey("}}" + suffix, player, team) == Prepend("}", FormatKey(suffix, player, team))
  {
    var t := "}}" + suffix;
    assert t[0] == '}';
    assert !StartsWith(t, "{{") by { assert t[..2][0] == '}'; }
    assert t[..2] == "}}";
    assert t[2..] == suffix;
  }

  /** One piece between two texts without braces. */
  lemma FormatKeyBetweenPlain(prefix: string, piece: string, value: string, suffix: string, player: int, team: int)
    requires Plain(prefix) && Plain(suffix)
    requires FormatKey(piece + suffix, player, team) == Prepend(value, FormatKey(suffix, player, team))
    ensures FormatKey(prefix + piece + suffix, player, team) == Success(prefix + value + suffix)
  {
    assert prefix + piece + suffix == prefix + (piece + suffix);
    FormatKeyAfterPlain(prefix, piece + suffix, player, team);
    FormatKeyWithoutFields(suffix, player, team);
    PrependTwice(prefix, value, FormatKey(suffix, player, team));
    assert prefix + value + suffix == (prefix + value) + suffix;
  }

  /** A `{player}` field is replaced by the player number. */
  lemma FormatKeyFillsPlayer(prefix: string, suffix: string, player: int, team: int)
    requires Plain(prefix) && Plain(suffix)
    ensures FormatKey(prefix + "{player}" + suffix, player, team) == Success(prefix + IntToString(player) + suffix)
  {
    FormatKeyPlayerHead(suffix, player, team);
    FormatKeyBetweenPlain(prefix, "{player}", IntToString(player), suffix, player, team);
  }

  /** A `{team}` field is replaced by the team number. */
  lemma FormatKeyFillsTeam(prefix: string, suffix: string, player: int, team: int)
    requires Plain(prefix) && Plain(suffix)
    ensures FormatKey(prefix + "{team}" + suffix, player, team) == Success(prefix + IntToString(team) + suffix)
  {
    FormatKeyTeamHead(suffix, player, team);
    FormatKeyBetweenPlain(prefix, "{team}", IntToString(team), suffix, player, team);
  }

  /** Doubled braces stand for one brace each. */
  lemma FormatKeyDoubledBraces(prefix: string, suffix: string, player: int, team: int)
    requires Plain(prefix) && Plain(suffix)
    ensures FormatKey(prefix + "{{" + suffix, player, team) == Success(prefix + "{" + suffix)
    ensures FormatKey(prefix + "}}" + suffix, player, team) == Success(prefix + "}" + suffix)
  {
    FormatKeyOpenEscapeHead(suffix, player, team);
    FormatKeyBetweenPlain(prefix, "{{", "{", suffix, player, team);
    FormatKeyCloseEscapeHead(suffix, player, team);
    FormatKeyBetweenPlain(prefix, "}}", "}", suffix, player, team);
  }

  /** A `}` that is not doubled makes the whole formatting raise. */
  lemma FormatKeyLoneClosingBrace(prefix: string, rest: string, player: int, team: int)
    requires Plain(prefix)
    requires rest == "" || rest[0] != '}'
    ensures FormatKey(prefix + "}" + rest, player, team) == Failure(LoneClosingBrace)
  {
    var t := "}" + rest;
    assert prefix + "}" + rest == prefix + t;
    FormatKeyAfterPlain(prefix, t, player, team);
    assert t[0] == '}';
    assert !StartsWith(t, "}}") by {
      if |t| >= 2 { assert t[..2][1] == t[1] == rest[0]; }
    }
    assert !StartsWith(t, "{{") && !StartsWith(t, "{player}") && !StartsWith(t, "{team}") by {
      if |t| >= 2 { assert t[..2][0] == '}'; }
      if |t| >= 6 { assert t[..6][0] == '}'; }
      if |t| >= 8 { assert t[..8][0] == '}'; }
    }
  }

  /** A field other than `{player}` and `{team}` makes the whole
      formatting raise. */
  lemma FormatKeyOtherField(prefix: string, rest: string, player: int, team: int)
    requires Plain(prefix)
    requires !StartsWith(rest, "{") && !StartsWith(rest, "player}") && !StartsWith(rest, "team}")
    ensures FormatKey(prefix + "{" + rest, player, team) == Failure(UnsupportedField)
  {
    var t := "{" + rest;
    assert prefix + "{" + rest == prefix + t;
    FormatKeyAfterPlain(prefix, t, player, team);
    assert t[1..] == rest;
    assert !StartsWith(t, "{{") by {
      if |t| >= 2 { assert t[..2][1] == rest[0]; assert rest[..1] == [rest[0]]; }
    }
    assert !StartsWith(t, "{player}") by {
      if |t| >= 8 { assert t[..8][1..] == rest[..7]; }
    }
    assert !StartsWith(t, "{team}") by {
      if |t| >= 6 { assert t[..6][1..] == rest[..5]; }
    }
    assert !StartsWith(t, "}}") by { if |t| >= 2 { assert t[..2][0] == '{'; } }
  }

  /** `map_page_setting_key` is formatted only when it is a string; a
      template `str.format` rejects makes the constructor raise. */
  function SettingKey(key: Option<string>, player: int, team: int): (r: Result<Option<string>, FormatError>)
    ensures key.None? ==> r == Success(None)
    ensures key.Some? && FormatKey(key.value, player, team).Success? ==>
              r == Success(Some(FormatKey(key.value, player, team).value))
    ensures key.Some? && FormatKey(key.value, player, team).Failure? ==>
              r == Failure(FormatKey(key.value, player, team).error)
  {
    match key
    case None => Success(None)
    case Some(template) =>
      match FormatKey(template, player, team)
      case Success(formatted) => Success(Some(formatted))
      case Failure(e) => Failure(e)
  }

  /** A missing or non-callable `map_page_index` becomes `lambda _: 0`. */
  function PageIndexOrDefault(index: Option<string -> int>): (f: string -> int)
    ensures index.None? ==> forall stored :: f(stored) == 0
    ensures index.Some? ==> forall stored :: f(stored) == index.value(stored)
  {
    match index
    case None => (_: string) => 0
    case Some(g) => g
  }

  /** A missing or empty name mapping becomes the empty dict; since the empty
      dict is the only falsy dict, a given mapping is kept as it is. */
  function NameMappingOrEmpty(mapping: Option<map<string, int>>): (r: map<string, int>)
    ensures mapping.None? ==> r == map[]
    ensures mapping.Some? ==> r == mapping.value
  {
    match mapping
    case Some(m) => if |m| > 0 then m else map[]
    case None => map[]
  }

  /** The poptracker integration settings of a world. */
  class UTMapTabData {
    var mapPageFolder: string
    var mapPageMaps: seq<string>
    var mapPageLocations: seq<string>
    var mapPageSettingKey: Option<string>
    var mapPageIndex: string -> int
    var externalPackKey: string
    var poptrackerNameMapping: map<string, int>
    var mapPageGlitchesItemName: string
    /** `location_setting_key`, which `load_map` reads: `None` while the
        attribute is not assigned, as the class neither declares nor sets
        it; a world may assign it afterwards. */
    var locationSettingKey: Option<string>

    /** The settings once normalised: every field is stored as given, and
        `location_setting_key` stays unassigned. */
    constructor (mapPageFolder: string, mapPageMaps: seq<string>, mapPageLocations: seq<string>,
                 mapPageSettingKey: Option<string>, mapPageIndex: string -> int, externalPackKey: string,
                 poptrackerNameMapping: map<string, int>, mapPageGlitchesItemName: string)
      ensures this.mapPageFolder == mapPageFolder && this.mapPageMaps == mapPageMaps
      ensures this.mapPageLocations == mapPageLocations && this.mapPageSettingKey == mapPageSettingKey
      ensures this.mapPageIndex == mapPageIndex && this.externalPackKey == externalPackKey
      ensures this.poptrackerNameMapping == poptrackerNameMapping
      ensures this.mapPageGlitchesItemName == mapPageGlitchesItemName
      ensures this.locationSettingKey.None?
    {
      this.mapPageFolder := mapPageFolder;
      this.mapPageMaps := mapPageMaps;
      this.mapPageLocations := mapPageLocations;
      this.mapPageSettingKey := mapPageSettingKey;
      this.mapPageIndex := mapPageIndex;
      this.externalPackKey := externalPackKey;
      this.poptrackerNameMapping := poptrackerNameMapping;
      this.mapPageGlitchesItemName := mapPageGlitchesItemName;
      this.locationSettingKey := None;
    }
  }

  /** `UTMapTabData.__init__`: normalise the page lists, format the setting
      key with the player and team, and default the index function and the
      name mapping; a setting key `str.format` rejects raises, and no
      object is made. */
  method NewMapTabData(playerId: int, teamId: int, mapPageFolder: string, mapPageMaps: StrOrList,
                       mapPageLocations: StrOrList, mapPageSettingKey: Option<string>,
                       mapPageIndex: Option<string -> int>, externalPackKey: string,
                       poptrackerNameMapping: Option<map<string, int>>, mapPageGlitchesItemName: string)
    returns (r: Result<UTMapTabData, FormatError>)
    ensures SettingKey(mapPageSettingKey, playerId, teamId).Failure? ==>
              r == Failure(SettingKey(mapPageSettingKey, playerId, teamId).error)
    ensures SettingKey(mapPageSettingKey, playerId, teamId).Success? ==>
              r.Success? && fresh(r.value)
              && r.value.mapPageFolder == mapPageFolder
              && r.value.mapPageMaps == PageList(mapPageMaps)
              && r.value.mapPageLocations == PageList(mapPageLocations)
              && r.value.mapPageSettingKey == SettingKey(mapPageSettingKey, playerId, teamId).value
              && (forall stored :: r.value.mapPageIndex(stored) == PageIndexOrDefault(mapPageIndex)(stored))
              && r.value.poptrackerNameMapping == NameMappingOrEmpty(poptrackerNameMapping)
              && r.value.externalPackKey == externalPackKey
              && r.value.mapPageGlitchesItemName == mapPageGlitchesItemName
              && r.value.locationSettingKey.None?
  {
    var key := SettingKey(mapPageSettingKey, playerId, teamId);
    if key.Failure? {
      return Failure(key.error);
    }
    var data := new UTMapTabData(mapPageFolder, PageList(mapPageMaps), PageList(mapPageLocations), key.value,
                                 PageIndexOrDefault(mapPageIndex), externalPackKey,
                                 NameMappingOrEmpty(poptrackerNameMapping), mapPageGlitchesItemName);
    return Success(data);
  }
}
