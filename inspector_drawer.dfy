/** The pure helpers of the inspector drawers: the saved-name listing behind
    the `[BoltsSave]` picker, the popup index of the input-action and
    shader-property pickers, the display name of a method in the event
    drawer, and the sibling-property lookup. The drawing itself is not
    modelled. */
module BoltsInspectorDrawer {
  import opened Basics
  import opened SaveData
  import opened Codec
  import opened SaveAttribute
  import opened BoltsSaveStore

  // ---------------------------------------------------------------------------
  // BoltsSaveAttributeDrawer.GetVariableNames

  /** The filter selects the list of `kind`. */
  predicate Includes(filter: SavedVariableType, kind: SavedVariableType) {
    filter == Any || filter == kind
  }

  /** The names of a list; a null list has none. */
  function NamesOf<V>(t: Table<V>): seq<string> {
    if t.Some? then Names(t.value) else []
  }

  /** A list's names are those of the list the serializer would write, so
      a null list is listed as an empty one. */
  lemma NamesOfIsNamesOfOrEmpty<V>(t: Table<V>)
    ensures NamesOf(t) == Names(OrEmpty(t))
  {
  }

  /** The names the picker lists for a decoded document: floats, ints, bools,
      strings, then classes, each in stored order, each only if the filter
      selects it. */
  function ListedNames(filter: SavedVariableType, d: Document): seq<string> {
    NamesIf(Includes(filter, Float), d.floats) +
    NamesIf(Includes(filter, Int), d.ints) +
    NamesIf(Includes(filter, Bool), d.bools) +
    NamesIf(Includes(filter, String), d.strings) +
    NamesIf(Includes(filter, Class), d.classes)
  }

  /** The names one list contributes: none unless the filter selects it. */
  function NamesIf<V>(selected: bool, t: Table<V>): seq<string> {
    if selected then NamesOf(t) else []
  }

  /** The configuration the drawer reads: the store's loaded settings, or else
      the first `SavingConfigAsset` the asset database finds (which may load
      as null). */
  function ConfigUsed(loaded: Option<SavingConfig>, assets: seq<Option<SavingConfig>>): (r: Option<SavingConfig>)
    ensures loaded.Some? ==> r == loaded
    ensures loaded.None? && |assets| > 0 ==> r == assets[0]
    ensures r.Some? ==> r == loaded || r in assets
    ensures r.None? <==> loaded.None? && (|assets| == 0 || assets[0].None?)
  {
    if loaded.Some? then loaded
    else if |assets| == 0 then None
    else assets[0]
  }

  /** The document the drawer lists from: none without a configuration or a
      file, else the decode of the file. Unlike the store, the drawer never
      creates the file. */
  function SavedDocument(loaded: Option<SavingConfig>, assets: seq<Option<SavingConfig>>, disk: Disk): (r: Outcome<Option<Document>>)
    ensures r.Crash? ==> r.failure == InvalidJson
    ensures var cfg := ConfigUsed(loaded, assets);
      r == Ok(None) <==> cfg.None? || cfg.value.fullPath !in disk || Decode(disk[cfg.value.fullPath]) == Ok(None)
    ensures r.Ok? && r.value.Some? ==>
      var cfg := ConfigUsed(loaded, assets);
      cfg.Some? && cfg.value.fullPath in disk && Decode(disk[cfg.value.fullPath]) == r
  {
    var cfg := ConfigUsed(loaded, assets);
    if cfg.None? || cfg.value.fullPath !in disk then Ok(None)
    else Decode(disk[cfg.value.fullPath])
  }

  /** One `foreach (var item in list) names.Add(item.name)` loop. */
  method AppendNames<V>(names: seq<string>, items: seq<Entry<V>>) returns (r: seq<string>)
    ensures r == names + Names(items)
  {
    r := names;
    var i := 0;
    while i < |items|
      invariant 0 <= i <= |items|
      invariant r == names + Names(items[..i])
    {
      assert items[..i + 1] == items[..i] + [items[i]];
      NamesAppend(items[..i], items[i]);
      r := r + [items[i].name];
      i := i + 1;
    }
    assert items[..i] == items;
  }

  /** One `if (selected && list != null)` block of `GetVariableNames`: the
      list's names are appended when the filter selects it, and a null list
      adds nothing. */
  method AppendListed<V>(names: seq<string>, selected: bool, t: Table<V>) returns (r: seq<string>)
    ensures r == names + NamesIf(selected, t)
  {
    r := names;
    if selected && t.Some? {
      r := AppendNames(r, t.value);
    }
  }

  /** The five `if` blocks of `GetVariableNames` that collect the names of a
      decoded document, in the order floats, ints, bools, strings, classes. */
  method ListNames(filter: SavedVariableType, sd: Document) returns (names: seq<string>)
    ensures names == ListedNames(filter, sd)
  {
    names := AppendListed([], Includes(filter, Float), sd.floats);
    assert names == NamesIf(Includes(filter, Float), sd.floats);
    names := AppendListed(names, Includes(filter, Int), sd.ints);
    names := AppendListed(names, Includes(filter, Bool), sd.bools);
    names := AppendListed(names, Includes(filter, String), sd.strings);
    names := AppendListed(names, Includes(filter, Class), sd.classes);
  }

  /** `GetVariableNames`: the saved names offered for `filter`. `loaded` is
      `BoltsSave._settings`; `assets` are the configuration assets the asset
      database finds, each loaded or null. Text that is not JSON makes
      `FromJson` throw. */
  method GetVariableNames(filter: SavedVariableType, loaded: Option<SavingConfig>,
                          assets: seq<Option<SavingConfig>>, disk: Disk) returns (r: Outcome<seq<string>>)
    ensures SavedDocument(loaded, assets, disk).Crash? ==> r == Crash(SavedDocument(loaded, assets, disk).failure)
    ensures SavedDocument(loaded, assets, disk) == Ok(None) ==> r == Ok([])
    ensures SavedDocument(loaded, assets, disk).Ok? && SavedDocument(loaded, assets, disk).value.Some? ==>
      r == Ok(ListedNames(filter, SavedDocument(loaded, assets, disk).value.value))
  {
    var names: seq<string> := [];
    var settings := loaded;
    if settings.None? {
      if |assets| == 0 {
        return Ok(names);
      }
      settings := assets[0];
    }
    if settings.None? {
      return Ok(names);
    }
    var fullPath := settings.value.fullPath;
    if fullPath !in disk {
      return Ok(names);
    }
    var json := disk[fullPath];
    var decoded := Decode(json);
    if decoded.Crash? {
      return Crash(decoded.failure);
    }
    if decoded.value.None? {
      return Ok(names);
    }
    names := ListNames(filter, decoded.value.value);
    r := Ok(names);
  }

  /** Each specific filter lists exactly the names of its one list; `Any`
      lists all five in the fixed order. */
  lemma ListedPerFilter(d: Document)
    ensures ListedNames(Float, d) == NamesOf(d.floats)
    ensures ListedNames(Int, d) == NamesOf(d.ints)
    ensures ListedNames(Bool, d) == NamesOf(d.bools)
    ensures ListedNames(String, d) == NamesOf(d.strings)
    ensures ListedNames(Class, d) == NamesOf(d.classes)
    ensures ListedNames(Any, d) ==
      ListedNames(Float, d) + ListedNames(Int, d) + ListedNames(Bool, d) +
      ListedNames(String, d) + ListedNames(Class, d)
  {
  }

  /** The list is as long as the selected lists together, duplicates kept;
      a null list contributes nothing. */
  lemma ListedLength(filter: SavedVariableType, d: Document)
    ensures |ListedNames(filter, d)| ==
      (if Includes(filter, Float) then |OrEmpty(d.floats)| else 0) +
      (if Includes(filter, Int) then |OrEmpty(d.ints)| else 0) +
      (if Includes(filter, Bool) then |OrEmpty(d.bools)| else 0) +
      (if Includes(filter, String) then |OrEmpty(d.strings)| else 0) +
      (if Includes(filter, Class) then |OrEmpty(d.classes)| else 0)
  {
  }

  /** A name is listed under `Any` exactly when some list holds an entry of
      that name. */
  lemma ListedUnderAny(d: Document, name: string)
    ensures name in ListedNames(Any, d) <==>
      name in NamesOf(d.floats) || name in NamesOf(d.ints) || name in NamesOf(d.bools) ||
      name in NamesOf(d.strings) || name in NamesOf(d.classes)
  {
    ListedPerFilter(d);
  }

  /** After a successful save, the drawer finds the saved name in the file,
      both under the list's own filter and under `Any`. */
  lemma SavedNameIsListed(disk: Disk, cfg: SavingConfig, name: string,
                          f: real, i: Int32, s: string, b: bool, json: string)
    ensures Save(disk, Some(cfg), false, FloatsColumn, name, f).0 == Written ==>
      IsListed(Save(disk, Some(cfg), false, FloatsColumn, name, f).1, cfg, Float, name)
    ensures Save(disk, Some(cfg), false, IntsColumn, name, i).0 == Written ==>
      IsListed(Save(disk, Some(cfg), false, IntsColumn, name, i).1, cfg, Int, name)
    ensures Save(disk, Some(cfg), false, StringsColumn, name, s).0 == Written ==>
      IsListed(Save(disk, Some(cfg), false, StringsColumn, name, s).1, cfg, String, name)
    ensures Save(disk, Some(cfg), true, BoolsColumn, name, b).0 == Written ==>
      IsListed(Save(disk, Some(cfg), true, BoolsColumn, name, b).1, cfg, Bool, name)
    ensures Save(disk, Some(cfg), false, ClassesColumn, name, json).0 == Written ==>
      IsListed(Save(disk, Some(cfg), false, ClassesColumn, name, json).1, cfg, Class, name)
  {
    ColumnsAreLawful();
    if Save(disk, Some(cfg), false, FloatsColumn, name, f).0 == Written {
      assert IsListed(Save(disk, Some(cfg), false, FloatsColumn, name, f).1, cfg, Float, name) by {
        SavedNameInColumn(disk, cfg, false, FloatsColumn, name, f);
        ListedPerFilter(SavedDocument(Some(cfg), [], Save(disk, Some(cfg), false, FloatsColumn, name, f).1).value.value);
      }
    }
    if Save(disk, Some(cfg), false, IntsColumn, name, i).0 == Written {
      assert IsListed(Save(disk, Some(cfg), false, IntsColumn, name, i).1, cfg, Int, name) by {
        SavedNameInColumn(disk, cfg, false, IntsColumn, name, i);
        ListedPerFilter(SavedDocument(Some(cfg), [], Save(disk, Some(cfg), false, IntsColumn, name, i).1).value.value);
      }
    }
    if Save(disk, Some(cfg), false, StringsColumn, name, s).0 == Written {
      assert IsListed(Save(disk, Some(cfg), false, StringsColumn, name, s).1, cfg, String, name) by {
        SavedNameInColumn(disk, cfg, false, StringsColumn, name, s);
        ListedPerFilter(SavedDocument(Some(cfg), [], Save(disk, Some(cfg), false, StringsColumn, name, s).1).value.value);
      }
    }
    if Save(disk, Some(cfg), true, BoolsColumn, name, b).0 == Written {
      assert IsListed(Save(disk, Some(cfg), true, BoolsColumn, name, b).1, cfg, Bool, name) by {
        SavedNameInColumn(disk, cfg, true, BoolsColumn, name, b);
        ListedPerFilter(SavedDocument(Some(cfg), [], Save(disk, Some(cfg), true, BoolsColumn, name, b).1).value.value);
      }
    }
    if Save(disk, Some(cfg), false, ClassesColumn, name, json).0 == Written {
      assert IsListed(Save(disk, Some(cfg), false, ClassesColumn, name, json).1, cfg, Class, name) by {
        SavedNameInColumn(disk, cfg, false, ClassesColumn, name, json);
        ListedPerFilter(SavedDocument(Some(cfg), [], Save(disk, Some(cfg), false, ClassesColumn, name, json).1).value.value);
      }
    }
  }

  /** The drawer, reading the store's file through the store's settings, lists
      `name` under `kind` and under `Any`. */
  ghost predicate IsListed(disk: Disk, cfg: SavingConfig, kind: SavedVariableType, name: string) {
    var doc := SavedDocument(Some(cfg), [], disk);
    doc.Ok? && doc.value.Some? &&
    name in ListedNames(kind, doc.value.value) && name in ListedNames(Any, doc.value.value)
  }

  lemma SavedNameInColumn<V(!new)>(disk: Disk, cfg: SavingConfig, checkFirst: bool, c: Column<V>,
                                   name: string, value: V)
    requires Lawful(c)
    requires Save(disk, Some(cfg), checkFirst, c, name, value).0 == Written
    ensures
      var doc := SavedDocument(Some(cfg), [], Save(disk, Some(cfg), checkFirst, c, name, value).1);
      doc.Ok? && doc.value.Some? && c.select(doc.value.value).Some? &&
      name in Names(c.select(doc.value.value).value)
  {
    var d := Loaded(disk, cfg).value.value;
    var s := Upsert(c.select(d).value, name, value);
    var after := Save(disk, Some(cfg), checkFirst, c, name, value).1;
    assert after[cfg.fullPath] == Encode(c.update(d, s), cfg.useEncryption);
    assert c.select(Normalized(c.update(d, s))) == Some(s);
  }

  // ---------------------------------------------------------------------------
  // The popup index of BoltsInputActionDrawer and BoltsShaderPropertyDrawer

  /** `Mathf.Max(0, IndexOf(options, current))`, reset to 0 when out of range:
      the position of `current` if it is offered, else the first option. */
  function PopupIndex(options: seq<string>, current: string): (i: int)
    ensures 0 <= i
    ensures |options| > 0 ==> i < |options|
    ensures current in options ==> options[i] == current && current !in options[..i]
    ensures current !in options ==> i == 0
  {
    var found := IndexOf(options, current);
    var index := if found < 0 then 0 else found;
    if index >= |options| then 0 else index
  }

  // ---------------------------------------------------------------------------
  // BoltsEventDrawer.GetMethodDisplayName

  /** `String.Join(separator, parts)`. */
  function Join(separator: string, parts: seq<string>): string {
    if |parts| == 0 then ""
    else if |parts| == 1 then parts[0]
    else parts[0] + separator + Join(separator, parts[1..])
  }

  /** The method name, then its parameter type names in parentheses. */
  function MethodDisplayName(methodName: string, parameterTypes: seq<string>): (r: string)
    ensures |parameterTypes| == 0 ==> r == methodName + " ()"
    ensures r == methodName + " (" + Join(", ", parameterTypes) + ")"
  {
    if |parameterTypes| == 0 then methodName + " ()"
    else methodName + " (" + Join(", ", parameterTypes) + ")"
  }

  /** The comma-separated pieces of a parameter list, each separator being
      a comma and the character after it. */
  function SplitParameters(s: string): seq<string>
    decreases |s|
  {
    if ',' !in s then [s]
    else
      var k := IndexOf(s, ',');
      [s[..k]] + SplitParameters(s[if k + 2 <= |s| then k + 2 else |s|..])
  }

  /** The parameter types written between the parentheses of a display name;
      an empty list reads back as no parameters. */
  function ParameterTypesOf(display: string, methodName: string): seq<string>
    requires |display| >= |methodName| + 3
  {
    var inner := display[|methodName| + 2 .. |display| - 1];
    if inner == "" then [] else SplitParameters(inner)
  }

  /** Each parameter type name is nonempty and has no comma in it (true of
      every type name except multidimensional array types such as `Int32[,]`). */
  predicate PlainTypeNames(parameterTypes: seq<string>) {
    forall k :: 0 <= k < |parameterTypes| ==> parameterTypes[k] != "" && ',' !in parameterTypes[k]
  }

  lemma {:induction false} SplitJoin(parts: seq<string>)
    requires |parts| > 0
    requires forall k :: 0 <= k < |parts| ==> ',' !in parts[k]
    ensures SplitParameters(Join(", ", parts)) == parts
    decreases |parts|
  {
    if |parts| > 1 {
      var rest := Join(", ", parts[1..]);
      var s := parts[0] + ", " + rest;
      assert s[|parts[0]|] == ',';
      assert s[..|parts[0]|] == parts[0];
      assert ',' in s;
      var k := IndexOf(s, ',');
      assert k == |parts[0]|;
      assert s[k + 2..] == rest;
      SplitJoin(parts[1..]);
    }
  }

  /** The display name determines the parameter type names. */
  lemma DisplayNameReadsBack(methodName: string, parameterTypes: seq<string>)
    requires PlainTypeNames(parameterTypes)
    ensures |MethodDisplayName(methodName, parameterTypes)| >= |methodName| + 3
    ensures ParameterTypesOf(MethodDisplayName(methodName, parameterTypes), methodName) == parameterTypes
  {
    var display := MethodDisplayName(methodName, parameterTypes);
    var joined := Join(", ", parameterTypes);
    assert display[|methodName| + 2 .. |display| - 1] == joined;
    if |parameterTypes| > 0 {
      JoinNonEmpty(parameterTypes);
      SplitJoin(parameterTypes);
    }
  }

  lemma {:induction false} JoinNonEmpty(parts: seq<string>)
    requires |parts| > 0 && parts[0] != ""
    ensures Join(", ", parts) != ""
  {
  }

  // ---------------------------------------------------------------------------
  // BoltsShaderPropertyDrawer.FindSiblingProperty

  /** `s.LastIndexOf(c)`: the position of the last `c` in `s`, or -1. */
  function LastIndexOf(s: string, c: char): (i: int)
    ensures -1 <= i < |s|
    ensures i < 0 <==> c !in s
    ensures 0 <= i ==> s[i] == c && forall j :: i < j < |s| ==> s[j] != c
  {
    LastIndexBefore(s, c, |s|)
  }

  /** The position of the last `c` among the first `n` characters of `s`, or
      -1: the backward scan of `LastIndexOf`. */
  function LastIndexBefore(s: string, c: char, n: nat): (i: int)
    requires n <= |s|
    ensures -1 <= i < n
    ensures i < 0 <==> forall j :: 0 <= j < n ==> s[j] != c
    ensures 0 <= i ==> s[i] == c && forall j :: i < j < n ==> s[j] != c
    decreases n
  {
    if n == 0 then -1
    else if s[n - 1] == c then n - 1
    else LastIndexBefore(s, c, n - 1)
  }

  /** The path of the property a sibling lookup finds, if any. `properties` are
      the property paths of the serialized object; `path` is the path of the
      field carrying the attribute. A relative lookup of `name` under a
      property at `p` is the path `p.name`. */
  function FindSiblingProperty(properties: set<string>, path: string, siblingName: string): (r: Option<string>)
    ensures path + "." + siblingName in properties ==> r == Some(path + "." + siblingName)
    ensures r.Some? ==> r.value in properties
    ensures r.Some? ==>
      (r.value == siblingName || r.value == path + "." + siblingName ||
       exists k :: 0 <= k < |path| && path[k] == '.' && r.value == path[..k] + "." + siblingName)
  {
    var direct := path + "." + siblingName;
    if direct in properties then Some(direct)
    else
      var lastDot := LastIndexOf(path, '.');
      if lastDot < 0 then
        if siblingName in properties then Some(siblingName) else None
      else
        var parentPath := path[..lastDot];
        if parentPath !in properties then None
        else if parentPath + "." + siblingName in properties then Some(parentPath + "." + siblingName)
        else None
  }

  /** Splitting at the last dot undoes joining a parent path and a dot-free
      field name. */
  lemma LastDotSplitsPath(parentPath: string, fieldName: string)
    requires '.' !in fieldName
    ensures LastIndexOf(parentPath + "." + fieldName, '.') == |parentPath|
    ensures (parentPath + "." + fieldName)[..|parentPath|] == parentPath
  {
    var path := parentPath + "." + fieldName;
    var k := |parentPath|;
    assert path[k] == '.';
    assert path[k + 1..] == fieldName;
    forall j | k < j < |path|
      ensures path[j] != '.'
    {
      assert path[j] == path[k + 1..][j - k - 1];
    }
    LastIndexOfIs(path, '.', k);
  }

  /** A position holding `c` with no `c` after it is the last index of `c`. */
  lemma LastIndexOfIs(s: string, c: char, k: int)
    requires 0 <= k < |s| && s[k] == c
    requires forall j :: k < j < |s| ==> s[j] != c
    ensures LastIndexOf(s, c) == k
  {
  }

  /** For a nested field `parent.field` with no direct child of that name, the
      sibling is looked up under `parent`. */
  lemma NestedFieldFindsSiblingUnderParent(properties: set<string>, parentPath: string,
                                           fieldName: string, siblingName: string)
    requires '.' !in fieldName
    requires parentPath + "." + fieldName + "." + siblingName !in properties
    ensures FindSiblingProperty(properties, parentPath + "." + fieldName, siblingName) ==
      if parentPath in properties && parentPath + "." + siblingName in properties
      then Some(parentPath + "." + siblingName) else None
  {
    LastDotSplitsPath(parentPath, fieldName);
  }

  /** For a top-level field (no dot in its path) with no direct child of that
      name, the sibling is looked up at the top level. */
  lemma TopLevelFieldFindsSiblingAtTop(properties: set<string>, path: string, siblingName: string)
    requires '.' !in path
    requires path + "." + siblingName !in properties
    ensures FindSiblingProperty(properties, path, siblingName) ==
      if siblingName in properties then Some(siblingName) else None
  {
  }
}
