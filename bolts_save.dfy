/** `BoltsSave`: a process-wide save store that keeps named floats, ints,
    strings, bools and class snapshots in one JSON file. Every operation
    reads the whole file, changes an in-memory copy and writes it back.

    The static fields `_settings` and `_isLoading` and the file system are
    the fields of one `BoltsSave` object. Each public operation is a method
    whose new state and result are given by a function of the state before
    the call (`Save`, `Get`, `GetClassAsWritten`, `BeginLoad`, `FinishLoad`);
    the lemmas below state what those functions guarantee. */
module BoltsSaveStore {
  import opened Basics
  import opened SaveData
  import opened Codec

  /** The file system: the text stored at each path that exists. */
  type Disk = map<string, Text>

  /** The loaded `SavingConfigAsset`: the path `GetFullPath()` resolves to and
      the flag handed to `JsonUtility.ToJson`. */
  datatype SavingConfig = SavingConfig(fullPath: string, useEncryption: bool)

  /** The two conditions the store reports through `Debug.LogError`. */
  datatype Diagnostic = NotInitialized | NameNotFound

  /** What a save operation did: wrote the file, logged and returned, or threw. */
  datatype Effect = Written | Refused(diagnostic: Diagnostic) | Aborted(failure: Failure)

  /** What a lookup did: returned a stored value, logged and returned the
      type's fallback value, or threw. */
  datatype Reply<V> = Found(value: V) | Default(diagnostic: Diagnostic, value: V) | Failed(failure: Failure)

  /** One of the five lists of a document: how to read it and how to put a
      new list in its place. */
  datatype Column<!V> = Column(select: Document -> Table<V>, update: (Document, seq<Entry<V>>) -> Document)

  const FloatsColumn: Column<real> := Column((d: Document) => d.floats, (d: Document, s) => d.(floats := Some(s)))
  const IntsColumn: Column<Int32> := Column((d: Document) => d.ints, (d: Document, s) => d.(ints := Some(s)))
  const StringsColumn: Column<string> := Column((d: Document) => d.strings, (d: Document, s) => d.(strings := Some(s)))
  const BoolsColumn: Column<bool> := Column((d: Document) => d.bools, (d: Document, s) => d.(bools := Some(s)))
  const ClassesColumn: Column<string> := Column((d: Document) => d.classes, (d: Document, s) => d.(classes := Some(s)))

  /** The values `GetFloat`, `GetInt`, `GetString` and `GetBool` return on a miss. */
  const FloatMissing: real := -1.0
  const IntMissing: Int32 := -1
  const StringMissing: string := ""
  const BoolMissing: bool := false

  /** A column reads back the list put into it, and serialization turns a
      null list of it into an empty one. */
  ghost predicate Lawful<V(!new)>(c: Column<V>) {
    (forall d, s :: c.select(c.update(d, s)) == Some(s)) &&
    (forall d :: c.select(Normalized(d)) == Some(OrEmpty(c.select(d))))
  }

  /** Replacing the list of `c` leaves the list of `o` alone. */
  ghost predicate Separate<V(!new), W>(c: Column<V>, o: Column<W>) {
    forall d, s :: o.select(c.update(d, s)) == o.select(d)
  }

  lemma ColumnsAreLawful()
    ensures Lawful(FloatsColumn) && Lawful(IntsColumn) && Lawful(StringsColumn)
    ensures Lawful(BoolsColumn) && Lawful(ClassesColumn)
  {
  }

  /** Each of the five lists is stored apart from the other four: replacing
      one leaves every other one as it was. */
  lemma ColumnsAreSeparate()
    ensures Separate(FloatsColumn, IntsColumn) && Separate(FloatsColumn, StringsColumn)
    ensures Separate(FloatsColumn, BoolsColumn) && Separate(FloatsColumn, ClassesColumn)
    ensures Separate(IntsColumn, FloatsColumn) && Separate(IntsColumn, StringsColumn)
    ensures Separate(IntsColumn, BoolsColumn) && Separate(IntsColumn, ClassesColumn)
    ensures Separate(StringsColumn, FloatsColumn) && Separate(StringsColumn, IntsColumn)
    ensures Separate(StringsColumn, BoolsColumn) && Separate(StringsColumn, ClassesColumn)
    ensures Separate(BoolsColumn, FloatsColumn) && Separate(BoolsColumn, IntsColumn)
    ensures Separate(BoolsColumn, StringsColumn) && Separate(BoolsColumn, ClassesColumn)
    ensures Separate(ClassesColumn, FloatsColumn) && Separate(ClassesColumn, IntsColumn)
    ensures Separate(ClassesColumn, StringsColumn) && Separate(ClassesColumn, BoolsColumn)
  {
  }

  // ---------------------------------------------------------------------------
  // File access

  /** The disk after `LoadOrCreate` made sure the save file exists: a missing
      file is created holding `ToJson(new SaveData(), useEncryption)`. */
  function CreatedDisk(disk: Disk, cfg: SavingConfig): (r: Disk)
    ensures cfg.fullPath in r
    ensures forall p :: p != cfg.fullPath ==> (p in r <==> p in disk)
    ensures forall p :: p in disk ==> r[p] == disk[p]
  {
    if cfg.fullPath in disk then disk
    else disk[cfg.fullPath := Encode(NewDocument, cfg.useEncryption)]
  }

  /** What `LoadOrCreate` returns: the decode of the (possibly new) file. */
  function Loaded(disk: Disk, cfg: SavingConfig): (r: Outcome<Option<Document>>)
    ensures cfg.fullPath !in disk ==> r == Ok(Some(EmptyDocument))
    ensures cfg.fullPath in disk ==> r == Decode(disk[cfg.fullPath])
    ensures r.Crash? ==> r.failure == InvalidJson
  {
    Decode(CreatedDisk(disk, cfg)[cfg.fullPath])
  }

  /** `SaveFile`: the whole document replaces the file. */
  function WriteFile(disk: Disk, cfg: SavingConfig, d: Document): (r: Disk)
    ensures cfg.fullPath in r && Decode(r[cfg.fullPath]) == Ok(Some(Normalized(d)))
    ensures forall p :: p != cfg.fullPath ==> (p in r <==> p in disk)
    ensures forall p :: p in disk && p != cfg.fullPath ==> r[p] == disk[p]
  {
    disk[cfg.fullPath := Encode(d, cfg.useEncryption)]
  }

  /** A missing file is created as an empty document and reads back with five
      empty lists; an existing file is left as it is and decoded. */
  lemma LoadOrCreateCases(disk: Disk, cfg: SavingConfig)
    ensures cfg.fullPath !in disk ==>
      CreatedDisk(disk, cfg) == disk[cfg.fullPath := Encode(NewDocument, cfg.useEncryption)] &&
      Loaded(disk, cfg) == Ok(Some(EmptyDocument))
    ensures cfg.fullPath in disk ==>
      CreatedDisk(disk, cfg) == disk && Loaded(disk, cfg) == Decode(disk[cfg.fullPath])
  {
    if cfg.fullPath !in disk {
      NewDocumentReadsBackEmpty(cfg.useEncryption);
    }
  }

  // ---------------------------------------------------------------------------
  // What each operation does, as a function of the state before the call

  /** A typed save (`SaveFloatValue` and its siblings). `checkFirst` says
      whether the null-settings check comes before `LoadOrCreate` (only
      `SaveBoolValue`); otherwise `LoadOrCreate` dereferences the null
      settings and the check after it is never reached. */
  function Save<V>(disk: Disk, settings: Option<SavingConfig>, checkFirst: bool,
                   c: Column<V>, name: string, value: V): (r: (Effect, Disk))
    ensures r.0.Refused? <==> settings.None? && checkFirst
    ensures r.0.Written? <==>
      settings.Some? && Loaded(disk, settings.value).Ok? && Loaded(disk, settings.value).value.Some? &&
      c.select(Loaded(disk, settings.value).value.value).Some?
    ensures settings.None? ==> r.1 == disk
    ensures settings.Some? && !r.0.Written? ==> r.1 == CreatedDisk(disk, settings.value)
    ensures r.0.Written? ==> settings.Some? && settings.value.fullPath in r.1
  {
    if settings.None? then
      (if checkFirst then Refused(NotInitialized) else Aborted(NullReference), disk)
    else
      var cfg := settings.value;
      var created := CreatedDisk(disk, cfg);
      match Loaded(disk, cfg)
      case Crash(f) => (Aborted(f), created)
      case Ok(None) => (Aborted(NullReference), created)
      case Ok(Some(d)) =>
        if c.select(d).None? then (Aborted(NullReference), created)
        else (Written, WriteFile(created, cfg, c.update(d, Upsert(c.select(d).value, name, value))))
  }

  /** A typed lookup (`GetFloat` and its siblings): the first match's value or
      the fallback `missing`. The file is created if it was missing and is
      otherwise left alone. */
  function Get<V>(disk: Disk, settings: Option<SavingConfig>, c: Column<V>,
                  name: string, missing: V): (r: (Reply<V>, Disk))
    ensures r.1 == if settings.None? then disk else CreatedDisk(disk, settings.value)
    ensures r.0.Default? ==> r.0 == Default(NameNotFound, missing)
  {
    if settings.None? then (Failed(NullReference), disk)
    else
      var cfg := settings.value;
      var created := CreatedDisk(disk, cfg);
      match Loaded(disk, cfg)
      case Crash(f) => (Failed(f), created)
      case Ok(None) => (Failed(NullReference), created)
      case Ok(Some(d)) =>
        if c.select(d).None? then (Failed(NullReference), created)
        else
          match Lookup(c.select(d).value, name)
          case Some(v) => (Found(v), created)
          case None => (Default(NameNotFound, missing), created)
  }

  /** A class lookup returns the stored snapshot, or null (`None`) on a miss. */
  function AsObject(r: Reply<string>): Reply<Option<string>> {
    match r
    case Found(v) => Found(Some(v))
    case Default(g, _) => Default(g, None)
    case Failed(f) => Failed(f)
  }

  /** `LoadClass` with its search done in `classes`. */
  function GetClass(disk: Disk, settings: Option<SavingConfig>, name: string): (r: (Reply<Option<string>>, Disk))
    ensures r.1 == if settings.None? then disk else CreatedDisk(disk, settings.value)
    ensures r.0.Found? ==> r.0.value.Some?
    ensures r.0.Default? ==> r.0 == Default(NameNotFound, None)
  {
    var (r, after) := Get(disk, settings, ClassesColumn, name, "");
    (AsObject(r), after)
  }

  /** `LoadClass` as written: the index is searched for in `bools` and then
      used to index `classes`. */
  function GetClassAsWritten(disk: Disk, settings: Option<SavingConfig>, name: string): (r: (Reply<Option<string>>, Disk))
    ensures r.1 == if settings.None? then disk else CreatedDisk(disk, settings.value)
    ensures r.0.Found? ==> r.0.value.Some?
    ensures r.0.Default? ==> r.0 == Default(NameNotFound, None)
  {
    if settings.None? then (Failed(NullReference), disk)
    else
      var cfg := settings.value;
      var created := CreatedDisk(disk, cfg);
      match Loaded(disk, cfg)
      case Crash(f) => (Failed(f), created)
      case Ok(None) => (Failed(NullReference), created)
      case Ok(Some(d)) =>
        if d.bools.None? then (Failed(NullReference), created)
        else
          var index := FindIndex(d.bools.value, name);
          if index > -1 then
            if d.classes.None? then (Failed(NullReference), created)
            else if index >= |d.classes.value| then (Failed(ArgumentOutOfRange), created)
            else (Found(Some(d.classes.value[index].value)), created)
          else (Default(NameNotFound, None), created)
  }

  // ---------------------------------------------------------------------------
  // The load-once guard of `Initialize`

  /** `_settings` and `_isLoading`. */
  datatype Bootstrap = Bootstrap(settings: Option<SavingConfig>, isLoading: bool)

  const Uninitialized: Bootstrap := Bootstrap(None, false)

  /** The synchronous part of `Initialize`: start a load unless settings are
      present or a load is already under way. */
  function BeginLoad(b: Bootstrap): (r: Bootstrap)
    ensures r.settings == b.settings
    ensures r.settings.None? ==> r.isLoading
    ensures b.isLoading ==> r.isLoading
    ensures Consistent(b) ==> Consistent(r)
  {
    if b.settings.Some? || b.isLoading then b else b.(isLoading := true)
  }

  /** The continuation of `Initialize` after the asset load: store what was
      loaded (possibly null) and clear the loading flag. */
  function FinishLoad(b: Bootstrap, loaded: Option<SavingConfig>): (r: Bootstrap)
    ensures r.settings == loaded
    ensures Consistent(r)
    ensures BeginLoad(r) == r <==> loaded.Some?
  {
    Bootstrap(loaded, false)
  }

  /** Settings present and a load in progress never hold together. */
  predicate Consistent(b: Bootstrap) {
    !(b.settings.Some? && b.isLoading)
  }

  /** A second `Initialize` right after the first changes nothing more. */
  lemma BeginLoadIdempotent(b: Bootstrap)
    ensures BeginLoad(BeginLoad(b)) == BeginLoad(b)
  {
  }

  lemma GuardKeepsConsistent(b: Bootstrap, loaded: Option<SavingConfig>)
    requires Consistent(b)
    ensures Consistent(BeginLoad(b)) && Consistent(FinishLoad(b, loaded))
  {
  }

  /** The state after `n` calls of `Initialize` with no load finishing. */
  function InitializeTimes(b: Bootstrap, n: nat): Bootstrap
    decreases n
  {
    if n == 0 then b else InitializeTimes(BeginLoad(b), n - 1)
  }

  /** How many of those `n` calls start an asset load. */
  function LoadsStarted(b: Bootstrap, n: nat): nat
    decreases n
  {
    if n == 0 then 0
    else (if BeginLoad(b) != b then 1 else 0) + LoadsStarted(BeginLoad(b), n - 1)
  }

  /** Repeated calls of `Initialize` start the asset load once at most: once
      when nothing is loaded or loading, never otherwise. */
  lemma {:induction false} InitializeStartsOneLoad(b: Bootstrap, n: nat)
    ensures LoadsStarted(b, n) == if n > 0 && b.settings.None? && !b.isLoading then 1 else 0
    ensures n > 0 ==> InitializeTimes(b, n) == BeginLoad(b)
  {
    if n > 0 {
      StartedLoadIsStable(BeginLoad(b), n - 1);
    }
  }

  /** While settings are present or a load is under way, `Initialize` changes
      nothing and starts nothing, however often it is called. */
  lemma {:induction false} StartedLoadIsStable(b: Bootstrap, n: nat)
    requires b.settings.Some? || b.isLoading
    ensures InitializeTimes(b, n) == b && LoadsStarted(b, n) == 0
  {
    if n > 0 {
      StartedLoadIsStable(BeginLoad(b), n - 1);
    }
  }

  /** A load that yields no settings ends in the uninitialized state, so the
      next `Initialize` starts a new load. */
  lemma FailedLoadAllowsRetry(b: Bootstrap)
    ensures FinishLoad(b, None) == Uninitialized
    ensures BeginLoad(FinishLoad(b, None)) == Bootstrap(None, true)
    ensures LoadsStarted(FinishLoad(b, None), 1) == 1
  {
  }

  // ---------------------------------------------------------------------------
  // Properties of the store operations

  /** After a successful save, the typed lookup of the same name returns the
      saved value. */
  lemma SaveThenGet<V(!new)>(disk: Disk, cfg: SavingConfig, checkFirst: bool, c: Column<V>,
                       name: string, value: V, missing: V)
    requires Lawful(c)
    requires Save(disk, Some(cfg), checkFirst, c, name, value).0 == Written
    ensures Get(Save(disk, Some(cfg), checkFirst, c, name, value).1, Some(cfg), c, name, missing).0 == Found(value)
  {
    var d := Loaded(disk, cfg).value.value;
    var s := Upsert(c.select(d).value, name, value);
    var after := Save(disk, Some(cfg), checkFirst, c, name, value).1;
    assert Loaded(after, cfg) == Ok(Some(Normalized(c.update(d, s))));
    assert c.select(Normalized(c.update(d, s))) == Some(s);
    LookupAfterUpsert(c.select(d).value, name, value);
  }

  /** A successful save writes back the document it read, with the target list
      replaced by its upsert: same length and positions when the name was
      present, one entry appended when it was not. */
  lemma SaveRewritesDocument<V>(disk: Disk, cfg: SavingConfig, checkFirst: bool, c: Column<V>,
                                name: string, value: V)
    requires Save(disk, Some(cfg), checkFirst, c, name, value).0 == Written
    ensures Loaded(disk, cfg).Ok? && Loaded(disk, cfg).value.Some?
    ensures c.select(Loaded(disk, cfg).value.value).Some?
    ensures
      var d := Loaded(disk, cfg).value.value;
      var after := Save(disk, Some(cfg), checkFirst, c, name, value).1;
      Loaded(after, cfg) == Ok(Some(Normalized(c.update(d, Upsert(c.select(d).value, name, value))))) &&
      (forall p :: p != cfg.fullPath ==> (p in after <==> p in disk)) &&
      (forall p :: p in disk && p != cfg.fullPath ==> after[p] == disk[p])
  {
  }

  /** A save under one name changes no other name's lookup in the same list. */
  lemma SaveKeepsOtherNames<V(!new)>(disk: Disk, cfg: SavingConfig, checkFirst: bool, c: Column<V>,
                               name: string, value: V, other: string, missing: V)
    requires Lawful(c) && other != name
    requires Save(disk, Some(cfg), checkFirst, c, name, value).0 == Written
    ensures Get(Save(disk, Some(cfg), checkFirst, c, name, value).1, Some(cfg), c, other, missing).0
         == Get(disk, Some(cfg), c, other, missing).0
  {
    var d := Loaded(disk, cfg).value.value;
    var s := Upsert(c.select(d).value, name, value);
    var after := Save(disk, Some(cfg), checkFirst, c, name, value).1;
    assert Loaded(after, cfg) == Ok(Some(Normalized(c.update(d, s))));
    assert c.select(Normalized(c.update(d, s))) == Some(s);
    LookupOtherAfterUpsert(c.select(d).value, name, value, other);
  }

  /** A save writes only its own list: every lookup in another list answers as
      before, except that a null list, written back by the serializer as an
      empty one, turns a null dereference into a plain miss. */
  lemma SaveKeepsOtherColumns<V(!new), W(!new)>(disk: Disk, cfg: SavingConfig, checkFirst: bool, c: Column<V>,
                                    name: string, value: V, o: Column<W>, other: string, missing: W)
    requires Lawful(o) && Separate(c, o)
    requires Save(disk, Some(cfg), checkFirst, c, name, value).0 == Written
    ensures
      var before := Get(disk, Some(cfg), o, other, missing).0;
      var now := Get(Save(disk, Some(cfg), checkFirst, c, name, value).1, Some(cfg), o, other, missing).0;
      LookupKept(before, now, missing)
  {
    var d := Loaded(disk, cfg).value.value;
    var s := Upsert(c.select(d).value, name, value);
    var after := Save(disk, Some(cfg), checkFirst, c, name, value).1;
    assert Loaded(after, cfg) == Ok(Some(Normalized(c.update(d, s))));
    assert o.select(Normalized(c.update(d, s))) == Some(OrEmpty(o.select(d)));
  }

  /** A lookup answers after a save as it did before, or a null list that the
      write-back made empty now misses instead of throwing. */
  ghost predicate LookupKept<W>(before: Reply<W>, now: Reply<W>, missing: W) {
    now == before || (before == Failed(NullReference) && now == Default(NameNotFound, missing))
  }

  /** `SaveFloatValue` leaves the answers of `GetInt`, `GetString`, `GetBool`
      and the class lookup alone. */
  lemma FloatSaveKeepsOtherLists(disk: Disk, cfg: SavingConfig, name: string, f: real, other: string)
    requires Save(disk, Some(cfg), false, FloatsColumn, name, f).0 == Written
    ensures var after := Save(disk, Some(cfg), false, FloatsColumn, name, f).1;
      LookupKept(Get(disk, Some(cfg), IntsColumn, other, IntMissing).0,
                 Get(after, Some(cfg), IntsColumn, other, IntMissing).0, IntMissing) &&
      LookupKept(Get(disk, Some(cfg), StringsColumn, other, StringMissing).0,
                 Get(after, Some(cfg), StringsColumn, other, StringMissing).0, StringMissing) &&
      LookupKept(Get(disk, Some(cfg), BoolsColumn, other, BoolMissing).0,
                 Get(after, Some(cfg), BoolsColumn, other, BoolMissing).0, BoolMissing) &&
      LookupKept(Get(disk, Some(cfg), ClassesColumn, other, "").0,
                 Get(after, Some(cfg), ClassesColumn, other, "").0, "")
  {
    ColumnsAreLawful();
    ColumnsAreSeparate();
    SaveKeepsOtherColumns(disk, cfg, false, FloatsColumn, name, f, IntsColumn, other, IntMissing);
    SaveKeepsOtherColumns(disk, cfg, false, FloatsColumn, name, f, StringsColumn, other, StringMissing);
    SaveKeepsOtherColumns(disk, cfg, false, FloatsColumn, name, f, BoolsColumn, other, BoolMissing);
    SaveKeepsOtherColumns(disk, cfg, false, FloatsColumn, name, f, ClassesColumn, other, "");
  }

  /** `SaveIntValue` leaves the answers of `GetFloat`, `GetString`, `GetBool`
      and the class lookup alone. */
  lemma IntSaveKeepsOtherLists(disk: Disk, cfg: SavingConfig, name: string, i: Int32, other: string)
    requires Save(disk, Some(cfg), false, IntsColumn, name, i).0 == Written
    ensures var after := Save(disk, Some(cfg), false, IntsColumn, name, i).1;
      LookupKept(Get(disk, Some(cfg), FloatsColumn, other, FloatMissing).0,
                 Get(after, Some(cfg), FloatsColumn, other, FloatMissing).0, FloatMissing) &&
      LookupKept(Get(disk, Some(cfg), StringsColumn, other, StringMissing).0,
                 Get(after, Some(cfg), StringsColumn, other, StringMissing).0, StringMissing) &&
      LookupKept(Get(disk, Some(cfg), BoolsColumn, other, BoolMissing).0,
                 Get(after, Some(cfg), BoolsColumn, other, BoolMissing).0, BoolMissing) &&
      LookupKept(Get(disk, Some(cfg), ClassesColumn, other, "").0,
                 Get(after, Some(cfg), ClassesColumn, other, "").0, "")
  {
    ColumnsAreLawful();
    ColumnsAreSeparate();
    SaveKeepsOtherColumns(disk, cfg, false, IntsColumn, name, i, FloatsColumn, other, FloatMissing);
    SaveKeepsOtherColumns(disk, cfg, false, IntsColumn, name, i, StringsColumn, other, StringMissing);
    SaveKeepsOtherColumns(disk, cfg, false, IntsColumn, name, i, BoolsColumn, other, BoolMissing);
    SaveKeepsOtherColumns(disk, cfg, false, IntsColumn, name, i, ClassesColumn, other, "");
  }

  /** `SaveStringValue` leaves the answers of `GetFloat`, `GetInt`, `GetBool`
      and the class lookup alone. */
  lemma StringSaveKeepsOtherLists(disk: Disk, cfg: SavingConfig, name: string, v: string, other: string)
    requires Save(disk, Some(cfg), false, StringsColumn, name, v).0 == Written
    ensures var after := Save(disk, Some(cfg), false, StringsColumn, name, v).1;
      LookupKept(Get(disk, Some(cfg), FloatsColumn, other, FloatMissing).0,
                 Get(after, Some(cfg), FloatsColumn, other, FloatMissing).0, FloatMissing) &&
      LookupKept(Get(disk, Some(cfg), IntsColumn, other, IntMissing).0,
                 Get(after, Some(cfg), IntsColumn, other, IntMissing).0, IntMissing) &&
      LookupKept(Get(disk, Some(cfg), BoolsColumn, other, BoolMissing).0,
                 Get(after, Some(cfg), BoolsColumn, other, BoolMissing).0, BoolMissing) &&
      LookupKept(Get(disk, Some(cfg), ClassesColumn, other, "").0,
                 Get(after, Some(cfg), ClassesColumn, other, "").0, "")
  {
    ColumnsAreLawful();
    ColumnsAreSeparate();
    SaveKeepsOtherColumns(disk, cfg, false, StringsColumn, name, v, FloatsColumn, other, FloatMissing);
    SaveKeepsOtherColumns(disk, cfg, false, StringsColumn, name, v, IntsColumn, other, IntMissing);
    SaveKeepsOtherColumns(disk, cfg, false, StringsColumn, name, v, BoolsColumn, other, BoolMissing);
    SaveKeepsOtherColumns(disk, cfg, false, StringsColumn, name, v, ClassesColumn, other, "");
  }

  /** `SaveBoolValue` leaves the answers of `GetFloat`, `GetInt`, `GetString`
      and the class lookup alone. */
  lemma BoolSaveKeepsOtherLists(disk: Disk, cfg: SavingConfig, name: string, b: bool, other: string)
    requires Save(disk, Some(cfg), true, BoolsColumn, name, b).0 == Written
    ensures var after := Save(disk, Some(cfg), true, BoolsColumn, name, b).1;
      LookupKept(Get(disk, Some(cfg), FloatsColumn, other, FloatMissing).0,
                 Get(after, Some(cfg), FloatsColumn, other, FloatMissing).0, FloatMissing) &&
      LookupKept(Get(disk, Some(cfg), IntsColumn, other, IntMissing).0,
                 Get(after, Some(cfg), IntsColumn, other, IntMissing).0, IntMissing) &&
      LookupKept(Get(disk, Some(cfg), StringsColumn, other, StringMissing).0,
                 Get(after, Some(cfg), StringsColumn, other, StringMissing).0, StringMissing) &&
      LookupKept(Get(disk, Some(cfg), ClassesColumn, other, "").0,
                 Get(after, Some(cfg), ClassesColumn, other, "").0, "")
  {
    ColumnsAreLawful();
    ColumnsAreSeparate();
    SaveKeepsOtherColumns(disk, cfg, true, BoolsColumn, name, b, FloatsColumn, other, FloatMissing);
    SaveKeepsOtherColumns(disk, cfg, true, BoolsColumn, name, b, IntsColumn, other, IntMissing);
    SaveKeepsOtherColumns(disk, cfg, true, BoolsColumn, name, b, StringsColumn, other, StringMissing);
    SaveKeepsOtherColumns(disk, cfg, true, BoolsColumn, name, b, ClassesColumn, other, "");
  }

  /** `SaveClassVariable` leaves the answers of `GetFloat`, `GetInt`,
      `GetString` and `GetBool` alone. */
  lemma ClassSaveKeepsOtherLists(disk: Disk, cfg: SavingConfig, name: string, json: string, other: string)
    requires Save(disk, Some(cfg), false, ClassesColumn, name, json).0 == Written
    ensures var after := Save(disk, Some(cfg), false, ClassesColumn, name, json).1;
      LookupKept(Get(disk, Some(cfg), FloatsColumn, other, FloatMissing).0,
                 Get(after, Some(cfg), FloatsColumn, other, FloatMissing).0, FloatMissing) &&
      LookupKept(Get(disk, Some(cfg), IntsColumn, other, IntMissing).0,
                 Get(after, Some(cfg), IntsColumn, other, IntMissing).0, IntMissing) &&
      LookupKept(Get(disk, Some(cfg), StringsColumn, other, StringMissing).0,
                 Get(after, Some(cfg), StringsColumn, other, StringMissing).0, StringMissing) &&
      LookupKept(Get(disk, Some(cfg), BoolsColumn, other, BoolMissing).0,
                 Get(after, Some(cfg), BoolsColumn, other, BoolMissing).0, BoolMissing)
  {
    ColumnsAreLawful();
    ColumnsAreSeparate();
    SaveKeepsOtherColumns(disk, cfg, false, ClassesColumn, name, json, FloatsColumn, other, FloatMissing);
    SaveKeepsOtherColumns(disk, cfg, false, ClassesColumn, name, json, IntsColumn, other, IntMissing);
    SaveKeepsOtherColumns(disk, cfg, false, ClassesColumn, name, json, StringsColumn, other, StringMissing);
    SaveKeepsOtherColumns(disk, cfg, false, ClassesColumn, name, json, BoolsColumn, other, BoolMissing);
  }

  /** A save keeps a list free of duplicate names. */
  lemma SaveKeepsUnique<V(!new)>(disk: Disk, cfg: SavingConfig, checkFirst: bool, c: Column<V>,
                           name: string, value: V)
    requires Lawful(c)
    requires Save(disk, Some(cfg), checkFirst, c, name, value).0 == Written
    requires Unique(c.select(Loaded(disk, cfg).value.value).value)
    ensures
      var after := Save(disk, Some(cfg), checkFirst, c, name, value).1;
      Loaded(after, cfg).Ok? && Loaded(after, cfg).value.Some? &&
      c.select(Loaded(after, cfg).value.value).Some? &&
      Unique(c.select(Loaded(after, cfg).value.value).value)
  {
    var d := Loaded(disk, cfg).value.value;
    var s := Upsert(c.select(d).value, name, value);
    var after := Save(disk, Some(cfg), checkFirst, c, name, value).1;
    assert Loaded(after, cfg) == Ok(Some(Normalized(c.update(d, s))));
    assert c.select(Normalized(c.update(d, s))) == Some(s);
    UpsertKeepsUnique(c.select(d).value, name, value);
  }

  /** A lookup misses exactly when the list it reads holds no entry of that
      name. It writes nothing to an existing file. */
  lemma GetMisses<V>(disk: Disk, cfg: SavingConfig, c: Column<V>, name: string, missing: V)
    ensures Get(disk, Some(cfg), c, name, missing).0 == Default(NameNotFound, missing) <==>
      Loaded(disk, cfg).Ok? && Loaded(disk, cfg).value.Some? &&
      c.select(Loaded(disk, cfg).value.value).Some? &&
      name !in Names(c.select(Loaded(disk, cfg).value.value).value)
    ensures Get(disk, Some(cfg), c, name, missing).1 == CreatedDisk(disk, cfg)
    ensures cfg.fullPath in disk ==> Get(disk, Some(cfg), c, name, missing).1 == disk
  {
  }

  /** A lookup in a list that holds the name returns the value of the first
      entry of that name, whether or not a save wrote it. */
  lemma GetHits<V>(disk: Disk, cfg: SavingConfig, c: Column<V>, name: string, missing: V)
    requires Loaded(disk, cfg).Ok? && Loaded(disk, cfg).value.Some?
    requires c.select(Loaded(disk, cfg).value.value).Some?
    requires name in Names(c.select(Loaded(disk, cfg).value.value).value)
    ensures Get(disk, Some(cfg), c, name, missing).0 ==
      Found(Lookup(c.select(Loaded(disk, cfg).value.value).value, name).value)
  {
  }

  /** The corrected `LoadClass` is the classes lookup with the snapshot made an
      object and a miss made null: it misses exactly when `classes` is present
      and lacks the name, and a hit is the first snapshot stored under it. */
  lemma GetClassIsClassesLookup(disk: Disk, cfg: SavingConfig, name: string)
    ensures GetClass(disk, Some(cfg), name) ==
      (AsObject(Get(disk, Some(cfg), ClassesColumn, name, "").0), Get(disk, Some(cfg), ClassesColumn, name, "").1)
    ensures var r := GetClass(disk, Some(cfg), name).0;
      r == Default(NameNotFound, None) <==>
        Loaded(disk, cfg).Ok? && Loaded(disk, cfg).value.Some? &&
        Loaded(disk, cfg).value.value.classes.Some? &&
        name !in Names(Loaded(disk, cfg).value.value.classes.value)
    ensures (Loaded(disk, cfg).Ok? && Loaded(disk, cfg).value.Some? &&
             Loaded(disk, cfg).value.value.classes.Some? &&
             name in Names(Loaded(disk, cfg).value.value.classes.value)) ==>
      GetClass(disk, Some(cfg), name).0 == Found(Some(Lookup(Loaded(disk, cfg).value.value.classes.value, name).value))
  {
    GetMisses(disk, cfg, ClassesColumn, name, "");
  }

  /** On a disk without the save file every typed save writes: the file is
      created with five empty lists, so the target list is present. */
  lemma FreshSaveWrites(disk: Disk, cfg: SavingConfig, name: string,
                        f: real, i: Int32, s: string, b: bool, json: string)
    requires cfg.fullPath !in disk
    ensures Save(disk, Some(cfg), false, FloatsColumn, name, f).0 == Written
    ensures Save(disk, Some(cfg), false, IntsColumn, name, i).0 == Written
    ensures Save(disk, Some(cfg), false, StringsColumn, name, s).0 == Written
    ensures Save(disk, Some(cfg), true, BoolsColumn, name, b).0 == Written
    ensures Save(disk, Some(cfg), false, ClassesColumn, name, json).0 == Written
  {
    LoadOrCreateCases(disk, cfg);
  }

  /** On an existing file every typed save writes when the file decodes to a
      document whose lists are all present, as any file the store wrote does. */
  lemma ExistingSaveWrites(disk: Disk, cfg: SavingConfig, name: string,
                           f: real, i: Int32, s: string, b: bool, json: string)
    requires cfg.fullPath in disk
    requires Decode(disk[cfg.fullPath]).Ok? && Decode(disk[cfg.fullPath]).value.Some?
    requires Complete(Decode(disk[cfg.fullPath]).value.value)
    ensures Save(disk, Some(cfg), false, FloatsColumn, name, f).0 == Written
    ensures Save(disk, Some(cfg), false, IntsColumn, name, i).0 == Written
    ensures Save(disk, Some(cfg), false, StringsColumn, name, s).0 == Written
    ensures Save(disk, Some(cfg), true, BoolsColumn, name, b).0 == Written
    ensures Save(disk, Some(cfg), false, ClassesColumn, name, json).0 == Written
  {
    LoadOrCreateCases(disk, cfg);
  }

  /** With no settings, `SaveBoolValue` logs and returns without touching the
      disk; the other saves and every lookup throw inside `LoadOrCreate`,
      again before any file access. */
  lemma UninitializedTouchesNothing<V>(disk: Disk, c: Column<V>, name: string, value: V, missing: V)
    ensures Save(disk, None, true, c, name, value) == (Refused(NotInitialized), disk)
    ensures Save(disk, None, false, c, name, value) == (Aborted(NullReference), disk)
    ensures Get(disk, None, c, name, missing) == (Failed(NullReference), disk)
    ensures GetClassAsWritten(disk, None, name) == (Failed(NullReference), disk)
  {
  }

  /** The round trip for each typed pair: a successful `SaveXValue(name, v)`
      followed by `GetX(name)` returns `v`. */
  lemma TypedRoundTrips(disk: Disk, cfg: SavingConfig, name: string,
                        f: real, i: Int32, s: string, b: bool)
    ensures Save(disk, Some(cfg), false, FloatsColumn, name, f).0 == Written ==>
      Get(Save(disk, Some(cfg), false, FloatsColumn, name, f).1, Some(cfg), FloatsColumn, name, FloatMissing).0 == Found(f)
    ensures Save(disk, Some(cfg), false, IntsColumn, name, i).0 == Written ==>
      Get(Save(disk, Some(cfg), false, IntsColumn, name, i).1, Some(cfg), IntsColumn, name, IntMissing).0 == Found(i)
    ensures Save(disk, Some(cfg), false, StringsColumn, name, s).0 == Written ==>
      Get(Save(disk, Some(cfg), false, StringsColumn, name, s).1, Some(cfg), StringsColumn, name, StringMissing).0 == Found(s)
    ensures Save(disk, Some(cfg), true, BoolsColumn, name, b).0 == Written ==>
      Get(Save(disk, Some(cfg), true, BoolsColumn, name, b).1, Some(cfg), BoolsColumn, name, BoolMissing).0 == Found(b)
  {
    ColumnsAreLawful();
    if Save(disk, Some(cfg), false, FloatsColumn, name, f).0 == Written {
      SaveThenGet(disk, cfg, false, FloatsColumn, name, f, FloatMissing);
    }
    if Save(disk, Some(cfg), false, IntsColumn, name, i).0 == Written {
      SaveThenGet(disk, cfg, false, IntsColumn, name, i, IntMissing);
    }
    if Save(disk, Some(cfg), false, StringsColumn, name, s).0 == Written {
      SaveThenGet(disk, cfg, false, StringsColumn, name, s, StringMissing);
    }
    if Save(disk, Some(cfg), true, BoolsColumn, name, b).0 == Written {
      SaveThenGet(disk, cfg, true, BoolsColumn, name, b, BoolMissing);
    }
  }

  /** A class snapshot saved by `SaveClassVariable` is read back by the
      corrected `LoadClass`. */
  lemma ClassRoundTrip(disk: Disk, cfg: SavingConfig, name: string, json: string)
    requires Save(disk, Some(cfg), false, ClassesColumn, name, json).0 == Written
    ensures GetClass(Save(disk, Some(cfg), false, ClassesColumn, name, json).1, Some(cfg), name).0 == Found(Some(json))
  {
    ColumnsAreLawful();
    SaveThenGet(disk, cfg, false, ClassesColumn, name, json, "");
  }

  /** A session on a fresh disk: save `level` = 3, read it, overwrite it with
      7 (the list keeps one entry), then look up a name never saved, which
      misses and leaves the file as it was. */
  lemma LevelScenario(cfg: SavingConfig)
    ensures
      var first := Save(map[], Some(cfg), false, IntsColumn, "level", 3);
      var second := Save(first.1, Some(cfg), false, IntsColumn, "level", 7);
      first.0 == Written && Loaded(first.1, cfg) == Ok(Some(EmptyDocument.(ints := Some([Entry("level", 3)])))) &&
      Get(first.1, Some(cfg), IntsColumn, "level", IntMissing).0 == Found(3) &&
      second.0 == Written && Loaded(second.1, cfg) == Ok(Some(EmptyDocument.(ints := Some([Entry("level", 7)])))) &&
      Get(second.1, Some(cfg), IntsColumn, "xp", IntMissing) == (Default(NameNotFound, IntMissing), second.1)
  {
    var disk: Disk := map[];
    LoadOrCreateCases(disk, cfg);
    assert Upsert([], "level", 3 as Int32) == [Entry("level", 3)];
    var first := Save(disk, Some(cfg), false, IntsColumn, "level", 3);
    var d1 := EmptyDocument.(ints := Some([Entry("level", 3 as Int32)]));
    assert Loaded(first.1, cfg) == Ok(Some(Normalized(d1)));
    assert Names(d1.ints.value) == ["level"];
    assert Upsert(d1.ints.value, "level", 7 as Int32) == [Entry("level", 7)];
    var d2 := EmptyDocument.(ints := Some([Entry("level", 7 as Int32)]));
    var second := Save(first.1, Some(cfg), false, IntsColumn, "level", 7);
    assert Loaded(second.1, cfg) == Ok(Some(Normalized(d2)));
    assert Names(d2.ints.value) == ["level"];
  }

  /** On a fresh disk, a class saved by `SaveClassVariable` is not found by
      `LoadClass` as written, because the name is searched for in the empty
      `bools` list; the corrected lookup finds it. */
  lemma LoadClassAsWrittenMissesSavedClass(cfg: SavingConfig)
    ensures
      var after := Save(map[], Some(cfg), false, ClassesColumn, "player", "{}");
      after.0 == Written &&
      GetClassAsWritten(after.1, Some(cfg), "player").0 == Default(NameNotFound, None) &&
      GetClass(after.1, Some(cfg), "player").0 == Found(Some("{}"))
  {
    var disk: Disk := map[];
    LoadOrCreateCases(disk, cfg);
    var after := Save(disk, Some(cfg), false, ClassesColumn, "player", "{}");
    ColumnsAreLawful();
    SaveThenGet(disk, cfg, false, ClassesColumn, "player", "{}", "");
    assert Upsert([], "player", "{}") == [Entry("player", "{}")];
    var d := EmptyDocument.(classes := Some([Entry("player", "{}")]));
    assert Loaded(after.1, cfg) == Ok(Some(Normalized(d)));
    assert Names(d.bools.value) == [];
  }

  /** A bool saved under a name makes `LoadClass` as written index `classes`
      with that bool's position, which throws when `classes` is shorter. */
  lemma LoadClassAsWrittenIndexesWrongList(cfg: SavingConfig)
    ensures
      var disk := map[cfg.fullPath := Encode(EmptyDocument.(bools := Some([Entry("flag", true)])), false)];
      GetClassAsWritten(disk, Some(cfg), "flag").0 == Failed(ArgumentOutOfRange) &&
      GetClass(disk, Some(cfg), "flag").0 == Default(NameNotFound, None)
  {
    var d := EmptyDocument.(bools := Some([Entry("flag", true)]));
    assert Names(d.bools.value) == ["flag"];
    assert Names(d.classes.value) == [];
    assert FindIndex(d.bools.value, "flag") == 0;
  }

  // ---------------------------------------------------------------------------
  // The store itself

  class BoltsSave {
    /** `_settings`: the loaded configuration, or null. */
    var settings: Option<SavingConfig>
    /** `_isLoading`: an asset load started by `Initialize` has not finished. */
    var isLoading: bool
    /** The files the store reads and writes. */
    var disk: Disk

    /** Process start: nothing loaded, nothing loading. */
    constructor (files: Disk)
      ensures settings == None && !isLoading && disk == files
    {
      settings := None;
      isLoading := false;
      disk := files;
    }

    /** `Initialize` up to its first `await`. `started` tells whether an asset
        load was begun, whose completion is `FinishInitialize`. */
    method Initialize() returns (started: bool)
      modifies this
      ensures Bootstrap(settings, isLoading) == BeginLoad(old(Bootstrap(settings, isLoading)))
      ensures started <==> old(settings).None? && !old(isLoading)
      ensures disk == old(disk)
    {
      if settings.Some? || isLoading {
        return false;
      }
      isLoading := true;
      return true;
    }

    /** The rest of `Initialize`, once the asset load delivers `loaded`. */
    method FinishInitialize(loaded: Option<SavingConfig>)
      requires isLoading
      modifies this
      ensures Bootstrap(settings, isLoading) == FinishLoad(old(Bootstrap(settings, isLoading)), loaded)
      ensures disk == old(disk)
    {
      settings := loaded;
      isLoading := false;
    }

    /** `SaveFile`: overwrite the save file with the whole document. */
    method SaveFile(sd: Document) returns (e: Effect)
      modifies this
      ensures settings == old(settings) && isLoading == old(isLoading)
      ensures settings.None? ==> e == Aborted(NullReference) && disk == old(disk)
      ensures settings.Some? ==> e == Written && disk == WriteFile(old(disk), settings.value, sd)
    {
      if settings.None? {
        return Aborted(NullReference);
      }
      var fullPath := settings.value.fullPath;
      var newJson := Encode(sd, settings.value.useEncryption);
      disk := disk[fullPath := newJson];
      e := Written;
    }

    /** `LoadOrCreate`: create the file as an empty document if it is missing,
        then decode it. */
    method LoadOrCreate() returns (r: Outcome<Option<Document>>)
      modifies this
      ensures settings == old(settings) && isLoading == old(isLoading)
      ensures settings.None? ==> r == Crash(NullReference) && disk == old(disk)
      ensures settings.Some? ==>
        disk == CreatedDisk(old(disk), settings.value) && r == Loaded(old(disk), settings.value)
    {
      if settings.None? {
        return Crash(NullReference);
      }
      var fullPath := settings.value.fullPath;
      var sd := NewDocument;
      if fullPath !in disk {
        var newJsonFile := Encode(sd, settings.value.useEncryption);
        disk := disk[fullPath := newJsonFile];
      }
      var jsonFile := disk[fullPath];
      r := Decode(jsonFile);
    }

    /** The body shared by the typed saves, from `LoadOrCreate` on. */
    method SaveEntry<V>(c: Column<V>, name: string, value: V) returns (e: Effect)
      modifies this
      ensures settings == old(settings) && isLoading == old(isLoading)
      ensures (e, disk) == Save(old(disk), settings, false, c, name, value)
    {
      var loaded := LoadOrCreate();
      if loaded.Crash? {
        return Aborted(loaded.failure);
      }
      if loaded.value.None? {
        return Aborted(NullReference);
      }
      var sd := loaded.value.value;
      var list := c.select(sd);
      if list.None? {
        // the scan is skipped and `Add` is called on the null list
        return Aborted(NullReference);
      }
      var entries := list.value;
      var index := FindIndex(entries, name);
      if index > -1 {
        entries := entries[index := entries[index].(value := value)];
      } else {
        entries := entries + [Entry(name, value)];
      }
      e := SaveFile(c.update(sd, entries));
    }

    method SaveFloatValue(name: string, value: real) returns (e: Effect)
      modifies this
      ensures settings == old(settings) && isLoading == old(isLoading)
      ensures (e, disk) == Save(old(disk), settings, false, FloatsColumn, name, value)
    {
      e := SaveEntry(FloatsColumn, name, value);
    }

    method SaveIntValue(name: string, value: Int32) returns (e: Effect)
      modifies this
      ensures settings == old(settings) && isLoading == old(isLoading)
      ensures (e, disk) == Save(old(disk), settings, false, IntsColumn, name, value)
    {
      e := SaveEntry(IntsColumn, name, value);
    }

    method SaveStringValue(name: string, value: string) returns (e: Effect)
      modifies this
      ensures settings == old(settings) && isLoading == old(isLoading)
      ensures (e, disk) == Save(old(disk), settings, false, StringsColumn, name, value)
    {
      e := SaveEntry(StringsColumn, name, value);
    }

    /** The one save that checks for settings before touching the file. */
    method SaveBoolValue(name: string, value: bool) returns (e: Effect)
      modifies this
      ensures settings == old(settings) && isLoading == old(isLoading)
      ensures (e, disk) == Save(old(disk), settings, true, BoolsColumn, name, value)
    {
      if settings.None? {
        return Refused(NotInitialized);
      }
      e := SaveEntry(BoolsColumn, name, value);
    }

    /** `SaveClassVariable`; `snapshot` is `JsonUtility.ToJson(classInstance)`. */
    method SaveClassVariable(name: string, snapshot: string) returns (e: Effect)
      modifies this
      ensures settings == old(settings) && isLoading == old(isLoading)
      ensures (e, disk) == Save(old(disk), settings, false, ClassesColumn, name, snapshot)
    {
      e := SaveEntry(ClassesColumn, name, snapshot);
    }

    /** The body shared by the typed lookups. */
    method GetEntry<V>(c: Column<V>, name: string, missing: V) returns (r: Reply<V>)
      modifies this
      ensures settings == old(settings) && isLoading == old(isLoading)
      ensures (r, disk) == Get(old(disk), settings, c, name, missing)
    {
      var loaded := LoadOrCreate();
      if loaded.Crash? {
        return Failed(loaded.failure);
      }
      if loaded.value.None? {
        return Failed(NullReference);
      }
      var list := c.select(loaded.value.value);
      if list.None? {
        return Failed(NullReference);
      }
      var index := FindIndex(list.value, name);
      if index > -1 {
        return Found(list.value[index].value);
      }
      return Default(NameNotFound, missing);
    }

    method GetFloat(name: string) returns (r: Reply<real>)
      modifies this
      ensures settings == old(settings) && isLoading == old(isLoading)
      ensures (r, disk) == Get(old(disk), settings, FloatsColumn, name, FloatMissing)
    {
      r := GetEntry(FloatsColumn, name, FloatMissing);
    }

    method GetInt(name: string) returns (r: Reply<Int32>)
      modifies this
      ensures settings == old(settings) && isLoading == old(isLoading)
      ensures (r, disk) == Get(old(disk), settings, IntsColumn, name, IntMissing)
    {
      r := GetEntry(IntsColumn, name, IntMissing);
    }

    method GetString(name: string) returns (r: Reply<string>)
      modifies this
      ensures settings == old(settings) && isLoading == old(isLoading)
      ensures (r, disk) == Get(old(disk), settings, StringsColumn, name, StringMissing)
    {
      r := GetEntry(StringsColumn, name, StringMissing);
    }

    method GetBool(name: string) returns (r: Reply<bool>)
      modifies this
      ensures settings == old(settings) && isLoading == old(isLoading)
      ensures (r, disk) == Get(old(disk), settings, BoolsColumn, name, BoolMissing)
    {
      r := GetEntry(BoolsColumn, name, BoolMissing);
    }

    /** `LoadClass` with its scan corrected to `classes`: the stored snapshot,
        whose decoding into an object is left to the caller. */
    method LoadClass(name: string) returns (r: Reply<Option<string>>)
      modifies this
      ensures settings == old(settings) && isLoading == old(isLoading)
      ensures (r, disk) == GetClass(old(disk), settings, name)
    {
      var snapshot := GetEntry(ClassesColumn, name, "");
      r := AsObject(snapshot);
    }

    /** `LoadClass` as written: the position found in `bools` indexes `classes`. */
    method LoadClassAsWritten(name: string) returns (r: Reply<Option<string>>)
      modifies this
      ensures settings == old(settings) && isLoading == old(isLoading)
      ensures (r, disk) == GetClassAsWritten(old(disk), settings, name)
    {
      var loaded := LoadOrCreate();
      if loaded.Crash? {
        return Failed(loaded.failure);
      }
      if loaded.value.None? {
        return Failed(NullReference);
      }
      var sd := loaded.value.value;
      if sd.bools.None? {
        return Failed(NullReference);
      }
      var index := FindIndex(sd.bools.value, name);
      if index > -1 {
        if sd.classes.None? {
          return Failed(NullReference);
        }
        if index >= |sd.classes.value| {
          return Failed(ArgumentOutOfRange);
        }
        return Found(Some(sd.classes.value[index].value));
      }
      return Default(NameNotFound, None);
    }
  }
}
