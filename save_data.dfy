/** The save document (`SaveData` and its entry records) and the list
    operations the store performs on it: the `FindIndex` scan by name, the
    overwrite-or-append upsert and the first-match lookup. */
module SaveData {
  import opened Basics

  /** C#'s `int`: the value type of the `ints` list. */
  newtype Int32 = x: int | -0x8000_0000 <= x < 0x8000_0000

  /** One `{name, value}` record: SaveFloat, SaveInt, SaveString, SaveBool or
      SaveClass, according to `V`. */
  datatype Entry<+V> = Entry(name: string, value: V)

  /** A `List<...>` field of the document; `None` is a null list. */
  type Table<V> = Option<seq<Entry<V>>>

  /** `SaveData`: five insertion-ordered lists. Float values are only stored
      and matched by name, so `real` stands for `float`; class values are
      opaque JSON snapshots. */
  datatype Document = Document(
    floats: Table<real>,
    ints: Table<Int32>,
    strings: Table<string>,
    bools: Table<bool>,
    classes: Table<string>)

  /** `new SaveData()`: every list field is still null. */
  const NewDocument: Document := Document(None, None, None, None, None)

  /** A document whose five lists are all present and empty. */
  const EmptyDocument: Document := Document(Some([]), Some([]), Some([]), Some([]), Some([]))

  /** The names of the entries, in stored order. */
  function Names<V>(s: seq<Entry<V>>): (r: seq<string>)
    ensures |r| == |s|
    ensures forall i :: 0 <= i < |s| ==> r[i] == s[i].name
  {
    if |s| == 0 then [] else [s[0].name] + Names(s[1..])
  }

  lemma {:induction false} NamesAppend<V>(s: seq<Entry<V>>, e: Entry<V>)
    ensures Names(s + [e]) == Names(s) + [e.name]
  {
    if |s| == 0 {
      assert s + [e] == [e];
    } else {
      assert (s + [e])[1..] == s[1..] + [e];
      NamesAppend(s[1..], e);
    }
  }

  /** No two entries of `s` share a name. */
  predicate Unique<V>(s: seq<Entry<V>>) {
    forall i, j :: 0 <= i < j < |s| ==> s[i].name != s[j].name
  }

  /** `list.FindIndex(x => x.name == name)`: the position of the first entry
      called `name`, or -1. */
  function FindIndex<V>(s: seq<Entry<V>>, name: string): (i: int)
    ensures -1 <= i < |s|
    ensures i < 0 <==> name !in Names(s)
    ensures 0 <= i ==> s[i].name == name
    ensures 0 <= i ==> forall j :: 0 <= j < i ==> s[j].name != name
  {
    var i := IndexOf(Names(s), name);
    assert 0 <= i ==> forall j :: 0 <= j < i ==> Names(s)[..i][j] == s[j].name;
    i
  }

  /** The value of the first entry called `name`, if any. */
  function Lookup<V>(s: seq<Entry<V>>, name: string): (r: Option<V>)
    ensures r.None? <==> name !in Names(s)
    ensures r.Some? ==>
      exists i :: 0 <= i < |s| && s[i] == Entry(name, r.value) && forall j :: 0 <= j < i ==> s[j].name != name
  {
    var i := FindIndex(s, name);
    if i > -1 then Some(s[i].value) else None
  }

  /** The store's update of one list: overwrite the value of the first entry
      called `name`, in place, or append `{name, value}` at the end. */
  function Upsert<V>(s: seq<Entry<V>>, name: string, value: V): (r: seq<Entry<V>>)
    ensures name in Names(s) ==>
      |r| == |s| && r[FindIndex(s, name)] == Entry(name, value) &&
      forall j :: 0 <= j < |s| && j != FindIndex(s, name) ==> r[j] == s[j]
    ensures name !in Names(s) ==> r == s + [Entry(name, value)]
    ensures Names(r) == if name in Names(s) then Names(s) else Names(s) + [name]
  {
    var index := FindIndex(s, name);
    if index > -1 then s[index := s[index].(value := value)]
    else
      NamesAppend(s, Entry(name, value));
      s + [Entry(name, value)]
  }

  /** Reading a name back after saving it gives the saved value. */
  lemma LookupAfterUpsert<V>(s: seq<Entry<V>>, name: string, value: V)
    ensures Lookup(Upsert(s, name, value), name) == Some(value)
  {
    var r := Upsert(s, name, value);
    if name in Names(s) {
      var i := FindIndex(s, name);
      var k := FindIndex(r, name);
      assert r[i].name == name;
    } else {
      var k := FindIndex(r, name);
      assert r[|s|].name == name;
    }
  }

  /** Saving under one name leaves the lookup of every other name as it was. */
  lemma LookupOtherAfterUpsert<V>(s: seq<Entry<V>>, name: string, value: V, other: string)
    requires other != name
    ensures Lookup(Upsert(s, name, value), other) == Lookup(s, other)
  {
    var r := Upsert(s, name, value);
    var k := FindIndex(r, other);
    var k0 := FindIndex(s, other);
    if name in Names(s) {
      var i := FindIndex(s, name);
      forall j | 0 <= j < |s| ensures r[j].name == s[j].name {
        if j == i { assert r[j] == Entry(name, value); }
      }
      forall j | 0 <= j < |s| && j != i ensures r[j].value == s[j].value {
      }
      assert Names(r) == Names(s);
      assert k == k0;
      if 0 <= k {
        assert s[k].name == other;
        assert k != i;
      }
    } else {
      assert k == k0 by {
        if 0 <= k0 { assert r[k0] == s[k0]; }
        if 0 <= k < |s| { assert r[k] == s[k]; }
      }
    }
  }

  /** Upserting never introduces a duplicate name. */
  lemma UpsertKeepsUnique<V>(s: seq<Entry<V>>, name: string, value: V)
    requires Unique(s)
    ensures Unique(Upsert(s, name, value))
  {
    var r := Upsert(s, name, value);
    assert forall i :: 0 <= i < |r| ==> r[i].name == Names(r)[i];
    assert forall i :: 0 <= i < |s| ==> s[i].name == Names(s)[i];
    if name !in Names(s) {
      forall i, j | 0 <= i < j < |r| ensures r[i].name != r[j].name {
        if j == |s| { assert Names(s)[i] == r[i].name; }
      }
    }
  }
}
