/** `JsonUtility` as the store uses it, kept abstract: a document is written
    out as text and read back. The text is not modelled character by
    character; a `Text` records which document a well-formed JSON file
    describes, or that the file holds something else. */
module Codec {
  import opened Basics
  import opened SaveData

  /** The contents of a save file. */
  datatype Text =
    | Json(document: Document, prettyPrint: bool)  // well-formed JSON for `document`, laid out flat or indented
    | NullJson                                     // text that `FromJson` reads as a null object, such as ""
    | Malformed(chars: string)                     // text that `FromJson` rejects

  /** A null list written by the serializer reads back as an empty list. */
  function OrEmpty<V>(t: Table<V>): seq<Entry<V>> {
    if t.Some? then t.value else []
  }

  /** The five lists are all present. */
  predicate Complete(d: Document) {
    d.floats.Some? && d.ints.Some? && d.strings.Some? && d.bools.Some? && d.classes.Some?
  }

  /** The document a serialized copy of `d` describes. */
  function Normalized(d: Document): (r: Document)
    ensures Complete(r)
    ensures Complete(d) ==> r == d
  {
    Document(Some(OrEmpty(d.floats)), Some(OrEmpty(d.ints)), Some(OrEmpty(d.strings)),
             Some(OrEmpty(d.bools)), Some(OrEmpty(d.classes)))
  }

  /** `JsonUtility.FromJson<SaveData>`: the decoded document, a null object,
      or the exception thrown on text that is not JSON. */
  function Decode(t: Text): (r: Outcome<Option<Document>>)
    ensures r.Crash? ==> r.failure == InvalidJson
  {
    match t
    case Json(d, _) => Ok(Some(d))
    case NullJson => Ok(None)
    case Malformed(_) => Crash(InvalidJson)
  }

  /** `JsonUtility.ToJson(d, prettyPrint)`. The second argument only chooses
      the layout of the text. */
  function Encode(d: Document, prettyPrint: bool): (t: Text)
    ensures Decode(t) == Ok(Some(Normalized(d)))
  {
    Json(Normalized(d), prettyPrint)
  }

  /** Decoding undoes encoding for every document whose lists are present,
      whatever layout flag was used. */
  lemma RoundTrip(d: Document, prettyPrint: bool)
    requires Complete(d)
    ensures Decode(Encode(d, prettyPrint)) == Ok(Some(d))
  {
  }

  /** The flag passed as `useEncryption` does not change what is read back. */
  lemma LayoutIrrelevant(d: Document)
    ensures Decode(Encode(d, true)) == Decode(Encode(d, false))
  {
  }

  /** `new SaveData()` reads back as five present, empty lists. */
  lemma NewDocumentReadsBackEmpty(prettyPrint: bool)
    ensures Decode(Encode(NewDocument, prettyPrint)) == Ok(Some(EmptyDocument))
  {
  }
}
