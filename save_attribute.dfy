/** The filter of a `[BoltsSave]` string field: which saved lists its name
    picker offers. */
module SaveAttribute {
  datatype SavedVariableType = Any | Float | Int | String | Bool | Class
}
