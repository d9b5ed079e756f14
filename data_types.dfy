/** The closed set of data-type keys that select one of the four data files. */
module DataTypes {

  /** The data-type keys, in registration order. */
  const DataTypeKeys: seq<string> := ["cases", "events", "messages", "docDetails"]
}
