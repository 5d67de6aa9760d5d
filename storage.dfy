/**
 * The browser's `localStorage`, shared by both providers: a key-value map.
 * `Serialized(ts)` stands for any text that `JSON.parse` maps to the tool array `ts`
 * (in particular the text `JSON.stringify(ts)` produces, and `"[]"` for the empty
 * array); `Text` holds only text that does not parse as a tool array.
 */
module Storage {
  import opened Wrappers
  import opened ToolList

  /** A stored value: text that is not a tool array in JSON, or a tool array in JSON. */
  datatype Entry = Text(text: string) | Serialized(tools: seq<Tool>)

  /** Why the saved tool list could not be read back: the text does not parse as a tool array. */
  datatype ReadError = ForeignText(text: string)

  class LocalStorage {
    var entries: map<string, Entry>

    /** A storage surface holding whatever an earlier session left behind. */
    constructor (initial: map<string, Entry>)
      ensures entries == initial
    {
      entries := initial;
    }

    /** `localStorage.setItem(key, value)`: overwrites one key and touches no other. */
    method SetItem(key: string, value: Entry)
      modifies this
      ensures entries == old(entries)[key := value]
    {
      entries := entries[key := value];
    }
  }
}
