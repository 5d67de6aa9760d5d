/**
 * `ToolsProvider`: the tool collection store. It owns the list, replaces it on
 * every change, and mirrors it to storage under "tools" after each change.
 */
module ToolsContext {
  import opened Wrappers
  import opened ToolList
  import opened Storage

  /** The storage key of the tool list. */
  const ToolsKey := "tools"

  /**
   * `savedTools ? JSON.parse(savedTools) : []`: a missing key or the (falsy) empty text
   * gives the empty list, the JSON of a tool array gives that array, and any other
   * non-empty text does not parse as a tool array (what JSON.parse then does is not
   * part of this model).
   */
  function ReadTools(entries: map<string, Entry>): (r: Result<seq<Tool>, ReadError>)
    ensures ToolsKey !in entries ==> r == Success([])
    ensures ToolsKey in entries && entries[ToolsKey] == Text("") ==> r == Success([])
    ensures ToolsKey in entries && entries[ToolsKey].Serialized? ==> r == Success(entries[ToolsKey].tools)
    ensures r.Failure? <==> ToolsKey in entries && entries[ToolsKey].Text? && entries[ToolsKey].text != ""
  {
    if ToolsKey !in entries then Success([])
    else match entries[ToolsKey]
      case Serialized(ts) => Success(ts)
      case Text(s) => if s == "" then Success([]) else Failure(ForeignText(s))
  }

  /** What storage holds once the list `ts` has been mirrored. */
  function Persisted(entries: map<string, Entry>, ts: seq<Tool>): (r: map<string, Entry>)
    ensures r.Keys == entries.Keys + {ToolsKey}
    ensures r[ToolsKey] == Serialized(ts)
    ensures forall k :: k in entries && k != ToolsKey ==> r[k] == entries[k]
  {
    entries[ToolsKey := Serialized(ts)]
  }

  /** The mirrored list reads back as itself, and every other key is left alone. */
  lemma ReadPersisted(entries: map<string, Entry>, ts: seq<Tool>)
    ensures ReadTools(Persisted(entries, ts)) == Success(ts)
    ensures forall k :: k in entries && k != ToolsKey ==> k in Persisted(entries, ts) && Persisted(entries, ts)[k] == entries[k]
  {
  }

  class ToolsProvider {
    var tools: seq<Tool>
    const storage: LocalStorage

    /** Storage holds the current list. */
    ghost predicate Valid()
      reads this, storage
    {
      ToolsKey in storage.entries && storage.entries[ToolsKey] == Serialized(tools)
    }

    /** Initial load from storage, then the mount-time mirror of the loaded list. */
    constructor (storage: LocalStorage)
      requires ReadTools(storage.entries).Success?
      modifies storage
      ensures this.storage == storage && Valid()
      ensures tools == ReadTools(old(storage.entries)).value
      ensures ToolsKey !in old(storage.entries) ==> tools == []
      ensures storage.entries == Persisted(old(storage.entries), tools)
    {
      this.storage := storage;
      tools := ReadTools(storage.entries).value;
      new;
      storage.SetItem(ToolsKey, Serialized(tools));
    }

    /** The effect on `[tools]`: mirror the list after a change. */
    method Persist()
      modifies storage
      ensures Valid()
      ensures storage.entries == Persisted(old(storage.entries), tools)
    {
      storage.SetItem(ToolsKey, Serialized(tools));
    }

    /** `addTool`: append `{ ...fields, id: freshId }`; `freshId` stands for `crypto.randomUUID()`. */
    method AddTool(fields: ToolFields, freshId: string)
      requires Valid()
      modifies this, storage
      ensures Valid()
      ensures tools == Added(old(tools), fields, freshId)
      ensures storage.entries == Persisted(old(storage.entries), tools)
      ensures DistinctIds(old(tools)) && !HasId(old(tools), freshId) ==> DistinctIds(tools)
    {
      if DistinctIds(tools) && !HasId(tools, freshId) {
        AddedKeepsIdsDistinct(tools, fields, freshId);
      }
      tools := Added(tools, fields, freshId);
      Persist();
    }

    /** `updateTool`: merge `patch` into every tool whose id is `id`. */
    method UpdateTool(id: string, patch: Patch)
      requires Valid()
      modifies this, storage
      ensures Valid()
      ensures tools == Updated(old(tools), id, patch)
      ensures storage.entries == Persisted(old(storage.entries), tools)
      ensures !HasId(old(tools), id) ==> tools == old(tools)
    {
      if !HasId(tools, id) {
        UpdatedAbsent(tools, id, patch);
      }
      tools := Updated(tools, id, patch);
      Persist();
    }

    /** `deleteTool`: keep the tools whose id is not `id`. */
    method DeleteTool(id: string)
      requires Valid()
      modifies this, storage
      ensures Valid()
      ensures tools == Deleted(old(tools), id)
      ensures storage.entries == Persisted(old(storage.entries), tools)
      ensures !HasId(tools, id)
      ensures DistinctIds(old(tools)) ==> DistinctIds(tools)
    {
      DeletedRemovesId(tools, id);
      if DistinctIds(tools) {
        DeletedKeepsIdsDistinct(tools, id);
      }
      tools := Deleted(tools, id);
      Persist();
    }
  }

  /** A reload: a new provider over the same storage starts with the same list. */
  method Remount(p: ToolsProvider) returns (q: ToolsProvider)
    requires p.Valid()
    modifies p.storage
    ensures q.tools == p.tools && q.storage == p.storage && q.Valid()
    ensures p.Valid() && p.storage.entries == old(p.storage.entries)
  {
    ReadPersisted(p.storage.entries, p.tools);
    assert p.storage.entries == Persisted(p.storage.entries, p.tools);
    q := new ToolsProvider(p.storage);
  }
}
