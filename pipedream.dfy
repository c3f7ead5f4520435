/** The two objects the Pipedream platform hands a workflow step. */
module Pipedream {
  import opened Records
  import opened Responses

  /** The data store key under which the saved tokens live. */
  const TIDAL_TOKENS := "tidal_tokens"

  /** The workflow's key-value data store (`pd.inputs["data_store"]`). */
  class DataStore {
    var entries: map<string, Record>
    /** The changes made so far, oldest first. */
    var ops: seq<Op<string>>

    constructor (entries: map<string, Record>)
      ensures this.entries == entries && ops == []
    {
      this.entries := entries;
      ops := [];
    }

    /** `data_store[key] = value`. */
    method Set(key: string, value: Record)
      modifies this
      ensures entries == old(entries)[key := value]
      ensures ops == old(ops) + [Write(key, value)]
    {
      entries := entries[key := value];
      ops := ops + [Write(key, value)];
    }

    /** `del data_store[key]`; the handlers only delete keys they have just seen. */
    method Delete(key: string)
      requires key in entries
      modifies this
      ensures entries == old(entries) - {key}
      ensures ops == old(ops) + [Remove(key)]
    {
      entries := entries - {key};
      ops := ops + [Remove(key)];
    }
  }

  /** The step's `pd` object: its data store input and the HTTP responses sent with `pd.respond`. */
  class Pd {
    const dataStore: DataStore
    var sent: seq<Page>

    constructor (dataStore: DataStore)
      ensures this.dataStore == dataStore && sent == []
    {
      this.dataStore := dataStore;
      sent := [];
    }

    /** `pd.respond(...)`. */
    method Respond(page: Page)
      modifies this
      ensures sent == old(sent) + [page]
    {
      sent := sent + [page];
    }
  }
}
