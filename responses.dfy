/** What the handlers answer, reduced to which answer it is. */
module Responses {
  import opened Wrappers
  import opened Records

  /** The HTML pages of the setup handlers; only the kind of page and the login link are kept. */
  datatype Page =
    | AlreadyConnected        // "Already authenticated!" / "Connected!"
    | LoginSucceeded          // "Success! Tidal connected."
    | AuthCheckFailed         // "Auth check failed"
    | ConnectLink(link: string)  // "Connect Tidal", linking to the verification URI

  /** One change to a key-value store, in the order the handler makes it. */
  datatype Op<K> = Write(key: K, value: Record) | Remove(key: K)

  /** The store after one change; removing an absent key changes nothing. */
  function ApplyOp<K(==)>(store: map<K, Record>, op: Op<K>): map<K, Record> {
    match op
    case Write(k, v) => store[k := v]
    case Remove(k) => store - {k}
  }

  /** The store after `ops`, applied in order. */
  function Apply<K(==)>(store: map<K, Record>, ops: seq<Op<K>>): map<K, Record>
    decreases |ops|
  {
    if ops == [] then store else Apply(ApplyOp(store, ops[0]), ops[1..])
  }

  lemma ApplyPair<K>(store: map<K, Record>, a: Op<K>, b: Op<K>)
    ensures Apply(store, [a]) == ApplyOp(store, a)
    ensures Apply(store, [a, b]) == ApplyOp(ApplyOp(store, a), b)
  {
    assert [a][1..] == [];
    assert [a, b][1..] == [b];
    assert [b][1..] == [];
    var mid := ApplyOp(store, a);
    assert Apply(store, [a, b]) == Apply(mid, [b]);
    assert Apply(mid, [b]) == Apply(ApplyOp(mid, b), []);
  }

  /**
   * What a setup visit does: the store it leaves, the changes it made to get
   * there, and the page it answers with (`None` when it raised before answering).
   */
  datatype Outcome<K> = Outcome(state: map<K, Record>, ops: seq<Op<K>>, page: Option<Page>)

  function Sent(page: Option<Page>): seq<Page> {
    match page
    case Some(p) => [p]
    case None => []
  }

  /** The dictionaries the sync handlers return; `Crashed` is an uncaught `KeyError`. */
  datatype Reply =
    | Refused(error: string, setup: Option<string>)
    | Synced(playlist: string, tracks: nat)
    | Crashed

  const NOT_AUTHENTICATED := "Not authenticated"
  const SESSION_EXPIRED := "Session expired"
  const NOT_FOUND := "Daily Discovery not found"
}
