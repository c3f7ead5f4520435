/**
 * The Pipedream HTTP step that walks the user through Tidal's device login,
 * one visit at a time. Its state is the data store: `tidal_tokens` once logged
 * in, `pending_auth` while a device login waits to be confirmed.
 */
module PipedreamSetup {
  import opened Wrappers
  import opened Tidal
  import opened Records
  import opened Responses
  import opened Pipedream

  const PENDING_AUTH := "pending_auth"

  /** The stored tokens are present, readable, and the session loads from them. */
  predicate TokensAccepted(store: map<string, Record>, tokensLoad: bool) {
    TIDAL_TOKENS in store && HasTokenKeys(store[TIDAL_TOKENS]) && tokensLoad
  }

  /** A visit raises `KeyError` before answering: a stored record lacks a key it reads. */
  predicate Raises(store: map<string, Record>, tokensLoad: bool) {
    || (TIDAL_TOKENS in store && !HasTokenKeys(store[TIDAL_TOKENS]))
    || (!TokensAccepted(store, tokensLoad) && PENDING_AUTH in store && !HasPendingKeys(store[PENDING_AUTH]))
  }

  /** A visit that reaches the check of a readable pending login. */
  predicate ChecksPending(store: map<string, Record>, tokensLoad: bool) {
    !Raises(store, tokensLoad) && !TokensAccepted(store, tokensLoad) && PENDING_AUTH in store
  }

  /** The pending login is checked, the check returns and the session is logged in. */
  predicate LoginConfirmed(store: map<string, Record>, tokensLoad: bool, check: LinkCheck) {
    ChecksPending(store, tokensLoad) && check.CheckReturns? && check.loggedIn
  }

  /**
   * One visit, as a function of the store before it. `tokensLoad` is what
   * `load_oauth_session` answers for the stored tokens, `check` what the single
   * check of the pending login does, `info` what `login_oauth()` returns.
   */
  function Step(store: map<string, Record>, tokensLoad: bool, check: LinkCheck, info: LoginInfo)
    : (o: Outcome<string>)
    ensures o.state == Apply(store, o.ops)
    // valid stored tokens: "Already authenticated", nothing changes
    ensures o.page == Some(AlreadyConnected) <==> TokensAccepted(store, tokensLoad)
    ensures TokensAccepted(store, tokensLoad) ==> o.ops == []
    // an unreadable record raises before anything changes, and nothing is answered
    ensures o.page.None? <==> Raises(store, tokensLoad)
    ensures o.page.None? ==> o.ops == []
    // a confirmed login saves the three-field token record, then drops the pending one
    ensures o.page == Some(LoginSucceeded) <==> LoginConfirmed(store, tokensLoad, check)
    ensures LoginConfirmed(store, tokensLoad, check) ==>
              o.ops == [Write(TIDAL_TOKENS, TokensRecord(check.session)), Remove(PENDING_AUTH)]
    // a check that raises deletes the pending login, then a new one is written
    ensures ChecksPending(store, tokensLoad) && check.CheckRaises? ==>
              o.ops == [Remove(PENDING_AUTH), Write(PENDING_AUTH, PendingRecord(info))]
    // a check that returns without a login leaves it, and it is overwritten
    ensures ChecksPending(store, tokensLoad) && check.CheckReturns? && !check.loggedIn ==>
              o.ops == [Write(PENDING_AUTH, PendingRecord(info))]
    // a new device login on a visit with no pending login to check only writes it
    ensures !ChecksPending(store, tokensLoad) && o.page.Some? && o.page.value.ConnectLink? ==>
              o.ops == [Write(PENDING_AUTH, PendingRecord(info))]
    // whenever a new device login starts, its details are pending afterwards
    ensures o.page.Some? && o.page.value.ConnectLink? ==>
              && o.state == store[PENDING_AUTH := PendingRecord(info)]
              && o.page.value.link == info.verificationUriComplete
    // this handler never shows the failure page
    ensures o.page != Some(AuthCheckFailed)
    // the stored tokens are never deleted, and only a confirmed login writes them
    ensures Remove(TIDAL_TOKENS) !in o.ops
    ensures TIDAL_TOKENS in store ==> TIDAL_TOKENS in o.state
    ensures o.page != Some(LoginSucceeded) ==> forall v :: Write(TIDAL_TOKENS, v) !in o.ops
  {
    if TIDAL_TOKENS in store && !HasTokenKeys(store[TIDAL_TOKENS]) then
      Outcome(store, [], None)
    else if TIDAL_TOKENS in store && tokensLoad then
      Outcome(store, [], Some(AlreadyConnected))
    else if PENDING_AUTH in store && !HasPendingKeys(store[PENDING_AUTH]) then
      Outcome(store, [], None)
    else if PENDING_AUTH in store && check.CheckReturns? && check.loggedIn then
      var write, remove := Write(TIDAL_TOKENS, TokensRecord(check.session)), Remove(PENDING_AUTH);
      ApplyPair(store, write, remove);
      Outcome(store[TIDAL_TOKENS := TokensRecord(check.session)] - {PENDING_AUTH}, [write, remove], Some(LoginSucceeded))
    else
      var remove, write := Remove(PENDING_AUTH), Write(PENDING_AUTH, PendingRecord(info));
      ApplyPair(store, remove, write);
      ApplyPair(store, write, remove);
      var ops := if PENDING_AUTH in store && check.CheckRaises? then [remove, write] else [write];
      Outcome(store[PENDING_AUTH := PendingRecord(info)], ops, Some(ConnectLink(info.verificationUriComplete)))
  }

  /** `handler(pd)`: updates the data store in place and answers with at most one `pd.respond`. */
  method Handler(pd: Pd, tokensLoad: bool, check: LinkCheck, info: LoginInfo)
    modifies pd, pd.dataStore
    ensures pd.dataStore.entries == Step(old(pd.dataStore.entries), tokensLoad, check, info).state
    ensures pd.dataStore.ops == old(pd.dataStore.ops) + Step(old(pd.dataStore.entries), tokensLoad, check, info).ops
    ensures pd.sent == old(pd.sent) + Sent(Step(old(pd.dataStore.entries), tokensLoad, check, info).page)
  {
    var store := pd.dataStore;

    // 1. existing tokens
    if TIDAL_TOKENS in store.entries {
      var tokens := store.entries[TIDAL_TOKENS];
      if !HasTokenKeys(tokens) {
        return;  // KeyError
      }
      if tokensLoad {
        pd.Respond(AlreadyConnected);
        return;
      }
    }

    // 2. pending login from an earlier visit
    if PENDING_AUTH in store.entries {
      var pending := store.entries[PENDING_AUTH];
      if !HasPendingKeys(pending) {
        return;  // KeyError while rebuilding the LinkLogin (LinkLoginOf reads these keys)
      }
      match check {
        case CheckRaises =>
          store.Delete(PENDING_AUTH);
        case CheckReturns(loggedIn, session) =>
          if loggedIn {
            store.Set(TIDAL_TOKENS, TokensRecord(session));
            store.Delete(PENDING_AUTH);
            pd.Respond(LoginSucceeded);
            return;
          }
      }
    }

    // 3. new device login
    store.Set(PENDING_AUTH, PendingRecord(info));
    pd.Respond(ConnectLink(info.verificationUriComplete));
  }
}
