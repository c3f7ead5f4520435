/**
 * The stand-alone web app: a setup page that runs Tidal's device login one
 * visit at a time, keeping its state in two JSON files, and a sync endpoint
 * that copies today's Daily Discovery mix into a playlist.
 */
module App {
  import opened Wrappers
  import opened Dates
  import opened Tidal
  import opened Records
  import opened Responses
  import opened Mixes

  datatype FilePath = TokensFile | PendingFile   // tokens.json, pending.json

  /** The data directory: the JSON object each existing file holds. */
  class DataDir {
    var files: map<FilePath, Record>
    /** The writes and unlinks made so far, oldest first. */
    var ops: seq<Op<FilePath>>

    constructor (files: map<FilePath, Record>)
      ensures this.files == files && ops == []
    {
      this.files := files;
      ops := [];
    }

    /** `load_json(path)`: the stored object, or `None` when the file does not exist. */
    function LoadJson(path: FilePath): (r: Option<Record>)
      reads this
      ensures r.None? <==> path !in files
      ensures r.Some? ==> r.value == files[path]
    {
      if path in files then Some(files[path]) else None
    }

    /** `save_json(path, data)`: a later `load_json(path)` gives `data`; other files are untouched. */
    method SaveJson(path: FilePath, data: Record)
      modifies this
      ensures LoadJson(path) == Some(data)
      ensures forall p :: p != path ==> LoadJson(p) == old(LoadJson(p))
      ensures files == old(files)[path := data]
      ensures ops == old(ops) + [Write(path, data)]
    {
      files := files[path := data];
      ops := ops + [Write(path, data)];
    }

    /** `path.unlink(missing_ok=True)`: a later `load_json(path)` gives `None`. */
    method Unlink(path: FilePath)
      modifies this
      ensures LoadJson(path) == None
      ensures files == old(files) - {path}
      ensures ops == old(ops) + [Remove(path)]
    {
      files := files - {path};
      ops := ops + [Remove(path)];
    }
  }

  /** `if data:` after `data = load_json(path)`: the file exists and holds a non-empty object. */
  predicate Loaded(files: map<FilePath, Record>, path: FilePath) {
    path in files && Truthy(files[path])
  }

  // ---------------------------------------------------------------------------
  // setup

  /** Saved tokens are loaded, readable, and the session loads from them. */
  predicate TokensAccepted(files: map<FilePath, Record>, tokensLoad: bool) {
    Loaded(files, TokensFile) && HasTokenKeys(files[TokensFile]) && tokensLoad
  }

  /** A visit raises `KeyError` before answering: a loaded object lacks a key it reads. */
  predicate Raises(files: map<FilePath, Record>, tokensLoad: bool) {
    || (Loaded(files, TokensFile) && !HasTokenKeys(files[TokensFile]))
    || (!TokensAccepted(files, tokensLoad) && Loaded(files, PendingFile) && !HasPendingKeys(files[PendingFile]))
  }

  /** A visit that reaches the check of a readable pending login. */
  predicate ChecksPending(files: map<FilePath, Record>, tokensLoad: bool) {
    !Raises(files, tokensLoad) && !TokensAccepted(files, tokensLoad) && Loaded(files, PendingFile)
  }

  predicate LoginConfirmed(files: map<FilePath, Record>, tokensLoad: bool, check: LinkCheck) {
    ChecksPending(files, tokensLoad) && check.CheckReturns? && check.loggedIn
  }

  /**
   * One visit of the setup page, as a function of the files before it.
   * `tokensLoad`, `check` and `info` are what the library answers.
   */
  function SetupStep(files: map<FilePath, Record>, tokensLoad: bool, check: LinkCheck, info: LoginInfo)
    : (o: Outcome<FilePath>)
    ensures o.state == Apply(files, o.ops)
    // tokens that load: "Connected!", both files untouched
    ensures o.page == Some(AlreadyConnected) <==> TokensAccepted(files, tokensLoad)
    ensures TokensAccepted(files, tokensLoad) ==> o.ops == []
    // an unreadable object raises before anything changes
    ensures o.page.None? <==> Raises(files, tokensLoad)
    ensures o.page.None? ==> o.ops == []
    // a confirmed login saves the three-field token record, then removes pending.json
    ensures o.page == Some(LoginSucceeded) <==> LoginConfirmed(files, tokensLoad, check)
    ensures LoginConfirmed(files, tokensLoad, check) ==>
              o.ops == [Write(TokensFile, TokensRecord(check.session)), Remove(PendingFile)]
    // a check that raises removes pending.json and answers with the failure page:
    // no new login is started and no tokens are written
    ensures o.page == Some(AuthCheckFailed) <==> ChecksPending(files, tokensLoad) && check.CheckRaises?
    ensures o.page == Some(AuthCheckFailed) ==> o.ops == [Remove(PendingFile)]
    // otherwise a new device login starts, overwriting any earlier pending.json
    ensures o.page.Some? && o.page.value.ConnectLink? ==>
              && o.ops == [Write(PendingFile, PendingRecord(info))]
              && o.state == files[PendingFile := PendingRecord(info)]
              && o.page.value.link == info.verificationUriComplete
    // tokens.json is never removed
    ensures Remove(TokensFile) !in o.ops
  {
    if Loaded(files, TokensFile) && !HasTokenKeys(files[TokensFile]) then
      Outcome(files, [], None)
    else if Loaded(files, TokensFile) && tokensLoad then
      Outcome(files, [], Some(AlreadyConnected))
    else if Loaded(files, PendingFile) && !HasPendingKeys(files[PendingFile]) then
      Outcome(files, [], None)
    else if Loaded(files, PendingFile) && check.CheckRaises? then
      var remove := Remove(PendingFile);
      ApplyPair(files, remove, remove);
      Outcome(files - {PendingFile}, [remove], Some(AuthCheckFailed))
    else if Loaded(files, PendingFile) && check.loggedIn then
      var write, remove := Write(TokensFile, TokensRecord(check.session)), Remove(PendingFile);
      ApplyPair(files, write, remove);
      Outcome(files[TokensFile := TokensRecord(check.session)] - {PendingFile}, [write, remove], Some(LoginSucceeded))
    else
      var write := Write(PendingFile, PendingRecord(info));
      ApplyPair(files, write, write);
      Outcome(files[PendingFile := PendingRecord(info)], [write], Some(ConnectLink(info.verificationUriComplete)))
  }

  /** `setup()`: returns the page, or `None` when the visit raised. */
  method Setup(dir: DataDir, tokensLoad: bool, check: LinkCheck, info: LoginInfo) returns (page: Option<Page>)
    modifies dir
    ensures dir.files == SetupStep(old(dir.files), tokensLoad, check, info).state
    ensures dir.ops == old(dir.ops) + SetupStep(old(dir.files), tokensLoad, check, info).ops
    ensures page == SetupStep(old(dir.files), tokensLoad, check, info).page
  {
    // already authenticated?
    var tokens := dir.LoadJson(TokensFile);
    if tokens.Some? && Truthy(tokens.value) {
      if !HasTokenKeys(tokens.value) {
        return None;  // KeyError
      }
      if tokensLoad {
        return Some(AlreadyConnected);
      }
    }

    // pending login from an earlier visit
    var pending := dir.LoadJson(PendingFile);
    if pending.Some? && Truthy(pending.value) {
      if !HasPendingKeys(pending.value) {
        return None;  // KeyError while rebuilding the LinkLogin (LinkLoginOf reads these keys)
      }
      match check {
        case CheckRaises =>
          dir.Unlink(PendingFile);
          return Some(AuthCheckFailed);
        case CheckReturns(loggedIn, session) =>
          if loggedIn {
            dir.SaveJson(TokensFile, TokensRecord(session));
            dir.Unlink(PendingFile);
            return Some(LoginSucceeded);
          }
      }
    }

    // new device login
    dir.SaveJson(PendingFile, PendingRecord(info));
    return Some(ConnectLink(info.verificationUriComplete));
  }

  // ---------------------------------------------------------------------------
  // sync

  const SETUP_PATH := "/"
  const DESCRIPTION := "Auto-synced from Tidal"

  /** Saved tokens are loaded and have the keys the session load reads. */
  ghost predicate TokensReadable(files: map<FilePath, Record>) {
    Loaded(files, TokensFile) && HasTokenKeys(files[TokensFile])
  }

  /**
   * `sync()`. `sessionLoads` is what `load_oauth_session` answers for the saved
   * tokens, `cats` the categories of `session.mixes()`, `today` the date. The
   * data directory is only read: it is not in the modifies clause.
   */
  method Sync(dir: DataDir, provider: Provider, sessionLoads: bool, cats: seq<Category>, today: Date)
    returns (reply: Reply)
    requires provider.Valid() && Valid(today)
    modifies provider
    ensures provider.Valid()
    ensures !Loaded(dir.files, TokensFile) ==> reply == Refused(NOT_AUTHENTICATED, Some(SETUP_PATH))
    ensures Loaded(dir.files, TokensFile) && !TokensReadable(dir.files) ==> reply == Crashed
    ensures TokensReadable(dir.files) && !sessionLoads ==> reply == Refused(SESSION_EXPIRED, None)
    ensures TokensReadable(dir.files) && sessionLoads && NextDaily(cats).None? ==>
              reply == Refused(NOT_FOUND, None)
    ensures reply.Synced? <==> TokensReadable(dir.files) && sessionLoads && NextDaily(cats).Some?
    ensures !reply.Synced? ==> unchanged(provider)
    ensures reply.Synced? ==>
              var mix := NextDaily(cats).value;
              && reply == Synced(DailyPlaylistName(today), |mix.tracks|)
              && Published(provider, old(provider.playlists), old(provider.favorites), old(provider.calls),
                           DailyPlaylistName(today), DESCRIPTION, TrackIds(mix.tracks))
  {
    var tokens := dir.LoadJson(TokensFile);
    if tokens.None? || !Truthy(tokens.value) {
      return Refused(NOT_AUTHENTICATED, Some(SETUP_PATH));
    }
    if !HasTokenKeys(tokens.value) {
      return Crashed;
    }
    if !sessionLoads {
      return Refused(SESSION_EXPIRED, None);
    }

    var dd := NextDaily(cats);
    if dd.None? {
      return Refused(NOT_FOUND, None);
    }
    var tracks := dd.value.tracks;

    var name := DailyPlaylistName(today);
    var id := provider.CreatePlaylist(name, DESCRIPTION);
    ghost var created := Playlist(id, name, DESCRIPTION, []);
    var trackIds := TrackIds(tracks);
    provider.Add(id, trackIds);
    assert created.tracks + trackIds == trackIds;
    ReplaceLast(old(provider.playlists), created, created.(tracks := trackIds));
    provider.AddFavorite(id);

    return Synced(name, |tracks|);
  }
}
