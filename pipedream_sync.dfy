/** The scheduled Pipedream step that copies today's Daily Discovery mix into a playlist. */
module PipedreamSync {
  import opened Wrappers
  import opened Dates
  import opened Tidal
  import opened Records
  import opened Responses
  import opened Mixes
  import opened Pipedream

  const DESCRIPTION := "Auto-synced from Tidal Daily Discovery"

  /** The stored tokens can be read: present, with the keys the session load needs. */
  ghost predicate TokensReadable(store: map<string, Record>) {
    TIDAL_TOKENS in store && HasTokenKeys(store[TIDAL_TOKENS])
  }

  /**
   * `handler(pd)`. `sessionLoads` is what `load_oauth_session` answers for the
   * stored tokens, `cats` the categories of `session.mixes()`, `today` the date.
   * The data store is only read: it is not in the modifies clause.
   */
  method Handler(pd: Pd, provider: Provider, sessionLoads: bool, cats: seq<Category>, today: Date)
    returns (reply: Reply)
    requires provider.Valid() && Valid(today)
    modifies provider
    ensures provider.Valid()
    ensures TIDAL_TOKENS !in pd.dataStore.entries ==> reply == Refused(NOT_AUTHENTICATED, None)
    ensures TIDAL_TOKENS in pd.dataStore.entries && !TokensReadable(pd.dataStore.entries) ==> reply == Crashed
    ensures TokensReadable(pd.dataStore.entries) && !sessionLoads ==> reply == Refused(SESSION_EXPIRED, None)
    ensures TokensReadable(pd.dataStore.entries) && sessionLoads && NextDaily(cats).None? ==>
              reply == Refused(NOT_FOUND, None)
    ensures reply.Synced? <==> TokensReadable(pd.dataStore.entries) && sessionLoads && NextDaily(cats).Some?
    ensures !reply.Synced? ==> unchanged(provider)
    ensures reply.Synced? ==>
              var mix := NextDaily(cats).value;
              && reply == Synced(DailyPlaylistName(today), |mix.tracks|)
              && Published(provider, old(provider.playlists), old(provider.favorites), old(provider.calls),
                           DailyPlaylistName(today), DESCRIPTION, TrackIds(mix.tracks))
  {
    var store := pd.dataStore.entries;
    if TIDAL_TOKENS !in store {
      return Refused(NOT_AUTHENTICATED, None);
    }
    var tokens := store[TIDAL_TOKENS];
    if !HasTokenKeys(tokens) {
      return Crashed;
    }
    if !sessionLoads {
      return Refused(SESSION_EXPIRED, None);
    }

    var dailyDiscovery := FindDaily(cats);
    if dailyDiscovery.None? {
      return Refused(NOT_FOUND, None);
    }
    var tracks := dailyDiscovery.value.tracks;

    var playlistName := DailyPlaylistName(today);
    var id := provider.CreatePlaylist(playlistName, DESCRIPTION);
    ghost var created := Playlist(id, playlistName, DESCRIPTION, []);
    var trackIds := TrackIds(tracks);
    ghost var created' := created.(tracks := trackIds);
    provider.Add(id, trackIds);
    assert created.tracks + trackIds == trackIds;
    ReplaceLast(old(provider.playlists), created, created');
    provider.AddFavorite(id);

    return Synced(playlistName, |trackIds|);
  }
}
