/**
 * What the handlers see of the `tidalapi` library. Its calls are not modelled:
 * what they return is passed in (the mix catalogue, the outcome of a link check,
 * the device-login details), and the calls that change the user's library are
 * methods of `Provider`, which keeps the resulting playlists, favourites and the
 * order in which the calls were made.
 */
module Tidal {
  import opened Wrappers

  type TrackId = nat

  datatype Track = Track(id: TrackId)

  /**
   * One item of a mix category. `title` is `None` when the object has no
   * `title` attribute; `tracks` is what the item's `items()` call returns.
   */
  datatype MixItem = MixItem(title: Option<string>, tracks: seq<Track>)

  /** A category of the mixes page; `items` is `None` when it has no `items` attribute. */
  datatype Category = Category(items: Option<seq<MixItem>>)

  /** `[t.id for t in tracks]`. */
  function TrackIds(tracks: seq<Track>): (ids: seq<TrackId>)
    ensures |ids| == |tracks|
    ensures forall i :: 0 <= i < |tracks| ==> ids[i] == tracks[i].id
  {
    if tracks == [] then [] else [tracks[0].id] + TrackIds(tracks[1..])
  }

  /** The tokens a session holds once a device login has been processed. */
  datatype SessionTokens = SessionTokens(tokenType: string, accessToken: string, refreshToken: Option<string>)

  /** The device-login details `login_oauth()` returns. */
  datatype LoginInfo = LoginInfo(deviceCode: string, userCode: string, verificationUri: string, verificationUriComplete: string)

  /**
   * What one check of a pending device login does: `_check_link_login`,
   * `process_auth_token` or `check_login()` raises, or they return and
   * `check_login()` answers `loggedIn`, the session holding `session`.
   */
  datatype LinkCheck = CheckRaises | CheckReturns(loggedIn: bool, session: SessionTokens)

  type PlaylistId = nat

  datatype Playlist = Playlist(id: PlaylistId, name: string, description: string, tracks: seq<TrackId>)

  /** A call that changes the user's library, in the order it was made. */
  datatype Call =
    | CreatePlaylistCall(name: string, description: string)
    | AddCall(playlist: PlaylistId, ids: seq<TrackId>)
    | FavoriteCall(playlist: PlaylistId)

  /** The user's library as the provider keeps it. */
  class Provider {
    var playlists: seq<Playlist>
    var favorites: set<PlaylistId>
    var calls: seq<Call>

    /** A playlist's id is its position: `create_playlist` hands out fresh ids. */
    ghost predicate Valid()
      reads this
    {
      forall i :: 0 <= i < |playlists| ==> playlists[i].id == i
    }

    constructor ()
      ensures Valid() && playlists == [] && favorites == {} && calls == []
    {
      playlists, favorites, calls := [], {}, [];
    }

    /** `user.create_playlist(name, description)`: a new, empty playlist. */
    method CreatePlaylist(name: string, description: string) returns (id: PlaylistId)
      requires Valid()
      modifies this
      ensures Valid()
      ensures id == |old(playlists)|
      ensures playlists == old(playlists) + [Playlist(id, name, description, [])]
      ensures favorites == old(favorites)
      ensures calls == old(calls) + [CreatePlaylistCall(name, description)]
    {
      id := |playlists|;
      playlists := playlists + [Playlist(id, name, description, [])];
      calls := calls + [CreatePlaylistCall(name, description)];
    }

    /** `playlist.add(ids)`: appends the ids, in order, to playlist `id`. */
    method Add(id: PlaylistId, ids: seq<TrackId>)
      requires Valid() && id < |playlists|
      modifies this
      ensures Valid()
      ensures playlists == old(playlists)[id := old(playlists)[id].(tracks := old(playlists)[id].tracks + ids)]
      ensures favorites == old(favorites)
      ensures calls == old(calls) + [AddCall(id, ids)]
    {
      playlists := playlists[id := playlists[id].(tracks := playlists[id].tracks + ids)];
      calls := calls + [AddCall(id, ids)];
    }

    /** `user.favorites.add_playlist(id)`. */
    method AddFavorite(id: PlaylistId)
      requires Valid()
      modifies this
      ensures Valid()
      ensures playlists == old(playlists)
      ensures favorites == old(favorites) + {id}
      ensures calls == old(calls) + [FavoriteCall(id)]
    {
      favorites := favorites + {id};
      calls := calls + [FavoriteCall(id)];
    }
  }

  /** Replacing the last element of `a + [x]` by `y` gives `a + [y]`. */
  lemma ReplaceLast<T>(a: seq<T>, x: T, y: T)
    ensures (a + [x])[|a| := y] == a + [y]
  {
  }

  /**
   * What one successful sync leaves behind, given the library before it:
   * exactly one new playlist named `name`, holding `ids`, favourited, reached by
   * the calls create, add, favourite in that order and no other.
   */
  ghost predicate Published(p: Provider, before: seq<Playlist>, favorites: set<PlaylistId>, calls: seq<Call>,
                            name: string, description: string, ids: seq<TrackId>)
    reads p
  {
    var id := |before|;
    && p.playlists == before + [Playlist(id, name, description, ids)]
    && p.favorites == favorites + {id}
    && p.calls == calls + [CreatePlaylistCall(name, description), AddCall(id, ids), FavoriteCall(id)]
  }
}
