# tidal-dd in Dafny

A model of the two pieces of logic in tidal-dd, a small tool that copies Tidal's
"Daily Discovery" mix into a dated playlist every day:

- **Daily sync.** There are two versions: the Pipedream step `pipedream_sync.py:handler`
  and the web endpoint `app.py:sync`. Both run the same guards in order: tokens stored?
  session loads? a mix whose lower-cased title contains `daily`? Then they create the
  playlist `"<YYYY-MM-DD> Daily Discovery"`, add the mix's track ids in order, favourite
  the playlist, and report the track count. The Pipedream step finds the mix with nested
  loops and `break` (`Mixes.FindDaily`). The web app uses `next(...)` over a generator
  (`Mixes.NextDaily`). Both are proved to return the first daily item, in category order
  then item order.
- **OAuth setup.** This is a state machine over a key-value store. The Pipedream version
  keeps `tidal_tokens` and `pending_auth` in its data store. The web app keeps
  `tokens.json` and `pending.json`. Each visit reports the session as connected,
  confirms a pending device login, or starts a new one. In the web app, a pending check
  that raises shows a failure page instead and starts no new login. A stored record that
  lacks a key the handler reads raises before anything is answered. Each setup handler is a method
  that updates its store in place. It is proved equal to a pure step function
  (`PipedreamSetup.Step`, `App.SetupStep`), and the properties of the state machine are
  stated on that function.

Layout: `wrappers.dfy` (Option), `dates.dfy` (dates and their ISO text),
`tidal.dfy` (what the `tidalapi` library hands over, and the user's library as a
`Provider` class), `records.dfy` (the stored token and pending-login objects),
`responses.dfy` (pages, replies, store changes), `mixes.dfy` (the mix search and
the playlist name), `pipedream.dfy` (the data store and `pd` objects),
`pipedream_sync.dfy`, `pipedream_setup.dfy`, `app.dfy`.

Inputs that the code gets from outside are parameters of the model:
- today's date;
- whether `load_oauth_session` accepts the stored tokens;
- the categories of `session.mixes()`, each item carrying what its `items()` returns;
- what the single check of a pending login does (`LinkCheck`: it raises, or it returns
  and `check_login()` answers yes or no);
- the details `login_oauth()` returns.

The files modelled here keep no old snapshots, prune nothing, check no duplicate playlist
names, select a single mix and read no configuration; the model has none of these either.

## Model

| member | source | states |
|---|---|---|
| Dates.Pad | pipedream_sync.py:47 | A zero-padded number has exactly the requested width and consists only of digits. |
| Dates.DecimalOfPad | pipedream_sync.py:47 | Reading a zero-padded number back as decimal gives the number. |
| Dates.IsoFormat | pipedream_sync.py:47 | `date.isoformat()` is 10 characters, with `-` at indices 4 and 7 and digits at every other index. |
| Dates.ParseFullDate | pipedream_sync.py:47 | Reads an RFC 3339 `full-date` that Python's `date` can hold back into a date. It succeeds only on the `YYYY-MM-DD` shape with a real calendar date in years 1 to 9999. |
| Dates.ParseOfIsoFormat | pipedream_sync.py:47 | Parsing the ISO text of a date gives the same date back. |
| Dates.IsoFormatOfParse | pipedream_sync.py:47 | Any text that parses as a date is exactly that date's ISO text, so the text form of a date is unique. |
| Tidal.TrackIds | pipedream_sync.py:54 | `[t.id for t in tracks]`: one id per track, in the same order. |
| Tidal.Provider.CreatePlaylist | pipedream_sync.py:51 | Appends one new, empty playlist with the given name and description under a fresh id. Favourites are unchanged, and the call is logged. |
| Tidal.Provider.Add | pipedream_sync.py:55 | Appends the ids, in order, to that playlist's tracks. No other playlist changes, and the call is logged. |
| Tidal.Provider.AddFavorite | pipedream_sync.py:59 | Adds the playlist id to the favourites. Playlists are unchanged, and the call is logged. |
| Records.TokensRecord | pipedream_setup.py:46-51 | The saved token record has exactly the keys `token_type`, `access_token` and `refresh_token`. The next session load reads the session's three values back from it. |
| Records.PendingRecord | pipedream_setup.py:68-74 | The pending record has exactly the four `login_info` keys. The `LinkLogin` rebuilt from it on the next visit (lines 30-37) carries those four values, with expiry 300 and interval 2. |
| Mixes.Lower | pipedream_sync.py:32 | The same length as the input, with no capital letter left. Each character is either unchanged or a capital lowered by 32. |
| Mixes.IsDaily | pipedream_sync.py:32 | An item with no `title` attribute (read as `""`) never matches `"daily"`. |
| Mixes.FindDaily | pipedream_sync.py:28-36 | The loop returns nothing exactly when no category with `items` has a daily item. Otherwise it returns the first daily item, in category order then item order. It equals the generator form `NextDaily`. |
| Mixes.NextDailyIsFirst | app.py:99-100 | `next(generator, None)` is `None` exactly when no item is daily. Whenever item `i` of category `c` is the first daily item, it is what `next` returns. |
| Mixes.DailyPlaylistName | pipedream_sync.py:47-48 | The name is 26 characters, with `-` at indices 4 and 7. Its first 10 characters parse back to today's date, and the rest is `" Daily Discovery"`. |
| Pipedream.DataStore.Set | pipedream_setup.py:74 | `data_store[key] = value`: the entry is replaced, and the write is logged. |
| Pipedream.DataStore.Delete | pipedream_setup.py:61 | `del data_store[key]`: the entry is removed, and the removal is logged. |
| Pipedream.Pd.Respond | pipedream_setup.py:77-84 | `pd.respond`: appends exactly one page to what has been sent. |
| PipedreamSync.Handler | pipedream_sync.py:5-66 | No `tidal_tokens` gives "Not authenticated". A session that does not load gives "Session expired". No daily item gives "Daily Discovery not found". In each of those cases the provider is untouched. On success there is exactly one create, then add, then favourite of the new id, with the description "Auto-synced from Tidal Daily Discovery" and the mix's ids in order; the reply carries the name and the track count. The data store is never written. |
| PipedreamSetup.Step | pipedream_setup.py:5-84 | Valid tokens give "Already authenticated" with no change. A new flow on a visit with no pending login to check only writes `pending_auth`. A confirmed login writes the three-field tokens, then deletes `pending_auth`. A check that raises deletes `pending_auth`, then rewrites it. A check that returns without a login leaves `pending_auth` until the new flow overwrites it. Every new flow leaves the new details pending. `tidal_tokens` is never deleted, and only a confirmed login writes it. A `KeyError` changes nothing and answers nothing. |
| PipedreamSetup.Handler | pipedream_setup.py:5-84 | The in-place handler ends with the store and the change log of `Step`. It sends exactly the page of `Step`: one `pd.respond`, or none when it raises. |
| App.DataDir.SaveJson | app.py:24-25 | After `save_json(path, data)`, `load_json(path)` gives `data` and every other file is unchanged. |
| App.DataDir.Unlink | app.py:61 | After `unlink(missing_ok=True)`, `load_json(path)` gives `None`. |
| App.SetupStep | app.py:28-82 | Tokens that load give "Connected!" with both files unchanged. A confirmed login saves the three-field token record, then removes `pending.json`. A check that raises only removes `pending.json` and answers with the failure page: no new flow starts and no tokens are written. A new flow overwrites `pending.json` with the `login_info` fields. `tokens.json` is never removed. |
| App.Setup | app.py:28-82 | The in-place handler ends with the files and the change log of `SetupStep`, and returns its page. |
| App.Sync | app.py:85-113 | With no saved tokens, or an empty tokens object, the reply is `{"error": "Not authenticated", "setup": "/"}`. A session that does not load gives "Session expired". No daily item gives "Daily Discovery not found". In each of those cases nothing changes. On success the order is create, add, favourite, with the description "Auto-synced from Tidal"; the reply's `tracks` is the number of ids added. The files are never written. |

## Left out

- Calls into `tidalapi` (`mixes()`, `items()`, `load_oauth_session`, `login_oauth`, `_check_link_login`, `process_auth_token`, `check_login`) are not modelled. What they return is a parameter. The calls that change the library are `Provider` methods that always succeed: an exception from `create_playlist`, `add` or `add_playlist`, which the handlers would not catch, is not modelled.
- Only the calls that change the library are logged. Read-only calls (`mixes()`, `items()`) are not.
- Playlist ids are the playlist's position in the provider's list. Real ids are opaque strings.
- JSON text and file I/O: a stored value is a JSON object, modelled as a map from key to string or null. Malformed JSON text, and files that hold something other than an object, are not modelled.
- `date.today()` and other reads of the clock are a parameter (`today`).
- Mixes.Lower: lowers only ASCII `A`–`Z`, because titles are taken to be ASCII. Python's `str.lower()` also lowers non-ASCII letters.
- Mix items are taken to be truthy in `if daily_discovery:` and `if not dd:`.
- HTML page bodies are reduced to the kind of page and the login link. Status codes, headers, FastAPI routing, `uvicorn`, environment variables, `DATA_DIR.mkdir`, `future.cancel()` and `print` logging are not modelled.
- test_mixes.py is not part of this model. It is an interactive script, and its search loop repeats the one in pipedream_sync.py.
