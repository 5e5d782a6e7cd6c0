# Session token store and playlist reconciliation

A Dafny model of the decision logic of `app.py`, a small web backend. The backend signs a user in to a music-streaming
service over OAuth2. It then mirrors the user's top tracks into a managed playlist named "Saved Top Tracks Weekly".

The model has four modules:

- `Wrappers` (`wrappers.dfy`): `Option`, the counterpart of a value that may be `None`.
- `TokenStore` (`token_store.dfy`): the token record `{access_token, refresh_token, expires_at}` and the `Session`
  class that holds it. It also has `GetToken`, the refresh-when-stale rule of `get_token`. `IsStale` is the
  staleness test `expires_at - now < 60` (app.py:141). `TokenAfterGet` is the pure
  specification of one lookup: the token it returns, the token the session holds afterwards, and the refresh token it
  sent to the provider, if it asked for a refresh.
- `Playlists` (`playlists.dfy`): the user's account at the provider as the class `Account`. Its fields are the
  playlists in listing order, the top tracks and a fresh-id counter. Its methods are the catalog calls that write:
  create, replace items, add items. `GetOrCreatePlaylist` and `UpdatePlaylistTracks` are the app's own functions. They
  are proved against pure specifications: `FirstNamed` (first match by exact name), `Replaced` and `Appended` (what
  the two item calls do to a playlist list), `FindOrCreate` (the account after a fault-free `get_or_create_playlist`,
  app.py:93-105) and `Reconcile` (the account after a fault-free save, app.py:77-84).
- `Routes` (`routes.dfy`): the `login_required` gate, `/redirect`, `/savePlaylist` and `/logout`. Their results are
  reduced to `Redirect(route)` or `Reply(status, body)`. `SaveOutcome` states every outcome of the `save_playlist`
  body (app.py:73-88): its reply, and the playlists and id counter it leaves. `FirstSaveScenario` walks through a
  sign-in, a first save that creates the playlist holding two URIs, a second save that changes nothing, and a logout
  after which a save is redirected to login.

External services are parameters:

- the clock is `now`, in epoch seconds;
- the provider's token refresh is a function from a refresh token to `Option<Token>`;
- the code exchange is a function from the optional `code` query argument to `Option<Token>`;
- for the catalog calls, a `Faults` record says which calls raise.

`None` and a raised call stand for an exception. A catalog call that raises has no effect on the account.

Three behaviours of app.py that a reader might not expect are kept as written:

- `update_playlist_tracks` clears the playlist even when `get_or_create_playlist` has just created it. It also issues
  the add-items call when the top-track list is empty.
- `save_playlist` looks the token up a second time after the gate has done so (app.py:39 and app.py:74). The model
  keeps both lookups. `SavePlaylistPage` takes the gate's time and the handler's time separately.
  `SecondLookupReusesToken` shows the second lookup changes nothing once the first one yields a token that is still
  fresh.
- A failed refresh leaves the stale token in the session (`StaleTokenOutcome`). The model keeps this behaviour.

## Model

| member | source | states |
|---|---|---|
| TokenStore.TokenAfterGet | app.py:133-151 | With no token stored, nothing is returned and nothing is asked of the provider. A returned token is what the session then holds. A failed lookup leaves the session as it was. The provider is asked exactly when a stale token is stored, with that token's refresh token. Otherwise the stored token is returned unchanged. |
| TokenStore.GetToken | app.py:133-151 | The token returned and the session's new token are those `TokenAfterGet` gives for the old session, the clock and the provider. |
| TokenStore.RefreshThreshold | app.py:140-143 | A refresh is requested if and only if `expires_at - now < 60`. With `expires_at = now + 30` it is requested. With `now + 3600` the stored token comes back and the session is unchanged. |
| TokenStore.FreshTokenIgnoresProvider | app.py:141-148 | A token that is not stale is returned, and the session is left alone, whatever the provider would answer. |
| TokenStore.StaleTokenOutcome | app.py:143-151 | For a stale token: a successful refresh is both returned and stored. A failed refresh returns nothing and leaves the old stale token in the session. |
| TokenStore.SecondLookupReusesToken | app.py:38-75 | When the gate's lookup yields a token that is still fresh when the handler looks it up again, the second lookup returns the same token, changes nothing and requests no refresh. |
| TokenStore.Session.Clear | app.py:127 | `session.clear()` leaves no token. |
| TokenStore.Session.Store | app.py:146 | `session[TOKEN_INFO] = t` makes `t` the stored token. |
| Playlists.Uris | app.py:117-118 | The URI list has one entry per top track, each that track's URI, in order. |
| Playlists.FirstNamed | app.py:93-96 | It gives the index of a playlist with exactly that name, with no earlier playlist of that name. It gives `None` if and only if no playlist has the name. |
| Playlists.Replaced | app.py:114 | The playlist with the target id gets exactly the given items. Every other playlist is unchanged, and the length is kept. |
| Playlists.Appended | app.py:119 | The given items go after the target playlist's items. Every other playlist is unchanged, and the length is kept. |
| Playlists.Account.CreatePlaylist | app.py:99-104 | It appends one empty playlist with the given name, visibility and description, under an id no playlist held. The counter advances and the account invariant (distinct ids below the counter) is kept. |
| Playlists.Account.ReplaceItems | app.py:114 | It succeeds exactly when the account holds the id, and then the playlists become `Replaced(...)`. Otherwise nothing changes. |
| Playlists.Account.AddItems | app.py:119 | It succeeds exactly when the account holds the id, and then the playlists become `Appended(...)`. Otherwise nothing changes. |
| Playlists.GetOrCreatePlaylist | app.py:90-108 | A failed listing, or a failed creation when no playlist matches, gives `None` and changes nothing. Otherwise it returns the id of the first playlist named "Saved Top Tracks Weekly", and the account is unchanged. When there is no such playlist, it creates exactly one public playlist with the fixed name and description and returns its id. |
| Playlists.UpdatePlaylistTracks | app.py:110-122 | It succeeds exactly when the playlist exists and the clear, top-track and add calls all succeed. The target then holds exactly the top tracks' URIs in order, and the other playlists are unchanged. If the clear fails, nothing changes. If a later call fails, the playlist is left empty. |
| Playlists.ClearThenAdd | app.py:113-119 | Clearing and then adding `uris` leaves exactly `uris` in the playlist, whatever it held before. |
| Playlists.ReplaceLastWins | app.py:113-119 | Two item replacements in a row leave what the second one writes, so a repeated update leaves no duplicates. |
| Playlists.FirstNamedAfterReplace | app.py:93-96 | Writing items never moves the first match by name. |
| Playlists.CreatedIsFound | app.py:94-105 | After a search that found no match, the playlist created under the name is the first match in the extended listing. |
| Playlists.FindBeforeCreate | app.py:93-105 | When some listed playlist is named "Saved Top Tracks Weekly", the playlists and the counter are unchanged, the chosen id is that of a playlist with that name, and a whole save adds no playlist. When none is, exactly one public playlist with that name and description is appended under the counter's id, the counter advances, and a whole save adds exactly one playlist. |
| Playlists.ReconcileResult | app.py:77-84 | After a fault-free save, the first playlist named "Saved Top Tracks Weekly" is the chosen one and holds the top tracks' URIs in order. Every other pre-existing playlist is unchanged. At most one playlist was added, and ids stay distinct and below the counter. |
| Playlists.ReconcileIdempotent | app.py:78-83 | Saving twice in a row gives what saving once gives: the same playlist, the same items, no second creation. |
| Routes.LoginRequired | app.py:35-47 | The wrapped handler may run if and only if `get_token` yields a token. The session is left as that lookup leaves it. |
| Routes.RedirectPage | app.py:58-68 | The session ends up holding exactly the exchanged token. If the exchange raises, the session is left empty and the reply is 500 "An error occurred during authentication". Otherwise the request is redirected to `/savePlaylist`. |
| Routes.Logout | app.py:124-131 | The session is left empty and the reply is 200 "Successfully logged out". |
| Routes.SavePlaylist | app.py:72-88 | The reply and the account it leaves satisfy `SaveOutcome`. No token, or a failed profile call, gives 500 with the generic text, and the account is unchanged. A failed find-or-create gives 500 "Failed to create/find playlist", and the account is unchanged. A failed clear gives the generic 500 with the playlist found or created but untouched. A later failure gives the generic 500 with that playlist emptied. Otherwise the reply is 200 "Songs Added in Playlist" and the account is `Reconcile` of the old one. |
| Routes.SaveSucceedsExactly | app.py:72-88 | A save answers 200 exactly when its token lookup yields a token and every call it makes succeeds, and then leaves the reconciled account. Every other save answers 500. |
| Routes.SavePlaylistPage | app.py:70-88 | A request the gate rejects is redirected to login and the account is unchanged. Otherwise the handler's outcome is `SaveOutcome` for the session the gate left: every reply and every resulting account, as for `SavePlaylist`. The reply is 200 exactly when the handler's lookup yields a token and every call made succeeds, and the account is then the reconciled one. |

## Left out

- The login route `/` (app.py:49-56): it redirects to the provider's authorize URL, or answers 500 "An error occurred during login" when building the client or the URL raises. Neither path touches the session or the playlists.
- Building the OAuth client in `create_spotify_oauth` (app.py:153-160), and its failure (its `url_for` call can raise), are folded into the `exchange` and `refresh` parameters. A client that cannot be built shows up as an exchange or refresh that returns `None`.
- The authorize-URL building, code exchange and refresh protocols of the OAuth client. They are opaque functions from a code or a refresh token to an optional token.
- The provider's refresh answer is a fixed function of the refresh token: two refreshes with the same refresh token get the same answer.
- Flask routing, cookies, `redirect`/`url_for` and response construction. They are reduced to the `Response` tags.
- Environment configuration, `load_dotenv`, logging and the server startup block (app.py:12-33, 162-163).
- Token records with missing keys or an empty dictionary. The `Token` datatype always carries the three fields, so the `KeyError` path of `get_token` is not modelled.
- The clock: it is read once per lookup as `now`, the integer part of `time.time()`.
- The `except` branches of `login_required` (app.py:43-45) and `logout` (app.py:129-131): `GetToken` never raises in the model, and clearing the session cannot fail.
- The access token's validity at the provider: the account does not check which token a call carries.
- The user id passed to the create and add-tracks calls. The account is always the signed-in user's own.
- Playlist ids: they are natural numbers taken from a counter, not the provider's id strings.
- Pagination: the playlist listing and the top-tracks listing are each taken as complete. The provider's default of 20 top tracks is not modelled. `get_or_create_playlist` reads only the first page of playlists (app.py:93), so "no second creation" (`FindBeforeCreate`, `ReconcileIdempotent`) holds only while the managed playlist is on that page. If it is not, every save creates another "Saved Top Tracks Weekly".
- Partial effects: a catalog call that raises has no effect. A call that raises after partly applying its change is not modelled.
