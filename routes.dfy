/**
 * The route handlers of app.py that touch the session or the playlist:
 * the `login_required` gate, `/redirect`, `/savePlaylist` and `/logout`.
 * An HTTP response is reduced to a redirect target or a status and a body.
 */
module Routes {
  import opened Wrappers
  import opened TokenStore
  import opened Playlists

  datatype Route = LoginRoute | SavePlaylistRoute

  datatype Response = Redirect(to: Route) | Reply(status: int, body: string)

  const SAVED_TEXT: string := "Songs Added in Playlist"
  const PLAYLIST_MISSING_TEXT: string := "Failed to create/find playlist"
  const SAVE_FAILED_TEXT: string := "An error occurred while saving the playlist"
  const AUTH_FAILED_TEXT: string := "An error occurred during authentication"
  const LOGGED_OUT_TEXT: string := "Successfully logged out"

  /** Every provider call a save of the account holding `ps` makes succeeds (creation is only attempted when no playlist matches). */
  predicate SaveCallsSucceed(ps: seq<Playlist>, faults: Faults) {
    && !faults.currentUser && !faults.listPlaylists
    && (FirstNamed(ps, SAVED_PLAYLIST_NAME).Some? || !faults.createPlaylist)
    && !faults.clearPlaylist && !faults.topTracks && !faults.addTracks
  }

  /**
   * Every outcome of the `save_playlist` body, for a session holding `stored`
   * at time `now` and an account holding playlists `ps` with id counter
   * `nextId` and top tracks `top`: the reply, and the playlists `ps'` and
   * counter `nextId'` it leaves.
   */
  predicate SaveOutcome(stored: Option<Token>, now: int, refresh: string -> Option<Token>,
                        ps: seq<Playlist>, nextId: nat, top: seq<Track>, faults: Faults,
                        resp: Response, ps': seq<Playlist>, nextId': nat)
  {
    var authenticated := TokenAfterGet(stored, now, refresh).result.Some?;
    var found := FirstNamed(ps, SAVED_PLAYLIST_NAME).Some?;
    var f := FindOrCreate(ps, nextId);
    var r := Reconcile(ps, nextId, top);
    if !authenticated || faults.currentUser then
      // no token (the token access raises) or the profile call raises
      resp == Reply(500, SAVE_FAILED_TEXT) && ps' == ps && nextId' == nextId
    else if faults.listPlaylists || (!found && faults.createPlaylist) then
      resp == Reply(500, PLAYLIST_MISSING_TEXT) && ps' == ps && nextId' == nextId
    else if faults.clearPlaylist then
      // the playlist was found or created, and left as it was
      resp == Reply(500, SAVE_FAILED_TEXT) && ps' == f.playlists && nextId' == f.nextId
    else if faults.topTracks || faults.addTracks then
      // the playlist was found or created, and left empty
      resp == Reply(500, SAVE_FAILED_TEXT) && ps' == Replaced(f.playlists, f.id, []) && nextId' == f.nextId
    else
      resp == Reply(200, SAVED_TEXT) && ps' == r.playlists && nextId' == r.nextId
  }

  /**
   * A save answers 200 exactly when the token lookup yields a token and every
   * call it makes succeeds, and then leaves the reconciled account; any other
   * save answers 500.
   */
  lemma SaveSucceedsExactly(stored: Option<Token>, now: int, refresh: string -> Option<Token>,
                            ps: seq<Playlist>, nextId: nat, top: seq<Track>, faults: Faults,
                            resp: Response, ps': seq<Playlist>, nextId': nat)
    requires SaveOutcome(stored, now, refresh, ps, nextId, top, faults, resp, ps', nextId')
    ensures resp == Reply(200, SAVED_TEXT) <==>
      TokenAfterGet(stored, now, refresh).result.Some? && SaveCallsSucceed(ps, faults)
    ensures resp == Reply(200, SAVED_TEXT) ==>
      ps' == Reconcile(ps, nextId, top).playlists && nextId' == Reconcile(ps, nextId, top).nextId
    ensures resp != Reply(200, SAVED_TEXT) ==> resp.Reply? && resp.status == 500
  {
  }

  /** `login_required`: the wrapped handler may run exactly when `get_token` yields a token. */
  method LoginRequired(session: Session, now: int, refresh: string -> Option<Token>) returns (granted: bool)
    modifies session
    ensures granted <==> TokenAfterGet(old(session.token), now, refresh).result.Some?
    ensures session.token == TokenAfterGet(old(session.token), now, refresh).stored
  {
    var tokenInfo := GetToken(session, now, refresh);
    granted := tokenInfo.Some?;
  }

  /**
   * `/redirect`: clears the session, exchanges the authorization code and
   * stores the token it yields. `exchange` is the provider's code exchange,
   * `None` when it raises; the session is then left empty.
   */
  method RedirectPage(session: Session, code: Option<string>, exchange: Option<string> -> Option<Token>)
    returns (resp: Response)
    modifies session
    ensures session.token == exchange(code)
    ensures resp == if exchange(code).Some? then Redirect(SavePlaylistRoute) else Reply(500, AUTH_FAILED_TEXT)
  {
    session.Clear();
    var tokenInfo := exchange(code);
    if tokenInfo.None? {
      return Reply(500, AUTH_FAILED_TEXT);
    }
    session.Store(tokenInfo.value);
    return Redirect(SavePlaylistRoute);
  }

  /** `/logout`: clears the session. */
  method Logout(session: Session) returns (resp: Response)
    modifies session
    ensures session.token == None
    ensures resp == Reply(200, LOGGED_OUT_TEXT)
  {
    session.Clear();
    return Reply(200, LOGGED_OUT_TEXT);
  }

  /**
   * The body of `save_playlist`, once the gate has let the request through.
   * It looks the token up again; a lookup that yields nothing makes the token
   * access raise and ends in the generic failure.
   */
  method SavePlaylist(session: Session, account: Account, now: int, refresh: string -> Option<Token>, faults: Faults)
    returns (resp: Response)
    requires account.Valid()
    modifies session, account
    ensures account.Valid() && account.topTracks == old(account.topTracks)
    ensures session.token == TokenAfterGet(old(session.token), now, refresh).stored
    ensures SaveOutcome(old(session.token), now, refresh, old(account.playlists), old(account.nextId),
                        old(account.topTracks), faults, resp, account.playlists, account.nextId)
  {
    var tokenInfo := GetToken(session, now, refresh);
    if tokenInfo.None? {
      return Reply(500, SAVE_FAILED_TEXT);
    }
    if faults.currentUser {
      return Reply(500, SAVE_FAILED_TEXT);
    }
    var playlistId := GetOrCreatePlaylist(account, faults);
    if playlistId.None? {
      return Reply(500, PLAYLIST_MISSING_TEXT);
    }
    assert HasPlaylist(account.playlists, playlistId.value) by {
      var ps := old(account.playlists);
      match FirstNamed(ps, SAVED_PLAYLIST_NAME)
      case Some(k) =>
        assert account.playlists[k].id == playlistId.value;
      case None =>
        assert account.playlists[|ps|].id == playlistId.value;
    }
    var ok := UpdatePlaylistTracks(account, playlistId.value, faults);
    if !ok {
      return Reply(500, SAVE_FAILED_TEXT);
    }
    return Reply(200, SAVED_TEXT);
  }

  /**
   * `/savePlaylist` as routed: the `login_required` gate at time `gateNow`,
   * then the handler at time `now`. An unauthenticated request is sent to the
   * login route and the account is not touched.
   */
  method SavePlaylistPage(session: Session, account: Account, gateNow: int, now: int,
                          refresh: string -> Option<Token>, faults: Faults)
    returns (resp: Response)
    requires account.Valid()
    modifies session, account
    ensures account.Valid() && account.topTracks == old(account.topTracks)
    ensures var gate := TokenAfterGet(old(session.token), gateNow, refresh);
      gate.result.None? ==>
        resp == Redirect(LoginRoute) && session.token == gate.stored &&
        account.playlists == old(account.playlists) && account.nextId == old(account.nextId)
    ensures var gate := TokenAfterGet(old(session.token), gateNow, refresh);
      var handler := TokenAfterGet(gate.stored, now, refresh);
      var r := Reconcile(old(account.playlists), old(account.nextId), old(account.topTracks));
      gate.result.Some? ==>
        session.token == handler.stored &&
        SaveOutcome(gate.stored, now, refresh, old(account.playlists), old(account.nextId),
                    old(account.topTracks), faults, resp, account.playlists, account.nextId) &&
        (resp == Reply(200, SAVED_TEXT) <==> handler.result.Some? && SaveCallsSucceed(old(account.playlists), faults)) &&
        (resp == Reply(200, SAVED_TEXT) ==> account.playlists == r.playlists && account.nextId == r.nextId)
  {
    var granted := LoginRequired(session, gateNow, refresh);
    if !granted {
      return Redirect(LoginRoute);
    }
    ghost var gateSession, gatePlaylists, gateNextId := session.token, account.playlists, account.nextId;
    resp := SavePlaylist(session, account, now, refresh, faults);
    SaveSucceedsExactly(gateSession, now, refresh, gatePlaylists, gateNextId, account.topTracks, faults,
                        resp, account.playlists, account.nextId);
  }

  /**
   * A first visit: the user signs in, has no managed playlist yet and two top
   * tracks. Saving creates "Saved Top Tracks Weekly" holding exactly those two
   * URIs and answers 200; a second save reuses that playlist and leaves the
   * same two items in it.
   */
  method FirstSaveScenario() {
    var session := new Session();
    var tok := Token("access", "refresh", 10_000);
    var top := [Track("uri:a", "Song A", ["Artist X"]), Track("uri:b", "Song B", ["Artist Y"])];
    var account := new Account([], top, 0);
    var signIn := RedirectPage(session, Some("code"), c => Some(tok));
    assert signIn == Redirect(SavePlaylistRoute) && session.token == Some(tok);
    var refresh: string -> Option<Token> := rt => None;
    var first := SavePlaylistPage(session, account, 100, 100, refresh, NO_FAULTS);
    assert first == Reply(200, SAVED_TEXT);
    assert Uris(top) == ["uri:a", "uri:b"];
    ReconcileIdempotent([], 0, top);
    assert account.playlists == [Playlist(0, SAVED_PLAYLIST_NAME, true, SAVED_PLAYLIST_DESCRIPTION, ["uri:a", "uri:b"])];
    var second := SavePlaylistPage(session, account, 200, 200, refresh, NO_FAULTS);
    assert second == Reply(200, SAVED_TEXT);
    assert account.playlists == [Playlist(0, SAVED_PLAYLIST_NAME, true, SAVED_PLAYLIST_DESCRIPTION, ["uri:a", "uri:b"])];
    var bye := Logout(session);
    var after := SavePlaylistPage(session, account, 300, 300, refresh, NO_FAULTS);
    assert after == Redirect(LoginRoute);
  }
}
