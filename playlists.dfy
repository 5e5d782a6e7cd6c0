/**
 * Playlist reconciliation (`get_or_create_playlist` and
 * `update_playlist_tracks` in app.py) against an abstract model of the
 * user's account at the provider.
 *
 * The account is a class whose fields the provider's catalog calls update:
 * the user's playlists in listing order, the user's top tracks, and a counter
 * from which a created playlist takes its id. Every remote call may raise; a
 * `Faults` record says which calls do, and a call that raises has no effect.
 */
module Playlists {
  import opened Wrappers

  type Uri = string
  type PlaylistId = nat

  /** One item of the top-tracks listing. */
  datatype Track = Track(uri: Uri, name: string, artists: seq<string>)

  datatype Playlist = Playlist(id: PlaylistId, name: string, public: bool, description: string, tracks: seq<Uri>)

  const SAVED_PLAYLIST_NAME: string := "Saved Top Tracks Weekly"
  const SAVED_PLAYLIST_DESCRIPTION: string := "Weekly updated playlist of my top tracks"

  /** Which of the provider calls made while saving the playlist raise. */
  datatype Faults = Faults(
    currentUser: bool,
    listPlaylists: bool,
    createPlaylist: bool,
    clearPlaylist: bool,
    topTracks: bool,
    addTracks: bool)

  const NO_FAULTS: Faults := Faults(false, false, false, false, false, false)

  /** `[song['uri'] for song in tracks]`. */
  function Uris(tracks: seq<Track>): (r: seq<Uri>)
    ensures |r| == |tracks|
    ensures forall i :: 0 <= i < |tracks| ==> r[i] == tracks[i].uri
  {
    if tracks == [] then [] else [tracks[0].uri] + Uris(tracks[1..])
  }

  /** The index of the first playlist, in listing order, whose name is exactly `name`. */
  function FirstNamed(ps: seq<Playlist>, name: string): (r: Option<nat>)
    ensures r.Some? ==> r.value < |ps| && ps[r.value].name == name
    ensures r.Some? ==> forall j :: 0 <= j < r.value ==> ps[j].name != name
    ensures r.None? <==> forall j :: 0 <= j < |ps| ==> ps[j].name != name
  {
    if ps == [] then None
    else if ps[0].name == name then Some(0)
    else match FirstNamed(ps[1..], name)
      case None => None
      case Some(k) => Some(k + 1)
  }

  predicate HasPlaylist(ps: seq<Playlist>, pid: PlaylistId) {
    exists i :: 0 <= i < |ps| && ps[i].id == pid
  }

  predicate DistinctIds(ps: seq<Playlist>) {
    forall i, j :: 0 <= i < j < |ps| ==> ps[i].id != ps[j].id
  }

  predicate IdsBelow(ps: seq<Playlist>, bound: nat) {
    forall i :: 0 <= i < |ps| ==> ps[i].id < bound
  }

  /** The playlists after `playlist_replace_items(pid, uris)`: that playlist's items become `uris`. */
  function Replaced(ps: seq<Playlist>, pid: PlaylistId, uris: seq<Uri>): (r: seq<Playlist>)
    ensures |r| == |ps|
    ensures forall i :: 0 <= i < |ps| && ps[i].id == pid ==> r[i] == ps[i].(tracks := uris)
    ensures forall i :: 0 <= i < |ps| && ps[i].id != pid ==> r[i] == ps[i]
  {
    if ps == [] then []
    else [if ps[0].id == pid then ps[0].(tracks := uris) else ps[0]] + Replaced(ps[1..], pid, uris)
  }

  /** The playlists after `user_playlist_add_tracks(pid, uris)`: `uris` go after that playlist's items. */
  function Appended(ps: seq<Playlist>, pid: PlaylistId, uris: seq<Uri>): (r: seq<Playlist>)
    ensures |r| == |ps|
    ensures forall i :: 0 <= i < |ps| && ps[i].id == pid ==> r[i] == ps[i].(tracks := ps[i].tracks + uris)
    ensures forall i :: 0 <= i < |ps| && ps[i].id != pid ==> r[i] == ps[i]
  {
    if ps == [] then []
    else [if ps[0].id == pid then ps[0].(tracks := ps[0].tracks + uris) else ps[0]] + Appended(ps[1..], pid, uris)
  }

  /** The playlist `get_or_create_playlist` creates: public, with the fixed name and description, empty. */
  function NewPlaylist(id: PlaylistId): Playlist {
    Playlist(id, SAVED_PLAYLIST_NAME, true, SAVED_PLAYLIST_DESCRIPTION, [])
  }

  /** The chosen playlist's id, and the account's playlists and id counter. */
  datatype Reconciled = Reconciled(id: PlaylistId, playlists: seq<Playlist>, nextId: nat)

  /** The account after a `get_or_create_playlist` in which no call fails. */
  function FindOrCreate(ps: seq<Playlist>, nextId: nat): Reconciled {
    match FirstNamed(ps, SAVED_PLAYLIST_NAME)
    case Some(k) => Reconciled(ps[k].id, ps, nextId)
    case None => Reconciled(nextId, ps + [NewPlaylist(nextId)], nextId + 1)
  }

  /** The account after a `save_playlist` in which no call fails. */
  function Reconcile(ps: seq<Playlist>, nextId: nat, top: seq<Track>): Reconciled {
    var f := FindOrCreate(ps, nextId);
    f.(playlists := Replaced(f.playlists, f.id, Uris(top)))
  }

  /**
   * The user's account as the provider holds it. The methods are the
   * provider's catalog calls that write; the fields are what its listing
   * calls return.
   */
  class Account {
    var playlists: seq<Playlist>
    var topTracks: seq<Track>
    var nextId: PlaylistId

    ghost predicate Valid()
      reads this
    {
      DistinctIds(playlists) && IdsBelow(playlists, nextId)
    }

    constructor (ps: seq<Playlist>, top: seq<Track>, firstFreeId: PlaylistId)
      requires DistinctIds(ps) && IdsBelow(ps, firstFreeId)
      ensures Valid()
      ensures playlists == ps && topTracks == top && nextId == firstFreeId
    {
      playlists := ps;
      topTracks := top;
      nextId := firstFreeId;
    }

    /** `user_playlist_create`: appends an empty playlist under a fresh id. */
    method CreatePlaylist(name: string, public: bool, description: string) returns (id: PlaylistId)
      requires Valid()
      modifies this
      ensures Valid()
      ensures id == old(nextId) && !HasPlaylist(old(playlists), id)
      ensures playlists == old(playlists) + [Playlist(id, name, public, description, [])]
      ensures nextId == old(nextId) + 1 && topTracks == old(topTracks)
    {
      id := nextId;
      playlists := playlists + [Playlist(id, name, public, description, [])];
      nextId := nextId + 1;
    }

    /** `playlist_replace_items`: fails on an id the account does not hold. */
    method ReplaceItems(pid: PlaylistId, uris: seq<Uri>) returns (ok: bool)
      requires Valid()
      modifies this
      ensures Valid()
      ensures ok == HasPlaylist(old(playlists), pid)
      ensures playlists == if ok then Replaced(old(playlists), pid, uris) else old(playlists)
      ensures nextId == old(nextId) && topTracks == old(topTracks)
    {
      ok := HasPlaylist(playlists, pid);
      if ok {
        playlists := Replaced(playlists, pid, uris);
      }
    }

    /** `user_playlist_add_tracks`: fails on an id the account does not hold. */
    method AddItems(pid: PlaylistId, uris: seq<Uri>) returns (ok: bool)
      requires Valid()
      modifies this
      ensures Valid()
      ensures ok == HasPlaylist(old(playlists), pid)
      ensures playlists == if ok then Appended(old(playlists), pid, uris) else old(playlists)
      ensures nextId == old(nextId) && topTracks == old(topTracks)
    {
      ok := HasPlaylist(playlists, pid);
      if ok {
        playlists := Appended(playlists, pid, uris);
      }
    }
  }

  /**
   * `get_or_create_playlist`: the id of the first listed playlist named
   * "Saved Top Tracks Weekly", or of a playlist created under that name when
   * there is none; `None` when the listing or the creation raises.
   */
  method GetOrCreatePlaylist(account: Account, faults: Faults) returns (r: Option<PlaylistId>)
    requires account.Valid()
    modifies account
    ensures account.Valid() && account.topTracks == old(account.topTracks)
    ensures var f := FindOrCreate(old(account.playlists), old(account.nextId));
      if faults.listPlaylists || (FirstNamed(old(account.playlists), SAVED_PLAYLIST_NAME).None? && faults.createPlaylist)
      then r == None && account.playlists == old(account.playlists) && account.nextId == old(account.nextId)
      else r == Some(f.id) && account.playlists == f.playlists && account.nextId == f.nextId
  {
    if faults.listPlaylists {
      return None;
    }
    var listing := account.playlists;
    var i := 0;
    while i < |listing|
      invariant 0 <= i <= |listing|
      invariant forall j :: 0 <= j < i ==> listing[j].name != SAVED_PLAYLIST_NAME
    {
      if listing[i].name == SAVED_PLAYLIST_NAME {
        assert FirstNamed(listing, SAVED_PLAYLIST_NAME) == Some(i);
        return Some(listing[i].id);
      }
      i := i + 1;
    }
    if faults.createPlaylist {
      return None;
    }
    var id := account.CreatePlaylist(SAVED_PLAYLIST_NAME, true, SAVED_PLAYLIST_DESCRIPTION);
    return Some(id);
  }

  /**
   * `update_playlist_tracks`: clears playlist `pid`, then writes the top
   * tracks' URIs into it. `false` stands for the exception it re-raises; a
   * failure after the clear leaves the playlist empty.
   */
  method UpdatePlaylistTracks(account: Account, pid: PlaylistId, faults: Faults) returns (ok: bool)
    requires account.Valid()
    modifies account
    ensures account.Valid()
    ensures account.topTracks == old(account.topTracks) && account.nextId == old(account.nextId)
    ensures ok <==> HasPlaylist(old(account.playlists), pid) && !faults.clearPlaylist && !faults.topTracks && !faults.addTracks
    ensures ok ==> account.playlists == Replaced(old(account.playlists), pid, Uris(old(account.topTracks)))
    ensures !ok && (faults.clearPlaylist || !HasPlaylist(old(account.playlists), pid)) ==>
      account.playlists == old(account.playlists)
    ensures !ok && !faults.clearPlaylist && HasPlaylist(old(account.playlists), pid) ==>
      account.playlists == Replaced(old(account.playlists), pid, [])
  {
    if faults.clearPlaylist {
      return false;
    }
    var cleared := account.ReplaceItems(pid, []);
    if !cleared {
      return false;
    }
    if faults.topTracks {
      return false;
    }
    var songUris := Uris(account.topTracks);
    if faults.addTracks {
      return false;
    }
    ok := account.AddItems(pid, songUris);
    ClearThenAdd(old(account.playlists), pid, songUris);
  }

  /** Clearing a playlist and then adding `uris` leaves exactly `uris` in it, whatever it held. */
  lemma ClearThenAdd(ps: seq<Playlist>, pid: PlaylistId, uris: seq<Uri>)
    ensures Appended(Replaced(ps, pid, []), pid, uris) == Replaced(ps, pid, uris)
  {
    var a := Appended(Replaced(ps, pid, []), pid, uris);
    var b := Replaced(ps, pid, uris);
    forall i | 0 <= i < |ps| ensures a[i] == b[i] {
      assert Replaced(ps, pid, [])[i].id == ps[i].id;
    }
  }

  /** The last replacement wins: running the update twice leaves the same items, not duplicates. */
  lemma ReplaceLastWins(ps: seq<Playlist>, pid: PlaylistId, first: seq<Uri>, second: seq<Uri>)
    ensures Replaced(Replaced(ps, pid, first), pid, second) == Replaced(ps, pid, second)
  {
  }

  /** Writing items never renames a playlist, so the first match by name stays where it was. */
  lemma FirstNamedAfterReplace(ps: seq<Playlist>, pid: PlaylistId, uris: seq<Uri>, name: string)
    ensures FirstNamed(Replaced(ps, pid, uris), name) == FirstNamed(ps, name)
  {
  }

  /** After a name has no match, the playlist created under it is the first match. */
  lemma CreatedIsFound(ps: seq<Playlist>, id: PlaylistId)
    requires FirstNamed(ps, SAVED_PLAYLIST_NAME).None?
    ensures FirstNamed(ps + [NewPlaylist(id)], SAVED_PLAYLIST_NAME) == Some(|ps|)
  {
    var qs := ps + [NewPlaylist(id)];
    assert qs[|ps|].name == SAVED_PLAYLIST_NAME;
    assert forall j :: 0 <= j < |ps| ==> qs[j] == ps[j];
  }

  /**
   * Find before create: an existing playlist of that name is chosen and
   * nothing is created; otherwise exactly one public playlist with that name
   * and description is appended, under the counter's fresh id.
   */
  lemma FindBeforeCreate(ps: seq<Playlist>, nextId: nat, top: seq<Track>)
    ensures (exists i :: 0 <= i < |ps| && ps[i].name == SAVED_PLAYLIST_NAME) ==>
      var f := FindOrCreate(ps, nextId);
      f.playlists == ps && f.nextId == nextId &&
      (exists i :: 0 <= i < |ps| && ps[i].name == SAVED_PLAYLIST_NAME && ps[i].id == f.id) &&
      |Reconcile(ps, nextId, top).playlists| == |ps|
    ensures (forall i :: 0 <= i < |ps| ==> ps[i].name != SAVED_PLAYLIST_NAME) ==>
      var f := FindOrCreate(ps, nextId);
      f.playlists == ps + [NewPlaylist(nextId)] && f.id == nextId && f.nextId == nextId + 1 &&
      |Reconcile(ps, nextId, top).playlists| == |ps| + 1
  {
  }

  /**
   * After a reconciliation the first playlist named "Saved Top Tracks Weekly"
   * is the chosen one and holds the top tracks' URIs in order; every other
   * playlist the account held is as it was, and none appears beyond the one
   * that may have been created.
   */
  lemma ReconcileResult(ps: seq<Playlist>, nextId: nat, top: seq<Track>)
    requires DistinctIds(ps) && IdsBelow(ps, nextId)
    ensures var r := Reconcile(ps, nextId, top);
      && FirstNamed(r.playlists, SAVED_PLAYLIST_NAME).Some?
      && r.playlists[FirstNamed(r.playlists, SAVED_PLAYLIST_NAME).value].id == r.id
      && r.playlists[FirstNamed(r.playlists, SAVED_PLAYLIST_NAME).value].tracks == Uris(top)
      && (forall i :: 0 <= i < |ps| && ps[i].id != r.id ==> r.playlists[i] == ps[i])
      && |r.playlists| <= |ps| + 1
      && DistinctIds(r.playlists) && IdsBelow(r.playlists, r.nextId)
  {
    var f := FindOrCreate(ps, nextId);
    FirstNamedAfterReplace(f.playlists, f.id, Uris(top), SAVED_PLAYLIST_NAME);
    if FirstNamed(ps, SAVED_PLAYLIST_NAME).None? {
      CreatedIsFound(ps, nextId);
      assert forall i :: 0 <= i < |ps| ==> f.playlists[i] == ps[i];
    }
  }

  /** Reconciling twice in a row gives what reconciling once gives: same playlist, same items, nothing created. */
  lemma ReconcileIdempotent(ps: seq<Playlist>, nextId: nat, top: seq<Track>)
    ensures var r := Reconcile(ps, nextId, top);
      Reconcile(r.playlists, r.nextId, top) == r
  {
    var f := FindOrCreate(ps, nextId);
    var r := Reconcile(ps, nextId, top);
    FirstNamedAfterReplace(f.playlists, f.id, Uris(top), SAVED_PLAYLIST_NAME);
    if FirstNamed(ps, SAVED_PLAYLIST_NAME).None? {
      CreatedIsFound(ps, nextId);
    }
    assert FirstNamed(r.playlists, SAVED_PLAYLIST_NAME) == FirstNamed(f.playlists, SAVED_PLAYLIST_NAME);
    ReplaceLastWins(f.playlists, f.id, Uris(top), Uris(top));
  }
}
