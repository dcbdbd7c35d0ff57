/**
 * The viewer's session: the globals of index.js (`loadedSongs`,
 * `loadedPlaylists`, `currentPlaylistKey`, `currentSongId`,
 * `currentEntries`, `currentPlaylistSongs`, `transposeBySongId`,
 * `currentTransposition`) plus the signed-in user, the admin flag, whether
 * a live session is attached, and the `lastEditedPlaylistKey` kept in
 * localStorage. `Session` is that state as a value and the functions below
 * say what each operation does to it and to the database; `App` holds it in
 * mutable fields and its methods perform the operations step by step.
 */
module Viewer {

  import opened Common
  import opened Keys
  import opened Text
  import opened Docs
  import opened Catalog
  import opened Storage
  import opened Entries

  datatype Session = Session(
    userId: string,
    isAdmin: bool,
    hasLiveRef: bool,
    loadedSongs: map<string, CatalogSong>,
    loadedPlaylists: Playlists,
    currentPlaylistKey: string,
    currentSongId: Option<string>,
    currentEntries: seq<CurEntry>,
    currentPlaylistSongs: seq<CatalogSong>,
    transposeBySongId: map<string, int>,
    currentTransposition: int,
    lastEdited: string)

  /** The catalog is a well-formed Map and every cached song sits under its own id. */
  ghost predicate Coherent(v: Session)
  {
    v.loadedPlaylists.Valid() && KeyedById(v.loadedSongs)
  }

  /** The (owner, playlist) the current key names, with the signed-in user as default owner. */
  function CurrentRef(v: Session): PlRef
  {
    ParsePlKey(v.currentPlaylistKey, v.userId)
  }

  // ----- The live session (index.js:164-173, 483-492) -----

  /** The guard of both live-session writes. */
  predicate Broadcasts(v: Session)
  {
    v.isAdmin && v.hasLiveRef && v.currentSongId.Some? && v.currentSongId.value in v.loadedSongs
  }

  /** The live document after one guarded write of the current song and transpose. */
  function LiveAfter(v: Session, live: Option<LiveDoc>): Option<LiveDoc>
  {
    if Broadcasts(v) then
      var s := v.loadedSongs[v.currentSongId.value];
      Some(LiveDoc(true, v.currentSongId.value, s.title, s.content, v.currentTransposition))
    else live
  }

  // ----- loadSelectedSong (index.js:461-493) -----

  /** The transpose saved for a song in the loaded playlist, else 0. */
  function SavedTranspose(v: Session, id: string): int
  {
    if id in v.transposeBySongId then v.transposeBySongId[id] else 0
  }

  /** A cached song becomes current with its saved transpose; anything else clears the selection. */
  function SelectSong(v: Session, songId: Option<string>): (r: Session)
    ensures r == v.(currentTransposition := r.currentTransposition, currentSongId := r.currentSongId)
    ensures songId.Some? && songId.value in v.loadedSongs
            ==> r.currentSongId == songId && r.currentTransposition == SavedTranspose(v, songId.value)
    ensures !(songId.Some? && songId.value in v.loadedSongs)
            ==> r.currentSongId == None && r.currentTransposition == v.currentTransposition
  {
    if songId.Some? && songId.value in v.loadedSongs then
      v.(currentTransposition := SavedTranspose(v, songId.value), currentSongId := songId)
    else v.(currentSongId := None)
  }

  /**
   * The live document after loadSelectedSong as written: the write inside
   * applyTranspositionToDisplay, made while the previous song is still
   * current, then the write at the end.
   */
  function SelectLive(v: Session, songId: Option<string>, live: Option<LiveDoc>): Option<LiveDoc>
  {
    if songId.Some? && songId.value in v.loadedSongs then
      var before := v.(currentTransposition := SavedTranspose(v, songId.value));
      LiveAfter(SelectSong(v, songId), LiveAfter(before, live))
    else LiveAfter(SelectSong(v, songId), live)
  }

  /**
   * The second write always supersedes the first, so the live document
   * ends up mirroring the selected song exactly when an admin with a live
   * session selects a cached song, and is untouched otherwise.
   */
  lemma SelectSongLive(v: Session, songId: Option<string>, live: Option<LiveDoc>)
    ensures SelectLive(v, songId, live) == LiveAfter(SelectSong(v, songId), live)
    ensures Broadcasts(SelectSong(v, songId)) <==> v.isAdmin && v.hasLiveRef && songId.Some? && songId.value in v.loadedSongs
  {
  }

  /** loadSelectedSong on the session and the database. */
  function LoadSong(v: Session, db: Db, songId: Option<string>): (Session, Db)
  {
    var r := SelectSong(v, songId);
    (r, db.(live := LiveAfter(r, db.live)))
  }

  // ----- populatePlaylistsAndSongs (index.js:603-675) -----

  /**
   * The rebuild from the four query results: the catalog from the owned
   * playlists and the grants, the initial key, then the songs. Nothing
   * happens without a signed-in user.
   */
  function Populate(v: Session, owned: seq<Row<PlaylistDoc>>, usr: seq<Row<SongDoc>>, pub: seq<Row<SongDoc>>, grants: seq<GrantDoc>): Session
  {
    if v.userId == "" then v
    else
      var c := AggregatePlaylists(v.userId, owned, grants);
      v.(loadedPlaylists := c,
         currentPlaylistKey := SelectInitialKey(v.currentPlaylistKey, v.lastEdited, c),
         loadedSongs := AggregateSongs(pub, usr))
  }

  /**
   * The rebuild keeps the session coherent; with no current playlist it
   * selects the last viewed one if it is still listed, otherwise the first
   * listed one, and a key only when the catalog has some playlist. A
   * current key survives the rebuild even when its playlist is gone.
   */
  lemma PopulateSelects(v: Session, owned: seq<Row<PlaylistDoc>>, usr: seq<Row<SongDoc>>, pub: seq<Row<SongDoc>>, grants: seq<GrantDoc>)
    requires Coherent(v)
    ensures var r := Populate(v, owned, usr, pub, grants);
            && Coherent(r)
            && (v.currentPlaylistKey != "" ==> r.currentPlaylistKey == v.currentPlaylistKey)
            && (v.userId != "" && v.currentPlaylistKey == "" ==>
                  && (r.loadedPlaylists.keys != [] <==> r.currentPlaylistKey in r.loadedPlaylists.entries)
                  && (v.lastEdited != "" && v.lastEdited in r.loadedPlaylists.entries ==> r.currentPlaylistKey == v.lastEdited))
  {
    if v.userId != "" {
      var c := AggregatePlaylists(v.userId, owned, grants);
      PutSongsKeyed(map[], pub, PublicScope);
      PutSongsKeyed(PutSongs(map[], pub, PublicScope), usr, UserScope);
      if c.keys == [] {
        assert c.entries.Keys == {};
      }
    }
  }

  // ----- loadEntriesForCurrentPlaylist (index.js:495-579) -----

  /** The three lists emptied at the start. */
  function Cleared(v: Session): Session
  {
    v.(transposeBySongId := map[], currentEntries := [], currentPlaylistSongs := [])
  }

  /** After the collecting loop and the resolving loop over the query's rows. */
  function Resolved(v: Session, db: Db, snap: seq<Row<Entry>>): Session
  {
    var ref := CurrentRef(v);
    var entries := CollectEntries(snap);
    var res := Resolve(v.loadedSongs, ref.owner, v.userId, SongsOf(db, ref.owner), SortByOrder(entries));
    v.(currentEntries := entries, transposeBySongId := CollectTranspose(snap),
       loadedSongs := res.0, currentPlaylistSongs := res.1)
  }

  /** The lists emptied at the start are rebuilt from scratch, so clearing them first changes nothing. */
  lemma ResolvedAfterClear(v: Session, db: Db, snap: seq<Row<Entry>>)
    ensures Resolved(Cleared(v), db, snap) == Resolved(v, db, snap)
  {
  }

  /**
   * The end of the load, from the resolved state `rs`: an empty list
   * clears the current song; otherwise the current song is kept when the
   * list has it, else the first song is chosen, and that song is loaded.
   */
  function PickAndLoad(db: Db, rs: Session): (Session, Db)
  {
    if rs.currentPlaylistSongs == [] then (rs.(currentSongId := None), db)
    else
      var cur := PickCurrent(rs.currentPlaylistSongs, rs.currentSongId);
      LoadSong(rs.(currentSongId := cur), db, cur)
  }

  /**
   * loadEntriesForCurrentPlaylist, given the rows the ordered entries query
   * returns. A key with an empty owner or playlist id makes the query throw:
   * the lists stay cleared and the current song is kept.
   */
  function LoadEntries(v: Session, db: Db, snap: seq<Row<Entry>>): (Session, Db)
  {
    var ref := CurrentRef(v);
    if v.currentPlaylistKey == "" then (Cleared(v).(currentSongId := None), db)
    else if ref.owner == "" || ref.pid == "" then (Cleared(v), db)
    else LoadRows(Cleared(v), db, snap)
  }

  /** The rows of the query, from the cleared lists: none clears the current song; otherwise resolve, pick and load. */
  function LoadRows(v: Session, db: Db, snap: seq<Row<Entry>>): (Session, Db)
  {
    if snap == [] then (v.(currentSongId := None), db)
    else PickAndLoad(db, Resolved(v, db, snap))
  }

  /** Choosing the current song changes neither the lists nor the cache, and of the database only the live document. */
  lemma PickAndLoadKeeps(db: Db, rs: Session)
    ensures var (r, db') := PickAndLoad(db, rs);
            && r == rs.(currentSongId := r.currentSongId, currentTransposition := r.currentTransposition)
            && db' == db.(live := db'.live)
  {
  }

  /**
   * The current song after loading: kept when the list has it, otherwise
   * the first song; there is one exactly when the list is not empty, and
   * it is a cached song of the list.
   */
  lemma PickAndLoadCurrent(db: Db, rs: Session)
    requires forall s :: s in rs.currentPlaylistSongs ==> s.id in rs.loadedSongs
    ensures var r := PickAndLoad(db, rs).0;
            && (r.currentSongId.None? <==> rs.currentPlaylistSongs == [])
            && (r.currentSongId.Some? ==> HasSong(rs.currentPlaylistSongs, r.currentSongId.value) && r.currentSongId.value in rs.loadedSongs)
            && (rs.currentSongId.Some? && HasSong(rs.currentPlaylistSongs, rs.currentSongId.value) ==> r.currentSongId == rs.currentSongId)
            && (r.currentSongId.Some? && r.currentSongId != rs.currentSongId ==> r.currentSongId == Some(rs.currentPlaylistSongs[0].id))
  {
    if rs.currentPlaylistSongs != [] {
      var cur := PickCurrent(rs.currentPlaylistSongs, rs.currentSongId);
      var i :| 0 <= i < |rs.currentPlaylistSongs| && rs.currentPlaylistSongs[i].id == cur.value;
      assert rs.currentPlaylistSongs[i] in rs.currentPlaylistSongs;
    }
  }

  /**
   * The resolved state: the entries as the query returned them, the
   * available songs of the entries in entry order (sorted by `order`,
   * stably), and a cache that stays keyed by id and holds every listed
   * song.
   */
  lemma ResolvedShows(v: Session, db: Db, snap: seq<Row<Entry>>)
    requires Coherent(v)
    ensures var rs := Resolved(v, db, snap);
            var ref := CurrentRef(v);
            && Coherent(rs)
            && rs.currentEntries == CollectEntries(snap)
            && rs.currentPlaylistSongs == Available(v.loadedSongs, ref.owner, v.userId, SongsOf(db, ref.owner), SortByOrder(CollectEntries(snap)))
            && (forall s :: s in rs.currentPlaylistSongs ==> s.id in rs.loadedSongs)
  {
    var ref := CurrentRef(v);
    var ordered := SortByOrder(CollectEntries(snap));
    ResolveAvailable(v.loadedSongs, ref.owner, v.userId, SongsOf(db, ref.owner), ordered);
    ResolveKnows(v.loadedSongs, ref.owner, v.userId, SongsOf(db, ref.owner), ordered);
  }

  /**
   * A load that reaches the query (a playlist is current and its key names
   * an owner and a playlist) shows the available songs of the entries in
   * entry order and keeps the session coherent; only the live document of
   * the database changes.
   */
  lemma LoadEntriesShows(v: Session, db: Db, snap: seq<Row<Entry>>)
    requires Coherent(v)
    requires v.currentPlaylistKey != "" && CurrentRef(v).owner != "" && CurrentRef(v).pid != ""
    ensures var (r, db') := LoadEntries(v, db, snap);
            var ref := CurrentRef(v);
            && Coherent(r)
            && r.currentEntries == CollectEntries(snap)
            && r.currentPlaylistSongs == Available(v.loadedSongs, ref.owner, v.userId, SongsOf(db, ref.owner), SortByOrder(CollectEntries(snap)))
            && db' == db.(live := db'.live)
  {
    if snap == [] {
      assert CollectEntries(snap) == [] && SortByOrder(CollectEntries(snap)) == [];
    } else {
      ResolvedAfterClear(v, db, snap);
      ResolvedShows(v, db, snap);
      PickAndLoadKeeps(db, Resolved(v, db, snap));
    }
  }

  // ----- saveCurrentEntryTranspose (index.js:678-695) -----

  /** Writes are allowed to the owner and to holders of a shared editor role. */
  predicate CanWrite(v: Session)
  {
    || CurrentRef(v).owner == v.userId
    || (&& v.currentPlaylistKey in v.loadedPlaylists.entries
        && v.loadedPlaylists.entries[v.currentPlaylistKey].shared
        && v.loadedPlaylists.entries[v.currentPlaylistKey].sharedRole == Some("editor"))
  }

  /** Whether saving has all it needs: a playlist, a song, and a key naming a real entry path. */
  predicate SaveTarget(v: Session)
  {
    v.currentPlaylistKey != "" && v.currentSongId.Some? && CurrentRef(v).owner != "" && CurrentRef(v).pid != ""
  }

  /**
   * saveCurrentEntryTranspose: merge the transpose into the current song's
   * entry, then remember it; `fails` is a failed write, after which nothing
   * is remembered.
   */
  function SaveTranspose(v: Session, db: Db, fails: bool): (Session, Db)
  {
    if v.currentPlaylistKey == "" || v.currentSongId.None? then (v, db)
    else if !CanWrite(v) then (v, db)
    else
      var ref := CurrentRef(v);
      if ref.owner == "" || ref.pid == "" || fails then (v, db)
      else
        var id := v.currentSongId.value;
        (v.(transposeBySongId := v.transposeBySongId[id := v.currentTransposition]),
         SetEntryTranspose(db, ref, id, v.currentTransposition))
  }

  /**
   * The write rule: the database changes only for an owner or an editor,
   * and then only the current song's entry in the current playlist, whose
   * transpose becomes the current one while its order is kept. Reopening
   * the song afterwards restores that transpose.
   */
  lemma SaveTransposeRule(v: Session, db: Db, fails: bool)
    ensures var (r, db') := SaveTranspose(v, db, fails);
            && (db' != db || r != v ==> CanWrite(v))
            && (!CanWrite(v) ==> r == v && db' == db)
            && db'.songs == db.songs && db'.playlists == db.playlists && db'.inbox == db.inbox
            && db'.live == db.live && db'.nextId == db.nextId
            && (forall p: PlRef :: p != CurrentRef(v) ==> EntriesOf(db', p) == EntriesOf(db, p))
            && (CanWrite(v) && SaveTarget(v) && !fails ==>
                  var id := v.currentSongId.value;
                  var ref := CurrentRef(v);
                  && EntriesOf(db', ref) - {id} == EntriesOf(db, ref) - {id}
                  && id in EntriesOf(db', ref)
                  && EntriesOf(db', ref)[id].transpose == v.currentTransposition
                  && (id in EntriesOf(db, ref) ==> EntriesOf(db', ref)[id].order == EntriesOf(db, ref)[id].order)
                  && (id in v.loadedSongs ==> SelectSong(r, Some(id)).currentTransposition == v.currentTransposition))
  {
    if CanWrite(v) && SaveTarget(v) && !fails {
      var id := v.currentSongId.value;
      var ref := CurrentRef(v);
      var db' := SaveTranspose(v, db, fails).1;
      assert EntriesOf(db', ref) == EntriesOf(db, ref)[id := EntriesOf(db', ref)[id]];
    }
  }

  // ----- _ls_importInboxItem, the link flavour (index.js:1342-1380) -----

  function LinkFrom(l: LinkMsg): string
  {
    OrElse(l.fromUid, l.ownerUid)
  }

  function LinkPid(l: LinkMsg): string
  {
    OrElse(l.playlistId, l.pid)
  }

  predicate LinkValid(l: LinkMsg)
  {
    LinkFrom(l) != "" && LinkPid(l) != ""
  }

  function LinkKey(l: LinkMsg): string
  {
    MakePlKey(LinkFrom(l), LinkPid(l))
  }

  /** The catalog record of a linked playlist: shared, role defaulting to viewer, sender recorded. */
  function LinkRecord(l: LinkMsg): CatalogPlaylist
  {
    CatalogPlaylist(LinkPid(l), LinkKey(l), OrElse(OrElse(l.playlistName, l.name), "Shared"), LinkFrom(l),
                    true, Some(OrElse(l.role, "viewer")), "", Some(Provenance(LinkFrom(l), l.fromEmail, l.fromDisplayName)))
  }

  /**
   * A link message: an incomplete one or one whose playlist is already in
   * the catalog is only consumed; otherwise its playlist joins the catalog,
   * becomes the last viewed and the current playlist, and the message is
   * consumed.
   */
  function LinkImport(v: Session, db: Db, msgId: string, l: LinkMsg, fx: Faults): (r: (Session, Db))
    requires v.loadedPlaylists.Valid()
    ensures r.0.loadedPlaylists.Valid()
  {
    if !LinkValid(l) || LinkKey(l) in v.loadedPlaylists.entries then (v, Consume(db, msgId, fx))
    else
      (v.(loadedPlaylists := Put(v.loadedPlaylists, LinkKey(l), LinkRecord(l)),
          lastEdited := LinkKey(l), currentPlaylistKey := LinkKey(l)),
       Consume(db, msgId, fx))
  }

  /**
   * The three cases of a link import. In the last one exactly one record
   * is added, shared, with the sender's role or 'viewer'; the new current
   * key parses back to the sender's playlist whenever the sender id is a
   * valid owner.
   */
  lemma LinkImportCases(v: Session, db: Db, msgId: string, l: LinkMsg, fx: Faults)
    requires v.loadedPlaylists.Valid()
    ensures var (r, db') := LinkImport(v, db, msgId, l, fx);
            && db' == Consume(db, msgId, fx)
            && (!LinkValid(l) || LinkKey(l) in v.loadedPlaylists.entries ==> r == v)
            && (LinkValid(l) && LinkKey(l) !in v.loadedPlaylists.entries ==>
                  && r.loadedPlaylists.keys == v.loadedPlaylists.keys + [LinkKey(l)]
                  && r.loadedPlaylists.entries == v.loadedPlaylists.entries[LinkKey(l) := LinkRecord(l)]
                  && r.loadedPlaylists.entries[LinkKey(l)].shared
                  && r.loadedPlaylists.entries[LinkKey(l)].sharedRole == Some(if l.role != "" then l.role else "viewer")
                  && r.currentPlaylistKey == LinkKey(l) && r.lastEdited == LinkKey(l)
                  && (ValidOwner(LinkFrom(l)) ==> CurrentRef(r) == PlRef(LinkFrom(l), LinkPid(l))))
  {
    if LinkValid(l) && ValidOwner(LinkFrom(l)) {
      ParseMakeRoundTrip(LinkFrom(l), LinkPid(l), v.userId);
    }
  }

  // ----- The share-inbox sweep (index.js:338-349, 1329-1340) -----

  /** One pending message, imported by the importer of its flavour. */
  function ImportStep(v: Session, db: Db, msgId: string, p: Payload, fx: Faults): (r: (Session, Db))
    requires v.loadedPlaylists.Valid()
    ensures r.0.loadedPlaylists.Valid()
  {
    match p
    case Copy(m) => (v, CopyImport(db, v.userId, msgId, m, fx).0)
    case Link(l) => LinkImport(v, db, msgId, l, fx)
  }

  /** The faults one message meets; by default none. */
  function FaultsFor(faults: map<string, Faults>, msgId: string): Faults
  {
    if msgId in faults then faults[msgId] else NoFaults
  }

  /** The sweep: every message of the snapshot in turn, a failing one not stopping the rest. */
  function Sweep(v: Session, db: Db, docs: seq<Row<InboxDoc>>, faults: map<string, Faults>): (r: (Session, Db))
    requires v.loadedPlaylists.Valid()
    ensures r.0.loadedPlaylists.Valid()
  {
    if docs == [] then (v, db)
    else
      var n := |docs| - 1;
      var (v1, db1) := Sweep(v, db, docs[..n], faults);
      ImportStep(v1, db1, docs[n].id, docs[n].doc.payload, FaultsFor(faults, docs[n].id))
  }

  /** The sweep over one more message is that message's import after the sweep over the others. */
  lemma SweepSnoc(v: Session, db: Db, docs: seq<Row<InboxDoc>>, faults: map<string, Faults>, i: nat)
    requires v.loadedPlaylists.Valid()
    requires i < |docs|
    ensures var (v1, db1) := Sweep(v, db, docs[..i], faults);
            Sweep(v, db, docs[..i + 1], faults) == ImportStep(v1, db1, docs[i].id, docs[i].doc.payload, FaultsFor(faults, docs[i].id))
  {
    assert docs[..i + 1][..i] == docs[..i];
  }

  /**
   * A message whose import would write nothing: a copy that cannot run or
   * whose target playlist exists or that has no items; a link that is
   * incomplete or already in the catalog.
   */
  predicate Done(v: Session, db: Db, msgId: string, p: Payload)
  {
    match p
    case Copy(m) => v.userId == "" || SharedTarget(msgId) in PlaylistsOf(db, v.userId) || ItemsOf(m) == []
    case Link(l) => !LinkValid(l) || LinkKey(l) in v.loadedPlaylists.entries
  }

  /** Two databases that differ at most in the inbox. */
  predicate SameButInbox(a: Db, b: Db)
  {
    a.songs == b.songs && a.playlists == b.playlists && a.entries == b.entries && a.live == b.live && a.nextId == b.nextId
  }

  /** Importing a message, even one that fails part-way, leaves it done. */
  lemma StepDone(v: Session, db: Db, msgId: string, p: Payload, fx: Faults)
    requires v.loadedPlaylists.Valid()
    ensures var (r, db') := ImportStep(v, db, msgId, p, fx);
            Done(r, db', msgId, p)
  {
    match p
    case Copy(m) =>
      if v.userId != "" && ItemsOf(m) != [] {
        CopyImportLeavesTarget(db, v.userId, msgId, m, fx);
      }
    case Link(l) =>
  }

  /** Importing any message keeps every done message done: playlists and catalog entries only accumulate. */
  lemma StepKeepsDone(v: Session, db: Db, msgId: string, p: Payload, fx: Faults, otherId: string, other: Payload)
    requires v.loadedPlaylists.Valid()
    requires Done(v, db, otherId, other)
    ensures var (r, db') := ImportStep(v, db, msgId, p, fx);
            Done(r, db', otherId, other)
  {
    var (r, db') := ImportStep(v, db, msgId, p, fx);
    match p {
      case Copy(m) =>
        assert r == v && db' == CopyImport(db, v.userId, msgId, m, fx).0;
        if other.Copy? && v.userId != "" && SharedTarget(otherId) in PlaylistsOf(db, v.userId) {
          CopyImportKeepsPlaylists(db, v.userId, msgId, m, fx);
        }
      case Link(l) =>
        assert (r, db') == LinkImport(v, db, msgId, l, fx);
        assert db'.playlists == db.playlists && r.userId == v.userId;
        assert v.loadedPlaylists.entries.Keys <= r.loadedPlaylists.entries.Keys;
    }
  }

  /** Importing a done message changes nothing but the inbox. */
  lemma DoneStepQuiet(v: Session, db: Db, msgId: string, p: Payload, fx: Faults)
    requires v.loadedPlaylists.Valid()
    requires Done(v, db, msgId, p)
    ensures var (r, db') := ImportStep(v, db, msgId, p, fx);
            r == v && SameButInbox(db, db')
  {
  }

  /** After a sweep every message of its snapshot is done, whatever failed along the way. */
  lemma {:induction false} SweepDone(v: Session, db: Db, docs: seq<Row<InboxDoc>>, faults: map<string, Faults>)
    requires v.loadedPlaylists.Valid()
    ensures var (r, db') := Sweep(v, db, docs, faults);
            forall k :: 0 <= k < |docs| ==> Done(r, db', docs[k].id, docs[k].doc.payload)
  {
    if docs != [] {
      var n := |docs| - 1;
      SweepDone(v, db, docs[..n], faults);
      var (v1, db1) := Sweep(v, db, docs[..n], faults);
      var fx := FaultsFor(faults, docs[n].id);
      forall k | 0 <= k < |docs|
        ensures Done(ImportStep(v1, db1, docs[n].id, docs[n].doc.payload, fx).0,
                     ImportStep(v1, db1, docs[n].id, docs[n].doc.payload, fx).1, docs[k].id, docs[k].doc.payload)
      {
        if k == n {
          StepDone(v1, db1, docs[n].id, docs[n].doc.payload, fx);
        } else {
          assert docs[..n][k] == docs[k];
          StepKeepsDone(v1, db1, docs[n].id, docs[n].doc.payload, fx, docs[k].id, docs[k].doc.payload);
        }
      }
    }
  }

  /** A sweep over messages that are all done changes nothing but the inbox. */
  lemma {:induction false} SweepQuiet(v: Session, db: Db, docs: seq<Row<InboxDoc>>, faults: map<string, Faults>)
    requires v.loadedPlaylists.Valid()
    requires forall k :: 0 <= k < |docs| ==> Done(v, db, docs[k].id, docs[k].doc.payload)
    ensures var (r, db') := Sweep(v, db, docs, faults);
            r == v && SameButInbox(db, db')
  {
    if docs != [] {
      var n := |docs| - 1;
      assert forall k :: 0 <= k < n ==> docs[..n][k] == docs[k];
      SweepQuiet(v, db, docs[..n], faults);
      var (v1, db1) := Sweep(v, db, docs[..n], faults);
      assert Done(v1, db1, docs[n].id, docs[n].doc.payload);
      DoneStepQuiet(v1, db1, docs[n].id, docs[n].doc.payload, FaultsFor(faults, docs[n].id));
    }
  }

  /**
   * Idempotence under repeated delivery: sweeping the same messages a
   * second time, with any faults, writes no song, playlist, entry or live
   * document and leaves the session as the first sweep left it.
   */
  lemma SweepIdempotent(v: Session, db: Db, docs: seq<Row<InboxDoc>>, faults1: map<string, Faults>, faults2: map<string, Faults>)
    requires v.loadedPlaylists.Valid()
    ensures var (v1, db1) := Sweep(v, db, docs, faults1);
            var (v2, db2) := Sweep(v1, db1, docs, faults2);
            v2 == v1 && SameButInbox(db1, db2)
  {
    SweepDone(v, db, docs, faults1);
    var (v1, db1) := Sweep(v, db, docs, faults1);
    SweepQuiet(v1, db1, docs, faults2);
  }

  // ----- addCurrentLocalToPlaylist (index.js:790-834) -----

  /** The guards on the session: a signed-in user and a current playlist the user owns. */
  predicate MayAddTo(v: Session)
  {
    v.userId != "" && v.currentPlaylistKey != "" && CurrentRef(v).owner == v.userId
  }

  /** The song document made from the trimmed text. */
  function LocalDoc(localText: string, userId: string): (d: SongDoc)
    ensures d.content.Some?
  {
    var text := Trim(localText);
    SongDoc(LocalTitle(text), Some(LocalBody(text)), userId, "local-file", "")
  }

  /**
   * The writes of addCurrentLocalToPlaylist for song document `doc`: the
   * song is added to the user's library and cached, appended to the
   * playlist with the next order and transpose 0, listed in the legacy
   * array, and selected. An empty playlist id stops it after the song
   * write, where the entry write throws.
   */
  function AddSongTo(v: Session, db: Db, doc: SongDoc): (Session, Db)
    requires doc.content.Some?
  {
    var ref := CurrentRef(v);
    var id := AutoId(db.nextId);
    var db1 := AddSong(db, v.userId, doc);
    var v1 := v.(loadedSongs := v.loadedSongs[id := CatalogSong(id, doc.title, doc.content.value, UserScope)]);
    if ref.pid == "" then (v1, db1) else AppendSong(v1, db1, id)
  }

  /** Steps 2-4 for the added song `id`: its entry with the next order, the legacy array, the selection. */
  function AppendSong(v: Session, db: Db, id: string): (r: (Session, Db))
    ensures r.1.songs == db.songs && r.1.nextId == db.nextId
    ensures r.0.loadedSongs == v.loadedSongs
  {
    var ref := CurrentRef(v);
    var next := MaxOrder(v.currentEntries) + 10;
    var db2 := AddToLegacy(SetEntry(db, ref, id, Entry(Some(next), 0)), v.userId, ref.pid, id);
    LoadSong(v.(currentEntries := v.currentEntries + [CurEntry(id, next, 0)], currentSongId := Some(id)), db2, Some(id))
  }

  /** addCurrentLocalToPlaylist: the guards, then the writes for the text's song document. */
  function AddLocal(v: Session, db: Db, localText: string): (Session, Db)
  {
    if !MayAddTo(v) || Trim(localText) == "" then (v, db)
    else AddSongTo(v, db, LocalDoc(localText, v.userId))
  }

  /**
   * With the guards, a song nobody used before joins the user's library
   * and the cache, and the counter's later ids stay unused.
   */
  lemma AddSongToLibrary(v: Session, db: Db, doc: SongDoc, r: Session, db': Db)
    requires IdsFresh(db)
    requires doc.content.Some?
    requires AddSongTo(v, db, doc) == (r, db')
    ensures AutoId(db.nextId) !in SongsOf(db, v.userId)
    ensures SongsOf(db', v.userId) == SongsOf(db, v.userId)[AutoId(db.nextId) := doc]
    ensures AutoId(db.nextId) in r.loadedSongs
    ensures IdsFresh(db')
  {
    var db1 := AddSong(db, v.userId, doc);
    AddSongKeepsFresh(db, v.userId, doc);
    assert db'.songs == db1.songs && db'.nextId == db1.nextId;
    FreshSameSongs(db1, db');
  }

  /**
   * With a playlist id, the new entry orders after every entry of the
   * playlist (so ordered entries stay ordered), with transpose 0.
   */
  lemma AddSongToPlaylist(v: Session, db: Db, doc: SongDoc, r: Session, db': Db)
    requires doc.content.Some? && CurrentRef(v).pid != ""
    requires AddSongTo(v, db, doc) == (r, db')
    ensures var id := AutoId(db.nextId);
            var ref := CurrentRef(v);
            && id in EntriesOf(db', ref)
            && EntriesOf(db', ref)[id].order.Some?
            && EntriesOf(db', ref)[id].transpose == 0
            && (forall i :: 0 <= i < |v.currentEntries| ==> v.currentEntries[i].order < EntriesOf(db', ref)[id].order.value)
            && r.currentEntries == v.currentEntries + [CurEntry(id, EntriesOf(db', ref)[id].order.value, 0)]
            && (Sorted(v.currentEntries) ==> Sorted(r.currentEntries))
  {
    var ref := CurrentRef(v);
    var id := AutoId(db.nextId);
    var next := MaxOrder(v.currentEntries) + 10;
    var v1 := v.(loadedSongs := v.loadedSongs[id := CatalogSong(id, doc.title, doc.content.value, UserScope)]);
    var db1 := AddSong(db, v.userId, doc);
    assert (r, db') == AppendSong(v1, db1, id);
    AppendSongEntries(v1, db1, id);
    MaxOrderIsMax(v.currentEntries);
    if Sorted(v.currentEntries) {
      AppendSorted(v.currentEntries, CurEntry(id, next, 0));
    }
  }

  /** What an append writes into the playlist's entries and the loaded list. */
  lemma AppendSongEntries(v: Session, db: Db, id: string)
    ensures var (r, db') := AppendSong(v, db, id);
            var next := MaxOrder(v.currentEntries) + 10;
            && EntriesOf(db', CurrentRef(v)) == EntriesOf(db, CurrentRef(v))[id := Entry(Some(next), 0)]
            && r.currentEntries == v.currentEntries + [CurEntry(id, next, 0)]
  {
    var ref := CurrentRef(v);
    var next := MaxOrder(v.currentEntries) + 10;
    var db1 := SetEntry(db, ref, id, Entry(Some(next), 0));
    var db2 := AddToLegacy(db1, v.userId, ref.pid, id);
    var v2 := v.(currentEntries := v.currentEntries + [CurEntry(id, next, 0)], currentSongId := Some(id));
    assert AppendSong(v, db, id) == LoadSong(v2, db2, Some(id));
    assert EntriesOf(db2, ref) == EntriesOf(db1, ref);
  }

  /** With a playlist id, the legacy array of the user's playlist lists the new song, which becomes current. */
  lemma AddSongToLegacy(v: Session, db: Db, doc: SongDoc, r: Session, db': Db)
    requires doc.content.Some? && CurrentRef(v).pid != ""
    requires AddSongTo(v, db, doc) == (r, db')
    ensures var id := AutoId(db.nextId);
            && PlaylistsOf(db', v.userId)[CurrentRef(v).pid].songs.Some?
            && id in PlaylistsOf(db', v.userId)[CurrentRef(v).pid].songs.value
            && r.currentSongId == Some(id)
  {
    var ref := CurrentRef(v);
    var id := AutoId(db.nextId);
    var db2 := SetEntry(AddSong(db, v.userId, doc), ref, id, Entry(Some(MaxOrder(v.currentEntries) + 10), 0));
    AddToLegacyUnion(db2, v.userId, ref.pid, id);
    assert db'.playlists == AddToLegacy(db2, v.userId, ref.pid, id).playlists;
  }

  /** Without the guards nothing happens; with them the song is the trimmed text's title and body. */
  lemma AddLocalRule(v: Session, db: Db, localText: string)
    ensures !MayAddTo(v) || Trim(localText) == "" ==> AddLocal(v, db, localText) == (v, db)
    ensures MayAddTo(v) && Trim(localText) != "" ==> AddLocal(v, db, localText) == AddSongTo(v, db, LocalDoc(localText, v.userId))
    ensures LocalDoc(localText, v.userId).title == LocalTitle(Trim(localText))
    ensures LocalDoc(localText, v.userId).content == Some(LocalBody(Trim(localText)))
  {
  }

  // ----- goPrevNextSong (index.js:917-936) -----

  /** One step through the loaded playlist, wrapping around; without a current song, the first or last. */
  function GoPrevNext(v: Session, db: Db, next: bool): (Session, Db)
  {
    var list := v.currentPlaylistSongs;
    if list == [] then (v, db)
    else
      var j := NextIndex(IndexOfSong(list, v.currentSongId), |list|, next);
      LoadSong(v, db, Some(list[j].id))
  }

  predicate DistinctIds(list: seq<CatalogSong>)
  {
    forall i, j :: 0 <= i < j < |list| ==> list[i].id != list[j].id
  }

  /** Stepping stays within the playlist: the new current song is one of its songs. */
  lemma GoPrevNextStaysInPlaylist(v: Session, db: Db, next: bool)
    requires Coherent(v)
    requires forall i :: 0 <= i < |v.currentPlaylistSongs| ==> v.currentPlaylistSongs[i].id in v.loadedSongs
    requires v.currentPlaylistSongs != []
    ensures var (r, _) := GoPrevNext(v, db, next);
            && r.currentPlaylistSongs == v.currentPlaylistSongs
            && r.currentSongId.Some? && HasSong(v.currentPlaylistSongs, r.currentSongId.value)
  {
    var list := v.currentPlaylistSongs;
    var j := NextIndex(IndexOfSong(list, v.currentSongId), |list|, next);
    assert list[j].id == list[j].id;
  }

  /**
   * Which song becomes current: the one after the current song, or the
   * first after the last; the one before it, or the last before the first;
   * without a current song in the list, the first (next) or the last
   * (previous).
   */
  lemma GoPrevNextWraps(v: Session, db: Db, next: bool)
    requires forall i :: 0 <= i < |v.currentPlaylistSongs| ==> v.currentPlaylistSongs[i].id in v.loadedSongs
    requires v.currentPlaylistSongs != []
    ensures var list := v.currentPlaylistSongs;
            var n := |list|;
            var i := IndexOfSong(list, v.currentSongId);
            var r := GoPrevNext(v, db, next).0;
            && (i == -1 ==> r.currentSongId == Some(list[if next then 0 else n - 1].id))
            && (i >= 0 && next ==> r.currentSongId == Some(list[if i == n - 1 then 0 else i + 1].id))
            && (i >= 0 && !next ==> r.currentSongId == Some(list[if i == 0 then n - 1 else i - 1].id))
  {
    var list := v.currentPlaylistSongs;
    var i := IndexOfSong(list, v.currentSongId);
    NextWraps(if i == -1 then 0 else i, |list|);
  }

  /** With distinct song ids, previous undoes next and next undoes previous. */
  lemma PrevUndoesNext(v: Session, db: Db, next: bool)
    requires DistinctIds(v.currentPlaylistSongs)
    requires forall i :: 0 <= i < |v.currentPlaylistSongs| ==> v.currentPlaylistSongs[i].id in v.loadedSongs
    requires v.currentSongId.Some? && HasSong(v.currentPlaylistSongs, v.currentSongId.value)
    ensures var (v1, db1) := GoPrevNext(v, db, next);
            GoPrevNext(v1, db1, !next).0.currentSongId == v.currentSongId
  {
    var list := v.currentPlaylistSongs;
    var n := |list|;
    var i := IndexOfSong(list, v.currentSongId);
    var j := NextIndex(i, n, next);
    NextPrevInverse(i, n);
    var (v1, db1) := GoPrevNext(v, db, next);
    assert v1.currentSongId == Some(list[j].id);
    assert IndexOfSong(list, v1.currentSongId) == j;
  }

  // ----- The transpose buttons (index.js:1063-1065) -----

  datatype Button = Down | Up | Reset

  /** The transposition a button press sets: one semitone down or up, or back to 0. */
  function Pressed(b: Button, t: int): int
  {
    match b
    case Down => t - 1
    case Up => t + 1
    case Reset => 0
  }

  /**
   * A transpose button: the new transposition is shown, broadcast by the
   * display's live write, and saved into the current song's entry.
   */
  function Retranspose(v: Session, db: Db, b: Button, fails: bool): (Session, Db)
  {
    var v1 := v.(currentTransposition := Pressed(b, v.currentTransposition));
    SaveTranspose(v1, db.(live := LiveAfter(v1, db.live)), fails)
  }

  /**
   * After a press the session holds the new transposition and nothing else
   * of it changes but the remembered transposes; an admin's live session
   * shows the current song at the new transposition; the entries change
   * only under the write rule.
   */
  lemma RetransposeEffect(v: Session, db: Db, b: Button, fails: bool)
    ensures var (r, db') := Retranspose(v, db, b, fails);
            var t := Pressed(b, v.currentTransposition);
            && r == v.(currentTransposition := t, transposeBySongId := r.transposeBySongId)
            && (Broadcasts(v) ==> db'.live == Some(LiveDoc(true, v.currentSongId.value, v.loadedSongs[v.currentSongId.value].title,
                                                          v.loadedSongs[v.currentSongId.value].content, t)))
            && (!Broadcasts(v) ==> db'.live == db.live)
            && db'.songs == db.songs && db'.playlists == db.playlists && db'.inbox == db.inbox
            && (db'.entries != db.entries ==> CanWrite(v))
            && (CanWrite(v) && SaveTarget(v) && !fails ==>
                  EntriesOf(db', CurrentRef(v))[v.currentSongId.value].transpose == t)
  {
    var v1 := v.(currentTransposition := Pressed(b, v.currentTransposition));
    SaveTransposeRule(v1, db.(live := LiveAfter(v1, db.live)), fails);
  }

  // ----- The session as mutable globals -----

  /**
   * The viewer's globals. Each method performs one function of index.js on
   * them and on the database `store`, as the function of the same step
   * above says.
   */
  class App {
    var userId: string
    var isAdmin: bool
    var hasLiveRef: bool
    var loadedSongs: map<string, CatalogSong>
    var loadedPlaylists: Playlists
    var currentPlaylistKey: string
    var currentSongId: Option<string>
    var currentEntries: seq<CurEntry>
    var currentPlaylistSongs: seq<CatalogSong>
    var transposeBySongId: map<string, int>
    var currentTransposition: int
    var lastEdited: string

    function State(): Session
      reads this
    {
      Session(userId, isAdmin, hasLiveRef, loadedSongs, loadedPlaylists, currentPlaylistKey, currentSongId,
              currentEntries, currentPlaylistSongs, transposeBySongId, currentTransposition, lastEdited)
    }

    ghost predicate Valid()
      reads this
    {
      Coherent(State())
    }

    /** A signed-in session before anything is loaded. */
    constructor (userId: string, isAdmin: bool, hasLiveRef: bool, lastEdited: string)
      ensures Valid()
      ensures State() == Session(userId, isAdmin, hasLiveRef, map[], NoPlaylists, "", None, [], [], map[], 0, lastEdited)
    {
      this.userId := userId;
      this.isAdmin := isAdmin;
      this.hasLiveRef := hasLiveRef;
      loadedSongs := map[];
      loadedPlaylists := NoPlaylists;
      currentPlaylistKey := "";
      currentSongId := None;
      currentEntries := [];
      currentPlaylistSongs := [];
      transposeBySongId := map[];
      currentTransposition := 0;
      this.lastEdited := lastEdited;
    }

    /** The admin's guarded write of the current song and transposition to the live session. */
    method SyncLive(store: Store)
      modifies store`live
      ensures store.live == LiveAfter(State(), old(store.live))
    {
      if isAdmin && hasLiveRef && currentSongId.Some? && currentSongId.value in loadedSongs {
        var s := loadedSongs[currentSongId.value];
        store.Broadcast(LiveDoc(true, currentSongId.value, s.title, s.content, currentTransposition));
      }
    }

    /** loadSelectedSong, with the display's live write and the final one. */
    method LoadSelectedSong(store: Store, songId: Option<string>)
      requires Valid()
      modifies this, store`live
      ensures Valid()
      ensures (State(), store.State()) == LoadSong(old(State()), old(store.State()), songId)
    {
      ghost var v0 := State();
      ghost var live0 := store.live;
      if songId.Some? && songId.value in loadedSongs {
        var id := songId.value;
        currentTransposition := if id in transposeBySongId then transposeBySongId[id] else 0;
        assert State() == v0.(currentTransposition := SavedTranspose(v0, id));
        SyncLive(store);
        currentSongId := songId;
      } else {
        currentSongId := None;
      }
      assert State() == SelectSong(v0, songId);
      SyncLive(store);
      SelectSongLive(v0, songId, live0);
    }

    /** populatePlaylistsAndSongs, given the four query results. */
    method PopulatePlaylistsAndSongs(owned: seq<Row<PlaylistDoc>>, usr: seq<Row<SongDoc>>, pub: seq<Row<SongDoc>>, grants: seq<GrantDoc>)
      requires Valid()
      modifies this
      ensures Valid()
      ensures State() == Populate(old(State()), owned, usr, pub, grants)
    {
      if userId == "" {
        return;
      }
      var c := BuildPlaylists(userId, owned, grants);
      loadedPlaylists := c;
      currentPlaylistKey := SelectInitialKey(currentPlaylistKey, lastEdited, c);
      var m := BuildSongs(pub, usr);
      loadedSongs := m;
      PutSongsKeyed(map[], pub, PublicScope);
      PutSongsKeyed(PutSongs(map[], pub, PublicScope), usr, UserScope);
    }

    /** loadEntriesForCurrentPlaylist, given the rows of the ordered entries query. */
    method LoadEntriesForCurrentPlaylist(store: Store, snap: seq<Row<Entry>>)
      requires Valid()
      modifies this, store`live
      ensures Valid()
      ensures (State(), store.State()) == LoadEntries(old(State()), old(store.State()), snap)
    {
      transposeBySongId := map[];
      currentEntries := [];
      currentPlaylistSongs := [];
      if currentPlaylistKey == "" {
        currentSongId := None;
        return;
      }
      var ref := CurrentRef(State());
      if ref.owner == "" || ref.pid == "" {
        return;
      }
      ShowRows(store, snap);
    }

    /** The rows of the query, from the cleared lists. */
    method ShowRows(store: Store, snap: seq<Row<Entry>>)
      requires Valid()
      modifies this, store`live
      ensures Valid()
      ensures (State(), store.State()) == LoadRows(old(State()), old(store.State()), snap)
    {
      if snap == [] {
        currentSongId := None;
        return;
      }
      ResolveCurrentEntries(store, snap);
      PickAndLoadSong(store);
    }

    /** The collecting loop and the resolving loop over the query's rows. */
    method ResolveCurrentEntries(store: Store, snap: seq<Row<Entry>>)
      requires Valid()
      modifies this
      ensures Valid()
      ensures State() == Resolved(old(State()), store.State(), snap)
    {
      var ref := ParsePlKey(currentPlaylistKey, userId);
      var entries, tmap := CollectRows(snap);
      var ordered := SortByOrder(entries);
      var known, list := ResolveEntries(loadedSongs, ref.owner, userId, SongsOf(store.State(), ref.owner), ordered);
      ResolveKnows(loadedSongs, ref.owner, userId, SongsOf(store.State(), ref.owner), ordered);
      currentEntries := entries;
      transposeBySongId := tmap;
      loadedSongs := known;
      currentPlaylistSongs := list;
    }

    /** The end of the load: an empty list clears the song; else keep the current song if listed, or take the first, and load it. */
    method PickAndLoadSong(store: Store)
      requires Valid()
      modifies this, store`live
      ensures Valid()
      ensures (State(), store.State()) == PickAndLoad(old(store.State()), old(State()))
    {
      if currentPlaylistSongs == [] {
        currentSongId := None;
        return;
      }
      if !(currentSongId.Some? && HasSong(currentPlaylistSongs, currentSongId.value)) {
        currentSongId := Some(currentPlaylistSongs[0].id);
      }
      LoadSelectedSong(store, currentSongId);
    }

    /** saveCurrentEntryTranspose; `fails` is a failed entry write. */
    method SaveCurrentEntryTranspose(store: Store, fails: bool)
      requires Valid()
      modifies this, store
      ensures Valid()
      ensures (State(), store.State()) == SaveTranspose(old(State()), old(store.State()), fails)
    {
      if currentPlaylistKey == "" || currentSongId.None? {
        return;
      }
      if !CanWrite(State()) {
        return;
      }
      var ref := ParsePlKey(currentPlaylistKey, userId);
      if ref.owner == "" || ref.pid == "" || fails {
        return;
      }
      store.PutEntryTranspose(ref, currentSongId.value, currentTransposition);
      transposeBySongId := transposeBySongId[currentSongId.value := currentTransposition];
    }

    /** A transpose button: set the transposition, redisplay (with its live write), save. */
    method PressTranspose(store: Store, b: Button, fails: bool)
      requires Valid()
      modifies this, store
      ensures Valid()
      ensures (State(), store.State()) == Retranspose(old(State()), old(store.State()), b, fails)
    {
      match b {
        case Down => currentTransposition := currentTransposition - 1;
        case Up => currentTransposition := currentTransposition + 1;
        case Reset => currentTransposition := 0;
      }
      SyncLive(store);
      SaveCurrentEntryTranspose(store, fails);
    }

    /** _ls_importInboxItem: validate, dedupe on the composite key, link, select, consume. */
    method ImportLink(store: Store, msgId: string, l: LinkMsg, fx: Faults)
      requires Valid()
      modifies this, store
      ensures Valid()
      ensures (State(), store.State()) == LinkImport(old(State()), old(store.State()), msgId, l, fx)
    {
      var from := OrElse(l.fromUid, l.ownerUid);
      var pid := OrElse(l.playlistId, l.pid);
      if from == "" || pid == "" {
        store.ConsumeMessage(msgId, fx);
        return;
      }
      var key := MakePlKey(from, pid);
      if key in loadedPlaylists.entries {
        store.ConsumeMessage(msgId, fx);
        return;
      }
      loadedPlaylists := Put(loadedPlaylists, key, LinkRecord(l));
      lastEdited := key;
      currentPlaylistKey := key;
      store.ConsumeMessage(msgId, fx);
    }

    /** One pending message, handed to the importer of its flavour. */
    method ImportMessage(store: Store, msgId: string, p: Payload, fx: Faults)
      requires Valid() && store.Valid()
      modifies this, store
      ensures Valid() && store.Valid()
      ensures (State(), store.State()) == ImportStep(old(State()), old(store.State()), msgId, p, fx)
    {
      match p
      case Copy(m) =>
        var outcome := store.ImportCopy(userId, msgId, m, fx);
      case Link(l) =>
        ghost var db0 := store.State();
        ImportLink(store, msgId, l, fx);
        FreshSameSongs(db0, store.State());
    }

    /** processShareInboxOnce over the pending messages; a failing import does not stop the loop. */
    method ProcessInboxOnce(store: Store, docs: seq<Row<InboxDoc>>, faults: map<string, Faults>)
      requires Valid() && store.Valid()
      modifies this, store
      ensures Valid() && store.Valid()
      ensures (State(), store.State()) == Sweep(old(State()), old(store.State()), docs, faults)
    {
      ghost var v0 := State();
      ghost var db0 := store.State();
      var i := 0;
      while i < |docs|
        invariant 0 <= i <= |docs|
        invariant Valid() && store.Valid()
        invariant (State(), store.State()) == Sweep(v0, db0, docs[..i], faults)
      {
        SweepSnoc(v0, db0, docs, faults, i);
        ImportMessage(store, docs[i].id, docs[i].doc.payload, FaultsFor(faults, docs[i].id));
        i := i + 1;
      }
      assert docs[..i] == docs;
    }

    /** addCurrentLocalToPlaylist for the last local text. */
    method AddCurrentLocalToPlaylist(store: Store, localText: string)
      requires Valid() && store.Valid()
      modifies this, store
      ensures Valid() && store.Valid()
      ensures (State(), store.State()) == AddLocal(old(State()), old(store.State()), localText)
    {
      if userId == "" || currentPlaylistKey == "" {
        return;
      }
      var ref := ParsePlKey(currentPlaylistKey, userId);
      if ref.owner != userId {
        return;
      }
      var text := Trim(localText);
      if text == "" {
        return;
      }
      AddSongDoc(store, LocalDoc(localText, userId));
    }

    /** Steps 1-4 of addCurrentLocalToPlaylist for a song document: add, cache, append, list, select. */
    method AddSongDoc(store: Store, doc: SongDoc)
      requires Valid() && store.Valid()
      requires doc.content.Some?
      modifies this, store
      ensures Valid() && store.Valid()
      ensures (State(), store.State()) == AddSongTo(old(State()), old(store.State()), doc)
    {
      var ref := ParsePlKey(currentPlaylistKey, userId);
      AddSongKeepsFresh(store.State(), userId, doc);
      var id := store.Add(userId, doc);
      loadedSongs := loadedSongs[id := CatalogSong(id, doc.title, doc.content.value, UserScope)];
      if ref.pid != "" {
        AppendSongEntry(store, id);
      }
    }

    /** Steps 2-4: append the entry after the largest order, list the song in the legacy array, select it. */
    method AppendSongEntry(store: Store, id: string)
      requires Valid() && store.Valid()
      modifies this, store
      ensures Valid() && store.Valid()
      ensures (State(), store.State()) == AppendSong(old(State()), old(store.State()), id)
    {
      RecordAppend(store, id);
      ghost var db2 := store.State();
      LoadSelectedSong(store, Some(id));
      FreshSameSongs(db2, store.State());
    }

    /** The writes of an append: the entry after the last one, the legacy array, the new current song. */
    method RecordAppend(store: Store, id: string)
      requires Valid() && store.Valid()
      modifies this, store
      ensures Valid() && store.Valid()
      ensures var ref := CurrentRef(old(State()));
              var next := MaxOrder(old(currentEntries)) + 10;
              && store.State() == AddToLegacy(SetEntry(old(store.State()), ref, id, Entry(Some(next), 0)), userId, ref.pid, id)
              && State() == old(State()).(currentEntries := old(currentEntries) + [CurEntry(id, next, 0)], currentSongId := Some(id))
    {
      var ref := ParsePlKey(currentPlaylistKey, userId);
      var next := NextOrder(currentEntries);
      store.AppendEntry(ref, userId, id, Entry(Some(next), 0));
      currentEntries, currentSongId := currentEntries + [CurEntry(id, next, 0)], Some(id);
    }

    /** goPrevNextSong: one step through the loaded playlist, wrapping around. */
    method GoPrevNextSong(store: Store, next: bool)
      requires Valid()
      modifies this, store`live
      ensures Valid()
      ensures (State(), store.State()) == GoPrevNext(old(State()), old(store.State()), next)
    {
      if currentPlaylistSongs == [] {
        return;
      }
      var idx := IndexOfSong(currentPlaylistSongs, currentSongId);
      var newIdx := NextIndex(idx, |currentPlaylistSongs|, next);
      LoadSelectedSong(store, Some(currentPlaylistSongs[newIdx].id));
    }
  }
}
