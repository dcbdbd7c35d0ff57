/**
 * The database as the playlist layer sees it (index.js:290-330): per-user
 * song libraries and playlist sets, the entries of each (owner, playlist)
 * keyed by song id, the signed-in user's share inbox and the live-session
 * document. `Db` is its value; `Store` holds it in mutable fields.
 *
 * Auto-generated document ids (`collection.add`) are drawn from a counter:
 * `AutoId(nextId)` is never in use, so every added song is new.
 */
module Storage {

  import opened Common
  import opened Keys
  import opened Text
  import opened Docs

  datatype Db = Db(
    songs: map<string, map<string, SongDoc>>,
    playlists: map<string, map<string, PlaylistDoc>>,
    entries: map<PlRef, map<string, Entry>>,
    inbox: map<string, InboxDoc>,
    live: Option<LiveDoc>,
    nextId: nat)

  function SongsOf(db: Db, uid: string): map<string, SongDoc>
  {
    if uid in db.songs then db.songs[uid] else map[]
  }

  function PlaylistsOf(db: Db, uid: string): map<string, PlaylistDoc>
  {
    if uid in db.playlists then db.playlists[uid] else map[]
  }

  function EntriesOf(db: Db, r: PlRef): map<string, Entry>
  {
    if r in db.entries then db.entries[r] else map[]
  }

  /** A message the `processed == false` query returns. */
  predicate Pending(db: Db, msgId: string)
  {
    msgId in db.inbox && !db.inbox[msgId].processed
  }

  function Digit(d: nat): char
    requires d < 10
  {
    "0123456789"[d]
  }

  function Decimal(n: nat): (s: string)
    ensures |s| >= 1
    ensures n >= 10 ==> |s| >= 2
  {
    if n < 10 then [Digit(n)] else Decimal(n / 10) + [Digit(n % 10)]
  }

  /** The id `add` gives the n-th document it creates. */
  function AutoId(n: nat): string
  {
    "auto-" + Decimal(n)
  }

  lemma {:induction false} DecimalInjective(a: nat, b: nat)
    requires Decimal(a) == Decimal(b)
    ensures a == b
  {
    if a >= 10 && b >= 10 {
      var da, db := Decimal(a), Decimal(b);
      assert da[..|da| - 1] == Decimal(a / 10);
      assert db[..|db| - 1] == Decimal(b / 10);
      DecimalInjective(a / 10, b / 10);
      assert Digit(a % 10) == Digit(b % 10);
    }
  }

  lemma AutoIdInjective(a: nat, b: nat)
    requires AutoId(a) == AutoId(b)
    ensures a == b
  {
    assert AutoId(a)[5..] == Decimal(a);
    assert AutoId(b)[5..] == Decimal(b);
    DecimalInjective(a, b);
  }

  /** No id the counter will hand out is in use yet. */
  ghost predicate IdsFresh(db: Db)
  {
    forall u, n: nat :: n >= db.nextId ==> AutoId(n) !in SongsOf(db, u)
  }

  /** Freshness depends on the song libraries and the counter only. */
  lemma FreshSameSongs(a: Db, b: Db)
    requires IdsFresh(a) && a.songs == b.songs && a.nextId == b.nextId
    ensures IdsFresh(b)
  {
    assert forall u :: SongsOf(a, u) == SongsOf(b, u);
  }

  lemma SameSongs(a: Db, b: Db)
    requires a.songs == b.songs
    ensures forall u :: SongsOf(a, u) == SongsOf(b, u)
  {
  }

  /** `add` of a song document to a user's library. */
  function AddSong(db: Db, uid: string, doc: SongDoc): (r: Db)
  {
    db.(songs := db.songs[uid := SongsOf(db, uid)[AutoId(db.nextId) := doc]], nextId := db.nextId + 1)
  }

  /** An added song takes an id nobody uses, and every later id stays unused. */
  lemma AddSongKeepsFresh(db: Db, uid: string, doc: SongDoc)
    requires IdsFresh(db)
    ensures AutoId(db.nextId) !in SongsOf(db, uid)
    ensures IdsFresh(AddSong(db, uid, doc))
  {
    var r := AddSong(db, uid, doc);
    forall u, n: nat | n >= r.nextId ensures AutoId(n) !in SongsOf(r, u) {
      if AutoId(n) == AutoId(db.nextId) { AutoIdInjective(n, db.nextId); }
      assert SongsOf(r, u) == if u == uid then SongsOf(db, uid)[AutoId(db.nextId) := doc] else SongsOf(db, u);
    }
  }

  /** `set({order, transpose}, {merge: true})` on an entry. */
  function SetEntry(db: Db, r: PlRef, songId: string, e: Entry): Db
  {
    db.(entries := db.entries[r := EntriesOf(db, r)[songId := e]])
  }

  /** `set({transpose}, {merge: true})`: an absent entry is created without an order. */
  function SetEntryTranspose(db: Db, r: PlRef, songId: string, t: int): Db
  {
    var es := EntriesOf(db, r);
    var order := if songId in es then es[songId].order else None;
    SetEntry(db, r, songId, Entry(order, t))
  }

  /** Deleting an entry; deleting a missing document is not an error. */
  function DeleteEntry(db: Db, r: PlRef, songId: string): Db
  {
    if r in db.entries then db.(entries := db.entries[r := db.entries[r] - {songId}]) else db
  }

  /**
   * What can go wrong in one import: the writes of item `failAtItem` (its
   * song write, or with `afterSong` only its entry write after the song was
   * added), the delete, the fallback.
   */
  datatype Faults = Faults(failAtItem: Option<nat>, afterSong: bool, deleteFails: bool, markFails: bool)

  const NoFaults := Faults(None, false, false, false)

  /**
   * Consuming a message: delete it; if that fails mark it `processed: true`;
   * if that fails too it stays as it was.
   */
  function Consume(db: Db, msgId: string, fx: Faults): (r: Db)
    ensures r.songs == db.songs && r.playlists == db.playlists && r.entries == db.entries
    ensures r.live == db.live && r.nextId == db.nextId
    ensures !fx.deleteFails || !fx.markFails ==> !Pending(r, msgId)
    ensures forall id :: id != msgId ==> (id in r.inbox <==> id in db.inbox)
    ensures forall id :: id != msgId && id in r.inbox ==> r.inbox[id] == db.inbox[id]
  {
    if !fx.deleteFails then db.(inbox := db.inbox - {msgId})
    else if !fx.markFails && msgId in db.inbox then db.(inbox := db.inbox[msgId := db.inbox[msgId].(processed := true)])
    else db
  }

  datatype Outcome = Imported | Duplicate | Invalid | Failed

  /** The deterministic target playlist of a copy message: `shared-<msgId>`. */
  function SharedTarget(msgId: string): string
  {
    "shared-" + msgId
  }

  /** `(playlistName || 'Shared').toString().trim() || 'Shared'`. */
  function BaseName(m: CopyMsg): (name: string)
    ensures name != ""
  {
    OrElse(Trim(OrElse(m.playlistName, "Shared")), "Shared")
  }

  /** The name is the trimmed `playlistName`, or `Shared` when that is blank or missing. */
  lemma BaseNameDefault(m: CopyMsg)
    ensures Trim(m.playlistName) != "" ==> BaseName(m) == Trim(m.playlistName)
    ensures Trim(m.playlistName) == "" ==> BaseName(m) == "Shared"
  {
    if m.playlistName == "" {
      TrimNoSpace("Shared");
    }
  }

  /** The playlist a copy message creates, merged over any existing document. */
  function SharedPlaylistDoc(m: CopyMsg, existing: Option<PlaylistDoc>): PlaylistDoc
  {
    var songs := if existing.Some? then existing.value.songs else None;
    PlaylistDoc(BaseName(m), m.notes.GetOr(""), Some(Provenance(m.fromUid, m.fromEmail, m.fromDisplayName)), true, songs)
  }

  /** The song created for one item: owned by the recipient, marked as shared-in. */
  function ItemSong(uid: string, m: CopyMsg, it: Item): SongDoc
  {
    SongDoc(OrElse(it.title, "Untitled"), Some(it.content.GetOr("")), uid, "inboxShared", m.fromUid)
  }

  /** Item i's entry: order 10 * (i + 1), the item's numeric transpose or 0. */
  function ItemEntry(it: Item, i: nat): Entry
  {
    Entry(Some(10 * (i + 1)), it.transpose.GetOr(0))
  }

  /** Item i of a copy message: a new song of `uid`, then its entry in `target`. */
  function AddItem(db: Db, uid: string, target: string, m: CopyMsg, it: Item, i: nat): (r: Db)
    ensures r.nextId == db.nextId + 1
    ensures r.inbox == db.inbox && r.playlists == db.playlists && r.live == db.live
  {
    SetEntry(AddSong(db, uid, ItemSong(uid, m, it)), PlRef(uid, target), AutoId(db.nextId), ItemEntry(it, i))
  }

  /** What one item writes: one song of `uid` and one entry of `target`, both under the counter's id. */
  lemma AddItemEffect(db: Db, uid: string, target: string, m: CopyMsg, it: Item, i: nat)
    ensures var r := AddItem(db, uid, target, m, it, i);
            && SongsOf(r, uid) == SongsOf(db, uid)[AutoId(db.nextId) := ItemSong(uid, m, it)]
            && (forall u :: u != uid ==> SongsOf(r, u) == SongsOf(db, u))
            && EntriesOf(r, PlRef(uid, target)) == EntriesOf(db, PlRef(uid, target))[AutoId(db.nextId) := ItemEntry(it, i)]
            && (forall p: PlRef :: p != PlRef(uid, target) ==> EntriesOf(r, p) == EntriesOf(db, p))
  {
  }

  /** One song and one entry per item, in item order. */
  function AddItems(db: Db, uid: string, target: string, m: CopyMsg, items: seq<Item>): (r: Db)
    ensures r.nextId == db.nextId + |items|
    ensures r.inbox == db.inbox && r.playlists == db.playlists && r.live == db.live
  {
    if items == [] then db
    else
      var n := |items| - 1;
      AddItem(AddItems(db, uid, target, m, items[..n]), uid, target, m, items[n], n)
  }

  /** The merge-write of the shared playlist document into `uid`'s collection. */
  function CreateShared(db: Db, uid: string, target: string, m: CopyMsg): (r: Db)
    ensures r.songs == db.songs && r.entries == db.entries && r.inbox == db.inbox && r.nextId == db.nextId
    ensures target in PlaylistsOf(r, uid) && PlaylistsOf(r, uid)[target] == SharedPlaylistDoc(m, None)
  {
    db.(playlists := db.playlists[uid := PlaylistsOf(db, uid)[target := SharedPlaylistDoc(m, None)]])
  }

  /**
   * The item writes of a loop that throws at item k: the items before k,
   * and item k's song when only its entry write threw.
   */
  function PartialItems(db: Db, uid: string, target: string, m: CopyMsg, items: seq<Item>, k: nat, afterSong: bool): (r: Db)
    requires k < |items|
    ensures r.inbox == db.inbox && r.playlists == db.playlists && r.live == db.live
    ensures r.nextId == db.nextId + k + (if afterSong then 1 else 0)
  {
    var p := AddItems(db, uid, target, m, items[..k]);
    if afterSong then AddSong(p, uid, ItemSong(uid, m, items[k])) else p
  }

  /** The items of a copy message; anything but an array counts as none. */
  function ItemsOf(m: CopyMsg): seq<Item>
  {
    m.items.GetOr([])
  }

  /**
   * importInboxItem (index.js:351-432) for a copy message `m` with id
   * `msgId`, received by `uid`. Writes stop at the first failing item; the
   * message is then left for a later sweep.
   */
  function CopyImport(db: Db, uid: string, msgId: string, m: CopyMsg, fx: Faults): (r: (Db, Outcome))
    ensures r.0.playlists == db.playlists || r.0.playlists == CreateShared(db, uid, SharedTarget(msgId), m).playlists
  {
    var target := SharedTarget(msgId);
    var items := ItemsOf(m);
    if uid == "" then (db, Failed)
    else if target in PlaylistsOf(db, uid) then (Consume(db, msgId, fx), Duplicate)
    else if items == [] then (Consume(db, msgId, fx), Invalid)
    else
      if fx.failAtItem.Some? && fx.failAtItem.value < |items| then
        (PartialItems(CreateShared(db, uid, target, m), uid, target, m, items, fx.failAtItem.value, fx.afterSong), Failed)
      else
        (ImportedDb(db, uid, msgId, m, fx), Imported)
  }

  /**
   * A copy import that got as far as creating the playlist leaves it behind:
   * an import that succeeded, was a duplicate, or failed after the playlist
   * write.
   */
  lemma CopyImportLeavesTarget(db: Db, uid: string, msgId: string, m: CopyMsg, fx: Faults)
    requires CopyImport(db, uid, msgId, m, fx).1 != Invalid
    requires uid != ""
    ensures SharedTarget(msgId) in PlaylistsOf(CopyImport(db, uid, msgId, m, fx).0, uid)
  {
  }

  /**
   * Idempotence under repeated delivery: once a copy message has been
   * imported (completely, or partly before a failure), delivering it again
   * is a duplicate that only consumes the message. In particular a retry
   * does not add the items a failed import left out.
   */
  lemma CopyImportIdempotent(db: Db, uid: string, msgId: string, m: CopyMsg, fx1: Faults, fx2: Faults)
    requires uid != ""
    requires CopyImport(db, uid, msgId, m, fx1).1 != Invalid
    ensures var db1 := CopyImport(db, uid, msgId, m, fx1).0;
            CopyImport(db1, uid, msgId, m, fx2) == (Consume(db1, msgId, fx2), Duplicate)
  {
    CopyImportLeavesTarget(db, uid, msgId, m, fx1);
  }

  /** An empty (or non-array) item list writes nothing but consumes the message. */
  lemma CopyImportEmpty(db: Db, uid: string, msgId: string, m: CopyMsg, fx: Faults)
    requires uid != "" && ItemsOf(m) == []
    requires SharedTarget(msgId) !in PlaylistsOf(db, uid)
    ensures CopyImport(db, uid, msgId, m, fx) == (Consume(db, msgId, fx), Invalid)
  {
  }

  /** Every playlist document of `a` is still there in `b`. */
  ghost predicate KeepsPlaylists(a: Db, b: Db)
  {
    forall u, pid :: pid in PlaylistsOf(a, u) ==> pid in PlaylistsOf(b, u)
  }

  /** A copy import never removes a playlist document: every playlist of every user survives it. */
  lemma CopyImportKeepsPlaylists(db: Db, uid: string, msgId: string, m: CopyMsg, fx: Faults)
    ensures KeepsPlaylists(db, CopyImport(db, uid, msgId, m, fx).0)
  {
    var created := CreateShared(db, uid, SharedTarget(msgId), m);
    var r := CopyImport(db, uid, msgId, m, fx).0;
    if r.playlists == db.playlists {
      KeepsSamePlaylists(db, db, r);
    } else {
      KeepsSamePlaylists(db, created, r);
    }
  }

  /** KeepsPlaylists looks at the playlist documents only; CreateShared keeps them all. */
  lemma KeepsSamePlaylists(a: Db, b: Db, c: Db)
    requires b == a || exists uid, target, m :: b == CreateShared(a, uid, target, m)
    requires c.playlists == b.playlists
    ensures KeepsPlaylists(a, c)
  {
    forall u, pid | pid in PlaylistsOf(a, u) ensures pid in PlaylistsOf(c, u) {
      assert PlaylistsOf(c, u) == PlaylistsOf(b, u);
      if b != a {
        var uid, target, m :| b == CreateShared(a, uid, target, m);
      }
    }
  }

  /** The id the i-th item of a batch receives when the counter starts at `start`. */
  function ItemId(start: nat, i: nat): string
  {
    AutoId(start + i)
  }

  lemma ItemIdsDistinct(start: nat, i: nat, j: nat)
    requires i != j
    ensures ItemId(start, i) != ItemId(start, j)
  {
    if ItemId(start, i) == ItemId(start, j) { AutoIdInjective(start + i, start + j); }
  }

  /** `id` is one of the n ids handed out from `start` on. */
  ghost predicate IsNewId(start: nat, n: nat, id: string)
  {
    exists i :: 0 <= i < n && id == ItemId(start, i)
  }

  /** Adding a copy item keeps every later id unused. */
  lemma AddItemKeepsFresh(db: Db, uid: string, target: string, m: CopyMsg, it: Item, i: nat)
    requires IdsFresh(db)
    ensures IdsFresh(AddItem(db, uid, target, m, it, i))
  {
    var r := AddItem(db, uid, target, m, it, i);
    AddItemEffect(db, uid, target, m, it, i);
    forall u, n: nat | n >= r.nextId ensures AutoId(n) !in SongsOf(r, u) {
      if AutoId(n) == AutoId(db.nextId) { AutoIdInjective(n, db.nextId); }
    }
  }

  lemma {:induction false} AddItemsKeepsFresh(db: Db, uid: string, target: string, m: CopyMsg, items: seq<Item>)
    requires IdsFresh(db)
    ensures IdsFresh(AddItems(db, uid, target, m, items))
    decreases |items|
  {
    if items != [] {
      var n := |items| - 1;
      AddItemsKeepsFresh(db, uid, target, m, items[..n]);
      AddItemKeepsFresh(AddItems(db, uid, target, m, items[..n]), uid, target, m, items[n], n);
    }
  }

  /** Item i became song ItemId(nextId, i) of the recipient, carrying the item's title and text. */
  lemma {:induction false} AddItemsSongs(db: Db, uid: string, target: string, m: CopyMsg, items: seq<Item>)
    ensures var r := AddItems(db, uid, target, m, items);
            forall i :: 0 <= i < |items| ==>
              (ItemId(db.nextId, i) in SongsOf(r, uid)
               && SongsOf(r, uid)[ItemId(db.nextId, i)] == ItemSong(uid, m, items[i]))
    decreases |items|
  {
    if items != [] {
      var n := |items| - 1;
      var d := AddItems(db, uid, target, m, items[..n]);
      var r := AddItem(d, uid, target, m, items[n], n);
      AddItemEffect(d, uid, target, m, items[n], n);
      assert AddItems(db, uid, target, m, items) == r;
      assert AutoId(d.nextId) == ItemId(db.nextId, n);
      AddItemsSongs(db, uid, target, m, items[..n]);
      forall i | 0 <= i < |items|
        ensures ItemId(db.nextId, i) in SongsOf(r, uid) && SongsOf(r, uid)[ItemId(db.nextId, i)] == ItemSong(uid, m, items[i])
      {
        if i < n {
          assert items[..n][i] == items[i];
          ItemIdsDistinct(db.nextId, i, n);
        }
      }
    }
  }

  /** Item i's entry in the target playlist has order 10 * (i + 1) and the item's transpose. */
  lemma {:induction false} AddItemsEntries(db: Db, uid: string, target: string, m: CopyMsg, items: seq<Item>)
    ensures var r := AddItems(db, uid, target, m, items);
            forall i :: 0 <= i < |items| ==>
              (ItemId(db.nextId, i) in EntriesOf(r, PlRef(uid, target))
               && EntriesOf(r, PlRef(uid, target))[ItemId(db.nextId, i)] == ItemEntry(items[i], i))
    decreases |items|
  {
    if items != [] {
      var n := |items| - 1;
      var d := AddItems(db, uid, target, m, items[..n]);
      var r := AddItem(d, uid, target, m, items[n], n);
      AddItemEffect(d, uid, target, m, items[n], n);
      assert AddItems(db, uid, target, m, items) == r;
      assert AutoId(d.nextId) == ItemId(db.nextId, n);
      AddItemsEntries(db, uid, target, m, items[..n]);
      forall i | 0 <= i < |items|
        ensures ItemId(db.nextId, i) in EntriesOf(r, PlRef(uid, target)) && EntriesOf(r, PlRef(uid, target))[ItemId(db.nextId, i)] == ItemEntry(items[i], i)
      {
        if i < n {
          assert items[..n][i] == items[i];
          ItemIdsDistinct(db.nextId, i, n);
        }
      }
    }
  }

  /** Other users' libraries and other playlists' entries are not written. */
  lemma {:induction false} AddItemsOthers(db: Db, uid: string, target: string, m: CopyMsg, items: seq<Item>)
    ensures var r := AddItems(db, uid, target, m, items);
            forall u :: u != uid ==> SongsOf(r, u) == SongsOf(db, u)
    ensures var r := AddItems(db, uid, target, m, items);
            forall p: PlRef :: p != PlRef(uid, target) ==> EntriesOf(r, p) == EntriesOf(db, p)
    decreases |items|
  {
    if items != [] {
      var n := |items| - 1;
      AddItemsOthers(db, uid, target, m, items[..n]);
      AddItemEffect(AddItems(db, uid, target, m, items[..n]), uid, target, m, items[n], n);
    }
  }

  /**
   * The recipient's existing songs keep their documents (the new ids are
   * fresh), and every song that was not there is one of the n new ids.
   */
  lemma AddItemsOwn(db: Db, uid: string, target: string, m: CopyMsg, items: seq<Item>)
    requires IdsFresh(db)
    ensures var r := AddItems(db, uid, target, m, items);
            forall id :: id in SongsOf(db, uid) ==> (id in SongsOf(r, uid) && SongsOf(r, uid)[id] == SongsOf(db, uid)[id])
    ensures var r := AddItems(db, uid, target, m, items);
            forall id :: id in SongsOf(r, uid) && id !in SongsOf(db, uid) ==> IsNewId(db.nextId, |items|, id)
  {
    AddItemsKeepsOld(db, uid, target, m, items);
    AddItemsNewIds(db, uid, target, m, items);
  }

  lemma {:induction false} AddItemsKeepsOld(db: Db, uid: string, target: string, m: CopyMsg, items: seq<Item>)
    requires IdsFresh(db)
    ensures var r := AddItems(db, uid, target, m, items);
            forall id :: id in SongsOf(db, uid) ==> (id in SongsOf(r, uid) && SongsOf(r, uid)[id] == SongsOf(db, uid)[id])
    decreases |items|
  {
    if items != [] {
      var n := |items| - 1;
      var d := AddItems(db, uid, target, m, items[..n]);
      AddItemsKeepsOld(db, uid, target, m, items[..n]);
      AddItemsKeepsFresh(db, uid, target, m, items[..n]);
      AddItemEffect(d, uid, target, m, items[n], n);
      assert AutoId(d.nextId) !in SongsOf(d, uid);
    }
  }

  lemma {:induction false} AddItemsNewIds(db: Db, uid: string, target: string, m: CopyMsg, items: seq<Item>)
    ensures var r := AddItems(db, uid, target, m, items);
            forall id :: id in SongsOf(r, uid) && id !in SongsOf(db, uid) ==> IsNewId(db.nextId, |items|, id)
    decreases |items|
  {
    if items != [] {
      var n := |items| - 1;
      var d := AddItems(db, uid, target, m, items[..n]);
      AddItemsNewIds(db, uid, target, m, items[..n]);
      AddItemEffect(d, uid, target, m, items[n], n);
      assert AutoId(d.nextId) == ItemId(db.nextId, n);
      forall id | IsNewId(db.nextId, n, id) ensures IsNewId(db.nextId, n + 1, id) {
        var i :| 0 <= i < n && id == ItemId(db.nextId, i);
      }
    }
  }

  /** The item list grows one item at a time. */
  lemma AddItemsSnoc(db: Db, uid: string, target: string, m: CopyMsg, items: seq<Item>, i: nat)
    requires i < |items|
    ensures AddItems(db, uid, target, m, items[..i + 1])
            == AddItem(AddItems(db, uid, target, m, items[..i]), uid, target, m, items[i], i)
  {
    assert items[..i + 1][..i] == items[..i];
  }

  /** The writes of a loop that threw keep the counter's later ids unused. */
  lemma PartialItemsKeepsFresh(db: Db, uid: string, target: string, m: CopyMsg, items: seq<Item>, k: nat, afterSong: bool)
    requires IdsFresh(db) && k < |items|
    ensures IdsFresh(PartialItems(db, uid, target, m, items, k, afterSong))
  {
    AddItemsKeepsFresh(db, uid, target, m, items[..k]);
    if afterSong {
      AddSongKeepsFresh(AddItems(db, uid, target, m, items[..k]), uid, ItemSong(uid, m, items[k]));
    }
  }

  /**
   * When item k's entry write throws after its song write, the import
   * leaves behind a song of the recipient under the id ItemId(db.nextId, k)
   * with no entry written for it, and a later delivery of the message only
   * consumes it: the song is never added to the playlist.
   */
  lemma CopyImportOrphanSong(db: Db, uid: string, msgId: string, m: CopyMsg, fx: Faults, fx2: Faults)
    requires uid != "" && SharedTarget(msgId) !in PlaylistsOf(db, uid)
    requires fx.failAtItem.Some? && fx.failAtItem.value < |ItemsOf(m)| && fx.afterSong
    ensures var k := fx.failAtItem.value;
            var target := SharedTarget(msgId);
            var p := AddItems(CreateShared(db, uid, target, m), uid, target, m, ItemsOf(m)[..k]);
            var (r, outcome) := CopyImport(db, uid, msgId, m, fx);
            && outcome == Failed
            && p.nextId == db.nextId + k
            && SongsOf(r, uid) == SongsOf(p, uid)[ItemId(db.nextId, k) := ItemSong(uid, m, ItemsOf(m)[k])]
            && r.entries == p.entries
            && CopyImport(r, uid, msgId, m, fx2) == (Consume(r, msgId, fx2), Duplicate)
  {
    CopyImportIdempotent(db, uid, msgId, m, fx, fx2);
  }

  /** The state after a complete copy import: playlist, items, then the message consumed. */
  function ImportedDb(db: Db, uid: string, msgId: string, m: CopyMsg, fx: Faults): Db
  {
    var target := SharedTarget(msgId);
    Consume(AddItems(CreateShared(db, uid, target, m), uid, target, m, ItemsOf(m)), msgId, fx)
  }

  /**
   * A complete copy import of n items: the playlist `shared-<msgId>` exists
   * with the message's name, and items i < n became n new songs of the
   * recipient with entries ordered 10, 20, ..., 10 * n; the message is
   * consumed.
   */
  lemma CopyImportContents(db: Db, uid: string, msgId: string, m: CopyMsg, fx: Faults, r: Db)
    requires IdsFresh(db)
    requires CopyImport(db, uid, msgId, m, fx) == (r, Imported)
    ensures SharedTarget(msgId) in PlaylistsOf(r, uid)
    ensures PlaylistsOf(r, uid)[SharedTarget(msgId)].name == BaseName(m)
    ensures PlaylistsOf(r, uid)[SharedTarget(msgId)].createdByShare
    ensures r.nextId == db.nextId + |ItemsOf(m)|
    ensures !fx.deleteFails || !fx.markFails ==> !Pending(r, msgId)
    ensures forall i :: 0 <= i < |ItemsOf(m)| ==>
              (ItemId(db.nextId, i) !in SongsOf(db, uid)
               && ItemId(db.nextId, i) in SongsOf(r, uid)
               && SongsOf(r, uid)[ItemId(db.nextId, i)] == ItemSong(uid, m, ItemsOf(m)[i]))
    ensures forall i :: 0 <= i < |ItemsOf(m)| ==>
              (ItemId(db.nextId, i) in EntriesOf(r, PlRef(uid, SharedTarget(msgId)))
               && EntriesOf(r, PlRef(uid, SharedTarget(msgId)))[ItemId(db.nextId, i)].order == Some(10 * (i + 1)))
  {
    assert r == ImportedDb(db, uid, msgId, m, fx);
    ImportedSongs(db, uid, msgId, m, fx);
    ImportedEntries(db, uid, msgId, m, fx);
  }

  /** The songs part of a complete copy import. */
  lemma ImportedSongs(db: Db, uid: string, msgId: string, m: CopyMsg, fx: Faults)
    requires IdsFresh(db)
    ensures var r := ImportedDb(db, uid, msgId, m, fx);
            forall i :: 0 <= i < |ItemsOf(m)| ==>
              (ItemId(db.nextId, i) !in SongsOf(db, uid)
               && ItemId(db.nextId, i) in SongsOf(r, uid)
               && SongsOf(r, uid)[ItemId(db.nextId, i)] == ItemSong(uid, m, ItemsOf(m)[i]))
  {
    var target := SharedTarget(msgId);
    var created := CreateShared(db, uid, target, m);
    var added := AddItems(created, uid, target, m, ItemsOf(m));
    SameSongs(ImportedDb(db, uid, msgId, m, fx), added);
    SameSongs(created, db);
    forall i | 0 <= i < |ItemsOf(m)| ensures ItemId(db.nextId, i) !in SongsOf(db, uid) {
      assert AutoId(db.nextId + i) !in SongsOf(db, uid);
    }
    AddItemsSongs(created, uid, target, m, ItemsOf(m));
  }

  /** The entries part of a complete copy import. */
  lemma ImportedEntries(db: Db, uid: string, msgId: string, m: CopyMsg, fx: Faults)
    ensures var r := ImportedDb(db, uid, msgId, m, fx);
            forall i :: 0 <= i < |ItemsOf(m)| ==>
              (ItemId(db.nextId, i) in EntriesOf(r, PlRef(uid, SharedTarget(msgId)))
               && EntriesOf(r, PlRef(uid, SharedTarget(msgId)))[ItemId(db.nextId, i)].order == Some(10 * (i + 1)))
  {
    var target := SharedTarget(msgId);
    var created := CreateShared(db, uid, target, m);
    AddItemsEntries(created, uid, target, m, ItemsOf(m));
  }

  /** The songs a copy import adds are exactly the n fresh ones; old songs keep their documents. */
  lemma CopyImportAddsOnly(db: Db, uid: string, msgId: string, m: CopyMsg, fx: Faults, r: Db)
    requires IdsFresh(db)
    requires CopyImport(db, uid, msgId, m, fx) == (r, Imported)
    ensures forall u :: u != uid ==> SongsOf(r, u) == SongsOf(db, u)
    ensures forall id :: id in SongsOf(db, uid) ==> (id in SongsOf(r, uid) && SongsOf(r, uid)[id] == SongsOf(db, uid)[id])
    ensures forall id :: id in SongsOf(r, uid) && id !in SongsOf(db, uid) ==> IsNewId(db.nextId, |ItemsOf(m)|, id)
  {
    var target := SharedTarget(msgId);
    var created := CreateShared(db, uid, target, m);
    var added := AddItems(created, uid, target, m, ItemsOf(m));
    assert r == Consume(added, msgId, fx);
    FreshSameSongs(db, created);
    SameSongs(created, db);
    SameSongs(r, added);
    AddItemsOthers(created, uid, target, m, ItemsOf(m));
    AddItemsOwn(created, uid, target, m, ItemsOf(m));
  }

  /**
   * `set({songs: arrayUnion(songId)}, {merge: true})` on playlist `pid` of
   * `uid`: the id is appended unless the array lists it already; a missing
   * document or a missing array is created holding just the id.
   */
  function AddToLegacy(db: Db, uid: string, pid: string, songId: string): (r: Db)
    ensures r.songs == db.songs && r.entries == db.entries && r.inbox == db.inbox
    ensures r.live == db.live && r.nextId == db.nextId
  {
    var own := PlaylistsOf(db, uid);
    var doc := if pid in own then own[pid] else PlaylistDoc("", "", None, false, None);
    var listed := doc.songs.GetOr([]);
    var songs := if songId in listed then listed else listed + [songId];
    db.(playlists := db.playlists[uid := own[pid := doc.(songs := Some(songs))]])
  }

  /**
   * arrayUnion is a set union that keeps the array's order: afterwards the
   * array lists the id, keeps every id it listed before, in place, and
   * gains nothing else; the rest of the document and every other playlist
   * is unchanged. A second union of the same id changes nothing.
   */
  lemma AddToLegacyUnion(db: Db, uid: string, pid: string, songId: string)
    ensures var r := AddToLegacy(db, uid, pid, songId);
            var before := if pid in PlaylistsOf(db, uid) then PlaylistsOf(db, uid)[pid].songs.GetOr([]) else [];
            && pid in PlaylistsOf(r, uid)
            && PlaylistsOf(r, uid)[pid].songs.Some?
            && var after := PlaylistsOf(r, uid)[pid].songs.value;
            && songId in after
            && |before| <= |after| && after[..|before|] == before
            && (forall x :: x in after <==> x in before || x == songId)
            && (pid in PlaylistsOf(db, uid) ==> PlaylistsOf(r, uid)[pid].(songs := PlaylistsOf(db, uid)[pid].songs) == PlaylistsOf(db, uid)[pid])
            && (forall q :: q != pid && q in PlaylistsOf(db, uid) ==> q in PlaylistsOf(r, uid) && PlaylistsOf(r, uid)[q] == PlaylistsOf(db, uid)[q])
            && (forall u :: u != uid ==> PlaylistsOf(r, u) == PlaylistsOf(db, u))
            && AddToLegacy(r, uid, pid, songId) == r
  {
    AddToLegacyArray(db, uid, pid, songId);
    AddToLegacyFrame(db, uid, pid, songId);
    AddToLegacyTwice(db, uid, pid, songId);
  }

  /** The array after the union: the old one, plus the id at the end when it was missing. */
  lemma AddToLegacyArray(db: Db, uid: string, pid: string, songId: string)
    ensures var r := AddToLegacy(db, uid, pid, songId);
            var before := if pid in PlaylistsOf(db, uid) then PlaylistsOf(db, uid)[pid].songs.GetOr([]) else [];
            && pid in PlaylistsOf(r, uid)
            && PlaylistsOf(r, uid)[pid].songs.Some?
            && var after := PlaylistsOf(r, uid)[pid].songs.value;
            && songId in after
            && |before| <= |after| && after[..|before|] == before
            && (forall x :: x in after <==> x in before || x == songId)
  {
    var own := PlaylistsOf(db, uid);
    var doc := if pid in own then own[pid] else PlaylistDoc("", "", None, false, None);
    var listed := doc.songs.GetOr([]);
    var songs := if songId in listed then listed else listed + [songId];
    assert PlaylistsOf(AddToLegacy(db, uid, pid, songId), uid)[pid].songs == Some(songs);
    assert songs[..|listed|] == listed;
  }

  /** Only the `songs` field of playlist `pid` of `uid` changes. */
  lemma AddToLegacyFrame(db: Db, uid: string, pid: string, songId: string)
    ensures var r := AddToLegacy(db, uid, pid, songId);
            && (pid in PlaylistsOf(db, uid) ==> PlaylistsOf(r, uid)[pid].(songs := PlaylistsOf(db, uid)[pid].songs) == PlaylistsOf(db, uid)[pid])
            && (forall q :: q != pid && q in PlaylistsOf(db, uid) ==> q in PlaylistsOf(r, uid) && PlaylistsOf(r, uid)[q] == PlaylistsOf(db, uid)[q])
            && (forall u :: u != uid ==> PlaylistsOf(r, u) == PlaylistsOf(db, u))
  {
  }

  /** A second union of the same id changes nothing. */
  lemma AddToLegacyTwice(db: Db, uid: string, pid: string, songId: string)
    ensures var r := AddToLegacy(db, uid, pid, songId);
            AddToLegacy(r, uid, pid, songId) == r
  {
    var r := AddToLegacy(db, uid, pid, songId);
    var r2 := AddToLegacy(r, uid, pid, songId);
    assert PlaylistsOf(r2, uid) == PlaylistsOf(r, uid);
  }

  /** The legacy `songs` array with every occurrence of an id removed (`arrayRemove`). */
  function RemoveAll(s: seq<string>, id: string): (r: seq<string>)
    ensures id !in r
    ensures forall x :: x in r <==> x in s && x != id
  {
    if s == [] then [] else (if s[0] == id then [] else [s[0]]) + RemoveAll(s[1..], id)
  }

  /** The legacy-array clean-up of one playlist: only when the array holds the id. */
  function StripLegacy(p: PlaylistDoc, songId: string): (q: PlaylistDoc)
    ensures q.songs.Some? ==> songId !in q.songs.value
    ensures q.(songs := p.songs) == p
  {
    if p.songs.Some? && songId in p.songs.value then p.(songs := Some(RemoveAll(p.songs.value, songId))) else p
  }

  /** The entries after the clean-up of the playlists in `done`: `songId`'s entry is deleted. */
  function CleanEntries(db: Db, uid: string, songId: string, done: set<string>): map<PlRef, map<string, Entry>>
  {
    map p | p in db.entries :: if p.owner == uid && p.pid in done then db.entries[p] - {songId} else db.entries[p]
  }

  /** `uid`'s playlist documents after the clean-up of those in `done`. */
  function CleanPlaylists(own: map<string, PlaylistDoc>, songId: string, done: set<string>): map<string, PlaylistDoc>
  {
    map pid | pid in own :: if pid in done then StripLegacy(own[pid], songId) else own[pid]
  }

  /**
   * removeSongFromAllPlaylists (index.js:738-761): the entry of `songId`
   * leaves every playlist in `uid`'s own collection, and so does the id in
   * the legacy arrays. Nothing else changes.
   */
  function RemoveSongEverywhere(db: Db, uid: string, songId: string): (r: Db)
  {
    if uid == "" || songId == "" then db
    else
      var own := PlaylistsOf(db, uid);
      var pls := if uid in db.playlists then db.playlists[uid := CleanPlaylists(own, songId, own.Keys)] else db.playlists;
      db.(entries := CleanEntries(db, uid, songId, own.Keys), playlists := pls)
  }

  lemma CleanNothing(db: Db, uid: string, songId: string, own: map<string, PlaylistDoc>)
    ensures CleanEntries(db, uid, songId, {}) == db.entries
    ensures CleanPlaylists(own, songId, {}) == own
  {
  }

  /** Cleaning one more playlist deletes one entry (if that playlist has any) and strips one array. */
  lemma CleanOneMore(db: Db, uid: string, songId: string, own: map<string, PlaylistDoc>, done: set<string>, pid: string)
    requires pid in own && pid !in done
    ensures var e := CleanEntries(db, uid, songId, done);
            var r := PlRef(uid, pid);
            CleanEntries(db, uid, songId, done + {pid}) == if r in e then e[r := e[r] - {songId}] else e
    ensures CleanPlaylists(own, songId, done + {pid}) == CleanPlaylists(own, songId, done)[pid := StripLegacy(own[pid], songId)]
  {
  }

  /**
   * Ownership isolation: after the clean-up no playlist of `uid` lists the
   * song, while song records, the inbox and every playlist and entry of
   * other owners are unchanged.
   */
  lemma RemoveSongIsolation(db: Db, uid: string, songId: string)
    requires uid != "" && songId != ""
    ensures var r := RemoveSongEverywhere(db, uid, songId);
            && r.songs == db.songs && r.inbox == db.inbox && r.nextId == db.nextId
            && (forall pid :: pid in PlaylistsOf(r, uid) ==> songId !in EntriesOf(r, PlRef(uid, pid)))
            && (forall pid :: pid in PlaylistsOf(r, uid) && PlaylistsOf(r, uid)[pid].songs.Some?
                  ==> songId !in PlaylistsOf(r, uid)[pid].songs.value)
            && (forall p: PlRef :: p.owner != uid ==> EntriesOf(r, p) == EntriesOf(db, p))
            && (forall u :: u != uid ==> PlaylistsOf(r, u) == PlaylistsOf(db, u))
            && PlaylistsOf(r, uid).Keys == PlaylistsOf(db, uid).Keys
  {
  }

  /**
   * The `Store` object: the database's collections as fields that the
   * operations update in place.
   */
  class Store {
    var songs: map<string, map<string, SongDoc>>
    var playlists: map<string, map<string, PlaylistDoc>>
    var entries: map<PlRef, map<string, Entry>>
    var inbox: map<string, InboxDoc>
    var live: Option<LiveDoc>
    var nextId: nat

    function State(): Db
      reads this
    {
      Db(songs, playlists, entries, inbox, live, nextId)
    }

    ghost predicate Valid()
      reads this
    {
      IdsFresh(State())
    }

    constructor (db: Db)
      requires IdsFresh(db)
      ensures Valid() && State() == db
    {
      songs, playlists, entries, inbox, live, nextId := db.songs, db.playlists, db.entries, db.inbox, db.live, db.nextId;
    }

    /** `collection.add`: a new song under a fresh id. */
    method Add(uid: string, doc: SongDoc) returns (id: string)
      modifies this
      ensures State() == AddSong(old(State()), uid, doc)
      ensures id == AutoId(old(nextId))
    {
      id := AutoId(nextId);
      songs := songs[uid := SongsOf(State(), uid)[id := doc]];
      nextId := nextId + 1;
    }

    method PutEntry(r: PlRef, songId: string, e: Entry)
      modifies this
      ensures State() == SetEntry(old(State()), r, songId, e)
    {
      entries := entries[r := EntriesOf(State(), r)[songId := e]];
    }

    /** The merge-write of a transpose into an entry. */
    method PutEntryTranspose(r: PlRef, songId: string, t: int)
      modifies this
      ensures State() == SetEntryTranspose(old(State()), r, songId, t)
    {
      var es := EntriesOf(State(), r);
      var order := if songId in es then es[songId].order else None;
      PutEntry(r, songId, Entry(order, t));
    }

    /** The arrayUnion write on a legacy `songs` array. */
    method AddToLegacyOf(uid: string, pid: string, songId: string)
      modifies this
      ensures State() == AddToLegacy(old(State()), uid, pid, songId)
    {
      var own := PlaylistsOf(State(), uid);
      var doc := if pid in own then own[pid] else PlaylistDoc("", "", None, false, None);
      var listed := doc.songs.GetOr([]);
      if songId !in listed {
        listed := listed + [songId];
      }
      playlists := playlists[uid := own[pid := doc.(songs := Some(listed))]];
    }

    /** A new entry of playlist `r`, then the id's arrayUnion into `uid`'s own playlist `r.pid`. */
    method AppendEntry(r: PlRef, uid: string, songId: string, e: Entry)
      requires Valid()
      modifies this
      ensures Valid()
      ensures State() == AddToLegacy(SetEntry(old(State()), r, songId, e), uid, r.pid, songId)
    {
      ghost var db0 := State();
      PutEntry(r, songId, e);
      AddToLegacyOf(uid, r.pid, songId);
      FreshSameSongs(db0, State());
    }

    /** `liveSessionRef.set(record, {merge: true})`: every field of the record is written. */
    method Broadcast(doc: LiveDoc)
      modifies this`live
      ensures live == Some(doc)
    {
      live := Some(doc);
    }

    /** Delete the message, or mark it processed, as the faults allow. */
    method ConsumeMessage(msgId: string, fx: Faults)
      modifies this
      ensures State() == Consume(old(State()), msgId, fx)
    {
      if !fx.deleteFails {
        inbox := inbox - {msgId};
      } else if !fx.markFails && msgId in inbox {
        inbox := inbox[msgId := inbox[msgId].(processed := true)];
      }
    }

    /** One copy item: the song under a fresh id, then its entry with the running order. */
    method AddItemTo(uid: string, target: string, m: CopyMsg, it: Item, i: nat, order: int)
      requires order == 10 * (i + 1)
      modifies this
      ensures State() == AddItem(old(State()), uid, target, m, it, i)
    {
      var id := Add(uid, ItemSong(uid, m, it));
      PutEntry(PlRef(uid, target), id, Entry(Some(order), it.transpose.GetOr(0)));
    }

    /**
     * The item loop of a copy import; it stops at the item whose write
     * throws, after that item's song when only its entry write threw.
     */
    method AddCopyItems(uid: string, target: string, m: CopyMsg, items: seq<Item>, failAt: Option<nat>, afterSong: bool)
      returns (ok: bool)
      modifies this
      ensures ok <==> !(failAt.Some? && failAt.value < |items|)
      ensures ok ==> State() == AddItems(old(State()), uid, target, m, items)
      ensures !ok ==> State() == PartialItems(old(State()), uid, target, m, items, failAt.value, afterSong)
    {
      ghost var start := State();
      var stop := if failAt.Some? && failAt.value < |items| then failAt.value else |items|;
      var order := 10;
      var i := 0;
      while i < stop
        invariant 0 <= i <= stop
        invariant order == 10 * (i + 1)
        invariant State() == AddItems(start, uid, target, m, items[..i])
      {
        AddItemsSnoc(start, uid, target, m, items, i);
        AddItemTo(uid, target, m, items[i], i, order);
        order := order + 10;
        i := i + 1;
      }
      ok := stop == |items|;
      if ok {
        assert items[..i] == items;
      } else if afterSong {
        var _ := Add(uid, ItemSong(uid, m, items[stop]));
      }
    }

    /**
     * importInboxItem for a copy message: check the target, drop empty
     * messages, create the playlist, add the items, consume the message.
     */
    method ImportCopy(uid: string, msgId: string, m: CopyMsg, fx: Faults) returns (outcome: Outcome)
      requires Valid()
      modifies this
      ensures Valid()
      ensures (State(), outcome) == CopyImport(old(State()), uid, msgId, m, fx)
    {
      var target := SharedTarget(msgId);
      var items := ItemsOf(m);
      if uid == "" {
        return Failed;
      }
      ghost var db0 := State();
      if target in PlaylistsOf(State(), uid) {
        ConsumeMessage(msgId, fx);
        FreshSameSongs(db0, State());
        return Duplicate;
      }
      if items == [] {
        ConsumeMessage(msgId, fx);
        FreshSameSongs(db0, State());
        return Invalid;
      }
      playlists := playlists[uid := PlaylistsOf(State(), uid)[target := SharedPlaylistDoc(m, None)]];
      assert State() == CreateShared(db0, uid, target, m);
      FreshSameSongs(db0, State());
      ghost var created := State();
      var ok := AddCopyItems(uid, target, m, items, fx.failAtItem, fx.afterSong);
      if !ok {
        PartialItemsKeepsFresh(created, uid, target, m, items, fx.failAtItem.value, fx.afterSong);
        return Failed;
      }
      AddItemsKeepsFresh(created, uid, target, m, items);
      ghost var added := State();
      ConsumeMessage(msgId, fx);
      FreshSameSongs(added, State());
      outcome := Imported;
    }

    /** Delete one entry document; a missing one is left missing. */
    method DeleteEntryOf(r: PlRef, songId: string)
      modifies this
      ensures entries == if r in old(entries) then old(entries)[r := old(entries)[r] - {songId}] else old(entries)
      ensures songs == old(songs) && playlists == old(playlists) && inbox == old(inbox)
      ensures live == old(live) && nextId == old(nextId)
    {
      if r in entries {
        entries := entries[r := entries[r] - {songId}];
      }
    }

    /** `arrayRemove` on the legacy array of playlist `pid`, written only when it lists the song. */
    method StripLegacyOf(uid: string, pid: string, pl: PlaylistDoc, songId: string)
      requires uid in playlists && pid in playlists[uid]
      modifies this
      ensures pl.songs.Some? && songId in pl.songs.value
              ==> playlists == old(playlists)[uid := old(playlists)[uid][pid := StripLegacy(pl, songId)]]
      ensures !(pl.songs.Some? && songId in pl.songs.value) ==> playlists == old(playlists) && StripLegacy(pl, songId) == pl
      ensures songs == old(songs) && entries == old(entries) && inbox == old(inbox)
      ensures live == old(live) && nextId == old(nextId)
    {
      if pl.songs.Some? && songId in pl.songs.value {
        playlists := playlists[uid := playlists[uid][pid := StripLegacy(pl, songId)]];
      }
    }

    /** removeSongFromAllPlaylists: one delete per own playlist, one array-remove where listed. */
    method RemoveSongFromAllPlaylists(uid: string, songId: string)
      requires Valid()
      modifies this
      ensures Valid()
      ensures State() == RemoveSongEverywhere(old(State()), uid, songId)
    {
      if uid == "" || songId == "" {
        return;
      }
      var own := PlaylistsOf(State(), uid);
      var todo := own.Keys;
      ghost var done: set<string> := {};
      ghost var db0 := State();
      CleanNothing(db0, uid, songId, own);
      while todo != {}
        invariant todo + done == own.Keys && todo !! done
        invariant songs == db0.songs && inbox == db0.inbox && live == db0.live && nextId == db0.nextId
        invariant entries == CleanEntries(db0, uid, songId, done)
        invariant uid in db0.playlists ==> playlists == db0.playlists[uid := CleanPlaylists(own, songId, done)]
        invariant uid !in db0.playlists ==> playlists == db0.playlists && done == {}
        decreases todo
      {
        var pid :| pid in todo;
        CleanOneMore(db0, uid, songId, own, done, pid);
        DeleteEntryOf(PlRef(uid, pid), songId);
        StripLegacyOf(uid, pid, own[pid], songId);
        assert CleanPlaylists(own, songId, done)[pid := own[pid]] == CleanPlaylists(own, songId, done);
        todo := todo - {pid};
        done := done + {pid};
      }
      FreshSameSongs(db0, State());
    }
  }
}
