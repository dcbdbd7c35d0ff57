/**
 * The in-memory catalog (index.js:39-40, 603-675): `loadedPlaylists`, an
 * insertion-ordered map from composite key to playlist, and `loadedSongs`,
 * a map from song id to song, both rebuilt from the database by
 * populatePlaylistsAndSongs. Also the selection of the initial playlist
 * and preferUserOrNewest.
 */
module Catalog {

  import opened Common
  import opened Keys
  import opened Docs

  datatype Scope = PublicScope | UserScope | SharedScope

  /** An entry of `loadedSongs`: `{id, title, content, _scope}`. */
  datatype CatalogSong = CatalogSong(id: string, title: string, content: string, scope: Scope)

  /** An entry of `loadedPlaylists`; `sharedRole` is null for owned playlists. */
  datatype CatalogPlaylist = CatalogPlaylist(
    id: string,
    key: string,
    name: string,
    ownerUid: string,
    shared: bool,
    sharedRole: Option<string>,
    notes: string,
    from: Option<Provenance>)

  /** A JavaScript `Map`: its keys in insertion order and its entries. */
  datatype Playlists = Playlists(keys: seq<string>, entries: map<string, CatalogPlaylist>) {
    ghost predicate Valid()
    {
      && (forall i, j :: 0 <= i < j < |keys| ==> keys[i] != keys[j])
      && (forall k :: k in entries <==> k in keys)
    }
  }

  const NoPlaylists := Playlists([], map[])

  /** `Map.prototype.set`: a new key goes last, an existing one keeps its place. */
  function Put(c: Playlists, k: string, v: CatalogPlaylist): (r: Playlists)
    requires c.Valid()
    ensures r.Valid()
    ensures r.entries == c.entries[k := v]
    ensures k in c.entries ==> r.keys == c.keys
    ensures k !in c.entries ==> r.keys == c.keys + [k]
  {
    if k in c.entries then Playlists(c.keys, c.entries[k := v])
    else Playlists(c.keys + [k], c.entries[k := v])
  }

  /** An owned playlist document as a catalog entry (index.js:616-628). */
  function OwnedRecord(userId: string, row: Row<PlaylistDoc>): CatalogPlaylist
  {
    CatalogPlaylist(row.id, MakePlKey(userId, row.id), OrElse(row.doc.name, row.id), userId, false, None, row.doc.notes, None)
  }

  /** A grant that names both its owner and its playlist. */
  predicate GrantUsable(g: GrantDoc)
  {
    g.ownerUid != "" && g.playlistId != ""
  }

  function GrantKey(g: GrantDoc): string
  {
    MakePlKey(g.ownerUid, g.playlistId)
  }

  /** A usable grant whose composite key is k. */
  predicate GrantSets(g: GrantDoc, k: string)
  {
    GrantUsable(g) && GrantKey(g) == k
  }

  /** A grant as a shared catalog entry, role defaulting to viewer (index.js:633-648). */
  function GrantRecord(g: GrantDoc): CatalogPlaylist
  {
    CatalogPlaylist(g.playlistId, GrantKey(g), OrElse(g.playlistName, g.playlistId), g.ownerUid, true,
                    Some(OrElse(g.role, "viewer")), "", None)
  }

  /** `set` of every owned playlist under `makePlKey(userId, id)`, in order. */
  function PutOwned(c: Playlists, userId: string, rows: seq<Row<PlaylistDoc>>): (r: Playlists)
    requires c.Valid()
    ensures r.Valid()
    ensures |c.keys| <= |r.keys| && r.keys[..|c.keys|] == c.keys
  {
    if rows == [] then c
    else
      var row := rows[|rows| - 1];
      Put(PutOwned(c, userId, rows[..|rows| - 1]), MakePlKey(userId, row.id), OwnedRecord(userId, row))
  }

  /** `set` of every usable grant under its composite key, in order. */
  function PutGrants(c: Playlists, grants: seq<GrantDoc>): (r: Playlists)
    requires c.Valid()
    ensures r.Valid()
    ensures |c.keys| <= |r.keys| && r.keys[..|c.keys|] == c.keys
  {
    if grants == [] then c
    else
      var g := grants[|grants| - 1];
      var r := PutGrants(c, grants[..|grants| - 1]);
      if GrantUsable(g) then Put(r, GrantKey(g), GrantRecord(g)) else r
  }

  /**
   * loadedPlaylists after the rebuild: cleared, then every owned playlist,
   * then every usable grant, each `set` under its composite key.
   */
  function AggregatePlaylists(userId: string, owned: seq<Row<PlaylistDoc>>, grants: seq<GrantDoc>): (c: Playlists)
    ensures c.Valid()
  {
    PutGrants(PutOwned(NoPlaylists, userId, owned), grants)
  }

  /** The two loops that refill `loadedPlaylists`: owned playlists, then usable grants. */
  method BuildPlaylists(userId: string, owned: seq<Row<PlaylistDoc>>, grants: seq<GrantDoc>) returns (c: Playlists)
    ensures c == AggregatePlaylists(userId, owned, grants)
  {
    c := NoPlaylists;
    var i := 0;
    while i < |owned|
      invariant 0 <= i <= |owned|
      invariant c == PutOwned(NoPlaylists, userId, owned[..i])
    {
      assert owned[..i + 1][..i] == owned[..i];
      c := Put(c, MakePlKey(userId, owned[i].id), OwnedRecord(userId, owned[i]));
      i := i + 1;
    }
    assert owned[..i] == owned;
    ghost var afterOwned := c;
    var j := 0;
    while j < |grants|
      invariant 0 <= j <= |grants|
      invariant c == PutGrants(afterOwned, grants[..j])
    {
      assert grants[..j + 1][..j] == grants[..j];
      var g := grants[j];
      if g.ownerUid != "" && g.playlistId != "" {
        c := Put(c, MakePlKey(g.ownerUid, g.playlistId), GrantRecord(g));
      }
      j := j + 1;
    }
    assert grants[..j] == grants;
  }

  lemma SameOwnerKeys(userId: string, a: string, b: string)
    requires MakePlKey(userId, a) == MakePlKey(userId, b)
    ensures a == b
  {
    assert MakePlKey(userId, a)[|userId| + 2..] == a;
  }

  lemma {:induction false} PutOwnedKeys(c: Playlists, userId: string, rows: seq<Row<PlaylistDoc>>, k: string)
    requires c.Valid()
    ensures k in PutOwned(c, userId, rows).entries
            <==> (k in c.entries || exists i :: 0 <= i < |rows| && MakePlKey(userId, rows[i].id) == k)
  {
    if rows != [] {
      var n := |rows| - 1;
      var front := rows[..n];
      PutOwnedKeys(c, userId, front, k);
      if exists i :: 0 <= i < |rows| && MakePlKey(userId, rows[i].id) == k {
        var i :| 0 <= i < |rows| && MakePlKey(userId, rows[i].id) == k;
        if i < n {
          assert front[i] == rows[i];
        }
      }
      if exists i :: 0 <= i < n && MakePlKey(userId, front[i].id) == k {
        var i :| 0 <= i < n && MakePlKey(userId, front[i].id) == k;
        assert rows[i] == front[i];
      }
    }
  }

  /** The last owned playlist with an id decides that key's record. */
  lemma {:induction false} PutOwnedLast(c: Playlists, userId: string, rows: seq<Row<PlaylistDoc>>, i: nat)
    requires c.Valid()
    requires i < |rows|
    requires forall j :: i < j < |rows| ==> rows[j].id != rows[i].id
    ensures MakePlKey(userId, rows[i].id) in PutOwned(c, userId, rows).entries
    ensures PutOwned(c, userId, rows).entries[MakePlKey(userId, rows[i].id)] == OwnedRecord(userId, rows[i])
  {
    var n := |rows| - 1;
    if i < n {
      PutOwnedLast(c, userId, rows[..n], i);
      if MakePlKey(userId, rows[n].id) == MakePlKey(userId, rows[i].id) {
        SameOwnerKeys(userId, rows[n].id, rows[i].id);
      }
    }
  }

  lemma {:induction false} PutOwnedFirst(userId: string, rows: seq<Row<PlaylistDoc>>)
    requires rows != []
    ensures PutOwned(NoPlaylists, userId, rows).keys != []
    ensures PutOwned(NoPlaylists, userId, rows).keys[0] == MakePlKey(userId, rows[0].id)
  {
    if |rows| > 1 {
      PutOwnedFirst(userId, rows[..|rows| - 1]);
    }
  }

  lemma {:induction false} PutGrantsKeys(c: Playlists, grants: seq<GrantDoc>, k: string)
    requires c.Valid()
    ensures k in PutGrants(c, grants).entries
            <==> (k in c.entries || exists j :: 0 <= j < |grants| && GrantSets(grants[j], k))
  {
    if grants != [] {
      var n := |grants| - 1;
      PutGrantsKeys(c, grants[..n], k);
      assert forall j :: 0 <= j < n ==> grants[..n][j] == grants[j];
    }
  }

  /** A key that no usable grant produces keeps its record. */
  lemma {:induction false} PutGrantsKeeps(c: Playlists, grants: seq<GrantDoc>, k: string)
    requires c.Valid() && k in c.entries
    requires forall j :: 0 <= j < |grants| ==> !GrantSets(grants[j], k)
    ensures PutGrants(c, grants).entries[k] == c.entries[k]
  {
    if grants != [] {
      var n := |grants| - 1;
      PutGrantsKeeps(c, grants[..n], k);
      PutGrantsKeys(c, grants[..n], k);
    }
  }

  /** The last usable grant for a key decides that key's record. */
  lemma {:induction false} PutGrantsLast(c: Playlists, grants: seq<GrantDoc>, j: nat)
    requires c.Valid()
    requires j < |grants| && GrantUsable(grants[j])
    requires forall j' :: j < j' < |grants| ==> !GrantSets(grants[j'], GrantKey(grants[j]))
    ensures GrantKey(grants[j]) in PutGrants(c, grants).entries
    ensures PutGrants(c, grants).entries[GrantKey(grants[j])] == GrantRecord(grants[j])
  {
    var n := |grants| - 1;
    if j < n {
      PutGrantsLast(c, grants[..n], j);
    }
  }

  /**
   * Catalog membership: a key is present exactly when an owned playlist or a
   * usable grant produces it.
   */
  lemma AggregateKeys(userId: string, owned: seq<Row<PlaylistDoc>>, grants: seq<GrantDoc>, k: string)
    ensures k in AggregatePlaylists(userId, owned, grants).entries
            <==> ((exists i :: 0 <= i < |owned| && MakePlKey(userId, owned[i].id) == k)
                  || (exists j :: 0 <= j < |grants| && GrantSets(grants[j], k)))
  {
    PutOwnedKeys(NoPlaylists, userId, owned, k);
    PutGrantsKeys(PutOwned(NoPlaylists, userId, owned), grants, k);
  }

  /**
   * A key that no usable grant produces holds the record of the owned
   * playlist with that id: not shared, no role.
   */
  lemma AggregateOwned(userId: string, owned: seq<Row<PlaylistDoc>>, grants: seq<GrantDoc>, i: nat)
    requires i < |owned|
    requires forall j :: i < j < |owned| ==> owned[j].id != owned[i].id
    requires forall j :: 0 <= j < |grants| ==> !GrantSets(grants[j], MakePlKey(userId, owned[i].id))
    ensures AggregateOwnedHolds(userId, owned, grants, i)
  {
    var k := MakePlKey(userId, owned[i].id);
    var c := PutOwned(NoPlaylists, userId, owned);
    PutOwnedKeys(NoPlaylists, userId, owned, k);
    PutOwnedLast(NoPlaylists, userId, owned, i);
    PutGrantsKeeps(c, grants, k);
  }

  predicate AggregateOwnedHolds(userId: string, owned: seq<Row<PlaylistDoc>>, grants: seq<GrantDoc>, i: nat)
    requires i < |owned|
  {
    var c := AggregatePlaylists(userId, owned, grants);
    var k := MakePlKey(userId, owned[i].id);
    k in c.entries && c.entries[k] == OwnedRecord(userId, owned[i]) && !c.entries[k].shared
  }

  /**
   * A usable grant that no later usable grant overrides decides its key's
   * record: shared, with the grant's role or "viewer".
   */
  lemma AggregateGrant(userId: string, owned: seq<Row<PlaylistDoc>>, grants: seq<GrantDoc>, j: nat)
    requires j < |grants| && GrantUsable(grants[j])
    requires forall j' :: j < j' < |grants| ==> !GrantSets(grants[j'], GrantKey(grants[j]))
    ensures var c := AggregatePlaylists(userId, owned, grants);
            GrantKey(grants[j]) in c.entries
            && c.entries[GrantKey(grants[j])] == GrantRecord(grants[j])
            && c.entries[GrantKey(grants[j])].shared
            && c.entries[GrantKey(grants[j])].sharedRole == Some(OrElse(grants[j].role, "viewer"))
  {
    var c := PutOwned(NoPlaylists, userId, owned);
    PutGrantsKeys(c, grants, GrantKey(grants[j]));
    PutGrantsLast(c, grants, j);
  }

  /** With at least one owned playlist, the first key is the first owned one's. */
  lemma AggregateFirstKey(userId: string, owned: seq<Row<PlaylistDoc>>, grants: seq<GrantDoc>)
    requires owned != []
    ensures AggregatePlaylists(userId, owned, grants).keys != []
    ensures AggregatePlaylists(userId, owned, grants).keys[0] == MakePlKey(userId, owned[0].id)
  {
    PutOwnedFirst(userId, owned);
  }

  /**
   * The initial selection (index.js:655-659): a current key is kept; else the
   * last viewed key if the catalog still has it; else the catalog's first key.
   */
  function SelectInitialKey(current: string, last: string, c: Playlists): (r: string)
    requires c.Valid()
    ensures current != "" ==> r == current
    ensures current == "" && last != "" && last in c.entries ==> r == last
    ensures current == "" && c.keys != [] ==> r in c.entries
    ensures current == "" && c.keys == [] ==> r == ""
    ensures current == "" && (last == "" || last !in c.entries) && c.keys != [] ==> r == c.keys[0]
  {
    if current != "" then current
    else if last != "" && last in c.entries then last
    else if c.keys != [] then c.keys[0]
    else ""
  }

  /** A song document the catalog accepts: a non-empty title and some content. */
  predicate Listable(d: SongDoc)
  {
    d.title != "" && d.content.Some?
  }

  /** `loadedSongs.set` for every listable row, in order. */
  function PutSongs(m: map<string, CatalogSong>, rows: seq<Row<SongDoc>>, scope: Scope): (r: map<string, CatalogSong>)
    ensures forall id :: id in r <==> (id in m || exists i :: 0 <= i < |rows| && rows[i].id == id && Listable(rows[i].doc))
  {
    if rows == [] then m
    else
      var front := rows[..|rows| - 1];
      var row := rows[|rows| - 1];
      var r := PutSongs(m, front, scope);
      assert forall i :: 0 <= i < |front| ==> front[i] == rows[i];
      if Listable(row.doc) then r[row.id := CatalogSong(row.id, row.doc.title, row.doc.content.value, scope)] else r
  }

  /** Every song of a cache sits under its own id. */
  predicate KeyedById(songs: map<string, CatalogSong>)
  {
    forall id :: id in songs ==> songs[id].id == id
  }

  lemma {:induction false} PutSongsKeyed(m: map<string, CatalogSong>, rows: seq<Row<SongDoc>>, scope: Scope)
    requires KeyedById(m)
    ensures KeyedById(PutSongs(m, rows, scope))
  {
    if rows != [] {
      PutSongsKeyed(m, rows[..|rows| - 1], scope);
    }
  }

  /** loadedSongs after the rebuild: cleared, the public songs, then the user's. */
  function AggregateSongs(pub: seq<Row<SongDoc>>, usr: seq<Row<SongDoc>>): (m: map<string, CatalogSong>)
    ensures forall id :: id in m <==> ((exists i :: 0 <= i < |pub| && pub[i].id == id && Listable(pub[i].doc))
                                      || (exists i :: 0 <= i < |usr| && usr[i].id == id && Listable(usr[i].doc)))
  {
    PutSongs(PutSongs(map[], pub, PublicScope), usr, UserScope)
  }

  /** The two loops that refill `loadedSongs`: public songs, then the user's. */
  method BuildSongs(pub: seq<Row<SongDoc>>, usr: seq<Row<SongDoc>>) returns (m: map<string, CatalogSong>)
    ensures m == AggregateSongs(pub, usr)
  {
    m := map[];
    var k := 0;
    while k < |pub|
      invariant 0 <= k <= |pub|
      invariant m == PutSongs(map[], pub[..k], PublicScope)
    {
      assert pub[..k + 1][..k] == pub[..k];
      var d := pub[k].doc;
      if d.title != "" && d.content.Some? {
        m := m[pub[k].id := CatalogSong(pub[k].id, d.title, d.content.value, PublicScope)];
      }
      k := k + 1;
    }
    assert pub[..k] == pub;
    ghost var afterPub := m;
    k := 0;
    while k < |usr|
      invariant 0 <= k <= |usr|
      invariant m == PutSongs(afterPub, usr[..k], UserScope)
    {
      assert usr[..k + 1][..k] == usr[..k];
      var d := usr[k].doc;
      if d.title != "" && d.content.Some? {
        m := m[usr[k].id := CatalogSong(usr[k].id, d.title, d.content.value, UserScope)];
      }
      k := k + 1;
    }
    assert usr[..k] == usr;
  }

  /** The last listable row with a given id decides that id's song. */
  lemma {:induction false} PutSongsLast(m: map<string, CatalogSong>, rows: seq<Row<SongDoc>>, scope: Scope, i: nat)
    requires i < |rows| && Listable(rows[i].doc)
    requires forall j :: i < j < |rows| && Listable(rows[j].doc) ==> rows[j].id != rows[i].id
    ensures PutSongs(m, rows, scope)[rows[i].id] == CatalogSong(rows[i].id, rows[i].doc.title, rows[i].doc.content.value, scope)
  {
    var n := |rows| - 1;
    if i < n {
      var front := rows[..n];
      assert front[i] == rows[i];
      forall j | i < j < |front| && Listable(front[j].doc)
        ensures front[j].id != front[i].id
      {
        assert front[j] == rows[j];
      }
      PutSongsLast(m, front, scope, i);
      var row := rows[n];
      assert Listable(row.doc) ==> row.id != rows[i].id;
    }
  }

  /** Ids that no listable row names keep their previous song. */
  lemma {:induction false} PutSongsKeeps(m: map<string, CatalogSong>, rows: seq<Row<SongDoc>>, scope: Scope, id: string)
    requires id in m
    requires forall j :: 0 <= j < |rows| && Listable(rows[j].doc) ==> rows[j].id != id
    ensures PutSongs(m, rows, scope)[id] == m[id]
  {
    if rows != [] {
      var n := |rows| - 1;
      PutSongsKeeps(m, rows[..n], scope, id);
    }
  }

  /** A user song overrides any public song with the same id. */
  lemma AggregateSongsUserWins(pub: seq<Row<SongDoc>>, usr: seq<Row<SongDoc>>, i: nat)
    requires i < |usr| && Listable(usr[i].doc)
    requires forall j :: i < j < |usr| && Listable(usr[j].doc) ==> usr[j].id != usr[i].id
    ensures AggregateSongs(pub, usr)[usr[i].id]
            == CatalogSong(usr[i].id, usr[i].doc.title, usr[i].doc.content.value, UserScope)
  {
    PutSongsLast(PutSongs(map[], pub, PublicScope), usr, UserScope, i);
  }

  /** A public song stays when no listable user song has its id. */
  lemma AggregateSongsPublicKept(pub: seq<Row<SongDoc>>, usr: seq<Row<SongDoc>>, i: nat)
    requires i < |pub| && Listable(pub[i].doc)
    requires forall j :: i < j < |pub| && Listable(pub[j].doc) ==> pub[j].id != pub[i].id
    requires forall j :: 0 <= j < |usr| && Listable(usr[j].doc) ==> usr[j].id != pub[i].id
    ensures AggregateSongs(pub, usr)[pub[i].id]
            == CatalogSong(pub[i].id, pub[i].doc.title, pub[i].doc.content.value, PublicScope)
  {
    PutSongsLast(map[], pub, PublicScope, i);
    PutSongsKeeps(PutSongs(map[], pub, PublicScope), usr, UserScope, pub[i].id);
  }

  /** A search hit as preferUserOrNewest sees it: its scope and timestamp (0 if absent). */
  datatype Hit = Hit(id: string, scope: Scope, timestamp: int)

  function Rank(h: Hit): int
  {
    if h.scope == UserScope then 2 else 1
  }

  /**
   * preferUserOrNewest (index.js:1004-1011): a user-scope hit beats any
   * other; among equal scopes the newer wins, the first argument on a tie.
   */
  function PreferUserOrNewest(a: Option<Hit>, b: Option<Hit>): (r: Option<Hit>)
    ensures r == a || r == b
    ensures r.None? <==> a.None? && b.None?
    ensures a.Some? && r.Some? ==> Rank(r.value) > Rank(a.value)
                                   || (Rank(r.value) == Rank(a.value) && r.value.timestamp >= a.value.timestamp)
    ensures b.Some? && r.Some? ==> Rank(r.value) > Rank(b.value)
                                   || (Rank(r.value) == Rank(b.value) && r.value.timestamp >= b.value.timestamp)
    ensures a.Some? && b.Some? && Rank(a.value) == Rank(b.value) && a.value.timestamp == b.value.timestamp ==> r == a
  {
    if a.None? then b
    else if b.None? then a
    else if Rank(b.value) != Rank(a.value) then (if Rank(b.value) > Rank(a.value) then b else a)
    else if b.value.timestamp > a.value.timestamp then b else a
  }

  /** The choice does not depend on argument order except on a full tie. */
  lemma PreferSymmetric(a: Hit, b: Hit)
    requires Rank(a) != Rank(b) || a.timestamp != b.timestamp
    ensures PreferUserOrNewest(Some(a), Some(b)) == PreferUserOrNewest(Some(b), Some(a))
  {
  }
}
