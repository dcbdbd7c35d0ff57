/**
 * The pure steps of loadEntriesForCurrentPlaylist (index.js:495-579),
 * goPrevNextSong (index.js:917-936) and addCurrentLocalToPlaylist
 * (index.js:790-834): collecting entries, the stable sort by `order`,
 * resolving entries to songs, choosing the current song, wrap-around
 * navigation, the next order and the title/body split of a local text.
 */
module Entries {

  import opened Common
  import opened Text
  import opened Docs
  import opened Catalog

  /** An element of `currentEntries`; a missing order or transpose reads as 0. */
  datatype CurEntry = CurEntry(songId: string, order: int, transpose: int)

  function ToCurEntry(row: Row<Entry>): CurEntry
  {
    CurEntry(row.id, row.doc.order.GetOr(0), row.doc.transpose)
  }

  /** `currentEntries` after the collecting loop: one element per row, in row order. */
  function CollectEntries(snap: seq<Row<Entry>>): (r: seq<CurEntry>)
    ensures |r| == |snap|
    ensures forall i :: 0 <= i < |snap| ==> r[i] == ToCurEntry(snap[i])
  {
    if snap == [] then [] else CollectEntries(snap[..|snap| - 1]) + [ToCurEntry(snap[|snap| - 1])]
  }

  /** `transposeBySongId` after the collecting loop: the last row with an id decides it. */
  function CollectTranspose(snap: seq<Row<Entry>>): (m: map<string, int>)
    ensures forall id :: id in m <==> exists i :: 0 <= i < |snap| && snap[i].id == id
  {
    if snap == [] then map[]
    else
      var n := |snap| - 1;
      var front := snap[..n];
      assert forall i :: 0 <= i < n ==> front[i] == snap[i];
      CollectTranspose(front)[snap[n].id := snap[n].doc.transpose]
  }

  lemma {:induction false} CollectTransposeLast(snap: seq<Row<Entry>>, i: nat)
    requires i < |snap|
    requires forall j :: i < j < |snap| ==> snap[j].id != snap[i].id
    ensures CollectTranspose(snap)[snap[i].id] == snap[i].doc.transpose
  {
    var n := |snap| - 1;
    if i < n {
      assert snap[..n][i] == snap[i];
      CollectTransposeLast(snap[..n], i);
    }
  }

  /** The collecting loop: push each row's entry, remember its transpose. */
  method CollectRows(snap: seq<Row<Entry>>) returns (entries: seq<CurEntry>, tmap: map<string, int>)
    ensures entries == CollectEntries(snap)
    ensures tmap == CollectTranspose(snap)
  {
    entries := [];
    tmap := map[];
    var i := 0;
    while i < |snap|
      invariant 0 <= i <= |snap|
      invariant entries == CollectEntries(snap[..i])
      invariant tmap == CollectTranspose(snap[..i])
    {
      assert snap[..i + 1][..i] == snap[..i];
      entries := entries + [CurEntry(snap[i].id, snap[i].doc.order.GetOr(0), snap[i].doc.transpose)];
      tmap := tmap[snap[i].id := snap[i].doc.transpose];
      i := i + 1;
    }
    assert snap[..i] == snap;
  }

  // ----- The sort: `slice().sort((a, b) => a.order - b.order)`, which is stable -----

  ghost predicate Sorted(s: seq<CurEntry>)
  {
    forall i, j :: 0 <= i < j < |s| ==> s[i].order <= s[j].order
  }

  /** Insert `x` after every element whose order is not above its own. */
  function Insert(s: seq<CurEntry>, x: CurEntry): (r: seq<CurEntry>)
    ensures multiset(r) == multiset(s) + multiset{x}
    ensures |r| == |s| + 1
  {
    if s == [] then [x]
    else if x.order < s[0].order then [x] + s
    else
      assert s == [s[0]] + s[1..];
      [s[0]] + Insert(s[1..], x)
  }

  function SortByOrder(s: seq<CurEntry>): (r: seq<CurEntry>)
    ensures multiset(r) == multiset(s)
    ensures |r| == |s|
  {
    if s == [] then []
    else
      assert s == s[..|s| - 1] + [s[|s| - 1]];
      Insert(SortByOrder(s[..|s| - 1]), s[|s| - 1])
  }

  lemma {:induction false} InsertSorted(s: seq<CurEntry>, x: CurEntry)
    requires Sorted(s)
    ensures Sorted(Insert(s, x))
    decreases |s|
  {
    if s != [] && x.order >= s[0].order {
      InsertSorted(s[1..], x);
      var r := Insert(s, x);
      var t := Insert(s[1..], x);
      assert r == [s[0]] + t;
      forall k | 0 <= k < |t| ensures s[0].order <= t[k].order {
        assert t[k] in multiset(t);
        assert t[k] in multiset(s[1..]) || t[k] == x;
        if t[k] != x {
          var m :| 0 <= m < |s[1..]| && s[1..][m] == t[k];
          assert s[1 + m] == t[k];
        }
      }
    }
  }

  /** The sorted list is ordered by `order` and a permutation of the entries. */
  lemma {:induction false} SortByOrderSorted(s: seq<CurEntry>)
    ensures Sorted(SortByOrder(s))
    ensures multiset(SortByOrder(s)) == multiset(s)
  {
    if s != [] {
      SortByOrderSorted(s[..|s| - 1]);
      InsertSorted(SortByOrder(s[..|s| - 1]), s[|s| - 1]);
    }
  }

  /** The entries whose order is k, in list order. */
  function WithOrder(s: seq<CurEntry>, k: int): seq<CurEntry>
  {
    if s == [] then [] else (if s[0].order == k then [s[0]] else []) + WithOrder(s[1..], k)
  }

  lemma {:induction false} WithOrderAppend(a: seq<CurEntry>, b: seq<CurEntry>, k: int)
    ensures WithOrder(a + b, k) == WithOrder(a, k) + WithOrder(b, k)
    decreases |a|
  {
    if a == [] {
      assert a + b == b;
    } else {
      var h := if a[0].order == k then [a[0]] else [];
      assert (a + b)[0] == a[0];
      assert (a + b)[1..] == a[1..] + b;
      WithOrderAppend(a[1..], b, k);
      calc {
        WithOrder(a + b, k);
        h + WithOrder(a[1..] + b, k);
        h + (WithOrder(a[1..], k) + WithOrder(b, k));
        (h + WithOrder(a[1..], k)) + WithOrder(b, k);
      }
    }
  }

  /** WithOrder unfolded on a list with a known head. */
  lemma WithOrderCons(x: CurEntry, t: seq<CurEntry>, k: int)
    ensures WithOrder([x] + t, k) == (if x.order == k then [x] else []) + WithOrder(t, k)
  {
    assert ([x] + t)[0] == x;
    assert ([x] + t)[1..] == t;
  }

  /** An entry that goes before a sorted list adds itself to the group of its own order only. */
  lemma InsertFrontWithOrder(s: seq<CurEntry>, x: CurEntry, k: int)
    requires Sorted(s) && s != [] && x.order < s[0].order
    ensures WithOrder([x] + s, k) == WithOrder(s, k) + (if x.order == k then [x] else [])
  {
    WithOrderCons(x, s, k);
    if x.order == k {
      forall i | 0 <= i < |s| ensures s[i].order > k {
        if i > 0 { assert s[0].order <= s[i].order; }
      }
      NoneWithOrder(s, k);
    }
  }

  lemma {:induction false} InsertWithOrder(s: seq<CurEntry>, x: CurEntry, k: int)
    requires Sorted(s)
    ensures WithOrder(Insert(s, x), k) == WithOrder(s, k) + (if x.order == k then [x] else [])
    decreases |s|
  {
    if s == [] {
      WithOrderCons(x, [], k);
      assert [x] + [] == [x];
    } else if x.order < s[0].order {
      assert Insert(s, x) == [x] + s;
      InsertFrontWithOrder(s, x, k);
    } else {
      var t := Insert(s[1..], x);
      var cx := if x.order == k then [x] else [];
      assert Insert(s, x) == [s[0]] + t;
      assert WithOrder(t, k) == WithOrder(s[1..], k) + cx by {
        SortedTail(s);
        InsertWithOrder(s[1..], x, k);
      }
      ConsWithOrder(s[0], s[1..], t, x, k);
      assert [s[0]] + s[1..] == s;
    }
  }

  /** Putting the same head before two lists whose groups differ by a trailing `x`. */
  lemma ConsWithOrder(h: CurEntry, u: seq<CurEntry>, t: seq<CurEntry>, x: CurEntry, k: int)
    requires WithOrder(t, k) == WithOrder(u, k) + (if x.order == k then [x] else [])
    ensures WithOrder([h] + t, k) == WithOrder([h] + u, k) + (if x.order == k then [x] else [])
  {
    var c0 := if h.order == k then [h] else [];
    WithOrderCons(h, t, k);
    WithOrderCons(h, u, k);
    ConcatAssoc(c0, WithOrder(u, k), if x.order == k then [x] else []);
  }

  lemma ConcatAssoc(a: seq<CurEntry>, b: seq<CurEntry>, c: seq<CurEntry>)
    ensures a + (b + c) == (a + b) + c
  {
  }

  lemma SortedTail(s: seq<CurEntry>)
    requires Sorted(s) && s != []
    ensures Sorted(s[1..])
  {
    forall i, j | 0 <= i < j < |s[1..]| ensures s[1..][i].order <= s[1..][j].order {
      assert s[1..][i] == s[i + 1] && s[1..][j] == s[j + 1];
    }
  }

  lemma {:induction false} NoneWithOrder(s: seq<CurEntry>, k: int)
    requires forall i :: 0 <= i < |s| ==> s[i].order > k
    ensures WithOrder(s, k) == []
    decreases |s|
  {
    if s != [] {
      NoneWithOrder(s[1..], k);
    }
  }

  /** Stability: the entries of each order keep their relative order. */
  lemma {:induction false} SortByOrderStable(s: seq<CurEntry>, k: int)
    ensures WithOrder(SortByOrder(s), k) == WithOrder(s, k)
  {
    if s != [] {
      var n := |s| - 1;
      SortByOrderStable(s[..n], k);
      SortByOrderSorted(s[..n]);
      InsertWithOrder(SortByOrder(s[..n]), s[n], k);
      WithOrderAppend(s[..n], [s[n]], k);
      WithOrderCons(s[n], [], k);
      assert [s[n]] + [] == [s[n]];
      assert s[..n] + [s[n]] == s;
    }
  }

  /** Entries that already come ordered, as the `orderBy('order')` query returns them, are left as they are. */
  lemma {:induction false} SortByOrderSortedInput(s: seq<CurEntry>)
    requires Sorted(s)
    ensures SortByOrder(s) == s
  {
    if s != [] {
      var n := |s| - 1;
      SortedPrefix(s, s[..n]);
      SortByOrderSortedInput(s[..n]);
      InsertAtEnd(s[..n], s[n]);
      assert s[..n] + [s[n]] == s;
    }
  }

  /** Dropping the last entry of an ordered list leaves it ordered, and below that entry. */
  lemma SortedPrefix(s: seq<CurEntry>, t: seq<CurEntry>)
    requires Sorted(s) && s != [] && t == s[..|s| - 1]
    ensures Sorted(t)
    ensures forall i :: 0 <= i < |t| ==> t[i].order <= s[|s| - 1].order
  {
    forall i, j | 0 <= i < j < |t| ensures t[i].order <= t[j].order {
      assert t[i] == s[i] && t[j] == s[j];
    }
  }

  lemma {:induction false} InsertAtEnd(s: seq<CurEntry>, x: CurEntry)
    requires forall i :: 0 <= i < |s| ==> s[i].order <= x.order
    ensures Insert(s, x) == s + [x]
    decreases |s|
  {
    if s != [] {
      InsertAtEnd(s[1..], x);
      assert [s[0]] + (s[1..] + [x]) == s + [x];
    }
  }

  /** Appending an entry whose order is at least every other order keeps the entries ordered. */
  lemma AppendSorted(s: seq<CurEntry>, x: CurEntry)
    requires Sorted(s)
    requires forall i :: 0 <= i < |s| ==> s[i].order <= x.order
    ensures Sorted(s + [x])
  {
    var t := s + [x];
    assert forall i :: 0 <= i < |s| ==> t[i] == s[i];
  }

  // ----- Resolving entries to songs -----

  /**
   * The song an entry shows: the cached one; failing that, for a playlist
   * someone else owns, the owner's song document if it has a title and
   * content. Anything else is skipped.
   */
  function Lookup(known: map<string, CatalogSong>, owner: string, userId: string, ownerSongs: map<string, SongDoc>, id: string): (r: Option<CatalogSong>)
  {
    if id in known then Some(known[id])
    else if owner != userId && id in ownerSongs && Listable(ownerSongs[id]) then
      Some(CatalogSong(id, ownerSongs[id].title, ownerSongs[id].content.value, SharedScope))
    else None
  }

  /** The reference: the available songs of the entries, in entry order. */
  function Available(known: map<string, CatalogSong>, owner: string, userId: string, ownerSongs: map<string, SongDoc>, ordered: seq<CurEntry>): seq<CatalogSong>
  {
    if ordered == [] then []
    else
      var n := |ordered| - 1;
      var front := Available(known, owner, userId, ownerSongs, ordered[..n]);
      match Lookup(known, owner, userId, ownerSongs, ordered[n].songId)
      case Some(s) => front + [s]
      case None => front
  }

  /**
   * The resolving loop: `loadedSongs` grows by every song fetched from the
   * owner, and `currentPlaylistSongs` receives each entry's song.
   */
  function Resolve(known: map<string, CatalogSong>, owner: string, userId: string, ownerSongs: map<string, SongDoc>, ordered: seq<CurEntry>): (map<string, CatalogSong>, seq<CatalogSong>)
  {
    if ordered == [] then (known, [])
    else
      var n := |ordered| - 1;
      var (k, list) := Resolve(known, owner, userId, ownerSongs, ordered[..n]);
      var id := ordered[n].songId;
      match Lookup(k, owner, userId, ownerSongs, id)
      case Some(s) => (k[id := s], list + [s])
      case None => (k, list)
  }

  /** The resolving loop: the cached song, else the owner's song fetched into the cache, else skip. */
  method ResolveEntries(known0: map<string, CatalogSong>, owner: string, userId: string, ownerSongs: map<string, SongDoc>, ordered: seq<CurEntry>)
    returns (known: map<string, CatalogSong>, list: seq<CatalogSong>)
    ensures (known, list) == Resolve(known0, owner, userId, ownerSongs, ordered)
  {
    known := known0;
    list := [];
    var j := 0;
    while j < |ordered|
      invariant 0 <= j <= |ordered|
      invariant (known, list) == Resolve(known0, owner, userId, ownerSongs, ordered[..j])
    {
      assert ordered[..j + 1][..j] == ordered[..j];
      var id := ordered[j].songId;
      if id in known {
        assert known[id := known[id]] == known;
        list := list + [known[id]];
      } else if owner != userId && id in ownerSongs && ownerSongs[id].title != "" && ownerSongs[id].content.Some? {
        var s := CatalogSong(id, ownerSongs[id].title, ownerSongs[id].content.value, SharedScope);
        known := known[id := s];
        list := list + [s];
      }
      j := j + 1;
    }
    assert ordered[..j] == ordered;
  }

  /**
   * Fetching songs into the cache never changes what an entry resolves
   * to, so the loop's list is the available songs in entry order, and the
   * cache only gains songs.
   */
  lemma {:induction false} ResolveAvailable(known: map<string, CatalogSong>, owner: string, userId: string, ownerSongs: map<string, SongDoc>, ordered: seq<CurEntry>)
    ensures var (k, list) := Resolve(known, owner, userId, ownerSongs, ordered);
            && list == Available(known, owner, userId, ownerSongs, ordered)
            && (forall id :: Lookup(k, owner, userId, ownerSongs, id) == Lookup(known, owner, userId, ownerSongs, id))
            && (forall id :: id in known ==> id in k && k[id] == known[id])
  {
    if ordered != [] {
      var n := |ordered| - 1;
      ResolveAvailable(known, owner, userId, ownerSongs, ordered[..n]);
    }
  }

  /** Every shown song belongs to an entry, in order; every entry with an available song shows it. */
  lemma {:induction false} AvailableMembers(known: map<string, CatalogSong>, owner: string, userId: string, ownerSongs: map<string, SongDoc>, ordered: seq<CurEntry>)
    ensures var list := Available(known, owner, userId, ownerSongs, ordered);
            && |list| <= |ordered|
            && (forall s :: s in list ==> exists i :: 0 <= i < |ordered| && Lookup(known, owner, userId, ownerSongs, ordered[i].songId) == Some(s))
            && (forall i :: 0 <= i < |ordered| && Lookup(known, owner, userId, ownerSongs, ordered[i].songId).Some?
                  ==> Lookup(known, owner, userId, ownerSongs, ordered[i].songId).value in list)
  {
    if ordered != [] {
      var n := |ordered| - 1;
      AvailableMembers(known, owner, userId, ownerSongs, ordered[..n]);
      assert forall i :: 0 <= i < n ==> ordered[..n][i] == ordered[i];
    }
  }

  /** With every cached song under its own id, each song of the list is cached under its id afterwards. */
  lemma {:induction false} ResolveKnows(known: map<string, CatalogSong>, owner: string, userId: string, ownerSongs: map<string, SongDoc>, ordered: seq<CurEntry>)
    requires KeyedById(known)
    ensures var (k, list) := Resolve(known, owner, userId, ownerSongs, ordered);
            && KeyedById(k)
            && (forall s :: s in list ==> s.id in k && k[s.id] == s)
  {
    if ordered != [] {
      var n := |ordered| - 1;
      ResolveKnows(known, owner, userId, ownerSongs, ordered[..n]);
    }
  }

  // ----- Choosing the current song and moving between songs -----

  predicate HasSong(list: seq<CatalogSong>, id: string)
  {
    exists i :: 0 <= i < |list| && list[i].id == id
  }

  /** The current song stays if the list has it, else the first song; none for an empty list. */
  function PickCurrent(list: seq<CatalogSong>, current: Option<string>): (r: Option<string>)
    ensures r.None? <==> list == []
    ensures r.Some? ==> HasSong(list, r.value)
    ensures current.Some? && HasSong(list, current.value) ==> r == current
    ensures list != [] && !(current.Some? && HasSong(list, current.value)) ==> r == Some(list[0].id)
  {
    if list == [] then None
    else if current.Some? && HasSong(list, current.value) then current
    else
      assert list[0].id == list[0].id;
      Some(list[0].id)
  }

  /** `findIndex(s => s.id === currentSongId)`. */
  function IndexOfSong(list: seq<CatalogSong>, current: Option<string>): (r: int)
    ensures -1 <= r < |list|
    ensures r >= 0 ==> current == Some(list[r].id) && forall j :: 0 <= j < r ==> Some(list[j].id) != current
    ensures r == -1 ==> forall j :: 0 <= j < |list| ==> Some(list[j].id) != current
  {
    if list == [] then -1
    else if Some(list[0].id) == current then 0
    else
      var r := IndexOfSong(list[1..], current);
      if r == -1 then -1 else r + 1
  }

  /** The index goPrevNextSong moves to: the first or last song without a current one, else one step with wrap-around. */
  function NextIndex(idx: int, n: nat, next: bool): (r: nat)
    requires n > 0 && -1 <= idx < n
    ensures r < n
  {
    if idx == -1 then (if next then 0 else n - 1)
    else (idx + (if next then 1 else -1) + n) % n
  }

  lemma ModOnce(a: int, n: int)
    requires n > 0 && 0 <= a <= 2 * n
    ensures a % n == if a < n then a else if a < 2 * n then a - n else 0
  {
    if a == 2 * n {
      assert a == n * 2 + 0;
    } else if a >= n {
      assert a == n * 1 + (a - n);
    }
  }

  /**
   * The wrap-around: next from the last song goes to the first, previous
   * from the first goes to the last, every other step moves by one; without
   * a current song, next starts at the first and previous at the last.
   */
  lemma NextWraps(i: nat, n: nat)
    requires i < n
    ensures NextIndex(i, n, true) == if i == n - 1 then 0 else i + 1
    ensures NextIndex(i, n, false) == if i == 0 then n - 1 else i - 1
    ensures NextIndex(-1, n, true) == 0 && NextIndex(-1, n, false) == n - 1
  {
    ModOnce(i + 1 + n, n);
    ModOnce(i - 1 + n, n);
  }

  /** Next then previous (and previous then next) come back to the same song. */
  lemma NextPrevInverse(i: nat, n: nat)
    requires i < n
    ensures NextIndex(NextIndex(i, n, true), n, false) == i
    ensures NextIndex(NextIndex(i, n, false), n, true) == i
  {
    ModOnce(i + 1 + n, n);
    ModOnce(i - 1 + n, n);
    var j := NextIndex(i, n, true);
    var k := NextIndex(i, n, false);
    ModOnce(j - 1 + n, n);
    ModOnce(k + 1 + n, n);
  }

  // ----- addCurrentLocalToPlaylist: the next order and the song text -----

  /** `maxOrder` after the loop: `Math.max` over the orders, starting from 0. */
  function MaxOrder(entries: seq<CurEntry>): int
  {
    if entries == [] then 0
    else
      var m := MaxOrder(entries[..|entries| - 1]);
      var o := entries[|entries| - 1].order;
      if o > m then o else m
  }

  /** The largest order of the entries, or 0 when none is positive. */
  lemma {:induction false} MaxOrderIsMax(entries: seq<CurEntry>)
    ensures MaxOrder(entries) >= 0
    ensures forall i :: 0 <= i < |entries| ==> entries[i].order <= MaxOrder(entries)
    ensures MaxOrder(entries) == 0 || exists i :: 0 <= i < |entries| && entries[i].order == MaxOrder(entries)
  {
    if entries != [] {
      var n := |entries| - 1;
      MaxOrderIsMax(entries[..n]);
      assert forall i :: 0 <= i < n ==> entries[..n][i] == entries[i];
    }
  }

  /**
   * The order a new entry gets: ten above the largest order in
   * `currentEntries`, or 10 when none is positive.
   */
  method NextOrder(entries: seq<CurEntry>) returns (next: int)
    ensures next == MaxOrder(entries) + 10
    ensures next >= 10
    ensures forall i :: 0 <= i < |entries| ==> entries[i].order < next
  {
    var maxOrder := 0;
    var i := 0;
    while i < |entries|
      invariant 0 <= i <= |entries|
      invariant maxOrder == MaxOrder(entries[..i])
    {
      assert entries[..i + 1][..i] == entries[..i];
      if entries[i].order > maxOrder {
        maxOrder := entries[i].order;
      }
      i := i + 1;
    }
    assert entries[..i] == entries;
    MaxOrderIsMax(entries);
    next := maxOrder + 10;
  }

  predicate IsBreak(c: char)
  {
    c == '\r' || c == '\n'
  }

  /** `split(/\r\n|\r|\n/)`. */
  function SplitLines(s: string): (r: seq<string>)
    ensures |r| >= 1
    ensures forall i, j :: 0 <= i < |r| && 0 <= j < |r[i]| ==> !IsBreak(r[i][j])
    decreases |s|
  {
    if s == [] then [""]
    else if s[0] == '\r' && |s| >= 2 && s[1] == '\n' then [""] + SplitLines(s[2..])
    else if IsBreak(s[0]) then [""] + SplitLines(s[1..])
    else
      var rest := SplitLines(s[1..]);
      [[s[0]] + rest[0]] + rest[1..]
  }

  /** `join('\n')`. */
  function JoinLines(lines: seq<string>): string
  {
    if lines == [] then "" else if |lines| == 1 then lines[0] else lines[0] + "\n" + JoinLines(lines[1..])
  }

  /** Every `\r\n` and lone `\r` written as `\n`. */
  function NormalizeBreaks(s: string): (r: string)
    decreases |s|
  {
    if s == [] then []
    else if s[0] == '\r' && |s| >= 2 && s[1] == '\n' then "\n" + NormalizeBreaks(s[2..])
    else if IsBreak(s[0]) then "\n" + NormalizeBreaks(s[1..])
    else [s[0]] + NormalizeBreaks(s[1..])
  }

  lemma JoinCons(c: char, lines: seq<string>)
    requires lines != []
    ensures JoinLines([[c] + lines[0]] + lines[1..]) == [c] + JoinLines(lines)
  {
    var l := [[c] + lines[0]] + lines[1..];
    assert l[1..] == lines[1..];
  }

  /** Splitting into lines and joining them with `\n` normalises the line breaks. */
  lemma {:induction false} SplitJoin(s: string)
    ensures JoinLines(SplitLines(s)) == NormalizeBreaks(s)
    decreases |s|
  {
    if s == [] {
    } else if s[0] == '\r' && |s| >= 2 && s[1] == '\n' {
      SplitJoin(s[2..]);
      assert ([""] + SplitLines(s[2..]))[1..] == SplitLines(s[2..]);
    } else if IsBreak(s[0]) {
      SplitJoin(s[1..]);
      assert ([""] + SplitLines(s[1..]))[1..] == SplitLines(s[1..]);
    } else {
      SplitJoin(s[1..]);
      JoinCons(s[0], SplitLines(s[1..]));
    }
  }

  /** A line `trim` empties: white space only. */
  predicate Blank(line: string)
  {
    forall i :: 0 <= i < |line| ==> IsSpace(line[i])
  }

  lemma {:induction false} BlankTrimStart(line: string)
    requires Blank(line)
    ensures TrimStart(line) == []
    decreases |line|
  {
    if line != [] {
      assert forall i :: 0 <= i < |line| - 1 ==> line[1..][i] == line[i + 1];
      BlankTrimStart(line[1..]);
    }
  }

  lemma BlankIsTrimEmpty(line: string)
    ensures Blank(line) <==> Trim(line) == ""
  {
    if Blank(line) {
      BlankTrimStart(line);
    }
  }

  /** `findIndex(l => l.trim() !== '')`. */
  function FirstNonBlank(lines: seq<string>): (r: int)
    ensures -1 <= r < |lines|
    ensures r >= 0 ==> !Blank(lines[r]) && forall j :: 0 <= j < r ==> Blank(lines[j])
    ensures r == -1 ==> forall j :: 0 <= j < |lines| ==> Blank(lines[j])
  {
    if lines == [] then -1
    else if !Blank(lines[0]) then 0
    else
      var r := FirstNonBlank(lines[1..]);
      if r == -1 then -1 else r + 1
  }

  /** The title of a local song: its first non-blank line, trimmed ('Untitled' for an empty line). */
  function LocalTitle(text: string): string
  {
    var lines := SplitLines(text);
    var t := FirstNonBlank(lines);
    var t0 := if t < 0 then 0 else t;
    Trim(OrElse(lines[t0], "Untitled"))
  }

  /** The body of a local song: the lines after the title line, joined with `\n`. */
  function LocalBody(text: string): string
  {
    var lines := SplitLines(text);
    var t := FirstNonBlank(lines);
    var t0 := if t < 0 then 0 else t;
    JoinLines(lines[t0 + 1..])
  }
}
