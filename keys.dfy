/**
 * Composite playlist keys (index.js, makePlKey / parsePlKey).
 * A playlist is identified in the catalog by its owner's uid and its
 * own id joined with the separator "__"; parsing splits at the FIRST
 * occurrence of the separator.
 */
module Keys {

  import opened Common

  /** An (owner uid, playlist id) pair. */
  datatype PlRef = PlRef(owner: string, pid: string)

  function MakePlKey(owner: string, pid: string): string
  {
    owner + "__" + pid
  }

  /** The separator "__" starts at position i of s. */
  predicate SepAt(s: string, i: int)
  {
    0 <= i && i + 1 < |s| && s[i] == '_' && s[i + 1] == '_'
  }

  predicate HasSep(s: string)
  {
    exists i :: 0 <= i < |s| && SepAt(s, i)
  }

  /**
   * An owner that survives the round trip: it holds no separator and does
   * not end in '_' (otherwise the first "__" of the key starts inside it).
   */
  predicate ValidOwner(owner: string)
  {
    !HasSep(owner) && (owner == [] || owner[|owner| - 1] != '_')
  }

  /** `s.indexOf("__")`, with None for -1. */
  function IndexOfSep(s: string): (r: Option<nat>)
    ensures r.Some? ==> SepAt(s, r.value) && forall j :: 0 <= j < r.value ==> !SepAt(s, j)
    ensures r.None? <==> !HasSep(s)
  {
    if |s| < 2 then None
    else if s[0] == '_' && s[1] == '_' then Some(0)
    else match IndexOfSep(s[1..])
      case None =>
        assert forall j :: SepAt(s, j) ==> j == 0 || SepAt(s[1..], j - 1);
        None
      case Some(i) =>
        assert SepAt(s[1..], i);
        assert forall j :: 1 <= j <= i ==> SepAt(s, j) == SepAt(s[1..], j - 1);
        Some(i + 1)
  }

  /**
   * parsePlKey: split at the first "__"; a key without a separator is a
   * legacy playlist id owned by the signed-in user `userId`.
   */
  function ParsePlKey(key: string, userId: string): (r: PlRef)
    ensures !HasSep(key) ==> r == PlRef(userId, key)
    ensures HasSep(key) ==> MakePlKey(r.owner, r.pid) == key && ValidOwner(r.owner)
  {
    match IndexOfSep(key)
    case None => PlRef(userId, key)
    case Some(i) =>
      var r := PlRef(key[..i], key[i + 2..]);
      assert MakePlKey(r.owner, r.pid) == key;
      assert forall j :: SepAt(r.owner, j) ==> SepAt(key, j);
      assert i > 0 ==> !SepAt(key, i - 1);
      r
  }

  /** The key of a valid owner contains the separator exactly at |owner|. */
  lemma FirstSepOfKey(owner: string, pid: string)
    requires ValidOwner(owner)
    ensures IndexOfSep(MakePlKey(owner, pid)) == Some(|owner|)
  {
    var key := MakePlKey(owner, pid);
    assert SepAt(key, |owner|);
    var r := IndexOfSep(key);
    assert r.Some?;
    if r.value + 1 < |owner| {
      assert SepAt(owner, r.value);
    }
  }

  /**
   * Round trip: parsing a made key gives back the pair exactly when the
   * owner is valid (both directions).
   */
  lemma ParseMakeRoundTrip(owner: string, pid: string, userId: string)
    ensures ParsePlKey(MakePlKey(owner, pid), userId) == PlRef(owner, pid) <==> ValidOwner(owner)
  {
    var key := MakePlKey(owner, pid);
    assert SepAt(key, |owner|);
    if ValidOwner(owner) {
      FirstSepOfKey(owner, pid);
      assert key[..|owner|] == owner && key[|owner| + 2..] == pid;
    }
  }

  /** Distinct pairs with valid owners get distinct keys. */
  lemma MakePlKeyInjective(o1: string, p1: string, o2: string, p2: string)
    requires ValidOwner(o1) && ValidOwner(o2)
    requires MakePlKey(o1, p1) == MakePlKey(o2, p2)
    ensures o1 == o2 && p1 == p2
  {
    ParseMakeRoundTrip(o1, p1, "");
    ParseMakeRoundTrip(o2, p2, "");
  }
}
