/**
 * String helpers with JavaScript semantics: `trim`, the `\s` class and
 * `slugifyName` (index.js:333-335).
 */
module Text {

  /** ECMAScript WhiteSpace and LineTerminator: what `trim` and `\s` match. */
  predicate IsSpace(c: char)
  {
    || c == '\t' || c == '\n' || c == '\U{B}' || c == '\U{C}' || c == '\r'
    || c == ' ' || c == '\U{A0}' || c == '\U{1680}'
    || ('\U{2000}' <= c <= '\U{200A}')
    || c == '\U{2028}' || c == '\U{2029}' || c == '\U{202F}' || c == '\U{205F}'
    || c == '\U{3000}' || c == '\U{FEFF}'
  }

  /** `toLowerCase` on the ASCII letters. */
  function ToLower(s: string): (r: string)
    ensures |r| == |s|
    ensures forall i :: 0 <= i < |s| ==> r[i] == (if 'A' <= s[i] <= 'Z' then (s[i] as int + 32) as char else s[i])
  {
    if s == [] then []
    else [if 'A' <= s[0] <= 'Z' then (s[0] as int + 32) as char else s[0]] + ToLower(s[1..])
  }

  function TrimStart(s: string): (r: string)
    ensures |r| <= |s| && r == s[|s| - |r|..]
    ensures r == [] || !IsSpace(r[0])
    ensures forall i :: 0 <= i < |s| - |r| ==> IsSpace(s[i])
  {
    if s != [] && IsSpace(s[0]) then TrimStart(s[1..]) else s
  }

  function TrimEnd(s: string): (r: string)
    ensures |r| <= |s| && r == s[..|r|]
    ensures r == [] || !IsSpace(r[|r| - 1])
    ensures forall i :: |r| <= i < |s| ==> IsSpace(s[i])
  {
    if s != [] && IsSpace(s[|s| - 1]) then TrimEnd(s[..|s| - 1]) else s
  }

  /** `String.prototype.trim`. */
  function Trim(s: string): (r: string)
    ensures r == [] || (!IsSpace(r[0]) && !IsSpace(r[|r| - 1]))
  {
    var t := TrimStart(s);
    var r := TrimEnd(t);
    assert r != [] ==> r[0] == t[0];
    r
  }

  /**
   * `trim` removes white space at the two ends and nothing else: the
   * result is the slice of the input from `k`, and every character outside
   * that slice is white space.
   */
  lemma TrimSlice(s: string) returns (k: nat)
    ensures k + |Trim(s)| <= |s| && Trim(s) == s[k..k + |Trim(s)|]
    ensures forall i :: 0 <= i < k ==> IsSpace(s[i])
    ensures forall i :: k + |Trim(s)| <= i < |s| ==> IsSpace(s[i])
  {
    k := |s| - |TrimStart(s)|;
  }

  /**
   * `replace(/\s+/g, '-')`: every maximal run of white space becomes one
   * '-'. A space followed by another space is dropped; the last space of a
   * run becomes the '-'.
   */
  function CollapseSpaces(s: string): (r: string)
    ensures forall i :: 0 <= i < |r| ==> !IsSpace(r[i])
  {
    if s == [] then []
    else if !IsSpace(s[0]) then [s[0]] + CollapseSpaces(s[1..])
    else if |s| > 1 && IsSpace(s[1]) then CollapseSpaces(s[1..])
    else "-" + CollapseSpaces(s[1..])
  }

  /** Characters allowed in a slug: `[a-z0-9-]`. */
  predicate IsSlugChar(c: char)
  {
    ('a' <= c <= 'z') || ('0' <= c <= '9') || c == '-'
  }

  /** `replace(/[^a-z0-9\-]/g, '')`. */
  function KeepSlugChars(s: string): (r: string)
    ensures |r| <= |s|
    ensures forall i :: 0 <= i < |r| ==> IsSlugChar(r[i])
    ensures forall c :: c in r <==> c in s && IsSlugChar(c)
  {
    if s == [] then []
    else if IsSlugChar(s[0]) then [s[0]] + KeepSlugChars(s[1..])
    else KeepSlugChars(s[1..])
  }

  predicate IsSlug(s: string)
  {
    forall i :: 0 <= i < |s| ==> IsSlugChar(s[i])
  }

  /** slugifyName: a non-empty id of at most 60 slug characters. */
  function Slugify(s: string): (r: string)
    ensures 1 <= |r| <= 60
    ensures IsSlug(r)
  {
    var kept := KeepSlugChars(CollapseSpaces(Trim(ToLower(s))));
    var cut := if |kept| <= 60 then kept else kept[..60];
    assert IsSlug(cut) by {
      assert IsSlug(kept);
    }
    if cut == [] then
      assert IsSlug("shared") by {
        assert forall i :: 0 <= i < 6 ==> "shared"[i] in "shared";
      }
      "shared"
    else cut
  }

  lemma {:induction false} ToLowerSlug(s: string)
    requires IsSlug(s)
    ensures ToLower(s) == s
  {
  }

  lemma {:induction false} CollapseNoSpace(s: string)
    requires forall i :: 0 <= i < |s| ==> !IsSpace(s[i])
    ensures CollapseSpaces(s) == s
    decreases |s|
  {
    if s != [] {
      CollapseNoSpace(s[1..]);
    }
  }

  lemma {:induction false} KeepSlug(s: string)
    requires IsSlug(s)
    ensures KeepSlugChars(s) == s
  {
    if s != [] {
      KeepSlug(s[1..]);
    }
  }

  lemma SlugHasNoSpace(s: string)
    requires IsSlug(s)
    ensures forall i :: 0 <= i < |s| ==> !IsSpace(s[i])
  {
    forall i | 0 <= i < |s| ensures !IsSpace(s[i]) {
      assert IsSlugChar(s[i]);
    }
  }

  lemma TrimNoSpace(s: string)
    requires forall i :: 0 <= i < |s| ==> !IsSpace(s[i])
    ensures Trim(s) == s
  {
    assert TrimStart(s) == s;
    assert TrimEnd(s) == s;
  }

  /** The filter works character by character: it distributes over concatenation. */
  lemma {:induction false} KeepSlugAppend(a: string, b: string)
    ensures KeepSlugChars(a + b) == KeepSlugChars(a) + KeepSlugChars(b)
    decreases |a|
  {
    if a == [] {
      assert a + b == b;
    } else {
      assert (a + b)[1..] == a[1..] + b;
      KeepSlugAppend(a[1..], b);
    }
  }

  /** One character is kept exactly when it is a slug character. */
  lemma KeepSlugOne(c: char)
    ensures KeepSlugChars([c]) == if IsSlugChar(c) then [c] else []
  {
    assert [c][1..] == [];
  }

  /** Leading white space stops at the first non-space, so what follows it is untouched. */
  lemma {:induction false} TrimStartAppend(x: string, y: string)
    requires x != [] && !IsSpace(x[|x| - 1])
    ensures TrimStart(x + y) == TrimStart(x) + y
    decreases |x|
  {
    if IsSpace(x[0]) {
      assert (x + y)[1..] == x[1..] + y;
      TrimStartAppend(x[1..], y);
    }
  }

  /** A run of white space in front of a non-space (or of nothing) is removed whole. */
  lemma {:induction false} TrimStartRun(w: string, b: string)
    requires forall i :: 0 <= i < |w| ==> IsSpace(w[i])
    requires b == [] || !IsSpace(b[0])
    ensures TrimStart(w + b) == b
    decreases |w|
  {
    if w == [] {
      assert w + b == b;
    } else {
      assert (w + b)[1..] == w[1..] + b;
      TrimStartRun(w[1..], b);
    }
  }

  /**
   * Collapsing keeps text that ends in a non-space as it is and goes on
   * with the rest: runs never straddle such a boundary.
   */
  lemma {:induction false} CollapseAppend(a: string, b: string)
    requires a == [] || !IsSpace(a[|a| - 1])
    ensures CollapseSpaces(a + b) == CollapseSpaces(a) + CollapseSpaces(b)
    decreases |a|
  {
    if a == [] {
      assert a + b == b;
    } else {
      var t := a[1..];
      assert (a + b)[1..] == t + b;
      CollapseAppend(t, b);
      if !IsSpace(a[0]) {
        assert [a[0]] + (CollapseSpaces(t) + CollapseSpaces(b)) == ([a[0]] + CollapseSpaces(t)) + CollapseSpaces(b);
      } else if !IsSpace(a[1]) {
        assert "-" + (CollapseSpaces(t) + CollapseSpaces(b)) == ("-" + CollapseSpaces(t)) + CollapseSpaces(b);
      }
    }
  }

  /** A maximal run of white space becomes exactly one '-'. */
  lemma {:induction false} CollapseRun(w: string, b: string)
    requires w != [] && forall i :: 0 <= i < |w| ==> IsSpace(w[i])
    requires b == [] || !IsSpace(b[0])
    ensures CollapseSpaces(w + b) == "-" + CollapseSpaces(b)
    decreases |w|
  {
    assert (w + b)[1..] == w[1..] + b;
    if |w| == 1 {
      assert w[1..] + b == b;
    } else {
      CollapseRun(w[1..], b);
    }
  }

  /** A non-space character is kept, in place. */
  lemma CollapseKeeps(c: char, b: string)
    requires !IsSpace(c)
    ensures CollapseSpaces([c] + b) == [c] + CollapseSpaces(b)
  {
    assert ([c] + b)[1..] == b;
  }

  /** A slug that fits the length limit comes back unchanged. */
  lemma SlugKept(s: string)
    requires IsSlug(s) && 1 <= |s| <= 60
    ensures Slugify(s) == s
  {
    ToLowerSlug(s);
    SlugHasNoSpace(s);
    TrimNoSpace(s);
    CollapseNoSpace(s);
    KeepSlug(s);
    assert KeepSlugChars(CollapseSpaces(Trim(ToLower(s)))) == s;
  }

  /** A slug is its own slug: slugifyName is idempotent. */
  lemma SlugifyIdempotent(s: string)
    ensures Slugify(Slugify(s)) == Slugify(s)
  {
    SlugKept(Slugify(s));
  }
}
