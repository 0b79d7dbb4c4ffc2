/**
 * JavaScript string search and replacement with a string pattern:
 * `s.indexOf(p)` and `s.replace(p, x)`, which replaces only the FIRST
 * occurrence of `p` and leaves `s` unchanged when `p` does not occur.
 */
module Text {
  import opened Wrappers

  /** `p` occurs in `s` starting at index `i`. */
  predicate OccursAt(s: string, p: string, i: nat) {
    i + |p| <= |s| && s[i..i + |p|] == p
  }

  /** The first index at or after `k` where `p` occurs in `s`. */
  function IndexOfFrom(s: string, p: string, k: nat): (r: Option<nat>)
    decreases |s| - k
    ensures r.Some? ==> k <= r.value && OccursAt(s, p, r.value)
    ensures r.Some? ==> forall j :: k <= j < r.value ==> !OccursAt(s, p, j)
    ensures r.None? ==> forall j :: k <= j ==> !OccursAt(s, p, j)
  {
    if k + |p| > |s| then None
    else if OccursAt(s, p, k) then Some(k)
    else IndexOfFrom(s, p, k + 1)
  }

  /** `s.indexOf(p)`, with `None` for -1. */
  function IndexOf(s: string, p: string): Option<nat> {
    IndexOfFrom(s, p, 0)
  }

  predicate Contains(s: string, p: string) {
    IndexOf(s, p).Some?
  }

  /** The first occurrence is the unique occurrence that has none before it. */
  lemma IndexOfIsFirst(s: string, p: string, b: nat)
    requires OccursAt(s, p, b)
    requires forall j :: 0 <= j < b ==> !OccursAt(s, p, j)
    ensures IndexOf(s, p) == Some(b)
  {
  }

  /** `s.replace(p, rep)` for a string pattern and a replacement without `$` patterns. */
  function ReplaceFirst(s: string, p: string, rep: string): (r: string)
  {
    match IndexOf(s, p)
    case None => s
    case Some(i) => s[..i] + rep + s[i + |p|..]
  }

  /**
   * `s.replace(tag, x + tag)`: the idiom that puts `x` just before the first
   * `tag`.
   */
  function InsertBefore(s: string, tag: string, x: string): string {
    ReplaceFirst(s, tag, x + tag)
  }

  /** Replacing the first occurrence changes the length by |rep| - |p|, and only when there is one. */
  lemma ReplaceFirstLength(s: string, p: string, rep: string)
    ensures Contains(s, p) ==> |ReplaceFirst(s, p, rep)| == |s| - |p| + |rep|
    ensures !Contains(s, p) ==> ReplaceFirst(s, p, rep) == s
  {
  }

  /**
   * Replacement acts on the first occurrence: when `p` occurs at `i` and at
   * no earlier index, the result is `s` with exactly that occurrence
   * swapped for `rep`, later occurrences untouched.
   */
  lemma ReplaceFirstShape(s: string, p: string, rep: string, i: nat)
    requires OccursAt(s, p, i)
    requires forall j :: 0 <= j < i ==> !OccursAt(s, p, j)
    ensures ReplaceFirst(s, p, rep) == s[..i] + rep + s[i + |p|..]
  {
    IndexOfIsFirst(s, p, i);
  }

  /** Inserting before the first `tag` at `i` keeps `s[..i]`, adds `x`, then keeps `s[i..]`. */
  lemma InsertBeforeAt(s: string, tag: string, x: string, i: nat)
    requires IndexOf(s, tag) == Some(i)
    ensures InsertBefore(s, tag, x) == s[..i] + x + s[i..]
  {
  }

  /** A pattern that opens with `<` and has no other `<`, such as a closing tag. */
  predicate TagLike(p: string) {
    |p| > 0 && p[0] == '<' && forall k :: 0 < k < |p| ==> p[k] != '<'
  }

  /** A tag-like pattern cannot start before index `i` and end after it when `s[i]` is `<`. */
  lemma NoStraddle(s: string, p: string, i: nat, j: nat)
    requires TagLike(p) && i < |s| && s[i] == '<'
    requires j < i < j + |p|
    ensures !OccursAt(s, p, j)
  {
  }

  /**
   * Where a tag-like pattern occurs after inserting `x` at index `i`, given
   * that `s` has a `<` at `i` (or `i` is its end) and `x` opens with `<`.
   */
  lemma OccursAfterInsert(s: string, x: string, p: string, i: nat, j: nat)
    requires TagLike(p) && i <= |s|
    requires i < |s| ==> s[i] == '<'
    requires |x| > 0 ==> x[0] == '<'
    ensures j + |p| <= i ==> (OccursAt(s[..i] + x + s[i..], p, j) <==> OccursAt(s, p, j))
    ensures j >= i + |x| ==> (OccursAt(s[..i] + x + s[i..], p, j) <==> OccursAt(s, p, j - |x|))
    ensures i <= j && j + |p| <= i + |x| ==> (OccursAt(s[..i] + x + s[i..], p, j) <==> OccursAt(x, p, j - i))
    ensures j < i < j + |p| ==> !OccursAt(s[..i] + x + s[i..], p, j)
    ensures i <= j < i + |x| < j + |p| ==> !OccursAt(s[..i] + x + s[i..], p, j)
  {
    var t := s[..i] + x + s[i..];
    assert |t| == |s| + |x|;
    if j + |p| <= i {
      assert t[j..j + |p|] == s[j..j + |p|];
    }
    if j >= i + |x| && j + |p| <= |t| {
      assert t[j..j + |p|] == s[j - |x|..j - |x| + |p|];
    }
    if i <= j && j + |p| <= i + |x| {
      assert t[j..j + |p|] == x[j - i..j - i + |p|];
    }
    if j < i < j + |p| && j + |p| <= |t| {
      assert t[i] == '<';
      NoStraddle(t, p, i, j);
    }
    if i <= j < i + |x| < j + |p| && j + |p| <= |t| {
      assert t[i + |x|] == s[i];
      NoStraddle(t, p, i + |x|, j);
    }
  }

  /** Every occurrence after the insertion comes from one in `s`, at the shifted index. */
  lemma OccursAfterInsertFromOld(s: string, x: string, p: string, i: nat, j: nat)
    requires TagLike(p) && i <= |s|
    requires i < |s| ==> s[i] == '<'
    requires |x| > 0 ==> x[0] == '<'
    requires !Contains(x, p)
    requires OccursAt(s[..i] + x + s[i..], p, j)
    ensures (j + |p| <= i && OccursAt(s, p, j)) || (j >= i + |x| && OccursAt(s, p, j - |x|))
  {
    OccursAfterInsert(s, x, p, i, j);
  }

  /** Nothing before index `b` occurs after the insertion when nothing before `b` occurred in `s`. */
  lemma NoneBeforeAfterInsert(s: string, x: string, p: string, i: nat, b: nat)
    requires TagLike(p) && i <= |s|
    requires i < |s| ==> s[i] == '<'
    requires |x| > 0 ==> x[0] == '<'
    requires !Contains(x, p)
    requires forall j :: 0 <= j < b ==> !OccursAt(s, p, j)
    ensures forall j :: 0 <= j < (if b < i then b else b + |x|) ==> !OccursAt(s[..i] + x + s[i..], p, j)
  {
    var t := s[..i] + x + s[i..];
    forall j: nat | j < (if b < i then b else b + |x|) && OccursAt(t, p, j)
      ensures false
    {
      OccursAfterInsertFromOld(s, x, p, i, j);
    }
  }

  /**
   * After inserting `x` (which opens with `<` and holds no `p`) at an index
   * `i` where `s` has a `<`, the first occurrence of a tag-like `p` is the
   * old one, shifted by |x| when it lay at or after `i`.
   */
  lemma IndexOfAfterInsert(s: string, x: string, p: string, i: nat)
    requires TagLike(p) && i <= |s|
    requires i < |s| ==> s[i] == '<'
    requires |x| > 0 ==> x[0] == '<'
    requires !Contains(x, p)
    ensures IndexOf(s[..i] + x + s[i..], p) ==
      match IndexOf(s, p)
      case None => None
      case Some(b) => Some(if b < i then b else b + |x|)
  {
    var t := s[..i] + x + s[i..];
    match IndexOf(s, p)
    case None =>
      NoneBeforeAfterInsert(s, x, p, i, |t|);
      assert forall j :: j >= |t| ==> !OccursAt(t, p, j);
    case Some(b) =>
      NoneBeforeAfterInsert(s, x, p, i, b);
      if b < i {
        if i < |s| && i < b + |p| { NoStraddle(s, p, i, b); }
        OccursAfterInsert(s, x, p, i, b);
        IndexOfIsFirst(t, p, b);
      } else {
        OccursAfterInsert(s, x, p, i, b + |x|);
        IndexOfIsFirst(t, p, b + |x|);
      }
  }

  /** Inserting `x` at an index where a tag-like `p` cannot straddle keeps every occurrence of `p`. */
  lemma ContainsAfterInsert(s: string, x: string, p: string, i: nat)
    requires TagLike(p) && i <= |s|
    requires i < |s| ==> s[i] == '<'
    requires |x| > 0 ==> x[0] == '<'
    requires Contains(s, p)
    ensures Contains(s[..i] + x + s[i..], p)
  {
    var b := IndexOf(s, p).value;
    if b < i {
      if i < |s| && i < b + |p| { NoStraddle(s, p, i, b); }
      OccursAfterInsert(s, x, p, i, b);
      assert OccursAt(s[..i] + x + s[i..], p, b);
    } else {
      OccursAfterInsert(s, x, p, i, b + |x|);
      assert OccursAt(s[..i] + x + s[i..], p, b + |x|);
    }
  }
}
