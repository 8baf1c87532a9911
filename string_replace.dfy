/**
 * `String.prototype.replace(pattern, replacement)` with a string pattern, as
 * ECMA-262 defines it: only the first occurrence of the pattern is replaced,
 * and the replacement text is itself a template in which `$$`, `$&`, `` $` ``
 * and `$'` are expanded (GetSubstitution with no capture groups).
 *
 * The second half states what a chain of such replacements does to a
 * template made of fixed texts interleaved with `<TAG>` placeholders.
 */
module StringReplace {
  import opened Js

  /** `p` occurs in `s` starting at index `k`. */
  predicate MatchAt(s: string, p: string, k: int)
  {
    0 <= k && k + |p| <= |s| && s[k..k + |p|] == p
  }

  function IndexFrom(s: string, p: string, from: nat): (r: Option<nat>)
    ensures r.Some? ==> r.value + |p| <= |s|
    decreases |s| - from
  {
    if from + |p| > |s| then None
    else if s[from..from + |p|] == p then Some(from)
    else IndexFrom(s, p, from + 1)
  }

  /** The first occurrence of `p` in `s` (`s.indexOf(p)`, with -1 as None). */
  function IndexOf(s: string, p: string): (r: Option<nat>)
    ensures r.Some? ==> r.value + |p| <= |s|
  {
    IndexFrom(s, p, 0)
  }

  lemma {:induction false} IndexFromSpec(s: string, p: string, from: nat)
    ensures IndexFrom(s, p, from).Some? ==>
      from <= IndexFrom(s, p, from).value && MatchAt(s, p, IndexFrom(s, p, from).value)
      && forall k | from <= k < IndexFrom(s, p, from).value :: !MatchAt(s, p, k)
    ensures IndexFrom(s, p, from).None? ==> forall k | from <= k :: !MatchAt(s, p, k)
    decreases |s| - from
  {
    if from + |p| <= |s| && s[from..from + |p|] != p {
      IndexFromSpec(s, p, from + 1);
    }
  }

  /** IndexOf reports a match, and no match starts earlier; None means there is no match at all. */
  lemma IndexOfSpec(s: string, p: string)
    ensures IndexOf(s, p).Some? ==>
      MatchAt(s, p, IndexOf(s, p).value) && forall k | 0 <= k < IndexOf(s, p).value :: !MatchAt(s, p, k)
    ensures IndexOf(s, p).None? ==> forall k :: !MatchAt(s, p, k)
  {
    IndexFromSpec(s, p, 0);
  }

  /** A match with no earlier match is the one IndexOf reports. */
  lemma FirstMatch(s: string, p: string, k: nat)
    requires MatchAt(s, p, k)
    requires forall j | 0 <= j < k :: !MatchAt(s, p, j)
    ensures IndexOf(s, p) == Some(k)
  {
    IndexOfSpec(s, p);
  }

  /**
   * GetSubstitution for a match without capture groups: `$$` is a dollar,
   * `$&` the matched text, `` $` `` the text before the match, `$'` the text
   * after it; every other character, including a `$` starting any other
   * sequence, is copied.
   */
  function Expand(r: string, matched: string, before: string, after: string): (e: string)
    ensures '$' !in r ==> e == r
  {
    if |r| >= 2 && r[0] == '$' && r[1] == '$' then "$" + Expand(r[2..], matched, before, after)
    else if |r| >= 2 && r[0] == '$' && r[1] == '&' then matched + Expand(r[2..], matched, before, after)
    else if |r| >= 2 && r[0] == '$' && r[1] == '`' then before + Expand(r[2..], matched, before, after)
    else if |r| >= 2 && r[0] == '$' && r[1] == '\'' then after + Expand(r[2..], matched, before, after)
    else if |r| >= 1 then [r[0]] + Expand(r[1..], matched, before, after)
    else ""
  }

  /** A replacement text starting with a `$`-free part copies that part unchanged. */
  lemma {:induction false} ExpandPlainPrefix(a: string, b: string, matched: string, before: string, after: string)
    requires '$' !in a
    ensures Expand(a + b, matched, before, after) == a + Expand(b, matched, before, after)
  {
    if |a| > 0 {
      assert a[0] in a;
      assert (a + b)[0] == a[0] != '$' && (a + b)[1..] == a[1..] + b;
      assert Expand(a + b, matched, before, after) == [a[0]] + Expand(a[1..] + b, matched, before, after);
      assert '$' !in a[1..] by {
        forall c | c in a[1..] ensures c != '$' {
          assert c in a;
        }
      }
      ExpandPlainPrefix(a[1..], b, matched, before, after);
      var e := Expand(b, matched, before, after);
      assert [a[0]] + (a[1..] + e) == ([a[0]] + a[1..]) + e;
      assert a == [a[0]] + a[1..];
    } else {
      assert a + b == b;
    }
  }

  /** `$&` in a replacement stands for the matched text. */
  lemma ExpandMatched(matched: string, before: string, after: string)
    ensures Expand("$&", matched, before, after) == matched
  {
    assert "$&"[2..] == "";
  }

  /** `s.replace(p, r)` for a string pattern `p`. */
  function ReplaceFirst(s: string, p: string, r: string): string
  {
    match IndexOf(s, p)
    case None => s
    case Some(k) => s[..k] + Expand(r, p, s[..k], s[k + |p|..]) + s[k + |p|..]
  }

  /**
   * With a replacement free of `$`, the first occurrence of `p` is swapped
   * for `r`, and the text on either side of it is kept.
   */
  lemma ReplaceFirstLiteral(x: string, p: string, y: string, r: string)
    requires forall k | 0 <= k < |x| :: !MatchAt(x + p + y, p, k)
    requires '$' !in r
    ensures ReplaceFirst(x + p + y, p, r) == x + r + y
  {
    var s := x + p + y;
    assert s[|x|..|x| + |p|] == p;
    FirstMatch(s, p, |x|);
    assert s[..|x|] == x;
    assert s[|x| + |p|..] == y;
  }

  /** Replacing the empty pattern inserts the replacement in front. */
  lemma ReplaceEmptyPattern(s: string, r: string)
    requires '$' !in r
    ensures ReplaceFirst(s, "", r) == r + s
  {
    assert MatchAt(s, "", 0);
    FirstMatch(s, "", 0);
  }

  // ---------------------------------------------------------------------
  // Templates with placeholders
  // ---------------------------------------------------------------------

  /** `texts[0] + slots[0] + texts[1] + slots[1] + ...` */
  function Interleave(texts: seq<string>, slots: seq<string>): string
    requires |texts| == |slots|
    decreases |texts|
  {
    if |texts| == 0 then "" else texts[0] + slots[0] + Interleave(texts[1..], slots[1..])
  }

  /** Everything in front of slot `i`. */
  function Before(texts: seq<string>, slots: seq<string>, i: nat): string
    requires |texts| == |slots| && i < |texts|
  {
    Interleave(texts[..i], slots[..i]) + texts[i]
  }

  /** Everything behind slot `i`. */
  function After(texts: seq<string>, slots: seq<string>, i: nat): string
    requires |texts| == |slots| && i < |texts|
  {
    Interleave(texts[i + 1..], slots[i + 1..])
  }

  lemma {:induction false} InterleaveSplit(texts: seq<string>, slots: seq<string>, i: nat)
    requires |texts| == |slots| && i < |texts|
    ensures Interleave(texts, slots) == Before(texts, slots, i) + slots[i] + After(texts, slots, i)
  {
    if i == 0 {
      assert texts[..0] == [] && slots[..0] == [];
      assert texts[1..] == texts[0 + 1..];
    } else {
      var t, s := texts[1..], slots[1..];
      InterleaveSplit(t, s, i - 1);
      assert texts[..i][1..] == t[..i - 1] && slots[..i][1..] == s[..i - 1];
      assert texts[..i][0] == texts[0] && slots[..i][0] == slots[0];
      assert Interleave(texts[..i], slots[..i]) == texts[0] + slots[0] + Interleave(t[..i - 1], s[..i - 1]);
      assert t[i - 1 + 1..] == texts[i + 1..] && s[i - 1 + 1..] == slots[i + 1..];
      assert t[i - 1] == texts[i] && s[i - 1] == slots[i];
    }
  }

  /** Every `<` in `x` is followed, inside `x`, by a character other than `c`. */
  predicate Guarded(x: string, c: char)
  {
    forall j | 0 <= j < |x| && x[j] == '<' :: j + 1 < |x| && x[j + 1] != c
  }

  lemma PlainGuarded(x: string, c: char)
    requires '<' !in x
    ensures Guarded(x, c)
  {
  }

  lemma GuardedConcat(a: string, b: string, c: char)
    requires Guarded(a, c) && Guarded(b, c)
    ensures Guarded(a + b, c)
  {
    var s := a + b;
    forall j | 0 <= j < |s| && s[j] == '<' ensures j + 1 < |s| && s[j + 1] != c {
      if j < |a| {
        assert a[j] == '<';
      } else {
        assert b[j - |a|] == '<';
      }
    }
  }

  /** A placeholder `<X...>` cannot start inside a guarded text. */
  lemma GuardedNoMatch(x: string, y: string, p: string)
    requires |p| >= 2 && p[0] == '<' && Guarded(x, p[1])
    ensures forall k | 0 <= k < |x| :: !MatchAt(x + y, p, k)
  {
    var s := x + y;
    forall k | 0 <= k < |x| ensures !MatchAt(s, p, k) {
      if k + |p| <= |s| {
        if x[k] == '<' {
          assert s[k + 1] == x[k + 1] != p[1];
          assert s[k..k + |p|][1] != p[1];
        } else {
          assert s[k..k + |p|][0] != p[0];
        }
      }
    }
  }

  lemma {:induction false} InterleaveGuarded(texts: seq<string>, slots: seq<string>, c: char)
    requires |texts| == |slots|
    requires forall j | 0 <= j < |texts| :: Guarded(texts[j], c) && Guarded(slots[j], c)
    ensures Guarded(Interleave(texts, slots), c)
    decreases |texts|
  {
    if |texts| > 0 {
      InterleaveGuarded(texts[1..], slots[1..], c);
      GuardedConcat(texts[0], slots[0], c);
      GuardedConcat(texts[0] + slots[0], Interleave(texts[1..], slots[1..]), c);
    }
  }

  /**
   * Replacing the placeholder held by slot `i`, when no text or slot in front
   * of it can start that placeholder, fills exactly slot `i` with the
   * expanded replacement; every other text and slot is kept.
   */
  lemma FillSlot(texts: seq<string>, slots: seq<string>, i: nat, v: string)
    requires |texts| == |slots| && i < |slots|
    requires |slots[i]| >= 2 && slots[i][0] == '<'
    requires forall j | 0 <= j <= i :: Guarded(texts[j], slots[i][1])
    requires forall j | 0 <= j < i :: Guarded(slots[j], slots[i][1])
    ensures ReplaceFirst(Interleave(texts, slots), slots[i], v)
         == Interleave(texts, slots[i := Expand(v, slots[i], Before(texts, slots, i), After(texts, slots, i))])
  {
    var p := slots[i];
    var x, y := Before(texts, slots, i), After(texts, slots, i);
    var e := Expand(v, p, x, y);
    var filled := slots[i := e];
    InterleaveSplit(texts, slots, i);
    InterleaveSplit(texts, filled, i);
    assert filled[..i] == slots[..i] && filled[i + 1..] == slots[i + 1..];
    assert Before(texts, filled, i) == x && After(texts, filled, i) == y;
    InterleaveGuarded(texts[..i], slots[..i], p[1]);
    GuardedConcat(Interleave(texts[..i], slots[..i]), texts[i], p[1]);
    var s := x + p + y;
    GuardedNoMatch(x, p + y, p);
    assert s == x + (p + y);
    assert s[|x|..|x| + |p|] == p;
    FirstMatch(s, p, |x|);
    assert s[..|x|] == x && s[|x| + |p|..] == y;
  }
}
