/**
 * String.prototype.trim over an explicit whitespace set.
 *
 * ECMAScript's trim removes, from both ends, every code point that is
 * WhiteSpace or LineTerminator (sections 12.2 and 12.3 of ECMA-262). WhiteSpace
 * is TAB, VT, FF, ZWNBSP and every member of the Unicode category Zs; the Zs
 * members are written out below as Unicode 15 lists them.
 */
module JsStrings {

  const JS_WHITESPACE: set<char> := {
    // WhiteSpace other than Zs: TAB, VT, FF, ZWNBSP
    '\U{0009}', '\U{000B}', '\U{000C}', '\U{FEFF}',
    // LineTerminator: LF, CR, LS, PS
    '\U{000A}', '\U{000D}', '\U{2028}', '\U{2029}',
    // category Zs
    '\U{0020}', '\U{00A0}', '\U{1680}',
    '\U{2000}', '\U{2001}', '\U{2002}', '\U{2003}', '\U{2004}', '\U{2005}',
    '\U{2006}', '\U{2007}', '\U{2008}', '\U{2009}', '\U{200A}',
    '\U{202F}', '\U{205F}', '\U{3000}'
  }

  predicate IsJsWhitespace(c: char) {
    c in JS_WHITESPACE
  }

  predicate AllWhitespace(s: string) {
    forall i :: 0 <= i < |s| ==> IsJsWhitespace(s[i])
  }

  /** Neither the first nor the last character of s is whitespace. */
  predicate NoEdgeWhitespace(s: string) {
    s == [] || (!IsJsWhitespace(s[0]) && !IsJsWhitespace(s[|s| - 1]))
  }

  /** How many whitespace characters s starts with. */
  function LeadingCount(s: string): (n: nat)
    ensures n <= |s|
    ensures forall i :: 0 <= i < n ==> IsJsWhitespace(s[i])
    ensures n < |s| ==> !IsJsWhitespace(s[n])
  {
    if |s| > 0 && IsJsWhitespace(s[0]) then 1 + LeadingCount(s[1..]) else 0
  }

  /** How many whitespace characters s ends with. */
  function TrailingCount(s: string): (n: nat)
    ensures n <= |s|
    ensures forall i :: |s| - n <= i < |s| ==> IsJsWhitespace(s[i])
    ensures n < |s| ==> !IsJsWhitespace(s[|s| - 1 - n])
  {
    if |s| > 0 && IsJsWhitespace(s[|s| - 1]) then 1 + TrailingCount(s[..|s| - 1]) else 0
  }

  /**
   * String.prototype.trim: the characters of s from the first that is not
   * whitespace to the last that is not; nothing if there is none.
   */
  function Trim(s: string): string {
    var a := LeadingCount(s);
    if a == |s| then [] else s[a..|s| - TrailingCount(s)]
  }

  /** Trim leaves no whitespace at either end, and never lengthens. */
  lemma TrimHasCleanEdges(s: string)
    ensures NoEdgeWhitespace(Trim(s))
    ensures |Trim(s)| <= |s|
  {
    var a := LeadingCount(s);
    if a < |s| {
      var b := |s| - TrailingCount(s);
      assert !IsJsWhitespace(s[a]);
      assert a < b;
      var r := s[a..b];
      assert r[0] == s[a] && r[|r| - 1] == s[b - 1];
    }
  }

  /** Trim removes only whitespace, and only at the ends. */
  lemma TrimDecomposes(s: string)
    ensures AllWhitespace(s[..LeadingCount(s)])
    ensures LeadingCount(s) == |s| ==> Trim(s) == []
    ensures LeadingCount(s) < |s| ==>
      && LeadingCount(s) < |s| - TrailingCount(s)
      && Trim(s) == s[LeadingCount(s)..|s| - TrailingCount(s)]
      && AllWhitespace(s[|s| - TrailingCount(s)..])
  {
    var a, b := LeadingCount(s), |s| - TrailingCount(s);
    PrefixWhitespace(s, a);
    if a < |s| {
      assert !IsJsWhitespace(s[a]);
      assert a < b;
      SuffixWhitespace(s, b);
    }
  }

  lemma PrefixWhitespace(s: string, a: nat)
    requires a <= |s|
    requires forall i :: 0 <= i < a ==> IsJsWhitespace(s[i])
    ensures AllWhitespace(s[..a])
  {
    forall i | 0 <= i < a ensures IsJsWhitespace(s[..a][i]) {
      assert s[..a][i] == s[i];
    }
  }

  lemma SuffixWhitespace(s: string, b: nat)
    requires b <= |s|
    requires forall i :: b <= i < |s| ==> IsJsWhitespace(s[i])
    ensures AllWhitespace(s[b..])
  {
    forall i | 0 <= i < |s| - b ensures IsJsWhitespace(s[b..][i]) {
      assert s[b..][i] == s[b + i];
    }
  }

  /**
   * Trim is characterised by its contract: whatever whitespace surrounds a
   * string with no whitespace at its ends, trimming recovers that string.
   */
  lemma TrimRecoversCore(a: string, t: string, b: string)
    requires AllWhitespace(a) && AllWhitespace(b) && NoEdgeWhitespace(t)
    ensures Trim(a + t + b) == t
  {
    var s := a + t + b;
    if t == [] {
      assert AllWhitespace(s) by {
        forall i | 0 <= i < |s| ensures IsJsWhitespace(s[i]) {
          if i < |a| { assert s[i] == a[i]; } else { assert s[i] == b[i - |a|]; }
        }
      }
    } else {
      assert s[|a|] == t[0];
      assert s[|a| + |t| - 1] == t[|t| - 1];
      var n := LeadingCount(s);
      assert n == |a|;
      var m := TrailingCount(s);
      assert m == |b|;
      assert s[|a|..|s| - |b|] == t;
    }
  }

  /** Trimming twice is trimming once. */
  lemma TrimIdempotent(s: string)
    ensures Trim(Trim(s)) == Trim(s)
  {
    var r := Trim(s);
    TrimHasCleanEdges(s);
    assert [] + r + [] == r;
    TrimRecoversCore([], r, []);
  }

  /** A whitespace-only string, empty or not, trims to the empty string. */
  lemma WhitespaceOnlyTrimsToEmpty(s: string)
    requires AllWhitespace(s)
    ensures Trim(s) == []
  {
    assert s + [] + [] == s;
    TrimRecoversCore(s, [], []);
  }

  /** Trim leaves a string alone exactly when it has no whitespace at its ends. */
  lemma TrimFixesExactlyUntrimmed(s: string)
    ensures Trim(s) == s <==> NoEdgeWhitespace(s)
  {
    if NoEdgeWhitespace(s) {
      assert [] + s + [] == s;
      TrimRecoversCore([], s, []);
    }
  }
}
