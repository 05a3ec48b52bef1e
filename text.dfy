/** String helpers shared by several components: JavaScript's `trim`,
    `endsWith` and the truthiness of an optional string. The whitespace set of `trim` is a parameter `ws` rather than
    Unicode's table. */
module Text {
  import opened Wrappers

  /** Every character of `s` is whitespace (vacuously true of ""). */
  ghost predicate AllSpace(s: string, ws: char -> bool) {
    forall i :: 0 <= i < |s| ==> ws(s[i])
  }

  /** `s` neither starts nor ends with whitespace. */
  ghost predicate Trimmed(s: string, ws: char -> bool) {
    s != [] ==> !ws(s[0]) && !ws(s[|s| - 1])
  }

  /** The number of whitespace characters `s` starts with. */
  function LeadingSpace(s: string, ws: char -> bool): (n: nat)
    ensures n <= |s| && AllSpace(s[..n], ws)
    ensures n < |s| ==> !ws(s[n])
  {
    if s != [] && ws(s[0]) then
      var n := 1 + LeadingSpace(s[1..], ws);
      assert forall k :: 1 <= k < n ==> s[..n][k] == s[1..][..n - 1][k - 1];
      n
    else 0
  }

  /** The end of `s[..e]` once its trailing whitespace is dropped. */
  function SpaceFreeEnd(s: string, ws: char -> bool, e: nat): (m: nat)
    requires e <= |s|
    ensures m <= e
    ensures forall k :: m <= k < e ==> ws(s[k])
    ensures 0 < m ==> !ws(s[m - 1])
    decreases e
  {
    if 0 < e && ws(s[e - 1]) then SpaceFreeEnd(s, ws, e - 1) else e
  }

  /** The number of whitespace characters `s` ends with. */
  function TrailingSpace(s: string, ws: char -> bool): (n: nat)
    ensures n <= |s| && AllSpace(s[|s| - n..], ws)
    ensures n < |s| ==> !ws(s[|s| - n - 1])
  {
    |s| - SpaceFreeEnd(s, ws, |s|)
  }

  /** `String.prototype.trim`: the infix of `s` that starts after its leading
      whitespace; what lies either side of it is whitespace, it has no
      whitespace at its ends, and it is empty exactly when `s` is all
      whitespace. */
  function Trim(s: string, ws: char -> bool): (r: string)
    ensures |r| <= |s| - LeadingSpace(s, ws)
    ensures r == s[LeadingSpace(s, ws)..LeadingSpace(s, ws) + |r|]
    ensures AllSpace(s[..LeadingSpace(s, ws)], ws)
    ensures AllSpace(s[LeadingSpace(s, ws) + |r|..], ws)
    ensures Trimmed(r, ws)
    ensures r == [] <==> AllSpace(s, ws)
  {
    var i := LeadingSpace(s, ws);
    if i == |s| then
      assert s[..i] == s;
      []
    else
      var j := TrailingSpace(s, ws);
      assert j < |s| - i;
      var r := s[i..|s| - j];
      assert r[0] == s[i] && r[|r| - 1] == s[|s| - j - 1];
      assert !AllSpace(s, ws) by { assert !ws(s[i]); }
      r
  }

  /** Trimming is idempotent. */
  lemma TrimIdempotent(s: string, ws: char -> bool)
    ensures Trim(Trim(s, ws), ws) == Trim(s, ws)
  {
    TrimOfTrimmed(Trim(s, ws), ws);
  }

  /** A string without whitespace at its ends is its own trim. */
  lemma TrimOfTrimmed(s: string, ws: char -> bool)
    requires Trimmed(s, ws)
    ensures Trim(s, ws) == s
  {
    if s != [] {
      assert LeadingSpace(s, ws) == 0;
      assert TrailingSpace(s, ws) == 0;
    }
  }

  /** `String.prototype.endsWith`: `s` is some string followed by `suffix`. */
  predicate EndsWith(s: string, suffix: string): (b: bool)
    ensures b <==> |suffix| <= |s| && s == s[..|s| - |suffix|] + suffix
  {
    assert |suffix| <= |s| ==> s == s[..|s| - |suffix|] + s[|s| - |suffix|..];
    |suffix| <= |s| && s[|s| - |suffix|..] == suffix
  }

  /** JavaScript truthiness of an optional string: `undefined` and "" are
      falsy. */
  predicate Truthy(s: Option<string>) {
    s.Some? && s.value != ""
  }
}
