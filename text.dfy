/** The JavaScript string built-ins the screens rely on: `trim`, `toLowerCase`
    and `includes`, as functions on `seq<char>`. */
module Text {

  /** JavaScript's WhiteSpace and LineTerminator code points, the set `trim` strips. */
  predicate IsWhitespace(c: char) {
    || c == '\t' || c == '\U{000B}' || c == '\U{000C}' || c == ' '
    || c == '\U{00A0}' || c == '\U{FEFF}' || c == '\U{1680}'
    || ('\U{2000}' <= c <= '\U{200A}')
    || c == '\U{202F}' || c == '\U{205F}' || c == '\U{3000}'
    || c == '\n' || c == '\r' || c == '\U{2028}' || c == '\U{2029}'
  }

  ghost predicate AllWhitespace(s: string) {
    forall i :: 0 <= i < |s| ==> IsWhitespace(s[i])
  }

  /** Drops the longest all-whitespace prefix. */
  function TrimStart(s: string): (r: string)
    ensures |r| <= |s| && forall i :: 0 <= i < |r| ==> r[i] == s[|s| - |r| + i]
    ensures AllWhitespace(s[..|s| - |r|])
    ensures r != [] ==> !IsWhitespace(r[0])
  {
    if s != [] && IsWhitespace(s[0]) then TrimStart(s[1..]) else s
  }

  /** Drops the longest all-whitespace suffix. */
  function TrimEnd(s: string): (r: string)
    ensures |r| <= |s| && forall i :: 0 <= i < |r| ==> r[i] == s[i]
    ensures AllWhitespace(s[|r|..])
    ensures r != [] ==> !IsWhitespace(r[|r| - 1])
  {
    if s != [] && IsWhitespace(s[|s| - 1]) then TrimEnd(s[..|s| - 1]) else s
  }

  /** `s.trim()`: what is left after dropping the longest all-whitespace
      prefix and then the longest all-whitespace suffix. With `k` the length
      of the dropped prefix, the result is `s[k..k + |r|]`, neither end of it
      is whitespace, and every character of `s` outside it is. */
  function Trim(s: string): (r: string)
    ensures |r| <= |TrimStart(s)| <= |s|
    ensures forall i :: 0 <= i < |r| ==> r[i] == s[|s| - |TrimStart(s)| + i]
    ensures forall i :: 0 <= i < |s| - |TrimStart(s)| ==> IsWhitespace(s[i])
    ensures forall i :: |s| - |TrimStart(s)| + |r| <= i < |s| ==> IsWhitespace(s[i])
    ensures r != [] ==> !IsWhitespace(r[0]) && !IsWhitespace(r[|r| - 1])
  {
    var t := TrimStart(s);
    var r := TrimEnd(t);
    TrimParts(s, t, r);
    r
  }

  /** `TrimEnd` applied to the suffix `t` that `TrimStart` leaves of `s`:
      the kept part and the dropped parts, as positions in `s`. */
  lemma TrimParts(s: string, t: string, r: string)
    requires |r| <= |t| <= |s|
    requires forall i :: 0 <= i < |t| ==> t[i] == s[|s| - |t| + i]
    requires AllWhitespace(s[..|s| - |t|])
    requires forall i :: 0 <= i < |r| ==> r[i] == t[i]
    requires AllWhitespace(t[|r|..])
    requires t != [] ==> !IsWhitespace(t[0])
    requires r != [] ==> !IsWhitespace(r[|r| - 1])
    ensures forall i :: 0 <= i < |r| ==> r[i] == s[|s| - |t| + i]
    ensures forall i :: 0 <= i < |s| - |t| ==> IsWhitespace(s[i])
    ensures forall i :: |s| - |t| + |r| <= i < |s| ==> IsWhitespace(s[i])
    ensures r != [] ==> !IsWhitespace(r[0]) && !IsWhitespace(r[|r| - 1])
  {
    var k := |s| - |t|;
    forall i | 0 <= i < k
      ensures IsWhitespace(s[i])
    {
      assert s[i] == s[..k][i];
    }
    forall i | k + |r| <= i < |s|
      ensures IsWhitespace(s[i])
    {
      assert s[i] == t[i - k] == t[|r|..][i - k - |r|];
    }
  }

  /** `s.trim() === ''`, which is also what `!s.trim()` tests: holds exactly
      when every character of `s` is whitespace. */
  predicate IsBlank(s: string): (b: bool)
    ensures b <==> AllWhitespace(s)
  {
    Trim(s) == []
  }

  /** ASCII lower-casing of one character; every other character is kept. */
  function LowerChar(c: char): char {
    if 'A' <= c <= 'Z' then (c as int + 32) as char else c
  }

  /** `s.toLowerCase()`, restricted to ASCII letters. */
  function ToLower(s: string): (r: string)
    ensures |r| == |s|
    ensures forall i :: 0 <= i < |s| ==> r[i] == LowerChar(s[i])
  {
    if s == [] then [] else [LowerChar(s[0])] + ToLower(s[1..])
  }

  /** Lower-casing neither creates nor removes whitespace, so it keeps blankness. */
  lemma ToLowerKeepsBlank(s: string)
    ensures IsBlank(ToLower(s)) <==> IsBlank(s)
  {
    assert forall c :: IsWhitespace(LowerChar(c)) <==> IsWhitespace(c);
    if AllWhitespace(ToLower(s)) {
      forall i | 0 <= i < |s| ensures IsWhitespace(s[i]) {
        assert IsWhitespace(ToLower(s)[i]);
      }
    }
  }

  /** `sub` occurs in `s` at index `i`. */
  ghost predicate OccursAt(s: string, sub: string, i: int) {
    0 <= i <= |s| - |sub| && s[i..i + |sub|] == sub
  }

  /** `prefix` is a prefix of `s`. */
  predicate StartsWith(s: string, prefix: string) {
    |prefix| <= |s| && s[..|prefix|] == prefix
  }

  /** `s.includes(sub)`: true exactly when `sub` occurs somewhere in `s`. */
  function Includes(s: string, sub: string): (r: bool)
    ensures r <==> exists i :: OccursAt(s, sub, i)
  {
    if StartsWith(s, sub) then
      assert OccursAt(s, sub, 0);
      true
    else if s == [] then
      false
    else
      OccursInTail(s, sub);
      Includes(s[1..], sub)
  }

  /** When `sub` is not at the head of a non-empty `s`, it occurs in `s` exactly
      when it occurs in the tail of `s`. */
  lemma OccursInTail(s: string, sub: string)
    requires s != [] && !StartsWith(s, sub)
    ensures (exists i :: OccursAt(s, sub, i)) <==> exists j :: OccursAt(s[1..], sub, j)
  {
    if exists i :: OccursAt(s, sub, i) {
      var i :| OccursAt(s, sub, i);
      assert i != 0;
      assert s[1..][i - 1..i - 1 + |sub|] == s[i..i + |sub|];
      assert OccursAt(s[1..], sub, i - 1);
    }
    if exists j :: OccursAt(s[1..], sub, j) {
      var j :| OccursAt(s[1..], sub, j);
      assert s[j + 1..j + 1 + |sub|] == s[1..][j..j + |sub|];
      assert OccursAt(s, sub, j + 1);
    }
  }
}
