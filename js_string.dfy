/** `String.prototype.trim` of JavaScript: removes the leading and trailing
    characters that ECMAScript counts as WhiteSpace or LineTerminator. */
module JsString {

  /** ECMAScript WhiteSpace (tab, vertical tab, form feed, the no-break space,
      the byte order mark and every space separator) and LineTerminator. */
  predicate IsWhiteSpace(c: char) {
    var n := c as int;
    (9 <= n <= 13) || n == 32 || n == 0xA0 || n == 0x1680 || (0x2000 <= n <= 0x200A)
    || n == 0x2028 || n == 0x2029 || n == 0x202F || n == 0x205F || n == 0x3000 || n == 0xFEFF
  }

  /** Drops leading white space. */
  function TrimStart(s: string): (r: string)
    ensures |r| <= |s|
    decreases |s|
  {
    if s != [] && IsWhiteSpace(s[0]) then TrimStart(s[1..]) else s
  }

  /** Drops trailing white space. */
  function TrimEnd(s: string): (r: string)
    ensures |r| <= |s|
    decreases |s|
  {
    if s != [] && IsWhiteSpace(s[|s| - 1]) then TrimEnd(s[..|s| - 1]) else s
  }

  /** `TrimStart` keeps a suffix of `s`, everything it drops is white space,
      and what it keeps does not start with white space. */
  lemma {:induction false} TrimStartIsSuffix(s: string)
    ensures var r := TrimStart(s);
      && r == s[|s| - |r|..]
      && (forall k :: 0 <= k < |s| - |r| ==> IsWhiteSpace(s[k]))
      && (r != [] ==> !IsWhiteSpace(r[0]))
    decreases |s|
  {
    if s != [] && IsWhiteSpace(s[0]) {
      var r := TrimStart(s[1..]);
      TrimStartIsSuffix(s[1..]);
      assert s[1..][|s| - 1 - |r|..] == s[|s| - |r|..];
      forall k | 0 < k < |s| - |r| ensures IsWhiteSpace(s[k]) {
        assert s[k] == s[1..][k - 1];
      }
    }
  }

  /** `TrimEnd` keeps a prefix of `s`, everything it drops is white space,
      and what it keeps does not end with white space. */
  lemma {:induction false} TrimEndIsPrefix(s: string)
    ensures var r := TrimEnd(s);
      && r == s[..|r|]
      && (forall k :: |r| <= k < |s| ==> IsWhiteSpace(s[k]))
      && (r != [] ==> !IsWhiteSpace(r[|r| - 1]))
    decreases |s|
  {
    if s != [] && IsWhiteSpace(s[|s| - 1]) {
      var r := TrimEnd(s[..|s| - 1]);
      TrimEndIsPrefix(s[..|s| - 1]);
      assert s[..|s| - 1][..|r|] == s[..|r|];
      forall k | |r| <= k < |s| - 1 ensures IsWhiteSpace(s[k]) {
        assert s[k] == s[..|s| - 1][k];
      }
    }
  }

  /** `s.trim()`. */
  function Trim(s: string): string {
    TrimEnd(TrimStart(s))
  }

  /** `s.trim()` is an infix of `s`, starting where `TrimStart` leaves off. */
  lemma TrimIsInfix(s: string)
    ensures var r, i := Trim(s), |s| - |TrimStart(s)|;
      i + |r| <= |s| && r == s[i..i + |r|]
  {
    var t := TrimStart(s);
    TrimStartIsSuffix(s);
    TrimEndIsPrefix(t);
    assert t == s[|s| - |t|..];
  }

  /** Everything `trim` drops, before and after that infix, is white space. */
  lemma TrimDropsOnlyWhiteSpace(s: string)
    ensures var r, i := Trim(s), |s| - |TrimStart(s)|;
      && (forall k :: 0 <= k < i ==> IsWhiteSpace(s[k]))
      && (forall k :: i + |r| <= k < |s| ==> IsWhiteSpace(s[k]))
  {
    var t := TrimStart(s);
    var r := TrimEnd(t);
    var i := |s| - |t|;
    TrimStartIsSuffix(s);
    TrimEndIsPrefix(t);
    forall k | i + |r| <= k < |s| ensures IsWhiteSpace(s[k]) {
      assert s[k] == t[k - i];
    }
  }

  /** What `trim` keeps neither starts nor ends with white space. */
  lemma TrimKeepsNoOuterWhiteSpace(s: string)
    ensures var r := Trim(s);
      r != [] ==> !IsWhiteSpace(r[0]) && !IsWhiteSpace(r[|r| - 1])
  {
    var t := TrimStart(s);
    var r := TrimEnd(t);
    TrimStartIsSuffix(s);
    TrimEndIsPrefix(t);
    assert r != [] ==> r[0] == t[0];
  }

  /** `!s.trim()` holds exactly when `s` is all white space (or empty). */
  lemma TrimIsEmptyIffBlank(s: string)
    ensures Trim(s) == [] <==> forall k :: 0 <= k < |s| ==> IsWhiteSpace(s[k])
  {
    var t := TrimStart(s);
    TrimStartIsSuffix(s);
    TrimEndIsPrefix(t);
    if forall k :: 0 <= k < |s| ==> IsWhiteSpace(s[k]) {
      assert t == [];
    } else {
      var k :| 0 <= k < |s| && !IsWhiteSpace(s[k]);
      assert k >= |s| - |t|;
      assert t[k - (|s| - |t|)] == s[k];
    }
  }

  /** Trimming twice is trimming once. */
  lemma TrimIdempotent(s: string)
    ensures Trim(Trim(s)) == Trim(s)
  {
    var r := Trim(s);
    TrimKeepsNoOuterWhiteSpace(s);
    assert TrimStart(r) == r;
    assert TrimEnd(r) == r;
  }
}
