/** The text questions the stores and the worktree names ask. */
module Text {
  /** White_Space in the Unicode Character Database, as `str::trim` applies it. */
  predicate IsWhitespace(c: char) {
    var code := c as int;
    || 0x09 <= code <= 0x0D || code == 0x20 || code == 0x85 || code == 0xA0
    || code == 0x1680 || 0x2000 <= code <= 0x200A
    || code in {0x2028, 0x2029, 0x202F, 0x205F, 0x3000}
  }

  /** The twenty-five characters with that property, one by one. */
  lemma WhitespaceByCode(c: char)
    ensures IsWhitespace(c) <==>
              c as int in {
                9, 10, 11, 12, 13, 32, 133, 160, 5760, 8192, 8193, 8194, 8195, 8196, 8197, 8198, 8199, 8200, 8201, 8202,
                8232, 8233, 8239, 8287, 12288}
  {
  }

  /** `s.trim().is_empty()`. */
  predicate IsBlank(s: string) {
    forall c :: c in s ==> IsWhitespace(c)
  }

  /** `s.trim()`. */
  function Trim(s: string): string {
    if s == [] then s
    else if IsWhitespace(s[0]) then Trim(s[1..])
    else if IsWhitespace(s[|s| - 1]) then Trim(s[..|s| - 1])
    else s
  }

  predicate HasNoWhitespace(s: string) {
    forall i :: 0 <= i < |s| ==> !IsWhitespace(s[i])
  }

  /** Neither end is white space. */
  predicate HasCleanEnds(s: string) {
    s == [] || (!IsWhitespace(s[0]) && !IsWhitespace(s[|s| - 1]))
  }

  lemma {:induction false} TrimKeepsWords(s: string)
    requires HasNoWhitespace(s)
    ensures Trim(s) == s
  {
  }

  lemma {:induction false} TrimKeepsCleanEnds(s: string)
    requires HasCleanEnds(s)
    ensures Trim(s) == s
  {
  }

  lemma {:induction false} TrimHasCleanEnds(s: string)
    ensures HasCleanEnds(Trim(s))
    decreases |s|
  {
    if s != [] {
      if IsWhitespace(s[0]) {
        TrimHasCleanEnds(s[1..]);
      } else if IsWhitespace(s[|s| - 1]) {
        TrimHasCleanEnds(s[..|s| - 1]);
      }
    }
  }

  /** Trimming cuts white space off both ends and nothing else. */
  lemma {:induction false} TrimCutsWhitespace(s: string) returns (i: nat, j: nat)
    ensures i <= j <= |s| && Trim(s) == s[i..j]
    ensures forall k :: 0 <= k < i || j <= k < |s| ==> IsWhitespace(s[k])
    decreases |s|
  {
    if s == [] {
      i, j := 0, 0;
    } else if IsWhitespace(s[0]) {
      i, j := TrimCutsWhitespace(s[1..]);
      assert forall k :: 0 < k < |s| ==> s[k] == s[1..][k - 1];
      i, j := i + 1, j + 1;
    } else if IsWhitespace(s[|s| - 1]) {
      i, j := TrimCutsWhitespace(s[..|s| - 1]);
      assert forall k :: 0 <= k < |s| - 1 ==> s[k] == s[..|s| - 1][k];
    } else {
      i, j := 0, |s|;
    }
  }

  lemma {:induction false} TrimDropsLeading(s: string)
    requires s != [] && IsWhitespace(s[0])
    ensures Trim(s) == Trim(s[1..])
  {
  }

  lemma {:induction false} TrimDropsTrailing(s: string, c: char)
    requires s != [] && HasCleanEnds(s) && IsWhitespace(c)
    ensures Trim(s + [c]) == s
  {
    assert (s + [c])[..|s|] == s;
  }
}
