/**
 * Whitespace trimming as performed by JavaScript's String.prototype.trim,
 * which the revenue form applies to the beneficiary name
 * (revenuetracker/script.js line 36). Section 22.1.3.32 of ECMA-262 strips
 * the WhiteSpace and LineTerminator code points from both ends.
 */
module Text {

  /** WhiteSpace (tab, vertical tab, form feed, space, no-break space,
      byte-order mark and the Zs space separators) and LineTerminator
      (line feed, carriage return, line and paragraph separators). */
  predicate IsWhitespace(c: char)
  {
    var n := c as int;
    n == 0x09 || n == 0x0A || n == 0x0B || n == 0x0C || n == 0x0D
    || n == 0x20 || n == 0xA0 || n == 0x1680
    || (0x2000 <= n <= 0x200A)
    || n == 0x2028 || n == 0x2029 || n == 0x202F || n == 0x205F
    || n == 0x3000 || n == 0xFEFF
  }

  /** `s` consists of whitespace only (this includes the empty string). */
  predicate Blank(s: string)
  {
    forall i :: 0 <= i < |s| ==> IsWhitespace(s[i])
  }

  /** `s` neither starts nor ends with whitespace. */
  predicate Trimmed(s: string)
  {
    s == [] || (!IsWhitespace(s[0]) && !IsWhitespace(s[|s| - 1]))
  }

  /** Drops the leading whitespace of `s`. */
  function TrimStart(s: string): (r: string)
    ensures |r| <= |s| && r == s[|s| - |r|..]
    ensures Blank(s[..|s| - |r|])
    ensures r == [] || !IsWhitespace(r[0])
  {
    if s != [] && IsWhitespace(s[0]) then TrimStart(s[1..]) else s
  }

  /** Drops the trailing whitespace of `s`. */
  function TrimEnd(s: string): (r: string)
    ensures |r| <= |s| && r == s[..|r|]
    ensures Blank(s[|r|..])
    ensures r == [] || !IsWhitespace(r[|r| - 1])
  {
    if s != [] && IsWhitespace(s[|s| - 1]) then TrimEnd(s[..|s| - 1]) else s
  }

  /** Drops whitespace at both ends; nothing but whitespace is removed
      (`TrimIsSlice`) and none is left at either end. */
  function Trim(s: string): (r: string)
    ensures |r| <= |s|
    ensures Trimmed(r)
  {
    TrimEnd(TrimStart(s))
  }

  /** The trimmed string is a contiguous piece of `s` with only whitespace
      cut away on either side. */
  lemma TrimIsSlice(s: string)
    ensures exists lo :: 0 <= lo <= lo + |Trim(s)| <= |s| && Trim(s) == s[lo..lo + |Trim(s)|]
                      && Blank(s[..lo]) && Blank(s[lo + |Trim(s)|..])
  {
    var t := TrimStart(s);
    var r := TrimEnd(t);
    var lo := |s| - |t|;
    SliceOfSuffix(s, t, r, lo);
    assert 0 <= lo <= lo + |r| <= |s| && r == s[lo..lo + |r|]
           && Blank(s[..lo]) && Blank(s[lo + |r|..]);
  }

  /** Cutting a prefix off a suffix of `s` gives a slice of `s`, and what
      the cut leaves behind is blank when it was blank in the suffix. */
  lemma SliceOfSuffix(s: string, t: string, r: string, lo: nat)
    requires lo <= |s| && t == s[lo..]
    requires |r| <= |t| && r == t[..|r|] && Blank(t[|r|..])
    ensures lo + |r| <= |s| && r == s[lo..lo + |r|]
    ensures Blank(s[lo + |r|..])
  {
    assert s[lo + |r|..] == t[|r|..];
  }

  /** Trimming yields the empty string exactly when the input is blank. */
  lemma TrimEmptyIffBlank(s: string)
    ensures Trim(s) == [] <==> Blank(s)
  {
  }

  /** A string with no whitespace at either end is left alone by trimming. */
  lemma TrimOfTrimmed(s: string)
    requires Trimmed(s)
    ensures Trim(s) == s
  {
  }

  /** A single space on each side of a trimmed name is removed. */
  lemma TrimPadded(name: string)
    requires Trimmed(name)
    ensures Trim([' '] + name + [' ']) == name
  {
    if name == [] {
      assert [' '] + name + [' '] == [' ', ' '];
      assert TrimStart([' ', ' ']) == [] by {
        assert [' ', ' '][1..] == [' '];
        assert [' '][1..] == [];
      }
    } else {
      TrimPaddedNonEmpty(name);
    }
  }

  /** The case of `TrimPadded` with at least one character in the name. */
  lemma TrimPaddedNonEmpty(name: string)
    requires name != [] && Trimmed(name)
    ensures Trim([' '] + name + [' ']) == name
  {
    var padded := [' '] + name + [' '];
    assert padded[1..] == name + [' '];
    assert TrimStart(padded) == TrimStart(name + [' ']);
    assert TrimStart(name + [' ']) == name + [' '];
    assert (name + [' '])[..|name|] == name;
    assert TrimEnd(name + [' ']) == TrimEnd(name);
  }

  /** Trimming twice is the same as trimming once. */
  lemma TrimIdempotent(s: string)
    ensures Trim(Trim(s)) == Trim(s)
  {
    TrimOfTrimmed(Trim(s));
  }
}
