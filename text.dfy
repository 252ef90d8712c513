/**
 * The Python string operations the request handlers rely on: `str.strip()`
 * with no argument, `str.lower()`, `str.capitalize()` and the substring test
 * `p in s`. Case mapping covers ASCII, the Latin-1 letters other than ÿ and µ,
 * and Cyrillic U+0400-U+045F, which is where the upstream's English and
 * Russian descriptions live.
 */
module Text {

  /** The characters `str.isspace()` accepts, which `str.strip()` removes at both ends. */
  predicate IsSpace(c: char) {
    || c == ' '
    || ('\t' <= c <= '\r')
    || ('\U{001C}' <= c <= '\U{001F}')
    || c == '\U{0085}' || c == '\U{00A0}' || c == '\U{1680}'
    || ('\U{2000}' <= c <= '\U{200A}')
    || c == '\U{2028}' || c == '\U{2029}' || c == '\U{202F}' || c == '\U{205F}' || c == '\U{3000}'
  }

  /** Drops leading whitespace: the result is a suffix of `s` whose cut-off part is all whitespace. */
  function TrimStart(s: string): (r: string)
    ensures |r| <= |s| && r == s[|s| - |r|..]
    ensures forall i :: 0 <= i < |s| - |r| ==> IsSpace(s[i])
    ensures r == [] || !IsSpace(r[0])
  {
    if s != [] && IsSpace(s[0]) then TrimStart(s[1..]) else s
  }

  /** Drops trailing whitespace: the result is a prefix of `s` whose cut-off part is all whitespace. */
  function TrimEnd(s: string): (r: string)
    ensures |r| <= |s| && r == s[..|r|]
    ensures forall i :: |r| <= i < |s| ==> IsSpace(s[i])
    ensures r == [] || !IsSpace(r[|r| - 1])
    ensures s != [] && !IsSpace(s[0]) ==> r != []
  {
    if s != [] && IsSpace(s[|s| - 1]) then TrimEnd(s[..|s| - 1]) else s
  }

  /** `r` occurs in `s` starting at index `k`. */
  predicate SliceAt(s: string, r: string, k: int) {
    0 <= k && k + |r| <= |s| && s[k..k + |r|] == r
  }

  /** `r` occurs in `s` at index `k`, and everything before and after it is whitespace. */
  predicate TrimmedAt(s: string, r: string, k: int) {
    && SliceAt(s, r, k)
    && (forall i :: 0 <= i < k ==> IsSpace(s[i]))
    && (forall i :: k + |r| <= i < |s| ==> IsSpace(s[i]))
  }

  /** `r` is `s` without whitespace at either end: only whitespace is removed, neither
      end of `r` is whitespace, and `r` is empty exactly when `s` is all whitespace. */
  ghost predicate Stripped(s: string, r: string) {
    && |r| <= |s| && (exists k :: TrimmedAt(s, r, k))
    && (r != [] ==> !IsSpace(r[0]) && !IsSpace(r[|r| - 1]))
    && (r == [] <==> forall i :: 0 <= i < |s| ==> IsSpace(s[i]))
  }

  /** `s.strip()` */
  function Strip(s: string): (r: string)
    ensures Stripped(s, r)
  {
    TrimBoth(s);
    TrimEnd(TrimStart(s))
  }

  /** Trimming the start and then the end strips `s`. */
  lemma TrimBoth(s: string)
    ensures Stripped(s, TrimEnd(TrimStart(s)))
  {
    TrimBothSlice(s);
    TrimBothFirst(s);
    TrimBothEmpty(s);
  }

  /** Trimming both ends leaves a slice of `s` with only whitespace around it. */
  lemma TrimBothSlice(s: string)
    ensures exists k :: TrimmedAt(s, TrimEnd(TrimStart(s)), k)
  {
    var t := TrimStart(s);
    var r := TrimEnd(t);
    var k := |s| - |t|;
    assert SliceAt(s, r, k) by {
      assert t == s[k..] && r == t[..|r|];
      assert s[k..k + |r|] == s[k..][..|r|];
    }
    forall i | k + |r| <= i < |s| ensures IsSpace(s[i]) {
      assert s[i] == t[i - k];
    }
    assert TrimmedAt(s, r, k);
  }

  /** Trimming the end keeps the first character, which trimming the start made non-whitespace. */
  lemma TrimBothFirst(s: string)
    ensures TrimEnd(TrimStart(s)) != [] ==> !IsSpace(TrimEnd(TrimStart(s))[0])
  {
    var t := TrimStart(s);
    var r := TrimEnd(t);
    assert r != [] ==> r[0] == t[0];
  }

  /** Trimming both ends leaves nothing exactly when every character is whitespace. */
  lemma TrimBothEmpty(s: string)
    ensures TrimEnd(TrimStart(s)) == [] <==> forall i :: 0 <= i < |s| ==> IsSpace(s[i])
  {
    var t := TrimStart(s);
    if t != [] {
      var k := |s| - |t|;
      assert s[k] == t[0];
    }
  }

  /** Stripping twice strips nothing more. */
  lemma StripIdempotent(s: string)
    ensures Strip(Strip(s)) == Strip(s)
  {
    var r := Strip(s);
    assert TrimStart(r) == r;
    assert TrimEnd(r) == r;
  }

  /** The lower-case form of one character under `str.lower()`. */
  function LowerChar(c: char): char {
    if ('A' <= c <= 'Z') || ('\U{00C0}' <= c <= '\U{00DE}' && c != '\U{00D7}') || ('\U{0410}' <= c <= '\U{042F}') then
      (c as int + 32) as char
    else if '\U{0400}' <= c <= '\U{040F}' then
      (c as int + 80) as char
    else
      c
  }

  /** The upper-case (and title-case) form of one character under `str.upper()`. */
  function UpperChar(c: char): char {
    if ('a' <= c <= 'z') || ('\U{00E0}' <= c <= '\U{00FE}' && c != '\U{00F7}') || ('\U{0430}' <= c <= '\U{044F}') then
      (c as int - 32) as char
    else if '\U{0450}' <= c <= '\U{045F}' then
      (c as int - 80) as char
    else
      c
  }

  predicate IsAsciiLetter(c: char) {
    ('A' <= c <= 'Z') || ('a' <= c <= 'z')
  }

  /** Lowering produces an ASCII letter only from an ASCII letter. */
  lemma LowerCharAscii(c: char)
    ensures IsAsciiLetter(LowerChar(c)) ==> IsAsciiLetter(c)
    ensures LowerChar(UpperChar(c)) == LowerChar(c)
    ensures LowerChar(LowerChar(c)) == LowerChar(c)
  {
  }

  /** `s.lower()`: every character is kept or replaced by its lower-case partner,
      and no character of the result changes when lowered again. */
  function Lower(s: string): (r: string)
    ensures |r| == |s|
    ensures forall i {:trigger r[i]} :: 0 <= i < |s| ==> r[i] == s[i] || UpperChar(r[i]) == s[i]
    ensures forall i :: 0 <= i < |r| ==> LowerChar(r[i]) == r[i]
  {
    seq(|s|, i requires 0 <= i < |s| => LowerChar(s[i]))
  }

  /** `s.capitalize()`: first character in title case, the rest in lower case; the
      result equals `s` once case is ignored. */
  function Capitalize(s: string): (r: string)
    ensures |r| == |s|
    ensures r != [] ==> r[0] == UpperChar(s[0])
    ensures forall i {:trigger r[i]} :: 1 <= i < |r| ==> r[i] == LowerChar(s[i])
    ensures Lower(r) == Lower(s)
  {
    if s == [] then [] else LowerTitled(s); [UpperChar(s[0])] + Lower(s[1..])
  }

  /** Title-casing the first character and lowering the rest keeps the lower-case form. */
  lemma LowerTitled(s: string)
    requires s != []
    ensures Lower([UpperChar(s[0])] + Lower(s[1..])) == Lower(s)
  {
    var c := [UpperChar(s[0])] + Lower(s[1..]);
    forall i | 0 <= i < |s| ensures Lower(c)[i] == Lower(s)[i] {
      if i == 0 {
        assert c[0] == UpperChar(s[0]);
      } else {
        assert c[i] == Lower(s[1..])[i - 1] == LowerChar(s[i]);
      }
      LowerCharAscii(s[i]);
    }
  }

  /** Capitalizing does not change a string's lower-case form, so case-insensitive
      tests give the same answer on the raw and the capitalized description. */
  lemma LowerCapitalize(s: string)
    ensures Lower(Capitalize(s)) == Lower(s)
    ensures Lower(Lower(s)) == Lower(s)
  {
    forall i | 0 <= i < |s| ensures Lower(Lower(s))[i] == Lower(s)[i] {
      LowerCharAscii(s[i]);
    }
  }

  predicate StartsWith(s: string, p: string) {
    |p| <= |s| && s[..|p|] == p
  }

  /** Python's `p in s` on strings: `p` occurs in `s` as a contiguous substring. */
  predicate Contains(s: string, p: string)
    decreases |s|
  {
    StartsWith(s, p) || (s != [] && Contains(s[1..], p))
  }

  /** An occurrence of `p` at any position `k` of `s` makes `p in s` true. */
  lemma {:induction false} ContainsAt(s: string, p: string, k: nat)
    requires k + |p| <= |s| && s[k..k + |p|] == p
    ensures Contains(s, p)
    decreases k
  {
    if k > 0 {
      assert s[1..][k - 1..k - 1 + |p|] == s[k..k + |p|];
      ContainsAt(s[1..], p, k - 1);
    }
  }

  /** Conversely, `p in s` holds only when `p` occurs in `s` at some position. */
  lemma {:induction false} ContainsOnlyIfOccurs(s: string, p: string)
    requires Contains(s, p)
    ensures exists k :: SliceAt(s, p, k)
    decreases |s|
  {
    if StartsWith(s, p) {
      assert SliceAt(s, p, 0);
    } else {
      ContainsOnlyIfOccurs(s[1..], p);
      var k :| SliceAt(s[1..], p, k);
      assert s[k + 1..k + 1 + |p|] == s[1..][k..k + |p|];
      assert SliceAt(s, p, k + 1);
    }
  }

  /** `p in s` is false when the first character of a non-empty `p` occurs nowhere in `s`. */
  lemma {:induction false} NotContainsWithoutFirstChar(s: string, p: string)
    requires p != []
    requires forall i :: 0 <= i < |s| ==> s[i] != p[0]
    ensures !Contains(s, p)
    decreases |s|
  {
    if s != [] {
      assert s[0] != p[0];
      NotContainsWithoutFirstChar(s[1..], p);
    }
  }
}
