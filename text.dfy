/** Python's `str.strip()` with no argument, which the scraper applies to every cell text. */
module Text {

  /** The characters `str.isspace()` accepts, as inclusive ranges: TAB to CR, FS to SPACE, NEL,
      NO-BREAK SPACE, OGHAM SPACE MARK, EN QUAD to HAIR SPACE, LINE and PARAGRAPH SEPARATOR,
      NARROW NO-BREAK SPACE, MEDIUM MATHEMATICAL SPACE and IDEOGRAPHIC SPACE. */
  const WhitespaceRanges: seq<(char, char)> :=
    [('\U{0009}', '\U{000D}'), ('\U{001C}', '\U{0020}'), ('\U{0085}', '\U{0085}'),
     ('\U{00A0}', '\U{00A0}'), ('\U{1680}', '\U{1680}'), ('\U{2000}', '\U{200A}'),
     ('\U{2028}', '\U{2029}'), ('\U{202F}', '\U{202F}'), ('\U{205F}', '\U{205F}'),
     ('\U{3000}', '\U{3000}')]

  /** The characters `str.strip()` removes from both ends. */
  predicate IsSpace(c: char) {
    exists k :: 0 <= k < |WhitespaceRanges| && WhitespaceRanges[k].0 <= c <= WhitespaceRanges[k].1
  }

  /** The printable ASCII characters other than SPACE are not whitespace. */
  lemma PrintableIsNotSpace(c: char)
    requires '!' <= c <= '~'
    ensures !IsSpace(c)
  {
  }

  /** Nothing but whitespace (the empty string included). */
  predicate IsBlank(s: string) {
    forall i :: 0 <= i < |s| ==> IsSpace(s[i])
  }

  /** No whitespace at either end. */
  predicate IsStripped(s: string) {
    s == [] || (!IsSpace(s[0]) && !IsSpace(s[|s| - 1]))
  }

  /** `s.lstrip()`: the longest suffix of `s` that does not start with whitespace. */
  function TrimStart(s: string): (r: string)
    ensures |r| <= |s| && r == s[|s| - |r|..]
    ensures r == [] || !IsSpace(r[0])
  {
    if s != [] && IsSpace(s[0]) then TrimStart(s[1..]) else s
  }

  /** What `lstrip` removes is blank. */
  lemma {:induction false} TrimStartRemovesBlank(s: string)
    ensures IsBlank(s[..|s| - |TrimStart(s)|])
  {
    if s != [] && IsSpace(s[0]) {
      var t := s[1..];
      var cut := t[..|t| - |TrimStart(t)|];
      TrimStartRemovesBlank(t);
      assert TrimStart(s) == TrimStart(t);
      assert s[..|s| - |TrimStart(s)|] == [s[0]] + cut;
      BlankJoin([s[0]], cut);
    }
  }

  /** Blank texts joined are blank. */
  lemma BlankJoin(a: string, b: string)
    requires IsBlank(a) && IsBlank(b)
    ensures IsBlank(a + b)
  {
    forall i | 0 <= i < |a + b| ensures IsSpace((a + b)[i]) {
      if i >= |a| {
        assert (a + b)[i] == b[i - |a|];
      }
    }
  }

  /** `s.rstrip()`: the longest prefix of `s` that does not end with whitespace. */
  function TrimEnd(s: string): (r: string)
    ensures |r| <= |s| && r == s[..|r|]
    ensures r == [] || !IsSpace(r[|r| - 1])
  {
    if s != [] && IsSpace(s[|s| - 1]) then TrimEnd(s[..|s| - 1]) else s
  }

  /** What `rstrip` removes is blank. */
  lemma {:induction false} TrimEndRemovesBlank(s: string)
    ensures IsBlank(s[|TrimEnd(s)|..])
  {
    if s != [] && IsSpace(s[|s| - 1]) {
      var t := s[..|s| - 1];
      var cut := t[|TrimEnd(t)|..];
      TrimEndRemovesBlank(t);
      assert TrimEnd(s) == TrimEnd(t);
      assert s[|TrimEnd(s)|..] == cut + [s[|s| - 1]];
      BlankJoin(cut, [s[|s| - 1]]);
    }
  }

  /** `s.strip()`. */
  function Strip(s: string): (r: string)
    ensures IsStripped(r) && |r| <= |s|
  {
    TrimEnd(TrimStart(s))
  }

  /** `strip()` keeps a slice of the text and removes only whitespace before and after it. */
  lemma StripKeepsMiddle(s: string)
    ensures exists lo, hi :: 0 <= lo <= hi <= |s| && Strip(s) == s[lo..hi] &&
              IsBlank(s[..lo]) && IsBlank(s[hi..])
  {
    var t := TrimStart(s);
    var lo := |s| - |t|;
    var hi := lo + |TrimEnd(t)|;
    TrimStartRemovesBlank(s);
    TrimEndRemovesBlank(t);
    assert Strip(s) == s[lo..hi];
    assert s[hi..] == t[|TrimEnd(t)|..];
  }

  /** `lstrip` of a blank text is empty. */
  lemma {:induction false} TrimStartOfBlank(s: string)
    requires IsBlank(s)
    ensures TrimStart(s) == []
  {
    if s != [] {
      assert IsBlank(s[1..]) by {
        forall i | 0 <= i < |s| - 1 ensures IsSpace(s[1..][i]) {
          assert s[1..][i] == s[i + 1];
        }
      }
      TrimStartOfBlank(s[1..]);
    }
  }

  /** A text strips to the empty string exactly when it is blank: Python's `if date and date.strip()`. */
  lemma StripEmptyIffBlank(s: string)
    ensures Strip(s) == [] <==> IsBlank(s)
  {
    if IsBlank(s) {
      TrimStartOfBlank(s);
    }
    var t := TrimStart(s);
    var lo := |s| - |t|;
    if Strip(s) == [] {
      TrimStartRemovesBlank(s);
      TrimEndRemovesBlank(t);
      assert t[|TrimEnd(t)|..] == t;
      assert t == [];
      assert s[..lo] == s;
    }
  }

  /** A text without whitespace at its ends is left alone. */
  lemma StrippedIsFixpoint(s: string)
    requires IsStripped(s)
    ensures Strip(s) == s
  {
  }

  /** Stripping twice is stripping once. */
  lemma StripIdempotent(s: string)
    ensures Strip(Strip(s)) == Strip(s)
  {
    StrippedIsFixpoint(Strip(s));
  }
}
