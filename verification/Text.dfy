/** The few string operations of Python that the bot's logic depends on. */
module Text {

  /** str.isspace, the characters str.strip removes. */
  predicate IsSpace(c: char) {
    || '\t' <= c <= '\r'
    || '\U{1c}' <= c <= ' '
    || c in ['\U{85}', '\U{a0}', '\U{1680}', '\U{2028}', '\U{2029}', '\U{202f}', '\U{205f}', '\U{3000}']
    || '\U{2000}' <= c <= '\U{200a}'
  }

  predicate Blank(s: string) {
    forall i :: 0 <= i < |s| ==> IsSpace(s[i])
  }

  function LeftStrip(s: string): (r: string)
    ensures r != "" ==> !IsSpace(r[0])
    ensures |r| <= |s|
    ensures s != "" && !IsSpace(s[0]) ==> r == s
  {
    if s != "" && IsSpace(s[0]) then LeftStrip(s[1..]) else s
  }

  function RightStrip(s: string): (r: string)
    ensures r != "" ==> !IsSpace(r[|r| - 1])
    ensures |r| <= |s| && (r != "" ==> r[0] == s[0])
    ensures s != "" && !IsSpace(s[|s| - 1]) ==> r == s
  {
    if s != "" && IsSpace(s[|s| - 1]) then RightStrip(s[..|s| - 1]) else s
  }

  function Strip(s: string): string {
    RightStrip(LeftStrip(s))
  }

  /** A string that strip() leaves alone. */
  predicate Stripped(s: string) {
    s == "" || (!IsSpace(s[0]) && !IsSpace(s[|s| - 1]))
  }

  lemma StripIsStripped(s: string)
    ensures Stripped(Strip(s))
  {
  }

  lemma StrippedStays(s: string)
    requires Stripped(s)
    ensures Strip(s) == s
  {
  }

  lemma {:induction false} LeftStripPrefix(blank: string, s: string)
    requires Blank(blank)
    requires s != "" && !IsSpace(s[0])
    ensures LeftStrip(blank + s) == s
  {
    if blank == "" {
      assert blank + s == s;
    } else {
      assert (blank + s)[1..] == blank[1..] + s;
      LeftStripPrefix(blank[1..], s);
    }
  }

  /** What LeftStrip removes is exactly a blank prefix. */
  lemma {:induction false} LeftStripSplit(s: string) returns (blank: string)
    ensures Blank(blank) && s == blank + LeftStrip(s)
  {
    if s != "" && IsSpace(s[0]) {
      var rest := LeftStripSplit(s[1..]);
      blank := [s[0]] + rest;
      assert s == [s[0]] + s[1..];
      assert s == blank + LeftStrip(s);
    } else {
      blank := "";
    }
  }

  lemma NotBlank(s: string)
    requires !Blank(s)
    ensures LeftStrip(s) != ""
  {
  }

  lemma {:induction false} RightStripIsPrefix(s: string)
    ensures RightStrip(s) <= s
  {
    if s != "" && IsSpace(s[|s| - 1]) {
      RightStripIsPrefix(s[..|s| - 1]);
    }
  }

  /** What stands before a character that is no space is kept. */
  lemma {:induction false} RightStripKeeps(a: string, b: string) returns (k: nat)
    requires a != "" && !IsSpace(a[|a| - 1])
    ensures k <= |b| && RightStrip(a + b) == a + b[..k]
    ensures Blank(b) ==> k == 0
    decreases |b|
  {
    if b != "" && IsSpace(b[|b| - 1]) {
      assert (a + b)[..|a + b| - 1] == a + b[..|b| - 1];
      k := RightStripKeeps(a, b[..|b| - 1]);
      assert b[..|b| - 1][..k] == b[..k];
    } else if b != "" {
      k := |b|;
      assert b[..k] == b;
    } else {
      k := 0;
      assert a + b == a;
    }
  }

  /** What strip() leaves is a part of the string. */
  lemma StripIsPart(s: string) returns (from: nat, to: nat)
    ensures from <= to <= |s| && Strip(s) == s[from..to]
  {
    var blank := LeftStripSplit(s);
    RightStripIsPrefix(LeftStrip(s));
    from, to := |blank|, |blank| + |Strip(s)|;
    assert LeftStrip(s) == s[from..];
  }

  /** The characters that strip() removes, one by one. */
  lemma SpacesAre(c: char)
    ensures IsSpace(c) <==> c in [
      '\t', '\n', '\U{0b}', '\U{0c}', '\r', '\U{1c}', '\U{1d}', '\U{1e}', '\U{1f}', ' ', '\U{85}', '\U{a0}',
      '\U{1680}', '\U{2000}', '\U{2001}', '\U{2002}', '\U{2003}', '\U{2004}', '\U{2005}', '\U{2006}', '\U{2007}',
      '\U{2008}', '\U{2009}', '\U{200a}', '\U{2028}', '\U{2029}', '\U{202f}', '\U{205f}', '\U{3000}']
  {
  }
}
