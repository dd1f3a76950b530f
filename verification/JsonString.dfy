/** The strings of JSON (section 7 of RFC 8259), as json.dumps writes them with ensure_ascii off and as
    json.loads reads them. Strings hold no surrogates here. */
module JsonStrings {
  import opened Basics

  function Digit(n: nat): char
    requires n < 16
  {
    "0123456789abcdef"[n]
  }

  function DigitValue(c: char): (r: Option<nat>)
    ensures r.Some? ==> r.value < 16
  {
    if '0' <= c <= '9' then Some(c as int - '0' as int)
    else if 'a' <= c <= 'f' then Some(c as int - 'a' as int + 10)
    else if 'A' <= c <= 'F' then Some(c as int - 'A' as int + 10)
    else None
  }

  function Escape(c: char): (r: string)
    ensures 0 < |r| <= 6
  {
    if c == '\"' || c == '\\' then ['\\', c]
    else if c == '\n' then "\\n"
    else if c == '\r' then "\\r"
    else if c == '\t' then "\\t"
    else if c == '\U{0c}' then "\\f"
    else if c == '\U{08}' then "\\b"
    else if c < ' ' then "\\u00" + [Digit(c as int / 16), Digit(c as int % 16)]
    else [c]
  }

  function EscapeAll(s: string): string {
    if s == "" then "" else Escape(s[0]) + EscapeAll(s[1..])
  }

  function ShortEscape(c: char): Option<char> {
    match c
    case '\"' => Some('\"')
    case '\\' => Some('\\')
    case '/' => Some('/')
    case 'n' => Some('\n')
    case 'r' => Some('\r')
    case 't' => Some('\t')
    case 'f' => Some('\U{0c}')
    case 'b' => Some('\U{08}')
    case _ => None
  }

  function CodeEscape(digits: string): Option<char>
    requires |digits| == 4
  {
    var a, b, c, d :=
      DigitValue(digits[0]), DigitValue(digits[1]), DigitValue(digits[2]), DigitValue(digits[3]);
    if a.None? || b.None? || c.None? || d.None? then None
    else
      var code := ((a.value * 16 + b.value) * 16 + c.value) * 16 + d.value;
      if code < 0xD800 || code >= 0xE000 then Some(code as char) else None
  }

  /** The first character that the inside of a JSON string stands for, and how many it is written with. */
  function ReadChar(s: string): (r: Option<(char, nat)>)
    requires s != ""
    ensures r.Some? ==> 0 < r.value.1 <= |s|
  {
    if s[0] == '\"' || s[0] < ' ' then None
    else if s[0] != '\\' then Some((s[0], 1))
    else if |s| < 2 then None
    else if s[1] != 'u' then
      match ShortEscape(s[1])
      case None => None
      case Some(c) => Some((c, 2))
    else if |s| < 6 then None
    else
      match CodeEscape(s[2..6])
      case None => None
      case Some(c) => Some((c, 6))
  }

  /** What the inside of a JSON string stands for, if it is one. */
  function Unescape(s: string): Option<string>
    decreases |s|
  {
    if s == "" then Some("")
    else
      match ReadChar(s)
      case None => None
      case Some((c, n)) =>
        match Unescape(s[n..])
        case None => None
        case Some(rest) => Some([c] + rest)
  }

  lemma DigitRead(n: nat)
    requires n < 16
    ensures DigitValue(Digit(n)) == Some(n)
  {
  }

  lemma ReadEscape(c: char, rest: string)
    ensures ReadChar(Escape(c) + rest) == Some((c, |Escape(c)|))
  {
    var s := Escape(c) + rest;
    if c < ' ' && |Escape(c)| == 6 {
      DigitRead(0);
      DigitRead(c as int / 16);
      DigitRead(c as int % 16);
      assert s[2..6] == ['0', '0', Digit(c as int / 16), Digit(c as int % 16)];
    }
  }

  /** What is written is read back. */
  lemma {:induction false} RoundTrip(s: string)
    ensures Unescape(EscapeAll(s)) == Some(s)
  {
    if s != "" {
      ReadEscape(s[0], EscapeAll(s[1..]));
      assert EscapeAll(s)[|Escape(s[0])|..] == EscapeAll(s[1..]);
      RoundTrip(s[1..]);
      assert [s[0]] + s[1..] == s;
    }
  }

  lemma ReadOn(a: string, b: string)
    requires a != "" && ReadChar(a).Some?
    ensures ReadChar(a + b) == ReadChar(a)
  {
    if a[0] == '\\' && a[1] == 'u' {
      assert (a + b)[2..6] == a[2..6];
    }
  }

  /** A quote that is not escaped ends the string early. */
  lemma {:induction false} QuoteEnds(a: string, b: string)
    ensures Unescape(a).Some? ==> Unescape(a + "\"" + b) == None
    decreases |a|
  {
    var s := a + "\"" + b;
    if a != "" && ReadChar(a).Some? {
      ReadOn(a, "\"" + b);
      assert s == a + ("\"" + b);
      var n := ReadChar(a).value.1;
      assert s[n..] == a[n..] + "\"" + b;
      QuoteEnds(a[n..], b);
    }
  }

  lemma BraceBreaksEscapes(a: string, b: string)
    requires a != ""
    ensures var r := ReadChar(a + "{\"" + b); r.Some? ==> r.value.1 <= |a|
  {
    var s := a + "{\"" + b;
    assert s[|a|] == '{' && s[0] == a[0];
    if s[0] == '\\' && |s| >= 6 && s[1] == 'u' && |a| < 6 {
      assert |a| >= 2 && s[2..6][|a| - 2] == '{';
    }
  }

  /** Nor can a brace and a bare quote stand in one. */
  lemma {:induction false} NoBareQuote(a: string, b: string)
    ensures Unescape(a + "{\"" + b) == None
    decreases |a|
  {
    var s := a + "{\"" + b;
    if a == "" {
      assert s[0] == '{' && s[1..][0] == '\"';
    } else {
      BraceBreaksEscapes(a, b);
      if ReadChar(s).Some? {
        var n := ReadChar(s).value.1;
        assert s[n..] == a[n..] + "{\"" + b;
        NoBareQuote(a[n..], b);
      }
    }
  }

  /** Quotes come escaped, so none follows a brace. */
  lemma {:induction false} QuotesFollowBackslashes(s: string)
    ensures forall i :: 0 <= i < |EscapeAll(s)| && EscapeAll(s)[i] == '\"' ==> i > 0 && EscapeAll(s)[i - 1] == '\\'
  {
    if s != "" {
      var a, b := Escape(s[0]), EscapeAll(s[1..]);
      QuotesFollowBackslashes(s[1..]);
      forall i | 0 <= i < |a + b| && (a + b)[i] == '\"'
        ensures i > 0 && (a + b)[i - 1] == '\\'
      {
        if i >= |a| {
          assert b[i - |a|] == '\"' && b[i - |a| - 1] == '\\';
        }
      }
    }
  }

  /** How the special characters are written, and that all others stand for themselves. */
  lemma Written(c: char)
    ensures Escape('\"') == "\\\"" && Escape('\\') == "\\\\"
    ensures Escape('\n') == "\\n" && Escape('\r') == "\\r" && Escape('\t') == "\\t"
    ensures Escape('\U{0c}') == "\\f" && Escape('\U{08}') == "\\b"
    ensures Escape('\U{01}') == "\\u0001" && Escape('\U{1f}') == "\\u001f"
    ensures c >= ' ' && c != '\"' && c != '\\' ==> Escape(c) == [c]
  {
  }

  lemma OneRead(s: string, c: char)
    requires s != "" && ReadChar(s) == Some((c, |s|))
    ensures Unescape(s) == Some([c])
  {
    assert s[|s|..] == "" && [c] + "" == [c];
  }

  /** Every escape that JSON knows is read, also those json.dumps does not write. */
  lemma EscapesAreRead()
    ensures Unescape("\\\"") == Some("\"") && Unescape("\\\\") == Some("\\") && Unescape("\\/") == Some("/")
    ensures Unescape("\\b") == Some("\U{08}") && Unescape("\\f") == Some("\U{0c}") && Unescape("\\n") == Some("\n")
    ensures Unescape("\\r") == Some("\r") && Unescape("\\t") == Some("\t") && Unescape("\\u0041") == Some("A")
  {
    OneRead("\\\"", '\"');
    OneRead("\\\\", '\\');
    OneRead("\\/", '/');
    OneRead("\\b", '\U{08}');
    OneRead("\\f", '\U{0c}');
    OneRead("\\n", '\n');
    OneRead("\\r", '\r');
    OneRead("\\t", '\t');
    CodeOfA();
    OneRead("\\u0041", 'A');
    hide *;
  }

  lemma CodeOfA()
    ensures ReadChar("\\u0041") == Some(('A', 6))
  {
    assert "\\u0041"[2..6] == "0041";
    assert DigitValue('4') == Some(4) && DigitValue('1') == Some(1) && DigitValue('0') == Some(0);
    assert CodeEscape("0041") == Some('A');
  }
}
