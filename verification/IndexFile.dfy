/** The on-disk index of committed keys: one JSON record per line, appended and scanned. */
module IndexFile {
  import opened Basics
  import opened JsonStrings
  import opened Text

  function Opening(): (r: string)
    ensures |r| == 9
  {
    "{\"key\": \""
  }

  function Closing(): (r: string)
    ensures |r| == 2
  {
    "\"}"
  }

  /** A record starts here, perhaps cut short or broken later on. */
  predicate Opens(s: string) {
    Opening() <= s
  }

  /** json.dumps({"key": key}, ensure_ascii=False). */
  function Encode(key: Key): string {
    Opening() + EscapeAll(key) + Closing()
  }

  /** The key of a line that holds one record in the spacing json.dumps uses, if it does. */
  function Decode(line: string): Option<Key> {
    if |line| < |Opening()| + |Closing()| then None
    else if line[..|Opening()|] != Opening() || line[|line| - |Closing()|..] != Closing() then None
    else Unescape(line[|Opening()|..|line| - |Closing()|])
  }

  /** Every key comes back from its record. */
  lemma DecodeEncode(key: Key)
    ensures Decode(Encode(key)) == Some(key)
  {
    var line := Encode(key);
    assert line[|Opening()|..|line| - |Closing()|] == EscapeAll(key);
    RoundTrip(key);
  }

  /** The characters at which str.splitlines breaks. That it takes a carriage return and a newline
      together makes no difference here, because empty lines are skipped. */
  predicate IsBreak(c: char) {
    || '\n' <= c <= '\r'
    || '\U{1c}' <= c <= '\U{1e}'
    || c in ['\U{85}', '\U{2028}', '\U{2029}']
  }

  predicate NoBreak(s: string) {
    forall i :: 0 <= i < |s| ==> !IsBreak(s[i])
  }

  /** A key whose record is one line: the other breaks are escaped, these three are not. */
  predicate OneLine(key: Key) {
    forall i :: 0 <= i < |key| ==> key[i] !in ['\U{85}', '\U{2028}', '\U{2029}']
  }

  predicate Terminated(text: string) {
    text == "" || IsBreak(text[|text| - 1])
  }

  function Lines(text: string): seq<string>
    decreases |text|
  {
    if text == "" then []
    else
      var n := LineEnd(text);
      if n < |text| then [text[..n]] + Lines(text[n + 1..]) else [text]
  }

  function LineEnd(text: string): (n: nat)
    ensures n <= |text|
  {
    if text == "" || IsBreak(text[0]) then 0 else 1 + LineEnd(text[1..])
  }

  lemma FirstBreakAt(text: string)
    ensures var n := LineEnd(text);
      (forall i :: 0 <= i < n ==> !IsBreak(text[i])) && (n < |text| ==> IsBreak(text[n]))
  {
  }

  lemma LineEndIs(text: string, n: nat)
    requires n <= |text| && (n < |text| ==> IsBreak(text[n]))
    requires forall i :: 0 <= i < n ==> !IsBreak(text[i])
    ensures LineEnd(text) == n
  {
    FirstBreakAt(text);
  }

  function LineKeys(line: string): set<Key> {
    match Decode(Strip(line))
    case None => {}
    case Some(key) => {key}
  }

  function Gather(keysOf: string -> set<Key>, lines: seq<string>): set<Key> {
    if lines == [] then {} else keysOf(lines[0]) + Gather(keysOf, lines[1..])
  }

  /** The keys a scan of these lines answers for. */
  function KeysOf(lines: seq<string>): set<Key> {
    Gather(LineKeys, lines)
  }

  function Keys(text: string): set<Key> {
    KeysOf(Lines(text))
  }

  function Record(key: Key): string {
    Encode(key) + "\n"
  }

  function Records(keys: seq<Key>): string {
    if keys == [] then "" else Record(keys[0]) + Records(keys[1..])
  }

  /** The complete lines of a text, and the unterminated rest after them. */
  function Body(text: string): (r: string)
    ensures Terminated(r) && r <= text
    decreases |text|
  {
    if Terminated(text) then text else Body(text[..|text| - 1])
  }

  function Tail(text: string): (r: string)
    ensures Body(text) + r == text
    ensures Terminated(text) <==> r == ""
  {
    text[|Body(text)|..]
  }

  lemma {:induction false} TailHasNoBreak(text: string)
    ensures NoBreak(Tail(text))
    decreases |text|
  {
    if !Terminated(text) {
      TailHasNoBreak(text[..|text| - 1]);
      assert Tail(text) == Tail(text[..|text| - 1]) + [text[|text| - 1]];
    }
  }

  lemma {:induction false} GatherConcat(keysOf: string -> set<Key>, a: seq<string>, b: seq<string>)
    ensures Gather(keysOf, a + b) == Gather(keysOf, a) + Gather(keysOf, b)
  {
    if a == [] {
      assert a + b == b;
    } else {
      GatherConcat(keysOf, a[1..], b);
      assert (a + b)[1..] == a[1..] + b;
    }
  }

  lemma {:induction false} LinesConcat(a: string, b: string)
    requires Terminated(a)
    ensures Lines(a + b) == Lines(a) + Lines(b)
    decreases |a|
  {
    hide LineEnd;
    if a == "" {
      assert a + b == b;
    } else {
      var n := LineEnd(a);
      FirstBreakAt(a);
      assert n < |a| by {
        assert IsBreak(a[|a| - 1]);
      }
      LineEndIs(a + b, n);
      assert (a + b)[..n] == a[..n];
      assert (a + b)[n + 1..] == a[n + 1..] + b;
      LinesConcat(a[n + 1..], b);
    }
  }

  lemma KeysConcat(a: string, b: string)
    requires Terminated(a)
    ensures Keys(a + b) == Keys(a) + Keys(b)
  {
    LinesConcat(a, b);
    GatherConcat(LineKeys, Lines(a), Lines(b));
  }

  lemma FirstOf(line: string, lines: seq<string>)
    ensures KeysOf([line] + lines) == LineKeys(line) + KeysOf(lines)
  {
    assert ([line] + lines)[1..] == lines;
  }

  /** What follows the first line of a text. */
  predicate Follows(more: string) {
    more == "" || IsBreak(more[0])
  }

  lemma SplitLine(text: string) returns (line: string, more: string)
    ensures text == line + more && NoBreak(line) && Follows(more)
  {
    FirstBreakAt(text);
    line, more := text[..LineEnd(text)], text[LineEnd(text)..];
  }

  /** The keys of the lines after the first one. */
  function LaterKeys(more: string): set<Key> {
    if more == "" then {} else Keys(more[1..])
  }

  lemma LinesFirst(line: string, more: string)
    requires NoBreak(line) && Follows(more)
    ensures more != "" ==> Lines(line + more) == [line] + Lines(more[1..])
    ensures more == "" && line != "" ==> Lines(line + more) == [line]
  {
    LineEndIs(line + more, |line|);
    assert (line + more)[..|line|] == line;
    assert more != "" ==> (line + more)[|line| + 1..] == more[1..];
    assert more == "" ==> line + more == line;
  }

  /** A text is its first line and the later ones. */
  lemma FirstLine(line: string, more: string)
    requires NoBreak(line) && Follows(more)
    ensures Keys(line + more) == LineKeys(line) + LaterKeys(more)
  {
    LinesFirst(line, more);
    if more != "" {
      FirstOf(line, Lines(more[1..]));
    } else if line != "" {
      FirstOf(line, []);
      assert [line] + [] == [line];
    } else {
      assert Strip(line) == "" && line + more == "";
    }
  }

  lemma GluedKeys(tail: string, line: string, more: string)
    requires NoBreak(tail) && NoBreak(line) && Follows(more)
    ensures Keys(tail + (line + more)) == LineKeys(tail + line) + LaterKeys(more)
  {
    NoBreakConcat(tail, line);
    assert tail + (line + more) == (tail + line) + more;
    FirstLine(tail + line, more);
  }

  lemma NoBreakConcat(a: string, b: string)
    ensures NoBreak(a + b) <==> NoBreak(a) && NoBreak(b)
  {
    assert forall i :: 0 <= i < |a| ==> (a + b)[i] == a[i];
    assert forall i :: 0 <= i < |b| ==> (a + b)[|a| + i] == b[i];
  }

  // ---- What a scan makes of a record and of its pieces ----

  lemma {:induction false} EscapedBreaks(key: Key)
    ensures NoBreak(EscapeAll(key)) <==> OneLine(key)
  {
    if key != "" {
      EscapedBreaks(key[1..]);
      var a, b := Escape(key[0]), EscapeAll(key[1..]);
      assert NoBreak(a) <==> key[0] !in ['\U{85}', '\U{2028}', '\U{2029}'] by {
        EscapedBreak(key[0]);
      }
      assert NoBreak(a + b) <==> NoBreak(a) && NoBreak(b) by {
        NoBreakConcat(a, b);
      }
      assert OneLine(key) <==> key[0] !in ['\U{85}', '\U{2028}', '\U{2029}'] && OneLine(key[1..]) by {
        assert key == [key[0]] + key[1..];
      }
    }
  }

  lemma EscapedBreak(c: char)
    ensures NoBreak(Escape(c)) <==> c !in ['\U{85}', '\U{2028}', '\U{2029}']
  {
    if c in ['\U{85}', '\U{2028}', '\U{2029}'] {
      assert Escape(c)[0] == c;
    }
  }

  lemma EncodeBreaks(key: Key)
    ensures NoBreak(Encode(key)) <==> OneLine(key)
  {
    EscapedBreaks(key);
    NoBreakConcat(Opening(), EscapeAll(key));
    NoBreakConcat(Opening() + EscapeAll(key), Closing());
  }

  /** Text in front of a record spoils it. */
  lemma NoRecordAfterText(rest: string, more: string)
    requires rest != ""
    ensures Decode(rest + Opening() + more) == None
  {
    var line := rest + Opening() + more;
    assert line[|rest|] == '{' && line[|rest| + 1] == '\"';
    if |rest| < |Opening()| {
      assert line[..|Opening()|][|rest|] == '{' && Opening()[|rest|] != '{';
    } else {
      var inside, a := line[|Opening()|..|line| - |Closing()|], rest[|Opening()|..];
      assert inside == a + "{\"" + inside[|a| + 2..];
      NoBareQuote(a, inside[|a| + 2..]);
    }
  }

  /** A record that is cut short is none. */
  lemma NoRecordInPart(key: Key, part: string)
    requires part <= Encode(key) && |part| < |Encode(key)|
    ensures Decode(part) == None
  {
    var e, n := EscapeAll(key), |part| - |Opening()| - |Closing()|;
    if n >= 0 && part[|Opening()| + n] == '\"' {
      SamePart(e, part, n);
      QuoteEnds(part[|Opening()|..|Opening()| + n], e[n + 1..]);
      RoundTrip(key);
    }
  }

  lemma SamePart(e: string, part: string, n: nat)
    requires part <= Opening() + e + Closing() && |Opening()| + n + |Closing()| == |part| < |Opening() + e + Closing()|
    requires part[|Opening()| + n] == '\"'
    ensures n < |e| && e == part[|Opening()|..|Opening()| + n] + "\"" + e[n + 1..]
  {
    assert forall i :: 0 <= i < |part| ==> part[i] == (Opening() + e + Closing())[i];
    assert n < |e| && e[n] == part[|Opening()| + n];
    assert e[..n] == part[|Opening()|..|Opening()| + n];
    assert e == e[..n] + [e[n]] + e[n + 1..];
  }

  lemma PartKeys(key: Key, part: string)
    requires part <= Encode(key) && |part| < |Encode(key)|
    ensures LineKeys(part) == {}
  {
    if part != "" {
      assert part[0] == '{';
      RightStripIsPrefix(part);
      NoRecordInPart(key, RightStrip(part));
    } else {
      assert Strip(part) == "";
    }
  }

  lemma WholeKeys(key: Key)
    ensures LineKeys(Encode(key)) == {key}
  {
    StrippedStays(Encode(key));
    DecodeEncode(key);
  }

  /** A fragment in front of the start of a record, on one line. */
  lemma GluedLine(fragment: string, more: string)
    ensures LineKeys(fragment + Opening() + more) == if Blank(fragment) then LineKeys(Opening() + more) else {}
  {
    if Blank(fragment) {
      assert fragment + Opening() + more == fragment + (Opening() + more);
      LeftStripPrefix(fragment, Opening() + more);
    } else {
      var blank := LeftStripSplit(fragment);
      var rest := LeftStrip(fragment);
      NotBlank(fragment);
      assert fragment + Opening() + more == blank + (rest + Opening() + more);
      LeftStripPrefix(blank, rest + Opening() + more);
      var k := RightStripKeeps(rest + Opening(), more);
      NoRecordAfterText(rest, more[..k]);
    }
  }

  /** A line whose last visible character is no brace holds no record. */
  lemma NoClosing(line: string, blank: string)
    requires line != "" && !IsSpace(line[|line| - 1]) && line[|line| - 1] != '}' && Blank(blank)
    ensures LineKeys(line + blank) == {}
  {
    var front := LeftStripSplit(line + blank);
    var inner := LeftStrip(line + blank);
    assert |front| < |line| by {
      assert (line + blank)[|line| - 1] == line[|line| - 1];
      assert forall i :: 0 <= i < |front| ==> front[i] == (line + blank)[i];
    }
    assert front + inner == (line[..|front|] + line[|front|..]) + blank;
    assert inner == (front + inner)[|front|..];
    assert inner == line[|front|..] + blank;
    var k := RightStripKeeps(line[|front|..], blank);
    assert line[|front|..] + blank[..0] == line[|front|..];
  }

  /** The first characters of a record on a line are no record, whatever stands before them. */
  lemma CutOpening(fragment: string, n: nat)
    requires 0 < n < |Opening()|
    ensures LineKeys(fragment + Opening()[..n]) == {}
  {
    if n == |Opening()| - 1 {
      assert fragment + Opening()[..n] == fragment + Opening()[..n - 1] + " ";
      NoClosing(fragment + Opening()[..n - 1], " ");
    } else {
      assert fragment + Opening()[..n] + "" == fragment + Opening()[..n];
      NoClosing(fragment + Opening()[..n], "");
    }
  }

  predicate Named(s: string, i: nat) {
    i + 2 < |s| && s[i] == '{' && s[i + 1] == '\"' && s[i + 2] == 'k'
  }

  /** No record starts anywhere in here: no brace is followed by the name of the key. */
  predicate Harmless(s: string) {
    forall i :: 0 <= i < |s| ==> !Named(s, i)
  }

  lemma HarmlessPart(s: string, from: nat, to: nat)
    requires Harmless(s) && from <= to <= |s|
    ensures Harmless(s[from..to])
  {
    forall i | 0 <= i < to - from
      ensures !Named(s[from..to], i)
    {
      assert !Named(s, from + i);
    }
  }

  lemma HarmlessParts(a: string, b: string)
    requires Harmless(a + b)
    ensures Harmless(a) && Harmless(b)
  {
    HarmlessPart(a + b, 0, |a|);
    HarmlessPart(a + b, |a|, |a + b|);
    assert (a + b)[0..|a|] == a && (a + b)[|a|..|a + b|] == b;
  }

  lemma HarmlessLater(more: string)
    requires Harmless(more) && more != ""
    ensures Harmless(more[1..])
  {
    HarmlessPart(more, 1, |more|);
    assert more[1..|more|] == more[1..];
  }

  lemma {:induction false} HarmlessKeys(s: string)
    requires Harmless(s)
    ensures Keys(s) == {}
    decreases |s|
  {
    var line, more := SplitLine(s);
    HarmlessParts(line, more);
    HarmlessLine(line);
    if more != "" {
      HarmlessLater(more);
      HarmlessKeys(more[1..]);
    }
    FirstLine(line, more);
  }

  lemma HarmlessLine(line: string)
    requires Harmless(line)
    ensures LineKeys(line) == {}
  {
    var from, to := StripIsPart(line);
    HarmlessPart(line, from, to);
    var s := Strip(line);
    if |s| >= |Opening()| {
      assert !Named(s, 0);
      assert s[..|Opening()|][0] == s[0] && s[..|Opening()|][1] == s[1] && s[..|Opening()|][2] == s[2];
    }
  }

  /** After its opening a record is harmless. */
  lemma RestIsHarmless(key: Key)
    ensures Harmless(EscapeAll(key) + Closing() + "\n")
  {
    var e := EscapeAll(key);
    var s := e + Closing() + "\n";
    QuotesFollowBackslashes(key);
    assert forall j :: 0 <= j < |e| ==> s[j] == e[j];
    forall i | 0 <= i < |s|
      ensures !Named(s, i)
    {
    }
  }

  // ---- Appends ----

  /** A fragment and then the first characters of a record, from its opening on. */
  lemma RecordAfter(tail: string, key: Key, landed: nat)
    requires NoBreak(tail) && |Opening()| <= landed <= |Record(key)|
    ensures Keys(tail + Record(key)[..landed])
      == if Blank(tail) && OneLine(key) && landed >= |Encode(key)| then {key} else {}
  {
    var part := Record(key)[..landed];
    var line, more := SplitLine(part);
    OpensLine(line, more);
    RecordLine(key, landed, line, more);
    RecordRest(key, landed, line, more);
    hide *;
    GluedRecord(tail, line);
    GluedKeys(tail, line, more);
  }

  /** The opening of a record has no line break. */
  lemma OpensLine(line: string, more: string)
    requires Opens(line + more) && Follows(more)
    ensures Opens(line)
  {
    var s := line + more;
    assert forall i :: 0 <= i < |Opening()| ==> s[i] == Opening()[i] && !IsBreak(Opening()[i]);
    assert more != "" ==> s[|line|] == more[0];
  }

  lemma GluedRecord(tail: string, line: string)
    requires Opens(line)
    ensures LineKeys(tail + line) == if Blank(tail) then LineKeys(line) else {}
  {
    var more := line[|Opening()|..];
    assert line == Opening() + more;
    assert tail + line == tail + Opening() + more;
    hide *;
    GluedLine(tail, more);
  }

  /** The first line of a record that was written up to `landed`. */
  lemma RecordLine(key: Key, landed: nat, line: string, more: string)
    requires landed <= |Record(key)| && Record(key)[..landed] == line + more
    requires NoBreak(line) && Follows(more)
    ensures LineKeys(line) == if OneLine(key) && landed >= |Encode(key)| then {key} else {}
  {
    var e, n := Encode(key), |line|;
    EncodeBreaks(key);
    assert forall i :: 0 <= i < landed && i < |e| ==> (line + more)[i] == e[i];
    assert forall i :: 0 <= i < n ==> (line + more)[i] == line[i];
    if OneLine(key) && landed >= |e| {
      assert landed > |e| ==> (line + more)[|e|] == '\n';
      assert more != "" ==> (line + more)[n] == more[0];
      assert line == e;
      WholeKeys(key);
    } else {
      if landed >= |e| {
        var i: nat :| i < |e| && IsBreak(e[i]);
        assert (line + more)[i] == e[i];
      }
      assert line == e[..n];
      PartKeys(key, line);
    }
  }

  lemma SliceOfRest(a: string, b: string, from: nat, to: nat)
    requires |a| <= from <= to <= |a + b|
    ensures (a + b)[..to][from..] == b[from - |a|..to - |a|]
  {
  }

  /** The scan finds nothing after it. */
  lemma RecordRest(key: Key, landed: nat, line: string, more: string)
    requires |Opening()| <= |line| && landed <= |Record(key)| && Record(key)[..landed] == line + more
    ensures LaterKeys(more) == {}
  {
    var s := EscapeAll(key) + Closing() + "\n";
    RestIsHarmless(key);
    assert Record(key) == Opening() + s;
    HarmlessPart(s, |line| - |Opening()|, landed - |Opening()|);
    assert more == (line + more)[|line|..];
    SliceOfRest(Opening(), s, |line|, landed);
    if more != "" {
      HarmlessLater(more);
      HarmlessKeys(more[1..]);
    }
  }

  lemma TailAlone(tail: string, key: Key, landed: nat)
    requires 0 < landed < |Opening()| && NoBreak(tail)
    ensures Keys(tail + Record(key)[..landed]) == {}
  {
    var part := Opening()[..landed];
    assert Record(key)[..landed] == part && NoBreak(part);
    assert tail + (part + "") == tail + part;
    hide *;
    GluedKeys(tail, part, "");
    CutOpening(tail, landed);
  }

  lemma AppendParts(text: string, part: string)
    ensures Keys(text + part) == Keys(Body(text)) + Keys(Tail(text) + part)
  {
    var body, tail := Body(text), Tail(text);
    assert body + tail == text;
    hide *;
    assert text + part == body + (tail + part);
    KeysConcat(body, tail + part);
  }

  /** What the scan finds once `landed` characters of a record were appended to a text. */
  function KeysAfter(text: string, key: Key, landed: nat): set<Key> {
    if landed == 0 then Keys(text)
    else if Blank(Tail(text)) && OneLine(key) && landed >= |Encode(key)| then Keys(Body(text)) + {key}
    else Keys(Body(text))
  }

  /** What one append does to the set of keys on disk, for every key, every file it may meet, and every
      number of characters that reach the file. The keys of the complete lines stay. The new key counts
      exactly when its record is one line, reached the file but for its line break, and met a file that
      ended in a line break or blanks; a record left unterminated at the end is swallowed. */
  lemma AppendEffect(text: string, key: Key, landed: nat)
    requires landed <= |Record(key)|
    ensures Keys(text + Record(key)[..landed]) == KeysAfter(text, key, landed)
  {
    var part := Record(key)[..landed];
    if landed == 0 {
      assert text + part == text;
    } else {
      AppendParts(text, part);
      TailHasNoBreak(text);
      if landed < |Opening()| {
        TailAlone(Tail(text), key, landed);
      } else {
        hide *;
        RecordAfter(Tail(text), key, landed);
      }
    }
  }

  lemma CleanTail(text: string)
    ensures Terminated(text) ==> Body(text) == text && Tail(text) == ""
  {
  }

  lemma AppendClean(text: string, key: Key)
    requires Terminated(text)
    ensures Terminated(text + Record(key))
    ensures Keys(text + Record(key)) == Keys(text) + if OneLine(key) then {key} else {}
  {
    AppendEffect(text, key, |Record(key)|);
    assert Record(key)[..|Record(key)|] == Record(key);
  }

  lemma RecordsSplit(text: string, keys: seq<Key>)
    requires keys != []
    ensures text + Records(keys) == text + Record(keys[0]) + Records(keys[1..])
  {
  }

  /** After any series of successful appends to a cleanly ended file the scan finds the old keys, the
      appended ones whose record is one line, and no other. */
  lemma {:induction false} AppendsFound(text: string, keys: seq<Key>)
    requires Terminated(text)
    ensures forall k :: k in Keys(text + Records(keys)) <==> k in Keys(text) || (k in keys && OneLine(k))
    decreases |keys|
  {
    if keys == [] {
      assert text + Records(keys) == text;
    } else {
      var next := text + Record(keys[0]);
      AppendClean(text, keys[0]);
      AppendsFound(next, keys[1..]);
      RecordsSplit(text, keys);
    }
  }

  /** A torn record at the end of the file makes the next committed key invisible. */
  lemma TornTailHidesKey()
    ensures "ab" !in Keys("{\"key\": \"0" + Record("ab"))
  {
    var text := "{\"key\": \"0";
    assert !IsSpace(text[0]);
    RecordAfter(text, "ab", |Record("ab")|);
    assert Record("ab")[..|Record("ab")|] == Record("ab");
  }

  /** A key with a line separator is not found again, although its record was written completely. */
  lemma SeparatorHidesKey(text: string)
    requires Terminated(text)
    ensures Keys(text + Record("\U{2028}")) == Keys(text)
  {
    AppendClean(text, "\U{2028}");
    assert "\U{2028}"[0] in ['\U{85}', '\U{2028}', '\U{2029}'];
  }

  // ---- Digests ----

  predicate HexChar(c: char) {
    '0' <= c <= '9' || 'a' <= c <= 'f'
  }

  predicate Hex(key: Key) {
    forall i :: 0 <= i < |key| ==> HexChar(key[i])
  }

  lemma HexIsOneLine(key: Key)
    requires Hex(key)
    ensures OneLine(key)
  {
    assert forall i :: 0 <= i < |key| ==> HexChar(key[i]);
  }

  /** Hex digests, the default keys, are all found again. */
  lemma DigestsFound(text: string, keys: seq<Key>)
    requires Terminated(text) && forall k :: k in keys ==> Hex(k)
    ensures forall k :: k in Keys(text + Records(keys)) <==> k in Keys(text) || k in keys
  {
    AppendsFound(text, keys);
    forall k | k in keys
      ensures OneLine(k)
    {
      HexIsOneLine(k);
    }
  }

  // ---- The texts themselves ----

  lemma Letters()
    ensures EscapeAll("ab") == "ab"
  {
    assert "ab"[1..] == "b" && "b"[1..] == "";
    assert EscapeAll("b") == "b";
  }

  /** The record of a key, to the letter. */
  lemma RecordText()
    ensures Record("ab") == "{\"key\": \"ab\"}\n"
  {
    Letters();
    assert Opening() == "{\"key\": \"" && Closing() == "\"}";
    hide EscapeAll;
    hide Escape;
  }

  /** What a scan of such a text finds. */
  lemma ScanOfRecord(text: string)
    requires Terminated(text)
    ensures Keys(text + "{\"key\": \"ab\"}\n") == Keys(text) + {"ab"}
  {
    RecordText();
    assert OneLine("ab");
    hide *;
    AppendClean(text, "ab");
  }

  /** A record may end in any of the line breaks that splitlines knows, and they are these. */
  lemma EveryBreakSeparates(a: Key, c: char, b: string)
    requires OneLine(a)
    requires c in ['\n', '\U{0b}', '\U{0c}', '\r', '\U{1c}', '\U{1d}', '\U{1e}', '\U{85}', '\U{2028}', '\U{2029}']
    ensures Keys(Encode(a) + ([c] + b)) == {a} + Keys(b)
  {
    EncodeBreaks(a);
    FirstLine(Encode(a), [c] + b);
    assert ([c] + b)[1..] == b;
    WholeKeys(a);
  }
}
