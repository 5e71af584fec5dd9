// core/sink.py: the result file survives a crash at any character. Printing a row and reading
// it back gives the row; no proper part of a printed row reads as a row; so `replay` of any
// prefix of the file counts exactly the rows that are wholly in it.

module TornLog {
  import opened Models
  import opened ResultLog

  // ---------------------------------------------------------------- strings

  lemma {:induction false} RunQuotedAppend(q: Quoted, a: string, b: string)
    ensures RunQuoted(q, a + b) == RunQuoted(RunQuoted(q, a), b)
    decreases |a|
  {
    if a == "" {
      assert a + b == b;
    } else {
      assert (a + b)[1..] == a[1..] + b;
      RunQuotedAppend(NextQuoted(q, a[0]), a[1..], b);
    }
  }

  lemma RunQuotedOne(q: Quoted, c: char)
    ensures RunQuoted(q, [c]) == NextQuoted(q, c)
  {
    assert [c][1..] == "";
  }

  lemma HexRoundTrip(d: nat)
    requires d < 16
    ensures HexValue(HexDigit(d)) == Some(d)
  {
  }

  lemma RunQuotedFour(q: Quoted, s: string)
    requires |s| == 4
    ensures RunQuoted(q, s) == NextQuoted(NextQuoted(NextQuoted(NextQuoted(q, s[0]), s[1]), s[2]), s[3])
  {
    hide NextQuoted;
    var q1 := NextQuoted(q, s[0]);
    var q2 := NextQuoted(q1, s[1]);
    var q3 := NextQuoted(q2, s[2]);
    assert RunQuoted(q, s) == RunQuoted(q1, s[1..]);
    assert s[1..][1..] == s[2..] && s[2..][1..] == s[3..] && s[3..][1..] == "";
    assert RunQuoted(q1, s[1..]) == RunQuoted(q2, s[2..]);
    assert RunQuoted(q2, s[2..]) == RunQuoted(q3, s[3..]);
    assert RunQuoted(q3, s[3..]) == RunQuoted(NextQuoted(q3, s[3]), "");
  }

  lemma DigitsRead(t: Text, a: nat, b: nat, c: nat, d: nat)
    requires a < 16 && b < 16 && c < 16 && d < 16
    ensures RunQuoted(Hex(t, 0, 0), [HexDigit(a), HexDigit(b), HexDigit(c), HexDigit(d)])
      == Plain(Join(t, 0x1000 * a + 0x100 * b + 16 * c + d))
  {
    HexRoundTrip(a);
    HexRoundTrip(b);
    HexRoundTrip(c);
    HexRoundTrip(d);
    hide RunQuoted, HexDigit, HexValue, Join;
    RunQuotedFour(Hex(t, 0, 0), [HexDigit(a), HexDigit(b), HexDigit(c), HexDigit(d)]);
  }

  lemma Hex4Read(t: Text, v: nat)
    requires v < 0x10000
    ensures RunQuoted(Hex(t, 0, 0), Hex4(v)) == Plain(Join(t, v))
  {
    hide RunQuoted, HexDigit, Join;
    var a, b, c, d := v / 0x1000, v / 0x100 % 16, v / 16 % 16, v % 16;
    DigitsRead(t, a, b, c, d);
    assert v / 0x100 == 16 * a + b && v / 16 == 16 * (v / 0x100) + c && v == 16 * (v / 16) + d;
  }

  lemma EscapedUnit(t: Text, v: nat)
    requires v < 0x10000
    ensures RunQuoted(Plain(t), "\\u" + Hex4(v)) == Plain(Join(t, v))
  {
    hide Hex4, Join;
    assert "\\u" + Hex4(v) == "\\" + ("u" + Hex4(v));
    RunQuotedAppend(Plain(t), "\\", "u" + Hex4(v));
    RunQuotedOne(Plain(t), '\\');
    RunQuotedAppend(Slash(t), "u", Hex4(v));
    RunQuotedOne(Slash(t), 'u');
    Hex4Read(t, v);
  }

  lemma ShortEscape(t: Text, e: char)
    ensures RunQuoted(Plain(t), ['\\', e]) == NextQuoted(Slash(t), e)
  {
    assert ['\\', e] == ['\\'] + [e];
    RunQuotedAppend(Plain(t), ['\\'], [e]);
    RunQuotedOne(Plain(t), '\\');
    RunQuotedOne(Slash(t), e);
  }

  lemma JoinPlain(t: Text, c: Code)
    ensures !Low(c) ==> Join(t, c) == t + [c]
  {
  }

  /** A code point beyond the basic plane is printed as a pair and read back as one. */
  lemma AstralRead(t: Text, c: Code)
    requires c >= 0x10000
    ensures RunQuoted(Plain(t), EscapeOne(c)) == Plain(t + [c])
  {
    hide RunQuoted, Hex4;
    var hi, lo := 0xD800 + (c - 0x10000) / 0x400, 0xDC00 + (c - 0x10000) % 0x400;
    assert EscapeOne(c) == ("\\u" + Hex4(hi)) + ("\\u" + Hex4(lo));
    RunQuotedAppend(Plain(t), "\\u" + Hex4(hi), "\\u" + Hex4(lo));
    EscapedUnit(t, hi);
    JoinPlain(t, hi);
    EscapedUnit(t + [hi], lo);
    assert Front(t + [hi]) == t;
  }

  lemma EscapeOneRead(t: Text, c: Code)
    ensures RunQuoted(Plain(t), EscapeOne(c)) == Plain(Join(t, c))
  {
    hide RunQuoted, Hex4, Join;
    JoinPlain(t, c);
    if c >= 0x10000 {
      AstralRead(t, c);
    } else if EscapeOne(c) == "\\u" + Hex4(c) {
      EscapedUnit(t, c);
    } else if |EscapeOne(c)| == 2 {
      ShortEscape(t, EscapeOne(c)[1]);
    } else {
      RunQuotedOne(Plain(t), c as char);
    }
  }

  /** The string with each high surrogate joined to a low one behind it. */
  function Joined(t: Text): Text {
    if t == [] then [] else Join(Joined(Front(t)), Last(t))
  }

  lemma {:induction false} EscapeReadsJoined(t: Text)
    ensures RunQuoted(Plain([]), Escape(t)) == Plain(Joined(t))
  {
    if t == [] {
      assert RunQuoted(Plain([]), "") == Plain([]);
    } else {
      hide RunQuoted, EscapeOne, Join;
      EscapeReadsJoined(Front(t));
      RunQuotedAppend(Plain([]), Escape(Front(t)), EscapeOne(Last(t)));
      EscapeOneRead(Joined(Front(t)), Last(t));
    }
  }

  lemma JoinKeepsPaired(t: Text, c: Code)
    requires Paired(t)
    ensures Paired(Join(t, c))
    ensures Paired(t + [c]) ==> Join(t, c) == t + [c]
  {
    var s := t + [c];
    if Low(c) && t != [] && High(Last(t)) { assert s[|t| - 1] == Last(t) && s[|t|] == c; }
  }

  lemma {:induction false} JoinedIsPaired(t: Text)
    ensures Paired(Joined(t)) && (Paired(t) ==> Joined(t) == t)
  {
    if t == [] {
    } else {
      hide Join;
      JoinedIsPaired(Front(t));
      JoinKeepsPaired(Joined(Front(t)), Last(t));
      assert t == Front(t) + [Last(t)];
    }
  }

  /** Section 7 of RFC 8259, printed and read: the string between the quotes comes back exactly
      when it holds no surrogate pair written as two code points. */
  lemma StringRoundTrip(t: Text)
    ensures RunQuoted(Plain([]), Escape(t)) == Plain(t) <==> Paired(t)
  {
    hide RunQuoted, Escape, Joined;
    EscapeReadsJoined(t);
    JoinedIsPaired(t);
  }

  lemma DigitsListed(e: char)
    ensures e in "0123456789" <==> '0' <= e <= '9'
    ensures e in "abcdef" <==> 'a' <= e <= 'f'
    ensures e in "ABCDEF" <==> 'A' <= e <= 'F'
  {
    var d, l, u := "0123456789", "abcdef", "ABCDEF";
    if '0' <= e <= '9' { assert d[e as int - '0' as int] == e; }
    if 'a' <= e <= 'f' { assert l[e as int - 'a' as int] == e; }
    if 'A' <= e <= 'F' { assert u[e as int - 'A' as int] == e; }
  }

  /** The escapes mean what section 7 of RFC 8259 says: after a backslash, the quote, the backslash
      and the slash stand for themselves, b, f, n, r and t for their control characters, and u and
      four hexadecimal digits for a code unit; nothing else may follow one. Elsewhere a quote ends
      the string, a control character is an error, and any other character stands for itself. */
  lemma EscapesOfTheStandard(t: Text, e: char)
    ensures NextQuoted(Slash(t), e) ==
      if e == '"' then Plain(t + [0x22])
      else if e == '\\' then Plain(t + [0x5C])
      else if e == '/' then Plain(t + [0x2F])
      else if e == 'b' then Plain(t + [0x08])
      else if e == 'f' then Plain(t + [0x0C])
      else if e == 'n' then Plain(t + [0x0A])
      else if e == 'r' then Plain(t + [0x0D])
      else if e == 't' then Plain(t + [0x09])
      else if e == 'u' then Hex(t, 0, 0)
      else Broken
    ensures NextQuoted(Plain(t), e) ==
      if e == '"' then Shut(t) else if e == '\\' then Slash(t)
      else if e as int < 0x20 then Broken else Plain(t + [e as int])
    ensures HexValue(e) ==
      if e in "0123456789" then Some(e as int - '0' as int)
      else if e in "abcdef" then Some(10 + (e as int - 'a' as int))
      else if e in "ABCDEF" then Some(10 + (e as int - 'A' as int))
      else None
  {
    DigitsListed(e);
  }

  lemma HexDigitsAreSmall(d: nat)
    requires d < 16
    ensures !('A' <= HexDigit(d) <= 'Z')
  {
  }

  lemma CapitalIsItself(c: Code, i: nat)
    requires i < |EscapeOne(c)| && 'A' <= EscapeOne(c)[i] <= 'Z'
    ensures c == EscapeOne(c)[i] as int
  {
    hide HexDigit;
    forall d: nat | d < 16 ensures !('A' <= HexDigit(d) <= 'Z') { HexDigitsAreSmall(d); }
  }

  /** Escapes are written in lower case: a capital letter in a printed string stands for itself. */
  lemma {:induction false} CapitalsAreText(t: Text, i: nat)
    requires i < |Escape(t)| && 'A' <= Escape(t)[i] <= 'Z'
    ensures Escape(t)[i] as int in t
  {
    if t == [] {
    } else {
      hide EscapeOne;
      var front, last := Escape(Front(t)), EscapeOne(Last(t));
      if i < |front| {
        CapitalsAreText(Front(t), i);
      } else {
        assert Escape(t)[i] == last[i - |front|];
        CapitalIsItself(Last(t), i - |front|);
        assert Last(t) in t;
      }
    }
  }

  // ---------------------------------------------------------------- objects

  lemma {:induction false} RunAppend(s: Scan, a: string, b: string)
    ensures Run(s, a + b) == Run(Run(s, a), b)
    decreases |a|
  {
    if a == "" {
      assert a + b == b;
    } else {
      hide Next;
      assert (a + b)[1..] == a[1..] + b;
      RunAppend(Next(s, a[0]), a[1..], b);
    }
  }

  lemma RunOne(s: Scan, c: char)
    ensures Run(s, [c]) == Next(s, c)
  {
    hide Next;
    assert [c][1..] == "";
    assert Run(Next(s, c), "") == Next(s, c);
  }

  predicate Inside(q: Quoted) { q.Plain? || q.Slash? || q.Hex? }

  lemma {:induction false} OutsideStays(q: Quoted, text: string)
    requires !Inside(q)
    ensures !Inside(RunQuoted(q, text))
    decreases |text|
  {
    if text == "" {
    } else {
      OutsideStays(NextQuoted(q, text[0]), text[1..]);
    }
  }

  /** The object reader runs the string reader for as long as that is inside the string. */
  lemma {:induction false} InTextRuns(s: Scan, slot: Slot, q: Quoted, text: string)
    requires Inside(RunQuoted(q, text))
    ensures Run(s.(at := InText(slot, q)), text) == s.(at := InText(slot, RunQuoted(q, text)))
    decreases |text|
  {
    if text == "" {
    } else {
      var q' := NextQuoted(q, text[0]);
      if !Inside(q') { OutsideStays(q', text[1..]); }
      hide NextQuoted;
      assert Next(s.(at := InText(slot, q)), text[0]) == s.(at := InText(slot, q'));
      InTextRuns(s, slot, q', text[1..]);
    }
  }

  lemma TextRead(s: Scan, slot: Slot, t: Text)
    requires Paired(t)
    ensures Run(s.(at := InText(slot, Plain([]))), Escape(t) + "\"")
      == if slot.KeySlot? then s.(at := WantColon(t)) else Scan(s.fields + [Field(slot.key, Str(t))], AfterValue)
  {
    hide Run, Escape, RunQuoted;
    var s0 := s.(at := InText(slot, Plain([])));
    StringRoundTrip(t);
    InTextRuns(s, slot, Plain([]), Escape(t));
    RunAppend(s0, Escape(t), "\"");
    RunOne(s.(at := InText(slot, Plain(t))), '"');
  }

  lemma {:induction false} NumberRuns(s: Scan, key: Text, a: string, b: string)
    requires forall i :: 0 <= i < |b| ==> NumChar(b[i])
    ensures Run(s.(at := InNumber(key, a)), b) == s.(at := InNumber(key, a + b))
    decreases |b|
  {
    if b == "" {
      assert a + b == a;
    } else {
      NumberRuns(s, key, a + [b[0]], b[1..]);
      assert a + [b[0]] + b[1..] == a + b;
    }
  }

  lemma NullRuns(s: Scan, key: Text)
    ensures Run(s.(at := WantValue(key)), "null") == Scan(s.fields + [Field(key, Null)], AfterValue)
  {
    hide Run;
    assert "null" == "n" + ("u" + ("l" + "l"));
    RunAppend(s.(at := WantValue(key)), "n", "u" + ("l" + "l"));
    RunOne(s.(at := WantValue(key)), 'n');
    RunAppend(s.(at := InNull(key, 1)), "u", "l" + "l");
    RunOne(s.(at := InNull(key, 1)), 'u');
    RunAppend(s.(at := InNull(key, 2)), "l", "l");
    RunOne(s.(at := InNull(key, 2)), 'l');
    RunOne(s.(at := InNull(key, 3)), 'l');
  }

  predicate ValidField(f: Field) {
    && Paired(f.key)
    && match f.value
       case Str(text) => Paired(text)
       case Num(token) => NumToken(token)
       case Null => true
  }

  predicate Delimiter(c: char) { c == ',' || c == '}' }

  lemma ValueRead(s: Scan, f: Field, d: char)
    requires ValidField(f) && Delimiter(d)
    ensures Run(s.(at := WantValue(f.key)), PrintValue(f.value) + [d])
      == Delimit(Scan(s.fields + [f], AfterValue), d)
  {
    hide Run, Escape;
    var s0 := s.(at := WantValue(f.key));
    RunAppend(s0, PrintValue(f.value), [d]);
    match f.value
    case Str(text) =>
      assert PrintValue(f.value) == "\"" + (Escape(text) + "\"");
      RunAppend(s0, "\"", Escape(text) + "\"");
      RunOne(s0, '"');
      TextRead(s, ValueSlot(f.key), text);
      RunOne(Scan(s.fields + [f], AfterValue), d);
    case Num(token) =>
      assert token == [token[0]] + token[1..];
      RunAppend(s0, [token[0]], token[1..]);
      RunOne(s0, token[0]);
      NumberRuns(s, f.key, [token[0]], token[1..]);
      RunOne(s.(at := InNumber(f.key, token)), d);
    case Null =>
      NullRuns(s, f.key);
      RunOne(Scan(s.fields + [f], AfterValue), d);
  }

  lemma KeyIsPaired(f: Field)
    requires ValidField(f)
    ensures Paired(f.key)
  {
  }

  lemma FieldRead(s: Scan, first: bool, f: Field, d: char)
    requires ValidField(f) && Delimiter(d)
    ensures Run(s.(at := WantKey(first)), PrintField(f) + [d]) == Delimit(Scan(s.fields + [f], AfterValue), d)
  {
    hide Run, Escape, PrintValue, Delimit, ValidField;
    var s0, key, value := s.(at := WantKey(first)), Escape(f.key) + "\"", PrintValue(f.value) + [d];
    assert Paired(f.key) by { KeyIsPaired(f); }
    assert PrintField(f) + [d] == "\"" + (key + (":" + (" " + value)));
    RunAppend(s0, "\"", key + (":" + (" " + value)));
    RunOne(s0, '"');
    RunAppend(s.(at := InText(KeySlot, Plain([]))), key, ":" + (" " + value));
    TextRead(s, KeySlot, f.key);
    RunAppend(s.(at := WantColon(f.key)), ":", " " + value);
    RunOne(s.(at := WantColon(f.key)), ':');
    RunAppend(s.(at := WantValue(f.key)), " ", value);
    RunOne(s.(at := WantValue(f.key)), ' ');
    ValueRead(s, f, d);
  }

  lemma {:induction false} FieldsRead(fs: seq<Field>, d: char)
    requires fs != [] && (forall i :: 0 <= i < |fs| ==> ValidField(fs[i])) && Delimiter(d)
    ensures Run(Scan([], WantKey(true)), PrintFields(fs) + [d]) == Delimit(Scan(fs, AfterValue), d)
  {
    hide Run, PrintField, ValidField;
    if |fs| == 1 {
      FieldRead(Scan([], WantKey(true)), true, fs[0], d);
      assert [] + [fs[0]] == fs;
    } else {
      var s0, g, f := Scan([], WantKey(true)), Front(fs), Last(fs);
      FieldsRead(g, ',');
      assert PrintFields(fs) + [d] == (PrintFields(g) + [',']) + ([' '] + (PrintField(f) + [d]));
      RunAppend(s0, PrintFields(g) + [','], [' '] + (PrintField(f) + [d]));
      RunAppend(Scan(g, WantKey(false)), [' '], PrintField(f) + [d]);
      RunOne(Scan(g, WantKey(false)), ' ');
      FieldRead(Scan(g, WantKey(false)), false, f, d);
      assert g + [f] == fs;
    }
  }

  lemma EmptyObjectRead()
    ensures ParseLine("{}") == Some([])
  {
    hide Run;
    assert "{}" == "{" + "}";
    RunAppend(Scan([], Begin), "{", "}");
    RunOne(Scan([], Begin), '{');
    RunOne(Scan([], WantKey(true)), '}');
  }

  /** The round trip: what `json.dumps` prints, `json.loads` reads back, field for field. */
  lemma ObjectRoundTrip(fs: seq<Field>)
    requires forall i :: 0 <= i < |fs| ==> ValidField(fs[i])
    ensures ParseLine(PrintObject(fs)) == Some(fs)
  {
    if fs == [] {
      EmptyObjectRead();
    } else {
      hide Run, PrintFields, ValidField;
      assert PrintObject(fs) == "{" + (PrintFields(fs) + "}");
      RunAppend(Scan([], Begin), "{", PrintFields(fs) + "}");
      RunOne(Scan([], Begin), '{');
      FieldsRead(fs, '}');
    }
  }

  lemma {:induction false} BadStays(s: Scan, text: string)
    requires s.at.Bad?
    ensures Run(s, text) == s
    decreases |text|
  {
    if text == "" {
    } else {
      BadStays(Next(s, text[0]), text[1..]);
    }
  }

  /** A comma must be followed by another field. */
  lemma NoTrailingComma(fs: seq<Field>, rest: string)
    requires fs != [] && forall i :: 0 <= i < |fs| ==> ValidField(fs[i])
    ensures ParseLine("{" + PrintFields(fs) + ",}" + rest) == None
  {
    hide Run, PrintFields, ValidField;
    var start, s := Scan([], Begin), Scan(fs, WantKey(false));
    assert "{" + PrintFields(fs) + ",}" + rest == "{" + ((PrintFields(fs) + [',']) + ("}" + rest));
    RunAppend(start, "{", (PrintFields(fs) + [',']) + ("}" + rest));
    RunOne(start, '{');
    RunAppend(Scan([], WantKey(true)), PrintFields(fs) + [','], "}" + rest);
    FieldsRead(fs, ',');
    RunAppend(s, "}", rest);
    RunOne(s, '}');
    BadStays(s.(at := Bad), rest);
  }

  /** Between two tokens, before the first and behind the last. */
  predicate BetweenTokens(at: At) {
    at.Begin? || at.WantKey? || at.WantColon? || at.WantValue? || at.AfterValue? || at.Done?
  }

  /** Blanks, tabs and line ends between tokens do not count, and no other control character may
      stand there (section 2 of RFC 8259). */
  lemma BlanksDoNotCount(a: string, c: char, b: string)
    requires BetweenTokens(Run(Scan([], Begin), a).at) && c as int <= 0x20
    ensures ParseLine(a + [c] + b) == if c as int in {0x20, 0x09, 0x0A, 0x0D} then ParseLine(a + b) else None
  {
    hide Run;
    var start := Scan([], Begin);
    var s := Run(start, a);
    RunAppend(start, a, b);
    RunAppend(start, a + [c], b);
    RunAppend(start, a, [c]);
    RunOne(s, c);
    if c as int !in {0x20, 0x09, 0x0A, 0x0D} { BadStays(Next(s, c), b); }
  }

  lemma {:induction false} DoneOnlyAtEnd(s: Scan, text: string)
    requires s.at.Done? || s.at.Bad?
    requires text != "" && Last(text) == '}'
    ensures Run(s, text).at.Bad?
    decreases |text|
  {
    if |text| == 1 {
      RunOne(s, text[0]);
      assert text == [text[0]];
    } else {
      DoneOnlyAtEnd(Next(s, text[0]), text[1..]);
    }
  }

  lemma LastIsBrace(fs: seq<Field>)
    ensures PrintObject(fs) != "" && Last(PrintObject(fs)) == '}' && PrintObject(fs)[0] == '{'
  {
  }

  /** No proper part of a printed object reads as an object. */
  lemma NoPrefixParses(fs: seq<Field>, k: nat)
    requires fs != [] && (forall i :: 0 <= i < |fs| ==> ValidField(fs[i])) && k < |PrintObject(fs)|
    ensures ParseLine(PrintObject(fs)[..k]) == None
  {
    var text, s := PrintObject(fs), Scan([], Begin);
    hide Run, PrintObject, ValidField;
    ObjectRoundTrip(fs);
    assert text == text[..k] + text[k..];
    RunAppend(s, text[..k], text[k..]);
    if Run(s, text[..k]).at.Done? {
      assert Last(text[k..]) == '}' by { LastIsBrace(fs); }
      DoneOnlyAtEnd(Run(s, text[..k]), text[k..]);
    }
  }

  // ---------------------------------------------------------------- rows are valid and one line long

  predicate Printable(s: string) { forall i :: 0 <= i < |s| ==> ' ' <= s[i] <= '~' }

  lemma EscapeOnePrintable(c: Code)
    ensures Printable(EscapeOne(c))
  {
  }

  lemma {:induction false} EscapePrintable(t: Text)
    ensures Printable(Escape(t))
  {
    if t == [] {
    } else {
      hide EscapeOne;
      EscapePrintable(Front(t));
      EscapeOnePrintable(Last(t));
    }
  }

  lemma {:induction false} DigitsAreToken(n: nat)
    ensures NumToken(Digits(n))
  {
    if n < 10 {
    } else {
      DigitsAreToken(n / 10);
    }
  }

  lemma DecimalIsToken(n: int)
    ensures NumToken(Decimal(n))
  {
    DigitsAreToken(if n < 0 then -n else n);
  }

  lemma CodesPaired(s: string)
    ensures Paired(Codes(s))
  {
    forall i | 0 <= i < |s| ensures !High(Codes(s)[i]) {
      assert Codes(s)[i] == s[i] as int;
    }
  }

  lemma FieldPrintable(f: Field)
    requires ValidField(f)
    ensures Printable(PrintField(f))
  {
    hide Escape;
    EscapePrintable(f.key);
    if f.value.Str? { EscapePrintable(f.value.text); }
  }

  lemma {:induction false} FieldsPrintable(fs: seq<Field>)
    requires forall i :: 0 <= i < |fs| ==> ValidField(fs[i])
    ensures Printable(PrintFields(fs))
  {
    if fs == [] {
    } else {
      hide PrintField, ValidField;
      FieldsPrintable(Front(fs));
      FieldPrintable(Last(fs));
    }
  }

  /** A row whose other text, too, holds no surrogate pair written as two code points. */
  predicate PairedRow(r: LogRow) {
    ValidRow(r) && (if r.ResultRow? then Paired(r.response) else Paired(r.message))
  }

  /** The row that a reader gets: its response or message with such pairs joined. */
  function AsRead(r: LogRow): LogRow {
    if r.ResultRow? then r.(response := Joined(r.response)) else r.(message := Joined(r.message))
  }

  lemma JoinPrintsAlike(t: Text, c: Code)
    ensures Escape(Join(t, c)) == Escape(t) + EscapeOne(c)
  {
    hide Hex4;
    assert Front(t + [c]) == t && Last(t + [c]) == c;
    if Low(c) && t != [] && High(Last(t)) {
      var hi := Last(t);
      var joined := 0x10000 + (hi - 0xD800) * 0x400 + (c - 0xDC00);
      assert Front(Front(t) + [joined]) == Front(t);
      assert EscapeOne(joined) == ("\\u" + Hex4(hi)) + ("\\u" + Hex4(c));
      assert EscapeOne(hi) == "\\u" + Hex4(hi) && EscapeOne(c) == "\\u" + Hex4(c);
    }
  }

  lemma {:induction false} JoinedPrintsAlike(t: Text)
    ensures Escape(Joined(t)) == Escape(t)
  {
    if t == [] {
    } else {
      hide Join, EscapeOne;
      JoinedPrintsAlike(Front(t));
      JoinPrintsAlike(Joined(Front(t)), Last(t));
    }
  }

  lemma {:induction false} SameFields(fs: seq<Field>, gs: seq<Field>)
    requires |fs| == |gs| && forall i :: 0 <= i < |fs| ==> PrintField(fs[i]) == PrintField(gs[i])
    ensures PrintFields(fs) == PrintFields(gs)
  {
    if fs == [] {
    } else {
      hide PrintField;
      SameFields(Front(fs), Front(gs));
    }
  }

  /** A row and the row that a reader gets of it are the same line. */
  lemma SameLine(r: LogRow)
    requires ValidRow(r)
    ensures PairedRow(AsRead(r)) && PrintRow(AsRead(r)) == PrintRow(r)
    ensures PairedRow(r) ==> AsRead(r) == r
  {
    hide Escape, Joined, Codes, Decimal, ClassName, PrintFields;
    var text := if r.ResultRow? then r.response else r.message;
    JoinedPrintsAlike(text);
    JoinedIsPaired(text);
    SameFields(FieldsOf(AsRead(r)), FieldsOf(r));
  }

  lemma SameOtherwise(r: LogRow)
    ensures AsRead(r).id == r.id && AsRead(r).ResultRow? == r.ResultRow?
  {
  }

  lemma RowFieldsValid(r: LogRow)
    requires PairedRow(r)
    ensures forall i :: 0 <= i < |FieldsOf(r)| ==> ValidField(FieldsOf(r)[i])
  {
    hide Codes, Paired, NumToken, Decimal;
    CodesPaired(ITEM_ID);
    CodesPaired(STATUS);
    CodesPaired("attempt");
    DecimalIsToken(r.attempt);
    match r
    case ResultRow(_, _, inputTokens, outputTokens, _, _) =>
      CodesPaired("success");
      CodesPaired("response_text");
      CodesPaired("input_tokens");
      CodesPaired("output_tokens");
      CodesPaired("latency_s");
      DecimalIsToken(inputTokens);
      DecimalIsToken(outputTokens);
    case ErrorRow(_, kind, _, _, httpStatus) =>
      CodesPaired("error");
      CodesPaired("failure_class");
      CodesPaired(ClassName(kind));
      CodesPaired("message");
      CodesPaired("http_status");
      if httpStatus.Some? { DecimalIsToken(httpStatus.value); }
  }

  // ---------------------------------------------------------------- one line of the file

  function Results(rows: seq<LogRow>): nat {
    if rows == [] then 0 else Results(Front(rows)) + if Last(rows).ResultRow? then 1 else 0
  }

  function Errors(rows: seq<LogRow>): nat {
    if rows == [] then 0 else Errors(Front(rows)) + if Last(rows).ResultRow? then 0 else 1
  }

  /** What a correct replay of exactly these rows reports. */
  function Tally(rows: seq<LogRow>): ReplayState
  {
    ReplayState(Results(rows), Errors(rows), set r | r in rows :: r.id)
  }

  lemma CodesInjective(a: string, b: string)
    requires Codes(a) == Codes(b)
    ensures a == b
  {
    assert |a| == |Codes(a)| == |b|;
    forall i | 0 <= i < |a| ensures a[i] == b[i] {
      assert Codes(a)[i] == a[i] as int && Codes(b)[i] == b[i] as int;
    }
  }

  lemma {:induction false} GetLast(fs: seq<Field>, i: nat)
    requires i < |fs| && forall j :: i < j < |fs| ==> fs[j].key != fs[i].key
    ensures Get(fs, fs[i].key) == Some(fs[i].value)
    decreases |fs|
  {
    if i == |fs| - 1 {
    } else {
      GetLast(Front(fs), i);
    }
  }

  /** The keys of a line, in the order in which they are printed. */
  function KeysOf(r: LogRow): seq<string> {
    if r.ResultRow? then
      [ITEM_ID, STATUS, "response_text", "input_tokens", "output_tokens", "latency_s", "attempt"]
    else [ITEM_ID, STATUS, "failure_class", "message", "attempt", "http_status"]
  }

  lemma KeysDistinct(r: LogRow, i: nat, j: nat)
    requires i < j < |KeysOf(r)|
    ensures KeysOf(r)[i] != KeysOf(r)[j]
  {
    assert ITEM_ID[0] == 'i' && "attempt"[0] == 'a' && "message"[0] == 'm';
    assert "response_text"[0] == 'r' && "output_tokens"[0] == 'o';
  }

  lemma KeyRead(r: LogRow, i: nat)
    requires i < |KeysOf(r)|
    ensures |FieldsOf(r)| == |KeysOf(r)| && FieldsOf(r)[i].key == Codes(KeysOf(r)[i])
    ensures Get(FieldsOf(r), Codes(KeysOf(r)[i])) == Some(FieldsOf(r)[i].value)
  {
    hide Get, Codes, Decimal, ClassName;
    var fs := FieldsOf(r);
    forall j | i < j < |fs| ensures fs[j].key != fs[i].key {
      KeysDistinct(r, i, j);
      if fs[j].key == fs[i].key { CodesInjective(KeysOf(r)[i], KeysOf(r)[j]); }
    }
    GetLast(fs, i);
  }

  lemma RowLookups(r: LogRow)
    ensures Get(FieldsOf(r), Codes(ITEM_ID)) == Some(Str(r.id))
    ensures Get(FieldsOf(r), Codes(STATUS)) == Some(Str(Codes(if r.ResultRow? then "success" else "error")))
  {
    hide Codes, Get, Decimal, ClassName;
    KeyRead(r, 0);
    KeyRead(r, 1);
  }

  /** What a reader of one line of the result file gets under each key. */
  lemma LineSays(r: LogRow)
    requires ValidRow(r)
    ensures PairedRow(r) ==> AsRead(r) == r
    ensures var read := ParseLine(PrintRow(r));
      && read.Some?
      && Get(read.value, Codes("item_id")) == Some(Str(r.id))
      && Get(read.value, Codes("attempt")) == Some(Num(Decimal(r.attempt)))
      && match AsRead(r)
         case ResultRow(_, response, inputTokens, outputTokens, latency, _) =>
           && Get(read.value, Codes("status")) == Some(Str(Codes("success")))
           && Get(read.value, Codes("response_text")) == Some(Str(response))
           && Get(read.value, Codes("input_tokens")) == Some(Num(Decimal(inputTokens)))
           && Get(read.value, Codes("output_tokens")) == Some(Num(Decimal(outputTokens)))
           && Get(read.value, Codes("latency_s")) == Some(Num(latency))
         case ErrorRow(_, kind, message, _, httpStatus) =>
           && Get(read.value, Codes("status")) == Some(Str(Codes("error")))
           && Get(read.value, Codes("failure_class")) == Some(Str(Codes(ClassName(kind))))
           && Get(read.value, Codes("message")) == Some(Str(message))
           && Get(read.value, Codes("http_status"))
              == Some(if httpStatus.Some? then Num(Decimal(httpStatus.value)) else Null)
  {
    hide ParseLine, Get, Codes, Decimal, ClassName, PrintFields, ValidField;
    SameLine(r);
    var q := AsRead(r);
    RowFieldsValid(q);
    ObjectRoundTrip(FieldsOf(q));
    forall i: nat | i < |KeysOf(q)|
      ensures Get(FieldsOf(q), Codes(KeysOf(q)[i])) == Some(FieldsOf(q)[i].value)
    {
      KeyRead(q, i);
    }
    assert KeysOf(q)[0] == ITEM_ID && KeysOf(q)[1] == STATUS;
    if r.ResultRow? {
      assert KeysOf(q)[2] == "response_text" && KeysOf(q)[3] == "input_tokens" && KeysOf(q)[4] == "output_tokens";
      assert KeysOf(q)[5] == "latency_s" && KeysOf(q)[6] == "attempt";
    } else {
      assert KeysOf(q)[2] == "failure_class" && KeysOf(q)[3] == "message" && KeysOf(q)[4] == "attempt";
      assert KeysOf(q)[5] == "http_status";
    }
  }

  lemma ClassNamed(kind: FailureClass)
    ensures ClassName(kind) == "invalid_input" <==> kind == InvalidInput
    ensures ClassName(kind) == "fatal_auth" <==> kind == FatalAuth
    ensures ClassName(kind) == "fatal_billing" <==> kind == FatalBilling
    ensures ClassName(kind) == "transient_exhausted" <==> kind == TransientExhausted
    ensures ClassName(kind) == "cancelled" <==> kind == Cancelled
    ensures ClassName(kind) == "throttled" <==> kind == Throttled
    ensures ClassName(kind) == "transient" <==> kind == Transient
    ensures ClassName(kind) == "success" <==> kind == Success
  {
  }

  /** A reader of an error line can tell the class of the failure from its label. */
  lemma LabelTellsClass(r: LogRow)
    requires ValidRow(r) && r.ErrorRow?
    ensures var read := ParseLine(PrintRow(r));
      && read.Some?
      && var said := Get(read.value, Codes("failure_class"));
         && (said == Some(Str(Codes("invalid_input"))) <==> r.kind == InvalidInput)
         && (said == Some(Str(Codes("fatal_auth"))) <==> r.kind == FatalAuth)
         && (said == Some(Str(Codes("fatal_billing"))) <==> r.kind == FatalBilling)
         && (said == Some(Str(Codes("transient_exhausted"))) <==> r.kind == TransientExhausted)
         && (said == Some(Str(Codes("cancelled"))) <==> r.kind == Cancelled)
  {
    hide ParseLine, PrintRow, Get, ClassName, Codes, Decimal;
    LineSays(r);
    ClassNamed(r.kind);
    var name := ClassName(r.kind);
    forall other | Codes(name) == Codes(other) ensures name == other { CodesInjective(name, other); }
  }

  /** The integer that a decimal numeral stands for. */
  function NumberOf(s: string): int {
    if s == "" then 0
    else if s[0] == '-' then -NumberOf(s[1..])
    else 10 * NumberOf(Front(s)) + (Last(s) as int - '0' as int)
  }

  lemma {:induction false} DigitsRoundTrip(n: nat)
    ensures Digits(n) != "" && Digits(n)[0] != '-' && NumberOf(Digits(n)) == n
  {
    if n < 10 {
      assert Front(Digits(n)) == "";
    } else {
      DigitsRoundTrip(n / 10);
      assert Front(Digits(n)) == Digits(n / 10);
    }
  }

  lemma DecimalRoundTrip(n: int)
    ensures NumberOf(Decimal(n)) == n
  {
    hide Digits;
    DigitsRoundTrip(if n < 0 then -n else n);
    if n < 0 { assert Decimal(n)[1..] == Digits(-n); }
  }

  lemma StripTrimmed(s: string)
    requires s != "" && !Space(s[0]) && !Space(Last(s))
    ensures Strip(s) == s
  {
  }

  lemma {:induction false} StripIsPrefix(s: string) returns (k: nat)
    requires s != "" && !Space(s[0])
    ensures 0 < k <= |s| && Strip(s) == s[..k]
    decreases |s|
  {
    k := |s|;
    if Space(Last(s)) {
      k := StripIsPrefix(Front(s));
      assert Front(s)[..k] == s[..k];
    } else {
      assert s[..k] == s;
    }
  }

  lemma RowIsNotEmpty(r: LogRow)
    ensures FieldsOf(r) != []
  {
  }

  lemma AbsorbRow(st: ReplayState, r: LogRow)
    requires ValidRow(r)
    ensures Absorb(st, PrintRow(r)) == ReplayState(
      st.succeeded + (if r.ResultRow? then 1 else 0), st.failed + (if r.ResultRow? then 0 else 1), st.ids + {r.id})
  {
    hide ParseLine, FieldsOf, Strip, Get, Codes, PrintFields, AsRead;
    SameLine(r);
    var q := AsRead(r);
    SameOtherwise(r);
    RowIsNotEmpty(q);
    LastIsBrace(FieldsOf(q));
    StripTrimmed(PrintRow(q));
    RowFieldsValid(q);
    ObjectRoundTrip(FieldsOf(q));
    RowLookups(q);
    if Codes("success") == Codes("error") { CodesInjective("success", "error"); }
  }

  lemma AbsorbTorn(st: ReplayState, r: LogRow, k: nat)
    requires ValidRow(r) && k < |PrintRow(r)|
    ensures Absorb(st, PrintRow(r)[..k]) == st
  {
    hide ParseLine, FieldsOf, Strip, PrintFields, Get, AsRead;
    SameLine(r);
    var q := AsRead(r);
    RowIsNotEmpty(q);
    RowFieldsValid(q);
    LastIsBrace(FieldsOf(q));
    if k == 0 {
      BlankCountsNothing(st);
      assert PrintRow(q)[..k] == "";
    } else {
      var j := StripIsPrefix(PrintRow(q)[..k]);
      assert PrintRow(q)[..k][..j] == PrintRow(q)[..j];
      NoPrefixParses(FieldsOf(q), j);
    }
  }

  lemma {:induction false} StripRight(s: string, c: char)
    requires Space(c)
    ensures Strip(s + [c]) == Strip(s)
    decreases |s|
  {
    if s == "" {
      assert s + [c] == [c] && [c][1..] == "";
    } else if Space(s[0]) {
      assert (s + [c])[1..] == s[1..] + [c];
      StripRight(s[1..], c);
    } else {
      assert Front(s + [c]) == s && Last(s + [c]) == c && (s + [c])[0] == s[0];
    }
  }

  /** White space around a line does not count, be it a blank, one of the controls from tab to
      carriage return, one of the four separators below the blank, or a Unicode space. */
  lemma WhiteSpaceDoesNotCount(st: ReplayState, line: string, c: char)
    requires c as int in {9, 10, 11, 12, 13, 28, 29, 30, 31, 32, 0x85, 0xA0, 0x1680, 0x2028, 0x2029, 0x202F, 0x205F,
                          0x3000} || 0x2000 <= c as int <= 0x200A
    ensures Absorb(st, [c] + line) == Absorb(st, line) == Absorb(st, line + [c])
  {
    hide ParseLine, Get;
    assert Space(c) && ([c] + line)[1..] == line;
    StripRight(line, c);
  }

  lemma {:induction false} GetAbsent(fs: seq<Field>, key: Text)
    requires forall i :: 0 <= i < |fs| ==> fs[i].key != key
    ensures Get(fs, key) == None
  {
    if fs == [] {
    } else {
      GetAbsent(Front(fs), key);
      assert Last(fs) == fs[|fs| - 1];
    }
  }

  /** A row without an id counts as one whose id is the text None. */
  lemma NoIdIsNone(st: ReplayState, fs: seq<Field>)
    requires forall i :: 0 <= i < |fs| ==> ValidField(fs[i]) && fs[i].key != Codes("item_id")
    ensures Absorb(st, PrintObject(fs)).ids == st.ids + {Codes("None")}
  {
    hide ParseLine, Strip, Get, Codes, PrintFields, ValidField;
    LastIsBrace(fs);
    StripTrimmed(PrintObject(fs));
    ObjectRoundTrip(fs);
    GetAbsent(fs, Codes("item_id"));
  }

  /** What a flat object counts for is decided by its last field of a name, whatever comes before. */
  lemma LastFieldDecides(fs: seq<Field>, last: Field)
    requires (forall i :: 0 <= i < |fs| ==> ValidField(fs[i])) && ValidField(last)
    ensures var all := fs + [last];
      && ParseLine(Strip(PrintObject(all))) == Some(all)
      && Get(all, last.key) == Some(last.value)
  {
    hide ParseLine, Strip, Codes, PrintFields, Decimal, ValidField;
    var all := fs + [last];
    assert Last(all) == last;
    LastIsBrace(all);
    StripTrimmed(PrintObject(all));
    ObjectRoundTrip(all);
  }

  /** An id that is a whole number counts under its decimal numeral. */
  lemma NumbersAreIds(st: ReplayState, fs: seq<Field>, n: int)
    requires forall i :: 0 <= i < |fs| ==> ValidField(fs[i])
    ensures var line := PrintObject(fs + [Field(Codes("item_id"), Num(Decimal(n)))]);
      Absorb(st, line).ids == st.ids + {Codes(Decimal(n))}
  {
    hide ParseLine, Strip, Codes, PrintFields, Decimal, Paired, NumToken;
    CodesPaired("item_id");
    DecimalIsToken(n);
    LastFieldDecides(fs, Field(Codes("item_id"), Num(Decimal(n))));
  }

  /** A line counts as a success if and only if its status is just that, and else as a failure. */
  lemma StatusDecides(st: ReplayState, fs: seq<Field>, value: Value)
    requires forall i :: 0 <= i < |fs| ==> ValidField(fs[i])
    requires ValidField(Field(Codes("status"), value))
    ensures var st' := Absorb(st, PrintObject(fs + [Field(Codes("status"), value)]));
      if value == Str(Codes("success")) then st'.succeeded == st.succeeded + 1 && st'.failed == st.failed
      else st'.succeeded == st.succeeded && st'.failed == st.failed + 1
  {
    hide ParseLine, Strip, Codes, PrintFields, ValidField;
    LastFieldDecides(fs, Field(Codes("status"), value));
  }

  // ---------------------------------------------------------------- the whole file

  lemma {:induction false} ReadAppend(r: Reader, a: string, b: string)
    ensures ReadAll(r, a + b) == ReadAll(ReadAll(r, a), b)
    decreases |b|
  {
    if b == "" {
      assert a + b == a;
    } else {
      hide Feed;
      assert Front(a + b) == a + Front(b) && Last(a + b) == Last(b);
      ReadAppend(r, a, Front(b));
    }
  }

  lemma LineIsRead(r: Reader, a: string, c: char, b: string)
    requires c == '\n' || c == '\r'
    ensures ReadAll(r, a + [c] + b) == ReadAll(Reader(Absorb(ReadAll(r, a).state, ReadAll(r, a).line), ""), b)
  {
    hide Absorb;
    ReadAppend(r, a + [c], b);
    assert Front(a + [c]) == a;
  }

  lemma ReadNothing(r: Reader)
    ensures ReadAll(r, "") == r
  {
  }

  /** A line feed, a carriage return and the two together end a line alike. */
  lemma LineEndsAlike(a: string, b: string)
    ensures Replayed(a + "\n" + b) == Replayed(a + "\r" + b) == Replayed(a + "\r" + "\n" + b)
  {
    hide Absorb, ReadAll;
    var r := Reader(NOTHING, "");
    LineIsRead(r, a, '\n', b);
    LineIsRead(r, a, '\r', b);
    LineIsRead(r, a, '\r', "");
    LineIsRead(r, a + "\r", '\n', b);
    assert a + "\r" + "" == a + "\r";
    ReadNothing(Reader(Absorb(ReadAll(r, a).state, ReadAll(r, a).line), ""));
    BlankCountsNothing(Absorb(ReadAll(r, a).state, ReadAll(r, a).line));
  }

  lemma {:induction false} ReadWithinLine(r: Reader, text: string)
    requires Printable(text)
    ensures ReadAll(r, text) == r.(line := r.line + text)
  {
    if text == "" {
      assert r.line + text == r.line;
    } else {
      ReadWithinLine(r, Front(text));
      assert r.line + Front(text) + [Last(text)] == r.line + text;
    }
  }

  lemma RowPrintable(r: LogRow)
    requires ValidRow(r)
    ensures Printable(PrintRow(r))
  {
    hide FieldsOf, PrintFields, ValidField, AsRead;
    SameLine(r);
    RowFieldsValid(AsRead(r));
    FieldsPrintable(FieldsOf(AsRead(r)));
  }

  predicate ValidRows(rows: seq<LogRow>) { forall i :: 0 <= i < |rows| ==> ValidRow(rows[i]) }

  lemma TallyGrows(rows: seq<LogRow>)
    requires rows != []
    ensures var t, r := Tally(Front(rows)), Last(rows);
      Tally(rows) == ReplayState(
        t.succeeded + (if r.ResultRow? then 1 else 0), t.failed + (if r.ResultRow? then 0 else 1), t.ids + {r.id})
  {
    assert rows == Front(rows) + [Last(rows)];
    forall x ensures x in Tally(rows).ids <==> x in Tally(Front(rows)).ids + {Last(rows).id} {
    }
  }

  /** From the start of a line, a row and its newline are absorbed whole. */
  lemma ReadRow(st: ReplayState, r: LogRow)
    requires ValidRow(r)
    ensures ReadAll(Reader(st, ""), PrintRow(r)) == Reader(st, PrintRow(r))
    ensures ReadAll(Reader(st, ""), PrintRow(r) + "\n") == Reader(Absorb(st, PrintRow(r)), "")
  {
    hide PrintRow, Absorb;
    RowPrintable(r);
    ReadWithinLine(Reader(st, ""), PrintRow(r));
    assert "" + PrintRow(r) == PrintRow(r);
    ReadAppend(Reader(st, ""), PrintRow(r), "\n");
    assert Front("\n") == "";
    assert ReadAll(Reader(st, PrintRow(r)), "\n") == Feed(ReadAll(Reader(st, PrintRow(r)), ""), '\n');
  }

  lemma WrittenLast(rows: seq<LogRow>)
    requires rows != []
    ensures Written(rows) == Written(Front(rows)) + (PrintRow(Last(rows)) + "\n")
  {
    hide PrintRow;
  }

  lemma {:induction false} ReadWritten(rows: seq<LogRow>)
    requires ValidRows(rows)
    ensures ReadAll(Reader(NOTHING, ""), Written(rows)) == Reader(Tally(rows), "")
  {
    if rows == [] {
      assert Tally(rows).ids == {};
    } else {
      hide PrintRow, Absorb, ValidRow, ReadAll, Tally, Written;
      var r0, w, line := Reader(NOTHING, ""), Written(Front(rows)), PrintRow(Last(rows)) + "\n";
      ReadWritten(Front(rows));
      WrittenLast(rows);
      ReadAppend(r0, w, line);
      ReadRow(Tally(Front(rows)), Last(rows));
      AbsorbRow(Tally(Front(rows)), Last(rows));
      TallyGrows(rows);
    }
  }

  /** Where the text of row i ends in the file, its newline not counted. */
  function EndOf(rows: seq<LogRow>, i: nat): nat
    requires i < |rows|
  {
    |Written(rows[..i])| + |PrintRow(rows[i])|
  }

  lemma {:induction false} EndsAscend(rows: seq<LogRow>, i: nat)
    requires i < |rows|
    ensures EndOf(rows, i) < |Written(rows)|
    decreases |rows|
  {
    hide PrintRow;
    if i == |rows| - 1 {
      assert rows[..i] == Front(rows);
    } else {
      EndsAscend(Front(rows), i);
      assert Front(rows)[..i] == rows[..i];
    }
  }

  /** n is the number of rows whose full text lies in the first k characters of the file. */
  ghost predicate Complete(rows: seq<LogRow>, k: nat, n: nat) {
    n <= |rows| && forall i: nat :: i < |rows| ==> (i < n <==> EndOf(rows, i) <= k)
  }

  /** The first k characters of the file are m whole lines and a part of the next. */
  ghost predicate CutAt(rows: seq<LogRow>, k: nat, m: nat) {
    && m <= |rows| && |Written(rows[..m])| <= k <= |Written(rows)|
    && (m < |rows| ==> k - |Written(rows[..m])| <= |PrintRow(rows[m])|)
    && Written(rows)[..k]
       == Written(rows[..m]) + if m < |rows| then PrintRow(rows[m])[..k - |Written(rows[..m])|] else ""
  }

  lemma {:induction false} FindCut(rows: seq<LogRow>, k: nat) returns (m: nat)
    requires k <= |Written(rows)|
    ensures CutAt(rows, k, m)
    decreases |rows|
  {
    hide PrintRow;
    if k == |Written(rows)| {
      m := |rows|;
      assert rows[..m] == rows;
    } else {
      var f := Front(rows);
      assert rows[..|f|] == f;
      assert Written(rows) == Written(f) + (PrintRow(Last(rows)) + "\n");
      if k >= |Written(f)| {
        m := |f|;
        var j := k - |Written(f)|;
        assert (PrintRow(Last(rows)) + "\n")[..j] == PrintRow(Last(rows))[..j];
      } else {
        m := FindCut(f, k);
        assert m < |f| by { assert f[..|f|] == f; }
        assert f[..m] == rows[..m] && Written(rows)[..k] == Written(f)[..k];
      }
    }
  }

  lemma WholeLines(rows: seq<LogRow>, k: nat, m: nat, i: nat)
    requires CutAt(rows, k, m) && i < m
    ensures EndOf(rows, i) < k
  {
    hide PrintRow, Written;
    EndsAscend(rows[..m], i);
    assert rows[..m][..i] == rows[..i];
  }

  lemma RowHasText(r: LogRow)
    ensures |PrintRow(r)| > 0
  {
    hide FieldsOf, PrintFields;
  }

  /** The rows wholly in the first k characters: those on whole lines, and the next one if
      only its newline is missing. */
  lemma CompleteAtCut(rows: seq<LogRow>, k: nat, m: nat)
    requires CutAt(rows, k, m)
    ensures Complete(rows, k, if m < |rows| && EndOf(rows, m) <= k then m + 1 else m)
  {
    hide PrintRow, Written;
    forall i: nat | i < |rows| && i != m ensures i < m <==> EndOf(rows, i) <= k {
      if i < m {
        WholeLines(rows, k, m, i);
      } else {
        EndsAscend(rows[..i], m);
        assert rows[..i][..m] == rows[..m];
        RowHasText(rows[i]);
      }
    }
  }

  lemma TornRow(a: seq<LogRow>, r: LogRow, j: nat)
    requires ValidRow(r) && j <= |PrintRow(r)|
    ensures Absorb(Tally(a), PrintRow(r)[..j]) == Tally(if j == |PrintRow(r)| then a + [r] else a)
  {
    hide Tally, PrintRow, Absorb, ValidRow;
    if j < |PrintRow(r)| {
      AbsorbTorn(Tally(a), r, j);
    } else {
      assert PrintRow(r)[..j] == PrintRow(r) && Front(a + [r]) == a && Last(a + [r]) == r;
      AbsorbRow(Tally(a), r);
      TallyGrows(a + [r]);
    }
  }

  /** A replay of some whole lines and a part of one more. */
  lemma ReplayTorn(a: seq<LogRow>, r: LogRow, j: nat)
    requires ValidRows(a) && ValidRow(r) && j <= |PrintRow(r)|
    ensures Replayed(Written(a) + PrintRow(r)[..j]) == Tally(if j == |PrintRow(r)| then a + [r] else a)
  {
    hide ReadAll, Tally, PrintRow, Absorb, ValidRow, Written;
    var head := PrintRow(r)[..j];
    RowPrintable(r);
    ReadWritten(a);
    ReadAppend(Reader(NOTHING, ""), Written(a), head);
    ReadWithinLine(Reader(Tally(a), ""), head);
    assert "" + head == head;
    TornRow(a, r, j);
  }

  lemma ReplayWhole(a: seq<LogRow>)
    requires ValidRows(a)
    ensures Replayed(Written(a)) == Tally(a)
  {
    hide ReadAll, Tally, Absorb, ValidRow, Written;
    ReadWritten(a);
    BlankCountsNothing(Tally(a));
  }

  /** Torn-log recovery. For any rows and any prefix of the file that the sink writes for them,
      replay reports the success count, the failure count and the ids of exactly the rows whose
      full text lies in the prefix. */
  lemma TornLogRecovery(rows: seq<LogRow>, k: nat) returns (n: nat)
    requires ValidRows(rows) && k <= |Written(rows)|
    ensures Complete(rows, k, n) && Replayed(Written(rows)[..k]) == Tally(rows[..n])
  {
    hide Tally, PrintRow, Replayed, ValidRow, Written, Complete;
    var m := FindCut(rows, k);
    CompleteAtCut(rows, k, m);
    n := if m < |rows| && EndOf(rows, m) <= k then m + 1 else m;
    if m == |rows| {
      ReplayWhole(rows[..m]);
      assert Written(rows)[..k] == Written(rows[..m]);
    } else {
      ReplayTorn(rows[..m], rows[m], k - |Written(rows[..m])|);
      assert rows[..m + 1] == rows[..m] + [rows[m]];
    }
  }

  // ---------------------------------------------------------------- appending after a crash

  predicate Opened(s: Scan) {
    !s.at.Begin? && (s.at.InText? ==> Inside(s.at.q))
  }

  lemma {:induction false} StaysOpened(s: Scan, text: string)
    requires Opened(s)
    ensures Opened(Run(s, text))
    decreases |text|
  {
    if text == "" {
    } else {
      StaysOpened(Next(s, text[0]), text[1..]);
    }
  }

  lemma BraceInside(s: Scan)
    requires Opened(s)
    ensures var s' := Next(s, '{'); s'.at.Bad? || (s'.at.InText? && s'.at.q.Plain?)
  {
  }

  lemma QuoteThenLetter(s: Scan)
    requires s.at.Bad? || (s.at.InText? && s.at.q.Plain?)
    ensures Next(Next(s, '"'), 'i').at.Bad?
  {
  }

  lemma RunThree(s: Scan, text: string)
    requires |text| >= 3
    ensures Run(s, text) == Run(Next(Next(Next(s, text[0]), text[1]), text[2]), text[3..])
  {
    hide Next;
    var s1 := Next(s, text[0]);
    var s2 := Next(s1, text[1]);
    assert text[1..][1..] == text[2..] && text[2..][1..] == text[3..];
    assert Run(s1, text[1..]) == Run(s2, text[2..]);
  }

  lemma {:induction false} EscapeHead(t: Text)
    requires t != [] && t[0] == 'i' as int
    ensures Escape(t) != "" && Escape(t)[0] == 'i'
  {
    if |t| == 1 {
      assert Escape(Front(t)) == "";
    } else {
      EscapeHead(Front(t));
    }
  }

  lemma {:induction false} FieldsHead(fs: seq<Field>)
    requires fs != []
    ensures PrintField(fs[0]) <= PrintFields(fs)
  {
    if |fs| == 1 {
    } else {
      hide PrintField;
      FieldsHead(Front(fs));
    }
  }

  lemma ObjectHead(fs: seq<Field>)
    requires fs != [] && fs[0].key == Codes(ITEM_ID)
    ensures |PrintObject(fs)| >= 3 && PrintObject(fs)[..3] == "{\"i"
  {
    assert fs[0].key[0] == 'i' as int;
    EscapeHead(fs[0].key);
    FieldsHead(fs);
    hide PrintFields, PrintValue, Escape;
    assert PrintField(fs[0])[..2] == "\"i";
  }

  /** A row printed after anything but blank space never makes a readable line. */
  lemma NoRowInside(s: Scan, fs: seq<Field>)
    requires Opened(s) && fs != [] && fs[0].key == Codes(ITEM_ID)
    ensures Run(s, PrintObject(fs)).at.Bad?
  {
    ObjectHead(fs);
    BraceInside(s);
    QuoteThenLetter(Next(s, '{'));
    hide PrintObject, Next, Run, Opened;
    var text := PrintObject(fs);
    assert text[0] == text[..3][0] && text[1] == text[..3][1] && text[2] == text[..3][2];
    RunThree(s, text);
    BadStays(Next(Next(Next(s, '{'), '"'), 'i'), text[3..]);
  }

  lemma FrontOfSum<T>(a: seq<T>, b: seq<T>)
    requires b != []
    ensures a + b != [] && Front(a + b) == a + Front(b) && Last(a + b) == Last(b)
  {
  }

  lemma Regroup(a: string, b: string, c: string)
    ensures a + (b + c) == (a + b) + c
  {
  }

  lemma {:induction false} WrittenAppend(a: seq<LogRow>, b: seq<LogRow>)
    ensures Written(a + b) == Written(a) + Written(b)
    decreases |b|
  {
    if b == [] {
      assert a + b == a && Written(b) == "";
    } else {
      hide PrintRow, Written;
      FrontOfSum(a, b);
      WrittenAppend(a, Front(b));
      WrittenLast(b);
      WrittenLast(a + b);
      hide Front, Last;
      Regroup(Written(a), Written(Front(b)), PrintRow(Last(b)) + "\n");
    }
  }

  lemma ReadMore(a: seq<LogRow>, b: seq<LogRow>)
    requires ValidRows(a) && ValidRows(b)
    ensures ReadAll(Reader(Tally(a), ""), Written(b)) == Reader(Tally(a + b), "")
  {
    hide ReadAll, Tally, Written, ValidRow;
    WrittenAppend(a, b);
    ReadWritten(a);
    ReadWritten(a + b);
    ReadAppend(Reader(NOTHING, ""), Written(a), Written(b));
  }

  lemma JoinedLineUnread(head: string, next: LogRow)
    requires head != "" && head[0] == '{'
    ensures ParseLine(head + PrintRow(next)) == None
  {
    var s0, s1 := Scan([], Begin), Scan([], WantKey(true));
    assert FieldsOf(next)[0].key == Codes(ITEM_ID);
    hide FieldsOf, PrintObject, Run, Codes;
    assert head == "{" + head[1..];
    RunAppend(s0, head, PrintRow(next));
    RunAppend(s0, "{", head[1..]);
    RunOne(s0, '{');
    assert Next(s0, '{') == s1;
    hide Next;
    StaysOpened(s1, head[1..]);
    NoRowInside(Run(s0, head), FieldsOf(next));
  }

  /** A torn line with a row appended to it counts for nothing. */
  lemma JoinedLineIsLost(st: ReplayState, r: LogRow, j: nat, next: LogRow)
    requires 0 < j <= |PrintRow(r)|
    ensures Absorb(st, PrintRow(r)[..j] + PrintRow(next)) == st
  {
    var head, tail := PrintRow(r)[..j], PrintRow(next);
    LastIsBrace(FieldsOf(r));
    LastIsBrace(FieldsOf(next));
    JoinedLineUnread(head, next);
    hide FieldsOf, PrintRow, PrintObject, ParseLine, Strip, Get;
    StripTrimmed(head + tail);
  }

  lemma {:induction false} WrittenHead(rows: seq<LogRow>)
    requires rows != []
    ensures Written(rows) == PrintRow(rows[0]) + "\n" + Written(rows[1..])
  {
    hide PrintRow;
    assert rows == [rows[0]] + rows[1..];
    WrittenAppend([rows[0]], rows[1..]);
    assert Front([rows[0]]) == [] && Written([]) == "";
    assert Written([rows[0]]) == PrintRow(rows[0]) + "\n";
  }

  lemma ReadLineEnd(r: Reader)
    ensures ReadAll(r, "\n") == Reader(Absorb(r.state, r.line), "")
  {
    hide Absorb;
    assert Front("\n") == "" && ReadAll(r, "") == r;
  }

  lemma ReadTorn(a: seq<LogRow>, r: LogRow, j: nat, more: seq<LogRow>)
    requires ValidRows(a) && ValidRow(r) && ValidRows(more) && more != [] && 0 < j <= |PrintRow(r)|
    ensures ReadAll(Reader(Tally(a), ""), PrintRow(r)[..j] + Written(more)) == Reader(Tally(a + more[1..]), "")
  {
    hide ReadAll, Tally, PrintRow, Absorb, ValidRow, Written;
    var r1, head, tail := Reader(Tally(a), ""), PrintRow(r)[..j], PrintRow(more[0]);
    WrittenHead(more);
    assert head + Written(more) == (head + tail) + ("\n" + Written(more[1..]));
    ReadAppend(r1, head + tail, "\n" + Written(more[1..]));
    RowPrintable(r);
    RowPrintable(more[0]);
    ReadWithinLine(r1, head + tail);
    assert "" + (head + tail) == head + tail;
    ReadAppend(Reader(Tally(a), head + tail), "\n", Written(more[1..]));
    ReadLineEnd(Reader(Tally(a), head + tail));
    JoinedLineIsLost(Tally(a), r, j, more[0]);
    ReadMore(a, more[1..]);
  }

  predicate EndsLine(text: string) { text == "" || Last(text) == '\n' }

  lemma {:induction false} WrittenEndsLine(rows: seq<LogRow>)
    ensures EndsLine(Written(rows))
  {
  }

  /** What a restart that appends leaves behind. The sink reopens its file for appending, and if
      the file does not end at a line end, the first new row joins the torn line and both are
      unreadable. */
  lemma AppendAfterCrash(rows: seq<LogRow>, k: nat, more: seq<LogRow>) returns (m: nat)
    requires ValidRows(rows) && ValidRows(more) && more != [] && k <= |Written(rows)|
    ensures CutAt(rows, k, m)
    ensures EndsLine(Written(rows)[..k]) <==> k == |Written(rows[..m])|
    ensures Replayed(Written(rows)[..k] + Written(more))
      == Tally(rows[..m] + if EndsLine(Written(rows)[..k]) then more else more[1..])
  {
    hide ReadAll, Tally, PrintRow, Absorb, ValidRow, Written;
    m := FindCut(rows, k);
    var a, r0 := rows[..m], Reader(NOTHING, "");
    var w := Written(a);
    ReadWritten(a);
    WrittenEndsLine(a);
    BlankCountsNothing(Tally(a + more));
    BlankCountsNothing(Tally(a + more[1..]));
    if k == |w| {
      assert Written(rows)[..k] == w;
      ReadAppend(r0, w, Written(more));
      ReadMore(a, more);
    } else {
      var head := PrintRow(rows[m])[..k - |w|];
      RowPrintable(rows[m]);
      assert Last(Written(rows)[..k]) == Last(head);
      assert Written(rows)[..k] + Written(more) == w + (head + Written(more));
      ReadAppend(r0, w, head + Written(more));
      ReadTorn(a, rows[m], k - |w|, more);
    }
  }

  lemma {:induction false} TallyTotal(rows: seq<LogRow>)
    ensures Tally(rows).succeeded + Tally(rows).failed == |rows|
  {
    if rows == [] {
    } else {
      TallyTotal(Front(rows));
    }
  }

  lemma CompleteIsUnique(rows: seq<LogRow>, k: nat, m: nat, n: nat)
    requires Complete(rows, k, m) && Complete(rows, k, n)
    ensures m == n
  {
    hide EndOf;
    var x := if m < |rows| then EndOf(rows, m) else 0;
    var y := if n < |rows| then EndOf(rows, n) else 0;
  }

  /** The exact condition. After a crash, appending keeps the promise that replay sees every row
      that was wholly written, before the crash or after, if and only if the file was cut at a
      line end. */
  lemma AppendIsSafeExactly(rows: seq<LogRow>, k: nat, more: seq<LogRow>, n: nat)
    requires ValidRows(rows) && ValidRows(more) && more != [] && k <= |Written(rows)| && Complete(rows, k, n)
    ensures Replayed(Written(rows)[..k] + Written(more)) == Tally(rows[..n] + more)
      <==> EndsLine(Written(rows)[..k])
  {
    var m := AppendAfterCrash(rows, k, more);
    CompleteAtCut(rows, k, m);
    CompleteIsUnique(rows, k, n, if m < |rows| && EndOf(rows, m) <= k then m + 1 else m);
    if m < |rows| { RowHasText(rows[m]); }
    hide Tally, Replayed, Written, PrintRow, Complete, EndsLine;
    if !EndsLine(Written(rows)[..k]) {
      TallyTotal(rows[..n] + more);
      TallyTotal(rows[..m] + more[1..]);
    }
  }
}
