// core/sink.py: the rows of the result file as JSON text (section 7 of RFC 8259 for strings),
// and `replay`, which reads the file back after a crash.

module ResultLog {
  import opened Models

  // ---------------------------------------------------------------- text

  /** A code point of a Python string, lone surrogates included. */
  type Code = n: nat | n <= 0x10FFFF

  type Text = seq<Code>

  predicate High(c: Code) { 0xD800 <= c < 0xDC00 }
  predicate Low(c: Code) { 0xDC00 <= c < 0xE000 }

  /** No high surrogate directly before a low one. Every string that a JSON parser returns is
      like this, because the parser joins such a pair into one code point. */
  predicate Paired(t: Text) {
    forall i :: 0 <= i < |t| - 1 ==> !(High(t[i]) && Low(t[i + 1]))
  }

  function Codes(s: string): Text { seq(|s|, i requires 0 <= i < |s| => s[i] as int) }

  function HexDigit(d: nat): char
    requires d < 16
  {
    if d < 10 then ('0' as int + d) as char else ('a' as int + d - 10) as char
  }

  function Hex4(v: nat): string
    requires v < 0x10000
  {
    [HexDigit(v / 0x1000), HexDigit(v / 0x100 % 16), HexDigit(v / 16 % 16), HexDigit(v % 16)]
  }

  /** How one code point is printed inside a JSON string, in pure ASCII. */
  function EscapeOne(c: Code): string {
    if c == '"' as int then "\\\""
    else if c == '\\' as int then "\\\\"
    else if c == '\n' as int then "\\n"
    else if c == '\r' as int then "\\r"
    else if c == '\t' as int then "\\t"
    else if c == 12 then "\\f"
    else if c == 8 then "\\b"
    else if ' ' as int <= c <= '~' as int then [c as char]
    else if c < 0x10000 then "\\u" + Hex4(c)
    else "\\u" + Hex4(0xD800 + (c - 0x10000) / 0x400) + "\\u" + Hex4(0xDC00 + (c - 0x10000) % 0x400)
  }

  function Escape(t: Text): string {
    if t == [] then "" else Escape(Front(t)) + EscapeOne(Last(t))
  }

  // ---------------------------------------------------------------- rows

  datatype Value = Str(text: Text) | Num(token: string) | Null

  datatype Field = Field(key: Text, value: Value)

  predicate NumChar(c: char) {
    '0' <= c <= '9' || c == '-' || c == '+' || c == '.' || c == 'e' || c == 'E'
  }

  predicate NumToken(s: string) {
    s != "" && forall i :: 0 <= i < |s| ==> NumChar(s[i])
  }

  function Digits(n: nat): string {
    if n < 10 then [HexDigit(n)] else Digits(n / 10) + [HexDigit(n % 10)]
  }

  function Decimal(n: int): string { if n < 0 then "-" + Digits(-n) else Digits(n) }

  /** The text of a float is a parameter: any number token. */
  datatype LogRow =
    | ResultRow(id: Text, response: Text, inputTokens: int, outputTokens: int, latency: string, attempt: int)
    | ErrorRow(id: Text, kind: FailureClass, message: Text, attempt: int, httpStatus: Option<int>)

  /** An id as a JSON parser gives it, and a latency that is a number. */
  predicate ValidRow(r: LogRow) {
    Paired(r.id) && (r.ResultRow? ==> NumToken(r.latency))
  }

  function ClassName(kind: FailureClass): string {
    match kind
    case Success => "success"
    case Throttled => "throttled"
    case Transient => "transient"
    case InvalidInput => "invalid_input"
    case FatalAuth => "fatal_auth"
    case FatalBilling => "fatal_billing"
    case TransientExhausted => "transient_exhausted"
    case Cancelled => "cancelled"
  }

  const ITEM_ID := "item_id"
  const STATUS := "status"

  /** `_result_line` and `_error_line`. */
  function FieldsOf(r: LogRow): seq<Field> {
    match r
    case ResultRow(id, response, inputTokens, outputTokens, latency, attempt) =>
      [Field(Codes(ITEM_ID), Str(id)),
       Field(Codes(STATUS), Str(Codes("success"))),
       Field(Codes("response_text"), Str(response)),
       Field(Codes("input_tokens"), Num(Decimal(inputTokens))),
       Field(Codes("output_tokens"), Num(Decimal(outputTokens))),
       Field(Codes("latency_s"), Num(latency)),
       Field(Codes("attempt"), Num(Decimal(attempt)))]
    case ErrorRow(id, kind, message, attempt, httpStatus) =>
      [Field(Codes(ITEM_ID), Str(id)),
       Field(Codes(STATUS), Str(Codes("error"))),
       Field(Codes("failure_class"), Str(Codes(ClassName(kind)))),
       Field(Codes("message"), Str(message)),
       Field(Codes("attempt"), Num(Decimal(attempt))),
       Field(Codes("http_status"), if httpStatus.Some? then Num(Decimal(httpStatus.value)) else Null)]
  }

  function PrintValue(v: Value): string {
    match v
    case Str(text) => "\"" + Escape(text) + "\""
    case Num(token) => token
    case Null => "null"
  }

  function PrintField(f: Field): string {
    "\"" + Escape(f.key) + "\": " + PrintValue(f.value)
  }

  function PrintFields(fs: seq<Field>): string {
    if fs == [] then ""
    else if |fs| == 1 then PrintField(fs[0])
    else PrintFields(Front(fs)) + ", " + PrintField(Last(fs))
  }

  /** `json.dumps` of a flat dictionary. */
  function PrintObject(fs: seq<Field>): string { "{" + PrintFields(fs) + "}" }

  function PrintRow(r: LogRow): string { PrintObject(FieldsOf(r)) }

  /** The file after these rows have been written in this order. */
  function Written(rows: seq<LogRow>): string {
    if rows == [] then "" else Written(Front(rows)) + PrintRow(Last(rows)) + "\n"
  }

  // ---------------------------------------------------------------- reading one string

  /** Inside a JSON string: between characters, after a backslash, inside a \u escape; or past
      its closing quote, or past an error. */
  datatype Quoted =
    | Plain(text: Text)
    | Slash(text: Text)
    | Hex(text: Text, n: nat, v: nat)
    | Shut(text: Text)
    | Broken

  function HexValue(c: char): Option<nat> {
    if '0' <= c <= '9' then Some(c as int - '0' as int)
    else if 'a' <= c <= 'f' then Some(c as int - 'a' as int + 10)
    else if 'A' <= c <= 'F' then Some(c as int - 'A' as int + 10)
    else None
  }

  /** A low surrogate joins a high one that it follows. */
  function Join(t: Text, c: Code): Text {
    if Low(c) && t != [] && High(Last(t)) then
      Front(t) + [0x10000 + (Last(t) - 0xD800) * 0x400 + (c - 0xDC00)]
    else t + [c]
  }

  function NextQuoted(q: Quoted, c: char): Quoted {
    match q
    case Plain(t) =>
      if c == '"' then Shut(t) else if c == '\\' then Slash(t) else if c < ' ' then Broken else Plain(t + [c as int])
    case Slash(t) =>
      if c == '"' || c == '\\' || c == '/' then Plain(t + [c as int])
      else if c == 'n' then Plain(t + [10])
      else if c == 'r' then Plain(t + [13])
      else if c == 't' then Plain(t + [9])
      else if c == 'f' then Plain(t + [12])
      else if c == 'b' then Plain(t + [8])
      else if c == 'u' then Hex(t, 0, 0)
      else Broken
    case Hex(t, n, v) =>
      if HexValue(c).None? then Broken
      else
        var v' := 16 * v + HexValue(c).value;
        if n < 3 then Hex(t, n + 1, v') else if v' < 0x10000 then Plain(Join(t, v')) else Broken
    case Shut(_) => Broken
    case Broken => Broken
  }

  function RunQuoted(q: Quoted, s: string): Quoted
    decreases |s|
  {
    if s == "" then q else RunQuoted(NextQuoted(q, s[0]), s[1..])
  }

  // ---------------------------------------------------------------- reading one object

  datatype Slot = KeySlot | ValueSlot(key: Text)

  datatype At =
    | Begin
    | WantKey(first: bool)
    | InText(slot: Slot, q: Quoted)
    | WantColon(key: Text)
    | WantValue(key: Text)
    | InNumber(key: Text, token: string)
    | InNull(key: Text, n: nat)
    | AfterValue
    | Done
    | Bad

  /** The fields read so far, and where the reader is. */
  datatype Scan = Scan(fields: seq<Field>, at: At)

  predicate Blank(c: char) { c == ' ' || c == '\t' || c == '\n' || c == '\r' }

  const NULL := "null"

  function Delimit(s: Scan, c: char): Scan {
    if c == ',' then s.(at := WantKey(false))
    else if c == '}' then s.(at := Done)
    else if Blank(c) then s.(at := AfterValue)
    else s.(at := Bad)
  }

  function Next(s: Scan, c: char): Scan {
    match s.at
    case Begin => if Blank(c) then s else s.(at := if c == '{' then WantKey(true) else Bad)
    case WantKey(first) =>
      if Blank(c) then s
      else if c == '"' then s.(at := InText(KeySlot, Plain([])))
      else s.(at := if c == '}' && first then Done else Bad)
    case InText(slot, q) =>
      var q' := NextQuoted(q, c);
      if q'.Broken? then s.(at := Bad)
      else if !q'.Shut? then s.(at := InText(slot, q'))
      else if slot.KeySlot? then s.(at := WantColon(q'.text))
      else Scan(s.fields + [Field(slot.key, Str(q'.text))], AfterValue)
    case WantColon(key) => if Blank(c) then s else s.(at := if c == ':' then WantValue(key) else Bad)
    case WantValue(key) =>
      if Blank(c) then s
      else if c == '"' then s.(at := InText(ValueSlot(key), Plain([])))
      else if NumChar(c) then s.(at := InNumber(key, [c]))
      else s.(at := if c == 'n' then InNull(key, 1) else Bad)
    case InNumber(key, token) =>
      if NumChar(c) then s.(at := InNumber(key, token + [c]))
      else Delimit(s.(fields := s.fields + [Field(key, Num(token))]), c)
    case InNull(key, n) =>
      if n < 3 && c == NULL[n] then s.(at := InNull(key, n + 1))
      else if n == 3 && c == 'l' then Scan(s.fields + [Field(key, Null)], AfterValue)
      else s.(at := Bad)
    case AfterValue => Delimit(s, c)
    case Done => if Blank(c) then s else s.(at := Bad)
    case Bad => s
  }

  function Run(s: Scan, text: string): Scan
    decreases |text|
  {
    if text == "" then s else Run(Next(s, text[0]), text[1..])
  }

  /** `json.loads` of one line, as far as flat objects go. */
  function ParseLine(line: string): Option<seq<Field>> {
    var s := Run(Scan([], Begin), line);
    if s.at.Done? then Some(s.fields) else None
  }

  // ---------------------------------------------------------------- replay

  datatype ReplayState = ReplayState(succeeded: nat, failed: nat, ids: set<Text>)

  const NOTHING := ReplayState(0, 0, {})

  /** What Python's `str.strip` takes off the ends of a line. */
  predicate Space(c: char) {
    || c == ' ' || 9 <= c as int <= 13 || 28 <= c as int <= 31
    || c as int in {0x85, 0xA0, 0x1680, 0x2028, 0x2029, 0x202F, 0x205F, 0x3000} || 0x2000 <= c as int <= 0x200A
  }

  function Strip(s: string): string {
    if s == "" then ""
    else if Space(s[0]) then Strip(s[1..])
    else if Space(Last(s)) then Strip(Front(s))
    else s
  }

  /** `dict.get`: the last field of that name wins. */
  function Get(fs: seq<Field>, key: Text): Option<Value> {
    if fs == [] then None
    else if Last(fs).key == key then Some(Last(fs).value)
    else Get(Front(fs), key)
  }

  function AsId(v: Option<Value>): Text {
    match v
    case Some(Str(text)) => text
    case Some(Num(token)) => Codes(token)
    case _ => Codes("None")
  }

  /** What `replay` makes of one line. */
  function Absorb(st: ReplayState, line: string): ReplayState {
    var parsed := ParseLine(Strip(line));
    if parsed.None? then st
    else
      var ids := st.ids + {AsId(Get(parsed.value, Codes(ITEM_ID)))};
      if Get(parsed.value, Codes(STATUS)) == Some(Str(Codes("success"))) then
        ReplayState(st.succeeded + 1, st.failed, ids)
      else ReplayState(st.succeeded, st.failed + 1, ids)
  }

  predicate LineEnd(c: char) { c == '\n' || c == '\r' }

  /** The lines absorbed so far, and the line being read. */
  datatype Reader = Reader(state: ReplayState, line: string)

  function Feed(r: Reader, c: char): Reader {
    if LineEnd(c) then Reader(Absorb(r.state, r.line), "") else r.(line := r.line + [c])
  }

  function ReadAll(r: Reader, text: string): Reader {
    if text == "" then r else Feed(ReadAll(r, Front(text)), Last(text))
  }

  function Replayed(text: string): ReplayState {
    var r := ReadAll(Reader(NOTHING, ""), text);
    Absorb(r.state, r.line)
  }

  /** Where the line that starts at `pos` ends. */
  method FindLineEnd(text: string, pos: nat) returns (end: nat)
    requires pos <= |text|
    ensures pos <= end <= |text|
    ensures forall i :: pos <= i < end ==> !LineEnd(text[i])
    ensures end < |text| ==> LineEnd(text[end])
  {
    end := pos;
    while end < |text| && !LineEnd(text[end])
      invariant pos <= end <= |text|
      invariant forall i :: pos <= i < end ==> !LineEnd(text[i])
    {
      end := end + 1;
    }
  }

  lemma {:induction false} ReadLine(r: Reader, text: string, pos: nat, end: nat)
    requires pos <= end <= |text| && (forall i :: pos <= i < end ==> !LineEnd(text[i]))
    requires ReadAll(r, text[..pos]).line == ""
    ensures ReadAll(r, text[..end]) == Reader(ReadAll(r, text[..pos]).state, text[pos..end])
    decreases end
  {
    if end == pos {
    } else {
      assert Front(text[..end]) == text[..end - 1];
      ReadLine(r, text, pos, end - 1);
      assert text[pos..end] == text[pos..end - 1] + [text[end - 1]];
    }
  }

  lemma EndOfLine(r: Reader, text: string, end: nat)
    requires end <= |text| && (end < |text| ==> LineEnd(text[end]))
    ensures var r' := ReadAll(r, text[..end]);
      if end < |text| then ReadAll(r, text[..end + 1]) == Reader(Absorb(r'.state, r'.line), "")
      else ReadAll(r, text) == r'
    ensures end + 1 == |text| ==> text[..end + 1] == text
  {
    hide Absorb;
    if end < |text| {
      assert Front(text[..end + 1]) == text[..end];
    } else {
      assert text[..end] == text;
    }
  }

  lemma AbsorbedLine(st: ReplayState, line: string)
    ensures var row, st' := ParseLine(Strip(line)), Absorb(st, line);
      if row.None? then st' == st
      else
        && st'.ids == st.ids + {AsId(Get(row.value, Codes(ITEM_ID)))}
        && (if Get(row.value, Codes(STATUS)) == Some(Str(Codes("success")))
            then st'.succeeded == st.succeeded + 1 && st'.failed == st.failed
            else st'.succeeded == st.succeeded && st'.failed == st.failed + 1)
  {
  }

  lemma EmptyIsNoRow()
    ensures ParseLine("") == None
  {
  }

  lemma BlankCountsNothing(st: ReplayState)
    ensures Absorb(st, "") == st
  {
  }

  /** `replay`: a missing file counts for nothing, and neither does a blank or unreadable line. */
  method Replay(file: Option<string>) returns (state: ReplayState)
    ensures state == if file.None? then NOTHING else Replayed(file.value)
  {
    hide ParseLine, Get, AsId, Strip, Codes, Absorb;
    var succeeded, failed, ids: set<Text> := 0, 0, {};
    if file.None? { return NOTHING; }
    var text, pos := file.value, 0;
    ghost var r0 := Reader(NOTHING, "");
    BlankCountsNothing(NOTHING);
    while pos < |text|
      invariant 0 <= pos <= |text| && succeeded >= 0 && failed >= 0
      invariant pos < |text| ==> ReadAll(r0, text[..pos]) == Reader(ReplayState(succeeded, failed, ids), "")
      invariant pos == |text| ==> ReplayState(succeeded, failed, ids) == Replayed(text)
    {
      ghost var before := ReplayState(succeeded, failed, ids);
      var end := FindLineEnd(text, pos);
      ReadLine(r0, text, pos, end);
      EndOfLine(r0, text, end);
      AbsorbedLine(before, text[pos..end]);
      var line := Strip(text[pos..end]);
      if line == "" {
        EmptyIsNoRow();
      } else {
        var row := ParseLine(line);
        if row.Some? {
          ids := ids + {AsId(Get(row.value, Codes(ITEM_ID)))};
          if Get(row.value, Codes(STATUS)) == Some(Str(Codes("success"))) {
            succeeded := succeeded + 1;
          } else {
            failed := failed + 1;
          }
        }
      }
      BlankCountsNothing(ReplayState(succeeded, failed, ids));
      pos := if end < |text| then end + 1 else end;
    }
    state := ReplayState(succeeded, failed, ids);
  }
}
