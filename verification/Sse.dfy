/** The chat stream: a printer of server-sent events and the incremental parser that reads
    them back, whatever the chunks they arrive in. Text is the decoded stream. The subset of
    section 9.2, Server-sent events, of the WHATWG HTML Living Standard that both use is the
    data field and the blank line that ends an event. */
module Sse {
  import opened Domain

  // ----- Text -----

  /** What JavaScript's trim removes: white space and line terminators. */
  predicate IsSpace(c: char) {
    c in "\t\n\r \U{000B}\U{000C}\U{00A0}\U{1680}\U{2028}\U{2029}\U{202F}\U{205F}\U{3000}\U{FEFF}"
    || '\U{2000}' <= c <= '\U{200A}'
  }

  function TrimStart(s: string): string {
    if s != "" && IsSpace(s[0]) then TrimStart(s[1..]) else s
  }

  function TrimEnd(s: string): string {
    if s != "" && IsSpace(s[|s| - 1]) then TrimEnd(s[..|s| - 1]) else s
  }

  function Trim(s: string): string { TrimEnd(TrimStart(s)) }

  /** The lines of `s`, cut at every newline. */
  function Lines(s: string): (ls: seq<string>)
    ensures |ls| >= 1
  {
    if s == "" then [""]
    else
      var rest := Lines(s[1..]);
      if s[0] == '\n' then [""] + rest else [[s[0]] + rest[0]] + rest[1..]
  }

  function Join(ls: seq<string>): string {
    if ls == [] then "" else if |ls| == 1 then ls[0] else ls[0] + "\n" + Join(ls[1..])
  }

  // ----- The parser -----

  const DATA := "data:"

  /** The data of the lines that carry some, trimmed. */
  function DataLines(ls: seq<string>): seq<string> {
    if ls == [] then []
    else
      var line := Trim(ls[0]);
      (if DATA <= line then [Trim(line[|DATA|..])] else []) + DataLines(ls[1..])
  }

  /** What one event yields: its data, if it has any. */
  function Yielded(raw: string): seq<string> {
    var data := DataLines(Lines(raw));
    if data == [] then [] else [Join(data)]
  }

  predicate BoundaryAt(s: string, i: nat) {
    i + 1 < |s| && s[i] == '\n' && s[i + 1] == '\n'
  }

  /** The first blank line, as `indexOf` finds it. */
  function FirstBoundary(s: string): (r: Option<nat>)
    ensures r.Some? ==> BoundaryAt(s, r.value) && forall i | 0 <= i < r.value :: !BoundaryAt(s, i)
    ensures r.None? ==> forall i | 0 <= i < |s| :: !BoundaryAt(s, i)
  {
    if |s| < 2 then None
    else if BoundaryAt(s, 0) then Some(0)
    else
      var r := FirstBoundary(s[1..]);
      assert forall i | 1 <= i < |s| :: BoundaryAt(s, i) == BoundaryAt(s[1..], i - 1);
      if r.None? then None else Some(r.value + 1)
  }

  /** Every complete event of `s`, and what is left over. */
  function Events(s: string): (seq<string>, string) {
    match FirstBoundary(s)
    case None => ([], s)
    case Some(i) =>
      var (rest, left) := Events(s[i + 2..]);
      (Yielded(s[..i]) + rest, left)
  }

  /** What the whole stream yields: its events, and the unfinished one at the end. */
  function Parse(s: string): seq<string> {
    var (events, left) := Events(s);
    events + if |Trim(left)| > 0 then Yielded(left) else []
  }

  function Concat(chunks: seq<string>): string {
    if chunks == [] then "" else chunks[0] + Concat(chunks[1..])
  }

  /** The first boundary is the same however the text goes on. */
  lemma BoundaryStays(a: string, b: string)
    requires FirstBoundary(a).Some?
    ensures FirstBoundary(a + b) == FirstBoundary(a)
  {
    var i := FirstBoundary(a).value;
    assert BoundaryAt(a + b, i);
    forall k | 0 <= k < i ensures !BoundaryAt(a + b, k) { assert BoundaryAt(a + b, k) == BoundaryAt(a, k); }
  }

  lemma EventsCut(s: string, i: nat)
    requires FirstBoundary(s) == Some(i)
    ensures Events(s) == (Yielded(s[..i]) + Events(s[i + 2..]).0, Events(s[i + 2..]).1)
  {
    hide Yielded;
  }

  lemma EventsUncut(s: string)
    requires FirstBoundary(s).None?
    ensures Events(s) == ([], s)
  {
  }

  /** Reading some more text goes on from what was left over. */
  lemma {:induction false} EventsGoOn(a: string, b: string)
    ensures var (e1, r1) := Events(a); var (e2, r2) := Events(r1 + b); Events(a + b) == (e1 + e2, r2)
    decreases |a|
  {
    hide Yielded, Events, FirstBoundary;
    match FirstBoundary(a)
    case None =>
      EventsUncut(a);
      assert [] + Events(a + b).0 == Events(a + b).0;
    case Some(i) =>
      BoundaryStays(a, b);
      assert (a + b)[..i] == a[..i] && (a + b)[i + 2..] == a[i + 2..] + b;
      EventsCut(a, i);
      EventsCut(a + b, i);
      EventsGoOn(a[i + 2..], b);
      var (e1, r1) := Events(a[i + 2..]);
      assert Yielded(a[..i]) + (e1 + Events(r1 + b).0) == (Yielded(a[..i]) + e1) + Events(r1 + b).0;
  }

  lemma {:induction false} ConcatAppend(cs: seq<string>, c: string)
    ensures Concat(cs + [c]) == Concat(cs) + c
  {
    if cs == [] {
      assert cs + [c] == [c] && Concat([c]) == c + Concat([c][1..]);
    } else {
      assert (cs + [c])[1..] == cs[1..] + [c];
      ConcatAppend(cs[1..], c);
    }
  }

  /** The inner loop: cut the buffer at every blank line. */
  method Drain(text: string) returns (out: seq<string>, buffer: string)
    ensures (out, buffer) == Events(text)
  {
    hide Yielded;
    out, buffer := [], text;
    assert out + Events(buffer).0 == Events(buffer).0;
    var boundary := FirstBoundary(buffer);
    while boundary.Some?
      invariant boundary == FirstBoundary(buffer)
      invariant Events(text) == (out + Events(buffer).0, Events(buffer).1)
      decreases |buffer|
    {
      hide Events;
      EventsCut(buffer, boundary.value);
      var rawEvent := buffer[..boundary.value];
      ghost var rest := Events(buffer[boundary.value + 2..]).0;
      assert out + (Yielded(rawEvent) + rest) == (out + Yielded(rawEvent)) + rest;
      buffer := buffer[boundary.value + 2..];
      out := out + Yielded(rawEvent);
      boundary := FirstBoundary(buffer);
    }
    assert Events(buffer) == ([], buffer) && out + [] == out;
  }

  /** The parser as it runs: a buffer that grows by chunks and is cut at every blank line. What
      it yields depends on the text alone, not on where the chunks were cut. */
  method SseEvents(chunks: seq<string>) returns (out: seq<string>)
    ensures out == Parse(Concat(chunks))
  {
    hide Events, Yielded;
    var buffer := "";
    out := [];
    EventsOfNothing();
    for n := 0 to |chunks|
      invariant Events(Concat(chunks[..n])) == (out, buffer)
    {
      assert chunks[..n + 1] == chunks[..n] + [chunks[n]];
      ConcatAppend(chunks[..n], chunks[n]);
      EventsGoOn(Concat(chunks[..n]), chunks[n]);
      var more;
      more, buffer := Drain(buffer + chunks[n]);
      out := out + more;
    }
    assert chunks[..|chunks|] == chunks;
    if |Trim(buffer)| > 0 { out := out + Yielded(buffer); }
  }

  lemma EventsOfNothing()
    ensures Events("") == ([], "")
  {
  }

  // ----- The printer -----

  function HexDigit(n: nat): char
    requires n < 16
  {
    "0123456789abcdef"[n]
  }

  function Escaped4(n: nat): string
    requires n < 0x10000
  {
    ['\\', 'u', HexDigit(n / 16 / 16 / 16), HexDigit(n / 16 / 16 % 16), HexDigit(n / 16 % 16), HexDigit(n % 16)]
  }

  /** One character of a JSON string, in ASCII. */
  function Escape(c: char): string {
    if c == '\"' then "\\\""
    else if c == '\\' then "\\\\"
    else if c == '\n' then "\\n"
    else if c == '\r' then "\\r"
    else if c == '\t' then "\\t"
    else if c == '\U{0008}' then "\\b"
    else if c == '\U{000C}' then "\\f"
    else if ' ' <= c <= '~' then [c]
    else
      var n := c as int;
      if n < 0x10000 then Escaped4(n)
      else Escaped4(0xD800 + (n - 0x10000) / 0x400) + Escaped4(0xDC00 + (n - 0x10000) % 0x400)
  }

  function EscapeAll(s: string): string {
    if s == "" then "" else Escape(s[0]) + EscapeAll(s[1..])
  }

  function Quoted(s: string): string {
    "\"" + EscapeAll(s) + "\""
  }

  /** One chunk of the answer as JSON, without spaces. */
  function Chunk(delta: string, finishReason: string): string {
    "{" + Opening() + delta + Closing(finishReason) + "}"
  }

  function Opening(): string {
    Concat([Quoted("id"), ":", Quoted("chatcmpl-local"), ",", Quoted("object"), ":", Quoted("chat.completion.chunk"), ",",
            Quoted("choices"), ":[{", Quoted("index"), ":0,", Quoted("delta"), ":{"])
  }

  function Closing(finishReason: string): string {
    Concat(["},", Quoted("finish_reason"), ":", finishReason, "}]"])
  }

  function DeltaPayload(content: string): string {
    Chunk(Quoted("content") + ":" + Quoted(content), "null")
  }

  function FinalPayload(): string {
    Chunk("", Quoted("stop"))
  }

  const DONE := "[DONE]"

  function Event(payload: string): string { "data: " + payload + "\n\n" }

  function Payloads(deltas: seq<string>): seq<string> {
    if deltas == [] then [FinalPayload(), DONE] else [DeltaPayload(deltas[0])] + Payloads(deltas[1..])
  }

  function Print(payloads: seq<string>): string {
    if payloads == [] then "" else Event(payloads[0]) + Print(payloads[1..])
  }

  // ----- Round trip -----

  /** Text the printer may send as data: printable ASCII, without a blank at either end. */
  ghost predicate Plain(p: string) {
    && (forall i | 0 <= i < |p| :: ' ' <= p[i] <= '~')
    && p != "" && p[0] != ' ' && p[|p| - 1] != ' '
  }

  lemma Escaped4Plain(n: nat)
    requires n < 0x10000
    ensures forall i | 0 <= i < |Escaped4(n)| :: ' ' <= Escaped4(n)[i] <= '~'
  {
    HexPlain(n / 16 / 16 / 16);
    HexPlain(n / 16 / 16 % 16);
    HexPlain(n / 16 % 16);
    HexPlain(n % 16);
  }

  lemma HexPlain(n: nat)
    requires n < 16
    ensures ' ' <= HexDigit(n) <= '~'
  {
  }

  lemma EscapePlain(c: char)
    ensures forall i | 0 <= i < |Escape(c)| :: ' ' <= Escape(c)[i] <= '~'
  {
    hide Escaped4;
    var n := c as int;
    if n < 0x10000 {
      Escaped4Plain(n);
    } else {
      Escaped4Plain(0xD800 + (n - 0x10000) / 0x400);
      Escaped4Plain(0xDC00 + (n - 0x10000) % 0x400);
    }
  }

  lemma {:induction false} EscapeAllPlain(s: string)
    ensures forall i | 0 <= i < |EscapeAll(s)| :: ' ' <= EscapeAll(s)[i] <= '~'
  {
    if s != "" {
      EscapePlain(s[0]);
      EscapeAllPlain(s[1..]);
    }
  }

  ghost predicate Printable(s: string) {
    forall i | 0 <= i < |s| :: ' ' <= s[i] <= '~'
  }

  lemma QuotedPrintable(s: string)
    ensures Printable(Quoted(s))
  {
    EscapeAllPlain(s);
  }

  lemma {:induction false} ConcatPrintable(pieces: seq<string>)
    requires forall i | 0 <= i < |pieces| :: Printable(pieces[i])
    ensures Printable(Concat(pieces))
    decreases pieces
  {
    if pieces != [] { ConcatPrintable(pieces[1..]); }
  }

  lemma OpeningPrintable()
    ensures Printable(Opening())
  {
    hide Quoted, Concat;
    var names := ["id", "chatcmpl-local", "object", "chat.completion.chunk", "choices", "index", "delta"];
    forall k | 0 <= k < |names| ensures Printable(Quoted(names[k])) { QuotedPrintable(names[k]); }
    assert names[0] == "id" && names[1] == "chatcmpl-local" && names[2] == "object" && names[3] == "chat.completion.chunk";
    assert names[4] == "choices" && names[5] == "index" && names[6] == "delta";
    ConcatPrintable(
      [Quoted("id"), ":", Quoted("chatcmpl-local"), ",", Quoted("object"), ":", Quoted("chat.completion.chunk"), ",",
       Quoted("choices"), ":[{", Quoted("index"), ":0,", Quoted("delta"), ":{"]);
  }

  lemma ChunkPlain(delta: string, finishReason: string)
    requires Printable(delta) && Printable(finishReason)
    ensures Plain(Chunk(delta, finishReason))
  {
    hide Quoted, Concat, Opening;
    OpeningPrintable();
    QuotedPrintable("finish_reason");
    ConcatPrintable(["},", Quoted("finish_reason"), ":", finishReason, "}]"]);
    hide Closing;
    var s := Chunk(delta, finishReason);
    assert s == "{" + Opening() + delta + Closing(finishReason) + "}";
  }

  lemma DeltaPlain(content: string)
    ensures Plain(DeltaPayload(content))
  {
    hide Quoted, Plain, Chunk;
    QuotedPrintable("content");
    QuotedPrintable(content);
    ChunkPlain(Quoted("content") + ":" + Quoted(content), "null");
  }

  lemma FixedPlain()
    ensures Plain(FinalPayload()) && Plain(DONE)
  {
    hide Quoted, Chunk;
    QuotedPrintable("stop");
    ChunkPlain("", Quoted("stop"));
  }

  lemma {:induction false} PayloadsPlain(deltas: seq<string>)
    ensures forall i | 0 <= i < |Payloads(deltas)| :: Plain(Payloads(deltas)[i])
  {
    hide Plain, DeltaPayload, FinalPayload;
    if deltas == [] {
      FixedPlain();
    } else {
      DeltaPlain(deltas[0]);
      PayloadsPlain(deltas[1..]);
    }
  }

  // ----- The content of a payload can be read back -----

  function HexValue(c: char): Option<nat> {
    if '0' <= c <= '9' then Some((c - '0') as nat)
    else if 'a' <= c <= 'f' then Some((c - 'a') as nat + 10)
    else if 'A' <= c <= 'F' then Some((c - 'A') as nat + 10)
    else None
  }

  /** The value of a \\uXXXX escape at the head of `s`. */
  function CodeUnit(s: string): Option<nat> {
    if |s| < 6 || s[0] != '\\' || s[1] != 'u' then None
    else
      var a, b, c, d := HexValue(s[2]), HexValue(s[3]), HexValue(s[4]), HexValue(s[5]);
      if a.None? || b.None? || c.None? || d.None? then None
      else Some(0x1000 * a.value + 0x100 * b.value + 0x10 * c.value + d.value)
  }

  function Combined(high: nat, low: nat): char
    requires 0xD800 <= high < 0xDC00 <= low < 0xE000
  {
    (0x10000 + (high - 0xD800) * 0x400 + (low - 0xDC00)) as char
  }

  /** One escape, or the two of a surrogate pair. */
  function DecodeUnicode(s: string): Option<(char, nat)> {
    var unit := CodeUnit(s);
    if unit.None? || unit.value > 0xFFFF || 0xDC00 <= unit.value < 0xE000 then None
    else if unit.value < 0xD800 || 0xE000 <= unit.value then Some((unit.value as char, 6))
    else
      var low := CodeUnit(s[6..]);
      if low.None? || low.value < 0xDC00 || 0xE000 <= low.value then None else Some((Combined(unit.value, low.value), 12))
  }

  /** The first character of the body of a JSON string, and how much of it that took. */
  function DecodeOne(s: string): Option<(char, nat)>
    requires s != ""
  {
    if s[0] == '\"' || s[0] < ' ' then None
    else if s[0] != '\\' then Some((s[0], 1))
    else if |s| == 1 then None
    else match s[1]
      case '\"' => Some(('\"', 2))
      case '\\' => Some(('\\', 2))
      case '/' => Some(('/', 2))
      case 'n' => Some(('\n', 2))
      case 'r' => Some(('\r', 2))
      case 't' => Some(('\t', 2))
      case 'b' => Some(('\U{0008}', 2))
      case 'f' => Some(('\U{000C}', 2))
      case _ => DecodeUnicode(s)
  }

  /** The body of a JSON string, decoded. */
  function Decode(s: string): Option<string> {
    if s == "" then Some("")
    else
      var one := DecodeOne(s);
      if one.None? || one.value.1 == 0 || one.value.1 > |s| then None
      else
        var rest := Decode(s[one.value.1..]);
        if rest.None? then None else Some([one.value.0] + rest.value)
  }

  lemma HexRoundTrip(n: nat)
    requires n < 16
    ensures HexValue(HexDigit(n)) == Some(n)
  {
  }

  lemma FourDigits(a: nat, b: nat, c: nat, d: nat, rest: string)
    requires a < 16 && b < 16 && c < 16 && d < 16
    ensures CodeUnit(['\\', 'u', HexDigit(a), HexDigit(b), HexDigit(c), HexDigit(d)] + rest) == Some(0x1000 * a + 0x100 * b + 0x10 * c + d)
  {
    HexRoundTrip(a);
    HexRoundTrip(b);
    HexRoundTrip(c);
    HexRoundTrip(d);
    hide HexDigit, HexValue;
    var s := ['\\', 'u', HexDigit(a), HexDigit(b), HexDigit(c), HexDigit(d)] + rest;
    assert s[2] == HexDigit(a) && s[3] == HexDigit(b) && s[4] == HexDigit(c) && s[5] == HexDigit(d);
  }

  lemma CodeUnitRoundTrip(n: nat, rest: string)
    requires n < 0x10000
    ensures CodeUnit(Escaped4(n) + rest) == Some(n)
  {
    FourDigits(n / 16 / 16 / 16, n / 16 / 16 % 16, n / 16 % 16, n % 16, rest);
  }

  lemma DecodeUnit(n: nat, rest: string)
    requires n < 0xD800 || 0xE000 <= n < 0x10000
    ensures DecodeOne(Escaped4(n) + rest) == Some((n as char, 6))
  {
    CodeUnitRoundTrip(n, rest);
    hide CodeUnit, HexDigit;
    var s := Escaped4(n) + rest;
    assert s[0] == '\\' && s[1] == 'u';
  }

  lemma EscapedHead(n: nat)
    requires n < 0x10000
    ensures |Escaped4(n)| == 6 && Escaped4(n)[0] == '\\' && Escaped4(n)[1] == 'u'
  {
  }

  lemma DecodePair(high: nat, low: nat, rest: string)
    requires 0xD800 <= high < 0xDC00 <= low < 0xE000
    ensures DecodeUnicode(Escaped4(high) + (Escaped4(low) + rest)) == Some((Combined(high, low), 12))
  {
    CodeUnitRoundTrip(high, Escaped4(low) + rest);
    CodeUnitRoundTrip(low, rest);
    EscapedHead(high);
    hide CodeUnit, Escaped4, Combined;
    var s := Escaped4(high) + (Escaped4(low) + rest);
    assert s[6..] == Escaped4(low) + rest;
  }

  lemma DecodesUnicode(s: string)
    requires |s| >= 6 && s[0] == '\\' && s[1] == 'u'
    ensures DecodeOne(s) == DecodeUnicode(s)
  {
  }

  /** A character outside the basic plane is written as its two surrogates. */
  lemma EscapeWide(c: char, rest: string)
    requires c as int >= 0x10000
    ensures DecodeOne(Escape(c) + rest) == Some((c, |Escape(c)|))
  {
    hide DecodeOne, DecodeUnicode, Escaped4;
    var m := c as int - 0x10000;
    var high, low := 0xD800 + m / 0x400, 0xDC00 + m % 0x400;
    assert m == m / 0x400 * 0x400 + m % 0x400;
    EscapedHead(high);
    EscapedHead(low);
    DecodePair(high, low, rest);
    DecodesUnicode(Escaped4(high) + (Escaped4(low) + rest));
    assert Escape(c) == Escaped4(high) + Escaped4(low);
    assert Escape(c) + rest == Escaped4(high) + (Escaped4(low) + rest);
  }

  lemma DecodeEscape(c: char, rest: string)
    ensures DecodeOne(Escape(c) + rest) == Some((c, |Escape(c)|))
  {
    hide DecodeOne, Escaped4;
    if ' ' <= c <= '~' || c in "\n\r\t\U{0008}\U{000C}" {
      DecodeAscii(c, rest);
    } else if c as int >= 0x10000 {
      EscapeWide(c, rest);
    } else {
      EscapedHead(c as int);
      DecodeUnit(c as int, rest);
    }
  }

  lemma DecodeAscii(c: char, rest: string)
    requires ' ' <= c <= '~' || c in "\n\r\t\U{0008}\U{000C}"
    ensures DecodeOne(Escape(c) + rest) == Some((c, |Escape(c)|))
  {
    hide CodeUnit, Escaped4;
  }

  /** Every text survives being written as the body of a JSON string. */
  lemma {:induction false} DecodeAll(s: string)
    ensures Decode(EscapeAll(s)) == Some(s)
  {
    hide DecodeOne, Escape;
    if s != "" {
      DecodeAll(s[1..]);
      DecodeEscape(s[0], EscapeAll(s[1..]));
      EscapeNotEmpty(s[0]);
      var e := EscapeAll(s);
      assert e == Escape(s[0]) + EscapeAll(s[1..]) && e[|Escape(s[0])|..] == EscapeAll(s[1..]);
      assert [s[0]] + s[1..] == s;
    }
  }

  lemma EscapeNotEmpty(c: char)
    ensures Escape(c) != ""
  {
  }

  /** What is printed before and after the content of a chunk, whatever the content. */
  function BeforeContent(): string { "{" + Opening() + (Quoted("content") + ":\"") }

  function AfterContent(): string { "\"" + Closing("null") + "}" }

  /** The content that a payload carries. */
  function ContentOf(payload: string): Option<string> {
    var m, n := |BeforeContent()|, |AfterContent()|;
    if m + n > |payload| || payload[..m] != BeforeContent() || payload[|payload| - n..] != AfterContent() then None
    else Decode(payload[m..|payload| - n])
  }

  /** From the payload alone the delta it was printed for can be told. */
  lemma ContentSurvives(content: string)
    ensures ContentOf(DeltaPayload(content)) == Some(content)
  {
    hide Decode, EscapeAll, Opening, Closing;
    var body := EscapeAll(content);
    var p := DeltaPayload(content);
    assert p == BeforeContent() + body + AfterContent();
    DecodeAll(content);
  }

  // ----- One printed event -----

  lemma {:induction false} OneLine(s: string)
    requires forall i | 0 <= i < |s| :: s[i] != '\n'
    ensures Lines(s) == [s]
  {
    if s != "" {
      OneLine(s[1..]);
      assert [s[0]] + s[1..] == s;
    }
  }

  lemma PlainIsNotSpace(c: char)
    requires ' ' < c <= '~'
    ensures !IsSpace(c)
  {
  }

  lemma TrimPlain(p: string)
    requires Plain(p)
    ensures Trim(p) == p && Trim(" " + p) == p && Trim("data: " + p) == "data: " + p
  {
    PlainIsNotSpace(p[0]);
    PlainIsNotSpace(p[|p| - 1]);
    assert IsSpace(' ') && !IsSpace('d');
    assert TrimStart(" " + p) == TrimStart((" " + p)[1..]) && (" " + p)[1..] == p;
  }

  lemma EventYields(p: string)
    requires Plain(p)
    ensures Yielded("data: " + p) == [p]
  {
    var line := "data: " + p;
    OneLine(line);
    TrimPlain(p);
    assert line[|DATA|..] == " " + p;
    var ls := [line];
    assert ls[1..] == [] && DataLines(ls[1..]) == [];
    assert DataLines(ls) == [p];
  }

  /** The first blank line is the one that ends the first event. */
  lemma EventBoundary(p: string, rest: string)
    requires Plain(p)
    ensures FirstBoundary(Event(p) + rest) == Some(|p| + 6)
  {
    var s := Event(p) + rest;
    var n := |p| + 6;
    assert s == ("data: " + p) + ("\n\n" + rest);
    assert BoundaryAt(s, n);
    forall k | 0 <= k < n ensures !BoundaryAt(s, k) { assert s[k] == ("data: " + p)[k]; }
  }

  lemma {:induction false} PrintedEvents(ps: seq<string>)
    requires forall i | 0 <= i < |ps| :: Plain(ps[i])
    ensures Events(Print(ps)) == (ps, "")
    decreases ps
  {
    hide Plain, Yielded, Events, FirstBoundary;
    if ps == [] {
      EventsOfNothing();
    } else {
      var s := Event(ps[0]) + Print(ps[1..]);
      EventBoundary(ps[0], Print(ps[1..]));
      EventsCut(s, |ps[0]| + 6);
      assert s[..|ps[0]| + 6] == "data: " + ps[0] && s[|ps[0]| + 8..] == Print(ps[1..]);
      EventYields(ps[0]);
      PrintedEvents(ps[1..]);
      assert [ps[0]] + ps[1..] == ps;
    }
  }

  /** For every answer, the parser yields exactly the printed payloads, in order, and then the end
      mark, and each delta can be read back from its payload. That the printed stream may arrive in
      any chunks is the contract of `SseEvents`. */
  lemma RoundTrip(deltas: seq<string>)
    ensures var out := Parse(Print(Payloads(deltas)));
      && out == Payloads(deltas) && |out| == |deltas| + 2 && out[|deltas| + 1] == DONE
      && forall i | 0 <= i < |deltas| :: ContentOf(out[i]) == Some(deltas[i])
  {
    hide Plain, Payloads, Print, Events, Trim, Yielded, ContentOf;
    PayloadsPlain(deltas);
    PrintedEvents(Payloads(deltas));
    PayloadsEnd(deltas);
    TrimNothing();
    forall i | 0 <= i < |deltas| ensures ContentOf(Payloads(deltas)[i]) == Some(deltas[i]) { ContentSurvives(deltas[i]); }
  }

  lemma TrimNothing()
    ensures Trim("") == ""
  {
  }

  lemma {:induction false} PayloadsEnd(deltas: seq<string>)
    ensures |Payloads(deltas)| == |deltas| + 2 && Payloads(deltas)[|deltas| + 1] == DONE
    ensures forall i | 0 <= i < |deltas| :: Payloads(deltas)[i] == DeltaPayload(deltas[i])
  {
    hide DeltaPayload, FinalPayload;
    if deltas != [] { PayloadsEnd(deltas[1..]); }
  }
}
