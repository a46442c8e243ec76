/** The frames of the chat stream shared by the producer (client/src/Chat/route.ts)
    and the consumer (client/src/Hooks/UseChatSSE.ts): the `StreamChunk` object,
    its text in the layout `JSON.stringify` writes, the `data: <json>\n\n`
    framing of a server-sent event, and the consumer's reading of that text back
    into chunks. */
module Frames {
  import opened Common

  /** `{ title, reference }` of a cited source. */
  datatype SourceRef = SourceRef(title: string, reference: string)

  /** `StreamChunk`: a `type` and the optional `data` and `sources` properties. */
  datatype StreamChunk = StreamChunk(kind: string, data: Option<string>, sources: Option<seq<SourceRef>>)

  // ------------------------------------------------------ JSON string text

  function HexDigit(d: nat): (c: char)
    requires d < 16
  {
    if d < 10 then DigitChar(d) else ('a' as int + d - 10) as char
  }

  /** The value of a hexadecimal digit, in either letter case. */
  function HexValue(c: char): (r: Option<nat>)
    ensures r.Some? ==> r.value < 16
  {
    if '0' <= c <= '9' then Some(c as int - '0' as int)
    else if 'a' <= c <= 'f' then Some(c as int - 'a' as int + 10)
    else if 'A' <= c <= 'F' then Some(c as int - 'A' as int + 10)
    else None
  }

  lemma HexValueOfDigit(d: nat)
    requires d < 16
    ensures HexValue(HexDigit(d)) == Some(d)
  {
  }

  /** How `JSON.stringify` writes one character inside a string: the quote
      and the backslash escaped, the five control characters with short
      escapes by their letter, every other control character as `\u00xx`. */
  function EscapeChar(c: char): (e: string)
    ensures |e| > 0
    ensures NoNewline(e)
  {
    if c == '"' then "\\\""
    else if c == '\\' then "\\\\"
    else if c == '\U{8}' then "\\b"
    else if c == '\U{C}' then "\\f"
    else if c == '\n' then "\\n"
    else if c == '\r' then "\\r"
    else if c == '\t' then "\\t"
    else if c as int < 0x20 then "\\u00" + [HexDigit(c as int / 16), HexDigit(c as int % 16)]
    else [c]
  }

  function Escaped(s: string): string
    decreases |s|
  {
    if |s| == 0 then "" else EscapeChar(s[0]) + Escaped(s[1..])
  }

  /** `JSON.stringify` of a string. */
  function Quote(s: string): string
  {
    "\"" + Escaped(s) + "\""
  }

  // ------------------------------------------------------ JSON object text

  function SourceJson(r: SourceRef): string
  {
    "{\"title\":" + Quote(r.title) + ",\"reference\":" + Quote(r.reference) + "}"
  }

  /** The elements of a sources array, comma separated. */
  function SourceItems(rs: seq<SourceRef>): string
    requires |rs| > 0
    decreases |rs|
  {
    if |rs| == 1 then SourceJson(rs[0]) else SourceJson(rs[0]) + "," + SourceItems(rs[1..])
  }

  function SourcesJson(rs: seq<SourceRef>): string
  {
    if |rs| == 0 then "[]" else "[" + SourceItems(rs) + "]"
  }

  function DataMember(d: Option<string>): string
  {
    match d
    case None => ""
    case Some(s) => ",\"data\":" + Quote(s)
  }

  function SourcesMember(ss: Option<seq<SourceRef>>): string
  {
    match ss
    case None => ""
    case Some(rs) => ",\"sources\":" + SourcesJson(rs)
  }

  /** `JSON.stringify(chunk)`: the properties in the order they were written,
      absent ones omitted. */
  function ChunkJson(c: StreamChunk): string
  {
    "{\"type\":" + Quote(c.kind) + DataMember(c.data) + SourcesMember(c.sources) + "}"
  }

  const DataPrefix := "data: "

  /** One server-sent event carrying the chunk: `data: <json>\n\n`. */
  function Frame(c: StreamChunk): string {
    DataPrefix + ChunkJson(c) + "\n\n"
  }

  /** The text holds no line feed, so it stays on one line of the stream. */
  predicate NoNewline(s: string) {
    forall k | 0 <= k < |s| :: s[k] != '\n'
  }

  lemma NoNewlineConcat(a: string, b: string)
    requires NoNewline(a) && NoNewline(b)
    ensures NoNewline(a + b)
  {
    forall k | 0 <= k < |a + b| ensures (a + b)[k] != '\n' {
      if k >= |a| { assert (a + b)[k] == b[k - |a|]; }
    }
  }

  lemma {:induction false} EscapedOneLine(s: string)
    ensures NoNewline(Escaped(s))
    decreases |s|
  {
    if |s| > 0 {
      EscapedOneLine(s[1..]);
      NoNewlineConcat(EscapeChar(s[0]), Escaped(s[1..]));
    }
  }

  lemma QuoteOneLine(s: string)
    ensures NoNewline(Quote(s))
  {
    EscapedOneLine(s);
    NoNewlineConcat("\"", Escaped(s));
    NoNewlineConcat("\"" + Escaped(s), "\"");
  }

  lemma SourceJsonOneLine(r: SourceRef)
    ensures NoNewline(SourceJson(r))
  {
    QuoteOneLine(r.title);
    QuoteOneLine(r.reference);
    var a := "{\"title\":" + Quote(r.title);
    NoNewlineConcat("{\"title\":", Quote(r.title));
    NoNewlineConcat(a, ",\"reference\":");
    NoNewlineConcat(a + ",\"reference\":", Quote(r.reference));
    NoNewlineConcat(a + ",\"reference\":" + Quote(r.reference), "}");
  }

  lemma {:induction false} SourceItemsOneLine(rs: seq<SourceRef>)
    requires |rs| > 0
    ensures NoNewline(SourceItems(rs))
    decreases |rs|
  {
    SourceJsonOneLine(rs[0]);
    if |rs| > 1 {
      SourceItemsOneLine(rs[1..]);
      NoNewlineConcat(SourceJson(rs[0]), ",");
      NoNewlineConcat(SourceJson(rs[0]) + ",", SourceItems(rs[1..]));
    }
  }

  lemma ChunkJsonOneLine(c: StreamChunk)
    ensures NoNewline(ChunkJson(c))
  {
    QuoteOneLine(c.kind);
    var head := "{\"type\":" + Quote(c.kind);
    NoNewlineConcat("{\"type\":", Quote(c.kind));
    var dm := DataMember(c.data);
    if c.data.Some? {
      QuoteOneLine(c.data.value);
      NoNewlineConcat(",\"data\":", Quote(c.data.value));
    }
    NoNewlineConcat(head, dm);
    var sm := SourcesMember(c.sources);
    if c.sources.Some? {
      var rs := c.sources.value;
      if |rs| > 0 {
        SourceItemsOneLine(rs);
        NoNewlineConcat("[", SourceItems(rs));
        NoNewlineConcat("[" + SourceItems(rs), "]");
      }
      NoNewlineConcat(",\"sources\":", SourcesJson(rs));
    }
    NoNewlineConcat(head + dm, sm);
    NoNewlineConcat(head + dm + sm, "}");
  }

  // ---------------------------------------------------------------- parsing

  /** The character an escape sequence stands for (the text after the
      backslash) and the text after it. A `\u` escape naming half of a
      surrogate pair is not read. */
  function Unescape(t: string): (r: Option<(char, string)>)
    ensures r.Some? ==> |r.value.1| < |t|
  {
    if |t| == 0 then None
    else if t[0] == '"' then Some(('"', t[1..]))
    else if t[0] == '\\' then Some(('\\', t[1..]))
    else if t[0] == '/' then Some(('/', t[1..]))
    else if t[0] == 'b' then Some(('\U{8}', t[1..]))
    else if t[0] == 'f' then Some(('\U{C}', t[1..]))
    else if t[0] == 'n' then Some(('\n', t[1..]))
    else if t[0] == 'r' then Some(('\r', t[1..]))
    else if t[0] == 't' then Some(('\t', t[1..]))
    else if t[0] == 'u' && |t| >= 5 then
      match (HexValue(t[1]), HexValue(t[2]), HexValue(t[3]), HexValue(t[4]))
      case (Some(a), Some(b), Some(c), Some(d)) =>
        var code := ((a * 16 + b) * 16 + c) * 16 + d;
        if 0xD800 <= code < 0xE000 then None else Some((code as char, t[5..]))
      case _ => None
    else None
  }

  /** The body of a JSON string up to its closing quote, and the text after
      the quote. */
  function ParseString(s: string): (r: Option<(string, string)>)
    ensures r.Some? ==> |r.value.1| < |s|
    decreases |s|
  {
    if |s| == 0 then None
    else if s[0] == '"' then Some(("", s[1..]))
    else if s[0] == '\\' then
      match Unescape(s[1..])
      case None => None
      case Some((c, t)) => Prepend(c, ParseString(t))
    else if (s[0] as int) < 0x20 then None
    else Prepend(s[0], ParseString(s[1..]))
  }

  function Prepend(c: char, r: Option<(string, string)>): Option<(string, string)> {
    match r
    case None => None
    case Some((v, u)) => Some(([c] + v, u))
  }

  /** A quoted JSON string at the start of `s`. */
  function ParseQuoted(s: string): (r: Option<(string, string)>)
    ensures r.Some? ==> |r.value.1| < |s|
  {
    if |s| > 0 && s[0] == '"' then ParseString(s[1..]) else None
  }

  /** The text after the literal `lit` at the start of `s`. */
  function Expect(lit: string, s: string): (r: Option<string>)
    ensures r.Some? ==> |r.value| == |s| - |lit| && lit + r.value == s
  {
    if StartsWith(s, lit) then Some(s[|lit|..]) else None
  }

  function ParseSource(s: string): (r: Option<(SourceRef, string)>)
    ensures r.Some? ==> |r.value.1| < |s|
  {
    match Expect("{\"title\":", s)
    case None => None
    case Some(s1) =>
      match ParseQuoted(s1)
      case None => None
      case Some((title, s2)) =>
        match Expect(",\"reference\":", s2)
        case None => None
        case Some(s3) =>
          match ParseQuoted(s3)
          case None => None
          case Some((reference, s4)) =>
            match Expect("}", s4)
            case None => None
            case Some(s5) => Some((SourceRef(title, reference), s5))
  }

  /** One or more array elements and the closing bracket. */
  function ParseSourceItems(s: string): (r: Option<(seq<SourceRef>, string)>)
    ensures r.Some? ==> |r.value.1| < |s|
    decreases |s|
  {
    match ParseSource(s)
    case None => None
    case Some((x, t)) =>
      if |t| > 0 && t[0] == ']' then Some(([x], t[1..]))
      else if |t| > 0 && t[0] == ',' then
        match ParseSourceItems(t[1..])
        case None => None
        case Some((xs, u)) => Some(([x] + xs, u))
      else None
  }

  function ParseSources(s: string): (r: Option<(seq<SourceRef>, string)>) {
    match Expect("[", s)
    case None => None
    case Some(t) =>
      if |t| > 0 && t[0] == ']' then Some(([], t[1..])) else ParseSourceItems(t)
  }

  function ParseDataMember(s: string): (r: Option<(Option<string>, string)>) {
    match Expect(",\"data\":", s)
    case None => Some((None, s))
    case Some(t) =>
      match ParseQuoted(t)
      case None => None
      case Some((d, u)) => Some((Some(d), u))
  }

  function ParseSourcesMember(s: string): (r: Option<(Option<seq<SourceRef>>, string)>) {
    match Expect(",\"sources\":", s)
    case None => Some((None, s))
    case Some(t) =>
      match ParseSources(t)
      case None => None
      case Some((rs, u)) => Some((Some(rs), u))
  }

  /** `JSON.parse` of a chunk's text; `None` is text that does not parse. */
  function DecodeChunk(j: string): Option<StreamChunk> {
    match Expect("{\"type\":", j)
    case None => None
    case Some(s1) =>
      match ParseQuoted(s1)
      case None => None
      case Some((kind, s2)) =>
        match ParseDataMember(s2)
        case None => None
        case Some((data, s3)) =>
          match ParseSourcesMember(s3)
          case None => None
          case Some((sources, s4)) =>
            if s4 == "}" then Some(StreamChunk(kind, data, sources)) else None
  }

  // ------------------------------------------------------------ round trip

  lemma ExpectConcat(lit: string, rest: string)
    ensures Expect(lit, lit + rest) == Some(rest)
  {
    assert (lit + rest)[..|lit|] == lit;
    assert (lit + rest)[|lit|..] == rest;
  }

  /** Decoding an escaped character gives it back, before whatever follows. */
  lemma ParseEscapeChar(c: char, t: string)
    ensures ParseString(EscapeChar(c) + t) == Prepend(c, ParseString(t))
  {
    var e := EscapeChar(c);
    var s := e + t;
    if c == '"' || c == '\\' || c == '\U{8}' || c == '\U{C}' || c == '\n' || c == '\r' || c == '\t' {
      assert s[0] == '\\' && s[1] == e[1];
      assert s[1..][1..] == t;
    } else if c as int < 0x20 {
      var hi, lo := c as int / 16, c as int % 16;
      HexValueOfDigit(hi);
      HexValueOfDigit(lo);
      assert HexValue('0') == Some(0);
      var u := s[1..];
      assert u[0] == 'u' && u[1] == '0' && u[2] == '0' && u[3] == HexDigit(hi) && u[4] == HexDigit(lo);
      assert u[5..] == t;
      assert Unescape(u) == Some((c, t));
    } else {
      assert s[0] == c;
      assert s[1..] == t;
    }
  }

  /** The string text `JSON.stringify` writes reads back as the string. */
  lemma {:induction false} ParseEscaped(s: string, rest: string)
    ensures ParseString(Escaped(s) + "\"" + rest) == Some((s, rest))
    decreases |s|
  {
    if |s| == 0 {
      assert Escaped(s) + "\"" + rest == "\"" + rest;
      assert ("\"" + rest)[1..] == rest;
    } else {
      var t := Escaped(s[1..]) + "\"" + rest;
      calc {
        Escaped(s) + "\"" + rest;
        (EscapeChar(s[0]) + Escaped(s[1..])) + "\"" + rest;
        { ConcatAssoc(EscapeChar(s[0]), Escaped(s[1..]), "\""); ConcatAssoc(EscapeChar(s[0]), Escaped(s[1..]) + "\"", rest); }
        EscapeChar(s[0]) + t;
      }
      ParseEscapeChar(s[0], t);
      ParseEscaped(s[1..], rest);
      assert [s[0]] + s[1..] == s;
    }
  }

  lemma ParseQuote(s: string, rest: string)
    ensures ParseQuoted(Quote(s) + rest) == Some((s, rest))
  {
    var q := Quote(s) + rest;
    ConcatAssoc("\"" + Escaped(s), "\"", rest);
    ConcatAssoc("\"", Escaped(s), "\"" + rest);
    ConcatAssoc(Escaped(s), "\"", rest);
    assert q == "\"" + (Escaped(s) + "\"" + rest);
    assert q[1..] == Escaped(s) + "\"" + rest;
    ParseEscaped(s, rest);
  }

  lemma ParseSourceJson(r: SourceRef, rest: string)
    ensures ParseSource(SourceJson(r) + rest) == Some((r, rest))
  {
    var a, t1, b, t2 := "{\"title\":", Quote(r.title), ",\"reference\":", Quote(r.reference);
    var r1 := "}" + rest;
    var r2 := t2 + r1;
    var r3 := b + r2;
    calc {
      SourceJson(r) + rest;
      ((((a + t1) + b) + t2) + "}") + rest;
      { ConcatAssoc(((a + t1) + b) + t2, "}", rest); }
      (((a + t1) + b) + t2) + r1;
      { ConcatAssoc((a + t1) + b, t2, r1); }
      ((a + t1) + b) + r2;
      { ConcatAssoc(a + t1, b, r2); }
      (a + t1) + r3;
      { ConcatAssoc(a, t1, r3); }
      a + (t1 + r3);
    }
    ExpectConcat(a, t1 + r3);
    ParseQuote(r.title, r3);
    ExpectConcat(b, r2);
    ParseQuote(r.reference, r1);
    ExpectConcat("}", rest);
  }

  lemma ItemsText(rs: seq<SourceRef>, rest: string)
    requires |rs| > 1
    ensures SourceItems(rs) + "]" + rest
      == SourceJson(rs[0]) + ("," + (SourceItems(rs[1..]) + "]" + rest))
  {
    var x, items := SourceJson(rs[0]), SourceItems(rs[1..]);
    var t := items + "]" + rest;
    calc {
      SourceItems(rs) + "]" + rest;
      ((x + ",") + items) + "]" + rest;
      { ConcatAssoc(x + ",", items, "]"); }
      ((x + ",") + (items + "]")) + rest;
      { ConcatAssoc(x + ",", items + "]", rest); }
      (x + ",") + ((items + "]") + rest);
      { ConcatAssoc(x, ",", t); }
      x + ("," + t);
    }
  }

  lemma ParseLastItem(r: SourceRef, rest: string)
    ensures ParseSourceItems(SourceJson(r) + ("]" + rest)) == Some(([r], rest))
  {
    ParseSourceJson(r, "]" + rest);
    assert ("]" + rest)[1..] == rest;
  }

  lemma ParseNextItem(r: SourceRef, t: string)
    ensures ParseSourceItems(SourceJson(r) + ("," + t))
      == match ParseSourceItems(t)
         case None => None
         case Some((xs, u)) => Some(([r] + xs, u))
  {
    ParseSourceJson(r, "," + t);
    assert ("," + t)[1..] == t;
  }

  lemma {:induction false} ParseItems(rs: seq<SourceRef>, rest: string)
    requires |rs| > 0
    ensures ParseSourceItems(SourceItems(rs) + "]" + rest) == Some((rs, rest))
    decreases |rs|
  {
    if |rs| == 1 {
      ConcatAssoc(SourceJson(rs[0]), "]", rest);
      ParseLastItem(rs[0], rest);
      assert [rs[0]] == rs;
    } else {
      ItemsText(rs, rest);
      ParseNextItem(rs[0], SourceItems(rs[1..]) + "]" + rest);
      ParseItems(rs[1..], rest);
      assert [rs[0]] + rs[1..] == rs;
    }
  }

  lemma ParseSourcesJson(rs: seq<SourceRef>, rest: string)
    ensures ParseSources(SourcesJson(rs) + rest) == Some((rs, rest))
  {
    if |rs| == 0 {
      assert SourcesJson(rs) + rest == "[" + ("]" + rest);
      ExpectConcat("[", "]" + rest);
      assert ("]" + rest)[1..] == rest;
    } else {
      assert SourcesJson(rs) + rest == "[" + (SourceItems(rs) + "]" + rest);
      ExpectConcat("[", SourceItems(rs) + "]" + rest);
      ParseItems(rs, rest);
    }
  }

  lemma ParseData(d: Option<string>, rest: string)
    requires !StartsWith(rest, ",\"data\":")
    ensures ParseDataMember(DataMember(d) + rest) == Some((d, rest))
  {
    match d
    case None =>
      assert DataMember(d) + rest == rest;
    case Some(s) =>
      assert DataMember(d) + rest == ",\"data\":" + (Quote(s) + rest);
      ExpectConcat(",\"data\":", Quote(s) + rest);
      ParseQuote(s, rest);
  }

  lemma ParseSourcesField(ss: Option<seq<SourceRef>>, rest: string)
    requires !StartsWith(rest, ",\"sources\":")
    ensures ParseSourcesMember(SourcesMember(ss) + rest) == Some((ss, rest))
  {
    match ss
    case None =>
      assert SourcesMember(ss) + rest == rest;
    case Some(rs) =>
      assert SourcesMember(ss) + rest == ",\"sources\":" + (SourcesJson(rs) + rest);
      ExpectConcat(",\"sources\":", SourcesJson(rs) + rest);
      ParseSourcesJson(rs, rest);
  }

  /** Decoding undoes encoding: the consumer reads back every chunk the
      producer writes. */
  lemma DecodeChunkJson(c: StreamChunk)
    ensures DecodeChunk(ChunkJson(c)) == Some(c)
  {
    var head, q := "{\"type\":", Quote(c.kind);
    var r1 := SourcesMember(c.sources) + "}";
    var r2 := DataMember(c.data) + r1;
    ChunkJsonParts(c);
    ExpectConcat(head, q + r2);
    ParseQuote(c.kind, r2);
    SourcesMemberNotData(c.sources);
    ParseData(c.data, r1);
    assert !StartsWith("}", ",\"sources\":");
    ParseSourcesField(c.sources, "}");
  }

  /** The chunk text, grouped as the decoder reads it. */
  lemma ChunkJsonParts(c: StreamChunk)
    ensures ChunkJson(c) == "{\"type\":" + (Quote(c.kind) + (DataMember(c.data) + (SourcesMember(c.sources) + "}")))
  {
    var head := "{\"type\":";
    var q := Quote(c.kind);
    var dm := DataMember(c.data);
    var sm := SourcesMember(c.sources);
    var r1 := sm + "}";
    var r2 := dm + r1;
    calc {
      ChunkJson(c);
      (((head + q) + dm) + sm) + "}";
      { ConcatAssoc((head + q) + dm, sm, "}"); }
      ((head + q) + dm) + r1;
      { ConcatAssoc(head + q, dm, r1); }
      (head + q) + r2;
      { ConcatAssoc(head, q, r2); }
      head + (q + r2);
    }
  }

  /** What follows the data member never starts like a data member. */
  lemma SourcesMemberNotData(ss: Option<seq<SourceRef>>)
    ensures !StartsWith(SourcesMember(ss) + "}", ",\"data\":")
  {
    var sm := SourcesMember(ss);
    var r1 := sm + "}";
    if |sm| > 0 { assert r1[2] == sm[2] == 's'; } else { assert r1 == "}"; }
  }

  /** Distinct chunks have distinct texts. */
  lemma ChunkJsonInjective(c: StreamChunk, d: StreamChunk)
    ensures ChunkJson(c) == ChunkJson(d) ==> c == d
  {
    DecodeChunkJson(c);
    DecodeChunkJson(d);
  }

  // --------------------------------------------------- lines of the stream

  /** `s.split('\n')`. */
  function SplitLines(s: string): (ls: seq<string>)
    ensures |ls| > 0
    decreases |s|
  {
    if |s| == 0 then [""]
    else if s[0] == '\n' then [""] + SplitLines(s[1..])
    else var r := SplitLines(s[1..]); [[s[0]] + r[0]] + r[1..]
  }

  /** `.filter((line) => line.trim())`. */
  function NonBlank(ls: seq<string>): (r: seq<string>)
    ensures forall k | 0 <= k < |r| :: !IsBlank(r[k]) && r[k] in ls
    ensures forall l | l in ls && !IsBlank(l) :: l in r
    decreases |ls|
  {
    if |ls| == 0 then [] else (if IsBlank(ls[0]) then [] else [ls[0]]) + NonBlank(ls[1..])
  }

  /** The filter keeps order: filtering two runs of lines is filtering each. */
  lemma {:induction false} NonBlankAppend(a: seq<string>, b: seq<string>)
    ensures NonBlank(a + b) == NonBlank(a) + NonBlank(b)
    decreases |a|
  {
    if |a| == 0 {
      assert a + b == b;
    } else {
      assert (a + b)[1..] == a[1..] + b;
      NonBlankAppend(a[1..], b);
    }
  }

  /** The lines of one read that the consumer looks at. */
  function ReadLines(read: string): seq<string> {
    NonBlank(SplitLines(read))
  }

  /** What one line yields: a chunk when it starts `data: ` and the rest
      parses; nothing otherwise (the malformed text is skipped). */
  function LineChunk(line: string): Option<StreamChunk> {
    if StartsWith(line, DataPrefix) then DecodeChunk(line[|DataPrefix|..]) else None
  }

  lemma {:induction false} SplitNoNewline(s: string)
    requires NoNewline(s)
    ensures SplitLines(s) == [s]
    decreases |s|
  {
    if |s| > 0 {
      SplitNoNewline(s[1..]);
      assert [s[0]] + s[1..] == s;
    }
  }

  /** Splitting after a first character that is not a newline extends the
      first line. */
  lemma SplitCons(c: char, t: string)
    requires c != '\n'
    ensures SplitLines([c] + t) == [[c] + SplitLines(t)[0]] + SplitLines(t)[1..]
  {
    assert ([c] + t)[1..] == t;
  }

  lemma {:induction false} SplitAtNewline(a: string, b: string)
    ensures SplitLines(a + "\n" + b) == SplitLines(a) + SplitLines(b)
    decreases |a|
  {
    if |a| == 0 {
      assert a + "\n" + b == "\n" + b;
      assert ("\n" + b)[1..] == b;
    } else {
      var t := a[1..] + "\n" + b;
      assert a + "\n" + b == [a[0]] + t;
      assert a == [a[0]] + a[1..];
      SplitAtNewline(a[1..], b);
      var ra, rb := SplitLines(a[1..]), SplitLines(b);
      if a[0] == '\n' {
        assert ([a[0]] + t)[1..] == t;
        assert ([a[0]] + a[1..])[1..] == a[1..];
      } else {
        SplitCons(a[0], t);
        SplitCons(a[0], a[1..]);
        assert (ra + rb)[0] == ra[0];
        assert (ra + rb)[1..] == ra[1..] + rb;
      }
    }
  }

  /** A frame is one non-blank line, and that line yields its chunk. */
  lemma FrameLines(c: StreamChunk)
    ensures ReadLines(Frame(c)) == [DataPrefix + ChunkJson(c)]
    ensures LineChunk(DataPrefix + ChunkJson(c)) == Some(c)
  {
    var line := DataPrefix + ChunkJson(c);
    ChunkJsonOneLine(c);
    NoNewlineConcat(DataPrefix, ChunkJson(c));
    SplitNoNewline(line);
    assert Frame(c) == line + "\n" + ("" + "\n" + "");
    SplitAtNewline(line, "" + "\n" + "");
    SplitAtNewline("", "");
    assert SplitLines(Frame(c)) == [line, "", ""];
    assert !IsBlank(line) by { assert line[0] == 'd'; }
    assert IsBlank("");
    assert NonBlank(["", ""]) == [] by {
      assert NonBlank([""]) == [];
      assert ["", ""][1..] == [""];
    }
    assert [line, "", ""][1..] == ["", ""];
    assert line[..|DataPrefix|] == DataPrefix;
    assert line[|DataPrefix|..] == ChunkJson(c);
    DecodeChunkJson(c);
  }
}
