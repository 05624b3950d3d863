/** What an HTTP/1.1 response looks like on the wire, and how a client reads it.
    The writing side is uvicorn's (httptools_impl.py); the reading side is RFC 9112. */
module Http1Wire {
  import opened Text

  datatype Field = Field(name: Bytes, value: Bytes)

  // ---------- writing ----------

  function StatusLine(status: nat, reason: Bytes): Bytes {
    "HTTP/1.1 " + Decimal(status) + " " + reason + CRLF
  }

  function FieldLine(f: Field): Bytes { f.name + ": " + f.value + CRLF }

  function FieldLines(fs: seq<Field>): Bytes {
    if fs == [] then "" else FieldLines(fs[..|fs| - 1]) + FieldLine(fs[|fs| - 1])
  }

  function Head(status: nat, reason: Bytes, fs: seq<Field>): Bytes {
    StatusLine(status, reason) + FieldLines(fs) + CRLF
  }

  /** One body message in chunked framing: an empty body writes nothing. */
  function Chunk(body: Bytes): Bytes {
    if body == "" then "" else Hex(|body|) + CRLF + body + CRLF
  }

  function Chunks(bodies: seq<Bytes>): Bytes {
    if bodies == [] then "" else Chunks(bodies[..|bodies| - 1]) + Chunk(bodies[|bodies| - 1])
  }

  const LAST_CHUNK: Bytes := "0\r\n\r\n"

  const CONTINUE: Bytes := "HTTP/1.1 100 Continue\r\n\r\n"

  // ---------- reading ----------

  /** Splits off the first line: the text before the first CRLF and the text after it. */
  function TakeLine(s: Bytes): (r: Option<(Bytes, Bytes)>)
    ensures r.Some? ==> |r.value.1| < |s|
  {
    if |s| < 2 then None
    else if s[0] == '\r' && s[1] == '\n' then Some(("", s[2..]))
    else
      match TakeLine(s[1..])
      case None => None
      case Some((line, rest)) => Some(([s[0]] + line, rest))
  }

  /** Status code of a status line (section 4 of RFC 9112). */
  function ReadStatusLine(line: Bytes): Option<nat> {
    if |line| >= 13 && line[..9] == "HTTP/1.1 " && AllDigits(line[9..12]) && line[12] == ' '
    then Some(DecimalValue(line[9..12])) else None
  }

  predicate IsOws(c: char) { c == ' ' || c == '\t' }

  /** Index of the first colon, or the length if there is none. */
  function ColonAt(line: Bytes): (k: nat)
    ensures k <= |line|
  {
    if line == "" || line[0] == ':' then 0 else 1 + ColonAt(line[1..])
  }

  /** field-line = field-name ":" OWS field-value OWS (section 5 of RFC 9112). */
  function ReadFieldLine(line: Bytes): Option<Field> {
    var k := ColonAt(line);
    if k == |line| then None else Some(Field(line[..k], Strip(line[k + 1..], IsOws)))
  }

  function ReadFields(s: Bytes): (r: Option<(seq<Field>, Bytes)>)
    ensures r.Some? ==> |r.value.1| < |s|
    decreases |s|
  {
    match TakeLine(s)
    case None => None
    case Some((line, rest)) =>
      if line == "" then Some(([], rest))
      else
        match (ReadFieldLine(line), ReadFields(rest))
        case (Some(f), Some((fs, after))) => Some(([f] + fs, after))
        case _ => None
  }

  /** Values of every field with the given (lower-case) name, in order. */
  function ValuesOf(fs: seq<Field>, name: Bytes): seq<Bytes> {
    if fs == [] then []
    else
      var f := fs[|fs| - 1];
      ValuesOf(fs[..|fs| - 1], name) + (if Lower(f.name) == name then [f.value] else [])
  }

  datatype Framing = NoBody | Chunked | Length(n: nat) | UntilClose | Invalid

  predicate BodylessStatus(status: nat) { status < 200 || status == 204 || status == 304 }

  function NonEmpty(parts: seq<Bytes>): seq<Bytes> {
    if parts == [] then []
    else
      var t := Lower(Strip(parts[0], IsOws));
      (if t == "" then [] else [t]) + NonEmpty(parts[1..])
  }

  /** The transfer codings that a list of transfer-encoding values names, in order. */
  function Codings(values: seq<Bytes>): seq<Bytes> {
    if values == [] then []
    else Codings(values[..|values| - 1]) + NonEmpty(Split(values[|values| - 1], ','))
  }

  /** Section 6.3 of RFC 9112, for a response. */
  function FramingOf(isHead: bool, status: nat, fs: seq<Field>): Framing {
    var codings := Codings(ValuesOf(fs, "transfer-encoding"));
    var lengths := ValuesOf(fs, "content-length");
    if isHead || BodylessStatus(status) then NoBody
    else if codings != [] then
      if codings[|codings| - 1] != "chunked" then UntilClose
      else if multiset(codings)["chunked"] == 1 then Chunked else Invalid
    else if lengths != [] then
      if |lengths| == 1 && lengths[0] != "" && AllDigits(lengths[0]) then Length(DecimalValue(lengths[0])) else Invalid
    else UntilClose
  }

  /** chunked-body (section 7.1 of RFC 9112), without extensions or trailers: content and what follows. */
  function ReadChunks(s: Bytes): (r: Option<(Bytes, Bytes)>)
    ensures r.Some? ==> |r.value.1| < |s|
    decreases |s|
  {
    match TakeLine(s)
    case None => None
    case Some((size, rest)) =>
      if size == "" || !AllHexDigits(size) then None
      else
        var n := HexValue(size);
        if n == 0 then
          if CRLF <= rest then Some(("", rest[2..])) else None
        else if |rest| < n + 2 || rest[n..n + 2] != CRLF then None
        else
          match ReadChunks(rest[n + 2..])
          case None => None
          case Some((more, after)) => Some((rest[..n] + more, after))
  }

  function ReadBody(framing: Framing, s: Bytes): (r: Option<(Bytes, Bytes)>)
    ensures r.Some? ==> |r.value.1| <= |s|
  {
    match framing
    case NoBody => Some(("", s))
    case Chunked => ReadChunks(s)
    case Length(n) => if n <= |s| then Some((s[..n], s[n..])) else None
    case _ => None
  }

  datatype Reply = Reply(status: nat, fields: seq<Field>, body: Bytes)

  /** Reads one message off the front of the stream. */
  function ReadMessage(isHead: bool, s: Bytes): (r: Option<(Reply, Bytes)>)
    ensures r.Some? ==> |r.value.1| < |s|
  {
    match TakeLine(s)
    case None => None
    case Some((line, rest)) =>
      match (ReadStatusLine(line), ReadFields(rest))
      case (Some(status), Some((fs, after))) =>
        (match ReadBody(FramingOf(isHead, status, fs), after)
         case None => None
         case Some((body, left)) => Some((Reply(status, fs, body), left)))
      case _ => None
  }

  /** Reads the final response to one request, passing over interim ones (section 15.2 of RFC 9110). */
  function ReadFinal(isHead: bool, s: Bytes): (r: Option<(Reply, Bytes)>)
    ensures r.Some? ==> |r.value.1| < |s|
    decreases |s|
  {
    match ReadMessage(isHead, s)
    case None => None
    case Some((reply, rest)) =>
      if reply.status < 200 then ReadFinal(isHead, rest) else Some((reply, rest))
  }

  /** A client that sent these requests, in this order, reads their responses (section 9.3.2 of RFC 9112). */
  function ReadAll(isHead: seq<bool>, s: Bytes): Option<(seq<Reply>, Bytes)> {
    if isHead == [] then Some(([], s))
    else
      match ReadFinal(isHead[0], s)
      case None => None
      case Some((reply, rest)) =>
        match ReadAll(isHead[1..], rest)
        case None => None
        case Some((replies, left)) => Some(([reply] + replies, left))
  }

  // ---------- reading back what was written ----------

  predicate OneLine(s: Bytes) { forall i :: 0 <= i < |s| ==> s[i] != '\r' }

  lemma {:induction false} TakeLineOf(line: Bytes, rest: Bytes)
    requires OneLine(line)
    ensures TakeLine(line + CRLF + rest) == Some((line, rest))
  {
    var s := line + CRLF + rest;
    if line == "" {
      assert s[2..] == rest;
    } else {
      TakeLineOf(line[1..], rest);
      assert s[1..] == line[1..] + CRLF + rest;
      assert [line[0]] + line[1..] == line;
    }
  }

  lemma {:induction false} ColonAfter(name: Bytes, rest: Bytes)
    requires ':' !in name
    ensures ColonAt(name + ":" + rest) == |name|
  {
    var s := name + ":" + rest;
    if name != "" {
      ColonAfter(name[1..], rest);
      assert s[1..] == name[1..] + ":" + rest;
    }
  }

  /** What a client makes of a field: the same name, the value without surrounding blanks. */
  function Seen(f: Field): Field { Field(f.name, Strip(f.value, IsOws)) }

  function AllSeen(fs: seq<Field>): (r: seq<Field>)
    ensures |r| == |fs|
  {
    seq(|fs|, i requires 0 <= i < |fs| => Seen(fs[i]))
  }

  predicate Writable(f: Field) { OneLine(f.name) && OneLine(f.value) && ':' !in f.name }

  lemma ReadFieldLineOf(f: Field)
    requires Writable(f)
    ensures ReadFieldLine(f.name + ": " + f.value) == Some(Seen(f))
  {
    var line := f.name + ": " + f.value;
    assert line == f.name + ":" + (" " + f.value);
    ColonAfter(f.name, " " + f.value);
    assert line[..|f.name|] == f.name;
    assert line[|f.name| + 1..] == " " + f.value;
    assert StripLeft(" " + f.value, IsOws) == StripLeft(f.value, IsOws) by {
      assert (" " + f.value)[1..] == f.value;
    }
  }

  lemma OneFieldThen(f: Field, s: Bytes)
    requires Writable(f)
    ensures var r := ReadFields(s);
            ReadFields(FieldLine(f) + s) == if r.None? then None else Some(([Seen(f)] + r.value.0, r.value.1))
  {
    var line := f.name + ": " + f.value;
    assert FieldLine(f) + s == line + CRLF + s;
    TakeLineOf(line, s);
    ReadFieldLineOf(f);
  }

  /** Field lines in front of any header section extend its fields at the front. */
  lemma {:induction false} FieldsThen(fs: seq<Field>, s: Bytes)
    requires forall i :: 0 <= i < |fs| ==> Writable(fs[i])
    ensures var r := ReadFields(s);
            ReadFields(FieldLines(fs) + s) == if r.None? then None else Some((AllSeen(fs) + r.value.0, r.value.1))
  {
    hide ReadFields, FieldLine, Writable;
    if fs == [] {
      assert FieldLines(fs) + s == s;
      if ReadFields(s).Some? { assert AllSeen(fs) + ReadFields(s).value.0 == ReadFields(s).value.0; }
    } else {
      var front, f := fs[..|fs| - 1], fs[|fs| - 1];
      assert FieldLines(fs) + s == FieldLines(front) + (FieldLine(f) + s);
      FieldsThen(front, FieldLine(f) + s);
      OneFieldThen(f, s);
      if ReadFields(s).Some? {
        var after := ReadFields(s).value.0;
        assert AllSeen(front) + ([Seen(f)] + after) == AllSeen(fs) + after;
      }
    }
  }

  lemma ReadFieldsOf(fs: seq<Field>, rest: Bytes)
    requires forall i :: 0 <= i < |fs| ==> Writable(fs[i])
    ensures ReadFields(FieldLines(fs) + CRLF + rest) == Some((AllSeen(fs), rest))
  {
    assert FieldLines(fs) + CRLF + rest == FieldLines(fs) + (CRLF + rest);
    FieldsThen(fs, CRLF + rest);
    assert "" + CRLF + rest == CRLF + rest;
    TakeLineOf("", rest);
    assert AllSeen(fs) + [] == AllSeen(fs);
  }

  lemma ReadStatusLineOf(status: nat, reason: Bytes)
    requires 100 <= status < 1000
    ensures ReadStatusLine("HTTP/1.1 " + Decimal(status) + " " + reason) == Some(status)
  {
    var digits := Decimal(status);
    ThreeDigits(status);
    var line := "HTTP/1.1 " + digits + " " + reason;
    assert line[9..12] == digits;
    assert line[..9] == "HTTP/1.1 ";
  }

  lemma ThreeDigits(n: nat)
    requires 100 <= n < 1000
    ensures |Decimal(n)| == 3
  {
    assert |Decimal(n / 100)| == 1;
    assert |Decimal(n / 10)| == 2;
  }

  /** A head written by the server is read back, whatever follows it. */
  lemma ReadMessageOf(isHead: bool, status: nat, reason: Bytes, fs: seq<Field>, after: Bytes)
    requires 100 <= status < 1000 && OneLine(reason)
    requires forall i :: 0 <= i < |fs| ==> Writable(fs[i])
    ensures ReadMessage(isHead, Head(status, reason, fs) + after)
         == match ReadBody(FramingOf(isHead, status, AllSeen(fs)), after)
            case None => None
            case Some((body, left)) => Some((Reply(status, AllSeen(fs), body), left))
  {
    var line := "HTTP/1.1 " + Decimal(status) + " " + reason;
    var rest := FieldLines(fs) + CRLF + after;
    assert Head(status, reason, fs) + after == line + CRLF + rest;
    TakeLineOf(line, rest);
    ReadStatusLineOf(status, reason);
    ReadFieldsOf(fs, after);
  }

  /** Prefixing the interim 100 response changes nothing for the reader of the final one. */
  lemma ReadPastContinue(isHead: bool, s: Bytes)
    ensures ReadFinal(isHead, CONTINUE + s) == ReadFinal(isHead, s)
  {
    var line: Bytes := "HTTP/1.1 100 Continue";
    assert CONTINUE + s == line + CRLF + (CRLF + s);
    TakeLineOf(line, CRLF + s);
    assert line[9..12] == "100" && line[..9] == "HTTP/1.1 " && "100"[..2] == "10" && "10"[..1] == "1" && "1"[..0] == "";
    assert ReadStatusLine(line) == Some(100);
    TakeLineOf("", s);
    assert "" + CRLF + s == CRLF + s;
    assert ReadMessage(isHead, CONTINUE + s) == Some((Reply(100, [], ""), s));
  }

  lemma ReadChunksOf(bodies: seq<Bytes>, rest: Bytes)
    ensures ReadChunks(Chunks(bodies) + LAST_CHUNK + rest) == Some((Concat(bodies), rest))
  {
    hide ReadChunks, Chunks, Concat;
    ChunksThen(bodies, LAST_CHUNK + rest);
    assert Chunks(bodies) + LAST_CHUNK + rest == Chunks(bodies) + (LAST_CHUNK + rest);
    ReadLastChunk(rest);
    assert Concat(bodies) + "" == Concat(bodies);
  }

  lemma ReadLastChunk(rest: Bytes)
    ensures ReadChunks(LAST_CHUNK + rest) == Some(("", rest))
  {
    var tail := CRLF + rest;
    assert LAST_CHUNK + rest == "0" + CRLF + tail;
    TakeLineOf("0", tail);
    assert "0"[..0] == "" && HexValue("0") == 0;
    assert tail[2..] == rest && CRLF <= tail;
  }

  /** Chunks in front of any chunked body extend its content at the front. */
  lemma {:induction false} ChunksThen(bodies: seq<Bytes>, s: Bytes)
    ensures var r := ReadChunks(s);
            ReadChunks(Chunks(bodies) + s) ==
            if r.None? then None else Some((Concat(bodies) + r.value.0, r.value.1))
  {
    if bodies == [] {
      assert Chunks(bodies) + s == s;
      if ReadChunks(s).Some? { assert "" + ReadChunks(s).value.0 == ReadChunks(s).value.0; }
    } else {
      var front, b := bodies[..|bodies| - 1], bodies[|bodies| - 1];
      assert Chunks(bodies) + s == Chunks(front) + (Chunk(b) + s);
      ChunksThen(front, Chunk(b) + s);
      OneChunkThen(b, s);
      if ReadChunks(s).Some? {
        var c := ReadChunks(s).value.0;
        assert Concat(front) + (b + c) == Concat(bodies) + c;
      }
    }
  }

  lemma OneChunkThen(b: Bytes, s: Bytes)
    ensures var r := ReadChunks(s);
            ReadChunks(Chunk(b) + s) == if r.None? then None else Some((b + r.value.0, r.value.1))
  {
    if b == "" {
      assert Chunk(b) + s == s;
      if ReadChunks(s).Some? { assert b + ReadChunks(s).value.0 == ReadChunks(s).value.0; }
    } else {
      var rest := b + CRLF + s;
      assert Chunk(b) + s == Hex(|b|) + CRLF + rest;
      TakeLineOf(Hex(|b|), rest);
      assert rest[|b|..|b| + 2] == CRLF && rest[|b| + 2..] == s && rest[..|b|] == b;
    }
  }
}
